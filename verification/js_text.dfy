/**
 * The string operations the dashboard applies to names and labels:
 * JavaScript's white-space class (`\s`, `trim`), ASCII case mapping,
 * the `replace(/\s+/g, '_')` used in file names, the bowling-type label
 * format, and decimal rendering of counters.
 */
module JsText {

  /** The characters ECMAScript counts as WhiteSpace or LineTerminator (`\s` and `trim`). */
  predicate IsSpace(c: char) {
    || c == '\t' || c == '\n' || c == '\U{B}' || c == '\U{C}' || c == '\r' || c == ' '
    || c == '\U{A0}' || c == '\U{1680}' || ('\U{2000}' <= c <= '\U{200A}')
    || c == '\U{2028}' || c == '\U{2029}' || c == '\U{202F}' || c == '\U{205F}'
    || c == '\U{3000}' || c == '\U{FEFF}'
  }

  predicate NoSpace(s: string) {
    forall i :: 0 <= i < |s| ==> !IsSpace(s[i])
  }

  predicate AllSpace(s: string) {
    forall i :: 0 <= i < |s| ==> IsSpace(s[i])
  }

  /** Drops the leading white space. */
  function TrimStart(s: string): (r: string)
    ensures |r| <= |s| && r == s[|s| - |r|..]
    ensures AllSpace(s[..|s| - |r|])
    ensures r == [] || !IsSpace(r[0])
  {
    if s != [] && IsSpace(s[0]) then TrimStart(s[1..]) else s
  }

  /** Drops the trailing white space. */
  function TrimEnd(s: string): (r: string)
    ensures |r| <= |s| && r == s[..|r|]
    ensures AllSpace(s[|r|..])
    ensures r == [] || !IsSpace(r[|r| - 1])
  {
    if s != [] && IsSpace(s[|s| - 1]) then TrimEnd(s[..|s| - 1]) else s
  }

  /** `s.trim()`. */
  function Trim(s: string): string {
    TrimEnd(TrimStart(s))
  }

  /** The trimmed string is a slice of `s` with only white space cut away, and starts and ends with non-space. */
  lemma TrimIsSpaceFreeCore(s: string)
    ensures exists a, b :: 0 <= a <= b <= |s| && Trim(s) == s[a..b] && AllSpace(s[..a]) && AllSpace(s[b..])
    ensures Trim(s) == [] || (!IsSpace(Trim(s)[0]) && !IsSpace(Trim(s)[|Trim(s)| - 1]))
  {
    var t := TrimStart(s);
    var a := |s| - |t|;
    assert t == s[a..] && AllSpace(s[..a]);
    var r := TrimEnd(t);
    assert r == t[..|r|] && AllSpace(t[|r|..]);
    var b := a + |r|;
    assert s[a..b] == r by {
      assert s[a..][..|r|] == s[a..b];
    }
    assert s[b..] == t[|r|..] by {
      assert s[a..][|r|..] == s[b..];
    }
    assert Trim(s) == r;
    assert 0 <= a <= b <= |s| && Trim(s) == s[a..b] && AllSpace(s[..a]) && AllSpace(s[b..]);
  }

  /** Trimming twice is trimming once. */
  lemma {:induction false} TrimIdempotent(s: string)
    ensures Trim(Trim(s)) == Trim(s)
  {
    TrimIsSpaceFreeCore(s);
    var r := Trim(s);
    assert TrimStart(r) == r;
    assert TrimEnd(r) == r;
  }

  /** `s.replace(/\s+/g, rep)`: every maximal run of white space becomes one copy of `rep`. */
  function ReplaceSpaceRuns(s: string, rep: string): (r: string)
    requires NoSpace(rep)
    ensures NoSpace(r)
    decreases |s|
  {
    if s == [] then []
    else if IsSpace(s[0]) then rep + ReplaceSpaceRuns(TrimStart(s[1..]), rep)
    else [s[0]] + ReplaceSpaceRuns(s[1..], rep)
  }

  /** A string without white space is left as it is. */
  lemma {:induction false} ReplaceSpaceRunsNoSpace(s: string, rep: string)
    requires NoSpace(rep) && NoSpace(s)
    ensures ReplaceSpaceRuns(s, rep) == s
  {
    if s != [] {
      ReplaceSpaceRunsNoSpace(s[1..], rep);
    }
  }

  /** A run `w` of white space between two non-space boundaries is replaced by exactly one `rep`. */
  lemma {:induction false} ReplaceOneRun(a: string, w: string, b: string, rep: string)
    requires NoSpace(rep)
    requires a == [] || !IsSpace(a[|a| - 1])
    requires w != [] && AllSpace(w)
    requires b == [] || !IsSpace(b[0])
    ensures ReplaceSpaceRuns(a + w + b, rep) == ReplaceSpaceRuns(a, rep) + rep + ReplaceSpaceRuns(b, rep)
    decreases |a|, 1
  {
    if a == [] {
      ReplaceRunAtStart(w, b, rep);
      EmptyLeft(w, b);
      var rb := ReplaceSpaceRuns(b, rep);
      assert ReplaceSpaceRuns(a, rep) == [];
      EmptyLeft(rep, rb);
    } else if IsSpace(a[0]) {
      ReplaceOneRunSpaceFirst(a, w, b, rep);
    } else {
      ReplaceOneRunWordFirst(a, w, b, rep);
    }
  }

  lemma {:induction false} ReplaceOneRunSpaceFirst(a: string, w: string, b: string, rep: string)
    requires NoSpace(rep)
    requires a != [] && IsSpace(a[0]) && !IsSpace(a[|a| - 1])
    requires w != [] && AllSpace(w)
    requires b == [] || !IsSpace(b[0])
    ensures ReplaceSpaceRuns(a + w + b, rep) == ReplaceSpaceRuns(a, rep) + rep + ReplaceSpaceRuns(b, rep)
    decreases |a|, 0
  {
    var x := w + b;
    Assoc(a, w, b);
    var t := TrimStart(a[1..]);
    ReplaceSpaceAfterSpace(a, x, rep);
    ReplaceOneRun(t, w, b, rep);
    Assoc(t, w, b);
    var rt, rb := ReplaceSpaceRuns(t, rep), ReplaceSpaceRuns(b, rep);
    calc {
      ReplaceSpaceRuns(a + x, rep);
      rep + ReplaceSpaceRuns(t + x, rep);
      rep + (rt + rep + rb);
      { Assoc(rep, rt + rep, rb); Assoc(rep, rt, rep); }
      (rep + rt) + rep + rb;
      ReplaceSpaceRuns(a, rep) + rep + rb;
    }
  }

  lemma {:induction false} ReplaceOneRunWordFirst(a: string, w: string, b: string, rep: string)
    requires NoSpace(rep)
    requires a != [] && !IsSpace(a[0]) && !IsSpace(a[|a| - 1])
    requires w != [] && AllSpace(w)
    requires b == [] || !IsSpace(b[0])
    ensures ReplaceSpaceRuns(a + w + b, rep) == ReplaceSpaceRuns(a, rep) + rep + ReplaceSpaceRuns(b, rep)
    decreases |a|, 0
  {
    var x := w + b;
    Assoc(a, w, b);
    var a' := a[1..];
    assert a' == [] || a'[|a'| - 1] == a[|a| - 1];
    ReplaceOneRun(a', w, b, rep);
    ReplaceAfterNonSpace(a, x, rep);
    Assoc(a', w, b);
    var ra, rb := ReplaceSpaceRuns(a', rep), ReplaceSpaceRuns(b, rep);
    calc {
      ReplaceSpaceRuns(a + x, rep);
      [a[0]] + ReplaceSpaceRuns(a' + x, rep);
      [a[0]] + (ra + rep + rb);
      { Assoc([a[0]], ra + rep, rb); Assoc([a[0]], ra, rep); }
      ([a[0]] + ra) + rep + rb;
      ReplaceSpaceRuns(a, rep) + rep + rb;
    }
  }

  lemma Assoc<T>(a: seq<T>, b: seq<T>, c: seq<T>)
    ensures a + (b + c) == a + b + c
  {
  }

  lemma EmptyLeft<T>(w: seq<T>, b: seq<T>)
    ensures [] + w + b == w + b
  {
  }

  lemma ReplaceRunAtStart(w: string, b: string, rep: string)
    requires NoSpace(rep)
    requires w != [] && AllSpace(w)
    requires b == [] || !IsSpace(b[0])
    ensures ReplaceSpaceRuns(w + b, rep) == rep + ReplaceSpaceRuns(b, rep)
  {
    assert (w + b)[0] == w[0];
    assert (w + b)[1..] == w[1..] + b;
    TrimStartOfRun(w[1..], b);
  }

  lemma ReplaceSpaceAfterSpace(a: string, y: string, rep: string)
    requires NoSpace(rep)
    requires a != [] && IsSpace(a[0]) && !IsSpace(a[|a| - 1])
    ensures ReplaceSpaceRuns(a + y, rep) == rep + ReplaceSpaceRuns(TrimStart(a[1..]) + y, rep)
    ensures ReplaceSpaceRuns(a, rep) == rep + ReplaceSpaceRuns(TrimStart(a[1..]), rep)
    ensures TrimStart(a[1..]) != [] && !IsSpace(TrimStart(a[1..])[|TrimStart(a[1..])| - 1])
    ensures |TrimStart(a[1..])| < |a|
  {
    assert (a + y)[0] == a[0];
    assert (a + y)[1..] == a[1..] + y;
    assert a[1..][|a| - 2] == a[|a| - 1];
    TrimStartPrefix(a[1..], y);
  }

  lemma ReplaceAfterNonSpace(a: string, y: string, rep: string)
    requires NoSpace(rep)
    requires a != [] && !IsSpace(a[0])
    ensures ReplaceSpaceRuns(a + y, rep) == [a[0]] + ReplaceSpaceRuns(a[1..] + y, rep)
    ensures ReplaceSpaceRuns(a, rep) == [a[0]] + ReplaceSpaceRuns(a[1..], rep)
  {
    assert (a + y)[0] == a[0];
    assert (a + y)[1..] == a[1..] + y;
  }

  lemma {:induction false} TrimStartOfRun(w: string, b: string)
    requires AllSpace(w)
    requires b == [] || !IsSpace(b[0])
    ensures TrimStart(w + b) == b
    decreases |w|
  {
    if w == [] {
      assert w + b == b;
    } else {
      assert (w + b)[1..] == w[1..] + b;
      TrimStartOfRun(w[1..], b);
    }
  }

  lemma {:induction false} TrimStartPrefix(x: string, y: string)
    requires exists i :: 0 <= i < |x| && !IsSpace(x[i])
    ensures TrimStart(x + y) == TrimStart(x) + y
    decreases |x|
  {
    if IsSpace(x[0]) {
      assert (x + y)[1..] == x[1..] + y;
      var i :| 0 <= i < |x| && !IsSpace(x[i]);
      assert !IsSpace(x[1..][i - 1]);
      TrimStartPrefix(x[1..], y);
    }
  }

  /** ASCII upper-casing of one character; other characters are left alone. */
  function UpperChar(c: char): char {
    if 'a' <= c <= 'z' then (c as int - 32) as char else c
  }

  /** ASCII lower-casing of one character; other characters are left alone. */
  function LowerChar(c: char): char {
    if 'A' <= c <= 'Z' then (c as int + 32) as char else c
  }

  predicate IsCapital(c: char) {
    'A' <= c <= 'Z'
  }

  /** `s.toLowerCase()` on ASCII letters. */
  function ToLower(s: string): (r: string)
    ensures |r| == |s|
    ensures forall i :: 0 <= i < |s| ==> r[i] == LowerChar(s[i])
  {
    seq(|s|, i requires 0 <= i < |s| => LowerChar(s[i]))
  }

  /** `s.replace(/([A-Z])/g, ' $1')`: a space is put before every capital letter. */
  function SpaceBeforeCapitals(s: string): (r: string)
    ensures |r| >= |s|
  {
    if s == [] then []
    else (if IsCapital(s[0]) then [' ', s[0]] else [s[0]]) + SpaceBeforeCapitals(s[1..])
  }

  /** Without capitals there is nothing to replace. */
  lemma {:induction false} NoCapitalsNoChange(s: string)
    requires forall i :: 0 <= i < |s| ==> !IsCapital(s[i])
    ensures SpaceBeforeCapitals(s) == s
  {
    if s != [] {
      NoCapitalsNoChange(s[1..]);
    }
  }

  /** Lower-casing removes every capital, so the capital-letter replace that follows it is a no-op. */
  lemma CapitalReplaceAfterLowerIsNoOp(s: string)
    ensures SpaceBeforeCapitals(ToLower(s)) == ToLower(s)
  {
    NoCapitalsNoChange(ToLower(s));
  }

  /**
   * The bowling-type label: `k.charAt(0).toUpperCase() + k.slice(1).toLowerCase()
   * .replace(/([A-Z])/g, ' $1').trim()`. The method chain binds tighter than `+`,
   * so only the part after the first character is trimmed.
   */
  function FormatLabel(k: string): string {
    if k == [] then []
    else [UpperChar(k[0])] + Trim(SpaceBeforeCapitals(ToLower(k[1..])))
  }

  /** The label is the capitalised first character followed by the lower-cased, trimmed rest. */
  lemma FormatLabelShape(k: string)
    ensures k == [] ==> FormatLabel(k) == []
    ensures k != [] ==> FormatLabel(k) == [UpperChar(k[0])] + Trim(ToLower(k[1..]))
    ensures |FormatLabel(k)| <= |k|
  {
    if k != [] {
      CapitalReplaceAfterLowerIsNoOp(k[1..]);
      TrimIsSpaceFreeCore(ToLower(k[1..]));
    }
  }

  lemma LowerKeepsSpace(c: char)
    ensures IsSpace(LowerChar(c)) == IsSpace(c)
    ensures LowerChar(LowerChar(c)) == LowerChar(c)
  {
  }

  lemma {:induction false} LowerTrimStartCommute(s: string)
    ensures ToLower(TrimStart(s)) == TrimStart(ToLower(s))
    decreases |s|
  {
    if s != [] {
      LowerKeepsSpace(s[0]);
      if IsSpace(s[0]) {
        assert ToLower(s)[1..] == ToLower(s[1..]);
        LowerTrimStartCommute(s[1..]);
      }
    }
  }

  lemma {:induction false} LowerTrimEndCommute(s: string)
    ensures ToLower(TrimEnd(s)) == TrimEnd(ToLower(s))
    decreases |s|
  {
    if s != [] {
      LowerKeepsSpace(s[|s| - 1]);
      if IsSpace(s[|s| - 1]) {
        assert ToLower(s)[..|s| - 1] == ToLower(s[..|s| - 1]);
        LowerTrimEndCommute(s[..|s| - 1]);
      }
    }
  }

  lemma LowerIdempotent(s: string)
    ensures ToLower(ToLower(s)) == ToLower(s)
  {
  }

  /** Lower-casing commutes with trimming, because it maps white space to white space. */
  lemma LowerTrimCommute(s: string)
    ensures ToLower(Trim(s)) == Trim(ToLower(s))
  {
    LowerTrimStartCommute(s);
    LowerTrimEndCommute(TrimStart(s));
  }

  /** Formatting an already formatted label changes nothing. */
  lemma FormatLabelIdempotent(k: string)
    ensures FormatLabel(FormatLabel(k)) == FormatLabel(k)
  {
    if k != [] {
      FormatLabelShape(k);
      var rest := Trim(ToLower(k[1..]));
      var f := [UpperChar(k[0])] + rest;
      assert f[1..] == rest && f[0] == UpperChar(k[0]);
      FormatLabelShape(f);
      LoweredTrimStable(k[1..]);
      TrimIdempotent(ToLower(k[1..]));
      UpperIdempotent(k[0]);
    }
  }

  /** A lower-cased, trimmed string is left alone by lower-casing. */
  lemma LoweredTrimStable(x: string)
    ensures ToLower(Trim(ToLower(x))) == Trim(ToLower(x))
  {
    LowerTrimCommute(ToLower(x));
    LowerIdempotent(x);
  }

  lemma UpperIdempotent(c: char)
    ensures UpperChar(UpperChar(c)) == UpperChar(c)
  {
  }

  /** `s.includes(sub)`. */
  predicate Contains(s: string, sub: string) {
    exists i :: 0 <= i <= |s| && sub <= s[i..]
  }

  predicate IsDigit(c: char) {
    '0' <= c <= '9'
  }

  function DigitChar(d: nat): (c: char)
    requires d < 10
    ensures IsDigit(c) && c as int - '0' as int == d
  {
    ('0' as int + d) as char
  }

  /** The decimal rendering of a counter, as template literals print it. */
  function NatToString(n: nat): (r: string)
    ensures |r| >= 1 && forall i :: 0 <= i < |r| ==> IsDigit(r[i])
    ensures r[0] == '0' ==> n == 0
  {
    if n < 10 then [DigitChar(n)] else NatToString(n / 10) + [DigitChar(n % 10)]
  }

  /** The value of a string of decimal digits. */
  function DigitsValue(s: string): nat
    requires forall i :: 0 <= i < |s| ==> IsDigit(s[i])
  {
    if s == [] then 0
    else
      assert IsDigit(s[|s| - 1]);
      DigitsValue(s[..|s| - 1]) * 10 + (s[|s| - 1] as int - '0' as int)
  }

  /** Reading back a rendered counter gives the counter. */
  lemma {:induction false} NatToStringRoundTrip(n: nat)
    ensures DigitsValue(NatToString(n)) == n
  {
    if n >= 10 {
      NatToStringRoundTrip(n / 10);
      var r := NatToString(n);
      assert r[..|r| - 1] == NatToString(n / 10);
    }
  }

  /** Distinct counters render differently. */
  lemma NatToStringInjective(m: nat, n: nat)
    requires NatToString(m) == NatToString(n)
    ensures m == n
  {
    NatToStringRoundTrip(m);
    NatToStringRoundTrip(n);
  }
}
