/**
 * The over-by-over slide (src/components/OverByOverSlide.js): the stacked
 * chart rows built from the per-over bowler lists, the list of bowlers that
 * get a bar, their colours, and the two tooltips.
 */
module OverByOver {
  import opened Wrappers
  import opened JsNumbers

  datatype BowlerSpell = BowlerSpell(name: string, overs: real)
  datatype OverInfo = OverInfo(over: real, bowlers: seq<BowlerSpell>)


  function Names(bs: seq<BowlerSpell>): (r: seq<string>)
    ensures |r| == |bs| && forall i :: 0 <= i < |bs| ==> r[i] == bs[i].name
  {
    seq(|bs|, i requires 0 <= i < |bs| => bs[i].name)
  }

  function Overs(bs: seq<BowlerSpell>): (r: seq<real>)
    ensures |r| == |bs| && forall i :: 0 <= i < |bs| ==> r[i] == bs[i].overs
  {
    seq(|bs|, i requires 0 <= i < |bs| => bs[i].overs)
  }

  // ---------------------------------------------------------------- insertion order

  /** `Array.from(new Set(s))`: each value once, in order of first appearance. */
  function FirstSeen<T(==)>(s: seq<T>): seq<T> {
    if s == [] then []
    else
      var p := FirstSeen(s[..|s| - 1]);
      if s[|s| - 1] in p then p else p + [s[|s| - 1]]
  }

  /** The `Set` holds exactly the values added to it. */
  lemma {:induction false} FirstSeenMembers<T>(s: seq<T>, x: T)
    ensures x in FirstSeen(s) <==> x in s
  {
    if s != [] {
      var n := |s| - 1;
      FirstSeenMembers(s[..n], x);
      assert s == s[..n] + [s[n]];
    }
  }

  predicate Distinct<T(==)>(s: seq<T>) {
    forall i, j :: 0 <= i < j < |s| ==> s[i] != s[j]
  }

  /** The position of the first occurrence of `x` in `s`. */
  function FirstIndex<T(==)>(s: seq<T>, x: T): (k: nat)
    requires x in s
    ensures k < |s| && s[k] == x && forall j :: 0 <= j < k ==> s[j] != x
  {
    if s[0] == x then 0 else 1 + FirstIndex(s[1..], x)
  }

  lemma {:induction false} FirstIndexOfPrefix<T>(s: seq<T>, n: nat, x: T)
    requires n <= |s| && x in s[..n]
    ensures x in s && FirstIndex(s, x) == FirstIndex(s[..n], x)
  {
    assert s[..n][0] == s[0];
    if s[0] != x {
      assert s[..n][1..] == s[1..][..n - 1];
      FirstIndexOfPrefix(s[1..], n - 1, x);
    }
  }

  /** No value repeats, and values come in order of their first appearance. */
  lemma {:induction false} FirstSeenOrder<T(!new)>(s: seq<T>)
    ensures Distinct(FirstSeen(s))
    ensures forall p, q :: 0 <= p < q < |FirstSeen(s)| ==>
      FirstSeen(s)[p] in s && FirstSeen(s)[q] in s && FirstIndex(s, FirstSeen(s)[p]) < FirstIndex(s, FirstSeen(s)[q])
  {
    if s != [] {
      var n := |s| - 1;
      var init := s[..n];
      var p := FirstSeen(init);
      FirstSeenOrder(init);
      var r := FirstSeen(s);
      forall q | 0 <= q < |p| ensures p[q] in init && p[q] in s && FirstIndex(s, p[q]) == FirstIndex(init, p[q]) && FirstIndex(init, p[q]) < n {
        FirstSeenMembers(init, p[q]);
        FirstIndexOfPrefix(s, n, p[q]);
      }
      if s[n] !in p {
        FirstSeenMembers(init, s[n]);
        assert FirstIndex(s, s[n]) == n by {
          forall j | 0 <= j < n ensures s[j] != s[n] {
            assert s[j] == init[j];
          }
        }
      }
    }
  }

  // ---------------------------------------------------------------- over rows

  /**
   * A JavaScript object built by assignment: `Object.keys` order (insertion
   * order) and the value of each key.
   */
  datatype Record<K> = Record(keys: seq<K>, values: map<K, real>)

  /** The keys listed are exactly the keys holding a value, each once. */
  predicate WellFormed<K(!new)>(o: Record<K>) {
    && Distinct(o.keys)
    && (forall k :: k in o.keys ==> k in o.values)
    && (forall k :: k in o.values ==> k in o.keys)
  }

  /** `o[k] = v`: an existing key keeps its place, a new key goes last. */
  function Assign<K(==)>(o: Record<K>, k: K, v: real): Record<K> {
    Record(if k in o.keys then o.keys else o.keys + [k], o.values[k := v])
  }

  /** One bowler of the `forEach`: `overData[name] = overs; overData.total += overs`. */
  function AddSpell<K(==)>(row: Record<K>, totalKey: K, spell: (K, real)): (r: Record<K>)
    requires totalKey in row.values
    ensures totalKey in r.values
  {
    var named := Assign(row, spell.0, spell.1);
    Assign(named, totalKey, named.values[totalKey] + spell.1)
  }

  /** The row after the given spells, starting from `init`. */
  function RowAfter<K(==)>(init: Record<K>, totalKey: K, spells: seq<(K, real)>): (r: Record<K>)
    requires totalKey in init.values
    ensures totalKey in r.values
  {
    if spells == [] then init
    else AddSpell(RowAfter(init, totalKey, spells[..|spells| - 1]), totalKey, spells[|spells| - 1])
  }

  /** The spells as (name, overs) pairs. */
  function Spells(bs: seq<BowlerSpell>): (r: seq<(string, real)>)
    ensures |r| == |bs| && forall i :: 0 <= i < |bs| ==> r[i] == (bs[i].name, bs[i].overs)
  {
    seq(|bs|, i requires 0 <= i < |bs| => (bs[i].name, bs[i].overs))
  }

  function SpellNames<K>(spells: seq<(K, real)>): (r: seq<K>)
    ensures |r| == |spells| && forall i :: 0 <= i < |spells| ==> r[i] == spells[i].0
  {
    seq(|spells|, i requires 0 <= i < |spells| => spells[i].0)
  }

  function SpellOvers<K>(spells: seq<(K, real)>): (r: seq<real>)
    ensures |r| == |spells| && forall i :: 0 <= i < |spells| ==> r[i] == spells[i].1
  {
    seq(|spells|, i requires 0 <= i < |spells| => spells[i].1)
  }

  /** The last value the spells give to `k`, None when none names it. */
  function LastValue<K(==)>(spells: seq<(K, real)>, k: K): (r: Option<real>)
    ensures r.None? <==> k !in SpellNames(spells)
  {
    if spells == [] then None
    else if spells[|spells| - 1].0 == k then Some(spells[|spells| - 1].1)
    else
      assert SpellNames(spells)[..|spells| - 1] == SpellNames(spells[..|spells| - 1]);
      LastValue(spells[..|spells| - 1], k)
  }

  /** A sequence without repeats is its own `new Set` order. */
  lemma {:induction false} FirstSeenOfDistinct<T(!new)>(s: seq<T>)
    requires Distinct(s)
    ensures FirstSeen(s) == s
  {
    if s != [] {
      var n := |s| - 1;
      FirstSeenOfDistinct(s[..n]);
      assert s[n] !in s[..n];
      assert s[..n] + [s[n]] == s;
    }
  }

  /** The row's keys: those of `init`, then each spell's name where it first appears. */
  lemma {:induction false} RowAfterKeys<K(!new)>(init: Record<K>, totalKey: K, spells: seq<(K, real)>)
    requires Distinct(init.keys) && totalKey in init.keys && totalKey in init.values
    ensures RowAfter(init, totalKey, spells).keys == FirstSeen(init.keys + SpellNames(spells))
  {
    if spells == [] {
      assert init.keys + SpellNames(spells) == init.keys;
      FirstSeenOfDistinct(init.keys);
    } else {
      var n := |spells| - 1;
      var a := spells[n].0;
      var prev := RowAfter(init, totalKey, spells[..n]);
      var s' := init.keys + SpellNames(spells[..n]);
      RowAfterKeys(init, totalKey, spells[..n]);
      SpellNamesSnoc(init.keys, spells);
      FirstSeenAppend(s', a);
      assert totalKey in prev.keys by {
        assert totalKey in s';
        FirstSeenMembers(s', totalKey);
      }
      AddSpellKeys(prev, totalKey, spells[n]);
    }
  }

  lemma SpellNamesSnoc<K>(ks: seq<K>, spells: seq<(K, real)>)
    requires spells != []
    ensures ks + SpellNames(spells) == (ks + SpellNames(spells[..|spells| - 1])) + [spells[|spells| - 1].0]
  {
    var n := |spells| - 1;
    assert SpellNames(spells) == SpellNames(spells[..n]) + [spells[n].0];
  }

  /** A spell adds the bowler's name to the keys when it is new; `total` is already there. */
  lemma AddSpellKeys<K>(row: Record<K>, totalKey: K, spell: (K, real))
    requires totalKey in row.keys && totalKey in row.values
    ensures AddSpell(row, totalKey, spell).keys == if spell.0 in row.keys then row.keys else row.keys + [spell.0]
  {
  }

  /** The listed keys stay exactly the keys holding a value, each listed once. */
  lemma {:induction false} RowAfterWellFormed<K(!new)>(init: Record<K>, totalKey: K, spells: seq<(K, real)>)
    requires WellFormed(init) && totalKey in init.values
    ensures WellFormed(RowAfter(init, totalKey, spells))
  {
    if spells != [] {
      RowAfterWellFormed(init, totalKey, spells[..|spells| - 1]);
    }
  }

  /** `total` ends as its starting value plus every spell's overs. */
  lemma {:induction false} RowAfterTotal<K(!new)>(init: Record<K>, totalKey: K, spells: seq<(K, real)>)
    requires totalKey in init.values
    requires totalKey !in SpellNames(spells)
    ensures RowAfter(init, totalKey, spells).values[totalKey] == init.values[totalKey] + Sum(SpellOvers(spells))
  {
    if spells == [] {
      assert SpellOvers(spells) == [];
    } else {
      var n := |spells| - 1;
      assert SpellNames(spells[..n]) == SpellNames(spells)[..n];
      RowAfterTotal(init, totalKey, spells[..n]);
      var v := SpellOvers(spells);
      assert v[..n] == SpellOvers(spells[..n]);
      assert spells[n].0 == SpellNames(spells)[n];
    }
  }

  /** Any other key holds the last spell given to it, or its starting value when no spell names it. */
  lemma {:induction false} RowAfterOther<K(!new)>(init: Record<K>, totalKey: K, spells: seq<(K, real)>, k: K)
    requires totalKey in init.values && k != totalKey
    ensures var r := RowAfter(init, totalKey, spells);
      if LastValue(spells, k).Some? then k in r.values && r.values[k] == LastValue(spells, k).value
      else (k in r.values <==> k in init.values) && (k in init.values ==> r.values[k] == init.values[k])
  {
    if spells != [] {
      RowAfterOther(init, totalKey, spells[..|spells| - 1], k);
    }
  }

  /** The chart row type: `over`, `total` and one key per bowler name. */
  type OverRow = Record<string>

  /** `{ over: overInfo.over, total: 0 }`. */
  function InitialRow(over: real): OverRow {
    Record(["over", "total"], map["over" := over, "total" := 0.0])
  }

  /** The row of one over after its bowlers' `forEach`. */
  function OverRowOf(over: real, bs: seq<BowlerSpell>): OverRow {
    RowAfter(InitialRow(over), "total", Spells(bs))
  }

  predicate NoReservedNames(bs: seq<BowlerSpell>) {
    forall i :: 0 <= i < |bs| ==> bs[i].name != "over" && bs[i].name != "total"
  }

  lemma SpellsProjections(bs: seq<BowlerSpell>)
    ensures SpellNames(Spells(bs)) == Names(bs)
    ensures SpellOvers(Spells(bs)) == Overs(bs)
  {
  }

  /** The row's keys are `over`, `total`, then the bowler names in order of first appearance. */
  lemma OverRowKeys(over: real, bs: seq<BowlerSpell>)
    ensures OverRowOf(over, bs).keys == FirstSeen(["over", "total"] + Names(bs))
  {
    SpellsProjections(bs);
    RowAfterKeys(InitialRow(over), "total", Spells(bs));
  }

  /** With no bowler called `total`, `total` is the sum of every spell of the over. */
  lemma OverRowTotal(over: real, bs: seq<BowlerSpell>)
    requires NoReservedNames(bs)
    ensures OverRowOf(over, bs).values["total"] == Sum(Overs(bs))
  {
    SpellsProjections(bs);
    assert "total" !in Names(bs);
    RowAfterTotal(InitialRow(over), "total", Spells(bs));
  }

  /**
   * With no bowler called `over` or `total`, `over` is copied, each bowler's key
   * holds the last spell given to that name within the over, and no other key exists.
   */
  lemma OverRowBowlers(over: real, bs: seq<BowlerSpell>, name: string)
    requires NoReservedNames(bs)
    ensures "over" in OverRowOf(over, bs).values && OverRowOf(over, bs).values["over"] == over
    ensures name != "over" && name != "total" ==>
      (name in OverRowOf(over, bs).values <==> name in Names(bs))
      && (name in Names(bs) ==> OverRowOf(over, bs).values[name] == LastValue(Spells(bs), name).value)
  {
    SpellsProjections(bs);
    assert "over" !in Names(bs);
    RowAfterOther(InitialRow(over), "total", Spells(bs), "over");
    if name != "over" && name != "total" {
      RowAfterOther(InitialRow(over), "total", Spells(bs), name);
    }
  }

  /** One more bowler of the `forEach` adds that bowler's spell to the row so far. */
  lemma RowAfterNextSpell(init: Record<string>, bs: seq<BowlerSpell>, i: nat)
    requires "total" in init.values && i < |bs|
    ensures RowAfter(init, "total", Spells(bs[..i + 1]))
         == AddSpell(RowAfter(init, "total", Spells(bs[..i])), "total", (bs[i].name, bs[i].overs))
  {
    var sp := Spells(bs[..i + 1]);
    assert sp[..i] == Spells(bs[..i]);
    assert sp[i] == (bs[i].name, bs[i].overs);
  }

  /** The `map` callback for one over, with its `forEach` over the bowlers. */
  method TransformOver(info: OverInfo) returns (row: OverRow)
    ensures row == OverRowOf(info.over, info.bowlers)
    ensures row.keys == FirstSeen(["over", "total"] + Names(info.bowlers))
    ensures NoReservedNames(info.bowlers) ==> row.values["total"] == Sum(Overs(info.bowlers))
  {
    row := InitialRow(info.over);
    var i := 0;
    while i < |info.bowlers|
      invariant 0 <= i <= |info.bowlers|
      invariant row == RowAfter(InitialRow(info.over), "total", Spells(info.bowlers[..i]))
    {
      var b := info.bowlers[i];
      ghost var prev := row;
      row := Assign(row, b.name, b.overs);
      row := Assign(row, "total", row.values["total"] + b.overs);
      assert row == AddSpell(prev, "total", (b.name, b.overs));
      RowAfterNextSpell(InitialRow(info.over), info.bowlers, i);
      i := i + 1;
    }
    assert info.bowlers[..i] == info.bowlers;
    OverRowKeys(info.over, info.bowlers);
    if NoReservedNames(info.bowlers) {
      OverRowTotal(info.over, info.bowlers);
    }
  }

  /** `overs_data.map(...)`: one row per over, in input order. */
  method TransformOvers(infos: seq<OverInfo>) returns (rows: seq<OverRow>)
    ensures |rows| == |infos|
    ensures forall i :: 0 <= i < |infos| ==> rows[i] == OverRowOf(infos[i].over, infos[i].bowlers)
  {
    rows := [];
    var i := 0;
    while i < |infos|
      invariant 0 <= i <= |infos| && |rows| == i
      invariant forall j :: 0 <= j < i ==> rows[j] == OverRowOf(infos[j].over, infos[j].bowlers)
    {
      var row := TransformOver(infos[i]);
      rows := rows + [row];
      i := i + 1;
    }
  }

  // ---------------------------------------------------------------- bowlers and colours

  /** Every key of every row except `over` and `total`, row by row. */
  function BowlerKeys(rows: seq<OverRow>): seq<string> {
    if rows == [] then []
    else BowlerKeys(rows[..|rows| - 1]) + Without(rows[|rows| - 1].keys)
  }

  /** The keys that are neither `over` nor `total`, in order. */
  function Without(ks: seq<string>): (r: seq<string>)
    ensures forall x :: x in r <==> x in ks && x != "over" && x != "total"
  {
    if ks == [] then []
    else
      var last := ks[|ks| - 1];
      Without(ks[..|ks| - 1]) + (if last != "over" && last != "total" then [last] else [])
  }

  /** One more key in the inner loop: a bowler name not yet in the `Set` goes last. */
  lemma BowlerKeyStep(prefix: seq<string>, ks: seq<string>, j: nat)
    requires j < |ks|
    ensures var f := FirstSeen(prefix + Without(ks[..j]));
      FirstSeen(prefix + Without(ks[..j + 1])) ==
        if ks[j] == "over" || ks[j] == "total" || ks[j] in f then f else f + [ks[j]]
  {
    var seen := prefix + Without(ks[..j]);
    assert ks[..j + 1][..j] == ks[..j];
    if ks[j] != "over" && ks[j] != "total" {
      assert prefix + Without(ks[..j + 1]) == seen + [ks[j]];
      FirstSeenAppend(seen, ks[j]);
    } else {
      assert prefix + Without(ks[..j + 1]) == seen;
    }
  }

  /** `getAllBowlers()`: the `Set` filled over all rows and keys, then read back in insertion order. */
  method AllBowlers(rows: seq<OverRow>) returns (bowlers: seq<string>)
    ensures bowlers == FirstSeen(BowlerKeys(rows))
    ensures Distinct(bowlers)
    ensures forall x :: x in bowlers <==> x in BowlerKeys(rows)
  {
    bowlers := [];
    var i := 0;
    while i < |rows|
      invariant 0 <= i <= |rows|
      invariant bowlers == FirstSeen(BowlerKeys(rows[..i]))
    {
      var ks := rows[i].keys;
      var j := 0;
      assert BowlerKeys(rows[..i]) + Without(ks[..0]) == BowlerKeys(rows[..i]);
      while j < |ks|
        invariant 0 <= j <= |ks|
        invariant bowlers == FirstSeen(BowlerKeys(rows[..i]) + Without(ks[..j]))
      {
        BowlerKeyStep(BowlerKeys(rows[..i]), ks, j);
        if ks[j] != "over" && ks[j] != "total" {
          if ks[j] !in bowlers {
            bowlers := bowlers + [ks[j]];
          }
        }
        j := j + 1;
      }
      assert ks[..j] == ks;
      assert rows[..i + 1][..i] == rows[..i];
      i := i + 1;
    }
    assert rows[..i] == rows;
    FirstSeenOrder(BowlerKeys(rows));
    forall x ensures x in bowlers <==> x in BowlerKeys(rows) {
      FirstSeenMembers(BowlerKeys(rows), x);
    }
  }

  lemma FirstSeenAppend<T(!new)>(s: seq<T>, x: T)
    ensures FirstSeen(s + [x]) == if x in FirstSeen(s) then FirstSeen(s) else FirstSeen(s) + [x]
  {
    assert (s + [x])[..|s|] == s;
  }

  /** `colors`: the bar palette. */
  const Palette: seq<string> := [
    "#14b8a6", "#f59e0b", "#ef4444", "#8b5cf6", "#10b981", "#f97316", "#06b6d4", "#84cc16", "#ec4899", "#6366f1",
    "#22d3ee", "#fbbf24", "#fb7185", "#a78bfa", "#4ade80", "#facc15", "#f472b6", "#60a5fa", "#34d399", "#fcd34d"]

  /** `colors[index % colors.length]`. */
  function BowlerColor(index: nat): string {
    Palette[index % |Palette|]
  }

  /** The palette repeats every twenty bowlers, and within twenty bowlers no two share a colour. */
  lemma BowlerColors(i: nat, j: nat)
    ensures BowlerColor(i + 20) == BowlerColor(i)
    ensures i < j < 20 ==> BowlerColor(i) != BowlerColor(j)
  {
    assert |Palette| == 20;
    assert (i + 20) % 20 == i % 20;
    if i < j < 20 {
      assert Distinct(Palette);
    }
  }

  // ---------------------------------------------------------------- pacer / spinner view and tooltips

  datatype PacerSpinnerInfo = PacerSpinnerInfo(over: real, pacerOvers: real, spinnerOvers: real, totalOvers: real)
  datatype PacerSpinnerRow = PacerSpinnerRow(over: real, pacer: real, spinner: real, total: real)

  /** The pacer/spinner rows: one per over, in order, copying the counts. */
  function PacerSpinnerRows(infos: seq<PacerSpinnerInfo>): (r: seq<PacerSpinnerRow>)
    ensures |r| == |infos|
    ensures forall i :: 0 <= i < |infos| ==>
      r[i] == PacerSpinnerRow(infos[i].over, infos[i].pacerOvers, infos[i].spinnerOvers, infos[i].totalOvers)
  {
    seq(|infos|, i requires 0 <= i < |infos| =>
      PacerSpinnerRow(infos[i].over, infos[i].pacerOvers, infos[i].spinnerOvers, infos[i].totalOvers))
  }

  /** One tooltip entry: the bar's key and its value. */
  datatype Entry = Entry(dataKey: string, value: real)

  /** "over" or "overs": plural exactly when the value exceeds 1. */
  function OverWord(v: real): (w: string)
    ensures w == "overs" <==> v > 1.0
    ensures w == "over" <==> v <= 1.0
  {
    if v > 1.0 then "overs" else "over"
  }

  /** The bowler tooltip's entries: the payload entries with a positive value, in order. */
  function ActiveBowlers(payload: seq<Entry>): (r: seq<Entry>)
    ensures forall e :: e in r <==> e in payload && e.value > 0.0
    ensures |r| <= |payload|
  {
    if payload == [] then []
    else (if payload[0].value > 0.0 then [payload[0]] else []) + ActiveBowlers(payload[1..])
  }

  /** A bowler with a positive value is listed as often as the payload holds it, and no other entry is. */
  lemma {:induction false} ActiveBowlersCounts(payload: seq<Entry>, e: Entry)
    ensures multiset(ActiveBowlers(payload))[e] == if e.value > 0.0 then multiset(payload)[e] else 0
  {
    if payload != [] {
      ActiveBowlersCounts(payload[1..], e);
      assert payload == [payload[0]] + payload[1..];
    }
  }

  /** Filtering a concatenation filters each part: the tooltip lists the bowlers in payload order. */
  lemma {:induction false} ActiveBowlersAppend(a: seq<Entry>, b: seq<Entry>)
    ensures ActiveBowlers(a + b) == ActiveBowlers(a) + ActiveBowlers(b)
  {
    if a == [] {
      assert a + b == b;
    } else {
      assert (a + b)[0] == a[0] && (a + b)[1..] == a[1..] + b;
      ActiveBowlersAppend(a[1..], b);
    }
  }

  /** A payload whose every value is positive is listed whole, in order. */
  lemma {:induction false} ActiveBowlersAllPositive(payload: seq<Entry>)
    requires forall i :: 0 <= i < |payload| ==> payload[i].value > 0.0
    ensures ActiveBowlers(payload) == payload
  {
    if payload != [] {
      ActiveBowlersAllPositive(payload[1..]);
    }
  }

  function Values(payload: seq<Entry>): (r: seq<real>)
    ensures |r| == |payload| && forall i :: 0 <= i < |payload| ==> r[i] == payload[i].value
  {
    seq(|payload|, i requires 0 <= i < |payload| => payload[i].value)
  }

  /** The pacer/spinner tooltip total: the payload values added up; None when the tooltip is hidden. */
  function TooltipTotal(active: bool, payload: seq<Entry>): (r: Option<real>)
    ensures r.Some? <==> active && payload != []
  {
    if active && payload != [] then Some(Sum(Values(payload))) else None
  }

  /** The tooltip total lies between the payload's bounds times its length. */
  lemma TooltipTotalBounds(payload: seq<Entry>, lo: real, hi: real)
    requires payload != [] && forall i :: 0 <= i < |payload| ==> lo <= payload[i].value <= hi
    ensures |payload| as real * lo <= TooltipTotal(true, payload).value <= |payload| as real * hi
  {
    SumBounds(Values(payload), lo, hi);
  }

  /** With a pacer and a spinner entry the total is their sum. */
  lemma TooltipTotalOfPair(pacer: Entry, spinner: Entry)
    ensures TooltipTotal(true, [pacer, spinner]) == Some(pacer.value + spinner.value)
  {
    var v := Values([pacer, spinner]);
    assert v[..1][..0] == [];
    assert Sum(v[..1]) == Sum(v[..1][..0]) + v[0];
  }
}
