/**
 * The screenshot export of the slide deck (src/components/ScreenshotModal.js):
 * each slide is rendered off screen, captured as an image and added to a
 * PowerPoint deck; a slide whose capture fails becomes an error slide and the
 * batch goes on. The capture of slide `i` and the final file write are outcomes
 * given to the model: `captures[i]` is the image, None for a failed capture,
 * and `writeOk` says whether the file was written.
 */
module ScreenshotExport {
  import opened Wrappers
  import opened JsText
  import opened SlideDeck

  // ---------------------------------------------------------------- rendering

  /** What `renderSlideComponent` mounts for a slide. */
  datatype View =
    | PlayerView(playerName: string, opposition: string, selectedPlayers: seq<string>)
    | TeamView(teamName: string)
    | OverByOverView(teamName: string)
    | VenueView(venueName: string)
    | UnknownView

  /** The subject a known view is about. */
  function Subject(v: View): string
    requires !v.UnknownView?
  {
    match v
    case PlayerView(p, _, _) => p
    case TeamView(t) => t
    case OverByOverView(t) => t
    case VenueView(n) => n
  }

  /**
   * The four cricket slide kinds render their component for the slide's
   * data; any other kind, the basketball slide included, renders the
   * "Unknown slide type" placeholder.
   */
  function RenderSlide(s: Slide, opposition: string, selectedPlayers: seq<string>): (v: View)
    ensures v.UnknownView? <==> s.kind == Nba
    ensures !v.UnknownView? ==> Subject(v) == s.data
    ensures v.PlayerView? <==> s.kind == Player
    ensures v.PlayerView? ==> v.opposition == opposition && v.selectedPlayers == selectedPlayers
    ensures v.TeamView? <==> s.kind == Team
    ensures v.OverByOverView? <==> s.kind == OverByOver
    ensures v.VenueView? <==> s.kind == Venue
  {
    match s.kind
    case Player => PlayerView(s.data, opposition, selectedPlayers)
    case Team => TeamView(s.data)
    case OverByOver => OverByOverView(s.data)
    case Venue => VenueView(s.data)
    case Nba => UnknownView
  }

  // ---------------------------------------------------------------- the deck

  /** A slide of the generated deck: a captured image with its `"i / n"` corner label, or an error slide. */
  datatype DeckSlide = Captured(image: string, caption: string) | ErrorSlide(message: string)

  /** The corner label of slide `i` (counted from 0) of `n`. */
  function SlideLabel(i: nat, n: nat): string {
    NatToString(i + 1) + " / " + NatToString(n)
  }

  /** The deck slide for input slide `i`: its image when the capture succeeded, an error naming its title otherwise. */
  function DeckSlideOf(s: Slide, capture: Option<string>, i: nat, n: nat): (d: DeckSlide)
    ensures d.ErrorSlide? <==> capture.None?
    ensures capture.Some? ==> d == Captured(capture.value, SlideLabel(i, n))
    ensures capture.None? ==> d.message == "Error loading slide: " + s.title
  {
    match capture
    case Some(image) => Captured(image, SlideLabel(i, n))
    case None => ErrorSlide("Error loading slide: " + s.title)
  }

  /** The deck the batch builds: one deck slide per input slide, in input order. */
  function DeckOf(slides: seq<Slide>, captures: seq<Option<string>>): (d: seq<DeckSlide>)
    requires |captures| == |slides|
    ensures |d| == |slides|
    ensures forall i :: 0 <= i < |slides| ==> d[i] == DeckSlideOf(slides[i], captures[i], i, |slides|)
  {
    seq(|slides|, i requires 0 <= i < |slides| => DeckSlideOf(slides[i], captures[i], i, |slides|))
  }

  /** A slide failing never drops or reorders the others: exactly the failed captures become error slides. */
  lemma FailuresStayLocal(slides: seq<Slide>, captures: seq<Option<string>>, i: nat)
    requires |captures| == |slides| && i < |slides|
    ensures DeckOf(slides, captures)[i].ErrorSlide? <==> captures[i].None?
    ensures captures[i].None? ==> DeckOf(slides, captures)[i].message == "Error loading slide: " + slides[i].title
    ensures captures[i].Some? ==> DeckOf(slides, captures)[i].image == captures[i].value
  {
  }

  /** The corner labels of two different captured slides differ: each shows its own position. */
  lemma LabelsDistinct(i: nat, j: nat, n: nat)
    requires i != j
    ensures SlideLabel(i, n) != SlideLabel(j, n)
  {
    var a, b := NatToString(i + 1), NatToString(j + 1);
    var tail := " / " + NatToString(n);
    assert SlideLabel(i, n) == a + tail;
    assert SlideLabel(j, n) == b + tail;
    if a == b {
      NatToStringInjective(i + 1, j + 1);
    } else if |a| == |b| {
      var k :| 0 <= k < |a| && a[k] != b[k];
      assert (a + tail)[k] == a[k] && (b + tail)[k] == b[k];
    } else if |a| < |b| {
      assert (a + tail)[|a|] == ' ';
      assert (b + tail)[|a|] == b[|a|] && IsDigit(b[|a|]);
    } else {
      assert (b + tail)[|b|] == ' ';
      assert (a + tail)[|b|] == a[|b|] && IsDigit(a[|b|]);
    }
  }

  // ---------------------------------------------------------------- progress

  /** `(i / slides.length) * 80`: the progress shown while slide `i` is captured. */
  function ProgressBefore(i: nat, n: nat): (p: real)
    requires i < n
    ensures 0.0 <= p < 80.0
  {
    ProgressBound(i, n);
    (i as real / n as real) * 80.0
  }

  lemma ProgressBound(i: nat, n: nat)
    requires i < n
    ensures 0.0 <= (i as real / n as real) * 80.0 < 80.0
  {
    var q := i as real / n as real;
    assert q * (n as real) == i as real;
    assert q < 1.0;
  }

  /** Progress rises with every slide. */
  lemma ProgressRises(i: nat, j: nat, n: nat)
    requires i < j < n
    ensures ProgressBefore(i, n) < ProgressBefore(j, n)
  {
    var a, b := i as real / n as real, j as real / n as real;
    assert a * (n as real) == i as real;
    assert b * (n as real) == j as real;
    assert (b - a) * (n as real) > 0.0;
  }

  /** The progress values of the batch's first `k` slides. */
  function Schedule(k: nat, n: nat): (ps: seq<real>)
    requires k <= n
    ensures |ps| == k && forall i :: 0 <= i < k ==> ps[i] == ProgressBefore(i, n)
  {
    seq(k, i requires 0 <= i < k => ProgressBefore(i, n))
  }

  /** The step shown while slide `i` is captured. */
  function CaptureStep(i: nat, n: nat): string {
    "Capturing slide " + NatToString(i + 1) + " of " + NatToString(n) + "..."
  }

  function Steps(k: nat, n: nat): (ss: seq<string>)
    ensures |ss| == k && forall i :: 0 <= i < k ==> ss[i] == CaptureStep(i, n)
  {
    seq(k, i requires 0 <= i < k => CaptureStep(i, n))
  }

  /** The progress shown after the loop: 90, then 100 when the file is written, then the reset to 0. */
  function FinishProgress(writeOk: bool): seq<real> {
    [90.0] + (if writeOk then [100.0] else []) + [0.0]
  }

  /** The progress a run shows, in order: 0, the schedule, then the finish. */
  function ProgressTrace(n: nat, writeOk: bool): seq<real> {
    [0.0] + Schedule(n, n) + FinishProgress(writeOk)
  }

  function FinishSteps(writeOk: bool): seq<string> {
    ["Generating PowerPoint file..."] + (if writeOk then ["Complete!"] else []) + [""]
  }

  /** The steps a run shows, in order. */
  function StepTrace(n: nat, writeOk: bool): seq<string> {
    ["Initializing..."] + Steps(n, n) + FinishSteps(writeOk)
  }

  /** Until the final reset, the progress a run shows never goes down. */
  lemma ProgressTraceRises(n: nat, writeOk: bool)
    ensures var t := ProgressTrace(n, writeOk);
      && t[|t| - 1] == 0.0
      && forall i :: 0 < i < |t| - 1 ==> t[i - 1] <= t[i]
  {
    var t := ProgressTrace(n, writeOk);
    var s := Schedule(n, n);
    forall i | 0 < i < |t| - 1 ensures t[i - 1] <= t[i] {
      if i <= n {
        assert t[i] == s[i - 1];
        if i >= 2 {
          assert t[i - 1] == s[i - 2];
          ProgressRises(i - 2, i - 1, n);
        }
      } else {
        if n > 0 && i == n + 1 {
          assert t[i - 1] == s[n - 1];
        }
      }
    }
  }

  // ---------------------------------------------------------------- file name

  /** The saved file's name, as the template writes it, with no test for an empty opposition. */
  function ExportFilename(opposition: string, date: string): (f: string)
    ensures opposition != "" ==> f == DownloadFilename(opposition, date)
    ensures opposition == "" ==> f == FilePrefix + "_" + date + ".pptx"
  {
    FilePrefix + ReplaceSpaceRuns(opposition, "_") + "_" + date + ".pptx"
  }

  // ---------------------------------------------------------------- the modal

  const NoSlidesAlert: string := "No slides to generate PowerPoint from"
  const SuccessPrefix: string := "PowerPoint generated successfully: "
  const FailureAlert: string := "Error generating PowerPoint. Please try again."

  /** The modal's state, with a log of every progress and step value it shows and of the alerts it raises. */
  class Exporter {
    var isGenerating: bool
    var progress: real
    var currentStep: string
    var progressLog: seq<real>
    var stepLog: seq<string>
    var alerts: seq<string>

    constructor ()
      ensures !isGenerating && progress == 0.0 && currentStep == ""
      ensures progressLog == [] && stepLog == [] && alerts == []
    {
      isGenerating, progress, currentStep := false, 0.0, "";
      progressLog, stepLog, alerts := [], [], [];
    }

    method SetProgress(p: real)
      modifies this`progress, this`progressLog
      ensures progress == p && progressLog == old(progressLog) + [p]
    {
      progress := p;
      progressLog := progressLog + [p];
    }

    method SetStep(s: string)
      modifies this`currentStep, this`stepLog
      ensures currentStep == s && stepLog == old(stepLog) + [s]
    {
      currentStep := s;
      stepLog := stepLog + [s];
    }

    /**
     * The `for` loop of the batch: for each slide the step and progress it
     * shows, then its deck slide; a failed capture adds an error slide and
     * the loop goes on.
     */
    method CaptureSlides(ss: seq<Slide>, captures: seq<Option<string>>) returns (deck: seq<DeckSlide>)
      requires |captures| == |ss|
      modifies this`progress, this`progressLog, this`currentStep, this`stepLog
      ensures deck == DeckOf(ss, captures)
      ensures progressLog == old(progressLog) + Schedule(|ss|, |ss|)
      ensures stepLog == old(stepLog) + Steps(|ss|, |ss|)
    {
      var n := |ss|;
      deck := [];
      for i := 0 to n
        invariant |deck| == i
        invariant forall j :: 0 <= j < i ==> deck[j] == DeckSlideOf(ss[j], captures[j], j, n)
        invariant progressLog == old(progressLog) + Schedule(i, n)
        invariant stepLog == old(stepLog) + Steps(i, n)
      {
        SetStep(CaptureStep(i, n));
        SetProgress(ProgressBefore(i, n));
        assert Schedule(i + 1, n) == Schedule(i, n) + [ProgressBefore(i, n)];
        assert Steps(i + 1, n) == Steps(i, n) + [CaptureStep(i, n)];
        deck := deck + [DeckSlideOf(ss[i], captures[i], i, n)];
      }
    }

    /** What follows the loop: the write, its alert, and the `finally` reset. */
    method Finish(filename: string, writeOk: bool) returns (saved: Option<string>)
      modifies this`progress, this`progressLog, this`currentStep, this`stepLog, this`alerts, this`isGenerating
      ensures saved == if writeOk then Some(filename) else None
      ensures alerts == old(alerts) + [if writeOk then SuccessPrefix + filename else FailureAlert]
      ensures progressLog == old(progressLog) + FinishProgress(writeOk)
      ensures stepLog == old(stepLog) + FinishSteps(writeOk)
      ensures !isGenerating && progress == 0.0 && currentStep == ""
    {
      SetStep("Generating PowerPoint file...");
      SetProgress(90.0);
      if writeOk {
        saved := Some(filename);
        SetProgress(100.0);
        SetStep("Complete!");
        alerts := alerts + [SuccessPrefix + filename];
      } else {
        saved := None;
        alerts := alerts + [FailureAlert];
      }
      isGenerating := false;
      SetProgress(0.0);
      SetStep("");
    }

    /** The `try` block for a non-empty deck: start, the loop, and what follows it. */
    method Run(ss: seq<Slide>, captures: seq<Option<string>>, writeOk: bool, opposition: string, date: string)
      returns (deck: seq<DeckSlide>, saved: Option<string>)
      requires |captures| == |ss|
      modifies this`progress, this`progressLog, this`currentStep, this`stepLog, this`alerts, this`isGenerating
      ensures deck == DeckOf(ss, captures)
      ensures saved == if writeOk then Some(ExportFilename(opposition, date)) else None
      ensures alerts == old(alerts) + [if writeOk then SuccessPrefix + ExportFilename(opposition, date) else FailureAlert]
      ensures progressLog == old(progressLog) + ProgressTrace(|ss|, writeOk)
      ensures stepLog == old(stepLog) + StepTrace(|ss|, writeOk)
      ensures !isGenerating && progress == 0.0 && currentStep == ""
    {
      var n := |ss|;
      var logP, logS := progressLog, stepLog;
      isGenerating := true;
      SetProgress(0.0);
      SetStep("Initializing...");
      deck := CaptureSlides(ss, captures);
      saved := Finish(ExportFilename(opposition, date), writeOk);
      Assoc(logP + [0.0], Schedule(n, n), FinishProgress(writeOk));
      Assoc(logP, [0.0], Schedule(n, n) + FinishProgress(writeOk));
      Assoc([0.0], Schedule(n, n), FinishProgress(writeOk));
      Assoc(logS + ["Initializing..."], Steps(n, n), FinishSteps(writeOk));
      Assoc(logS, ["Initializing..."], Steps(n, n) + FinishSteps(writeOk));
      Assoc(["Initializing..."], Steps(n, n), FinishSteps(writeOk));
    }

    /**
     * `generatePowerPointWithScreenshots`. With no slides it only alerts.
     * Otherwise it returns the deck and its title, and the name of the saved
     * file when the write succeeds; the progress and steps shown follow the
     * traces above, and the state ends reset.
     */
    method Generate(slides: Option<seq<Slide>>, captures: seq<Option<string>>, writeOk: bool,
                    opposition: string, date: string)
      returns (deck: seq<DeckSlide>, title: string, saved: Option<string>)
      requires slides.Some? ==> |captures| == |slides.value|
      modifies this
      ensures slides.None? || slides.value == [] ==>
        && deck == [] && saved.None?
        && alerts == old(alerts) + [NoSlidesAlert]
        && isGenerating == old(isGenerating) && progress == old(progress) && currentStep == old(currentStep)
        && progressLog == old(progressLog) && stepLog == old(stepLog)
      ensures slides.Some? && slides.value != [] ==>
        && deck == DeckOf(slides.value, captures)
        && title == "IPL Opposition Analysis - " + opposition
        && saved == (if writeOk then Some(ExportFilename(opposition, date)) else None)
        && alerts == old(alerts) + [if writeOk then SuccessPrefix + ExportFilename(opposition, date) else FailureAlert]
        && progressLog == old(progressLog) + ProgressTrace(|slides.value|, writeOk)
        && stepLog == old(stepLog) + StepTrace(|slides.value|, writeOk)
        && !isGenerating && progress == 0.0 && currentStep == ""
    {
      if slides.None? || |slides.value| == 0 {
        deck, title, saved := [], "", None;
        alerts := alerts + [NoSlidesAlert];
        return;
      }
      title := "IPL Opposition Analysis - " + opposition;
      deck, saved := Run(slides.value, captures, writeOk, opposition, date);
    }
  }
}
