/**
 * The wizard controller: four stages (upload, context, processing, result),
 * a daily quota of five optimisations, a simulated four-step pipeline and a
 * reset that keeps the counter.
 *
 * The session is specified by pure transition functions on a `Session`
 * value; the `Wizard` class holds the seven state slots and its handlers are
 * proved to perform exactly those transitions.
 */
module Index {
  import opened Wrappers
  import Upload
  import opened ProcessingLoader
  import ContextSelector
  import ImageComparison

  datatype Stage = UploadStep | ContextStep | ProcessingStep | ResultStep

  /** The toasts the controller raises; the first two are shown as destructive. */
  datatype Notice = DailyLimitReached | ContextRequired | OptimizationComplete | DownloadStarted
  {
    predicate Destructive()
    {
      this == DailyLimitReached || this == ContextRequired
    }
  }

  const DailyLimit: nat := 5

  /** The seven state slots of the page. */
  datatype Session = Session(
    stage: Stage,
    processingStage: ProcessingStage,
    selectedFile: Option<Upload.FileInfo>,
    selectedContext: string,
    originalImage: string,
    optimizedImage: string,
    dailyCount: nat)

  function Initial(): Session
  {
    Session(UploadStep, Uploading, None, "", "", "", 0)
  }

  /** A new session together with the notice the transition raised, if any. */
  datatype Outcome = Outcome(session: Session, notice: Option<Notice>)

  /**
   * `handleFileSelect` up to the start of the file read: refused with a
   * destructive notice once the quota is used up; otherwise only the
   * selected file changes, and the stage stays where it is until the read
   * completes.
   */
  function SelectFile(s: Session, file: Upload.FileInfo): (o: Outcome)
    ensures s.dailyCount >= DailyLimit ==> o.session == s && o.notice == Some(DailyLimitReached)
    ensures s.dailyCount < DailyLimit ==>
      o.notice == None && o.session.selectedFile == Some(file) &&
      o.session.(selectedFile := s.selectedFile) == s
    ensures o.notice.Some? ==> o.notice.value.Destructive()
  {
    if s.dailyCount >= DailyLimit then Outcome(s, Some(DailyLimitReached))
    else Outcome(s.(selectedFile := Some(file)), None)
  }

  /** The reader's `onload`: stores the data URL and moves to the context stage, whatever the stage was. */
  function CompleteRead(s: Session, dataUrl: string): (r: Session)
    ensures r.stage == ContextStep && r.originalImage == dataUrl
    ensures r.(stage := s.stage, originalImage := s.originalImage) == s
  {
    s.(originalImage := dataUrl, stage := ContextStep)
  }

  /** `handleContextSelect`: only the selected context changes. */
  function SelectContext(s: Session, contextId: string): (r: Session)
    ensures r.selectedContext == contextId
    ensures r.(selectedContext := s.selectedContext) == s
  {
    s.(selectedContext := contextId)
  }

  /**
   * `handleOptimize` from click to completion. With no context it changes
   * nothing and raises a destructive notice. Otherwise, after the pipeline
   * has run, the optimised image is the original one unchanged, the counter
   * has gone up by exactly one, the last sub-stage shown stays set, and the
   * stage is the result; nothing else changes.
   */
  function Optimize(s: Session): (o: Outcome)
    ensures s.selectedContext == "" ==> o.session == s && o.notice == Some(ContextRequired)
    ensures s.selectedContext != "" ==>
      o.notice == Some(OptimizationComplete) &&
      o.session.stage == ResultStep &&
      o.session.processingStage == Pipeline[|Pipeline| - 1] &&
      o.session.optimizedImage == s.originalImage &&
      o.session.dailyCount == s.dailyCount + 1 &&
      o.session.(stage := s.stage, processingStage := s.processingStage,
                 optimizedImage := s.optimizedImage, dailyCount := s.dailyCount) == s
  {
    if s.selectedContext == "" then Outcome(s, Some(ContextRequired))
    else
      Outcome(s.(stage := ResultStep, processingStage := Finalizing,
                 optimizedImage := s.originalImage, dailyCount := s.dailyCount + 1),
              Some(OptimizationComplete))
  }

  /** `handleReset`: back to the initial session except for the counter and the last sub-stage. */
  function Reset(s: Session): (r: Session)
    ensures r == Initial().(dailyCount := s.dailyCount, processingStage := s.processingStage)
  {
    s.(stage := UploadStep, selectedFile := None, selectedContext := "",
       originalImage := "", optimizedImage := "")
  }

  const DownloadPrefix: string := "optimized-"
  const DownloadSuffix: string := ".webp"

  /** The name before the fixed prefix and extension: the file's name, or "image" when it is absent or empty. */
  function DownloadBase(file: Option<Upload.FileInfo>): string
  {
    if file.Some? && file.value.name != "" then file.value.name else "image"
  }

  /** `link.download`: the base name between the fixed prefix and the fixed extension. */
  function DownloadName(file: Option<Upload.FileInfo>): (name: string)
    ensures |name| > |DownloadPrefix| + |DownloadSuffix|
    ensures name[..|DownloadPrefix|] == DownloadPrefix
    ensures name[|name| - |DownloadSuffix|..] == DownloadSuffix
    ensures name[|DownloadPrefix|..|name| - |DownloadSuffix|] == DownloadBase(file)
  {
    var name := DownloadPrefix + DownloadBase(file) + DownloadSuffix;
    assert name[..|DownloadPrefix|] == DownloadPrefix;
    assert name[|DownloadPrefix|..|name| - |DownloadSuffix|] == DownloadBase(file);
    name
  }

  /** The figures handed to the comparison view. */
  datatype Figures = Figures(originalSize: nat, optimizedSize: nat, compressionRatio: int)

  /** The claimed reduction, in percent. */
  const ClaimedReduction: int := 65

  /**
   * Shown only in the result stage with a file present: the original size is
   * the file's, the optimised size is 35% of it rounded down, and the ratio
   * is the fixed 65.
   */
  function ResultFigures(s: Session): (r: Option<Figures>)
    ensures r.Some? <==> s.stage == ResultStep && s.selectedFile.Some?
    ensures r.Some? ==>
      r.value.originalSize == s.selectedFile.value.size &&
      r.value.optimizedSize * 100 <= r.value.originalSize * 35 < (r.value.optimizedSize + 1) * 100 &&
      r.value.optimizedSize <= r.value.originalSize &&
      r.value.compressionRatio == ClaimedReduction
  {
    if s.stage == ResultStep && s.selectedFile.Some? then
      var size := s.selectedFile.value.size;
      Some(Figures(size, size * 35 / 100, ClaimedReduction))
    else None
  }

  /** With the wizard's figures the savings shown are never negative and at least 65% of the original. */
  lemma SavingsNonNegative(s: Session)
    requires ResultFigures(s).Some?
    ensures var f := ResultFigures(s).value;
      var savings := f.originalSize - f.optimizedSize;
      ImageComparison.Present(f.originalSize, f.optimizedSize, f.compressionRatio).savings
        == ImageComparison.FormatSize(savings) &&
      0 <= savings && savings * 100 >= f.originalSize * 65
  {
  }

  // ---------------------------------------------------------------------
  // Event traces
  // ---------------------------------------------------------------------

  /** The discrete events the page reacts to. */
  datatype Event =
    | FileChosen(file: Upload.FileInfo)
    | ReadDone(dataUrl: string)
    | ContextClicked(contextId: string)
    | OptimizeClicked
    | DownloadClicked
    | ResetClicked

  /** The session after one event; a download changes nothing. */
  function Step(s: Session, e: Event): Session
  {
    match e
    case FileChosen(f) => SelectFile(s, f).session
    case ReadDone(url) => CompleteRead(s, url)
    case ContextClicked(id) => SelectContext(s, id)
    case OptimizeClicked => Optimize(s).session
    case DownloadClicked => s
    case ResetClicked => Reset(s)
  }

  predicate IsCatalogId(id: string)
  {
    exists i :: 0 <= i < |ContextSelector.Catalog()| && ContextSelector.Catalog()[i].id == id
  }

  /**
   * Whether the page offers an event in a session, as its render guards say.
   * The upload zone is shown only in the upload stage, and it hands on only
   * files that validate. The cards and the back button are shown only in the
   * context stage, and the optimise button there is disabled while no
   * context is selected. The comparison and its two buttons are shown only
   * in the result stage with a file selected. A read is taken to complete
   * while the page is still in the upload stage with the file it reads
   * selected. Nothing is offered while processing.
   */
  function Enabled(s: Session, e: Event): (offered: bool)
    ensures offered ==> s.stage != ProcessingStep
    ensures offered && (e.FileChosen? || e.ReadDone?) ==> s.stage == UploadStep
    ensures offered && e.FileChosen? ==> Upload.Validate(e.file) == Upload.Accepted
    ensures offered && (e.ContextClicked? || e.OptimizeClicked?) ==> s.stage == ContextStep
    ensures offered && e.OptimizeClicked? ==> s.selectedContext != ""
    ensures offered && e.DownloadClicked? ==> s.stage == ResultStep && ResultFigures(s).Some?
    ensures offered && e.ResetClicked? ==> s.stage == ContextStep || ResultFigures(s).Some?
  {
    match e
    case FileChosen(f) => s.stage == UploadStep && Upload.Validate(f) == Upload.Accepted
    case ReadDone(_) => s.stage == UploadStep && s.selectedFile.Some?
    case ContextClicked(id) => s.stage == ContextStep && IsCatalogId(id)
    case OptimizeClicked => s.stage == ContextStep && s.selectedContext != ""
    case DownloadClicked => s.stage == ResultStep && s.selectedFile.Some?
    case ResetClicked => s.stage == ContextStep || (s.stage == ResultStep && s.selectedFile.Some?)
  }

  function Run(s: Session, events: seq<Event>): Session
    decreases |events|
  {
    if events == [] then s else Run(Step(s, events[0]), events[1..])
  }

  predicate EnabledRun(s: Session, events: seq<Event>)
    decreases |events|
  {
    events == [] || (Enabled(s, events[0]) && EnabledRun(Step(s, events[0]), events[1..]))
  }

  /** How many optimisations in a run get past the context check. */
  function Completions(s: Session, events: seq<Event>): nat
    decreases |events|
  {
    if events == [] then 0
    else
      (if events[0] == OptimizeClicked && s.selectedContext != "" then 1 else 0)
      + Completions(Step(s, events[0]), events[1..])
  }

  /** Running two traces one after the other is running their concatenation. */
  lemma {:induction false} RunConcat(s: Session, a: seq<Event>, b: seq<Event>)
    ensures Run(s, a + b) == Run(Run(s, a), b)
    decreases |a|
  {
    if a != [] {
      assert (a + b)[0] == a[0] && (a + b)[1..] == a[1..] + b;
      RunConcat(Step(s, a[0]), a[1..], b);
    } else {
      assert a + b == b;
    }
  }

  /** The counter moves only on a completed optimisation, by one each time, for any trace. */
  lemma {:induction false} CountTracksCompletions(s: Session, events: seq<Event>)
    ensures Run(s, events).dailyCount == s.dailyCount + Completions(s, events)
    decreases |events|
  {
    if events != [] {
      CountTracksCompletions(Step(s, events[0]), events[1..]);
    }
  }

  /** The counter never decreases along a trace. */
  lemma CountNeverDecreases(s: Session, events: seq<Event>, k: nat)
    requires k <= |events|
    ensures Run(s, events[..k]).dailyCount <= Run(s, events).dailyCount
  {
    assert events == events[..k] + events[k..];
    RunConcat(s, events[..k], events[k..]);
    CountTracksCompletions(Run(s, events[..k]), events[k..]);
  }

  /**
   * What holds of every session the page can reach: the counter is within
   * the quota, and a session that has passed the upload guard (a file
   * selected in the upload stage, or the context stage) is below it; the
   * processing stage is never left visible between events; a selected file
   * is one the upload zone accepted; the context is
   * empty or a catalog id.
   */
  predicate Reachable(s: Session)
  {
    s.dailyCount <= DailyLimit &&
    (s.stage == ContextStep ==> s.dailyCount < DailyLimit) &&
    (s.stage == UploadStep && s.selectedFile.Some? ==> s.dailyCount < DailyLimit) &&
    s.stage != ProcessingStep &&
    (s.selectedFile.Some? ==> Upload.Validate(s.selectedFile.value) == Upload.Accepted) &&
    (s.selectedContext == "" || IsCatalogId(s.selectedContext))
  }

  lemma StepKeepsReachable(s: Session, e: Event)
    requires Reachable(s) && Enabled(s, e)
    ensures Reachable(Step(s, e))
  {
  }

  lemma {:induction false} RunKeepsReachable(s: Session, events: seq<Event>)
    requires Reachable(s) && EnabledRun(s, events)
    ensures Reachable(Run(s, events))
    decreases |events|
  {
    if events != [] {
      StepKeepsReachable(s, events[0]);
      RunKeepsReachable(Step(s, events[0]), events[1..]);
    }
  }

  /**
   * The quota: along any sequence of events the page offers, starting from
   * a fresh page, at most five optimisations complete and the counter never
   * exceeds five.
   */
  lemma QuotaHolds(events: seq<Event>)
    requires EnabledRun(Initial(), events)
    ensures Run(Initial(), events).dailyCount <= DailyLimit
    ensures Completions(Initial(), events) <= DailyLimit
  {
    RunKeepsReachable(Initial(), events);
    CountTracksCompletions(Initial(), events);
  }

  /** Every result the page can show reports an original size within the upload limit. */
  lemma ShownSizeWithinLimit(events: seq<Event>)
    requires EnabledRun(Initial(), events)
    requires ResultFigures(Run(Initial(), events)).Some?
    ensures ResultFigures(Run(Initial(), events)).value.originalSize <= Upload.MaxSize
  {
    RunKeepsReachable(Initial(), events);
  }

  /**
   * A read that completes after the page has reached the result stage at the
   * quota is not among the offered events, yet the code handles it: it
   * reopens the context stage, where the page then offers a context click
   * and the optimise button, and a sixth optimisation completes.
   */
  lemma LateReadExceedsQuota(s: Session, url: string, contextId: string)
    requires s.stage == ResultStep && s.selectedFile.Some? && s.dailyCount == DailyLimit
    requires IsCatalogId(contextId)
    ensures !Enabled(s, ReadDone(url))
    ensures EnabledRun(Step(s, ReadDone(url)), [ContextClicked(contextId), OptimizeClicked])
    ensures var t := Run(s, [ReadDone(url), ContextClicked(contextId), OptimizeClicked]);
      t.dailyCount == DailyLimit + 1 && t.stage == ResultStep
  {
    var r := Step(s, ReadDone(url));
    var c := Step(r, ContextClicked(contextId));
    var k :| 0 <= k < |ContextSelector.Catalog()| && ContextSelector.Catalog()[k].id == contextId;
    assert c.selectedContext != "";
    var o := Step(c, OptimizeClicked);
    assert EnabledRun(o, []);
    assert [ContextClicked(contextId), OptimizeClicked][1..] == [OptimizeClicked];
    assert [ReadDone(url), ContextClicked(contextId), OptimizeClicked][1..] == [ContextClicked(contextId), OptimizeClicked];
    assert Run(c, [OptimizeClicked]) == Run(o, []) == o;
    assert Run(r, [ContextClicked(contextId), OptimizeClicked]) == Run(c, [OptimizeClicked]);
  }

  /** Selecting the same context twice is the same as selecting it once. */
  lemma SelectContextIdempotent(s: Session, contextId: string)
    ensures SelectContext(SelectContext(s, contextId), contextId) == SelectContext(s, contextId)
  {
  }

  /** At the quota, a file choice changes nothing, whatever the stage and file. */
  lemma FileChoiceAtQuotaChangesNothing(s: Session, file: Upload.FileInfo)
    requires s.dailyCount >= DailyLimit
    ensures Step(s, FileChosen(file)) == s
  {
  }

  // ---------------------------------------------------------------------
  // The page object
  // ---------------------------------------------------------------------

  /** The page's state slots, updated in place by its handlers. */
  class Wizard {
    var stage: Stage
    var processingStage: ProcessingStage
    var selectedFile: Option<Upload.FileInfo>
    var selectedContext: string
    var originalImage: string
    var optimizedImage: string
    var dailyCount: nat

    function State(): Session
      reads this
    {
      Session(stage, processingStage, selectedFile, selectedContext,
              originalImage, optimizedImage, dailyCount)
    }

    constructor ()
      ensures State() == Initial()
    {
      stage := UploadStep;
      processingStage := Uploading;
      selectedFile := None;
      selectedContext := "";
      originalImage := "";
      optimizedImage := "";
      dailyCount := 0;
    }

    /** Accepts a file from the upload zone and starts reading it, unless the quota is used up. */
    method HandleFileSelect(file: Upload.FileInfo) returns (notice: Option<Notice>)
      modifies this
      ensures State() == SelectFile(old(State()), file).session
      ensures notice == SelectFile(old(State()), file).notice
    {
      if dailyCount >= DailyLimit {
        notice := Some(DailyLimitReached);
        return;
      }
      selectedFile := Some(file);
      notice := None;
    }

    /** The completion of the read started by HandleFileSelect. */
    method HandleReadComplete(dataUrl: string)
      modifies this
      ensures State() == CompleteRead(old(State()), dataUrl)
    {
      originalImage := dataUrl;
      stage := ContextStep;
    }

    method HandleContextSelect(contextId: string)
      modifies this
      ensures State() == SelectContext(old(State()), contextId)
    {
      selectedContext := contextId;
    }

    /**
     * Runs the simulated pipeline. `shown` lists the sub-stages in the order
     * they were set while the stage was `Processing`.
     */
    method HandleOptimize() returns (notice: Option<Notice>, shown: seq<ProcessingStage>)
      modifies this
      ensures State() == Optimize(old(State())).session
      ensures notice == Optimize(old(State())).notice
      ensures shown == if old(selectedContext) == "" then [] else Pipeline
    {
      shown := [];
      if selectedContext == "" {
        notice := Some(ContextRequired);
        return;
      }
      stage := ProcessingStep;
      var image := originalImage;
      var stages := [Uploading, Analyzing, Optimizing, Finalizing];
      for i := 0 to |stages|
        invariant shown == stages[..i]
        invariant i > 0 ==> processingStage == stages[i - 1]
        invariant i == 0 ==> processingStage == old(processingStage)
        invariant stage == ProcessingStep
        invariant selectedFile == old(selectedFile) && selectedContext == old(selectedContext)
        invariant originalImage == old(originalImage) && optimizedImage == old(optimizedImage)
        invariant dailyCount == old(dailyCount)
      {
        processingStage := stages[i];
        shown := shown + [stages[i]];
      }
      optimizedImage := image;
      dailyCount := dailyCount + 1;
      stage := ResultStep;
      notice := Some(OptimizationComplete);
    }

    /** The download link's target and file name; no state changes. */
    method HandleDownload() returns (href: string, fileName: string, notice: Notice)
      ensures href == optimizedImage
      ensures fileName == DownloadName(selectedFile)
      ensures notice == DownloadStarted && !notice.Destructive()
    {
      href := optimizedImage;
      fileName := DownloadPrefix + DownloadBase(selectedFile) + DownloadSuffix;
      notice := DownloadStarted;
    }

    method HandleReset()
      modifies this
      ensures State() == Reset(old(State()))
    {
      stage := UploadStep;
      selectedFile := None;
      selectedContext := "";
      originalImage := "";
      optimizedImage := "";
    }
  }
}
