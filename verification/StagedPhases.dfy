/**
 * The globally phased document batch (app/actors/document.py, app/actors/document_batch.py): four
 * loops that announce each phase of each document to an observer, which keeps the open items and
 * the step counter. Every call to the database, Paperless or a provider may fail.
 */
module StagedPhases {
  import opened Wrappers

  datatype Phase = PaperlessFetch | Embedding | Ocr | Classification | Judge | ReviewSuggestion

  /** The six steps of every document, in the order in which all documents pass them. */
  const PHASES: seq<Phase> := [PaperlessFetch, Embedding, Ocr, Classification, Judge, ReviewSuggestion]

  datatype Event = Started(phase: Phase, index: nat) | Completed(phase: Phase, index: nat)

  /** `i` documents through one phase: each started and completed before the next. */
  function PhaseTrace(phase: Phase, i: nat): (t: seq<Event>)
    ensures |t| == 2 * i
  {
    if i == 0 then [] else PhaseTrace(phase, i - 1) + [Started(phase, i - 1), Completed(phase, i - 1)]
  }

  /** The first `k` phases, each over all `n` documents. */
  function Before(k: nat, n: nat): (t: seq<Event>)
    requires k <= 6
    ensures |t| == 2 * (k * n)
  {
    if k == 0 then [] else Before(k - 1, n) + PhaseTrace(PHASES[k - 1], n)
  }

  /** The trace of a batch whose `n` documents pass all phases. */
  function FullTrace(n: nat): seq<Event> {
    Before(6, n)
  }

  /** The phases announced as completed once `k` of them are over; the last has no announcement. */
  function Announced(k: nat): seq<Published>
    requires k <= 5
  {
    if k == 0 then [] else Announced(k - 1) + [PhaseCompleted(PHASES[k - 1])]
  }

  datatype Published = PhaseCompleted(phase: Phase) | BatchCompleted | BatchBlocked

  lemma {:induction false} PhasePrefix(phase: Phase, i: nat, n: nat)
    requires i <= n
    ensures PhaseTrace(phase, i) <= PhaseTrace(phase, n)
    ensures i < n ==> PhaseTrace(phase, i) + [Started(phase, i)] <= PhaseTrace(phase, n)
  {
    if i < n {
      PhasePrefix(phase, i, n - 1);
    }
  }

  lemma {:induction false} BeforePrefix(k: nat, l: nat, n: nat)
    requires k <= l <= 6
    ensures Before(k, n) <= Before(l, n)
  {
    if k < l {
      BeforePrefix(k, l - 1, n);
    }
  }

  lemma {:induction false} AnnouncedPrefix(k: nat, l: nat)
    requires k <= l <= 5
    ensures Announced(k) <= Announced(l)
  {
    if k < l {
      AnnouncedPrefix(k, l - 1);
    }
  }

  /** Where a batch stands: `k` phases over, `i` documents through the next, perhaps one item open. */
  ghost predicate At(trace: seq<Event>, n: nat, k: nat, i: nat, open: bool) {
    && k < 6 && i <= n && (open ==> i < n)
    && trace == Before(k, n) + PhaseTrace(PHASES[k], i) + if open then [Started(PHASES[k], i)] else []
  }

  lemma AtIsPrefix(trace: seq<Event>, n: nat, k: nat, i: nat, open: bool)
    requires At(trace, n, k, i, open)
    ensures trace <= FullTrace(n)
  {
    PhasePrefix(PHASES[k], i, n);
    BeforePrefix(k + 1, 6, n);
    assert Before(k + 1, n) == Before(k, n) + PhaseTrace(PHASES[k], n);
  }

  lemma {:induction false} PhaseTraceAt(phase: Phase, i: nat, n: nat)
    requires i < n
    ensures PhaseTrace(phase, n)[2 * i] == Started(phase, i) && PhaseTrace(phase, n)[2 * i + 1] == Completed(phase, i)
  {
    PhasePrefix(phase, i + 1, n);
    assert PhaseTrace(phase, i + 1)[2 * i] == Started(phase, i);
    assert PhaseTrace(phase, i + 1)[2 * i + 1] == Completed(phase, i);
  }

  /** Where each step of a batch of `n` documents stands in its trace, phase by phase. */
  lemma StepsStandInOrder(n: nat, phase: Phase, k: nat, i: nat)
    requires i < n
    requires match phase
             case PaperlessFetch => k == 0
             case Embedding => k == 1
             case Ocr => k == 2
             case Classification => k == 3
             case Judge => k == 4
             case ReviewSuggestion => k == 5
    ensures |FullTrace(n)| == 12 * n && 2 * (k * n + i) + 1 < 12 * n
    ensures FullTrace(n)[2 * (k * n + i)] == Started(phase, i)
    ensures FullTrace(n)[2 * (k * n + i) + 1] == Completed(phase, i)
  {
    BeforePrefix(k + 1, 6, n);
    PhaseTraceAt(PHASES[k], i, n);
    assert Before(k + 1, n) == Before(k, n) + PhaseTrace(PHASES[k], n);
    assert (k + 1) * n == k * n + n;
    assert |Before(k + 1, n)| <= |FullTrace(n)|;
  }

  // ----- What any prefix of the full trace means -----

  /** The items started and not completed. */
  function Open(trace: seq<Event>): set<(Phase, nat)> {
    if trace == [] then {}
    else
      var before := Open(trace[..|trace| - 1]);
      match trace[|trace| - 1]
      case Started(p, i) => before + {(p, i)}
      case Completed(p, i) => before - {(p, i)}
  }

  function Completions(trace: seq<Event>): nat {
    if trace == [] then 0
    else Completions(trace[..|trace| - 1]) + if trace[|trace| - 1].Completed? then 1 else 0
  }

  /** Starts stand at even places, each followed by its own completion. */
  predicate PairedAt(t: seq<Event>, j: nat)
    requires j < |t|
  {
    if j % 2 == 0 then t[j].Started?
    else t[j - 1].Started? && t[j] == Completed(t[j - 1].phase, t[j - 1].index)
  }

  ghost predicate Paired(t: seq<Event>) {
    forall j :: 0 <= j < |t| ==> PairedAt(t, j)
  }

  lemma PairedConcat(a: seq<Event>, b: seq<Event>)
    requires Paired(a) && Paired(b) && |a| % 2 == 0
    ensures Paired(a + b)
  {
    forall j | 0 <= j < |a + b| ensures PairedAt(a + b, j) {
      if j < |a| {
        assert PairedAt(a, j);
      } else {
        assert PairedAt(b, j - |a|);
      }
    }
  }

  lemma {:induction false} PhaseIsPaired(phase: Phase, n: nat)
    ensures Paired(PhaseTrace(phase, n))
  {
    if n > 0 {
      PhaseIsPaired(phase, n - 1);
      PairedConcat(PhaseTrace(phase, n - 1), [Started(phase, n - 1), Completed(phase, n - 1)]);
    }
  }

  lemma TwiceIsEven(m: nat)
    ensures 2 * m % 2 == 0
  {
  }

  lemma {:induction false} BeforeIsPaired(k: nat, n: nat)
    requires k <= 6
    ensures Paired(Before(k, n))
  {
    if k > 0 {
      BeforeIsPaired(k - 1, n);
      PhaseIsPaired(PHASES[k - 1], n);
      TwiceIsEven((k - 1) * n);
      PairedConcat(Before(k - 1, n), PhaseTrace(PHASES[k - 1], n));
    }
  }

  lemma {:induction false} PairedMeans(t: seq<Event>)
    requires Paired(t)
    ensures Completions(t) == |t| / 2
    ensures Open(t) == if |t| % 2 == 0 then {} else {(t[|t| - 1].phase, t[|t| - 1].index)}
  {
    if t != [] {
      var front := t[..|t| - 1];
      assert forall j :: 0 <= j < |front| ==> PairedAt(t, j) ==> PairedAt(front, j);
      PairedMeans(front);
      assert PairedAt(t, |t| - 1);
    }
  }

  lemma PrefixIsPaired(trace: seq<Event>, full: seq<Event>)
    requires trace <= full && Paired(full)
    ensures Paired(trace)
  {
    forall j | 0 <= j < |trace| ensures PairedAt(trace, j) {
      assert PairedAt(full, j);
    }
  }

  lemma LastStarted(trace: seq<Event>)
    requires Paired(trace)
    ensures trace != [] && trace[|trace| - 1].Started? ==> |trace| % 2 == 1
  {
    if trace != [] {
      assert PairedAt(trace, |trace| - 1);
    }
  }

  /**
   * Wherever a batch stops, at most one item was left open, the one whose start came last, and no more
   * steps were counted than six for each document; all of them were counted exactly when the trace is
   * complete.
   */
  lemma AnyPrefixIsOrderly(trace: seq<Event>, n: nat)
    requires trace <= FullTrace(n)
    ensures |Open(trace)| <= 1
    ensures trace != [] && trace[|trace| - 1].Started? ==>
              Open(trace) == {(trace[|trace| - 1].phase, trace[|trace| - 1].index)}
    ensures Completions(trace) <= 6 * n
    ensures Completions(trace) == 6 * n <==> trace == FullTrace(n)
  {
    BeforeIsPaired(6, n);
    PrefixIsPaired(trace, FullTrace(n));
    PairedMeans(trace);
    LastStarted(trace);
    if |trace| == |FullTrace(n)| {
      assert trace == FullTrace(n);
    }
  }

  // ----- The runs of a batch -----

  datatype Run = Run(id: int, documentId: int)

  /** `{run.paperless_document_id: run for run in runs}[...]`: the last run of a document. */
  function RunOfDocument(runs: seq<Run>, documentId: int): (run: Run)
    requires exists i :: 0 <= i < |runs| && runs[i].documentId == documentId
    ensures run in runs && run.documentId == documentId
  {
    var last := runs[|runs| - 1];
    if last.documentId == documentId then last else RunOfDocument(runs[..|runs| - 1], documentId)
  }

  lemma {:induction false} LastRunOfDocument(runs: seq<Run>, i: nat)
    requires i < |runs| && forall j :: i < j < |runs| ==> runs[j].documentId != runs[i].documentId
    ensures RunOfDocument(runs, runs[i].documentId) == runs[i]
  {
    if i < |runs| - 1 {
      LastRunOfDocument(runs[..|runs| - 1], i);
    }
  }

  /** Every document's items go to its own run exactly when no two runs with different ids share a document. */
  lemma ItemsGoToOwnRunIff(runs: seq<Run>)
    ensures (forall i :: 0 <= i < |runs| ==> RunOfDocument(runs, runs[i].documentId) == runs[i])
            <==> forall i, j :: 0 <= i < j < |runs| && runs[i].documentId == runs[j].documentId ==> runs[i] == runs[j]
  {
    if forall i, j :: 0 <= i < j < |runs| && runs[i].documentId == runs[j].documentId ==> runs[i] == runs[j] {
      forall i | 0 <= i < |runs| ensures RunOfDocument(runs, runs[i].documentId) == runs[i] {
        var run := RunOfDocument(runs, runs[i].documentId);
        var j :| 0 <= j < |runs| && runs[j] == run;
      }
    }
  }

  // ----- The batch actor -----

  datatype Fault = NoFault | FenceLost | Raised

  datatype ItemStatus = Succeeded | Failed | Skipped

  datatype ItemResult = ItemResult(phase: Phase, index: nat, status: ItemStatus)

  /** What a phase leaves in the state of one document. */
  datatype DocumentState = DocumentState(embeddingPersisted: bool, ocrCorrected: bool, judgeRan: bool)

  function ResultStatus(phase: Phase, state: DocumentState): ItemStatus {
    if phase == Embedding && !state.embeddingPersisted then Failed
    else if (phase == Ocr && !state.ocrCorrected) || (phase == Judge && !state.judgeRan) then Skipped
    else Succeeded
  }

  /** An item fails exactly without its embedding, and is skipped exactly if optional work did nothing. */
  lemma ResultIsBySteps(phase: Phase, state: DocumentState)
    ensures ResultStatus(phase, state) == Failed <==> phase == Embedding && !state.embeddingPersisted
    ensures ResultStatus(phase, state) == Skipped
            <==> (phase == Ocr && !state.ocrCorrected) || (phase == Judge && !state.judgeRan)
  {
  }

  /** How the calls made for one document turn out; everything else may fail at any point as well. */
  datatype Calls = Calls(
    hasText: bool, embed: Fault, hasEmbedding: bool, stored: bool,
    eligibility: Fault, eligible: bool, correction: Fault, corrections: nat,
    classify: Fault, judge: Fault, judgeRan: bool)

  /** The step of a phase is reached only if its calls succeed; a failed OCR correction does not count. */
  predicate Permits(c: Calls, phase: Phase) {
    match phase
    case Embedding => c.hasText && c.embed.NoFault? && c.hasEmbedding && c.stored
    case Ocr => c.eligibility.NoFault?
    case Classification => c.classify.NoFault?
    case Judge => c.judge.NoFault?
    case _ => true
  }

  predicate Corrected(c: Calls) {
    c.eligible && c.correction.NoFault? && c.corrections > 0
  }

  /** How the item of a completed step is finished: optional work that changed nothing is skipped. */
  function FinishedAs(c: Calls, phase: Phase): ItemStatus {
    if (phase == Ocr && !Corrected(c)) || (phase == Judge && !c.judgeRan) then Skipped else Succeeded
  }

  datatype Outcome = EmptyTargetSet | Reconciled | Blocked | Finished | Stopped(fault: Fault)

  class StagedBatch {
    const runs: seq<Run>
    const batchSize: nat
    const calls: seq<Calls>
    var activeItems: set<(int, Phase)>
    var completedSteps: nat
    var results: seq<ItemResult>
    var published: seq<Published>
    ghost var trace: seq<Event>

    /** `runs` are the batch's runs that have not succeeded yet. */
    constructor (runs: seq<Run>, batchSize: nat, calls: seq<Calls>)
      requires |calls| == |runs| <= batchSize
      ensures this.runs == runs && this.batchSize == batchSize && this.calls == calls
      ensures activeItems == {} && completedSteps == 0 && results == [] && published == [] && trace == []
    {
      this.runs, this.batchSize, this.calls := runs, batchSize, calls;
      activeItems, completedSteps, results, published, trace := {}, 0, [], [], [];
    }

    /** The document's calls permitted the step and decided how its item was finished. */
    predicate Explained(r: ItemResult) {
      && r.index < |calls|
      && Permits(calls[r.index], r.phase)
      && r.status == FinishedAs(calls[r.index], r.phase)
    }

    ghost predicate Counted()
      reads this
    {
      && |calls| == |runs| <= batchSize
      && completedSteps == (batchSize - |runs|) * 6 + |results|
      && forall r <- results :: Explained(r)
    }

    /** Between two documents: nothing is open and `k` phases and `i` documents are counted. */
    ghost predicate Between(k: nat, i: nat)
      reads this
    {
      && Counted() && At(trace, |runs|, k, i, false)
      && |results| == k * |runs| + i
      && activeItems == {}
    }

    /** In the middle of one document: exactly its item is open. */
    ghost predicate Inside(k: nat, i: nat, key: (int, Phase))
      reads this
    {
      && Counted() && At(trace, |runs|, k, i, true)
      && |results| == k * |runs| + i
      && activeItems == {key}
    }

    /** After a failure: still a prefix of the full trace, with every counted step completed in it. */
    ghost predicate Interrupted()
      reads this
    {
      && Counted() && trace <= FullTrace(|runs|)
      && |results| == |trace| / 2
      && ActiveIsLastStarted()
    }

    /** The only item that can be active is that of the step that has just been started. */
    ghost predicate ActiveIsLastStarted()
      reads this
    {
      activeItems != {} ==>
        && trace != [] && trace[|trace| - 1].Started? && trace[|trace| - 1].index < |runs|
        && activeItems == {ItemOf(trace[|trace| - 1].phase, trace[|trace| - 1].index)}
    }

    lemma InsideIsInterrupted(k: nat, i: nat)
      requires k < 6 && i < |runs| && Inside(k, i, KeyOf(k, i))
      ensures Interrupted()
    {
      AtIsPrefix(trace, |runs|, k, i, true);
    }

    lemma BetweenIsInterrupted(k: nat, i: nat)
      requires Between(k, i)
      ensures Interrupted()
    {
      AtIsPrefix(trace, |runs|, k, i, false);
    }

    function KeyOf(k: nat, i: nat): (int, Phase)
      requires k < 6 && i < |runs|
    {
      ItemOf(PHASES[k], i)
    }

    /** The actor opens the first and the last item of a run itself, its observer the others by document. */
    function ItemOf(phase: Phase, i: nat): (int, Phase)
      requires i < |runs|
    {
      if phase == PaperlessFetch || phase == ReviewSuggestion then (runs[i].id, phase)
      else (RunOfDocument(runs, runs[i].documentId).id, phase)
    }

    /** Opens a document's item of a phase, or fails before it is open. */
    method Start(k: nat, i: nat) returns (fault: Fault)
      requires k < 6 && i < |runs| && Between(k, i)
      modifies this`activeItems, this`trace
      ensures fault.NoFault? ==> Inside(k, i, KeyOf(k, i))
      ensures !fault.NoFault? ==> Interrupted()
    {
      fault := *;
      if !fault.NoFault? {
        BetweenIsInterrupted(k, i);
        return;
      }
      activeItems := activeItems + {KeyOf(k, i)};
      trace := trace + [Started(PHASES[k], i)];
    }

    /** Counts a finished item; the progress update after it may fail, the count stays. */
    method Complete(k: nat, i: nat, status: ItemStatus) returns (fault: Fault)
      requires k < 6 && i < |runs| && At(trace, |runs|, k, i, true) && Counted()
      requires |results| == k * |runs| + i && activeItems == {}
      requires Explained(ItemResult(PHASES[k], i, status))
      modifies this`completedSteps, this`results, this`trace
      ensures Between(k, i + 1)
      ensures !fault.NoFault? ==> Interrupted()
    {
      trace := trace + [Completed(PHASES[k], i)];
      results := results + [ItemResult(PHASES[k], i, status)];
      completedSteps := completedSteps + 1;
      BetweenIsInterrupted(k, i + 1);
      fault := *;
    }

    /** observe_phase with "completed": the item leaves `active_items` before it is finished. */
    method ObserveCompleted(k: nat, i: nat, state: DocumentState) returns (fault: Fault)
      requires 1 <= k <= 4 && i < |runs| && Inside(k, i, KeyOf(k, i)) && published == Announced(k)
      requires Explained(ItemResult(PHASES[k], i, ResultStatus(PHASES[k], state)))
      modifies this
      ensures fault.NoFault? ==> Between(k, i + 1)
      ensures fault.NoFault? ==> published == Announced(if i + 1 == |runs| then k + 1 else k)
      ensures !fault.NoFault? ==> Interrupted() && published == Announced(k)
    {
      fault := *;
      if !fault.NoFault? {
        InsideIsInterrupted(k, i);
        return;
      }
      activeItems := activeItems - {KeyOf(k, i)};
      fault := *;
      if !fault.NoFault? {
        AtIsPrefix(trace, |runs|, k, i, true);
        return;
      }
      fault := Complete(k, i, ResultStatus(PHASES[k], state));
      if !fault.NoFault? {
        return;
      }
      if i + 1 == |runs| {
        fault := AnnouncePhase(k);
      }
    }

    /** After a phase's last document its completion is published, unless that fails. */
    method AnnouncePhase(k: nat) returns (fault: Fault)
      requires 1 <= k <= 4 && Between(k, |runs|) && published == Announced(k)
      modifies this`published
      ensures Between(k, |runs|)
      ensures fault.NoFault? ==> published == Announced(k + 1)
      ensures !fault.NoFault? ==> Interrupted() && published == Announced(k)
    {
      fault := *;
      if !fault.NoFault? {
        BetweenIsInterrupted(k, |runs|);
        return;
      }
      published := published + [PhaseCompleted(PHASES[k])];
    }

    /** A step whose item is finished while it is still in `active_items`: fetch and review suggestion. */
    method PlainStep(k: nat, i: nat) returns (fault: Fault)
      requires (k == 0 || k == 5) && i < |runs| && Between(k, i)
      modifies this`activeItems, this`trace, this`completedSteps, this`results
      ensures fault.NoFault? ==> Between(k, i + 1)
      ensures !fault.NoFault? ==> Interrupted()
    {
      fault := Start(k, i);
      if !fault.NoFault? {
        return;
      }
      fault := *;
      if !fault.NoFault? {
        InsideIsInterrupted(k, i);
        return;
      }
      activeItems := activeItems - {KeyOf(k, i)};
      fault := Complete(k, i, Succeeded);
    }

    lemma PhaseIsOver(k: nat)
      requires k < 5 && Between(k, |runs|)
      ensures Between(k + 1, 0)
    {
      assert Before(k + 1, |runs|) == Before(k, |runs|) + PhaseTrace(PHASES[k], |runs|);
      assert trace == Before(k + 1, |runs|) + PhaseTrace(PHASES[k + 1], 0);
    }

    /** The embedding step of one document; without a stored embedding it raises. */
    method EmbedOne(i: nat) returns (fault: Fault)
      requires i < |runs| && Between(1, i) && published == Announced(1)
      modifies this
      ensures fault.NoFault? ==> Between(1, i + 1) && published == Announced(if i + 1 == |runs| then 2 else 1)
      ensures !fault.NoFault? ==> Interrupted() && published == Announced(1)
    {
      fault := Start(1, i);
      if !fault.NoFault? {
        return;
      }
      var c := calls[i];
      var embeddingPersisted := false;
      if !c.hasText {
        fault := Raised;
      } else if !c.embed.NoFault? {
        fault := c.embed;
      } else if !c.hasEmbedding || !c.stored {
        fault := Raised;
      } else {
        embeddingPersisted := true;
      }
      if !fault.NoFault? {
        InsideIsInterrupted(1, i);
        return;
      }
      fault := ObserveCompleted(1, i, DocumentState(embeddingPersisted, false, false));
    }

    /** The OCR step of one document: a failed correction is swallowed, a failed eligibility check is not. */
    method OcrOne(i: nat) returns (fault: Fault)
      requires i < |runs| && Between(2, i) && published == Announced(2)
      modifies this
      ensures fault.NoFault? ==> Between(2, i + 1) && published == Announced(if i + 1 == |runs| then 3 else 2)
      ensures !fault.NoFault? ==> Interrupted() && published == Announced(2)
    {
      fault := Start(2, i);
      if !fault.NoFault? {
        return;
      }
      var c := calls[i];
      fault := c.eligibility;
      if !fault.NoFault? {
        InsideIsInterrupted(2, i);
        return;
      }
      var corrected := false;
      if c.eligible && c.correction.NoFault? {  // a failure in here is logged and swallowed
        corrected := c.corrections > 0;
      }
      fault := ObserveCompleted(2, i, DocumentState(true, corrected, false));
    }

    /** The classification (`k == 3`) or judge (`k == 4`) step of one document. */
    method ModelStep(k: nat, i: nat, ready: bool) returns (fault: Fault)
      requires (k == 3 || k == 4) && i < |runs| && Between(k, i) && published == Announced(k)
      modifies this
      ensures fault.NoFault? ==> ready && Between(k, i + 1)
      ensures fault.NoFault? ==> published == Announced(if i + 1 == |runs| then k + 1 else k)
      ensures !fault.NoFault? ==> Interrupted() && published == Announced(k)
    {
      fault := Start(k, i);
      if !fault.NoFault? {
        return;
      }
      var c := calls[i];
      fault := if !ready then Raised else if k == 3 then c.classify else c.judge;
      if !fault.NoFault? {
        InsideIsInterrupted(k, i);
        return;
      }
      fault := ObserveCompleted(k, i, DocumentState(true, false, c.judgeRan));
    }

    method EmbedAll() returns (fault: Fault)
      requires runs != [] && Between(1, 0) && published == Announced(1)
      modifies this
      ensures fault.NoFault? ==> Between(2, 0) && published == Announced(2)
      ensures !fault.NoFault? ==> Interrupted() && published == Announced(1)
    {
      for i := 0 to |runs|
        invariant Between(1, i) && published == Announced(if i == |runs| then 2 else 1)
      {
        fault := EmbedOne(i);
        if !fault.NoFault? {
          return;
        }
      }
      PhaseIsOver(1);
      fault := NoFault;
    }

    method CorrectAll() returns (fault: Fault)
      requires runs != [] && Between(2, 0) && published == Announced(2)
      modifies this
      ensures fault.NoFault? ==> Between(3, 0) && published == Announced(3)
      ensures !fault.NoFault? ==> Interrupted() && published == Announced(2)
    {
      for i := 0 to |runs|
        invariant Between(2, i) && published == Announced(if i == |runs| then 3 else 2)
      {
        fault := OcrOne(i);
        if !fault.NoFault? {
          return;
        }
      }
      PhaseIsOver(2);
      fault := NoFault;
    }

    method ClassifyAll() returns (fault: Fault, classified: seq<bool>)
      requires runs != [] && Between(3, 0) && published == Announced(3)
      modifies this
      ensures fault.NoFault? ==> Between(4, 0) && published == Announced(4)
      ensures fault.NoFault? ==> classified == seq(|runs|, _ => true)
      ensures !fault.NoFault? ==> Interrupted() && published == Announced(3)
    {
      classified := seq(|runs|, _ => false);
      for i := 0 to |runs|
        invariant Between(3, i) && published == Announced(if i == |runs| then 4 else 3)
        invariant |classified| == |runs| && forall j :: 0 <= j < i ==> classified[j]
      {
        fault := ModelStep(3, i, true);
        if !fault.NoFault? {
          return;
        }
        classified := classified[i := true];
      }
      PhaseIsOver(3);
      fault := NoFault;
    }

    method JudgeAll(classified: seq<bool>) returns (fault: Fault)
      requires runs != [] && |classified| == |runs| && Between(4, 0) && published == Announced(4)
      modifies this
      ensures fault.NoFault? ==> Between(5, 0) && published == Announced(5)
      ensures !fault.NoFault? ==> Interrupted() && published == Announced(4)
    {
      for i := 0 to |runs|
        invariant Between(4, i) && published == Announced(if i == |runs| then 5 else 4)
      {
        fault := ModelStep(4, i, classified[i]);
        if !fault.NoFault? {
          return;
        }
      }
      PhaseIsOver(4);
      fault := NoFault;
    }

    /**
     * _run_staged_document_phases for a batch: all documents through one phase before the next.
     * When it returns, there is an outcome for every document.
     */
    method RunStagedDocumentPhases() returns (fault: Fault, outcomes: nat)
      requires runs != [] && Between(1, 0) && published == Announced(1)
      modifies this
      ensures fault.NoFault? ==> Between(5, 0) && published == Announced(5) && outcomes == |runs|
      ensures !fault.NoFault? ==> Interrupted() && published <= Announced(5)
    {
      outcomes := 0;
      fault := *;
      if !fault.NoFault? {
        BetweenIsInterrupted(1, 0);
        AnnouncedPrefix(1, 5);
        return;
      }
      fault := EmbedAll();
      if !fault.NoFault? {
        AnnouncedPrefix(1, 5);
        return;
      }
      fault := CorrectAll();
      if !fault.NoFault? {
        AnnouncedPrefix(2, 5);
        return;
      }
      var classified: seq<bool>;
      fault, classified := ClassifyAll();
      if !fault.NoFault? {
        AnnouncedPrefix(3, 5);
        return;
      }
      fault := JudgeAll(classified);
      if !fault.NoFault? {
        AnnouncedPrefix(4, 5);
        return;
      }
      for i := 0 to |runs|
        modifies {}
        invariant outcomes == i
      {
        if classified[i] {
          outcomes := outcomes + 1;
        }
      }
    }

    /** What holds however the batch ends. */
    ghost predicate Orderly()
      reads this
    {
      && trace <= FullTrace(|runs|)
      && |Open(trace)| <= 1
      && |activeItems| <= 1
      && ActiveIsLastStarted()
      && (activeItems != {} ==> Open(trace) == {(trace[|trace| - 1].phase, trace[|trace| - 1].index)})
      && completedSteps <= 6 * batchSize
      && (forall r <- results :: Explained(r))
    }

    lemma InterruptedIsOrderly()
      requires Interrupted()
      ensures Orderly()
    {
      AnyPrefixIsOrderly(trace, |runs|);
    }

    /** All documents are fetched, and the phase is announced. */
    method FetchAll() returns (fault: Fault)
      requires Between(0, 0) && published == []
      modifies this
      ensures fault.NoFault? ==> Between(1, 0) && published == Announced(1)
      ensures !fault.NoFault? ==> Interrupted() && published == []
    {
      for i := 0 to |runs|
        invariant Between(0, i) && published == []
      {
        fault := PlainStep(0, i);
        if !fault.NoFault? {
          return;
        }
      }
      fault := *;
      if !fault.NoFault? {
        BetweenIsInterrupted(0, |runs|);
        return;
      }
      PhaseIsOver(0);
      published := published + [PhaseCompleted(PaperlessFetch)];
      assert Announced(1) == Announced(0) + [PhaseCompleted(PHASES[0])];
    }

    /** All suggestions are stored, and completion is announced. */
    method StoreAll() returns (fault: Fault)
      requires Between(5, 0) && published == Announced(5)
      modifies this
      ensures Interrupted()
      ensures published == Announced(5) || published == Announced(5) + [BatchCompleted]
      ensures published != Announced(5) ==> trace == FullTrace(|runs|) && |results| == 6 * |runs| && activeItems == {}
      ensures fault.NoFault? ==> published == Announced(5) + [BatchCompleted]
    {
      for i := 0 to |runs|
        invariant Between(5, i) && published == Announced(5)
      {
        fault := PlainStep(5, i);
        if !fault.NoFault? {
          return;
        }
      }
      BetweenIsInterrupted(5, |runs|);
      fault := *;
      if !fault.NoFault? {
        return;
      }
      published := published + [BatchCompleted];
      fault := *;
    }

    /** The batch with at least one run to process and an index that is ready. */
    method ProcessRuns() returns (outcome: Outcome)
      requires runs != [] && Between(0, 0) && published == []
      modifies this
      ensures Interrupted()
      ensures published <= Announced(5) + [BatchCompleted]
      ensures BatchCompleted in published ==> trace == FullTrace(|runs|) && |results| == 6 * |runs|
      ensures outcome == Finished || (outcome.Stopped? && !outcome.fault.NoFault?)
      ensures outcome == Finished ==> published == Announced(5) + [BatchCompleted] && activeItems == {}
    {
      NothingCompletedYet([]);
      var fault := FetchAll();
      if !fault.NoFault? {
        return Stopped(fault);
      }
      var outcomes: nat;
      fault, outcomes := RunStagedDocumentPhases();
      if fault.NoFault? && outcomes != |runs| {
        fault := Raised;
      }
      if !fault.NoFault? {
        NothingCompletedYet(published);
        return Stopped(fault);
      }
      NothingCompletedYet(Announced(5));
      fault := StoreAll();
      return if fault.NoFault? then Finished else Stopped(fault);
    }

    /** The body of the actor's `try`. */
    method Process(embeddingReady: bool) returns (outcome: Outcome)
      requires |calls| == |runs| <= batchSize && activeItems == {} && completedSteps == 0
      requires results == [] && published == [] && trace == []
      modifies this
      ensures Orderly()
      ensures BatchCompleted in published ==>
                runs == [] || (trace == FullTrace(|runs|) && completedSteps == 6 * batchSize)
      ensures outcome == EmptyTargetSet ==> batchSize == 0 && published == []
      ensures outcome == Reconciled ==> runs == [] && published == [BatchCompleted]
      ensures outcome == Blocked ==> runs != [] && !embeddingReady && trace == [] && published == [BatchBlocked]
      ensures outcome == Finished ==> published == Announced(5) + [BatchCompleted] && activeItems == {}
      ensures outcome == Finished ==> |results| == 6 * |runs|
      ensures runs != [] && embeddingReady ==> published <= Announced(5) + [BatchCompleted]
      ensures outcome != Stopped(NoFault)
    {
      var fault: Fault := *;
      AnyPrefixIsOrderly(trace, |runs|);
      if !fault.NoFault? {
        return Stopped(fault);
      }
      if batchSize == 0 {
        fault := *;
        return if fault.NoFault? then EmptyTargetSet else Stopped(fault);
      }
      if runs == [] {
        published := [BatchCompleted];
        fault := *;
        return if fault.NoFault? then Reconciled else Stopped(fault);
      }
      if !embeddingReady {
        fault := *;
        if !fault.NoFault? {
          return Stopped(fault);
        }
        published := [BatchBlocked];
        return Blocked;
      }
      completedSteps := (batchSize - |runs|) * 6;
      outcome := ProcessRuns();
      InterruptedIsOrderly();
      assert BatchCompleted in Announced(5) + [BatchCompleted];
    }

    lemma NothingCompletedYet(p: seq<Published>)
      requires p <= Announced(5)
      ensures BatchCompleted !in p && p <= Announced(5) + [BatchCompleted]
    {
      assert Announced(5) == [PhaseCompleted(PaperlessFetch), PhaseCompleted(Embedding), PhaseCompleted(Ocr),
                              PhaseCompleted(Classification), PhaseCompleted(Judge)];
    }

    /**
     * _handle_staged_document_batch_impl. However it ends, the events are a prefix of the full
     * trace, at most one item is open and the counter stays within six steps for each document of
     * the batch; completion is published only with every step of every unfinished run counted.
     * After a lost fence nothing is cleaned up; after any other failure the open items are failed.
     */
    method Handle(embeddingReady: bool) returns (outcome: Outcome, cleaned: set<(int, Phase)>)
      requires |calls| == |runs| <= batchSize && activeItems == {} && completedSteps == 0
      requires results == [] && published == [] && trace == []
      modifies this
      ensures Orderly()
      ensures BatchCompleted in published ==>
                runs == [] || (trace == FullTrace(|runs|) && completedSteps == 6 * batchSize)
      ensures outcome == EmptyTargetSet ==> batchSize == 0 && published == []
      ensures outcome == Reconciled ==> runs == [] && published == [BatchCompleted]
      ensures outcome == Blocked ==> runs != [] && !embeddingReady && trace == [] && published == [BatchBlocked]
      ensures outcome == Finished ==> published == Announced(5) + [BatchCompleted] && activeItems == {}
      ensures outcome == Finished ==> |results| == 6 * |runs|
      ensures runs != [] && embeddingReady ==> published <= Announced(5) + [BatchCompleted]
      ensures cleaned == if outcome == Stopped(Raised) then activeItems else {}
    {
      cleaned := {};
      outcome := Process(embeddingReady);
      if outcome == Stopped(Raised) {
        cleaned := FailActiveItems();
      }
    }

    /** Every open item is finished as failed, in any order. */
    method FailActiveItems() returns (cleaned: set<(int, Phase)>)
      ensures cleaned == activeItems
    {
      cleaned := {};
      var rest := activeItems;
      while rest != {}
        invariant cleaned + rest == activeItems
      {
        ghost var some := Pick(rest);
        var key :| key in rest;
        cleaned, rest := cleaned + {key}, rest - {key};
      }
    }
  }
}
