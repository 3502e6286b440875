/**
 * `BatchProcessor.process_batch_safe` of the sync job
 * (`rag_server/sync_confluence.py`): each page of a batch is skipped,
 * indexed (with retries after an exception) or recorded as failed, and the
 * processor's sets and the sync state are updated to match.
 *
 * Indexing one page (`_process_page_logic`: fetching, chunking, Postgres and
 * Qdrant) is a parameter: for a page id and an attempt number it says whether
 * the page was indexed, was not worth indexing, or raised.
 */
module Batch {
  import opened Wrappers
  import opened SyncParsers

  /** A page of the batch: its id (already `str(...)`), its title if present and its `version.when`. */
  datatype BatchPage = BatchPage(id: string, title: Option<string>, when: Option<string>)

  /** An entry of `state['pages']`; `updated` is missing when the entry has no such key. */
  datatype PageRecord = PageRecord(updated: Option<int>, title: string)

  /** What one attempt of `_process_page_logic` does. */
  datatype Outcome = Indexed | NotIndexed | Raised(msg: string)

  /** How a page is counted. */
  datatype Verdict = Updated | Skipped | Failed(msg: string) | NotCounted

  /** An entry of `error_details`, without its clock reading. */
  datatype ErrorDetail = ErrorDetail(pageId: string, title: string, error: string)

  /** `page.get('title', 'Unknown')`. */
  function TitleOf(p: BatchPage): string {
    if p.title.Some? then p.title.value else "Unknown"
  }

  /**
   * The retry loop from attempt `attempt` on: the first attempt that does not
   * raise decides; an exception on the last allowed attempt fails the page;
   * with no attempt allowed at all the page is not counted.
   */
  function RetryFrom(id: string, attempt: nat, maxRetries: int, outcome: (string, nat) -> Outcome): Verdict
    decreases maxRetries - attempt
  {
    if attempt >= maxRetries then NotCounted
    else match outcome(id, attempt)
      case Indexed => Updated
      case NotIndexed => Skipped
      case Raised(msg) => if attempt < maxRetries - 1 then RetryFrom(id, attempt + 1, maxRetries, outcome) else Failed(msg)
  }

  /**
   * From a first attempt below `maxRetries`, the page is always counted.
   * It is updated or skipped exactly when some attempt did so after only
   * exceptions before it, and it fails with the last attempt's message
   * when all the attempts left raised.
   */
  lemma {:induction false} RetryFromFacts(id: string, attempt: nat, maxRetries: int, outcome: (string, nat) -> Outcome)
    requires attempt < maxRetries
    ensures var v := RetryFrom(id, attempt, maxRetries, outcome);
            v != NotCounted
            && (v == Updated ==> exists a: nat :: attempt <= a < maxRetries && outcome(id, a) == Indexed
                                                && forall b: nat :: attempt <= b < a ==> outcome(id, b).Raised?)
            && (v == Skipped ==> exists a: nat :: attempt <= a < maxRetries && outcome(id, a) == NotIndexed
                                                && forall b: nat :: attempt <= b < a ==> outcome(id, b).Raised?)
            && (v.Failed? ==> outcome(id, maxRetries - 1) == Raised(v.msg)
                              && forall b: nat :: attempt <= b < maxRetries ==> outcome(id, b).Raised?)
    decreases maxRetries - attempt
  {
    var v := RetryFrom(id, attempt, maxRetries, outcome);
    if outcome(id, attempt).Raised? && attempt < maxRetries - 1 {
      RetryFromFacts(id, attempt + 1, maxRetries, outcome);
      assert v == RetryFrom(id, attempt + 1, maxRetries, outcome);
      if v == Updated {
        var a: nat :| attempt + 1 <= a < maxRetries && outcome(id, a) == Indexed
                      && forall b: nat :: attempt + 1 <= b < a ==> outcome(id, b).Raised?;
        assert forall b: nat :: attempt <= b < a ==> outcome(id, b).Raised?;
      } else if v == Skipped {
        var a: nat :| attempt + 1 <= a < maxRetries && outcome(id, a) == NotIndexed
                      && forall b: nat :: attempt + 1 <= b < a ==> outcome(id, b).Raised?;
        assert forall b: nat :: attempt <= b < a ==> outcome(id, b).Raised?;
      }
    }
  }

  /** The processor's sets and the sync state's pages. */
  datatype Books = Books(processed: set<string>, failed: map<string, string>, pages: map<string, PageRecord>)

  /** The values `process_batch_safe` returns. */
  datatype Counts = Counts(updated: nat, errors: nat, skipped: nat, details: seq<ErrorDetail>)

  /** How a page is counted, given the books before it: no id, already processed or unchanged since the last sync is a skip. */
  function PageVerdict(b: Books, p: BatchPage, maxRetries: int, outcome: (string, nat) -> Outcome): Verdict {
    if p.id == "" then Skipped
    else if p.id in b.processed then Skipped
    else if p.id in b.pages && b.pages[p.id].updated == Some(GetTimestamp(p.when)) then Skipped
    else RetryFrom(p.id, 0, maxRetries, outcome)
  }

  /** One page of the loop. */
  function PageStep(bc: (Books, Counts), p: BatchPage, maxRetries: int, outcome: (string, nat) -> Outcome): (Books, Counts) {
    var (b, c) := bc;
    match PageVerdict(b, p, maxRetries, outcome)
    case Updated =>
      (b.(processed := b.processed + {p.id}, pages := b.pages[p.id := PageRecord(Some(GetTimestamp(p.when)), TitleOf(p))]),
       c.(updated := c.updated + 1))
    case Skipped => (b, c.(skipped := c.skipped + 1))
    case Failed(msg) =>
      (b.(failed := b.failed[p.id := msg]),
       c.(errors := c.errors + 1, details := c.details + [ErrorDetail(p.id, TitleOf(p), msg)]))
    case NotCounted => (b, c)
  }

  function BatchFold(bc: (Books, Counts), batch: seq<BatchPage>, maxRetries: int, outcome: (string, nat) -> Outcome): (Books, Counts) {
    if batch == [] then bc
    else PageStep(BatchFold(bc, batch[..|batch| - 1], maxRetries, outcome), batch[|batch| - 1], maxRetries, outcome)
  }

  lemma BatchFoldSnoc(bc: (Books, Counts), batch: seq<BatchPage>, i: nat, maxRetries: int, outcome: (string, nat) -> Outcome)
    requires i < |batch|
    ensures BatchFold(bc, batch[..i + 1], maxRetries, outcome) == PageStep(BatchFold(bc, batch[..i], maxRetries, outcome), batch[i], maxRetries, outcome)
  {
    assert batch[..i + 1][..i] == batch[..i];
  }

  /** `state`: the sync state, of which the batch updates `pages`. */
  class SyncState {
    var pages: map<string, PageRecord>

    constructor (pages: map<string, PageRecord>)
      ensures this.pages == pages
    {
      this.pages := pages;
    }
  }

  /** `BatchProcessor` with a set of processed ids (the Bloom filter variant is left out). */
  class BatchProcessor {
    const maxRetries: int
    var processedIds: set<string>
    var failedIds: map<string, string>

    constructor (maxRetries: int)
      ensures this.maxRetries == maxRetries && processedIds == {} && failedIds == map[]
    {
      this.maxRetries := maxRetries;
      processedIds := {};
      failedIds := map[];
    }

    /** The retry loop: `for attempt in range(self.max_retries)`. */
    method RunAttempts(id: string, outcome: (string, nat) -> Outcome) returns (v: Verdict)
      ensures v == RetryFrom(id, 0, maxRetries, outcome)
    {
      v := NotCounted;
      var attempt: nat := 0;
      var done := false;
      while attempt < maxRetries && !done
        invariant done ==> v == RetryFrom(id, 0, maxRetries, outcome)
        invariant !done ==> v == NotCounted && RetryFrom(id, 0, maxRetries, outcome) == RetryFrom(id, attempt, maxRetries, outcome)
        decreases maxRetries - attempt, if done then 0 else 1
      {
        match outcome(id, attempt)
        case Indexed =>
          v := Updated;
          done := true;
        case NotIndexed =>
          v := Skipped;
          done := true;
        case Raised(msg) =>
          if attempt < maxRetries - 1 {
            attempt := attempt + 1;
          } else {
            v := Failed(msg);
            done := true;
          }
      }
    }

    /** `process_batch_safe`: the counters, the error details, and the books updated page by page. */
    method ProcessBatchSafe(batch: seq<BatchPage>, state: SyncState, outcome: (string, nat) -> Outcome)
      returns (updated: nat, errors: nat, skipped: nat, errorDetails: seq<ErrorDetail>)
      modifies this, state
      ensures (Books(processedIds, failedIds, state.pages), Counts(updated, errors, skipped, errorDetails))
           == BatchFold((Books(old(processedIds), old(failedIds), old(state.pages)), Counts(0, 0, 0, [])), batch, maxRetries, outcome)
    {
      ghost var start := (Books(processedIds, failedIds, state.pages), Counts(0, 0, 0, []));
      updated, errors, skipped, errorDetails := 0, 0, 0, [];
      for i := 0 to |batch|
        invariant (Books(processedIds, failedIds, state.pages), Counts(updated, errors, skipped, errorDetails))
               == BatchFold(start, batch[..i], maxRetries, outcome)
      {
        BatchFoldSnoc(start, batch, i, maxRetries, outcome);
        var p := batch[i];
        var v := PageVerdictOf(Books(processedIds, failedIds, state.pages), p, outcome);
        updated, errors, skipped, errorDetails := RecordVerdict(p, v, state, outcome, updated, errors, skipped, errorDetails);
      }
      assert batch[..|batch|] == batch;
    }

    /** The bookkeeping for one page once its verdict is known. */
    method RecordVerdict(p: BatchPage, v: Verdict, state: SyncState, outcome: (string, nat) -> Outcome,
                         updated: nat, errors: nat, skipped: nat, errorDetails: seq<ErrorDetail>)
      returns (updated': nat, errors': nat, skipped': nat, errorDetails': seq<ErrorDetail>)
      requires v == PageVerdict(Books(processedIds, failedIds, state.pages), p, maxRetries, outcome)
      modifies this, state
      ensures (Books(processedIds, failedIds, state.pages), Counts(updated', errors', skipped', errorDetails'))
           == PageStep((Books(old(processedIds), old(failedIds), old(state.pages)), Counts(updated, errors, skipped, errorDetails)),
                       p, maxRetries, outcome)
    {
      updated', errors', skipped', errorDetails' := updated, errors, skipped, errorDetails;
      match v
      case Updated =>
        state.pages := state.pages[p.id := PageRecord(Some(GetTimestamp(p.when)), TitleOf(p))];
        processedIds := processedIds + {p.id};
        updated' := updated + 1;
      case Skipped =>
        skipped' := skipped + 1;
      case Failed(msg) =>
        failedIds := failedIds[p.id := msg];
        errors' := errors + 1;
        errorDetails' := errorDetails + [ErrorDetail(p.id, TitleOf(p), msg)];
      case NotCounted =>
    }

    /** The checks before the retry loop, then the loop. */
    method PageVerdictOf(b: Books, p: BatchPage, outcome: (string, nat) -> Outcome) returns (v: Verdict)
      ensures v == PageVerdict(b, p, maxRetries, outcome)
    {
      if p.id == "" {
        return Skipped;
      }
      var ts := GetTimestamp(p.when);
      if p.id in b.processed {
        return Skipped;
      }
      if p.id in b.pages && b.pages[p.id].updated == Some(ts) {
        return Skipped;
      }
      v := RunAttempts(p.id, outcome);
    }
  }

  // ---------------------------------------------------------------------
  // Properties
  // ---------------------------------------------------------------------

  /** The books and counts change together: an update adds a new id and its record, a failure its message and one detail. */
  ghost predicate StepAgrees(bc: (Books, Counts), bc': (Books, Counts)) {
    var (b, c) := bc;
    var (b', c') := bc';
    b.processed <= b'.processed && |b'.processed| == |b.processed| + (c'.updated - c.updated)
    && c.updated <= c'.updated && c.errors <= c'.errors && c.skipped <= c'.skipped
    && |c'.details| - |c.details| == c'.errors - c.errors
    && (forall id :: id in b'.processed && id !in b.processed ==> id in b'.pages)
    && (forall id :: id !in b'.processed || id in b.processed ==> (id in b'.pages <==> id in b.pages))
    && (forall id :: (id !in b'.processed || id in b.processed) && id in b.pages ==> b'.pages[id] == b.pages[id])
    && b.failed.Keys <= b'.failed.Keys
  }

  /**
   * One page: exactly one counter goes up when `maxRetries >= 1`; an
   * updated page enters the processed ids and the state's pages, and
   * no other page does.
   */
  lemma PageStepFacts(bc: (Books, Counts), p: BatchPage, maxRetries: int, outcome: (string, nat) -> Outcome)
    ensures var bc' := PageStep(bc, p, maxRetries, outcome);
            StepAgrees(bc, bc')
            && (maxRetries >= 1 ==> bc'.1.updated + bc'.1.errors + bc'.1.skipped == bc.1.updated + bc.1.errors + bc.1.skipped + 1)
            && (bc'.1.updated == bc.1.updated + 1 <==> p.id !in bc.0.processed && bc'.0.processed == bc.0.processed + {p.id})
  {
    var (b, c) := bc;
    var v := PageVerdict(b, p, maxRetries, outcome);
    if maxRetries >= 1 && p.id != "" && p.id !in b.processed {
      RetryFromFacts(p.id, 0, maxRetries, outcome);
    }
    if v == Updated {
      assert |b.processed + {p.id}| == |b.processed| + 1;
    }
  }

  lemma StepAgreesTrans(x: (Books, Counts), y: (Books, Counts), z: (Books, Counts))
    requires StepAgrees(x, y) && StepAgrees(y, z)
    ensures StepAgrees(x, z)
  {
  }

  /**
   * A whole batch: with `maxRetries >= 1` the three counters grow by
   * exactly the number of pages; the processed ids grow by one new id per
   * updated page, and the state's pages change only for those ids; there
   * is one error detail per error.
   */
  lemma {:induction false} BatchFacts(bc: (Books, Counts), batch: seq<BatchPage>, maxRetries: int, outcome: (string, nat) -> Outcome)
    ensures var bc' := BatchFold(bc, batch, maxRetries, outcome);
            StepAgrees(bc, bc')
            && (maxRetries >= 1 ==> bc'.1.updated + bc'.1.errors + bc'.1.skipped == bc.1.updated + bc.1.errors + bc.1.skipped + |batch|)
    decreases |batch|
  {
    if batch != [] {
      var init := batch[..|batch| - 1];
      var mid := BatchFold(bc, init, maxRetries, outcome);
      BatchFacts(bc, init, maxRetries, outcome);
      PageStepFacts(mid, batch[|batch| - 1], maxRetries, outcome);
      StepAgreesTrans(bc, mid, BatchFold(bc, batch, maxRetries, outcome));
    } else {
      assert StepAgrees(bc, bc);
    }
  }

  /** Without any attempt allowed, pages that reach the retry loop are not counted at all. */
  lemma NoAttempts(id: string, maxRetries: int, outcome: (string, nat) -> Outcome)
    requires maxRetries <= 0
    ensures RetryFrom(id, 0, maxRetries, outcome) == NotCounted
  {
  }

  /** A page met again in the same batch after it was updated is skipped. */
  lemma SecondVisitSkipped(bc: (Books, Counts), p: BatchPage, maxRetries: int, outcome: (string, nat) -> Outcome)
    requires PageVerdict(bc.0, p, maxRetries, outcome) == Updated
    ensures PageVerdict(PageStep(bc, p, maxRetries, outcome).0, p, maxRetries, outcome) == Skipped
  {
  }
}
