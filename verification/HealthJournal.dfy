/** The supervisor's event journal with bounded retention, and reading it past a cursor. */
module HealthJournal {
  import opened Basics
  import opened Alerts

  const EVENT_LIMIT := 100

  /** The retained events and the number of events ever recorded. */
  datatype Journal = Journal(events: seq<HealthEvent>, sequence: nat)

  const EMPTY_JOURNAL := Journal([], 0)

  datatype HealthStateError = HealthStateError

  function KeepLast(events: seq<HealthEvent>): seq<HealthEvent> {
    if |events| <= EVENT_LIMIT then events else events[|events| - EVENT_LIMIT..]
  }

  function Emit(j: Journal, atMs: int, kind: HealthKind, problems: seq<Problem>): Journal {
    var event := HealthEvent(j.sequence + 1, atMs, kind, problems);
    Journal(KeepLast(j.events + [event]), j.sequence + 1)
  }

  /** What decoding a persisted journal insists on. */
  predicate Contiguous(j: Journal) {
    && |j.events| <= EVENT_LIMIT
    && (forall i :: 0 <= i < |j.events| ==> j.events[i].sequence == j.sequence - |j.events| + 1 + i)
    && (j.events == [] <==> j.sequence == 0)
  }

  function After(events: seq<HealthEvent>, sequence: int): seq<HealthEvent> {
    if events == [] then []
    else if events[0].sequence > sequence then [events[0]] + After(events[1..], sequence)
    else After(events[1..], sequence)
  }

  function EventsSince(j: Journal, cursor: int): Result<seq<HealthEvent>, HealthStateError> {
    var oldest := if j.events != [] then j.events[0].sequence - 1 else j.sequence;
    if oldest <= cursor <= j.sequence then Ok(After(j.events, cursor)) else Err(HealthStateError)
  }

  // ---- the journal as a window on everything that ever happened ----

  ghost predicate IsHistory(history: seq<HealthEvent>) {
    forall i :: 0 <= i < |history| ==> history[i].sequence == i + 1
  }

  ghost predicate Represents(j: Journal, history: seq<HealthEvent>) {
    IsHistory(history) && j.sequence == |history| && j.events == KeepLast(history)
  }

  lemma EmitExtends(j: Journal, history: seq<HealthEvent>, atMs: int, kind: HealthKind, problems: seq<Problem>)
    requires Represents(j, history)
    ensures Represents(Emit(j, atMs, kind, problems), history + [HealthEvent(|history| + 1, atMs, kind, problems)])
  {
    var e := HealthEvent(|history| + 1, atMs, kind, problems);
    assert KeepLast(KeepLast(history) + [e]) == KeepLast(history + [e]);
  }

  /** Every journal the supervisor writes passes its own decoder. */
  lemma WrittenJournalIsContiguous(j: Journal, history: seq<HealthEvent>)
    requires Represents(j, history)
    ensures Contiguous(j)
  {
    assert history != [] ==> KeepLast(history) != [];
  }

  lemma {:induction false} AfterIsSuffix(events: seq<HealthEvent>, first: int, cursor: int)
    requires forall i :: 0 <= i < |events| ==> events[i].sequence == first + i
    requires first - 1 <= cursor <= first + |events| - 1
    ensures After(events, cursor) == events[cursor - first + 1..]
  {
    if events != [] {
      forall i | 0 <= i < |events[1..]| ensures events[1..][i].sequence == first + 1 + i { }
      if cursor == first - 1 {
        AllAfter(events, cursor);
      } else {
        AfterIsSuffix(events[1..], first + 1, cursor);
      }
    }
  }

  lemma {:induction false} AllAfter(events: seq<HealthEvent>, cursor: int)
    requires forall i :: 0 <= i < |events| ==> events[i].sequence > cursor
    ensures After(events, cursor) == events
  {
    if events != [] { AllAfter(events[1..], cursor); }
  }

  /** Reading past a cursor returns exactly the events since, or fails exactly when some of them have
      already been dropped or the cursor is ahead of the journal. */
  lemma EventsSinceIsExact(j: Journal, history: seq<HealthEvent>, cursor: int)
    requires Represents(j, history)
    ensures EventsSince(j, cursor) ==
      if (if |history| > EVENT_LIMIT then |history| - EVENT_LIMIT else 0) <= cursor <= |history| then Ok(history[cursor..])
      else Err(HealthStateError)
  {
    var dropped := if |history| > EVENT_LIMIT then |history| - EVENT_LIMIT else 0;
    assert j.events == history[dropped..];
    if dropped <= cursor <= |history| {
      AfterIsSuffix(j.events, dropped + 1, cursor);
      assert j.events[cursor - dropped..] == history[cursor..];
    }
  }
}
