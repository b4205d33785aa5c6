/** Every ledger the save operations can reach: it always replays, its keys never collide, and a confirmed
  management record maps exactly the current live buys. */
module LedgerRuns {
  import opened Basics
  import opened FillReplay
  import opened FillOrder
  import opened PositionManagement
  import opened Ledger

  // ---- the invariant ----

  predicate Numbered(fills: seq<FillRow>) {
    forall i :: 0 <= i < |fills| ==> fills[i].row.sequence == i + 1
  }

  predicate RequestsDiffer(fills: seq<FillRow>) {
    forall i, j :: 0 <= i < j < |fills| ==> fills[i].request.requestId != fills[j].request.requestId
  }

  /** A fill is named by the request of its first revision, which is of the same position. */
  predicate Owned(fills: seq<FillRow>, f: FillRow) {
    match SavedFill(fills, f.row.fillId)
    case None => false
    case Some(first) => first.request.positionId == f.request.positionId
  }

  predicate FillsOwned(fills: seq<FillRow>) {
    forall f :: f in fills ==> Owned(fills, f)
  }

  /** Later revisions of a fill have larger numbers, so no two rows share fill and revision. */
  predicate RevisionsGrow(fills: seq<FillRow>) {
    forall i, j :: 0 <= i < j < |fills| && fills[i].row.fillId == fills[j].row.fillId ==> fills[i].row.revision < fills[j].row.revision
  }

  predicate FillsOk(fills: seq<FillRow>) {
    && Numbered(fills) && RequestsDiffer(fills) && FillsOwned(fills) && RevisionsGrow(fills)
    && forall f :: f in fills ==> f.row.fact.quantity > 0.0 && f.row.revision >= 1
  }

  predicate PositionsOk(t: Tables) {
    && (forall i, j :: 0 <= i < j < |t.positions| ==> t.positions[i].id != t.positions[j].id)
    && (forall f :: f in t.fills ==> Placeable(t.positions, f.request.positionId))
    && (forall s :: s in t.states ==> Placeable(t.positions, s.request.positionId))
    && (forall m :: m in t.managements ==> Placeable(t.positions, m.request.positionId))
  }

  function CountStates(states: seq<StateRow>, positionId: string): nat {
    if states == [] then 0
    else CountStates(states[..|states| - 1], positionId) + (if states[|states| - 1].request.positionId == positionId then 1 else 0)
  }

  /** The revisions of each position are numbered from one, without gaps. */
  predicate StatesOk(states: seq<StateRow>) {
    && (forall i :: 0 <= i < |states| ==> states[i].revision == CountStates(states[..i], states[i].request.positionId) + 1)
    && (forall i, j :: 0 <= i < j < |states| ==> states[i].request.requestId != states[j].request.requestId)
    && (forall s :: s in states ==> s.fillSequence > 0)
  }

  predicate ManagementsNumbered(managements: seq<ManagementRow>) {
    && (forall i :: 0 <= i < |managements| ==> managements[i].revision == CountManagements(managements[..i], managements[i].request.positionId) + 1)
    && (forall i, j :: 0 <= i < j < |managements| ==> managements[i].request.requestId != managements[j].request.requestId)
  }

  /** The part of a history recorded up to a sequence. */
  function UpToSequence(history: seq<Revision>, sequence: int): seq<Revision> {
    if history == [] then []
    else
      UpToSequence(history[..|history| - 1], sequence)
      + (if history[|history| - 1].sequence <= sequence then [history[|history| - 1]] else [])
  }

  /** A management record maps the live buys of the fills it was confirmed against, at their revisions then. */
  predicate MapsItsBuys(fills: seq<FillRow>, m: ManagementRow) {
    var p := Project(UpToSequence(History(fills, m.request.positionId), m.fillSequence));
    && 1 <= m.fillSequence <= |fills| && m.stateRevision >= 0 && p.Ok? && 1 <= |LiveBuys(p.value.fills)| <= MAX_MAPPED_FILLS
    && m.revisions == Revisions(LiveBuys(p.value.fills)) && m.request.stages.Keys == Ids(LiveBuys(p.value.fills))
  }

  predicate ManagementsOk(t: Tables) {
    ManagementsNumbered(t.managements) && forall m :: m in t.managements ==> MapsItsBuys(t.fills, m)
  }

  predicate Inv(t: Tables) {
    FillsOk(t.fills) && PositionsOk(t) && AllProject(t.positions, t.fills) && StatesOk(t.states) && ManagementsOk(t)
  }

  // ---- histories ----

  lemma HistoryAppend(fills: seq<FillRow>, f: FillRow, positionId: string)
    ensures History(fills + [f], positionId) ==
      if f.request.positionId == positionId then History(fills, positionId) + [f.row] else History(fills, positionId)
  {
    assert (fills + [f])[..|fills|] == fills;
  }

  /** A history is in the order of its sequences, which are numbers of table rows. */
  lemma {:induction false} HistoryAscends(fills: seq<FillRow>, positionId: string)
    requires Numbered(fills)
    ensures Ascending(History(fills, positionId))
    ensures forall r :: r in History(fills, positionId) ==> 1 <= r.sequence <= |fills|
  {
    if fills != [] { HistoryAscends(fills[..|fills| - 1], positionId); }
  }

  lemma {:induction false} HistoryMembers(fills: seq<FillRow>, positionId: string, r: Revision)
    ensures r in History(fills, positionId) <==> exists f :: f in fills && f.request.positionId == positionId && f.row == r
  {
    if fills != [] {
      var init, last := fills[..|fills| - 1], fills[|fills| - 1];
      HistoryMembers(init, positionId, r);
      assert fills == init + [last];
    }
  }

  lemma {:induction false} MaxSequenceIs(history: seq<Revision>, bound: int)
    requires Ascending(history) && forall r :: r in history ==> 1 <= r.sequence <= bound
    ensures MaxSequence(history) == (if history == [] then 0 else history[|history| - 1].sequence)
    ensures history != [] ==> 1 <= MaxSequence(history) <= bound
  {
    if history != [] {
      var n := |history| - 1;
      assert history[n] in history;
      MaxSequenceIs(history[..n], bound);
      if n > 0 { assert history[..n][n - 1] == history[n - 1]; }
    }
  }

  /** What the check before the insert accepts under the predicted number is what replays under the number
      the table gives. */
  lemma PredictionIsExact(fills: seq<FillRow>, req: FillRequest, fillId: string, revision: int)
    requires Numbered(fills)
    ensures var history := History(fills, req.positionId);
      Project(history + [Candidate(history, req, fillId, revision)]).Ok?
      <==> Project(History(fills + [Stored(fills, req, fillId, revision)], req.positionId)).Ok?
  {
    var history := History(fills, req.positionId);
    var candidate, row := Candidate(history, req, fillId, revision), Stored(fills, req, fillId, revision);
    HistoryAscends(fills, req.positionId);
    MaxSequenceIs(history, |fills|);
    HistoryAppend(fills, row, req.positionId);
    AppendAscends(history, candidate);
    AppendAscends(history, row.row);
    RenumberingDecidesAlike(history + [candidate], history + [row.row]);
  }

  lemma AppendAscends(history: seq<Revision>, r: Revision)
    requires Ascending(history) && (history != [] ==> history[|history| - 1].sequence < r.sequence)
    ensures Ascending(history + [r])
  {
  }

  // ---- the latest revision of a fill is its largest ----

  lemma {:induction false} PutIsLatest(entries: seq<Entry>, row: Revision)
    requires DistinctFills(entries)
    ensures DistinctFills(Put(entries, row))
    ensures forall e :: e in Put(entries, row) ==> e.row == row || (e.row.fillId != row.fillId && e in entries)
  {
    if entries != [] && entries[0].row.fillId != row.fillId {
      PutIsLatest(entries[1..], row);
      var rest := Put(entries[1..], row);
      forall i | 0 <= i < |rest| ensures entries[0].row.fillId != rest[i].row.fillId {
        assert rest[i] in rest;
        if rest[i].row != row { assert rest[i] in entries[1..]; }
      }
    } else if entries != [] {
      forall e | e in entries[1..] ensures e.row.fillId != row.fillId { }
    }
  }

  predicate Growing(history: seq<Revision>) {
    forall i, j :: 0 <= i < j < |history| && history[i].fillId == history[j].fillId ==> history[i].revision < history[j].revision
  }

  predicate Newest(history: seq<Revision>, row: Revision) {
    forall r :: r in history && r.fillId == row.fillId ==> r.revision <= row.revision
  }

  lemma {:induction false} LatestAreNewest(history: seq<Revision>)
    requires Growing(history)
    ensures DistinctFills(Latest(history)) && forall e :: e in Latest(history) ==> Newest(history, e.row)
  {
    if history != [] {
      var init, last := history[..|history| - 1], history[|history| - 1];
      LatestAreNewest(init);
      PutIsLatest(Latest(init), last);
      forall e | e in Latest(history) ensures Newest(history, e.row) {
        forall r | r in history && r.fillId == e.row.fillId ensures r.revision <= e.row.revision {
          if e.row != last { assert r in init; } else if r != last {
            assert r in init;
            var i :| 0 <= i < |init| && init[i] == r;
            assert history[i].revision < history[|init|].revision;
          }
        }
      }
    }
  }

  lemma {:induction false} HistoryGrows(fills: seq<FillRow>, positionId: string)
    requires RevisionsGrow(fills)
    ensures Growing(History(fills, positionId))
  {
    if fills != [] {
      var init, last := fills[..|fills| - 1], fills[|fills| - 1];
      HistoryGrows(init, positionId);
      var h := History(init, positionId);
      if last.request.positionId == positionId {
        forall i | 0 <= i < |h| && h[i].fillId == last.row.fillId ensures h[i].revision < last.row.revision {
          HistoryMembers(init, positionId, h[i]);
          assert h[i] in h;
          var f :| f in init && f.row == h[i];
          var k :| 0 <= k < |init| && init[k] == f;
          assert fills[k].row.revision < fills[|init|].row.revision;
        }
      }
    }
  }

  /** The revision a correction replaces is the largest of its fill in the whole table. */
  lemma PreviousIsNewest(fills: seq<FillRow>, positionId: string, previous: Revision)
    requires FillsOk(fills) && FindFill(SortFills(Latest(History(fills, positionId))), previous.fillId) == Some(previous)
    ensures forall f :: f in fills && f.row.fillId == previous.fillId ==> f.row.revision <= previous.revision && f.request.positionId == positionId
    ensures exists f :: f in fills && f.row == previous && f.request.positionId == positionId
  {
    var history := History(fills, positionId);
    HistoryGrows(fills, positionId);
    LatestAreNewest(history);
    SortConserves(Latest(history));
    var e :| e in SortFills(Latest(history)) && e.row == previous;
    assert e in multiset(SortFills(Latest(history)));
    assert e in Latest(history);
    LatestAreRevisions(history);
    HistoryMembers(fills, positionId, previous);
    var own :| own in fills && own.request.positionId == positionId && own.row == previous;
    forall f | f in fills && f.row.fillId == previous.fillId ensures f.row.revision <= previous.revision && f.request.positionId == positionId {
      SamePosition(fills, own, f);
      HistoryMembers(fills, positionId, f.row);
    }
  }

  /** Revisions of one fill belong to one position. */
  lemma SamePosition(fills: seq<FillRow>, f: FillRow, g: FillRow)
    requires FillsOwned(fills) && f in fills && g in fills && f.row.fillId == g.row.fillId
    ensures f.request.positionId == g.request.positionId
  {
    assert Owned(fills, f) && Owned(fills, g);
  }

  // ---- each operation keeps the invariant ----

  lemma UpToAppend(history: seq<Revision>, r: Revision, sequence: int)
    requires r.sequence > sequence
    ensures UpToSequence(history + [r], sequence) == UpToSequence(history, sequence)
  {
    assert (history + [r])[..|history|] == history;
  }

  lemma {:induction false} UpToAll(history: seq<Revision>, sequence: int)
    requires forall r :: r in history ==> r.sequence <= sequence
    ensures UpToSequence(history, sequence) == history
  {
    if history != [] {
      var init, last := history[..|history| - 1], history[|history| - 1];
      assert last in history;
      UpToAll(init, sequence);
      assert history == init + [last];
    }
  }

  lemma {:induction false} SavedAppend(fills: seq<FillRow>, f: FillRow, requestId: string)
    ensures SavedFill(fills + [f], requestId) ==
      if SavedFill(fills, requestId).Some? then SavedFill(fills, requestId)
      else if f.request.requestId == requestId then Some(f) else None
  {
    if fills != [] {
      assert (fills + [f])[1..] == fills[1..] + [f];
      SavedAppend(fills[1..], f, requestId);
    }
  }

  lemma OwnersStay(fills: seq<FillRow>, f: FillRow)
    requires FillsOwned(fills) && SavedFill(fills, f.request.requestId).None?
    requires f.row.fillId == f.request.requestId || Owned(fills, f)
    ensures FillsOwned(fills + [f])
  {
    forall g | g in fills + [f] ensures Owned(fills + [f], g) {
      SavedAppend(fills, f, g.row.fillId);
      if g in fills { assert Owned(fills, g); }
    }
  }

  lemma FillAppended(fills: seq<FillRow>, f: FillRow)
    requires FillsOk(fills) && f.row.sequence == |fills| + 1 && f.row.fact.quantity > 0.0 && f.row.revision >= 1
    requires SavedFill(fills, f.request.requestId).None?
    requires f.row.fillId == f.request.requestId || Owned(fills, f)
    requires forall g :: g in fills && g.row.fillId == f.row.fillId ==> g.row.revision < f.row.revision
    ensures FillsOk(fills + [f])
  {
    hide SavedFill, Owned;
    OwnersStay(fills, f);
    RequestsStay(fills, f);
    RevisionsStay(fills, f);
  }

  lemma RequestsStay(fills: seq<FillRow>, f: FillRow)
    requires RequestsDiffer(fills) && SavedFill(fills, f.request.requestId).None?
    ensures RequestsDiffer(fills + [f])
  {
  }

  lemma RevisionsStay(fills: seq<FillRow>, f: FillRow)
    requires RevisionsGrow(fills) && forall g :: g in fills && g.row.fillId == f.row.fillId ==> g.row.revision < f.row.revision
    ensures RevisionsGrow(fills + [f])
  {
  }

  /** The target of a request is a fill of its own, or the newest revision's successor. */
  lemma TargetIsFree(t: Tables, req: FillRequest, history: seq<Revision>)
    requires FillsOk(t.fills) && Target(req, history).Ok? && SavedFill(t.fills, req.requestId).None?
    requires req.command.Revise? ==> history == History(t.fills, req.positionId)
    ensures var target := Target(req, history).value; IsFree(t.fills, req, target.0, target.1)
  {
    if req.command.Revise? {
      var previous := FindFill(SortFills(Latest(history)), req.command.fillId).value;
      RevisionIsFree(t.fills, req, previous);
    } else {
      forall g | g in t.fills ensures g.row.fillId != req.requestId { assert Owned(t.fills, g); }
    }
  }

  /** Fill and revision are in no row yet, and the fill is new or of the same position. */
  predicate IsFree(fills: seq<FillRow>, req: FillRequest, fillId: string, revision: int) {
    && revision >= 1
    && (forall g :: g in fills && g.row.fillId == fillId ==> g.row.revision < revision)
    && (fillId == req.requestId
        || (SavedFill(fills, fillId).Some? && SavedFill(fills, fillId).value.request.positionId == req.positionId))
  }

  lemma RevisionIsFree(fills: seq<FillRow>, req: FillRequest, previous: Revision)
    requires FillsOk(fills) && FindFill(SortFills(Latest(History(fills, req.positionId))), previous.fillId) == Some(previous)
    ensures IsFree(fills, req, previous.fillId, previous.revision + 1)
  {
    PreviousIsNewest(fills, req.positionId, previous);
    var f :| f in fills && f.row == previous && f.request.positionId == req.positionId;
    assert Owned(fills, f);
  }

  lemma ManagementsSurvive(t: Tables, f: FillRow)
    requires ManagementsOk(t) && f.row.sequence == |t.fills| + 1
    ensures forall m :: m in t.managements ==> MapsItsBuys(t.fills + [f], m)
  {
    forall m | m in t.managements ensures MapsItsBuys(t.fills + [f], m) {
      HistoryAppend(t.fills, f, m.request.positionId);
      UpToAppend(History(t.fills, m.request.positionId), f.row, m.fillSequence);
    }
  }

  lemma PlaceKeeps(t: Tables, req: FillRequest)
    requires PositionsOk(t) && Place(t, req).Ok?
    ensures Placed(t, Place(t, req).value, req) && (req.command.Create? ==> History(t.fills, req.positionId) == [])
  {
    if req.command.Create? {
      forall f | f in t.fills ensures f.request.positionId != req.positionId { }
      NoHistory(t.fills, req.positionId);
      var positions := Place(t, req).value;
      assert positions[|t.positions|].id == req.positionId;
    }
  }

  lemma {:induction false} NoHistory(fills: seq<FillRow>, positionId: string)
    requires forall f :: f in fills ==> f.request.positionId != positionId
    ensures History(fills, positionId) == []
  {
    if fills != [] { NoHistory(fills[..|fills| - 1], positionId); }
  }

  lemma StillPlaced(before: seq<Position>, after: seq<Position>, id: string)
    requires (forall p :: p in before ==> p in after) && Placeable(before, id)
    ensures Placeable(after, id)
  {
    assert FindPosition(before, id).value in after;
  }

  /** The positions after placing a request: those there were, and its own. */
  predicate Placed(t: Tables, positions: seq<Position>, req: FillRequest) {
    && (forall i, j :: 0 <= i < j < |positions| ==> positions[i].id != positions[j].id)
    && FindPosition(positions, req.positionId).Some?
    && (forall p :: p in positions ==> p in t.positions || p.id == req.positionId)
    && (forall p :: p in t.positions ==> p in positions)
  }

  lemma PositionsStay(t: Tables, positions: seq<Position>, req: FillRequest, f: FillRow)
    requires PositionsOk(t) && Placed(t, positions, req) && f.request == req
    ensures PositionsOk(t.(positions := positions, fills := t.fills + [f]))
  {
    forall g | g in t.fills + [f] ensures Placeable(positions, g.request.positionId) {
      if g in t.fills { StillPlaced(t.positions, positions, g.request.positionId); }
    }
    forall s | s in t.states ensures Placeable(positions, s.request.positionId) { StillPlaced(t.positions, positions, s.request.positionId); }
    forall m | m in t.managements ensures Placeable(positions, m.request.positionId) { StillPlaced(t.positions, positions, m.request.positionId); }
  }

  lemma ReadsOn(t: Tables, positions: seq<Position>, req: FillRequest, f: FillRow)
    requires AllProject(t.positions, t.fills) && Placed(t, positions, req) && f.request == req
    requires Project(History(t.fills + [f], req.positionId)).Ok?
    ensures AllProject(positions, t.fills + [f])
  {
    forall p | p in positions ensures Project(History(t.fills + [f], p.id)).Ok? {
      HistoryAppend(t.fills, f, p.id);
    }
  }

  lemma CommitKeeps(t: Tables, positions: seq<Position>, req: FillRequest, fillId: string, revision: int)
    requires Inv(t) && req.fact.quantity > 0.0 && Placed(t, positions, req)
    requires SavedFill(t.fills, req.requestId).None? && IsFree(t.fills, req, fillId, revision)
    ensures var r := Commit(t, positions, History(t.fills, req.positionId), req, fillId, revision); r.Ok? ==> Inv(r.value)
  {
    PredictionIsExact(t.fills, req, fillId, revision);
    if Commit(t, positions, History(t.fills, req.positionId), req, fillId, revision).Ok? {
      RowKeeps(t, positions, req, Stored(t.fills, req, fillId, revision));
    }
  }

  lemma RowKeeps(t: Tables, positions: seq<Position>, req: FillRequest, f: FillRow)
    requires Inv(t) && Placed(t, positions, req) && f.request == req && f.row.fact.quantity > 0.0 && f.row.sequence == |t.fills| + 1
    requires SavedFill(t.fills, req.requestId).None? && IsFree(t.fills, req, f.row.fillId, f.row.revision)
    requires Project(History(t.fills + [f], req.positionId)).Ok?
    ensures Inv(t.(positions := positions, fills := t.fills + [f]))
  {
    FillAppended(t.fills, f);
    ManagementsSurvive(t, f);
    PositionsStay(t, positions, req, f);
    ReadsOn(t, positions, req, f);
  }

  /** Saving a fill keeps the ledger whole. */
  lemma SaveKeeps(t: Tables, req: FillRequest, now: int)
    requires Inv(t)
    ensures var r := Save(t, req, now); r.Ok? ==> Inv(r.value.0)
  {
    if Save(t, req, now).Ok? && SavedFill(t.fills, req.requestId).None? {
      PlaceKeeps(t, req);
      var history := if req.command.Create? then [] else History(t.fills, req.positionId);
      TargetIsFree(t, req, history);
      var target := Target(req, history).value;
      CommitKeeps(t, Place(t, req).value, req, target.0, target.1);
    }
  }

  lemma StatesPrefix(states: seq<StateRow>, n: nat)
    requires StatesOk(states) && n <= |states|
    ensures StatesOk(states[..n])
  {
    forall i | 0 <= i < n ensures states[..n][i].revision == CountStates(states[..n][..i], states[..n][i].request.positionId) + 1 {
      assert states[..n][..i] == states[..i];
    }
  }

  lemma {:induction false} LastStateCounts(states: seq<StateRow>, positionId: string)
    requires StatesOk(states)
    ensures StateRevision(LastState(states, positionId)) == CountStates(states, positionId)
  {
    if states != [] {
      var n := |states| - 1;
      StatesPrefix(states, n);
      assert states[..n] == states[..|states| - 1];
      LastStateCounts(states[..n], positionId);
    }
  }

  lemma NumberedPrefix(managements: seq<ManagementRow>, n: nat)
    requires ManagementsNumbered(managements) && n <= |managements|
    ensures ManagementsNumbered(managements[..n])
  {
    forall i | 0 <= i < n
      ensures managements[..n][i].revision == CountManagements(managements[..n][..i], managements[..n][i].request.positionId) + 1
    {
      assert managements[..n][..i] == managements[..i];
    }
  }

  lemma {:induction false} LastManagementCounts(managements: seq<ManagementRow>, positionId: string)
    requires ManagementsNumbered(managements)
    ensures ManagementRevision(LastManagement(managements, positionId)) == CountManagements(managements, positionId)
  {
    if managements != [] {
      var n := |managements| - 1;
      NumberedPrefix(managements, n);
      assert managements[..n] == managements[..|managements| - 1];
      LastManagementCounts(managements[..n], positionId);
    }
  }

  lemma {:induction false} LastManagementIs(managements: seq<ManagementRow>, positionId: string)
    ensures var r := LastManagement(managements, positionId); r.Some? ==> r.value in managements && r.value.request.positionId == positionId
  {
    if managements != [] { LastManagementIs(managements[..|managements| - 1], positionId); }
  }

  lemma StateAppended(states: seq<StateRow>, s: StateRow)
    requires StatesOk(states) && s.revision == CountStates(states, s.request.positionId) + 1 && s.fillSequence > 0
    requires forall x :: x in states ==> x.request.requestId != s.request.requestId
    ensures StatesOk(states + [s])
  {
    var all := states + [s];
    forall i | 0 <= i < |all| ensures all[i].revision == CountStates(all[..i], all[i].request.positionId) + 1 {
      assert all[..i] == if i < |states| then states[..i] else states;
    }
  }

  lemma ManagementAppended(managements: seq<ManagementRow>, m: ManagementRow)
    requires ManagementsNumbered(managements) && m.revision == CountManagements(managements, m.request.positionId) + 1
    requires forall x :: x in managements ==> x.request.requestId != m.request.requestId
    ensures ManagementsNumbered(managements + [m])
  {
    var all := managements + [m];
    forall i | 0 <= i < |all| ensures all[i].revision == CountManagements(all[..i], all[i].request.positionId) + 1 {
      assert all[..i] == if i < |managements| then managements[..i] else managements;
    }
  }

  /** An open position has fills, the last of them numbered by the table. */
  lemma OpenHasFills(fills: seq<FillRow>, positionId: string)
    requires Numbered(fills) && Project(History(fills, positionId)).Ok? && IsOpen(Project(History(fills, positionId)).value)
    ensures 1 <= MaxSequence(History(fills, positionId)) <= |fills|
  {
    HistoryAscends(fills, positionId);
    MaxSequenceIs(History(fills, positionId), |fills|);
  }

  lemma NewStateIs(t: Tables, req: StateRequest)
    requires Numbered(t.fills) && NewState(t, req).Ok?
    ensures var u := NewState(t, req).value;
      && |u.states| == |t.states| + 1
      && var s := u.states[|t.states|];
         && u == t.(states := t.states + [s]) && s.request == req && s.fillSequence > 0 && Placeable(t.positions, req.positionId)
         && s.revision == StateRevision(LastState(t.states, req.positionId)) + 1
  {
    hide Project, MaxSequence, LastState, FillsRead, StatesRead, ManagementsRead, Numbered;
    assert FindPosition(t.positions, req.positionId).value in t.positions;
    OpenHasFills(t.fills, req.positionId);
  }

  lemma StateRowAppended(t: Tables, s: StateRow)
    requires Inv(t) && s.revision == CountStates(t.states, s.request.positionId) + 1 && s.fillSequence > 0
    requires SavedState(t.states, s.request.requestId).None? && Placeable(t.positions, s.request.positionId)
    ensures Inv(t.(states := t.states + [s]))
  {
    hide FillsOk, ManagementsNumbered, MapsItsBuys, AllProject, Placeable;
    StateAppended(t.states, s);
  }

  lemma SaveStateKeeps(t: Tables, req: StateRequest)
    requires Inv(t)
    ensures var r := SaveState(t, req); r.Ok? ==> Inv(r.value.0)
  {
    if SavedState(t.states, req.requestId).None? && NewState(t, req).Ok? {
      assert Numbered(t.fills) && StatesOk(t.states);
      hide NewState, Inv;
      NewStateIs(t, req);
      LastStateCounts(t.states, req.positionId);
      StateRowAppended(t, NewState(t, req).value.states[|t.states|]);
    }
  }

  /** The current history is the history up to its own last sequence. */
  lemma CurrentHistory(fills: seq<FillRow>, positionId: string)
    requires Numbered(fills)
    ensures var h := History(fills, positionId); UpToSequence(h, MaxSequence(h)) == h && MaxSequence(h) <= |fills|
  {
    var h := History(fills, positionId);
    HistoryAscends(fills, positionId);
    MaxSequenceIs(h, |fills|);
    forall r | r in h ensures r.sequence <= MaxSequence(h) { }
    UpToAll(h, MaxSequence(h));
  }

  /** A new management record maps the live buys of the fills it was confirmed against. */
  lemma NewRecordMaps(t: Tables, req: ManagementRequest)
    requires Numbered(t.fills) && StatesOk(t.states) && NewManagement(t, req).Ok?
    ensures var u := NewManagement(t, req).value;
      && |u.managements| == |t.managements| + 1
      && var m := u.managements[|t.managements|];
         && u == t.(managements := t.managements + [m]) && m.request == req && MapsItsBuys(t.fills, m)
         && m.revision == ManagementRevision(LastManagement(t.managements, req.positionId)) + 1 && Placeable(t.positions, req.positionId)
  {
    hide Project, MaxSequence, LastState, LastManagement, FillsRead, StatesRead, ManagementsRead, Numbered, StatesOk, ProjectRuleFills,
         Revisions, Ids, LiveBuys, UpToSequence;
    assert FindPosition(t.positions, req.positionId).value in t.positions;
    OpenHasFills(t.fills, req.positionId);
    CurrentHistory(t.fills, req.positionId);
    LastStateCounts(t.states, req.positionId);
  }

  lemma RecordAppended(t: Tables, m: ManagementRow)
    requires Inv(t) && MapsItsBuys(t.fills, m) && m.revision == CountManagements(t.managements, m.request.positionId) + 1
    requires SavedManagement(t.managements, m.request.requestId).None? && Placeable(t.positions, m.request.positionId)
    ensures Inv(t.(managements := t.managements + [m]))
  {
    hide MapsItsBuys, FillsOk, StatesOk, AllProject, Placeable;
    ManagementAppended(t.managements, m);
  }

  lemma NewManagementKeeps(t: Tables, req: ManagementRequest)
    requires Inv(t) && SavedManagement(t.managements, req.requestId).None? && NewManagement(t, req).Ok?
    ensures Inv(NewManagement(t, req).value)
  {
    assert Numbered(t.fills) && StatesOk(t.states) && ManagementsNumbered(t.managements);
    hide NewManagement, Inv, MapsItsBuys;
    NewRecordMaps(t, req);
    LastManagementCounts(t.managements, req.positionId);
    RecordAppended(t, NewManagement(t, req).value.managements[|t.managements|]);
  }

  lemma SaveManagementKeeps(t: Tables, req: ManagementRequest)
    requires Inv(t)
    ensures var r := SaveManagement(t, req); r.Ok? ==> Inv(r.value.0)
  {
    hide NewManagement, Inv;
    if SavedManagement(t.managements, req.requestId).None? && NewManagement(t, req).Ok? { NewManagementKeeps(t, req); }
  }

  // ---- runs ----

  datatype Call =
    | CallSave(fill: FillRequest, now: int)
    | CallState(state: StateRequest)
    | CallManagement(management: ManagementRequest)

  /** A call that fails leaves the tables as they were. */
  function After(t: Tables, c: Call): Tables {
    match c
    case CallSave(req, now) => (match Save(t, req, now) case Ok(r) => r.0 case Err(_) => t)
    case CallState(req) => (match SaveState(t, req) case Ok(r) => r.0 case Err(_) => t)
    case CallManagement(req) => (match SaveManagement(t, req) case Ok(r) => r.0 case Err(_) => t)
  }

  function Run(calls: seq<Call>): Tables {
    if calls == [] then EMPTY_TABLES else After(Run(calls[..|calls| - 1]), calls[|calls| - 1])
  }

  lemma {:induction false} RunKeeps(calls: seq<Call>)
    ensures Inv(Run(calls))
  {
    if calls != [] {
      var t := Run(calls[..|calls| - 1]);
      RunKeeps(calls[..|calls| - 1]);
      match calls[|calls| - 1]
      case CallSave(req, now) => SaveKeeps(t, req, now);
      case CallState(req) => SaveStateKeeps(t, req);
      case CallManagement(req) => SaveManagementKeeps(t, req);
    }
  }

  lemma {:induction false} RevisionsMap(rows: seq<Revision>)
    ensures Revisions(rows).Keys == Ids(rows) && |Ids(rows)| <= |rows|
    ensures forall y :: y in Revisions(rows) ==> exists r :: r in rows && r.revision == Revisions(rows)[y]
  {
    if rows != [] {
      var init, last := rows[..|rows| - 1], rows[|rows| - 1];
      RevisionsMap(init);
      assert rows == init + [last];
      assert Ids(rows) == Ids(init) + {last.fillId};
    }
  }

  /** Live buys are revisions of the history they come from. */
  lemma BuysAreRevisions(history: seq<Revision>, r: Revision)
    requires Project(history).Ok? && r in LiveBuys(Project(history).value.fills)
    ensures r in history
  {
    LiveBuysAreFills(Project(history).value.fills, r);
    SortConserves(Latest(history));
    var e :| e in Project(history).value.fills && e.row == r;
    assert e in multiset(SortFills(Latest(history)));
    assert e in Latest(history);
    LatestAreRevisions(history);
  }

  lemma {:induction false} LiveBuysAreFills(fills: seq<Entry>, r: Revision)
    requires r in LiveBuys(fills)
    ensures exists e :: e in fills && e.row == r
  {
    if fills != [] {
      var init, last := fills[..|fills| - 1], fills[|fills| - 1];
      assert fills == init + [last];
      if r in LiveBuys(init) { LiveBuysAreFills(init, r); }
    }
  }

  lemma {:induction false} UpToMembers(history: seq<Revision>, sequence: int, r: Revision)
    requires r in UpToSequence(history, sequence)
    ensures r in history
  {
    if history != [] {
      var init, last := history[..|history| - 1], history[|history| - 1];
      assert history == init + [last];
      if r in UpToSequence(init, sequence) { UpToMembers(init, sequence, r); }
    }
  }

  lemma RecordReads(t: Tables, i: nat)
    requires Inv(t) && i < |t.managements|
    ensures ManagementReads(t.positions, t.managements, i)
  {
    var m := t.managements[i];
    assert m in t.managements && MapsItsBuys(t.fills, m);
    var history := UpToSequence(History(t.fills, m.request.positionId), m.fillSequence);
    var buys := LiveBuys(Project(history).value.fills);
    RevisionsMap(buys);
    assert buys[0].fillId in Ids(buys);
    forall y | y in m.revisions ensures m.revisions[y] >= 1 {
      var r :| r in buys && r.revision == m.revisions[y];
      BuysAreRevisions(history, r);
      UpToMembers(History(t.fills, m.request.positionId), m.fillSequence, r);
      HistoryMembers(t.fills, m.request.positionId, r);
    }
  }

  /** Whatever was saved, reading the ledger succeeds: every row and record passes its checks, every position
      replays, and its quantity is the live buys less the live sells and never negative. */
  lemma ReachableLedgerReads(calls: seq<Call>)
    ensures var t := Run(calls);
      && Readable(t)
      && forall p :: p in t.positions ==>
           var history := History(t.fills, p.id);
           Project(history).Ok? && Project(history).value.tally.quantity == Net(Latest(history)) >= 0.0
  {
    RunKeeps(calls);
    var t := Run(calls);
    forall i | 0 <= i < |t.managements| ensures ManagementReads(t.positions, t.managements, i) { RecordReads(t, i); }
    forall p | p in t.positions
      ensures var history := History(t.fills, p.id);
        Project(history).Ok? && Project(history).value.tally.quantity == Net(Latest(history)) >= 0.0
    {
      QuantityConserved(t, p);
    }
  }

  lemma QuantityConserved(t: Tables, p: Position)
    requires Inv(t) && p in t.positions
    ensures var history := History(t.fills, p.id);
      Project(history).Ok? && Project(history).value.tally.quantity == Net(Latest(history)) >= 0.0
  {
    var history := History(t.fills, p.id);
    forall r | r in history ensures r.fact.quantity > 0.0 { HistoryMembers(t.fills, p.id, r); }
    ProjectionConserves(history);
  }

  /** A confirmed management record maps exactly the current live buys, at their current revisions. */
  lemma ConfirmedMappingIsCurrent(calls: seq<Call>, positionId: string)
    requires var t := Run(calls); Project(History(t.fills, positionId)).Ok?
    requires var t := Run(calls);
      ManagementStatus(Project(History(t.fills, positionId)).value, History(t.fills, positionId),
                       LastState(t.states, positionId), LastManagement(t.managements, positionId)).Confirmed?
    ensures var t := Run(calls);
      var m, buys := LastManagement(t.managements, positionId).value, LiveBuys(Project(History(t.fills, positionId)).value.fills);
      m.revisions == Revisions(buys) && m.request.stages.Keys == Ids(buys)
  {
    RunKeeps(calls);
    var t := Run(calls);
    LastManagementIs(t.managements, positionId);
    CurrentHistory(t.fills, positionId);
    assert MapsItsBuys(t.fills, LastManagement(t.managements, positionId).value);
  }

  // ---- repeated requests ----

  lemma {:induction false} SavedIsFound(fills: seq<FillRow>, f: FillRow)
    requires RequestsDiffer(fills) && f in fills
    ensures SavedFill(fills, f.request.requestId) == Some(f)
  {
    if fills[0] != f {
      var i :| 0 <= i < |fills| && fills[i] == f;
      assert fills[0].request.requestId != fills[i].request.requestId;
      assert f in fills[1..];
      SavedIsFound(fills[1..], f);
    }
  }

  lemma {:induction false} SavedStateIsFound(states: seq<StateRow>, s: StateRow)
    requires s in states && forall i, j :: 0 <= i < j < |states| ==> states[i].request.requestId != states[j].request.requestId
    ensures SavedState(states, s.request.requestId) == Some(s)
  {
    if states[0] != s {
      var i :| 0 <= i < |states| && states[i] == s;
      assert states[0].request.requestId != states[i].request.requestId;
      assert s in states[1..];
      SavedStateIsFound(states[1..], s);
    }
  }

  lemma {:induction false} SavedManagementIsFound(managements: seq<ManagementRow>, m: ManagementRow)
    requires m in managements
    requires forall i, j :: 0 <= i < j < |managements| ==> managements[i].request.requestId != managements[j].request.requestId
    ensures SavedManagement(managements, m.request.requestId) == Some(m)
  {
    if managements[0] != m {
      var i :| 0 <= i < |managements| && managements[i] == m;
      assert managements[0].request.requestId != managements[i].request.requestId;
      assert m in managements[1..];
      SavedManagementIsFound(managements[1..], m);
    }
  }

  /** Submitting a saved request of any kind again, at any time and after anything else, changes nothing and
      answers the same; submitting other content under its identity is refused. */
  lemma RepeatChangesNothing(calls: seq<Call>, req: FillRequest, now: int, state: StateRequest, management: ManagementRequest)
    ensures var t := Run(calls);
      && (forall f :: f in t.fills && f.request.requestId == req.requestId ==>
            Save(t, req, now) == if req == f.request then Ok((t, req.positionId)) else Err(RequestChanged))
      && (forall s :: s in t.states && s.request.requestId == state.requestId && state.confirmed ==>
            SaveState(t, state) == if state == s.request then Ok((t, state.positionId)) else Err(RequestChanged))
      && (forall m :: m in t.managements && m.request.requestId == management.requestId && management.confirmed ==>
            SaveManagement(t, management) == if management == m.request then Ok((t, management.positionId)) else Err(RequestChanged))
  {
    RunKeeps(calls);
    var t := Run(calls);
    hide NewFill, NewState, NewManagement, Run;
    forall f | f in t.fills && f.request.requestId == req.requestId
      ensures Save(t, req, now) == if req == f.request then Ok((t, req.positionId)) else Err(RequestChanged)
    {
      SavedIsFound(t.fills, f);
    }
    forall s | s in t.states && s.request.requestId == state.requestId && state.confirmed
      ensures SaveState(t, state) == if state == s.request then Ok((t, state.positionId)) else Err(RequestChanged)
    {
      SavedStateIsFound(t.states, s);
    }
    forall m | m in t.managements && m.request.requestId == management.requestId && management.confirmed
      ensures SaveManagement(t, management) == if management == m.request then Ok((t, management.positionId)) else Err(RequestChanged)
    {
      SavedManagementIsFound(t.managements, m);
    }
  }

  /** A saved request is in the table, and rows are only ever added. */
  lemma SavedStays(t: Tables, req: FillRequest, now: int)
    requires Save(t, req, now).Ok?
    ensures var u := Save(t, req, now).value.0; t.fills <= u.fills && exists f :: f in u.fills && f.request == req
  {
    var u := Save(t, req, now).value.0;
    var saved := SavedFill(t.fills, req.requestId);
    if saved.Some? {
      assert saved.value in u.fills;
    } else {
      assert u.fills[|t.fills|].request == req;
    }
  }
}
