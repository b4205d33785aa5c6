/** What a save answers on every reachable ledger, said by its rows: which fills are accepted, and that a
  confirmation is accepted exactly when it was made against the newest revisions. */
module LedgerAnswers {
  import opened Basics
  import opened FillReplay
  import opened FillOrder
  import opened PositionManagement
  import opened StageMappings
  import opened Ledger
  import opened LedgerRuns

  // ---- saving a fill ----

  /** In the order of execution no sell exceeds the units held, and no buy follows selling out. */
  ghost predicate IsAcceptable(history: seq<Revision>) {
    exists fills :: IsTimeline(fills, history) && IsPlayable(fills)
  }

  predicate HasPosition(t: Tables, positionId: string) {
    exists p :: p in t.positions && p.id == positionId
  }

  predicate HasUnit(t: Tables, positionId: string, unit: string) {
    exists p :: p in t.positions && p.id == positionId && p.unit == unit
  }

  /** A new position is opened by a buy; only a correction may void a fill, and it says why. */
  predicate IsSound(req: FillRequest, now: int) {
    && req.fact.quantity > 0.0 && req.fact.price > 0.0 && 0 < req.fact.timeMs <= now && req.confirmed
    && match req.command
       case Create => req.fact.action.Buy? && !req.fact.voided
       case Append => !req.fact.voided
       case Revise(_, _) => req.fact.note != ""
  }

  /** The fill is there, and this is its last revision. */
  ghost predicate IsAtRevision(history: seq<Revision>, fillId: string, revision: int) {
    exists e :: IsFill(history, e) && e.row.fillId == fillId && e.row.revision == revision
  }

  ghost predicate IsPlaced(t: Tables, req: FillRequest) {
    match req.command
    case Create => !HasPosition(t, req.positionId)
    case Append => HasUnit(t, req.positionId, req.unit)
    case Revise(fillId, expected) => HasUnit(t, req.positionId, req.unit) && IsAtRevision(History(t.fills, req.positionId), fillId, expected)
  }

  /** The row a request adds: the next revision of the fill it corrects, or the first of one named after it. */
  function NewRow(t: Tables, req: FillRequest): FillRow {
    var number := |t.fills| + 1;
    FillRow(req, match req.command
                 case Create => Revision(req.requestId, 1, number, req.fact)
                 case Append => Revision(req.requestId, 1, number, req.fact)
                 case Revise(fillId, expected) => Revision(fillId, expected + 1, number, req.fact))
  }

  predicate IsNewRequest(fills: seq<FillRow>, requestId: string) {
    forall f :: f in fills ==> f.request.requestId != requestId
  }

  lemma AcceptableMeans(fills: seq<FillRow>, positionId: string)
    requires Numbered(fills) && forall f :: f in fills ==> f.row.fact.quantity > 0.0
    ensures IsAcceptable(History(fills, positionId)) <==> Project(History(fills, positionId)).Ok?
  {
    var history := History(fills, positionId);
    HistoryAscends(fills, positionId);
    forall r | r in history ensures r.fact.quantity > 0.0 { HistoryMembers(fills, positionId, r); }
    hide IsPlayable, Project, Numbered;
    TimelineExists(history);
    ProjectMeans(history, SortFills(Latest(history)));
    forall fills | IsTimeline(fills, history) ensures IsPlayable(fills) <==> Project(history).Ok? { ProjectMeans(history, fills); }
  }

  lemma PlaceMeans(t: Tables, req: FillRequest)
    requires PositionsOk(t)
    ensures Place(t, req).Ok? <==> if req.command.Create? then !HasPosition(t, req.positionId) else HasUnit(t, req.positionId, req.unit)
    ensures Place(t, req).Ok? ==>
      Place(t, req).value == if req.command.Create? then t.positions + [Position(req.positionId, req.symbol, req.unit)] else t.positions
    ensures Place(t, req).Err? ==> !Place(t, req).error.Rejected?
  {
    forall p, q | p in t.positions && q in t.positions && p.id == q.id ensures p == q {
      var i, j :| 0 <= i < |t.positions| && 0 <= j < |t.positions| && t.positions[i] == p && t.positions[j] == q;
    }
  }

  lemma RevisionMeans(history: seq<Revision>, fillId: string)
    requires Ascending(history)
    ensures var previous := FindFill(SortFills(Latest(history)), fillId);
      forall revision :: IsAtRevision(history, fillId, revision) <==> previous.Some? && previous.value.revision == revision
  {
    var fills := SortFills(Latest(history));
    TimelineExists(history);
    hide IsChronological, IsFill, Latest, SortFills, Ascending;
    forall d, e | IsFill(history, d) && IsFill(history, e) && d.row.fillId == e.row.fillId ensures d.row == e.row { OneLast(history, d, e); }
  }

  lemma TargetMeans(t: Tables, req: FillRequest, history: seq<Revision>)
    requires Ascending(history)
    ensures var r := Target(req, history);
      && (r.Ok? <==> (req.command.Revise? ==> IsAtRevision(history, req.command.fillId, req.command.expectedRevision)))
      && (r.Ok? ==> r.value == (NewRow(t, req).row.fillId, NewRow(t, req).row.revision))
      && (r.Err? ==> !r.error.Rejected?)
  {
    hide IsAtRevision, SortFills, Latest;
    if req.command.Revise? { RevisionMeans(history, req.command.fillId); }
  }

  lemma OneLast(history: seq<Revision>, d: Entry, e: Entry)
    requires Ascending(history) && IsFill(history, d) && IsFill(history, e) && d.row.fillId == e.row.fillId
    ensures d.row == e.row
  {
    var i, j :| 0 <= i < |history| && 0 <= j < |history| && history[i] == d.row && history[j] == e.row;
    assert d.row.sequence == e.row.sequence;
  }

  lemma NoPositionNoFills(t: Tables, positionId: string)
    requires PositionsOk(t) && !HasPosition(t, positionId)
    ensures History(t.fills, positionId) == []
  {
    var history := History(t.fills, positionId);
    assert history != [] ==> history[0] in history;
    forall r ensures r !in history {
      HistoryMembers(t.fills, positionId, r);
      assert forall f :: f in t.fills ==> Placeable(t.positions, f.request.positionId);
    }
  }

  lemma InputMeans(req: FillRequest, now: int)
    ensures InputError(req, now).None? <==> IsSound(req, now)
    ensures InputError(req, now).Some? ==> !InputError(req, now).value.Rejected?
  {
  }

  /** A fill is accepted exactly when its request is sound, its position and revision are the ones it expects,
      and with it the position's fills, taken in the order of execution, never sell more than was held and
      never buy after selling out; it is refused as unplayable for this last reason only. */
  ghost predicate SaveAnswers(t: Tables, req: FillRequest, now: int, r: Checked<(Tables, string)>) {
    var row := NewRow(t, req);
    var playable := IsAcceptable(History(t.fills + [row], req.positionId));
    && (r.Ok? <==> IsSound(req, now) && IsPlaced(t, req) && playable)
    && (r.Err? ==> (r.error.Rejected? <==> IsSound(req, now) && IsPlaced(t, req)))
    && (r.Ok? ==>
          && r.value.1 == req.positionId
          && r.value.0 == Tables(if req.command.Create? then t.positions + [Position(req.positionId, req.symbol, req.unit)] else t.positions,
                                 t.fills + [row], t.states, t.managements))
  }

  lemma CommitMeans(t: Tables, positions: seq<Position>, req: FillRequest)
    requires FillsOk(t.fills) && PositionsOk(t) && IsPlaced(t, req)
    ensures var history := if req.command.Create? then [] else History(t.fills, req.positionId);
      var row := NewRow(t, req);
      var r := Commit(t, positions, history, req, row.row.fillId, row.row.revision);
      && (r.Ok? <==> Project(History(t.fills + [row], req.positionId)).Ok?)
      && (r.Err? ==> r.error.Rejected?)
      && (r.Ok? ==> r.value == t.(positions := positions, fills := t.fills + [row]))
  {
    if req.command.Create? { NoPositionNoFills(t, req.positionId); }
    assert NextSequence(t.fills) == |t.fills| + 1;
    var row := NewRow(t, req);
    assert Stored(t.fills, req, row.row.fillId, row.row.revision) == row;
    hide Project, IsPlaced, NextSequence, History, PositionsOk;
    PredictionIsExact(t.fills, req, row.row.fillId, row.row.revision);
  }

  lemma PlacedMeans(t: Tables, req: FillRequest)
    requires Numbered(t.fills) && PositionsOk(t)
    ensures var history := if req.command.Create? then [] else History(t.fills, req.positionId);
      && (IsPlaced(t, req) <==> Place(t, req).Ok? && Target(req, history).Ok?)
      && (IsPlaced(t, req) ==> Target(req, history).value == (NewRow(t, req).row.fillId, NewRow(t, req).row.revision))
      && (Target(req, history).Err? ==> !Target(req, history).error.Rejected?)
  {
    var history := if req.command.Create? then [] else History(t.fills, req.positionId);
    HistoryAscends(t.fills, req.positionId);
    PlaceMeans(t, req);
    TargetMeans(t, req, history);
    hide PositionsOk, Numbered, Place, Target, HasPosition, HasUnit, IsAtRevision, NewRow, History;
  }

  lemma NewFillMeans(t: Tables, req: FillRequest)
    requires FillsOk(t.fills) && PositionsOk(t) && Readable(t)
    ensures var row, r := NewRow(t, req), NewFill(t, req);
      && (r.Ok? <==> IsPlaced(t, req) && Project(History(t.fills + [row], req.positionId)).Ok?)
      && (r.Err? ==> (r.error.Rejected? <==> IsPlaced(t, req)))
      && (r.Ok? ==> r.value == Tables(if req.command.Create? then t.positions + [Position(req.positionId, req.symbol, req.unit)] else t.positions,
                                      t.fills + [row], t.states, t.managements))
  {
    PlaceMeans(t, req);
    PlacedMeans(t, req);
    if IsPlaced(t, req) { CommitMeans(t, Place(t, req).value, req); }
    hide FillsOk, PositionsOk, Readable, Place, IsPlaced, HasPosition, HasUnit, Target, Commit, NewRow, Project, History;
  }

  lemma NewRowFits(t: Tables, req: FillRequest)
    requires FillsOk(t.fills) && req.fact.quantity > 0.0
    ensures var fills := t.fills + [NewRow(t, req)];
      IsAcceptable(History(fills, req.positionId)) <==> Project(History(fills, req.positionId)).Ok?
  {
    hide IsAcceptable, History, Project;
    AcceptableMeans(t.fills + [NewRow(t, req)], req.positionId);
  }

  /** What saving a fill answers on any ledger that saves can reach. */
  lemma SaveMeans(calls: seq<Call>, req: FillRequest, now: int)
    requires IsNewRequest(Run(calls).fills, req.requestId)
    ensures SaveAnswers(Run(calls), req, now, Save(Run(calls), req, now))
  {
    var t := Run(calls);
    RunKeeps(calls);
    ReachableLedgerReads(calls);
    assert SavedFill(t.fills, req.requestId).None?;
    hide Run, FillsOk, PositionsOk, IsPlaced, NewFill, NewRow, InputError, Project, History, Readable, IsAcceptable, AllProject, StatesOk, ManagementsOk;
    InputMeans(req, now);
    NewFillMeans(t, req);
    if IsSound(req, now) { NewRowFits(t, req); }
  }

  // ---- confirming a state or the management inputs ----

  /** The position holds units: its timeline sells less than it buys. */
  ghost predicate IsHeld(t: Tables, positionId: string) {
    HasPosition(t, positionId) && exists fills :: IsTimeline(fills, History(t.fills, positionId)) && Net(fills) != 0.0
  }

  /** The number of the last row of the position. */
  predicate IsNewestRow(t: Tables, positionId: string, sequence: int) {
    && (exists f :: f in t.fills && f.request.positionId == positionId && f.row.sequence == sequence)
    && (forall f :: f in t.fills && f.request.positionId == positionId ==> f.row.sequence <= sequence)
  }

  /** A state is confirmed exactly for units held, against the last fill and the last state of the position. */
  ghost predicate StateAnswers(t: Tables, req: StateRequest, r: Checked<(Tables, string)>) {
    if !req.confirmed then r == Err(NotConfirmed)
    else if !IsHeld(t, req.positionId) then r == Err(NotOpen)
    else if !IsNewestRow(t, req.positionId, req.expectedFillSequence) || req.expectedStateRevision != CountStates(t.states, req.positionId)
    then r == Err(Stale)
    else r == Ok((t.(states := t.states + [StateRow(req, req.expectedStateRevision + 1, req.expectedFillSequence)]), req.positionId))
  }

  lemma HoldsMeans(history: seq<Revision>)
    requires Ascending(history) && forall r :: r in history ==> r.fact.quantity > 0.0
    ensures Project(history).Ok? ==>
      (IsOpen(Project(history).value) <==> exists fills :: IsTimeline(fills, history) && Net(fills) != 0.0)
  {
    hide IsPlayable, IsChronological, IsFill, Project, Ascending;
    TimelineExists(history);
    ProjectMeans(history, SortFills(Latest(history)));
    forall fills | IsTimeline(fills, history) && Project(history).Ok? ensures Project(history).value.tally.quantity == Net(fills) {
      ProjectMeans(history, fills);
    }
  }

  lemma HeldMeans(t: Tables, positionId: string)
    requires FillsOk(t.fills) && AllProject(t.positions, t.fills)
    ensures IsHeld(t, positionId) <==>
      FindPosition(t.positions, positionId).Some? && Project(History(t.fills, positionId)).Ok? && IsOpen(Project(History(t.fills, positionId)).value)
    ensures FindPosition(t.positions, positionId).Some? ==> Project(History(t.fills, positionId)).Ok?
  {
    var history := History(t.fills, positionId);
    assert FindPosition(t.positions, positionId).Some? ==> FindPosition(t.positions, positionId).value in t.positions;
    HistoryAscends(t.fills, positionId);
    forall r | r in history ensures r.fact.quantity > 0.0 { HistoryMembers(t.fills, positionId, r); }
    hide FillsOk, Project, IsTimeline, History, Ascending;
    HoldsMeans(history);
  }

  lemma NewestMeans(t: Tables, positionId: string, sequence: int)
    requires Numbered(t.fills) && History(t.fills, positionId) != []
    ensures IsNewestRow(t, positionId, sequence) <==> sequence == MaxSequence(History(t.fills, positionId))
  {
    var history := History(t.fills, positionId);
    var last := history[|history| - 1];
    HistoryAscends(t.fills, positionId);
    MaxSequenceIs(history, |t.fills|);
    HistoryMembers(t.fills, positionId, last);
    forall f | f in t.fills && f.request.positionId == positionId ensures f.row in history && f.row.sequence <= last.sequence {
      HistoryMembers(t.fills, positionId, f.row);
    }
  }

  lemma AreNumbered(fills: seq<FillRow>)
    requires FillsOk(fills)
    ensures Numbered(fills)
  {
  }

  lemma HeldHasRows(t: Tables, positionId: string)
    requires IsHeld(t, positionId)
    ensures History(t.fills, positionId) != []
  {
    var fills :| IsTimeline(fills, History(t.fills, positionId)) && Net(fills) != 0.0;
    assert fills[0] in fills;
    assert IsFill(History(t.fills, positionId), fills[0]);
  }

  lemma RunParts(calls: seq<Call>)
    ensures var t := Run(calls);
      FillsOk(t.fills) && AllProject(t.positions, t.fills) && StatesOk(t.states) && ManagementsNumbered(t.managements)
  {
    RunKeeps(calls);
    hide FillsOk, AllProject, StatesOk, ManagementsNumbered, PositionsOk, MapsItsBuys, Run;
  }

  lemma NewStateMeans(t: Tables, req: StateRequest)
    requires FillsOk(t.fills) && AllProject(t.positions, t.fills) && StatesOk(t.states)
    requires Readable(t) && SavedState(t.states, req.requestId).None?
    ensures StateAnswers(t, req, SaveState(t, req))
  {
    hide Inv, FillsOk, IsHeld, IsNewestRow, Project, History, Readable, MaxSequence, LastState, CountStates, StatesOk, Numbered, AllProject, FindPosition;
    HeldMeans(t, req.positionId);
    LastStateCounts(t.states, req.positionId);
    if IsHeld(t, req.positionId) {
      HeldHasRows(t, req.positionId);
      AreNumbered(t.fills);
      NewestMeans(t, req.positionId, req.expectedFillSequence);
    }
  }

  /** What confirming a state answers on any ledger that saves can reach. */
  lemma StateMeans(calls: seq<Call>, req: StateRequest)
    requires forall s :: s in Run(calls).states ==> s.request.requestId != req.requestId
    ensures StateAnswers(Run(calls), req, SaveState(Run(calls), req))
  {
    assert SavedState(Run(calls).states, req.requestId).None?;
    RunParts(calls);
    hide Run, Inv, Readable, StateAnswers, SaveState, SavedState, FillsOk, AllProject, StatesOk;
    ReachableLedgerReads(calls);
    NewStateMeans(Run(calls), req);
  }

  predicate IsLastState(states: seq<StateRow>, positionId: string, i: int) {
    0 <= i < |states| && states[i].request.positionId == positionId && forall j :: i < j < |states| ==> states[j].request.positionId != positionId
  }

  /** The stage of the position's last state, if that was confirmed against its last fill. */
  ghost predicate IsStage(t: Tables, positionId: string, stage: Option<int>) {
    if exists i :: IsLastState(t.states, positionId, i) && IsNewestRow(t, positionId, t.states[i].fillSequence)
    then exists i :: IsLastState(t.states, positionId, i) && stage == t.states[i].request.stage
    else stage.None?
  }

  lemma {:induction false} LastStateIsLast(states: seq<StateRow>, positionId: string)
    ensures var s := LastState(states, positionId);
      if s.Some? then exists i :: IsLastState(states, positionId, i) && states[i] == s.value
      else forall i :: 0 <= i < |states| ==> states[i].request.positionId != positionId
  {
    if states != [] {
      var n := |states| - 1;
      LastStateIsLast(states[..n], positionId);
      var s := LastState(states[..n], positionId);
      if states[n].request.positionId == positionId {
        assert IsLastState(states, positionId, n);
      } else if s.Some? {
        var i :| IsLastState(states[..n], positionId, i) && states[..n][i] == s.value;
        assert IsLastState(states, positionId, i);
      }
    }
  }

  lemma StageMeans(t: Tables, positionId: string, p: Projection)
    requires Numbered(t.fills) && History(t.fills, positionId) != [] && IsOpen(p)
    ensures forall stage :: IsStage(t, positionId, stage) <==>
      stage == ConfirmedStage(p, History(t.fills, positionId), LastState(t.states, positionId))
  {
    var latest := LastState(t.states, positionId);
    LastStateIsLast(t.states, positionId);
    if latest.Some? {
      NewestMeans(t, positionId, latest.value.fillSequence);
      var i :| IsLastState(t.states, positionId, i) && t.states[i] == latest.value;
      forall j | IsLastState(t.states, positionId, j) ensures j == i { }
    }
    hide IsNewestRow, LastState, Numbered, IsOpen, MaxSequence, History;
  }

  /** From one to thirty-two buys are mapped, exactly those not voided; where every stage is known, and the
      position's as well, the stages advance in the order of execution to the position's. */
  ghost predicate IsMapped(t: Tables, req: ManagementRequest) {
    exists fills, stage :: IsTimeline(fills, History(t.fills, req.positionId)) && IsStage(t, req.positionId, stage)
      && IsMapping(fills, req.stages, stage)
  }

  predicate IsMapping(fills: seq<Entry>, stages: map<string, Option<int>>, stage: Option<int>) {
    && 1 <= |BuyIds(fills)| <= 32 && stages.Keys == BuyIds(fills)
    && (stage.Some? && (forall y :: y in stages ==> stages[y].Some?) ==> Advances(fills, stages, stage.value))
  }

  lemma MappingMeans(fills: seq<Entry>, req: ManagementRequest, stage: Option<int>)
    requires DistinctFills(fills)
    ensures var r := MappingCheck(fills, req, stage);
      && (r.Ok? <==> IsMapping(fills, req.stages, stage))
      && (r.Err? ==> r.error.TooManyFills? || r.error.BadMapping?)
  {
    BuysMean(fills);
    BuysCount(fills);
    if LiveBuys(fills) != [] && req.stages.Keys == BuyIds(fills) && AllKnown(req.stages) && stage.Some? {
      ProjectsMeans(fills, req.stages, stage.value);
    }
    hide LiveBuys, Ids, BuyIds, Advances, ProjectRuleFills, Revisions, DistinctFills;
  }

  /** The management inputs are confirmed exactly for units held, against the last fill, state and inputs, and
      with a mapping of all buys that can stand; the confirmation is numbered next. */
  ghost predicate ManagementAnswers(t: Tables, req: ManagementRequest, r: Checked<(Tables, string)>) {
    if !req.confirmed then r == Err(NotConfirmed)
    else if !IsHeld(t, req.positionId) then r == Err(NotOpen)
    else if !IsNewestRow(t, req.positionId, req.expectedFillSequence) || req.expectedStateRevision != CountStates(t.states, req.positionId)
            || req.expectedManagementRevision != CountManagements(t.managements, req.positionId)
    then r == Err(Stale)
    else if !IsMapped(t, req) then r.Err? && (r.error.TooManyFills? || r.error.BadMapping?)
    else
      && r.Ok? && r.value.1 == req.positionId
      && exists m: ManagementRow ::
           && r.value.0 == t.(managements := t.managements + [m])
           && m.request == req && m.revision == req.expectedManagementRevision + 1
           && m.fillSequence == req.expectedFillSequence && m.stateRevision == req.expectedStateRevision
  }

  lemma TimelineIsDistinct(fills: seq<Entry>, history: seq<Revision>)
    requires Ascending(history) && IsTimeline(fills, history)
    ensures DistinctFills(fills)
  {
    forall i, j | 0 <= i < j < |fills| ensures fills[i].row.fillId != fills[j].row.fillId {
      assert IsFill(history, fills[i]) && IsFill(history, fills[j]) && IsEarlier(fills[i], fills[j]);
      if fills[i].row.fillId == fills[j].row.fillId { OneLast(history, fills[i], fills[j]); }
    }
  }

  lemma MappedMeans(t: Tables, req: ManagementRequest)
    requires FillsOk(t.fills) && AllProject(t.positions, t.fills) && IsHeld(t, req.positionId)
    ensures var history := History(t.fills, req.positionId);
      && Project(history).Ok?
      && var p := Project(history).value;
         var r := MappingCheck(p.fills, req, ConfirmedStage(p, history, LastState(t.states, req.positionId)));
         (r.Ok? <==> IsMapped(t, req)) && (r.Err? ==> r.error.TooManyFills? || r.error.BadMapping?)
  {
    var history := History(t.fills, req.positionId);
    HeldMeans(t, req.positionId);
    HeldHasRows(t, req.positionId);
    AreNumbered(t.fills);
    HistoryAscends(t.fills, req.positionId);
    TimelineExists(history);
    var p := Project(history).value;
    TimelineIsDistinct(p.fills, history);
    StageMeans(t, req.positionId, p);
    MappingMeans(p.fills, req, ConfirmedStage(p, history, LastState(t.states, req.positionId)));
    hide FillsOk, AllProject, IsHeld, Numbered, History, Ascending, IsStage, ConfirmedStage, LastState, MappingCheck, IsMapping, DistinctFills,
         IsTimeline, Latest, SortFills, Replay;
    forall fills | IsTimeline(fills, history) ensures fills == p.fills { TimelineIsUnique(fills, p.fills, history); }
  }

  lemma NewManagementMeans(t: Tables, req: ManagementRequest)
    requires FillsOk(t.fills) && AllProject(t.positions, t.fills) && StatesOk(t.states) && ManagementsNumbered(t.managements)
    requires Readable(t) && SavedManagement(t.managements, req.requestId).None?
    ensures ManagementAnswers(t, req, SaveManagement(t, req))
  {
    hide Inv, FillsOk, IsHeld, IsNewestRow, IsMapped, Project, History, Readable, MaxSequence, LastState, CountStates, StatesOk, Numbered, AllProject,
         FindPosition, LastManagement, CountManagements, ManagementsNumbered, MappingCheck, LiveBuys, Ids, Revisions;
    HeldMeans(t, req.positionId);
    LastStateCounts(t.states, req.positionId);
    LastManagementCounts(t.managements, req.positionId);
    if IsHeld(t, req.positionId) {
      HeldHasRows(t, req.positionId);
      AreNumbered(t.fills);
      NewestMeans(t, req.positionId, req.expectedFillSequence);
      MappedMeans(t, req);
    }
  }

  /** What confirming the management inputs answers on any ledger that saves can reach. */
  lemma ManagementMeans(calls: seq<Call>, req: ManagementRequest)
    requires forall m :: m in Run(calls).managements ==> m.request.requestId != req.requestId
    ensures ManagementAnswers(Run(calls), req, SaveManagement(Run(calls), req))
  {
    assert SavedManagement(Run(calls).managements, req.requestId).None?;
    RunParts(calls);
    hide Run, Inv, Readable, ManagementAnswers, SaveManagement, SavedManagement, FillsOk, AllProject, StatesOk, ManagementsNumbered;
    ReachableLedgerReads(calls);
    NewManagementMeans(Run(calls), req);
  }
}
