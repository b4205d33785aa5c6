/** The manual position ledger: three tables of revisions, changed only by append.

  Field syntax is checked before a request gets here; the hash of a request is the request itself.
 */
module Ledger {
  import opened Basics
  import opened FillReplay
  import opened PositionManagement

  datatype Position = Position(id: string, symbol: string, unit: string)

  datatype Command = Create | Append | Revise(fillId: string, expectedRevision: int)

  datatype FillRequest = FillRequest(
    requestId: string,
    positionId: string,
    command: Command,
    fact: Fact,
    confirmed: bool,
    symbol: string,
    unit: string)

  datatype StateRequest = StateRequest(
    requestId: string,
    positionId: string,
    stage: Option<int>,
    stopPrice: Option<real>,
    confirmed: bool,
    expectedFillSequence: int,
    expectedStateRevision: int)

  datatype ManagementRequest = ManagementRequest(
    requestId: string,
    positionId: string,
    stages: map<string, Option<int>>,
    confirmed: bool,
    expectedFillSequence: int,
    expectedStateRevision: int,
    expectedManagementRevision: int)

  datatype FillRow = FillRow(request: FillRequest, row: Revision)

  datatype StateRow = StateRow(request: StateRequest, revision: int, fillSequence: int)

  datatype ManagementRow = ManagementRow(
    request: ManagementRequest,
    revision: int,
    revisions: map<string, int>,
    fillSequence: int,
    stateRevision: int)

  datatype Tables = Tables(
    positions: seq<Position>,
    fills: seq<FillRow>,
    states: seq<StateRow>,
    managements: seq<ManagementRow>)

  const EMPTY_TABLES := Tables([], [], [], [])

  datatype LedgerError =
    | RequestChanged
    | InvalidInput
    | NotConfirmed
    | PositionExists
    | PositionMissing
    | UnitMismatch
    | FillMissing
    | Stale
    | NotOpen
    | Rejected(why: ReplayError)
    | BadMapping(mapping: MappingError)
    | TooManyFills
    | Unreadable

  type Checked<+T> = Result<T, LedgerError>

  // ---- reading ----

  function History(fills: seq<FillRow>, positionId: string): seq<Revision> {
    if fills == [] then []
    else
      var last := fills[|fills| - 1];
      History(fills[..|fills| - 1], positionId) + (if last.request.positionId == positionId then [last.row] else [])
  }

  function LastState(states: seq<StateRow>, positionId: string): Option<StateRow> {
    if states == [] then None
    else if states[|states| - 1].request.positionId == positionId then Some(states[|states| - 1])
    else LastState(states[..|states| - 1], positionId)
  }

  function LastManagement(managements: seq<ManagementRow>, positionId: string): Option<ManagementRow> {
    if managements == [] then None
    else if managements[|managements| - 1].request.positionId == positionId then Some(managements[|managements| - 1])
    else LastManagement(managements[..|managements| - 1], positionId)
  }

  function MaxSequence(history: seq<Revision>): int {
    if history == [] then 0
    else
      var m, last := MaxSequence(history[..|history| - 1]), history[|history| - 1].sequence;
      if m >= last then m else last
  }

  predicate IsOpen(p: Projection) { p.tally.quantity != 0.0 }

  datatype Status = NotOpenStatus | Unconfirmed | NeedsReview | Confirmed

  function StateStatus(p: Projection, history: seq<Revision>, latest: Option<StateRow>): Status {
    if !IsOpen(p) then NotOpenStatus
    else if latest.None? then Unconfirmed
    else if latest.value.fillSequence != MaxSequence(history) then NeedsReview
    else Confirmed
  }

  function StateRevision(latest: Option<StateRow>): int {
    if latest.Some? then latest.value.revision else 0
  }

  function ConfirmedStage(p: Projection, history: seq<Revision>, latest: Option<StateRow>): Option<int> {
    if StateStatus(p, history, latest).Confirmed? then latest.value.request.stage else None
  }

  function ManagementStatus(p: Projection, history: seq<Revision>, state: Option<StateRow>, latest: Option<ManagementRow>): Status {
    if !IsOpen(p) then NotOpenStatus
    else if latest.None? then Unconfirmed
    else if latest.value.fillSequence != MaxSequence(history) || latest.value.stateRevision != StateRevision(state) then NeedsReview
    else Confirmed
  }

  function ManagementRevision(latest: Option<ManagementRow>): int {
    if latest.Some? then latest.value.revision else 0
  }

  function FindPosition(positions: seq<Position>, id: string): (r: Option<Position>)
    ensures r.Some? ==> r.value in positions && r.value.id == id
    ensures r.None? ==> forall p :: p in positions ==> p.id != id
  {
    if positions == [] then None
    else if positions[0].id == id then Some(positions[0])
    else FindPosition(positions[1..], id)
  }

  function CountManagements(managements: seq<ManagementRow>, positionId: string): nat {
    if managements == [] then 0
    else
      CountManagements(managements[..|managements| - 1], positionId)
      + (if managements[|managements| - 1].request.positionId == positionId then 1 else 0)
  }

  predicate Placeable(positions: seq<Position>, positionId: string) {
    FindPosition(positions, positionId).Some?
  }

  predicate StateReads(positions: seq<Position>, s: StateRow) {
    Placeable(positions, s.request.positionId) && s.fillSequence > 0
  }

  /** A management record maps some fills at revisions of theirs, and is the next of its position. */
  predicate ManagementReads(positions: seq<Position>, managements: seq<ManagementRow>, i: nat)
    requires i < |managements|
  {
    var m := managements[i];
    && Placeable(positions, m.request.positionId)
    && m.fillSequence >= 1 && m.stateRevision >= 0
    && m.request.stages.Keys == m.revisions.Keys && 1 <= |m.revisions.Keys| <= MAX_MAPPED_FILLS
    && (forall y :: y in m.revisions ==> m.revisions[y] >= 1)
    && m.revision == CountManagements(managements[..i], m.request.positionId) + 1
  }

  predicate FillsRead(positions: seq<Position>, fills: seq<FillRow>) {
    forall f :: f in fills ==> Placeable(positions, f.request.positionId)
  }

  predicate StatesRead(positions: seq<Position>, states: seq<StateRow>) {
    forall s :: s in states ==> StateReads(positions, s)
  }

  predicate ManagementsRead(positions: seq<Position>, managements: seq<ManagementRow>) {
    forall i :: 0 <= i < |managements| ==> ManagementReads(positions, managements, i)
  }

  predicate AllProject(positions: seq<Position>, fills: seq<FillRow>) {
    forall p :: p in positions ==> Project(History(fills, p.id)).Ok?
  }

  /** What reading the ledger insists on: every row belongs to a position and is well formed, management
      records are numbered without gaps, and every position can be projected. */
  predicate Readable(t: Tables) {
    && FillsRead(t.positions, t.fills) && StatesRead(t.positions, t.states) && ManagementsRead(t.positions, t.managements)
    && AllProject(t.positions, t.fills)
  }

  function FindFill(fills: seq<Entry>, fillId: string): (r: Option<Revision>)
    ensures r.Some? ==> r.value.fillId == fillId && exists e :: e in fills && e.row == r.value
    ensures r.None? ==> forall e :: e in fills ==> e.row.fillId != fillId
  {
    if fills == [] then None
    else if fills[0].row.fillId == fillId then Some(fills[0].row)
    else FindFill(fills[1..], fillId)
  }

  function SavedFill(fills: seq<FillRow>, requestId: string): (r: Option<FillRow>)
    ensures r.Some? ==> r.value in fills && r.value.request.requestId == requestId
    ensures r.None? ==> forall f :: f in fills ==> f.request.requestId != requestId
  {
    if fills == [] then None
    else if fills[0].request.requestId == requestId then Some(fills[0])
    else SavedFill(fills[1..], requestId)
  }

  function SavedState(states: seq<StateRow>, requestId: string): (r: Option<StateRow>)
    ensures r.Some? ==> r.value in states && r.value.request.requestId == requestId
    ensures r.None? ==> forall f :: f in states ==> f.request.requestId != requestId
  {
    if states == [] then None
    else if states[0].request.requestId == requestId then Some(states[0])
    else SavedState(states[1..], requestId)
  }

  function SavedManagement(managements: seq<ManagementRow>, requestId: string): (r: Option<ManagementRow>)
    ensures r.Some? ==> r.value in managements && r.value.request.requestId == requestId
    ensures r.None? ==> forall f :: f in managements ==> f.request.requestId != requestId
  {
    if managements == [] then None
    else if managements[0].request.requestId == requestId then Some(managements[0])
    else SavedManagement(managements[1..], requestId)
  }

  // ---- saving a fill ----

  predicate ValidFact(f: Fact, now: int) {
    f.quantity > 0.0 && f.price > 0.0 && 0 < f.timeMs <= now
  }

  function InputError(req: FillRequest, now: int): Option<LedgerError> {
    if !ValidFact(req.fact, now) then Some(InvalidInput)
    else if !req.confirmed then Some(NotConfirmed)
    else if !req.command.Revise? && req.fact.voided then Some(InvalidInput)
    else if req.command.Revise? && req.fact.note == "" then Some(InvalidInput)
    else if req.command.Create? && req.fact.action.Sell? then Some(InvalidInput)
    else None
  }

  /** The number the table gives the next row. */
  function NextSequence(fills: seq<FillRow>): int {
    if fills == [] then 1 else fills[|fills| - 1].row.sequence + 1
  }

  /** The fill and revision a request stands for, against the position's current fills. */
  function Target(req: FillRequest, history: seq<Revision>): Checked<(string, int)> {
    match req.command
    case Create => Ok((req.requestId, 1))
    case Append => Ok((req.requestId, 1))
    case Revise(fillId, expected) =>
      match FindFill(SortFills(Latest(history)), fillId)
      case None => Err(FillMissing)
      case Some(previous) => if previous.revision != expected then Err(Stale) else Ok((fillId, previous.revision + 1))
  }

  /** The position a request is for, existing or new. */
  function Place(t: Tables, req: FillRequest): Checked<seq<Position>> {
    match FindPosition(t.positions, req.positionId)
    case Some(p) =>
      if req.command.Create? then Err(PositionExists)
      else if req.unit != p.unit then Err(UnitMismatch)
      else Ok(t.positions)
    case None =>
      if req.command.Create? then Ok(t.positions + [Position(req.positionId, req.symbol, req.unit)]) else Err(PositionMissing)
  }

  /** The row as the check before the insert sees it, with a predicted sequence. */
  function Candidate(history: seq<Revision>, req: FillRequest, fillId: string, revision: int): Revision {
    Revision(fillId, revision, MaxSequence(history) + 1, req.fact)
  }

  /** The row as the table stores it. */
  function Stored(fills: seq<FillRow>, req: FillRequest, fillId: string, revision: int): FillRow {
    FillRow(req, Revision(fillId, revision, NextSequence(fills), req.fact))
  }

  /** Check the replay with a predicted sequence, then append the row with the table's own. */
  function Commit(t: Tables, positions: seq<Position>, history: seq<Revision>, req: FillRequest, fillId: string, revision: int): Checked<Tables> {
    match Project(history + [Candidate(history, req, fillId, revision)])
    case Err(e) => Err(Rejected(e))
    case Ok(_) => Ok(t.(positions := positions, fills := t.fills + [Stored(t.fills, req, fillId, revision)]))
  }

  function NewFill(t: Tables, req: FillRequest): Checked<Tables> {
    if !Readable(t) then Err(Unreadable)
    else
      var positions :- Place(t, req);
      var history := if req.command.Create? then [] else History(t.fills, req.positionId);
      var target :- Target(req, history);
      Commit(t, positions, history, req, target.0, target.1)
  }

  function Save(t: Tables, req: FillRequest, now: int): Checked<(Tables, string)> {
    match SavedFill(t.fills, req.requestId)
    case Some(previous) => if previous.request != req then Err(RequestChanged) else Ok((t, previous.request.positionId))
    case None =>
      if InputError(req, now).Some? then Err(InputError(req, now).value)
      else
        var u :- NewFill(t, req);
        Ok((u, req.positionId))
  }

  // ---- confirming a state ----

  function NewState(t: Tables, req: StateRequest): Checked<Tables> {
    if !Readable(t) then Err(Unreadable)
    else if FindPosition(t.positions, req.positionId).None? then Err(NotOpen)
    else
      var history := History(t.fills, req.positionId);
      var p := Project(history).value;
      var latest := LastState(t.states, req.positionId);
      if !IsOpen(p) then Err(NotOpen)
      else if req.expectedFillSequence != MaxSequence(history) || req.expectedStateRevision != StateRevision(latest) then Err(Stale)
      else Ok(t.(states := t.states + [StateRow(req, StateRevision(latest) + 1, MaxSequence(history))]))
  }

  function SaveState(t: Tables, req: StateRequest): Checked<(Tables, string)> {
    if !req.confirmed then Err(NotConfirmed)
    else
      match SavedState(t.states, req.requestId)
      case Some(previous) => if previous.request != req then Err(RequestChanged) else Ok((t, previous.request.positionId))
      case None =>
        var u :- NewState(t, req);
        Ok((u, req.positionId))
  }

  // ---- confirming management inputs ----

  predicate AllKnown(stages: map<string, Option<int>>) {
    forall y :: y in stages ==> stages[y].Some?
  }

  function MappingCheck(fills: seq<Entry>, req: ManagementRequest, stage: Option<int>): Checked<()> {
    var buys := LiveBuys(fills);
    if !(1 <= |buys| <= MAX_MAPPED_FILLS) then Err(TooManyFills)
    else if req.stages.Keys != Ids(buys) then Err(BadMapping(IncompleteMapping))
    else if AllKnown(req.stages) && stage.Some? then
      match ProjectRuleFills(fills, req.stages, Revisions(buys), stage)
      case Err(e) => Err(BadMapping(e))
      case Ok(_) => Ok(())
    else Ok(())
  }

  function NewManagement(t: Tables, req: ManagementRequest): Checked<Tables> {
    if !Readable(t) then Err(Unreadable)
    else if FindPosition(t.positions, req.positionId).None? then Err(NotOpen)
    else
      var history := History(t.fills, req.positionId);
      var p := Project(history).value;
      var state, latest := LastState(t.states, req.positionId), LastManagement(t.managements, req.positionId);
      if !IsOpen(p) then Err(NotOpen)
      else if req.expectedFillSequence != MaxSequence(history) || req.expectedStateRevision != StateRevision(state)
              || req.expectedManagementRevision != ManagementRevision(latest) then Err(Stale)
      else
        var _ :- MappingCheck(p.fills, req, ConfirmedStage(p, history, state));
        Ok(t.(managements := t.managements + [ManagementRow(req, ManagementRevision(latest) + 1, Revisions(LiveBuys(p.fills)),
                                                            MaxSequence(history), StateRevision(state))]))
  }

  function SaveManagement(t: Tables, req: ManagementRequest): Checked<(Tables, string)> {
    if !req.confirmed then Err(NotConfirmed)
    else
      match SavedManagement(t.managements, req.requestId)
      case Some(previous) => if previous.request != req then Err(RequestChanged) else Ok((t, previous.request.positionId))
      case None =>
        var u :- NewManagement(t, req);
        Ok((u, req.positionId))
  }
}
