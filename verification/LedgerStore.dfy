/** The ledger's tables as its methods append to them. */
module LedgerStore {
  import opened Basics
  import opened FillReplay
  import opened PositionManagement
  import opened Ledger

  class ManualPositionLedger {
    var positions: seq<Position>
    var fills: seq<FillRow>
    var states: seq<StateRow>
    var managements: seq<ManagementRow>

    function Contents(): Tables
      reads this
    {
      Tables(positions, fills, states, managements)
    }

    constructor ()
      ensures Contents() == EMPTY_TABLES
    {
      positions, fills, states, managements := [], [], [], [];
    }

    method ReadFills() returns (ok: bool)
      ensures ok == FillsRead(positions, fills)
    {
      for i := 0 to |fills|
        invariant forall f :: f in fills[..i] ==> Placeable(positions, f.request.positionId)
      {
        if FindPosition(positions, fills[i].request.positionId).None? {
          assert fills[i] in fills;
          return false;
        }
      }
      return true;
    }

    method ReadStates() returns (ok: bool)
      ensures ok == StatesRead(positions, states)
    {
      for i := 0 to |states|
        invariant forall s :: s in states[..i] ==> StateReads(positions, s)
      {
        if !StateReads(positions, states[i]) {
          assert states[i] in states;
          return false;
        }
      }
      return true;
    }

    /** The records of each position are counted as they are read. */
    method ReadManagements() returns (ok: bool)
      ensures ok == ManagementsRead(positions, managements)
    {
      hide ManagementReads;
      for i := 0 to |managements|
        invariant forall j :: 0 <= j < i ==> ManagementReads(positions, managements, j)
      {
        if !ManagementReads(positions, managements, i) { return false; }
      }
      return true;
    }

    /** Check every row and replay every position, as reading the ledger does. */
    method ReadAll() returns (ok: bool)
      ensures ok == Readable(Contents())
    {
      hide FillsRead, StatesRead, ManagementsRead, AllProject;
      var fillsRead := ReadFills();
      if !fillsRead { return false; }
      var statesRead := ReadStates();
      if !statesRead { return false; }
      var managementsRead := ReadManagements();
      if !managementsRead { return false; }
      ok := ReplayAll();
    }

    method ReplayAll() returns (ok: bool)
      ensures ok == AllProject(positions, fills)
    {
      for i := 0 to |positions|
        invariant AllProject(positions[..i], fills)
      {
        var p := ProjectInOrder(History(fills, positions[i].id));
        if p.Err? {
          assert positions[i] in positions;
          return false;
        }
      }
      assert positions[..|positions|] == positions;
      return true;
    }

    method InsertFill(req: FillRequest) returns (r: Checked<()>)
      modifies this`positions, this`fills
      ensures var spec := NewFill(old(Contents()), req);
        && r.Ok? == spec.Ok? && (r.Err? ==> r.error == spec.error)
        && Contents() == if spec.Ok? then spec.value else old(Contents())
    {
      var readable := ReadAll();
      if !readable { return Err(Unreadable); }
      var placed :- Place(Contents(), req);
      var history := if req.command.Create? then [] else History(fills, req.positionId);
      var target :- Target(req, history);
      var check := ProjectInOrder(history + [Candidate(history, req, target.0, target.1)]);
      if check.Err? { return Err(Rejected(check.error)); }
      positions := placed;
      fills := fills + [Stored(fills, req, target.0, target.1)];
      return Ok(());
    }

    method Save(req: FillRequest, now: int) returns (r: Checked<string>)
      modifies this`positions, this`fills
      ensures var spec := Ledger.Save(old(Contents()), req, now);
        && r.Ok? == spec.Ok? && (r.Err? ==> r.error == spec.error) && (r.Ok? ==> r.value == spec.value.1)
        && Contents() == if spec.Ok? then spec.value.0 else old(Contents())
    {
      var previous := SavedFill(fills, req.requestId);
      if previous.Some? {
        return if previous.value.request != req then Err(RequestChanged) else Ok(previous.value.request.positionId);
      }
      var wrong := InputError(req, now);
      if wrong.Some? { return Err(wrong.value); }
      var done :- InsertFill(req);
      return Ok(req.positionId);
    }

    method SaveState(req: StateRequest) returns (r: Checked<string>)
      modifies this`states
      ensures var spec := Ledger.SaveState(old(Contents()), req);
        && r.Ok? == spec.Ok? && (r.Err? ==> r.error == spec.error) && (r.Ok? ==> r.value == spec.value.1)
        && Contents() == if spec.Ok? then spec.value.0 else old(Contents())
    {
      if !req.confirmed { return Err(NotConfirmed); }
      var previous := SavedState(states, req.requestId);
      if previous.Some? {
        return if previous.value.request != req then Err(RequestChanged) else Ok(previous.value.request.positionId);
      }
      var readable := ReadAll();
      if !readable { return Err(Unreadable); }
      if FindPosition(positions, req.positionId).None? { return Err(NotOpen); }
      var history := History(fills, req.positionId);
      var projected := ProjectInOrder(history);
      var revision := StateRevision(LastState(states, req.positionId));
      if !IsOpen(projected.value) { return Err(NotOpen); }
      if req.expectedFillSequence != MaxSequence(history) || req.expectedStateRevision != revision { return Err(Stale); }
      states := states + [StateRow(req, revision + 1, MaxSequence(history))];
      return Ok(req.positionId);
    }

    method SaveManagement(req: ManagementRequest) returns (r: Checked<string>)
      modifies this`managements
      ensures var spec := Ledger.SaveManagement(old(Contents()), req);
        && r.Ok? == spec.Ok? && (r.Err? ==> r.error == spec.error) && (r.Ok? ==> r.value == spec.value.1)
        && Contents() == if spec.Ok? then spec.value.0 else old(Contents())
    {
      if !req.confirmed { return Err(NotConfirmed); }
      var previous := SavedManagement(managements, req.requestId);
      if previous.Some? {
        return if previous.value.request != req then Err(RequestChanged) else Ok(previous.value.request.positionId);
      }
      var readable := ReadAll();
      if !readable { return Err(Unreadable); }
      if FindPosition(positions, req.positionId).None? { return Err(NotOpen); }
      var history := History(fills, req.positionId);
      var projected := ProjectInOrder(history);
      var p := projected.value;
      var state := LastState(states, req.positionId);
      var revision := ManagementRevision(LastManagement(managements, req.positionId));
      if !IsOpen(p) { return Err(NotOpen); }
      if req.expectedFillSequence != MaxSequence(history) || req.expectedStateRevision != StateRevision(state)
         || req.expectedManagementRevision != revision {
        return Err(Stale);
      }
      var mapped :- MappingCheck(p.fills, req, ConfirmedStage(p, history, state));
      managements := managements + [ManagementRow(req, revision + 1, Revisions(LiveBuys(p.fills)), MaxSequence(history), StateRevision(state))];
      return Ok(req.positionId);
    }
  }
}
