/** Several senders, an operator, the collector and crashes over one outbox.

  A sender reserves a row in one transaction, and opens a second transaction that spans the call of
  the transport.  While that second transaction is open it holds the write lock, so nobody else
  changes the outbox; a sender that dies rolls it back to the committed reservation.
 */
module Delivery {
  import opened Basics
  import opened Alerts
  import opened Outbox
  import opened OutboxViews

  datatype Sender =
    | Idle
    | Holding(id: AlertId, claim: int)
    | Open(id: AlertId, claim: int)
    | Sent(id: AlertId, claim: int, state: DeliveryState, retryable: bool)

  /** One call of the transport with the attempt number it was made under. */
  datatype Call = Call(id: AlertId, claim: int)

  datatype System = System(box: Box, senders: map<nat, Sender>, calls: seq<Call>, accepted: seq<AlertId>)

  datatype Step =
    | ClaimStep(p: nat, now: int)
    | BeginStep(p: nat)
    | DeferStep(p: nat, now: int, code: string, suppress: Option<Reason>)
    | SendStep(p: nat, accepts: bool, state: DeliveryState, retryable: bool)
    | SendDiesStep(p: nat, accepts: bool)
    | CommitStep(p: nat, now: int, code: string)
    | CrashStep(p: nat)
    | ResolveStep(id: AlertId, outcome: DeliveryState, now: int)
    | RetryStep(id: AlertId, now: int)
    | CollectStep(collected: Box)
    | OtherStep

  function SenderOf(s: System, p: nat): Sender {
    if p in s.senders then s.senders[p] else Idle
  }

  predicate InTransaction(x: Sender) { x.Open? || x.Sent? }

  /** Nobody holds the write lock of the database. */
  ghost predicate Unlocked(s: System) {
    forall p :: p in s.senders ==> !InTransaction(s.senders[p])
  }

  /** The transport promises: confirmed means accepted, failed means not accepted, unknown is either. */
  predicate TransportContract(accepts: bool, state: DeliveryState) {
    (state.Confirmed? ==> accepts) && (state.Failed? ==> !accepts) && !state.Pending?
  }

  ghost predicate Enabled(s: System, step: Step) {
    match step
    case ClaimStep(p, now) => Unlocked(s) && SenderOf(s, p).Idle? && Claim(s.box, now).Ok?
    case BeginStep(p) => Unlocked(s) && SenderOf(s, p).Holding?
    case DeferStep(p, now, code, why) => SenderOf(s, p).Open? && Deferred(s.box, SenderOf(s, p).id, now, code, why).Ok?
    case SendStep(p, accepts, state, _) => SenderOf(s, p).Open? && TransportContract(accepts, state)
    case SendDiesStep(p, _) => SenderOf(s, p).Open?
    case CommitStep(p, now, code) => SenderOf(s, p).Sent? && Committed(s, p, now, code).Ok?
    case CrashStep(p) => true
    case ResolveStep(id, outcome, now) => Unlocked(s) && Resolve(s.box, id, outcome, now).Ok?
    case RetryStep(id, now) => Unlocked(s) && RetryFailed(s.box, id, now).Ok?
    case CollectStep(box) => Unlocked(s) && BoxOk(box) && RowsKept(s.box, box)
    case OtherStep => true
  }

  /** An entry that is not reviewable any more is given back, and suppressed when that is final. */
  function Deferred(o: Box, id: AlertId, now: int, code: string, why: Option<Reason>): Checked<Box> {
    match DeferUnstarted(o, id, now, code)
    case Err(e) => Err(e)
    case Ok(u) => if why.Some? then Suppress(u, id, why.value, now) else Ok(u)
  }

  function Committed(s: System, p: nat, now: int, code: string): Checked<Box>
    requires SenderOf(s, p).Sent?
  {
    var x := SenderOf(s, p);
    Finish(s.box, x.id, x.state, now, code, x.retryable)
  }

  /** The committed reservation a sender took is still the current one. */
  predicate Fenced(row: Option<Row>, claim: int) {
    row.Some? && row.value.state.Unknown? && row.value.attempts == claim
  }

  ghost function Next(s: System, step: Step): System
    requires Enabled(s, step)
  {
    match step
    case ClaimStep(p, now) =>
      var (box, got) := Claim(s.box, now).value;
      s.(box := box, senders := s.senders[p := if got.Some? then Holding(got.value.id, got.value.attempts) else Idle])
    case BeginStep(p) =>
      var x := SenderOf(s, p);
      s.(senders := s.senders[p := if Fenced(RowOf(s.box, x.id), x.claim) then Open(x.id, x.claim) else Idle])
    case DeferStep(p, now, code, why) =>
      s.(box := Deferred(s.box, SenderOf(s, p).id, now, code, why).value, senders := s.senders[p := Idle])
    case SendStep(p, accepts, state, retryable) =>
      var x := SenderOf(s, p);
      Sending(s, x, accepts).(senders := s.senders[p := Sent(x.id, x.claim, state, retryable)])
    case SendDiesStep(p, accepts) =>
      Sending(s, SenderOf(s, p), accepts).(senders := s.senders[p := Idle])
    case CommitStep(p, now, code) =>
      s.(box := Committed(s, p, now, code).value, senders := s.senders[p := Idle])
    case CrashStep(p) => s.(senders := s.senders[p := Idle])
    case ResolveStep(id, outcome, now) => s.(box := Resolve(s.box, id, outcome, now).value)
    case RetryStep(id, now) => s.(box := RetryFailed(s.box, id, now).value)
    case CollectStep(box) => s.(box := box)
    case OtherStep => s
  }

  function Sending(s: System, x: Sender, accepts: bool): System
    requires x.Open?
  {
    s.(calls := s.calls + [Call(x.id, x.claim)], accepted := if accepts then s.accepted + [x.id] else s.accepted)
  }

  const INITIAL := System(Box([], []), map[], [], [])

  ghost predicate IsRun(steps: seq<Step>, states: seq<System>) {
    && |states| == |steps| + 1
    && states[0] == INITIAL
    && forall i :: 0 <= i < |steps| ==> Enabled(states[i], steps[i]) && states[i + 1] == Next(states[i], steps[i])
  }

  /** The operator does not declare a delivery failed that the server accepted. */
  ghost predicate Truthful(s: System, step: Step) {
    step.ResolveStep? && step.outcome.Failed? ==> step.id !in s.accepted
  }

  // ---- the fence ----

  type Senders = map<nat, Sender>

  predicate IsLive(x: Sender) { !x.Idle? }

  predicate IsUnsent(x: Sender) { x.Holding? || x.Open? }

  /** At most one sender is inside its second transaction, and it got there through the fence. */
  ghost predicate LockOk(v: View, senders: Senders) {
    && (forall p, q :: p in senders && q in senders && InTransaction(senders[p]) && InTransaction(senders[q]) ==> p == q)
    && (forall p :: p in senders && InTransaction(senders[p]) ==> Fenced(v(senders[p].id), senders[p].claim))
  }

  /** Live claim numbers of an event are different and do not exceed its attempts. */
  ghost predicate ClaimsOk(v: View, senders: Senders) {
    && (forall p :: p in senders && IsLive(senders[p]) ==>
          v(senders[p].id).Some? && 1 <= senders[p].claim <= v(senders[p].id).value.attempts)
    && (forall p, q :: p in senders && q in senders && p != q && IsLive(senders[p]) && IsLive(senders[q]) ==>
          senders[p].id == senders[q].id ==> senders[p].claim != senders[q].claim)
  }

  /** Transport calls of an event were made under increasing attempt numbers, none above the
      current attempts, and none of them under the number of a claim that is still unsent. */
  ghost predicate CallsOk(v: View, senders: Senders, calls: seq<Call>) {
    && (forall i :: 0 <= i < |calls| ==> v(calls[i].id).Some? && 1 <= calls[i].claim <= v(calls[i].id).value.attempts)
    && (forall i, j :: 0 <= i < j < |calls| && calls[i].id == calls[j].id ==> calls[i].claim < calls[j].claim)
    && (forall i, p :: 0 <= i < |calls| && p in senders && IsUnsent(senders[p]) ==>
          senders[p].id == calls[i].id ==> senders[p].claim != calls[i].claim)
  }

  ghost predicate FenceOk(v: View, senders: Senders, calls: seq<Call>) {
    LockOk(v, senders) && ClaimsOk(v, senders) && CallsOk(v, senders, calls)
  }

  ghost predicate FenceInv(s: System) {
    BoxOk(s.box) && FenceOk(ViewOf(s.box), s.senders, s.calls)
  }

  /** Only one row changes, and its attempts do not go down. */
  ghost predicate Grows(v: View, w: View, id: AlertId) {
    OnlyRow(v, w, id) && (v(id).Some? ==> w(id).Some? && w(id).value.attempts >= v(id).value.attempts)
  }

  lemma MoveKeepsFence(v: View, w: View, senders: Senders, calls: seq<Call>)
    requires FenceOk(v, senders, calls)
    requires forall id: AlertId {:trigger w(id)} :: v(id).Some? ==> w(id).Some? && w(id).value.attempts >= v(id).value.attempts
    requires forall p :: p in senders ==> !InTransaction(senders[p])
    ensures FenceOk(w, senders, calls)
  {
  }

  /** A sender that stops being live, with or without finishing its attempt. */
  lemma ReleaseKeepsFence(v: View, w: View, p: nat, senders: Senders, calls: seq<Call>)
    requires FenceOk(v, senders, calls)
    requires if p in senders && InTransaction(senders[p]) then Grows(v, w, senders[p].id) else forall x :: w(x) == v(x)
    ensures FenceOk(w, senders[p := Idle], calls)
  {
  }

  lemma ClaimKeepsFence(v: View, w: View, p: nat, c: Claimed, senders: Senders, calls: seq<Call>)
    requires FenceOk(v, senders, calls) && OnlyRow(v, w, c.id)
    requires forall q :: q in senders ==> !InTransaction(senders[q])
    requires v(c.id).Some? && w(c.id).Some? && w(c.id).value.attempts == c.attempts == v(c.id).value.attempts + 1 >= 1
    ensures FenceOk(w, senders[p := Holding(c.id, c.attempts)], calls)
  {
  }

  lemma BeginKeepsFence(v: View, p: nat, senders: Senders, calls: seq<Call>)
    requires FenceOk(v, senders, calls) && p in senders && senders[p].Holding?
    requires forall q :: q in senders ==> !InTransaction(senders[q])
    requires Fenced(v(senders[p].id), senders[p].claim)
    ensures FenceOk(v, senders[p := Open(senders[p].id, senders[p].claim)], calls)
  {
  }

  lemma DeferKeepsFence(v: View, w: View, p: nat, senders: Senders, calls: seq<Call>)
    requires FenceOk(v, senders, calls) && p in senders && senders[p].Open? && OnlyRow(v, w, senders[p].id)
    requires v(senders[p].id).Some? && w(senders[p].id).Some?
    requires w(senders[p].id).value.attempts == v(senders[p].id).value.attempts - 1
    ensures FenceOk(w, senders[p := Idle], calls)
  {
    var x := senders[p];
    forall i | 0 <= i < |calls| && calls[i].id == x.id ensures calls[i].claim < x.claim {
      assert calls[i].claim != x.claim;
    }
    forall q | q in senders && q != p && IsLive(senders[q]) && senders[q].id == x.id ensures senders[q].claim < x.claim {
      assert senders[q].claim != x.claim;
    }
  }

  lemma SendKeepsFence(v: View, p: nat, y: Sender, senders: Senders, calls: seq<Call>)
    requires FenceOk(v, senders, calls) && p in senders && senders[p].Open?
    requires y.Idle? || (y.Sent? && y.id == senders[p].id && y.claim == senders[p].claim)
    ensures FenceOk(v, senders[p := y], calls + [Call(senders[p].id, senders[p].claim)])
  {
    var x := senders[p];
    forall i | 0 <= i < |calls| && calls[i].id == x.id ensures calls[i].claim < x.claim {
      assert calls[i].claim != x.claim;
    }
  }

  lemma GiveBack(o: Box, id: AlertId, now: int, code: string)
    requires BoxOk(o) && DeferUnstarted(o, id, now, code).Ok?
    ensures var u := DeferUnstarted(o, id, now, code).value;
            BoxOk(u) && OnlyRow(ViewOf(o), ViewOf(u), id) && RowOf(o, id).Some? && RowOf(o, id).value.state.Unknown?
            && RowOf(u, id).Some? && RowOf(u, id).value.state.Pending? && RowOf(u, id).value.attempts == RowOf(o, id).value.attempts - 1
  {
    DeferUnstartedView(o, id, now, code);
    ChangeKeepsBox(o, DoDefer(id, code), now);
  }

  lemma SuppressOnly(o: Box, id: AlertId, reason: Reason, now: int)
    requires BoxOk(o) && Suppress(o, id, reason, now).Ok?
    ensures var u := Suppress(o, id, reason, now).value;
            BoxOk(u) && OnlyRow(ViewOf(o), ViewOf(u), id) && RowOf(o, id).Some? && RowOf(u, id).Some?
            && RowOf(u, id).value.state == RowOf(o, id).value.state && RowOf(u, id).value.attempts == RowOf(o, id).value.attempts
  {
    SuppressView(o, id, reason, now);
    ChangeKeepsBox(o, DoSuppress(id, reason), now);
  }

  lemma OnlyRowTwice(v: View, m: View, w: View, id: AlertId)
    requires OnlyRow(v, m, id) && OnlyRow(m, w, id)
    ensures OnlyRow(v, w, id)
  {
    forall x | x != id ensures w(x) == v(x) { assert w(x) == m(x); }
  }

  lemma DeferView(o: Box, id: AlertId, now: int, code: string, why: Option<Reason>)
    requires BoxOk(o) && Deferred(o, id, now, code, why).Ok?
    ensures var u := Deferred(o, id, now, code, why).value;
            OnlyRow(ViewOf(o), ViewOf(u), id) && RowOf(o, id).Some? && RowOf(o, id).value.state.Unknown?
            && RowOf(u, id).Some? && RowOf(u, id).value.state.Pending? && RowOf(u, id).value.attempts == RowOf(o, id).value.attempts - 1
            && BoxOk(u)
  {
    var m := DeferUnstarted(o, id, now, code).value;
    GiveBack(o, id, now, code);
    if why.Some? {
      SuppressOnly(m, id, why.value, now);
      OnlyRowTwice(ViewOf(o), ViewOf(m), ViewOf(Suppress(m, id, why.value, now).value), id);
    }
  }

  // ---- the fence holds over every step, whatever the operator says ----

  lemma OutboxMove(s: System, c: Change, now: int, id: AlertId)
    requires FenceInv(s) && Unlocked(s) && Apply(s.box, c, now).Ok?
    requires Grows(ViewOf(s.box), ViewOf(Apply(s.box, c, now).value), id)
    ensures FenceInv(s.(box := Apply(s.box, c, now).value))
  {
    ChangeKeepsBox(s.box, c, now);
    MoveKeepsFence(ViewOf(s.box), ViewOf(Apply(s.box, c, now).value), s.senders, s.calls);
  }

  lemma OperatorKeepsFence(s: System, step: Step)
    requires FenceInv(s) && Enabled(s, step) && (step.ResolveStep? || step.RetryStep? || step.CollectStep?)
    ensures FenceInv(Next(s, step))
  {
    hide LockOk, ClaimsOk, CallsOk;
    match step
    case ResolveStep(id, outcome, now) =>
      FinishView(s.box, id, outcome, now, "operator_checked", false);
      OutboxMove(s, DoResolve(id, outcome), now, id);
    case RetryStep(id, now) =>
      RetryView(s.box, id, now);
      OutboxMove(s, DoRetry(id), now, id);
    case CollectStep(box) =>
      RowsKeptView(s.box, box);
      MoveKeepsFence(ViewOf(s.box), ViewOf(box), s.senders, s.calls);
  }

  lemma ClaimStepKeepsFence(s: System, p: nat, now: int)
    requires FenceInv(s) && Enabled(s, ClaimStep(p, now))
    ensures FenceInv(Next(s, ClaimStep(p, now)))
  {
    ChangeKeepsBox(s.box, DoClaim, now);
    var (box, got) := Claim(s.box, now).value;
    if got.Some? {
      ClaimView(s.box, now);
      ClaimKeepsFence(ViewOf(s.box), ViewOf(box), p, got.value, s.senders, s.calls);
    } else {
      ReleaseKeepsFence(ViewOf(s.box), ViewOf(s.box), p, s.senders, s.calls);
    }
  }

  lemma SenderKeepsFence(s: System, step: Step)
    requires FenceInv(s) && Enabled(s, step)
    requires step.BeginStep? || step.DeferStep? || step.SendStep? || step.SendDiesStep? || step.CommitStep? || step.CrashStep?
    ensures FenceInv(Next(s, step))
  {
    var v := ViewOf(s.box);
    hide LockOk, ClaimsOk, CallsOk, BoxOk, Finish, Deferred;
    match step
    case BeginStep(p) =>
      if Fenced(v(s.senders[p].id), s.senders[p].claim) {
        BeginKeepsFence(v, p, s.senders, s.calls);
      } else {
        ReleaseKeepsFence(v, v, p, s.senders, s.calls);
      }
    case DeferStep(p, now, code, why) =>
      DeferView(s.box, s.senders[p].id, now, code, why);
      DeferKeepsFence(v, ViewOf(Next(s, step).box), p, s.senders, s.calls);
    case SendStep(p, accepts, state, retryable) =>
      SendKeepsFence(v, p, Sent(s.senders[p].id, s.senders[p].claim, state, retryable), s.senders, s.calls);
    case SendDiesStep(p, accepts) => SendKeepsFence(v, p, Idle, s.senders, s.calls);
    case CommitStep(p, now, code) =>
      var x := s.senders[p];
      FinishView(s.box, x.id, x.state, now, code, x.retryable);
      ChangeKeepsBox(s.box, DoFinish(x.id, x.state, code, x.retryable), now);
      ReleaseKeepsFence(v, ViewOf(Next(s, step).box), p, s.senders, s.calls);
    case CrashStep(p) => ReleaseKeepsFence(v, v, p, s.senders, s.calls);
  }

  lemma StepKeepsFence(s: System, step: Step)
    requires FenceInv(s) && Enabled(s, step)
    ensures FenceInv(Next(s, step))
  {
    match step
    case ClaimStep(p, now) => ClaimStepKeepsFence(s, p, now);
    case ResolveStep(_, _, _) => OperatorKeepsFence(s, step);
    case RetryStep(_, _) => OperatorKeepsFence(s, step);
    case CollectStep(_) => OperatorKeepsFence(s, step);
    case OtherStep =>
    case _ => SenderKeepsFence(s, step);
  }
}
