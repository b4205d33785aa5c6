/** Safety of delivery over whole runs: at most one acceptance, at most three transport calls, and
  nothing sent from a row that is unknown or confirmed. */
module DeliveryRuns {
  import opened Basics
  import opened Alerts
  import opened Outbox
  import opened OutboxViews
  import opened Delivery

  // ---- acceptance, with a truthful operator ----

  /** No event was accepted twice; an accepted event's row says unknown or confirmed; and no sender
      that could still call the transport, or is about to report a failure, concerns one. */
  ghost predicate AcceptedOk(v: View, senders: Senders, accepted: seq<AlertId>) {
    && (forall i, j :: 0 <= i < j < |accepted| ==> accepted[i] != accepted[j])
    && (forall id :: id in accepted ==> v(id).Some? && (v(id).value.state.Unknown? || v(id).value.state.Confirmed?))
    && (forall p :: p in senders && IsUnsent(senders[p]) && Fenced(v(senders[p].id), senders[p].claim) ==> senders[p].id !in accepted)
    && (forall p :: p in senders && senders[p].Sent? && senders[p].state.Failed? ==> senders[p].id !in accepted)
  }

  ghost predicate Safe(s: System) {
    FenceInv(s) && AcceptedOk(ViewOf(s.box), s.senders, s.accepted)
  }

  /** One row changes while nobody is inside a transaction. */
  lemma MoveKeepsAccepted(v: View, w: View, id: AlertId, senders: Senders, accepted: seq<AlertId>)
    requires AcceptedOk(v, senders, accepted) && OnlyRow(v, w, id)
    requires id in accepted ==> w(id).Some? && (w(id).value.state.Unknown? || w(id).value.state.Confirmed?)
    requires w(id).Some? && w(id).value.state.Unknown? ==>
      v(id).Some? && v(id).value.state.Unknown? && w(id).value.attempts == v(id).value.attempts
    ensures AcceptedOk(w, senders, accepted)
  {
  }

  lemma ClaimKeepsAccepted(v: View, w: View, p: nat, c: Claimed, senders: Senders, calls: seq<Call>, accepted: seq<AlertId>)
    requires FenceOk(v, senders, calls) && AcceptedOk(v, senders, accepted) && OnlyRow(v, w, c.id)
    requires v(c.id).Some? && !v(c.id).value.state.Unknown? && !v(c.id).value.state.Confirmed?
    requires w(c.id).Some? && w(c.id).value.attempts == c.attempts == v(c.id).value.attempts + 1
    ensures AcceptedOk(w, senders[p := Holding(c.id, c.attempts)], accepted)
  {
    assert c.id !in accepted;
  }

  lemma SendKeepsAccepted(v: View, p: nat, y: Sender, accepts: bool, senders: Senders, calls: seq<Call>, accepted: seq<AlertId>)
    requires FenceOk(v, senders, calls) && AcceptedOk(v, senders, accepted) && p in senders && senders[p].Open?
    requires y.Idle? || (y.Sent? && y.id == senders[p].id && (y.state.Failed? ==> !accepts))
    ensures AcceptedOk(v, senders[p := y], if accepts then accepted + [senders[p].id] else accepted)
  {
    assert senders[p].id !in accepted;
  }

  /** The sender's row changes at the end of its transaction. */
  lemma FinishKeepsAccepted(v: View, w: View, p: nat, senders: Senders, calls: seq<Call>, accepted: seq<AlertId>)
    requires FenceOk(v, senders, calls) && AcceptedOk(v, senders, accepted) && p in senders && InTransaction(senders[p])
    requires OnlyRow(v, w, senders[p].id) && w(senders[p].id).Some?
    requires var state := w(senders[p].id).value.state;
             if senders[p].Open? then state.Pending?
             else state == senders[p].state && !state.Pending? && w(senders[p].id).value.attempts == v(senders[p].id).value.attempts
    ensures AcceptedOk(w, senders[p := Idle], accepted)
  {
    var x := senders[p];
    if x.Open? { assert x.id !in accepted; }
  }

  lemma OperatorKeepsAccepted(s: System, step: Step)
    requires Safe(s) && Enabled(s, step) && Truthful(s, step)
    requires step.ResolveStep? || step.RetryStep?
    ensures AcceptedOk(ViewOf(Next(s, step).box), s.senders, s.accepted)
  {
    var v, w := ViewOf(s.box), ViewOf(Next(s, step).box);
    match step
    case ResolveStep(id, outcome, now) =>
      FinishView(s.box, id, outcome, now, "operator_checked", false);
      MoveKeepsAccepted(v, w, id, s.senders, s.accepted);
    case RetryStep(id, now) =>
      RetryView(s.box, id, now);
      MoveKeepsAccepted(v, w, id, s.senders, s.accepted);
  }

  lemma CollectKeepsAccepted(v: View, w: View, senders: Senders, calls: seq<Call>, accepted: seq<AlertId>)
    requires FenceOk(v, senders, calls) && AcceptedOk(v, senders, accepted) && Kept(v, w)
    ensures AcceptedOk(w, senders, accepted)
  {
    forall p | p in senders && IsUnsent(senders[p]) && Fenced(w(senders[p].id), senders[p].claim) ensures senders[p].id !in accepted {
      assert Fenced(v(senders[p].id), senders[p].claim);
    }
  }

  lemma SenderKeepsAccepted(s: System, step: Step)
    requires Safe(s) && Enabled(s, step)
    requires step.DeferStep? || step.SendStep? || step.SendDiesStep? || step.CommitStep?
    ensures var n := Next(s, step); AcceptedOk(ViewOf(n.box), n.senders, n.accepted)
  {
    var v, w := ViewOf(s.box), ViewOf(Next(s, step).box);
    match step
    case DeferStep(p, now, code, why) =>
      DeferView(s.box, s.senders[p].id, now, code, why);
      FinishKeepsAccepted(v, w, p, s.senders, s.calls, s.accepted);
    case SendStep(p, accepts, state, retryable) =>
      SendKeepsAccepted(v, p, Sent(s.senders[p].id, s.senders[p].claim, state, retryable), accepts, s.senders, s.calls, s.accepted);
    case SendDiesStep(p, accepts) => SendKeepsAccepted(v, p, Idle, accepts, s.senders, s.calls, s.accepted);
    case CommitStep(p, now, code) =>
      var x := s.senders[p];
      FinishView(s.box, x.id, x.state, now, code, x.retryable);
      FinishKeepsAccepted(v, w, p, s.senders, s.calls, s.accepted);
  }

  lemma ClaimStepKeepsAccepted(s: System, p: nat, now: int)
    requires Safe(s) && Enabled(s, ClaimStep(p, now))
    ensures var n := Next(s, ClaimStep(p, now)); AcceptedOk(ViewOf(n.box), n.senders, n.accepted)
  {
    var (box, got) := Claim(s.box, now).value;
    if got.Some? {
      ClaimView(s.box, now);
      ClaimKeepsAccepted(ViewOf(s.box), ViewOf(box), p, got.value, s.senders, s.calls, s.accepted);
    }
  }

  lemma CollectStepKeepsAccepted(s: System, box: Box)
    requires Safe(s) && Enabled(s, CollectStep(box))
    ensures AcceptedOk(ViewOf(box), s.senders, s.accepted)
  {
    hide AcceptedOk;
    RowsKeptView(s.box, box);
    CollectKeepsAccepted(ViewOf(s.box), ViewOf(box), s.senders, s.calls, s.accepted);
  }

  lemma StepKeepsSafe(s: System, step: Step)
    requires Safe(s) && Enabled(s, step) && Truthful(s, step)
    ensures Safe(Next(s, step))
  {
    StepKeepsFence(s, step);
    hide AcceptedOk, FenceOk, BoxOk;
    match step
    case ClaimStep(p, now) => ClaimStepKeepsAccepted(s, p, now);
    case BeginStep(p) => AcceptedFrame(ViewOf(s.box), s.senders, Next(s, step).senders, p, s.accepted);
    case CrashStep(p) => AcceptedFrame(ViewOf(s.box), s.senders, Next(s, step).senders, p, s.accepted);
    case DeferStep(_, _, _, _) => SenderKeepsAccepted(s, step);
    case SendStep(_, _, _, _) => SenderKeepsAccepted(s, step);
    case SendDiesStep(_, _) => SenderKeepsAccepted(s, step);
    case CommitStep(_, _, _) => SenderKeepsAccepted(s, step);
    case CollectStep(box) => CollectStepKeepsAccepted(s, box);
    case OtherStep =>
    case _ => OperatorKeepsAccepted(s, step);
  }

  lemma AcceptedFrame(v: View, senders: Senders, next: Senders, p: nat, accepted: seq<AlertId>)
    requires AcceptedOk(v, senders, accepted)
    requires next == senders[p := Idle]
      || (p in senders && senders[p].Holding? && next == senders[p := Open(senders[p].id, senders[p].claim)])
    ensures AcceptedOk(v, next, accepted)
  {
  }

  lemma {:induction false} RunIsSafe(steps: seq<Step>, states: seq<System>, k: nat)
    requires IsRun(steps, states) && k <= |steps|
    requires forall i :: 0 <= i < k ==> Truthful(states[i], steps[i])
    ensures Safe(states[k])
  {
    if k > 0 {
      RunIsSafe(steps, states, k - 1);
      StepKeepsSafe(states[k - 1], steps[k - 1]);
    }
  }

  /** In every interleaving of senders, crashes at any point, and truthful resolutions, the server
      accepts each event at most once. */
  lemma AcceptedAtMostOnce(steps: seq<Step>, states: seq<System>, k: nat, i: nat, j: nat)
    requires IsRun(steps, states) && k <= |steps|
    requires forall m :: 0 <= m < k ==> Truthful(states[m], steps[m])
    requires i < j < |states[k].accepted|
    ensures states[k].accepted[i] != states[k].accepted[j]
  {
    RunIsSafe(steps, states, k);
  }

  // ---- transport calls, with any operator ----

  lemma {:induction false} RunKeepsFence(steps: seq<Step>, states: seq<System>, k: nat)
    requires IsRun(steps, states) && k <= |steps|
    ensures FenceInv(states[k])
  {
    if k > 0 {
      RunKeepsFence(steps, states, k - 1);
      StepKeepsFence(states[k - 1], steps[k - 1]);
    }
  }

  function CallCount(calls: seq<Call>, id: AlertId): nat {
    if calls == [] then 0 else CallCount(calls[..|calls| - 1], id) + (if calls[|calls| - 1].id == id then 1 else 0)
  }

  lemma {:induction false} CallCountBelow(calls: seq<Call>, id: AlertId, bound: int)
    requires forall i, j :: 0 <= i < j < |calls| && calls[i].id == calls[j].id ==> calls[i].claim < calls[j].claim
    requires forall i :: 0 <= i < |calls| ==> calls[i].claim >= 1
    requires forall i :: 0 <= i < |calls| && calls[i].id == id ==> calls[i].claim <= bound
    requires bound >= 0
    ensures CallCount(calls, id) <= bound
  {
    if calls != [] {
      var n := |calls| - 1;
      CallCountBelow(calls[..n], id, if calls[n].id == id then calls[n].claim - 1 else bound);
    }
  }

  /** Whatever the operator says, the transport is called at most three times for one event, each
      time under a higher attempt number; attempts stay within three and equal the starts less the
      reservations given back. */
  lemma CallsAreBounded(steps: seq<Step>, states: seq<System>, k: nat, id: AlertId)
    requires IsRun(steps, states) && k <= |steps|
    ensures CallCount(states[k].calls, id) <= MAX_ATTEMPTS
    ensures forall i, j :: 0 <= i < j < |states[k].calls| && states[k].calls[i].id == states[k].calls[j].id ==>
      states[k].calls[i].claim < states[k].calls[j].claim
    ensures AttemptsAccounted(states[k].box) && forall i :: 0 <= i < |states[k].box.rows| ==> RowOk(states[k].box.rows[i])
  {
    RunKeepsFence(steps, states, k);
    var s := states[k];
    forall i | 0 <= i < |s.calls| ensures s.calls[i].claim <= MAX_ATTEMPTS {
      var row := ViewOf(s.box)(s.calls[i].id);
      assert row == RowOf(s.box, s.calls[i].id);
      assert RowOk(s.box.rows[Find(s.box.rows, s.calls[i].id).value]);
    }
    CallCountBelow(s.calls, id, MAX_ATTEMPTS);
  }

  /** The row is unknown and no living sender holds its current reservation. */
  ghost predicate LeftUnknown(s: System, id: AlertId) {
    && RowOf(s.box, id).Some? && RowOf(s.box, id).value.state.Unknown?
    && forall p :: p in s.senders && IsLive(s.senders[p]) && s.senders[p].id == id ==>
         s.senders[p].claim != RowOf(s.box, id).value.attempts
  }

  ghost predicate IsConfirmed(s: System, id: AlertId) {
    RowOf(s.box, id).Some? && RowOf(s.box, id).value.state.Confirmed?
  }

  predicate Resolves(step: Step, id: AlertId) {
    step.ResolveStep? && step.id == id
  }

  lemma RowSurvives(s: System, step: Step, id: AlertId)
    requires FenceInv(s) && Enabled(s, step) && RowOf(s.box, id).Some? && !Resolves(step, id)
    requires IsConfirmed(s, id) || LeftUnknown(s, id)
    ensures var n := Next(s, step);
      && RowOf(n.box, id).Some?
      && RowOf(n.box, id).value.state == RowOf(s.box, id).value.state
      && RowOf(n.box, id).value.attempts == RowOf(s.box, id).value.attempts
  {
    var v, w := ViewOf(s.box), ViewOf(Next(s, step).box);
    assert forall p :: p in s.senders && InTransaction(s.senders[p]) ==> Fenced(v(s.senders[p].id), s.senders[p].claim);
    match step
    case ClaimStep(p, now) => if Claim(s.box, now).value.1.Some? { ClaimView(s.box, now); assert w(id) == v(id); }
    case DeferStep(p, now, code, why) => DeferView(s.box, s.senders[p].id, now, code, why); assert w(id) == v(id);
    case CommitStep(p, now, code) =>
      var x := s.senders[p];
      FinishView(s.box, x.id, x.state, now, code, x.retryable);
      assert w(id) == v(id);
    case ResolveStep(other, outcome, now) => FinishView(s.box, other, outcome, now, "operator_checked", false); assert w(id) == v(id);
    case RetryStep(other, now) => RetryView(s.box, other, now); assert w(id) == v(id);
    case CollectStep(box) => RowsKeptView(s.box, box); assert w(id).Some?;
    case _ =>
  }

  lemma NotSentNow(s: System, step: Step, id: AlertId)
    requires FenceInv(s) && Enabled(s, step)
    requires IsConfirmed(s, id) || LeftUnknown(s, id)
    ensures CallCount(Next(s, step).calls, id) == CallCount(s.calls, id)
  {
    if step.SendStep? || step.SendDiesStep? {
      var x := s.senders[step.p];
      assert Fenced(ViewOf(s.box)(x.id), x.claim);
      assert (s.calls + [Call(x.id, x.claim)])[..|s.calls|] == s.calls;
    }
  }

  lemma ResolveNeedsUnknown(s: System, step: Step, id: AlertId)
    requires FenceInv(s) && Enabled(s, step) && Resolves(step, id)
    ensures !IsConfirmed(s, id)
  {
    FinishView(s.box, id, step.outcome, step.now, "operator_checked", false);
  }

  lemma LeftUnknownPersists(s: System, step: Step, n: System, id: AlertId)
    requires FenceInv(s) && Enabled(s, step) && n == Next(s, step) && LeftUnknown(s, id) && !Resolves(step, id)
    ensures LeftUnknown(n, id) && CallCount(n.calls, id) == CallCount(s.calls, id)
  {
    RowSurvives(s, step, id);
    NotSentNow(s, step, id);
    if step.ClaimStep? && Claim(s.box, step.now).value.1.Some? { ClaimView(s.box, step.now); }
    hide FenceInv, CallCount, RowOf, BoxOk;
  }

  /** A confirmed event is never sent again, and stays confirmed. */
  lemma {:induction false} ConfirmedIsFinal(steps: seq<Step>, states: seq<System>, k: nat, m: nat, id: AlertId)
    requires IsRun(steps, states) && k <= m <= |steps| && IsConfirmed(states[k], id)
    ensures IsConfirmed(states[m], id) && CallCount(states[m].calls, id) == CallCount(states[k].calls, id)
  {
    hide FenceInv, Next, Enabled, IsConfirmed, CallCount;
    if k < m {
      ConfirmedIsFinal(steps, states, k, m - 1, id);
      RunKeepsFence(steps, states, m - 1);
      ConfirmedStays(states[m - 1], steps[m - 1], id);
    }
  }

  lemma ConfirmedStays(s: System, step: Step, id: AlertId)
    requires FenceInv(s) && Enabled(s, step) && IsConfirmed(s, id)
    ensures IsConfirmed(Next(s, step), id) && CallCount(Next(s, step).calls, id) == CallCount(s.calls, id)
  {
    if Resolves(step, id) { ResolveNeedsUnknown(s, step, id); }
    RowSurvives(s, step, id);
    NotSentNow(s, step, id);
  }

  /** An event left unknown is never sent again until the operator resolves it. */
  lemma {:induction false} UnknownWaitsForTheOperator(steps: seq<Step>, states: seq<System>, k: nat, m: nat, id: AlertId)
    requires IsRun(steps, states) && k <= m <= |steps| && LeftUnknown(states[k], id)
    requires forall i :: k <= i < m ==> !Resolves(steps[i], id)
    ensures LeftUnknown(states[m], id) && CallCount(states[m].calls, id) == CallCount(states[k].calls, id)
  {
    if k < m {
      UnknownWaitsForTheOperator(steps, states, k, m - 1, id);
      UnknownWaitsOneStep(steps, states, m - 1, id);
    }
  }

  lemma UnknownWaitsOneStep(steps: seq<Step>, states: seq<System>, k: nat, id: AlertId)
    requires IsRun(steps, states) && k < |steps| && LeftUnknown(states[k], id) && !Resolves(steps[k], id)
    ensures LeftUnknown(states[k + 1], id) && CallCount(states[k + 1].calls, id) == CallCount(states[k].calls, id)
  {
    RunKeepsFence(steps, states, k);
    LeftUnknownPersists(states[k], steps[k], states[k + 1], id);
  }

  /** A sender whose process dies during the call leaves its event unknown. */
  lemma DyingSenderLeavesUnknown(s: System, p: nat, accepts: bool)
    requires FenceInv(s) && Enabled(s, SendDiesStep(p, accepts))
    ensures LeftUnknown(Next(s, SendDiesStep(p, accepts)), s.senders[p].id)
  {
    assert Fenced(ViewOf(s.box)(s.senders[p].id), s.senders[p].claim);
  }
}
