/** The sagas of the whole-system model go through the orchestrator's own points: each phase is one of
    them, each move stays before the same call or goes where the orchestrator goes after it, and calls that
    land late are not seen. */
module Refinement {
  import opened Protocol
  import opened Invariants
  import Inventory
  import Payment
  import Orders
  import Orchestrator

  const STEPS: nat := 3

  /** The step whose failure stopped the saga: 0 reserve, 1 charge, 2 confirm. */
  function FailedStep(t: Thread): nat {
    if !t.reserve.Succeeded() then 0 else if !t.charge.Succeeded() then 1 else 2
  }

  function PointOf(t: Thread): Orchestrator.Point {
    match t.phase
    case CreateProbe => Orchestrator.Begin
    case CreateLock => Orchestrator.Begin
    case NotStarted => Orchestrator.Begin
    case ReserveProbe => Orchestrator.Ready(0)
    case ReserveLock => Orchestrator.Ready(0)
    case ChargeProbe => Orchestrator.Ready(1)
    case ChargeLock => Orchestrator.Ready(1)
    case Confirm => Orchestrator.Ready(2)
    case RefundProbe => Orchestrator.Undoing(2, 2)
    case RefundLock => Orchestrator.Undoing(2, 2)
    case ReleaseProbe => Orchestrator.Undoing(FailedStep(t), 1)
    case ReleaseLock => Orchestrator.Undoing(FailedStep(t), 1)
    case Cancel => Orchestrator.Failed(FailedStep(t))
    case Compensated => Orchestrator.Failed(FailedStep(t))
    case Completed => Orchestrator.Succeeded
  }

  /** The remote call made from a point: the step's own, or its compensation's. Confirm has none. */
  function CallAt(t: Thread, pt: Orchestrator.Point): Call {
    match pt
    case Ready(i) => if i == 0 then t.reserve else if i == 1 then t.charge else t.confirm
    case Undoing(_, j) => if j == 1 then t.release else t.refund
    case _ => t.cancel
  }

  ghost predicate Follows(t: Thread, t': Thread) {
    var pt := PointOf(t);
    && Orchestrator.Within(pt, STEPS) && Orchestrator.AtCall(pt, STEPS) && CallAt(t, pt).Unsent?
    && if CallAt(t', pt).Unsent? then PointOf(t') == pt && t'.phase != t.phase
       else PointOf(t') == Orchestrator.NextCallPoint(pt, STEPS, CallAt(t', pt).Succeeded())
  }

  lemma ReserveFollows(w: World, t: Thread, l: Luck)
    requires CallsFit(t) && (t.phase.ReserveProbe? || t.phase.ReserveLock?)
    ensures Follows(t, Proceed(w, t, l).thread)
    ensures !l.out.Delivered? ==> !CallAt(Proceed(w, t, l).thread, PointOf(t)).Succeeded()
  {
    hide ReserveFor;
  }

  lemma ChargeFollows(w: World, t: Thread, l: Luck)
    requires CallsFit(t) && (t.phase.ChargeProbe? || t.phase.ChargeLock?)
    ensures Follows(t, Proceed(w, t, l).thread)
    ensures !l.out.Delivered? ==> !CallAt(Proceed(w, t, l).thread, PointOf(t)).Succeeded()
  {
    hide Payment.Charge;
  }

  lemma ConfirmFollows(w: World, t: Thread, l: Luck)
    requires CallsFit(t) && t.phase.Confirm?
    ensures Follows(t, Proceed(w, t, l).thread)
    ensures !l.out.Delivered? ==> !CallAt(Proceed(w, t, l).thread, PointOf(t)).Succeeded()
  {
    hide Orders.UpdateStatus;
  }

  lemma RefundFollows(w: World, t: Thread, l: Luck)
    requires CallsFit(t) && (t.phase.RefundProbe? || t.phase.RefundLock?)
    ensures Follows(t, Proceed(w, t, l).thread)
    ensures !l.out.Delivered? ==> !CallAt(Proceed(w, t, l).thread, PointOf(t)).Succeeded()
  {
    hide Payment.Refund;
  }

  lemma ReleaseFollows(w: World, t: Thread, l: Luck)
    requires CallsFit(t) && (t.phase.ReleaseProbe? || t.phase.ReleaseLock?)
    ensures Follows(t, Proceed(w, t, l).thread)
    ensures !l.out.Delivered? ==> !CallAt(Proceed(w, t, l).thread, PointOf(t)).Succeeded()
  {
    hide Inventory.Release;
  }

  /** Every move of a running saga either stays before the same call, not yet sent (a cache miss), or
      makes that call and goes where the orchestrator goes after it; and only a reply that arrives is a
      success. */
  lemma SagaFollowsOrchestrator(w: World, t: Thread, l: Luck)
    requires CallsFit(t) && Orchestrator.AtCall(PointOf(t), STEPS)
    ensures Follows(t, Proceed(w, t, l).thread)
    ensures !l.out.Delivered? ==> !CallAt(Proceed(w, t, l).thread, PointOf(t)).Succeeded()
  {
    hide CallsFit, Proceed, Follows;
    if PointOf(t).Ready? {
      if t.phase.Confirm? { ConfirmFollows(w, t, l); }
      else if t.phase.ChargeProbe? || t.phase.ChargeLock? { ChargeFollows(w, t, l); }
      else { ReserveFollows(w, t, l); }
    } else if t.phase.RefundProbe? || t.phase.RefundLock? {
      RefundFollows(w, t, l);
    } else {
      ReleaseFollows(w, t, l);
    }
  }

  /** Late calls leave the saga where it is: nobody waits for their replies any more. */
  lemma LateCallsAreUnseen(w: World, t: Thread, op: Op, l: Luck)
    requires CallsFit(t) && t.CallOf(op).Hanging?
    ensures var t' := Land(w, t, op, l).thread;
            PointOf(t') == PointOf(t)
  {
    hide Land, CallsFit;
    LandShape(w, t, op, l);
    var t' := Land(w, t, op, l).thread;
    assert t'.reserve == t'.CallOf(Reserving) && t.reserve == t.CallOf(Reserving);
    assert t'.charge == t'.CallOf(Charging) && t.charge == t.CallOf(Charging);
  }
}
