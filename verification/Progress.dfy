/** Every saga comes to rest: each move uses up part of a finite allowance, and none is ever stuck. */
module Progress {
  import opened Options
  import opened MapSums
  import opened Protocol
  import opened Invariants
  import Orders

  /** Moves a thread may still make: at most four forward calls, two compensations and a cancellation. */
  function Rank(p: Phase): nat {
    match p
    case CreateProbe => 12
    case CreateLock => 11
    case ReserveProbe => 10
    case ReserveLock => 9
    case ChargeProbe => 8
    case ChargeLock => 7
    case Confirm => 6
    case RefundProbe => 5
    case RefundLock => 4
    case ReleaseProbe => 3
    case ReleaseLock => 2
    case Cancel => 1
    case _ => 0
  }

  function Pending(c: Call): nat {
    if c.Hanging? then 1 else 0
  }

  function Hangings(t: Thread): nat {
    Pending(t.create) + Pending(t.reserve) + Pending(t.charge) + Pending(t.confirm)
    + Pending(t.refund) + Pending(t.release) + Pending(t.cancel)
  }

  /** Two for each move of its own, since a move may leave a call hanging; one for each hanging call. */
  function Allowance(t: Thread): nat {
    2 * Rank(t.phase) + Hangings(t)
  }

  ghost function Allowances(threads: map<string, Thread>): map<string, int> {
    map id | id in threads :: Allowance(threads[id])
  }

  ghost function Measure(w: World): int {
    Sum(Allowances(w.threads))
  }

  lemma ProceedingLowersRank(w: World, t: Thread, l: Luck)
    requires !Final(t.phase)
    ensures Rank(Proceed(w, t, l).thread.phase) < Rank(t.phase)
  {
    hide CreateFor, ReserveFor, Reply, NoReply;
  }

  /** At most one call is made in a move. */
  lemma OneCallAtMost(w: World, t: Thread, l: Luck)
    ensures Hangings(Proceed(w, t, l).thread) <= Hangings(t) + 1
  {
    hide Hangings, AfterCreate, AfterReserve, AfterCharge, AfterConfirm, AfterRefund, AfterRelease, AfterCancel;
    hide CreateFor, ReserveFor, Reply, NoReply;
    forall c: Call, info: Orders.Info
      ensures Hangings(AfterCreate(t, c, info)) <= Hangings(t) + 1
    {
      OneCall(t, c, info, t.phase);
    }
    forall c: Call
      ensures Hangings(AfterReserve(t, c)) <= Hangings(t) + 1 && Hangings(AfterCharge(t, c)) <= Hangings(t) + 1
      ensures Hangings(AfterConfirm(t, c)) <= Hangings(t) + 1 && Hangings(AfterRefund(t, c)) <= Hangings(t) + 1
      ensures Hangings(AfterRelease(t, c)) <= Hangings(t) + 1 && Hangings(AfterCancel(t, c)) <= Hangings(t) + 1
    {
      OneCall(t, c, t.order, t.phase);
    }
    forall p: Phase
      ensures Hangings(t.(phase := p)) == Hangings(t)
    {
      OneCall(t, Unsent, t.order, p);
    }
  }

  lemma OneCall(t: Thread, c: Call, info: Orders.Info, p: Phase)
    ensures Hangings(AfterCreate(t, c, info)) <= Hangings(t) + 1
    ensures Hangings(AfterReserve(t, c)) <= Hangings(t) + 1
    ensures Hangings(AfterCharge(t, c)) <= Hangings(t) + 1
    ensures Hangings(AfterConfirm(t, c)) <= Hangings(t) + 1
    ensures Hangings(AfterRefund(t, c)) <= Hangings(t) + 1
    ensures Hangings(AfterRelease(t, c)) <= Hangings(t) + 1
    ensures Hangings(AfterCancel(t, c)) <= Hangings(t) + 1
    ensures Hangings(t.(phase := p)) == Hangings(t)
  {
  }

  lemma ProceedingLowersAllowance(w: World, t: Thread, l: Luck)
    requires !Final(t.phase)
    ensures Allowance(Proceed(w, t, l).thread) < Allowance(t)
  {
    hide Proceed, Rank, Hangings;
    ProceedingLowersRank(w, t, l);
    OneCallAtMost(w, t, l);
  }

  lemma LandingLowersAllowance(w: World, t: Thread, op: Op, l: Luck)
    requires t.CallOf(op).Hanging?
    ensures Allowance(Land(w, t, op, l).thread) < Allowance(t)
  {
    hide LateEffect, CreateFor;
  }

  lemma MoveLowersMeasure(w: World, id: string, l: Luck)
    requires Enabled(w, Move(id, l))
    ensures Measure(MoveThread(w, id, l)) < Measure(w)
  {
    hide Proceed, Land, Perform, Allowance;
    var t := w.threads[id];
    var t' := Decide(w, t, l).thread;
    if l.late.Some? { LandingLowersAllowance(w, t, l.late.value, l); } else { ProceedingLowersAllowance(w, t, l); }
    PerformKeepsThreads(w, id, Decide(w, t, l).effect, l);
    assert Allowances(w.threads[id := t']) == Allowances(w.threads)[id := Allowance(t')];
    SumUpdate(Allowances(w.threads), id, Allowance(t'));
  }

  lemma SubmitRaisesMeasure(w: World, id: string, t: Thread)
    requires id !in w.threads && t == NewThread(t.key, t.customer, t.items)
    ensures Measure(Put(w, id, t)) == Measure(w) + 24
  {
    assert Allowances(w.threads[id := t]) == Allowances(w.threads)[id := 24];
    SumInsert(Allowances(w.threads), id, 24);
  }

  lemma MeasureOfRest(w: World)
    ensures 0 <= Measure(w)
    ensures Measure(w) == 0 <==> Quiescent(w)
  {
    var left := Allowances(w.threads);
    SumNonNegative(left);
    forall id | id in w.threads
      ensures AtRest(w.threads[id]) <==> left[id] == 0
    {
    }
  }

  function Moves(actions: seq<Action>): nat {
    if actions == [] then 0
    else Moves(actions[..|actions| - 1]) + if actions[|actions| - 1].Move? then 1 else 0
  }

  function Submissions(actions: seq<Action>): nat {
    if actions == [] then 0
    else Submissions(actions[..|actions| - 1]) + if actions[|actions| - 1].Submit? then 1 else 0
  }

  lemma StepMeasure(w: World, a: Action)
    requires Enabled(w, a)
    ensures a.Move? ==> Measure(Apply(w, a)) < Measure(w)
    ensures a.Submit? ==> Measure(Apply(w, a)) <= Measure(w) + 24
    ensures a.Forget? ==> Measure(Apply(w, a)) == Measure(w)
  {
    hide MoveThread, Measure;
    match a
    case Submit(id, key, customer, items) => { SubmitRaisesMeasure(w, id, NewThread(key, customer, items)); }
    case Move(id, l) => { MoveLowersMeasure(w, id, l); }
    case Forget(gone) => { ForgetKeepsMeasure(w, gone); }
  }

  lemma ForgetKeepsMeasure(w: World, gone: Caches)
    ensures Measure(Apply(w, Forget(gone))) == Measure(w)
  {
  }

  /** From any world of a run on: moves made, by sagas and by late calls, plus moves left, never exceed
      what was left at the start and twenty-four for each new submission. Cache expiry changes nothing. */
  lemma {:induction false} BoundedProgress(worlds: seq<World>, actions: seq<Action>, initial: map<string, int>, i: nat,
                                           j: nat)
    requires IsRun(worlds, actions, initial) && i <= j < |worlds|
    ensures Moves(actions[i..j]) + Measure(worlds[j]) <= Measure(worlds[i]) + 24 * Submissions(actions[i..j])
  {
    hide Apply, Measure;
    if i < j {
      BoundedProgress(worlds, actions, initial, i, j - 1);
      assert Follows(worlds[j - 1], actions[j - 1], worlds[j]);
      StepMeasure(worlds[j - 1], actions[j - 1]);
      assert actions[i..j][..j - i - 1] == actions[i..j - 1];
    }
  }

  /** While a saga is unfinished it can move, and while a call hangs it can land: with fresh UUIDs at
      hand nothing blocks them. */
  lemma NeverStuck(w: World, id: string) returns (l: Luck)
    requires id in w.threads && !AtRest(w.threads[id])
    ensures Enabled(w, Move(id, l)) && l.out.Delivered?
    ensures !Final(w.threads[id].phase) ==> l.late.None?
  {
    var t := w.threads[id];
    var uuid := LongerThanAll(w.orders.Keys);
    l := Luck(Delivered, true, true, uuid, None);
    if Final(t.phase) {
      var op :| t.CallOf(op).Hanging? by { SomeCallHangs(t); }
      l := l.(late := Some(op));
    }
  }

  lemma SomeCallHangs(t: Thread)
    requires Final(t.phase) && !AtRest(t)
    ensures exists op: Op :: t.CallOf(op).Hanging?
  {
    assert t.create == t.CallOf(Creating) && t.reserve == t.CallOf(Reserving) && t.charge == t.CallOf(Charging);
    assert t.confirm == t.CallOf(Confirming) && t.refund == t.CallOf(Refunding);
    assert t.release == t.CallOf(Releasing) && t.cancel == t.CallOf(Cancelling);
  }

  lemma {:induction false} LongerThanAll(names: set<string>) returns (name: string)
    ensures forall n :: n in names ==> |n| < |name|
    ensures name !in names
    decreases |names|
  {
    if names == {} {
      name := "";
    } else {
      var n :| n in names;
      var rest := LongerThanAll(names - {n});
      name := if |n| < |rest| then rest else n + "0";
      assert forall m :: m in names ==> m == n || m in names - {n};
    }
  }

  /** Moves in which the network delivers. */
  ghost predicate Delivering(actions: seq<Action>) {
    forall a :: a in actions ==> a.Move? && a.luck.out.Delivered?
  }

  /** From every reachable world the system can come to rest, by deliveries alone. */
  lemma {:induction false} ComesToRest(worlds: seq<World>, actions: seq<Action>, initial: map<string, int>)
    returns (worlds': seq<World>, more: seq<Action>)
    requires IsRun(worlds, actions, initial)
    ensures IsRun(worlds', actions + more, initial) && worlds <= worlds' && Delivering(more)
    ensures Quiescent(worlds'[|actions + more|])
    decreases Measure(worlds[|actions|])
  {
    hide Measure, AtRest, Apply, Enabled, Init, Follows;
    var w := worlds[|actions|];
    MeasureOfRest(w);
    if id :| id in w.threads && !AtRest(w.threads[id]) {
      hide Delivering;
      var l := NeverStuck(w, id);
      var a := Move(id, l);
      StepMeasure(w, a);
      var longer := RunGoesOn(worlds, actions, initial, a);
      MeasureOfRest(longer[|actions + [a]|]);
      var rest;
      worlds', rest := ComesToRest(longer, actions + [a], initial);
      more := [a] + rest;
      assert actions + [a] + rest == actions + more;
      assert Delivering(more) by { DeliveringGrows(a, rest); }
    } else {
      worlds', more := worlds, [];
      assert actions + more == actions;
    }
  }

  lemma DeliveringGrows(a: Action, rest: seq<Action>)
    requires a.Move? && a.luck.out.Delivered? && Delivering(rest)
    ensures Delivering([a] + rest)
  {
  }
}
