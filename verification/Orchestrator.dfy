/** The saga orchestrator over any list of steps: forward, back, and its log. */
module Orchestrator {

  // Run forward, on the first failure compensate the completed steps last-in first-out, and write a log
  // row at every transition.

  import opened Options

  /** The world after a call, and the error it returned, if any. Calls may do anything to the world:
      an error may come before or after an effect. */
  datatype Outcome<W> = Outcome(world: W, err: Option<string>)

  datatype Step<!W> = Step(name: string, execute: W -> Outcome<W>, compensate: W -> Outcome<W>)

  datatype Status = STARTED | STEP_DONE | COMPLETED | COMPENSATING | FAILED

  datatype Row = Row(status: Status, step: string, errors: seq<string>)

  datatype Call = Execute(index: nat) | Compensate(index: nat)

  /** done steps completed; if step number done failed, err is its error and before the world it was
      called in. */
  datatype Progress<W> = Progress(world: W, done: nat, err: Option<string>, before: W)

  /** Executing steps i, i+1, ... up to the first failure. */
  function Forward<W>(steps: seq<Step<W>>, i: nat, world: W): (p: Progress<W>)
    requires i <= |steps|
    ensures i <= p.done <= |steps| && (p.err.None? <==> p.done == |steps|)
    decreases |steps| - i
  {
    if i == |steps| then Progress(world, i, None, world)
    else
      var o := steps[i].execute(world);
      if o.err.Some? then Progress(o.world, i, o.err, world) else Forward(steps, i + 1, o.world)
  }

  /** Compensating steps k-1, ..., j, whatever each compensation answers. */
  function Backward<W>(steps: seq<Step<W>>, k: nat, j: nat, world: W): W
    requires j <= k <= |steps|
    decreases k - j
  {
    if j == k then world else steps[j].compensate(Backward(steps, k, j + 1, world)).world
  }

  /** Whether all compensations of that rollback succeed. */
  predicate BackwardOk<W>(steps: seq<Step<W>>, k: nat, j: nat, world: W)
    requires j <= k <= |steps|
    decreases k - j
  {
    j < k ==> BackwardOk(steps, k, j + 1, world) && steps[j].compensate(Backward(steps, k, j + 1, world)).err.None?
  }

  /** The world a saga ends in. */
  function Final<W>(steps: seq<Step<W>>, world: W): W {
    var p := Forward(steps, 0, world);
    if p.err.None? then p.world else Backward(steps, p.done, 0, p.world)
  }

  /** Executing steps 0, ..., k-1. */
  function Executes(k: nat): (r: seq<Call>)
    ensures |r| == k && forall i :: 0 <= i < k ==> r[i] == Execute(i)
  {
    if k == 0 then [] else Executes(k - 1) + [Execute(k - 1)]
  }

  /** Compensating steps k-1, ..., j. */
  function Undoes(k: nat, j: nat): (r: seq<Call>)
    requires j <= k
    ensures |r| == k - j && forall i :: 0 <= i < k - j ==> r[i] == Compensate(k - 1 - i)
    decreases k - j
  {
    if j == k then [] else Undoes(k, j + 1) + [Compensate(j)]
  }

  // The log

  /** Where a saga is between two log rows or calls. In Undoing, steps j, ..., i-1 are compensated. */
  datatype Point =
    | Begin | Ready(i: nat) | Executed(i: nat) | Broken(i: nat)
    | Undoing(i: nat, j: nat) | Succeeded | Failed(i: nat)

  predicate Within(pt: Point, n: nat) {
    match pt
    case Begin => true
    case Ready(i) => i <= n
    case Executed(i) => i < n
    case Broken(i) => i < n
    case Undoing(i, j) => j <= i < n
    case Succeeded => true
    case Failed(i) => i < n
  }

  function DoneRows(names: seq<string>, k: nat): (rows: seq<Row>)
    requires k <= |names|
    ensures |rows| == k && forall i :: 0 <= i < k ==> rows[i] == Row(STEP_DONE, names[i], [])
  {
    if k == 0 then [] else DoneRows(names, k - 1) + [Row(STEP_DONE, names[k - 1], [])]
  }

  /** All rows handed to the log by the time a saga is at a point. */
  function RowsAt(names: seq<string>, pt: Point, err: string): seq<Row>
    requires Within(pt, |names|)
  {
    var start := [Row(STARTED, "", [])];
    match pt
    case Begin => []
    case Ready(i) => start + DoneRows(names, i)
    case Executed(i) => start + DoneRows(names, i)
    case Broken(i) => start + DoneRows(names, i)
    case Undoing(i, _) => start + DoneRows(names, i) + [Row(COMPENSATING, names[i], [err])]
    case Succeeded => start + DoneRows(names, |names|) + [Row(COMPLETED, "", [])]
    case Failed(i) => start + DoneRows(names, i) + [Row(COMPENSATING, names[i], [err]), Row(FAILED, names[i], [err])]
  }

  /** Steps executed successfully and not yet compensated. */
  function Standing(pt: Point, n: nat): nat {
    match pt
    case Begin => 0
    case Ready(i) => i
    case Executed(i) => i + 1
    case Broken(i) => i
    case Undoing(_, j) => j
    case Succeeded => n
    case Failed(_) => 0
  }

  /** Rows that survived: some Saves may have failed, the order is kept. */
  ghost predicate Subsequence<T>(a: seq<T>, b: seq<T>) {
    a == [] || (b != [] && (Subsequence(a, b[..|b| - 1])
                            || (a[|a| - 1] == b[|b| - 1] && Subsequence(a[..|a| - 1], b[..|b| - 1]))))
  }

  lemma SubsequenceGrows<T>(a: seq<T>, b: seq<T>, x: T)
    requires Subsequence(a, b)
    ensures Subsequence(a, b + [x]) && Subsequence(a + [x], b + [x])
  {
    assert (b + [x])[..|b|] == b && (a + [x])[..|a|] == a;
  }

  // Small steps

  datatype Config<W> = Config(world: W, pt: Point, err: string, rows: seq<Row>, calls: seq<Call>)

  function Names<W>(steps: seq<Step<W>>): (names: seq<string>)
    ensures |names| == |steps| && forall i :: 0 <= i < |steps| ==> names[i] == steps[i].name
  {
    seq(|steps|, i requires 0 <= i < |steps| => steps[i].name)
  }

  predicate Ended(pt: Point) {
    pt.Succeeded? || pt.Failed?
  }

  /** One call or one row. */
  function Advance<W>(steps: seq<Step<W>>, c: Config<W>): Config<W>
    requires Within(c.pt, |steps|)
  {
    match c.pt
    case Begin => c.(pt := Ready(0), rows := c.rows + [Row(STARTED, "", [])])
    case Ready(i) =>
      if i == |steps| then c.(pt := Succeeded, rows := c.rows + [Row(COMPLETED, "", [])])
      else
        var o := steps[i].execute(c.world);
        c.(world := o.world, calls := c.calls + [Execute(i)],
           pt := if o.err.None? then Executed(i) else Broken(i), err := o.err.GetOr(c.err))
    case Executed(i) => c.(pt := Ready(i + 1), rows := c.rows + [Row(STEP_DONE, steps[i].name, [])])
    case Broken(i) => c.(pt := Undoing(i, i), rows := c.rows + [Row(COMPENSATING, steps[i].name, [c.err])])
    case Undoing(i, j) =>
      if j == 0 then c.(pt := Failed(i), rows := c.rows + [Row(FAILED, steps[i].name, [c.err])])
      else
        var o := steps[j - 1].compensate(c.world);
        c.(world := o.world, calls := c.calls + [Compensate(j - 1)], pt := Undoing(i, j - 1))
    case Succeeded => c
    case Failed(_) => c
  }

  function CallsAt(pt: Point, n: nat): seq<Call>
    requires Within(pt, n)
  {
    match pt
    case Begin => []
    case Ready(i) => Executes(i)
    case Executed(i) => Executes(i + 1)
    case Broken(i) => Executes(i + 1)
    case Undoing(i, j) => Executes(i + 1) + Undoes(i, j)
    case Succeeded => Executes(n)
    case Failed(i) => Executes(i + 1) + Undoes(i, 0)
  }

  /** At every point the rows and the calls made so far are a function of the point alone. */
  ghost predicate Faithful<W>(steps: seq<Step<W>>, c: Config<W>) {
    && Within(c.pt, |steps|)
    && c.rows == RowsAt(Names(steps), c.pt, c.err)
    && c.calls == CallsAt(c.pt, |steps|)
  }

  lemma AdvanceIsFaithful<W>(steps: seq<Step<W>>, c: Config<W>)
    requires Faithful(steps, c)
    ensures Faithful(steps, Advance(steps, c))
  {
    AdvanceKeepsRows(steps, c);
    AdvanceKeepsCalls(steps, c);
    hide Advance, RowsAt, CallsAt;
  }

  lemma AdvanceKeepsRows<W>(steps: seq<Step<W>>, c: Config<W>)
    requires Within(c.pt, |steps|) && c.rows == RowsAt(Names(steps), c.pt, c.err)
    ensures var c' := Advance(steps, c); Within(c'.pt, |steps|) && c'.rows == RowsAt(Names(steps), c'.pt, c'.err)
  {
    hide Names;
    var c' := Advance(steps, c);
    if c.pt.Undoing? {
      assert c'.rows == RowsAt(Names(steps), c'.pt, c'.err);
    }
  }

  lemma AdvanceKeepsCalls<W>(steps: seq<Step<W>>, c: Config<W>)
    requires Within(c.pt, |steps|) && c.calls == CallsAt(c.pt, |steps|)
    ensures var c' := Advance(steps, c); Within(c'.pt, |steps|) && c'.calls == CallsAt(c'.pt, |steps|)
  {
    hide Names, Executes, Undoes;
    match c.pt
    case Begin => { CallsGrow(0, 0); }
    case Ready(i) => { CallsGrow(i, i); }
    case Broken(i) => { CallsGrow(i, i); }
    case Undoing(i, j) => {
      CallsGrow(i, j);
      if j > 0 { assert c.calls + [Compensate(j - 1)] == Executes(i + 1) + (Undoes(i, j) + [Compensate(j - 1)]); }
    }
    case _ => {}
  }

  lemma CallsGrow(i: nat, j: nat)
    requires j <= i
    ensures Executes(0) == [] && Undoes(i, i) == []
    ensures Executes(i) + [Execute(i)] == Executes(i + 1)
    ensures j > 0 ==> Undoes(i, j) + [Compensate(j - 1)] == Undoes(i, j - 1)
  {
  }

  /** Moves a configuration still has to make. */
  function Left(pt: Point, n: nat): nat
    requires Within(pt, n)
  {
    match pt
    case Begin => 3 * n + 4
    case Ready(i) => 2 * (n - i) + n + 3
    case Executed(i) => 2 * (n - i) + n + 2
    case Broken(i) => i + 2
    case Undoing(i, j) => j + 1
    case Succeeded => 0
    case Failed(_) => 0
  }

  function RunToEnd<W>(steps: seq<Step<W>>, c: Config<W>): (end: Config<W>)
    requires Within(c.pt, |steps|)
    ensures Ended(end.pt) && Within(end.pt, |steps|)
    decreases Left(c.pt, |steps|)
  {
    if Ended(c.pt) then c else RunToEnd(steps, Advance(steps, c))
  }

  lemma {:induction false} EndIsFaithful<W>(steps: seq<Step<W>>, c: Config<W>)
    requires Faithful(steps, c)
    ensures Faithful(steps, RunToEnd(steps, c))
    decreases Left(c.pt, |steps|)
  {
    hide RowsAt, CallsAt, Names;
    if !Ended(c.pt) {
      AdvanceIsFaithful(steps, c);
      EndIsFaithful(steps, Advance(steps, c));
    }
    hide Faithful;
  }

  lemma {:induction false} UndoingEnds<W>(steps: seq<Step<W>>, c: Config<W>, broken: W)
    requires Within(c.pt, |steps|) && c.pt.Undoing?
    requires c.world == Backward(steps, c.pt.i, c.pt.j, broken)
    ensures var end := RunToEnd(steps, c);
            end.world == Backward(steps, c.pt.i, 0, broken) && end.pt == Failed(c.pt.i) && end.err == c.err
    decreases Left(c.pt, |steps|)
  {
    if c.pt.j > 0 {
      UndoingEnds(steps, Advance(steps, c), broken);
    } else {
      assert RunToEnd(steps, c) == RunToEnd(steps, Advance(steps, c)) == Advance(steps, c);
    }
  }

  /** The small steps add up to running forward and then backward, and report the first error. */
  lemma {:induction false} SmallStepsReachFinal<W>(steps: seq<Step<W>>, c: Config<W>)
    requires Within(c.pt, |steps|) && c.pt.Ready?
    ensures var p := Forward(steps, c.pt.i, c.world);
            var end := RunToEnd(steps, c);
            && (p.err.None? ==> end.world == p.world && end.pt == Succeeded)
            && (p.err.Some? ==> end.world == Backward(steps, p.done, 0, p.world) && end.pt == Failed(p.done)
                                && end.err == p.err.value)
    decreases |steps| - c.pt.i
  {
    var c1 := Advance(steps, c);
    assert RunToEnd(steps, c) == RunToEnd(steps, c1);
    if c.pt.i < |steps| {
      var c2 := Advance(steps, c1);
      assert RunToEnd(steps, c1) == RunToEnd(steps, c2);
      if c1.pt.Executed? {
        SmallStepsReachFinal(steps, c2);
      } else {
        UndoingEnds(steps, c2, c1.world);
      }
    }
  }

  // Restoring the initial world

  /** Each step, if it succeeds where the forward run meets it, is undone by its compensation there if
      that succeeds. Nothing is asked of a step anywhere else, nor of a step that fails. */
  predicate UndoneAlong<W(==)>(steps: seq<Step<W>>, i: nat, world: W)
    requires i <= |steps|
    decreases |steps| - i
  {
    i < |steps| ==>
      var o := steps[i].execute(world);
      o.err.None? ==>
        && (steps[i].compensate(o.world).err.None? ==> steps[i].compensate(o.world).world == world)
        && UndoneAlong(steps, i + 1, o.world)
  }

  lemma {:induction false} BackwardRetraces<W>(steps: seq<Step<W>>, i: nat, world: W)
    requires i <= |steps| && UndoneAlong(steps, i, world)
    requires var p := Forward(steps, i, world);
             p.err.Some? && p.world == p.before && BackwardOk(steps, p.done, i, p.world)
    ensures var p := Forward(steps, i, world); Backward(steps, p.done, i, p.world) == world
    decreases |steps| - i
  {
    var o := steps[i].execute(world);
    if o.err.None? {
      BackwardRetraces(steps, i + 1, o.world);
    }
  }

  /** A failing saga whose compensations all succeed ends where it began if the failing step itself
      had no effect: that step is never compensated. */
  lemma LifoRestores<W>(steps: seq<Step<W>>, world: W)
    requires UndoneAlong(steps, 0, world)
    requires var p := Forward(steps, 0, world); p.err.Some? && BackwardOk(steps, p.done, 0, p.world)
    ensures var p := Forward(steps, 0, world); p.world == p.before ==> Final(steps, world) == world
  {
    var p := Forward(steps, 0, world);
    if p.world == p.before {
      BackwardRetraces(steps, 0, world);
    }
  }

  // What a log tells

  function CountDone(rows: seq<Row>): nat {
    if rows == [] then 0
    else CountDone(rows[..|rows| - 1]) + if rows[|rows| - 1].status.STEP_DONE? then 1 else 0
  }

  predicate HasStatus(rows: seq<Row>, status: Status) {
    exists i :: 0 <= i < |rows| && rows[i].status == status
  }

  lemma {:induction false} CountOfDoneRows(names: seq<string>, k: nat)
    requires k <= |names|
    ensures CountDone([Row(STARTED, "", [])] + DoneRows(names, k)) == k
  {
    var start := [Row(STARTED, "", [])];
    if k > 0 {
      CountOfDoneRows(names, k - 1);
      assert (start + DoneRows(names, k))[..k] == start + DoneRows(names, k - 1);
    } else {
      assert start + DoneRows(names, 0) == start;
    }
  }

  lemma CountAppend(rows: seq<Row>, r: Row)
    ensures CountDone(rows + [r]) == CountDone(rows) + if r.status.STEP_DONE? then 1 else 0
  {
    assert (rows + [r])[..|rows|] == rows;
  }

  /** The rows of any moment extend to the rows of an orderly end: all steps done and COMPLETED, or
      k < n steps done, COMPENSATING, FAILED. */
  lemma RowsAreAPrefix(names: seq<string>, pt: Point, err: string)
    requires Within(pt, |names|)
    ensures match pt
            case Broken(i) => RowsAt(names, pt, err) <= RowsAt(names, Failed(i), err)
            case Undoing(i, _) => RowsAt(names, pt, err) <= RowsAt(names, Failed(i), err)
            case Failed(i) => true
            case _ => RowsAt(names, pt, err) <= RowsAt(names, Succeeded, err)
  {
    match pt
    case Ready(i) => { DoneRowsGrow(names, i, |names|); }
    case Executed(i) => { DoneRowsGrow(names, i, |names|); }
    case _ => {}
  }

  lemma {:induction false} DoneRowsGrow(names: seq<string>, i: nat, k: nat)
    requires i <= k <= |names|
    ensures DoneRows(names, i) <= DoneRows(names, k)
  {
    if i < k { DoneRowsGrow(names, i, k - 1); }
  }

  lemma ForwardRows(names: seq<string>, pt: Point, err: string)
    requires Within(pt, |names|) && !pt.Undoing? && !pt.Failed?
    ensures var rows := RowsAt(names, pt, err);
            && CountDone(rows) <= Standing(pt, |names|) <= CountDone(rows) + 1
            && !HasStatus(rows, COMPENSATING) && !HasStatus(rows, FAILED)
  {
    hide CountDone, DoneRows;
    match pt
    case Begin => { assert CountDone([]) == 0 by { NoRows(); } }
    case Ready(i) => { CountOfDoneRows(names, i); }
    case Executed(i) => { CountOfDoneRows(names, i); }
    case Broken(i) => { CountOfDoneRows(names, i); }
    case Succeeded => {
      CountOfDoneRows(names, |names|);
      CountAppend(RowsAt(names, Ready(|names|), ""), Row(COMPLETED, "", []));
    }
  }

  lemma NoRows()
    ensures CountDone([]) == 0
  {
  }

  lemma BackwardRows(names: seq<string>, i: nat, err: string)
    requires i < |names|
    ensures var rows := RowsAt(names, Undoing(i, 0), err);
            && CountDone(rows) == i && |rows| == i + 2 && rows[i + 1] == Row(COMPENSATING, names[i], [err])
            && HasStatus(rows, COMPENSATING) && !HasStatus(rows, FAILED)
            && RowsAt(names, Failed(i), err) == rows + [Row(FAILED, names[i], [err])]
  {
    var rows := RowsAt(names, Undoing(i, 0), err);
    CountOfDoneRows(names, i);
    CountAppend(RowsAt(names, Ready(i), ""), Row(COMPENSATING, names[i], [err]));
    assert rows[i + 1].status == COMPENSATING;
  }

  /** What recovery could learn from a complete log. Without a COMPENSATING row the STEP_DONE count is
      the number of standing steps or one less; with one it is exactly the number of steps that had
      completed before the failure, an upper bound on what still stands; and the FAILED row repeats
      the errors of the COMPENSATING row, errors of compensations being lost. */
  lemma LogTells<W>(steps: seq<Step<W>>, c: Config<W>)
    requires Faithful(steps, c)
    ensures var done := CountDone(c.rows);
            && (!HasStatus(c.rows, COMPENSATING) ==> done <= Standing(c.pt, |steps|) <= done + 1)
            && (HasStatus(c.rows, COMPENSATING) ==>
                  && done < |steps| && (c.pt.Undoing? || c.pt.Failed?) && c.pt.i == done
                  && Standing(c.pt, |steps|) <= done
                  && |c.rows| > done + 1 && c.rows[done + 1] == Row(COMPENSATING, steps[done].name, [c.err]))
            && (HasStatus(c.rows, FAILED) ==>
                  |c.rows| == done + 3 && c.rows[done + 2] == c.rows[done + 1].(status := FAILED))
  {
    var names := Names(steps);
    if c.pt.Undoing? || c.pt.Failed? {
      var i := c.pt.i;
      var rows := RowsAt(names, Undoing(i, 0), c.err);
      BackwardRows(names, i, c.err);
      CountAppend(rows, Row(FAILED, names[i], [c.err]));
      assert c.pt.Undoing? ==> c.rows == rows;
      assert c.pt.Failed? ==> c.rows == rows + [Row(FAILED, names[i], [c.err])];
      assert c.rows[i + 1].status == COMPENSATING;
    } else {
      ForwardRows(names, c.pt, c.err);
    }
    hide RowsAt, CountDone;
  }

  /** Rows at two points may be equal although different steps stand. */
  lemma SameRowsDifferentStanding(names: seq<string>, i: nat, err: string)
    requires i < |names|
    ensures RowsAt(names, Ready(i), err) == RowsAt(names, Executed(i), err)
         && Standing(Ready(i), |names|) != Standing(Executed(i), |names|)
    ensures i > 0 ==>
              && RowsAt(names, Undoing(i, 0), err) == RowsAt(names, Undoing(i, i), err)
              && Standing(Undoing(i, 0), |names|) != Standing(Undoing(i, i), |names|)
  {
  }

  /** Whoever reads these rows knows which steps stand. */
  ghost predicate Telling(names: seq<string>, rows: seq<Row>) {
    forall a, e, b, e' ::
      Within(a, |names|) && Within(b, |names|) && RowsAt(names, a, e) == rows && RowsAt(names, b, e') == rows
      ==> Standing(a, |names|) == Standing(b, |names|)
  }

  /** The rows of a complete log tell which steps stand exactly when the saga had not begun, or the last
      step is done, or the rollback is over, or there was nothing to roll back. */
  lemma TellingExactly(names: seq<string>, pt: Point, err: string)
    requires Within(pt, |names|)
    ensures var rows := RowsAt(names, pt, err);
            Telling(names, rows) <==>
              || rows == []
              || (CountDone(rows) == |names| && !HasStatus(rows, COMPENSATING))
              || HasStatus(rows, FAILED)
              || (HasStatus(rows, COMPENSATING) && CountDone(rows) == 0)
  {
    hide RowsAt, CountDone, HasStatus;
    var n, rows := |names|, RowsAt(names, pt, err);
    RowsShape(names, pt, err);
    if pt.Undoing? && pt.i > 0 {
      UndoingRows(names, pt.i, pt.j, err);
      SameRowsDifferentStanding(names, pt.i, err);
      UndoingRows(names, pt.i, pt.i, err);
      assert !Telling(names, rows);
    } else if pt.Ready? && pt.i < n {
      SameRowsDifferentStanding(names, pt.i, err);
      assert !Telling(names, rows);
    } else if pt.Executed? || pt.Broken? {
      SameRowsDifferentStanding(names, pt.i, err);
      ForwardRowsAgree(names, pt.i, err);
      assert !Telling(names, rows);
    } else {
      forall a, e, b, e' | Within(a, n) && Within(b, n) && RowsAt(names, a, e) == rows && RowsAt(names, b, e') == rows
        ensures Standing(a, n) == Standing(b, n)
      {
        RowsShape(names, a, e);
        RowsShape(names, b, e');
      }
    }
  }

  lemma UndoingRows(names: seq<string>, i: nat, j: nat, err: string)
    requires j <= i < |names|
    ensures RowsAt(names, Undoing(i, j), err) == RowsAt(names, Undoing(i, 0), err)
  {
  }

  lemma ForwardRowsAgree(names: seq<string>, i: nat, err: string)
    requires i < |names|
    ensures RowsAt(names, Executed(i), err) == RowsAt(names, Ready(i), err) == RowsAt(names, Broken(i), err)
  {
  }

  /** What can be read off the rows of a point. */
  lemma RowsShape(names: seq<string>, pt: Point, err: string)
    requires Within(pt, |names|)
    ensures var rows := RowsAt(names, pt, err);
            && (rows == [] <==> pt.Begin?)
            && (HasStatus(rows, COMPENSATING) <==> pt.Undoing? || pt.Failed?)
            && (HasStatus(rows, FAILED) <==> pt.Failed?)
            && CountDone(rows) == (match pt
                                   case Begin => 0
                                   case Ready(i) => i
                                   case Executed(i) => i
                                   case Broken(i) => i
                                   case Undoing(i, _) => i
                                   case Succeeded => |names|
                                   case Failed(i) => i)
  {
    hide DoneRows, CountDone;
    match pt
    case Begin => { NoRows(); }
    case Ready(i) => { CountOfDoneRows(names, i); }
    case Executed(i) => { CountOfDoneRows(names, i); }
    case Broken(i) => { CountOfDoneRows(names, i); }
    case Succeeded => {
      CountOfDoneRows(names, |names|);
      CountAppend(RowsAt(names, Ready(|names|), ""), Row(COMPLETED, "", []));
    }
    case Undoing(i, j) => { UndoingRows(names, i, j, err); BackwardRows(names, i, err); hide RowsAt; }
    case Failed(i) => { FailedRows(names, i, err); hide RowsAt; }
  }

  lemma FailedRows(names: seq<string>, i: nat, err: string)
    requires i < |names|
    ensures var rows := RowsAt(names, Failed(i), err);
            CountDone(rows) == i && |rows| == i + 3 && HasStatus(rows, COMPENSATING) && HasStatus(rows, FAILED)
  {
    hide DoneRows, CountDone;
    BackwardRows(names, i, err);
    CountAppend(RowsAt(names, Undoing(i, 0), err), Row(FAILED, names[i], [err]));
    var rows := RowsAt(names, Failed(i), err);
    assert rows[i + 1].status == COMPENSATING && rows[i + 2].status == FAILED;
  }

  // What is left of a log tells

  predicate Distinct(names: seq<string>) {
    forall i, j :: 0 <= i < j < |names| ==> names[i] != names[j]
  }

  predicate HasRow(rows: seq<Row>, status: Status, step: string) {
    exists i :: 0 <= i < |rows| && rows[i].status == status && rows[i].step == step
  }

  /** Whoever reads these rows, of which any number may be missing, knows which steps stand. */
  ghost predicate TellingAnyway(names: seq<string>, rows: seq<Row>) {
    forall a, e, b, e' ::
      && Within(a, |names|) && Within(b, |names|)
      && Subsequence(rows, RowsAt(names, a, e)) && Subsequence(rows, RowsAt(names, b, e'))
      ==> Standing(a, |names|) == Standing(b, |names|)
  }

  lemma {:induction false} SubsequenceMember<T>(a: seq<T>, b: seq<T>, x: T)
    requires Subsequence(a, b) && x in a
    ensures x in b
  {
    var start := b[..|b| - 1];
    if Subsequence(a, start) {
      SubsequenceMember(a, start, x);
    } else if x != a[|a| - 1] {
      SubsequenceMember(a[..|a| - 1], start, x);
    }
  }

  lemma SubsequenceWithout<T>(a: seq<T>, b: seq<T>, x: T)
    requires Subsequence(a, b + [x]) && x !in a
    ensures Subsequence(a, b)
  {
    assert (b + [x])[..|b|] == b;
  }

  lemma {:induction false} SubsequenceOfMore(a: seq<Row>, names: seq<string>, i: nat, k: nat)
    requires i <= k <= |names| && Subsequence(a, RowsAt(names, Ready(i), ""))
    ensures Subsequence(a, RowsAt(names, Ready(k), ""))
    decreases k - i
  {
    if i < k {
      SubsequenceGrows(a, RowsAt(names, Ready(i), ""), Row(STEP_DONE, names[i], []));
      NextReady(names, i);
      SubsequenceOfMore(a, names, i + 1, k);
    }
  }

  lemma NextReady(names: seq<string>, i: nat)
    requires i < |names|
    ensures RowsAt(names, Ready(i + 1), "") == RowsAt(names, Ready(i), "") + [Row(STEP_DONE, names[i], [])]
  {
  }

  /** Where a saga is with this row among its rows. */
  lemma PlaceOfRow(names: seq<string>, pt: Point, err: string, r: Row)
    requires Within(pt, |names|) && r in RowsAt(names, pt, err) && Distinct(names)
    ensures r.status.FAILED? ==> pt.Failed?
    ensures r.status.COMPLETED? ==> pt.Succeeded?
    ensures r.status.COMPENSATING? ==> (pt.Undoing? || pt.Failed?) && r.step == names[pt.i]
    ensures r.status.STEP_DONE? && |names| > 0 && r.step == names[|names| - 1]
         ==> (pt.Ready? && pt.i == |names|) || pt.Succeeded?
  {
  }

  /** So the rows below place a saga, wherever it is, among those with the same steps standing. */
  lemma SurvivorsPlace(names: seq<string>, rows: seq<Row>, pt: Point, err: string)
    requires Within(pt, |names|) && Subsequence(rows, RowsAt(names, pt, err)) && Distinct(names) && |names| > 0
    ensures HasStatus(rows, FAILED) || HasRow(rows, COMPENSATING, names[0]) ==> Standing(pt, |names|) == 0
    ensures HasStatus(rows, COMPLETED) || HasRow(rows, STEP_DONE, names[|names| - 1])
         ==> Standing(pt, |names|) == |names|
  {
    hide RowsAt;
    forall r | r in rows
      ensures r.status.FAILED? ==> pt.Failed?
      ensures r.status.COMPLETED? ==> pt.Succeeded?
      ensures r.status.COMPENSATING? ==> (pt.Undoing? || pt.Failed?) && r.step == names[pt.i]
      ensures r.status.STEP_DONE? && r.step == names[|names| - 1] ==> (pt.Ready? && pt.i == |names|) || pt.Succeeded?
    {
      SubsequenceMember(rows, RowsAt(names, pt, err), r);
      PlaceOfRow(names, pt, err, r);
    }
  }

  /** Rows without those of the last step, of a rollback and of an end may be those of a saga before its
      last step and right after it. */
  lemma ForwardRowsAreVague(names: seq<string>, rows: seq<Row>, pt: Point, err: string)
    requires Within(pt, |names|) && Subsequence(rows, RowsAt(names, pt, err)) && |names| > 0
    requires !HasStatus(rows, FAILED) && !HasStatus(rows, COMPLETED) && !HasStatus(rows, COMPENSATING)
    requires !HasRow(rows, STEP_DONE, names[|names| - 1])
    ensures !TellingAnyway(names, rows)
  {
    hide RowsAt, HasStatus, Subsequence;
    var last := |names| - 1;
    var i := if pt.Begin? then 0 else if pt.Succeeded? then |names| else pt.i;
    OnlyForwardRows(names, rows, pt, err);
    if i > last {
      NextReady(names, last);
      SubsequenceWithout(rows, RowsAt(names, Ready(last), ""), Row(STEP_DONE, names[last], []));
    } else {
      SubsequenceOfMore(rows, names, i, last);
    }
    ForwardRowsAgree(names, last, "");
    hide HasRow;
    assert Standing(Ready(last), |names|) != Standing(Executed(last), |names|);
  }

  lemma OnlyForwardRows(names: seq<string>, rows: seq<Row>, pt: Point, err: string)
    requires Within(pt, |names|) && Subsequence(rows, RowsAt(names, pt, err))
    requires !HasStatus(rows, FAILED) && !HasStatus(rows, COMPLETED) && !HasStatus(rows, COMPENSATING)
    ensures var i := if pt.Begin? then 0 else if pt.Succeeded? then |names| else pt.i;
            Subsequence(rows, RowsAt(names, Ready(i), ""))
  {
    forall r | r in rows
      ensures r.status != FAILED && r.status != COMPLETED && r.status != COMPENSATING
    {
      var k :| 0 <= k < |rows| && rows[k] == r;
    }
    match pt
    case Succeeded => {
      SubsequenceWithout(rows, RowsAt(names, Ready(|names|), ""), Row(COMPLETED, "", []));
    }
    case Undoing(i, j) => {
      SubsequenceWithout(rows, RowsAt(names, Ready(i), ""), Row(COMPENSATING, names[i], [err]));
    }
    case Failed(i) => {
      BackwardRows(names, i, err);
      SubsequenceWithout(rows, RowsAt(names, Undoing(i, 0), err), Row(FAILED, names[i], [err]));
      SubsequenceWithout(rows, RowsAt(names, Ready(i), ""), Row(COMPENSATING, names[i], [err]));
    }
    case _ => {}
  }

  /** Rows of a rollback that has not ended, and had something to roll back, may be those of its
      beginning and of its end. */
  lemma BackwardRowsAreVague(names: seq<string>, rows: seq<Row>, pt: Point, err: string)
    requires Within(pt, |names|) && Subsequence(rows, RowsAt(names, pt, err)) && (pt.Undoing? || pt.Failed?) && pt.i > 0
    requires !HasStatus(rows, FAILED)
    ensures !TellingAnyway(names, rows)
  {
    var i := pt.i;
    if pt.Failed? {
      forall r | r in rows ensures r.status != FAILED { var k :| 0 <= k < |rows| && rows[k] == r; }
      BackwardRows(names, i, err);
      SubsequenceWithout(rows, RowsAt(names, Undoing(i, 0), err), Row(FAILED, names[i], [err]));
    } else {
      UndoingRows(names, i, pt.j, err);
    }
    UndoingRows(names, i, i, err);
    hide RowsAt, HasStatus;
    assert Standing(Undoing(i, 0), |names|) != Standing(Undoing(i, i), |names|);
  }

  /** Saves may fail, and any rows may be missing. What is left still tells which steps stand exactly when
      it holds the row of an end, or the last step's STEP_DONE, or a COMPENSATING row of the first step:
      then nothing had to be rolled back. */
  lemma SurvivorsTellExactly(names: seq<string>, rows: seq<Row>, pt: Point, err: string)
    requires Within(pt, |names|) && Subsequence(rows, RowsAt(names, pt, err)) && Distinct(names)
    ensures TellingAnyway(names, rows) <==>
              || |names| == 0
              || HasStatus(rows, FAILED) || HasStatus(rows, COMPLETED)
              || HasRow(rows, STEP_DONE, names[|names| - 1]) || HasRow(rows, COMPENSATING, names[0])
  {
    hide RowsAt, Subsequence, HasRow;
    var n := |names|;
    if n == 0 {
    } else if HasStatus(rows, FAILED) || HasStatus(rows, COMPLETED) || HasRow(rows, STEP_DONE, names[n - 1])
              || HasRow(rows, COMPENSATING, names[0]) {
      forall a, e, b, e' | Within(a, n) && Within(b, n)
                           && Subsequence(rows, RowsAt(names, a, e)) && Subsequence(rows, RowsAt(names, b, e'))
        ensures Standing(a, n) == Standing(b, n)
      {
        SurvivorsPlace(names, rows, a, e);
        SurvivorsPlace(names, rows, b, e');
      }
    } else if HasStatus(rows, COMPENSATING) {
      RollbackPlace(names, rows, pt, err);
      BackwardRowsAreVague(names, rows, pt, err);
    } else {
      ForwardRowsAreVague(names, rows, pt, err);
    }
  }

  lemma RollbackPlace(names: seq<string>, rows: seq<Row>, pt: Point, err: string)
    requires Within(pt, |names|) && Subsequence(rows, RowsAt(names, pt, err)) && Distinct(names) && |names| > 0
    requires HasStatus(rows, COMPENSATING)
    ensures pt.Undoing? || pt.Failed?
    ensures pt.i == 0 ==> HasRow(rows, COMPENSATING, names[0])
  {
    hide RowsAt, Subsequence;
    var k :| 0 <= k < |rows| && rows[k].status == COMPENSATING;
    SubsequenceMember(rows, RowsAt(names, pt, err), rows[k]);
    PlaceOfRow(names, pt, err, rows[k]);
  }

  // From call to call

  /** A point where the next thing to happen is a call of a step. */
  predicate AtCall(pt: Point, n: nat) {
    (pt.Ready? && pt.i < n) || (pt.Undoing? && pt.j > 0)
  }

  /** Writing rows until the next call, or the end. */
  function Settle<W>(steps: seq<Step<W>>, c: Config<W>): Config<W>
    requires Within(c.pt, |steps|)
    decreases Left(c.pt, |steps|)
  {
    if AtCall(c.pt, |steps|) || Ended(c.pt) then c else Settle(steps, Advance(steps, c))
  }

  /** Where a call leads, by whether it succeeded: on to the next step, back to the last completed
      one, or out. Failed compensations do not stop a rollback. */
  function NextCallPoint(pt: Point, n: nat, ok: bool): Point
    requires AtCall(pt, n) && Within(pt, n)
  {
    match pt
    case Ready(i) =>
      if ok then (if i + 1 == n then Succeeded else Ready(i + 1))
      else if i == 0 then Failed(0) else Undoing(i, i)
    case Undoing(i, j) => if j == 1 then Failed(i) else Undoing(i, j - 1)
  }

  lemma NextCallIsSettled<W>(steps: seq<Step<W>>, c: Config<W>)
    requires Within(c.pt, |steps|) && AtCall(c.pt, |steps|)
    ensures var ok := c.pt.Ready? ==> steps[c.pt.i].execute(c.world).err.None?;
            Settle(steps, Advance(steps, c)).pt == NextCallPoint(c.pt, |steps|, ok)
  {
    var c1 := Advance(steps, c);
    if c.pt.Ready? {
      var c2 := Advance(steps, c1);
      assert Settle(steps, c1) == Settle(steps, c2);
      if !AtCall(c2.pt, |steps|) {
        assert Settle(steps, c2) == Settle(steps, Advance(steps, c2));
      }
    } else if c.pt.j == 1 {
      assert Settle(steps, c1) == Settle(steps, Advance(steps, c1));
    }
  }
}
