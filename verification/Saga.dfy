/** The orchestrator as the program runs it: loops over the steps, collects the completed ones, and
    hands rows to a log whose Saves may fail without anyone noticing. */
module Saga {
  import opened Options
  import opened Orchestrator

  class Saga<W> {
    const steps: seq<Step<W>>
    const logging: bool
    var world: W
    var log: seq<Row>
    ghost var offered: seq<Row>
    ghost var calls: seq<Call>

    /** The stored rows are some of those offered, in order; none without a repository. */
    ghost predicate Valid()
      reads `log, `offered
    {
      if logging then Subsequence(log, offered) else log == []
    }

    constructor (steps: seq<Step<W>>, logging: bool, world: W)
      ensures Valid() && this.steps == steps && this.world == world && log == [] && offered == [] && calls == []
    {
      this.steps, this.logging, this.world := steps, logging, world;
      log, offered, calls := [], [], [];
    }

    /** Where a saga comes to its end. */
    static function End(steps: seq<Step<W>>, world: W): (pt: Point)
      ensures Within(pt, |steps|)
    {
      var p := Forward(steps, 0, world);
      if p.err.None? then Succeeded else Failed(p.done)
    }

    method Start() returns (err: Option<string>)
      requires Valid()
      modifies this
      ensures Valid()
      ensures err == Forward(steps, 0, old(world)).err && world == Final(steps, old(world))
      ensures calls == old(calls) + CallsAt(End(steps, old(world)), |steps|)
      ensures offered == old(offered) + RowsAt(Names(steps), End(steps, old(world)), err.GetOr(""))
    {
      ghost var names := Names(steps);
      hide Valid, RowsAt, Names, Executes, Undoes, CallsAt, Forward, Backward;
      RowsGrow(offered, names, 0, "");
      AllCalls(0);
      SaveLog(STARTED, "", []);
      var completed: seq<Step<W>> := [];
      var errors: seq<string> := [];
      for i := 0 to |steps|
        invariant Valid()
        invariant completed == steps[..i] && errors == []
        invariant Forward(steps, i, world) == Forward(steps, 0, old(world))
        invariant calls == old(calls) + Executes(i)
        invariant offered == old(offered) + RowsAt(names, Ready(i), "")
      {
        ForwardUnfolds(steps, i, world);
        var o := steps[i].execute(world);
        world := o.world;
        calls := calls + [Execute(i)];
        CallsGrow(old(calls), i, |steps|);
        RowsGrow(old(offered), names, i, o.err.GetOr(""));
        if o.err.Some? {
          errors := errors + [o.err.value];
          assert errors == [o.err.value];
          SaveLog(COMPENSATING, steps[i].name, errors);
          Rollback(completed, errors, i);
          SaveLog(FAILED, steps[i].name, errors);
          return o.err;
        }
        SaveLog(STEP_DONE, steps[i].name, []);
        completed := completed + [steps[i]];
      }
      ForwardUnfolds(steps, |steps|, world);
      RowsGrow(old(offered), names, |steps|, "");
      SaveLog(COMPLETED, "", []);
      assert calls == old(calls) + CallsAt(Succeeded, |steps|) by { AllCalls(|steps|); }
      err := None;
    }

    /** The rows of neighbouring points, after whatever rows came before. */
    static lemma RowsGrow(before: seq<Row>, names: seq<string>, i: nat, err: string)
      requires i <= |names|
      ensures before + [Row(STARTED, "", [])] == before + RowsAt(names, Ready(0), "")
      ensures i < |names| ==>
        && before + RowsAt(names, Ready(i), "") + [Row(STEP_DONE, names[i], [])]
           == before + RowsAt(names, Ready(i + 1), "")
        && before + RowsAt(names, Ready(i), "") + [Row(COMPENSATING, names[i], [err])] + [Row(FAILED, names[i], [err])]
           == before + RowsAt(names, Failed(i), err)
      ensures before + RowsAt(names, Ready(|names|), "") + [Row(COMPLETED, "", [])]
           == before + RowsAt(names, Succeeded, "")
    {
    }

    static lemma CallsGrow(before: seq<Call>, i: nat, n: nat)
      requires i < n
      ensures before + Executes(i) + [Execute(i)] == before + Executes(i + 1)
      ensures before + Executes(i + 1) + Undoes(i, 0) == before + CallsAt(Failed(i), n)
    {
    }

    static lemma ForwardUnfolds(steps: seq<Step<W>>, i: nat, world: W)
      requires i <= |steps|
      ensures i == |steps| ==> Forward(steps, i, world) == Progress(world, i, None, world)
      ensures i < |steps| ==>
        var o := steps[i].execute(world);
        Forward(steps, i, world)
        == if o.err.Some? then Progress(o.world, i, o.err, world) else Forward(steps, i + 1, o.world)
    {
    }

    static lemma AllCalls(n: nat)
      ensures Executes(0) == [] && CallsAt(Succeeded, n) == Executes(n)
    {
    }

    /** Errors of compensations go into a list of this call only; k is the number of completed steps. */
    method Rollback(completed: seq<Step<W>>, errors: seq<string>, ghost k: nat)
      requires k <= |steps| && completed == steps[..k] && Valid()
      modifies this`world, this`calls
      ensures Valid()
      ensures world == Backward(steps, k, 0, old(world))
      ensures calls == old(calls) + Undoes(k, 0)
    {
      var errs := errors;
      for i := |completed| downto 0
        invariant Valid()
        invariant world == Backward(steps, k, i, old(world))
        invariant calls == old(calls) + Undoes(k, i)
      {
        var o := completed[i].compensate(world);
        world := o.world;
        calls := calls + [Compensate(i)];
        if o.err.Some? {
          errs := errs + ["compensation of " + completed[i].name + " failed: " + o.err.value];
        }
      }
    }

    method SaveLog(status: Status, step: string, errors: seq<string>)
      requires Valid()
      modifies this`log, this`offered
      ensures Valid()
      ensures offered == old(offered) + [Row(status, step, errors)]
      ensures log == old(log) || log == old(log) + [Row(status, step, errors)]
    {
      offered := offered + [Row(status, step, errors)];
      if !logging {
        return;
      }
      SubsequenceGrows(log, old(offered), Row(status, step, errors));
      if * {
        log := log + [Row(status, step, errors)];
      }
    }
  }
}
