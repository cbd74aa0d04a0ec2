/** When a tool step that has succeeded can still be called: exactly while some run stays armed for it. */
module AgentCalls {
  import opened AgentRows
  import opened AgentSystem
  import opened AgentFootprint
  import opened AgentTheorems
  import opened AgentSuccess

  /** Taking `l` sends a call of step `x`. */
  predicate Calls(s: Sys, l: Label, x: StepId) {
    var log := Step(s, l).log;
    |log| == |s.log| + 1 && log[|s.log|].Sent? && log[|s.log|].step == x
  }

  /** Run `r` has passed every database check and only has to send its call of step `x`. */
  predicate ArmedFor(s: Sys, r: nat, x: StepId) {
    && r < |s.runs| && s.runs[r].pc.ToolArmed?
    && s.runs[r].pc.snap.id == x && Sha256(s.runs[r].pc.snap.arguments) == s.runs[r].pc.snap.digest
  }

  ghost predicate SomeArmed(s: Sys, x: StepId) {
    exists r: nat :: ArmedFor(s, r, x)
  }

  /** Success is still recorded at every moment of the continuation. */
  ghost predicate StaysFinished(s: Sys, labels: seq<Label>, i: nat)
    decreases |labels|
  {
    Finished(Exec(s, labels), i) && (labels != [] ==> StaysFinished(s, labels[..|labels| - 1], i))
  }

  /** Some continuation over which the success stays recorded ends with a call of the step. */
  ghost predicate CanBeCalled(s: Sys, i: nat)
    requires i < |s.db.steps|
  {
    exists labels, l :: StaysFinished(s, labels, i) && Calls(Exec(s, labels), l, s.db.steps[i].id)
  }

  // ----- a call needs an armed run -----

  lemma OnlyArmedCalls(s: Sys, l: Label, x: StepId)
    requires Calls(s, l, x)
    ensures l.Advances? && ArmedFor(s, l.run, x)
  {
    if l.Advances? && l.run < |s.runs| {
      if s.runs[l.run].pc.ToolArmed? {
      } else if s.runs[l.run].pc.ToolMark? {
        MarkSendsNothing(s, l.run, l.now, l.out, l.env);
      } else {
        QuietAdvance(s, l.run, l.now, l.out, l.env);
      }
    }
  }

  lemma MarkSendsNothing(s: Sys, r: nat, now: Time, out: Outcome, env: Env)
    requires r < |s.runs| && s.runs[r].pc.ToolMark?
    ensures Advance(s, r, now, out, env).log == s.log
  {
    assert Advance(s, r, now, out, env) == ToolNode(s, r, now, out, env);
  }

  /** An armed run needs nothing but to go on. */
  lemma ArmedRunCalls(s: Sys, r: nat, x: StepId) returns (l: Label)
    requires ArmedFor(s, r, x)
    ensures Calls(s, l, x)
  {
    var env := Env(true, true, true, [], s.runs[r].pc.snap.policy, s.runs[r].pc.op);
    l := Advances(r, 0, Committed, env);
    assert Step(s, l) == ToolNode(s, r, 0, Committed, env);
  }

  // ----- no run is armed after the success -----

  lemma {:induction false} ReachableExec(s: Sys, labels: seq<Label>)
    requires Reachable(s)
    ensures Reachable(Exec(s, labels))
    decreases |labels|
  {
    if labels != [] {
      ReachableExec(s, labels[..|labels| - 1]);
      var mid := Exec(s, labels[..|labels| - 1]);
      var user, planId, now, first :| mid == Exec(Init(user, planId, now), first);
      assert (first + [labels[|labels| - 1]])[..|first|] == first;
      assert Exec(s, labels) == Exec(Init(user, planId, now), first + [labels[|labels| - 1]]);
    }
  }

  lemma {:induction false} ArmedBefore(s: Sys, labels: seq<Label>, i: nat, r: nat)
    requires Reachable(s) && StaysFinished(s, labels, i) && i < |s.db.steps| && ArmedFor(Exec(s, labels), r, s.db.steps[i].id)
    ensures ArmedFor(s, r, s.db.steps[i].id)
    decreases |labels|
  {
    if labels != [] {
      var before := labels[..|labels| - 1];
      var mid := Exec(s, before);
      ReachableExec(s, before);
      ReachableInv(s);
      ExecKept(s, before);
      assert SamePayload(s.db.steps[i], mid.db.steps[i]);
      NoNewCallAfterSuccess(mid, labels[|labels| - 1], i, r);
      ArmedBefore(s, before, i, r);
    }
  }

  /** While its success stays recorded, a step can be called again if and only if some run was armed for it before. */
  lemma FinishedIsCalledExactly(s: Sys, i: nat)
    requires Reachable(s) && Finished(s, i)
    ensures CanBeCalled(s, i) <==> SomeArmed(s, s.db.steps[i].id)
  {
    var x := s.db.steps[i].id;
    if SomeArmed(s, x) {
      var r: nat :| ArmedFor(s, r, x);
      var l := ArmedRunCalls(s, r, x);
      assert Exec(s, []) == s;
      assert StaysFinished(s, [], i) && Calls(Exec(s, []), l, x);
    }
    if CanBeCalled(s, i) {
      var labels, l :| StaysFinished(s, labels, i) && Calls(Exec(s, labels), l, x);
      OnlyArmedCalls(Exec(s, labels), l, x);
      ArmedBefore(s, labels, i, l.run);
    }
  }

  // ----- steps that must not be replayed -----

  lemma {:induction false} UnsafeStaysFinished(s: Sys, labels: seq<Label>, i: nat)
    requires Reachable(s) && FinishedUnsafe(s, i)
    ensures StaysFinished(s, labels, i)
    decreases |labels|
  {
    UnsafeSuccessIsFinal(s, labels, i);
    if labels != [] {
      UnsafeStaysFinished(s, labels[..|labels| - 1], i);
    }
  }

  /** Some continuation ends with a call of the step. */
  ghost predicate EverCalled(s: Sys, x: StepId) {
    exists labels, l :: Calls(Exec(s, labels), l, x)
  }

  /** A finished step that must not be replayed is ever called again if and only if a run was armed for it before. */
  lemma UnsafeSuccessIsCalledExactly(s: Sys, i: nat)
    requires Reachable(s) && FinishedUnsafe(s, i)
    ensures EverCalled(s, s.db.steps[i].id) <==> SomeArmed(s, s.db.steps[i].id)
  {
    var x := s.db.steps[i].id;
    FinishedIsCalledExactly(s, i);
    if EverCalled(s, x) {
      var labels, l :| Calls(Exec(s, labels), l, x);
      UnsafeStaysFinished(s, labels, i);
      assert CanBeCalled(s, i);
    }
    if CanBeCalled(s, i) {
      var labels, l :| StaysFinished(s, labels, i) && Calls(Exec(s, labels), l, x);
    }
  }
}
