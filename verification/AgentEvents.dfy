/**
 Exactly which transition is observed as which event. In particular a call leaves only while the tool's trusted policy
 is the one recorded with the step.
 */
module AgentEvents {
  import opened Options
  import opened AgentRows
  import opened AgentSystem
  import opened AgentInvariant
  import opened AgentFootprint

  /** What taking `l` must be for event `e` to be observed. */
  ghost predicate Causes(s: Sys, l: Label, e: Event) {
    match e
    case Sent(x, arguments, op, policy, live, claimAt) =>
      && l.Advances? && l.run < |s.runs| && s.runs[l.run].pc.ToolArmed? && s.runs[l.run].claimAt == claimAt
      && var pc := s.runs[l.run].pc;
         && pc.op == op && pc.snap.id == x && pc.snap.arguments == arguments && pc.snap.policy == policy
         && l.env.ready && l.env.sent && l.env.policy == live
         && live == policy && pc.snap.digest == Sha256(arguments)
    case OwnerApproved(x, digest) =>
      && l.Approves? && l.step == x && l.digest == digest && l.user == s.db.task.user && s.db.task.status == WaitingApproval
      && exists i :: 0 <= i < |s.db.steps| && s.db.steps[i].id == x && s.db.steps[i].status == StepWaiting
                     && s.db.steps[i].decision == Undecided && s.db.steps[i].digest == digest
    case OwnerRetried(x) =>
      && l.Resumes? && l.retryUnknown && l.user == s.db.task.user
      && exists i :: 0 <= i < |s.db.steps| && s.db.steps[i].id == x && s.db.steps[i].status == StepUnknown
                     && Step(s, l).db.steps[i].status == StepPending
    case PolicyReset(x) =>
      && l.Advances? && l.run < |s.runs| && s.runs[l.run].pc.PauseReview? && s.runs[l.run].pc.step == x && !l.out.Refused?
      && s.db.task.status == Running && s.db.task.runVersion == s.runs[l.run].token.version
      && s.db.task.leaseOwner == Some(s.runs[l.run].token.worker)
      && s.db.task.leaseUntil.Some? && s.db.task.leaseUntil.value > l.now
      && exists i :: 0 <= i < |s.db.steps| && s.db.steps[i].id == x && s.db.steps[i].kind == Tool
                     && s.db.steps[i].status == StepRunning
  }

  /** Nothing else is observed, and at most one event at a time. */
  ghost predicate Observed(s: Sys, l: Label) {
    && (Step(s, l).log == s.log || exists e: Event :: Step(s, l).log == s.log + [e])
    && forall e :: Step(s, l).log == s.log + [e] <==> Causes(s, l, e)
  }

  lemma OneMore(log: seq<Event>, e: Event, f: Event)
    ensures log + [e] == log + [f] <==> e == f
    ensures log + [e] != log
  {
    assert (log + [e])[|log|] == e && (log + [f])[|log|] == f;
  }

  /** A transition that logs nothing, and causes nothing. */
  lemma Silent(s: Sys, l: Label)
    requires Step(s, l).log == s.log && forall e :: !Causes(s, l, e)
    ensures Observed(s, l)
  {
    forall e ensures Step(s, l).log != s.log + [e] {
      OneMore(s.log, e, e);
    }
  }

  /** A transition that logs the one event it causes. */
  lemma Speaks(s: Sys, l: Label, f: Event)
    requires Step(s, l).log == s.log + [f] && forall e :: Causes(s, l, e) <==> e == f
    ensures Observed(s, l)
  {
    forall e ensures Step(s, l).log == s.log + [e] <==> Causes(s, l, e) {
      OneMore(s.log, f, e);
    }
  }

  lemma CallObserved(s: Sys, r: nat, now: Time, out: Outcome, env: Env)
    requires r < |s.runs| && s.runs[r].pc.ToolArmed?
    ensures Observed(s, Advances(r, now, out, env))
  {
    var l := Advances(r, now, out, env);
    var pc := s.runs[r].pc;
    CallLogs(s, r, now, out, env);
    if env.ready && env.sent && env.policy == pc.snap.policy && pc.snap.digest == Sha256(pc.snap.arguments) {
      Speaks(s, l, Sent(pc.snap.id, pc.snap.arguments, pc.op, pc.snap.policy, env.policy, s.runs[r].claimAt));
    } else {
      Silent(s, l);
    }
  }

  lemma CallLogs(s: Sys, r: nat, now: Time, out: Outcome, env: Env)
    requires r < |s.runs| && s.runs[r].pc.ToolArmed?
    ensures var pc := s.runs[r].pc;
            Step(s, Advances(r, now, out, env)).log
            == if env.ready && env.sent && env.policy == pc.snap.policy && pc.snap.digest == Sha256(pc.snap.arguments)
               then s.log + [Sent(pc.snap.id, pc.snap.arguments, pc.op, pc.snap.policy, env.policy, s.runs[r].claimAt)]
               else s.log
  {
  }

  lemma ReviewLogs(s: Sys, r: nat, now: Time, out: Outcome, env: Env)
    requires r < |s.runs| && s.runs[r].pc.PauseReview?
    ensures Step(s, Advances(r, now, out, env)).log
            == if CanPause(s.db, s.runs[r].token, now, s.runs[r].pc.step) && !out.Refused?
               then s.log + [PolicyReset(s.runs[r].pc.step)] else s.log
  {
    PauseReviewIs(s, r, now, out, env);
  }

  lemma ReviewObserved(s: Sys, r: nat, now: Time, out: Outcome, env: Env)
    requires r < |s.runs| && s.runs[r].pc.PauseReview?
    ensures Observed(s, Advances(r, now, out, env))
  {
    var l := Advances(r, now, out, env);
    ReviewLogs(s, r, now, out, env);
    if CanPause(s.db, s.runs[r].token, now, s.runs[r].pc.step) && !out.Refused? {
      Speaks(s, l, PolicyReset(s.runs[r].pc.step));
    } else {
      Silent(s, l);
    }
  }

  lemma MarkLogs(s: Sys, r: nat, now: Time, out: Outcome, env: Env)
    requires r < |s.runs| && s.runs[r].pc.ToolMark?
    ensures Step(s, Advances(r, now, out, env)).log == s.log
  {
    ToolMarkIs(s, r, now, out, env);
  }

  lemma AdvanceObserved(s: Sys, r: nat, now: Time, out: Outcome, env: Env)
    requires r < |s.runs|
    ensures Observed(s, Advances(r, now, out, env))
  {
    if s.runs[r].pc.ToolArmed? {
      CallObserved(s, r, now, out, env);
    } else if s.runs[r].pc.PauseReview? {
      ReviewObserved(s, r, now, out, env);
    } else {
      if s.runs[r].pc.ToolMark? {
        MarkLogs(s, r, now, out, env);
      } else {
        QuietAdvance(s, r, now, out, env);
      }
      Silent(s, Advances(r, now, out, env));
    }
  }

  lemma ApproveObserved(s: Sys, user: UserId, x: StepId, digest: Digest, now: Time)
    ensures Observed(s, Approves(user, x, digest, now))
  {
    var l := Approves(user, x, digest, now);
    if CanApprove(s.db, user, x, digest) {
      Speaks(s, l, OwnerApproved(x, digest));
    } else {
      Silent(s, l);
    }
  }

  lemma ResumeObserved(s: Sys, user: UserId, retryUnknown: bool, now: Time)
    requires Distinct(s.db.steps)
    ensures Observed(s, Resumes(user, retryUnknown, now))
  {
    var l := Resumes(user, retryUnknown, now);
    var target := ResumeTarget(s.db, user, retryUnknown);
    if target.Some? {
      var row := target.value;
      var k :| 0 <= k < |s.db.steps| && s.db.steps[k] == row;
      ResumeIs(s, user, retryUnknown, now);
      forall i | 0 <= i < |s.db.steps| && i != k ensures Step(s, l).db.steps[i] == s.db.steps[i] {
        DifferentRows(s.db.steps, i, k);
      }
      assert Step(s, l).db.steps[k].status == StepPending;
      if row.status == StepUnknown {
        Speaks(s, l, OwnerRetried(row.id));
      } else {
        Silent(s, l);
      }
    } else {
      assert Step(s, l) == s;
      Silent(s, l);
    }
  }

  /** Every event is observed exactly when its cause happens, and nothing else is. */
  lemma EventsExactly(s: Sys, l: Label)
    requires Distinct(s.db.steps)
    ensures Observed(s, l)
  {
    match l
    case Advances(r, now, out, env) =>
      if r < |s.runs| {
        AdvanceObserved(s, r, now, out, env);
      } else {
        Silent(s, l);
      }
    case Approves(user, x, digest, now) => ApproveObserved(s, user, x, digest, now);
    case Resumes(user, retryUnknown, now) => ResumeObserved(s, user, retryUnknown, now);
    case _ => Silent(s, l);
  }

  /** Whether every call so far was made under the policy recorded with its step. */
  ghost predicate CalledUnchanged(log: seq<Event>) {
    forall k :: 0 <= k < |log| && log[k].Sent? ==> log[k].live == log[k].policy
  }

  lemma StepUnchanged(s: Sys, l: Label)
    requires Distinct(s.db.steps) && CalledUnchanged(s.log)
    ensures CalledUnchanged(Step(s, l).log)
  {
    EventsExactly(s, l);
    if Step(s, l).log != s.log {
      var e: Event :| Step(s, l).log == s.log + [e];
      assert Causes(s, l, e);
    }
  }
}
