/**
 Whole runs of a persisting call and of a delivery, from any state and through any failures: how often each tries the
 broker, what it does then, and what it leaves behind.
 */
module RabbitRuns {
  import opened Options
  import opened RabbitIds
  import opened RabbitSystem
  import opened RabbitTheorems

  /** Publications the broker has dropped did arrive: a new one is not among them. */
  ghost predicate LostArrived(s: Sys) {
    forall p :: p in s.broker.lost ==> p < |s.broker.log|
  }

  lemma {:induction false} ReachableLost(labels: seq<Label>)
    ensures LostArrived(Exec(Empty, labels))
    decreases |labels|
  {
    if labels != [] {
      var before, l := Exec(Empty, labels[..|labels| - 1]), labels[|labels| - 1];
      ReachableLost(labels[..|labels| - 1]);
      ExecInv(Empty, labels[..|labels| - 1]);
      CallLost(before, l);
      JobLost(before, l);
    }
  }

  lemma CallLost(s: Sys, l: Label)
    requires LostArrived(s)
    ensures LostArrived(CallStep(s, l))
  {
  }

  lemma JobLost(s: Sys, l: Label)
    requires LostArrived(s)
    ensures LostArrived(JobStep(s, l))
  {
  }

  /** An attempt that ends without an acknowledgement: the publication may have arrived, and may have been sent. */
  datatype Try = Try(lands: bool, sent: bool)

  function Arrivals(m: Publication, tries: seq<Try>): (r: seq<Publication>)
    ensures |r| <= |tries| && forall i :: 0 <= i < |r| ==> r[i] == m
  {
    if tries == [] then []
    else Arrivals(m, tries[..|tries| - 1]) + if tries[|tries| - 1].lands then [m] else []
  }

  // ----- a persisting call -----

  /** Only the call's own state has changed, and what arrived at the broker is `arrived`. */
  ghost predicate OnlyCall(s: Sys, s': Sys, c: nat, pc: CallPc, arrived: seq<Publication>) {
    && c < |s.calls| && s'.calls == s.calls[c := s.calls[c].(pc := pc)]
    && s'.rows == s.rows && s'.jobs == s.jobs && s'.injected == s.injected
    && s'.broker.log == s.broker.log + arrived && s'.broker.lost == s.broker.lost
  }

  /** One attempt that fails. */
  function TryCall(s: Sys, c: nat, t: Try): Sys {
    var sent := Step(s, CallSends(c, t.lands, t.sent));
    if t.lands && t.sent then Step(sent, CallHears(c, false)) else sent
  }

  function TryCalls(s: Sys, c: nat, tries: seq<Try>): Sys {
    if tries == [] then s else TryCall(TryCalls(s, c, tries[..|tries| - 1]), c, tries[|tries| - 1])
  }

  lemma TryCallMoves(s: Sys, c: nat, t: Try, n: nat)
    requires c < |s.calls| && s.calls[c].pc == Sending(n) && n < 2
    ensures OnlyCall(s, TryCall(s, c, t), c, if n == 0 then Sending(1) else Inserting,
                     if t.lands then [Fresh(s.calls[c].id, s.calls[c].content)] else [])
  {
  }

  /** A call tries the broker twice at most, and then the table. */
  lemma {:induction false} TwoAttempts(s: Sys, c: nat, tries: seq<Try>)
    requires c < |s.calls| && s.calls[c].pc == Sending(0) && |tries| <= 2
    ensures OnlyCall(s, TryCalls(s, c, tries), c, if |tries| < 2 then Sending(|tries|) else Inserting,
                     Arrivals(Fresh(s.calls[c].id, s.calls[c].content), tries))
  {
    if tries != [] {
      var n := |tries| - 1;
      TwoAttempts(s, c, tries[..n]);
      TryCallMoves(TryCalls(s, c, tries[..n]), c, tries[n], n);
    } else {
      assert s.calls[c := s.calls[c].(pc := Sending(0))] == s.calls;
    }
  }

  /** A call starts at the broker if there is a queue, else at the table. */
  lemma CallStarts(s: Sys, id: Id, content: Content, queue: bool)
    ensures var s' := Step(s, Persists(id, content, queue));
            && s'.calls == s.calls + [Call(id, content, if queue then Sending(0) else Inserting)]
            && s'.broker == s.broker && s'.rows == s.rows && s'.jobs == s.jobs
  {
  }

  /** A publication that is sent, confirmed and heard of. */
  function Publishing(s: Sys, c: nat): Sys {
    Step(Step(Step(s, CallSends(c, true, true)), Confirms(|s.broker.log|)), CallHears(c, true))
  }

  lemma PublishingMoves(s: Sys, c: nat, n: nat)
    requires c < |s.calls| && s.calls[c].pc == Sending(n) && |s.broker.log| !in s.broker.lost
    ensures var m, p, s' := Fresh(s.calls[c].id, s.calls[c].content), |s.broker.log|, Publishing(s, c);
            && OnlyCall(s, s', c, Succeeded, [m])
            && p in s'.broker.confirmed && p in s'.broker.copies && s'.broker.copies[p] == Copy(m, Queued)
  {
  }

  /**
   After fewer than two failed attempts, whatever became of them, the next one can succeed: the publication is
   confirmed, nothing is written to the table.
   */
  lemma PublishesAfterFailures(s: Sys, c: nat, tries: seq<Try>)
    requires Reachable(s) && c < |s.calls| && s.calls[c].pc == Sending(0) && |tries| < 2
    ensures var m, tried := Fresh(s.calls[c].id, s.calls[c].content), TryCalls(s, c, tries);
            var p, s' := |tried.broker.log|, Publishing(tried, c);
            && s'.calls == s.calls[c := s.calls[c].(pc := Succeeded)] && s'.rows == s.rows
            && s'.broker.log == s.broker.log + Arrivals(m, tries) + [m]
            && p in s'.broker.confirmed && p in s'.broker.copies && s'.broker.copies[p] == Copy(m, Queued)
  {
    var first :| s == Exec(Empty, first);
    ReachableLost(first);
    TwoAttempts(s, c, tries);
    var tried := TryCalls(s, c, tries);
    assert |tried.broker.log| !in tried.broker.lost;
    PublishingMoves(tried, c, |tries|);
  }

  /**
   After two failed attempts, whatever became of them, the call inserts: it succeeds if and only if the insert reports
   success, and a row that was there stays as it was.
   */
  lemma FallsBackToTable(s: Sys, c: nat, tries: seq<Try>, lands: bool, ok: bool)
    requires c < |s.calls| && s.calls[c].pc == Sending(0) && |tries| == 2
    ensures var call := s.calls[c];
            var s' := Step(TryCalls(s, c, tries), CallInserts(c, lands, ok));
            && s'.calls == s.calls[c := call.(pc := if lands && ok then Succeeded else Failed)]
            && s'.rows == (if lands && call.id !in s.rows then s.rows[call.id := call.content] else s.rows)
            && s'.broker.log == s.broker.log + Arrivals(Fresh(call.id, call.content), tries) && s'.jobs == s.jobs
  {
    TwoAttempts(s, c, tries);
  }

  // ----- a delivery -----

  ghost predicate OnlyJob(s: Sys, s': Sys, j: nat, pc: JobPc, arrived: seq<Publication>) {
    && j < |s.jobs| && s'.jobs == s.jobs[j := s.jobs[j].(pc := pc)]
    && s'.rows == s.rows && s'.calls == s.calls && s'.injected == s.injected
    && s'.broker.log == s.broker.log + arrived && s'.broker.lost == s.broker.lost
    && forall p :: p < |s.broker.log| ==>
         (p in s'.broker.copies <==> p in s.broker.copies)
         && (p in s.broker.copies ==> s'.broker.copies[p] == s.broker.copies[p])
  }

  function TryJob(s: Sys, j: nat, t: Try): Sys {
    var sent := Step(s, JobSends(j, t.lands, t.sent));
    if t.lands && t.sent then Step(sent, JobHears(j, false)) else sent
  }

  function TryJobs(s: Sys, j: nat, tries: seq<Try>): Sys {
    if tries == [] then s else TryJob(TryJobs(s, j, tries[..|tries| - 1]), j, tries[|tries| - 1])
  }

  lemma TryJobMoves(s: Sys, j: nat, t: Try, n: nat)
    requires j < |s.jobs| && s.jobs[j].pc == Resending(n) && n < 2
    ensures OnlyJob(s, TryJob(s, j, t), j, if n == 0 then Resending(1) else Returning,
                    if t.lands then [Republished(s.jobs[j].m)] else [])
  {
  }

  /** A failed delivery is republished twice at most, and then given back. */
  lemma {:induction false} TwoRepublications(s: Sys, j: nat, tries: seq<Try>)
    requires j < |s.jobs| && s.jobs[j].pc == Resending(0) && |tries| <= 2
    ensures OnlyJob(s, TryJobs(s, j, tries), j, if |tries| < 2 then Resending(|tries|) else Returning,
                    Arrivals(Republished(s.jobs[j].m), tries))
  {
    if tries != [] {
      var n := |tries| - 1;
      TwoRepublications(s, j, tries[..n]);
      TryJobMoves(TryJobs(s, j, tries[..n]), j, tries[n], n);
    } else {
      assert s.jobs[j := s.jobs[j].(pc := Resending(0))] == s.jobs;
    }
  }

  /** The job has the delivered copy in its hands. */
  predicate Holds(s: Sys, j: nat) {
    && j < |s.jobs| && s.jobs[j].p < |s.broker.log|
    && s.jobs[j].p in s.broker.copies && s.broker.copies[s.jobs[j].p].place == Held(j)
  }

  /** A delivery of a queued copy is held by a new job that starts with handling it. */
  lemma DeliveryStarts(s: Sys, p: nat)
    requires Reachable(s) && p in s.broker.copies && s.broker.copies[p].place == Queued
    ensures var s' := Step(s, Delivers(p));
            && s'.jobs == s.jobs + [Job(p, s.broker.copies[p].m, Handling)] && Holds(s', |s.jobs|)
            && s'.rows == s.rows && s'.calls == s.calls && s'.broker.log == s.broker.log
  {
    var first :| s == Exec(Empty, first);
    ExecInv(Empty, first);
  }

  /** A readable delivery whose insert reports success is acknowledged without a republication; a taken row stays. */
  lemma StoredDeliveryIsAcknowledged(s: Sys, j: nat)
    requires Holds(s, j) && s.jobs[j].pc == Handling && s.jobs[j].m.body.Payload?
    ensures var m := s.jobs[j].m;
            var s' := Step(Step(s, Handles(j, true, true)), Settles(j, true));
            && s'.rows == (if Resolve(m) in s.rows then s.rows else s.rows[Resolve(m) := m.body.content])
            && s'.broker == s.broker.(copies := s.broker.copies - {s.jobs[j].p})
            && s'.jobs == s.jobs[j := s.jobs[j].(pc := Over)] && s'.calls == s.calls
  {
    var handled := Step(s, Handles(j, true, true));
    assert handled.jobs[j].pc == Acking;
  }

  /** An unreadable delivery, or one whose insert reports an error, is to be republished; the insert may have landed. */
  lemma FailedDeliveryIsRepublished(s: Sys, j: nat, lands: bool, ok: bool)
    requires j < |s.jobs| && s.jobs[j].pc == Handling && (s.jobs[j].m.body.Payload? ==> !(lands && ok))
    ensures var m := s.jobs[j].m;
            var s' := Step(s, Handles(j, lands, ok));
            && s'.jobs == s.jobs[j := s.jobs[j].(pc := Resending(0))] && s'.broker == s.broker && s'.calls == s.calls
            && s'.rows == if m.body.Payload? && lands && Resolve(m) !in s.rows then s.rows[Resolve(m) := m.body.content] else s.rows
  {
  }

  /** A republication that is sent, confirmed and heard of, and the acknowledgement of the original. */
  function Republishing(s: Sys, j: nat): Sys {
    var confirmed := Step(Step(s, JobSends(j, true, true)), Confirms(|s.broker.log|));
    Step(Step(confirmed, JobHears(j, true)), Settles(j, true))
  }

  lemma RepublishingMoves(s: Sys, j: nat, n: nat)
    requires Holds(s, j) && s.jobs[j].pc == Resending(n) && |s.broker.log| !in s.broker.lost
    ensures var m, q, s' := Republished(s.jobs[j].m), |s.broker.log|, Republishing(s, j);
            && s'.jobs == s.jobs[j := s.jobs[j].(pc := Over)] && s'.rows == s.rows
            && s.jobs[j].p !in s'.broker.copies
            && q in s'.broker.confirmed && q in s'.broker.copies
            && s'.broker.copies[q] == Copy(m, if m.dead then Dead else Queued)
  {
    var sent := Step(s, JobSends(j, true, true));
    var confirmed := Step(sent, Confirms(|s.broker.log|));
    var heard := Step(confirmed, JobHears(j, true));
    assert heard.jobs[j].pc == Acking && Holds(heard, j);
  }

  /**
   After fewer than two failed attempts, whatever became of them, the next republication can succeed: the copy that
   was delivered goes, a confirmed one that counts one failure more takes its place.
   */
  lemma RepublishesAfterFailures(s: Sys, j: nat, tries: seq<Try>)
    requires Reachable(s) && Holds(s, j) && s.jobs[j].pc == Resending(0) && |tries| < 2
    ensures var m, tried := Republished(s.jobs[j].m), TryJobs(s, j, tries);
            var q, s' := |tried.broker.log|, Republishing(tried, j);
            && s'.jobs == s.jobs[j := s.jobs[j].(pc := Over)] && s'.rows == s.rows
            && s.jobs[j].p !in s'.broker.copies
            && q in s'.broker.confirmed && q in s'.broker.copies
            && s'.broker.copies[q] == Copy(m, if m.dead then Dead else Queued)
  {
    var first :| s == Exec(Empty, first);
    ReachableLost(first);
    TwoRepublications(s, j, tries);
    var tried := TryJobs(s, j, tries);
    assert Holds(tried, j) && |tried.broker.log| !in tried.broker.lost;
    RepublishingMoves(tried, j, |tries|);
  }

  /** After two failed attempts the delivered copy is queued again, as it was. */
  lemma GivenBackAfterTwoFailures(s: Sys, j: nat, tries: seq<Try>)
    requires Holds(s, j) && s.jobs[j].pc == Resending(0) && |tries| == 2
    ensures var p := s.jobs[j].p;
            var s' := Step(TryJobs(s, j, tries), Settles(j, true));
            && s'.jobs == s.jobs[j := s.jobs[j].(pc := Over)] && s'.rows == s.rows
            && p in s'.broker.copies && s'.broker.copies[p] == s.broker.copies[p].(place := Queued)
  {
    TwoRepublications(s, j, tries);
    assert Holds(TryJobs(s, j, tries), j);
  }
}
