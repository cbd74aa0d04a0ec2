/** No message whose persisting call succeeded is lost, whatever the broker, the network and the consumers do. */
module RabbitTheorems {
  import opened Options
  import opened RabbitIds
  import opened RabbitSystem

  /** A stored row, or a copy the broker has promised to keep: in the queue, in a delivery, or dead-lettered. */
  ghost predicate Kept(s: Sys, id: Id) {
    id in s.rows || exists q :: Promised(s.broker, q, id)
  }

  predicate Promised(b: Broker, q: nat, id: Id) {
    q in b.copies && q in b.confirmed && q < |b.log| && Resolve(b.log[q]) == id
  }

  /** The same without publication `p` or anything older: what must hold before `p` is acknowledged. */
  ghost predicate KeptAbove(s: Sys, id: Id, p: nat) {
    id in s.rows || exists q :: q > p && Promised(s.broker, q, id)
  }

  ghost predicate BrokerOk(b: Broker) {
    && (forall p :: p in b.copies ==> p < |b.log| && b.copies[p].m == b.log[p])
    && (forall p :: p in b.confirmed ==> p < |b.log| && p !in b.lost)
    && (forall p :: p in b.copies ==> (b.copies[p].place == Dead <==> b.log[p].dead))
  }

  ghost predicate CallOk(s: Sys, call: Call) {
    && (call.pc.Waiting? ==> call.pc.p < |s.broker.log| && s.broker.log[call.pc.p] == Fresh(call.id, call.content))
    && (call.pc.Succeeded? ==> Kept(s, call.id))
  }

  ghost predicate JobOk(s: Sys, job: Job) {
    && job.p < |s.broker.log| && s.broker.log[job.p] == job.m
    && (job.pc.Awaiting? ==> job.p < job.pc.p < |s.broker.log| && s.broker.log[job.pc.p] == Republished(job.m))
    && (job.pc.Acking? ==> KeptAbove(s, Resolve(job.m), job.p))
  }

  /** A publication that is no longer stored was dropped unconfirmed, or consumed and left something younger. */
  ghost predicate ConsumedOrLost(s: Sys) {
    forall p :: 0 <= p < |s.broker.log| && p !in s.broker.copies && p !in s.broker.lost ==>
      KeptAbove(s, Resolve(s.broker.log[p]), p)
  }

  ghost predicate Inv(s: Sys) {
    && BrokerOk(s.broker) && ConsumedOrLost(s)
    && (forall c :: 0 <= c < |s.calls| ==> CallOk(s, s.calls[c]))
    && forall j :: 0 <= j < |s.jobs| ==> JobOk(s, s.jobs[j])
  }

  /** The log and the rows grow; a stored copy stays stored, is dropped unconfirmed, or is the consumed one, `gone`. */
  ghost predicate Grows(s: Sys, s': Sys, gone: Option<nat>) {
    && BrokerOk(s'.broker) && s.broker.log <= s'.broker.log
    && (forall id :: id in s.rows ==> id in s'.rows)
    && s.broker.confirmed <= s'.broker.confirmed && s.broker.lost <= s'.broker.lost
    && (forall q :: q in s.broker.copies && gone != Some(q) ==>
          q in s'.broker.copies || (q !in s.broker.confirmed && q in s'.broker.lost))
    && (forall q :: |s.broker.log| <= q < |s'.broker.log| ==> q in s'.broker.copies)
    && (gone.Some? ==> gone.value < |s.broker.log| && KeptAbove(s, Resolve(s.broker.log[gone.value]), gone.value))
  }

  lemma GrowsKept(s: Sys, s': Sys, gone: Option<nat>, id: Id)
    requires Inv(s) && Grows(s, s', gone) && Kept(s, id)
    ensures Kept(s', id)
  {
    if id !in s.rows {
      var q: nat :| Promised(s.broker, q, id);
      if gone == Some(q) {
        var q' :| q' > q && Promised(s.broker, q', id);
        assert Promised(s'.broker, q', id);
      } else {
        assert Promised(s'.broker, q, id);
      }
    }
  }

  lemma GrowsKeptAbove(s: Sys, s': Sys, gone: Option<nat>, id: Id, p: nat)
    requires Inv(s) && Grows(s, s', gone) && KeptAbove(s, id, p)
    ensures KeptAbove(s', id, p)
  {
    if id !in s.rows {
      var q :| q > p && Promised(s.broker, q, id);
      if gone == Some(q) {
        var q' :| q' > q && Promised(s.broker, q', id);
        assert Promised(s'.broker, q', id);
      } else {
        assert Promised(s'.broker, q, id);
      }
    }
  }

  lemma GrowsCall(s: Sys, s': Sys, gone: Option<nat>, call: Call)
    requires Inv(s) && Grows(s, s', gone) && CallOk(s, call)
    ensures CallOk(s', call)
  {
    if call.pc.Succeeded? {
      GrowsKept(s, s', gone, call.id);
    }
  }

  lemma GrowsJob(s: Sys, s': Sys, gone: Option<nat>, job: Job)
    requires Inv(s) && Grows(s, s', gone) && JobOk(s, job)
    ensures JobOk(s', job)
  {
    if job.pc.Acking? {
      GrowsKeptAbove(s, s', gone, Resolve(job.m), job.p);
    }
  }

  lemma GrowsConsumed(s: Sys, s': Sys, gone: Option<nat>)
    requires Inv(s) && Grows(s, s', gone)
    ensures ConsumedOrLost(s')
  {
    forall p | 0 <= p < |s'.broker.log| && p !in s'.broker.copies && p !in s'.broker.lost
      ensures KeptAbove(s', Resolve(s'.broker.log[p]), p)
    {
      assert p < |s.broker.log| && s'.broker.log[p] == s.broker.log[p];
      assert KeptAbove(s, Resolve(s.broker.log[p]), p);
      GrowsKeptAbove(s, s', gone, Resolve(s.broker.log[p]), p);
    }
  }

  /** Everything but the one call or job that moved follows from growth. */
  lemma GrowsInv(s: Sys, s': Sys, gone: Option<nat>)
    requires Inv(s) && Grows(s, s', gone)
    requires forall c :: 0 <= c < |s'.calls| ==> (c < |s.calls| && s'.calls[c] == s.calls[c]) || CallOk(s', s'.calls[c])
    requires forall j :: 0 <= j < |s'.jobs| ==> (j < |s.jobs| && s'.jobs[j] == s.jobs[j]) || JobOk(s', s'.jobs[j])
    ensures Inv(s')
  {
    GrowsConsumed(s, s', gone);
    forall c | 0 <= c < |s'.calls| ensures CallOk(s', s'.calls[c]) {
      if c < |s.calls| && s'.calls[c] == s.calls[c] {
        GrowsCall(s, s', gone, s.calls[c]);
      }
    }
    forall j | 0 <= j < |s'.jobs| ensures JobOk(s', s'.jobs[j]) {
      if j < |s.jobs| && s'.jobs[j] == s.jobs[j] {
        GrowsJob(s, s', gone, s.jobs[j]);
      }
    }
  }

  /** What the broker has confirmed is kept, with the promise itself or with whatever consuming it left. */
  lemma ConfirmedIsKept(s: Sys, p: nat)
    requires Inv(s) && p in s.broker.confirmed
    ensures Kept(s, Resolve(s.broker.log[p]))
  {
    if p in s.broker.copies {
      assert Promised(s.broker, p, Resolve(s.broker.log[p]));
    } else {
      assert KeptAbove(s, Resolve(s.broker.log[p]), p);
    }
  }

  // ----- callers -----

  lemma CallSendInv(s: Sys, c: nat, lands: bool, sent: bool)
    requires Inv(s) && c < |s.calls| && s.calls[c].pc.Sending?
    ensures Inv(CallSend(s, c, lands, sent))
  {
    GrowsInv(s, CallSend(s, c, lands, sent), None);
  }

  lemma CallHearInv(s: Sys, c: nat, ack: bool)
    requires Inv(s) && c < |s.calls| && s.calls[c].pc.Waiting?
    ensures Inv(CallHear(s, c, ack))
  {
    var s' := CallHear(s, c, ack);
    var call := s.calls[c];
    assert CallOk(s, call);
    if s'.calls[c].pc.Succeeded? {
      assert Resolve(Fresh(call.id, call.content)) == call.id;
      ConfirmedIsKept(s, call.pc.p);
      GrowsKept(s, s', None, call.id);
    }
    GrowsInv(s, s', None);
  }

  lemma CallInsertInv(s: Sys, c: nat, lands: bool, ok: bool)
    requires Inv(s) && c < |s.calls| && s.calls[c].pc.Inserting?
    ensures Inv(CallInsert(s, c, lands, ok))
  {
    GrowsInv(s, CallInsert(s, c, lands, ok), None);
  }

  lemma CallStepInv(s: Sys, l: Label)
    requires Inv(s)
    ensures Inv(CallStep(s, l))
  {
    match l
    case Persists(id, content, queue) => GrowsInv(s, CallStep(s, l), None);
    case CallSends(c, lands, sent) => if c < |s.calls| && s.calls[c].pc.Sending? { CallSendInv(s, c, lands, sent); }
    case CallHears(c, ack) => if c < |s.calls| && s.calls[c].pc.Waiting? { CallHearInv(s, c, ack); }
    case CallInserts(c, lands, ok) => if c < |s.calls| && s.calls[c].pc.Inserting? { CallInsertInv(s, c, lands, ok); }
    case CallStops(c) => GrowsInv(s, CallStep(s, l), None);
    case _ =>
  }

  // ----- deliveries -----

  lemma HandleInv(s: Sys, j: nat, lands: bool, ok: bool)
    requires Inv(s) && j < |s.jobs| && s.jobs[j].pc.Handling?
    ensures Inv(Handle(s, j, lands, ok))
  {
    assert JobOk(s, s.jobs[j]);
    GrowsInv(s, Handle(s, j, lands, ok), None);
  }

  lemma JobSendInv(s: Sys, j: nat, lands: bool, sent: bool)
    requires Inv(s) && j < |s.jobs| && s.jobs[j].pc.Resending?
    ensures Inv(JobSend(s, j, lands, sent))
  {
    assert JobOk(s, s.jobs[j]);
    GrowsInv(s, JobSend(s, j, lands, sent), None);
  }

  /**
   A confirmed republication makes it safe to acknowledge the original: it has the same identity and a later
   number, or it was consumed already and left the message in an even later copy or a row.
   */
  lemma JobHearInv(s: Sys, j: nat, ack: bool)
    requires Inv(s) && j < |s.jobs| && s.jobs[j].pc.Awaiting?
    ensures Inv(JobHear(s, j, ack))
  {
    var s' := JobHear(s, j, ack);
    var job := s.jobs[j];
    assert JobOk(s, job);
    if s'.jobs[j].pc.Acking? {
      RepublishingKeepsIdentity(job.m, 1);
      assert Resolve(Republished(job.m)) == Resolve(job.m);
      var p := job.pc.p;
      if p in s.broker.copies {
        assert Promised(s.broker, p, Resolve(job.m));
      } else {
        assert KeptAbove(s, Resolve(job.m), p);
      }
      assert KeptAbove(s, Resolve(job.m), job.p);
      GrowsKeptAbove(s, s', None, Resolve(job.m), job.p);
    }
    GrowsInv(s, s', None);
  }

  lemma SettleInv(s: Sys, j: nat, lands: bool)
    requires Inv(s) && j < |s.jobs|
    ensures Inv(Settle(s, j, lands))
  {
    var s' := Settle(s, j, lands);
    var job := s.jobs[j];
    assert JobOk(s, job);
    if job.pc.Acking? && lands && job.p in s.broker.copies && s.broker.copies[job.p].place == Held(j) {
      GrowsInv(s, s', Some(job.p));
    } else {
      GrowsInv(s, s', None);
    }
  }

  lemma JobStepInv(s: Sys, l: Label)
    requires Inv(s)
    ensures Inv(JobStep(s, l))
  {
    match l
    case Handles(j, lands, ok) => if j < |s.jobs| && s.jobs[j].pc.Handling? { HandleInv(s, j, lands, ok); }
    case JobSends(j, lands, sent) => if j < |s.jobs| && s.jobs[j].pc.Resending? { JobSendInv(s, j, lands, sent); }
    case JobHears(j, ack) => if j < |s.jobs| && s.jobs[j].pc.Awaiting? { JobHearInv(s, j, ack); }
    case Settles(j, lands) => if j < |s.jobs| { SettleInv(s, j, lands); }
    case JobStops(j) =>
      if j < |s.jobs| {
        assert JobOk(s, s.jobs[j]);
        GrowsInv(s, JobStep(s, l), None);
      }
    case _ =>
  }

  // ----- the broker -----

  lemma BrokerStepInv(s: Sys, l: Label)
    requires Inv(s)
    ensures Inv(BrokerStep(s, l))
  {
    match l
    case Injects(m) => InjectInv(s, m);
    case Delivers(p) => DeliverInv(s, p);
    case Redelivers(p) => RedeliverInv(s, p);
    case Confirms(p) => ConfirmInv(s, p);
    case Loses(p) => LoseInv(s, p);
    case _ =>
  }

  lemma InjectInv(s: Sys, m: Publication)
    requires Inv(s)
    ensures Inv(BrokerStep(s, Injects(m)))
  {
    GrowsInv(s, BrokerStep(s, Injects(m)), None);
  }

  lemma DeliverInv(s: Sys, p: nat)
    requires Inv(s)
    ensures Inv(BrokerStep(s, Delivers(p)))
  {
    GrowsInv(s, BrokerStep(s, Delivers(p)), None);
  }

  lemma RedeliverInv(s: Sys, p: nat)
    requires Inv(s)
    ensures Inv(BrokerStep(s, Redelivers(p)))
  {
    GrowsInv(s, BrokerStep(s, Redelivers(p)), None);
  }

  lemma ConfirmInv(s: Sys, p: nat)
    requires Inv(s)
    ensures Inv(BrokerStep(s, Confirms(p)))
  {
    GrowsInv(s, BrokerStep(s, Confirms(p)), None);
  }

  lemma LoseInv(s: Sys, p: nat)
    requires Inv(s)
    ensures Inv(BrokerStep(s, Loses(p)))
  {
    GrowsInv(s, BrokerStep(s, Loses(p)), None);
  }

  lemma StepInv(s: Sys, l: Label)
    requires Inv(s)
    ensures Inv(Step(s, l))
  {
    CallStepInv(s, l);
    JobStepInv(s, l);
    BrokerStepInv(s, l);
  }

  lemma {:induction false} ExecInv(s: Sys, labels: seq<Label>)
    requires Inv(s)
    ensures Inv(Exec(s, labels))
    decreases |labels|
  {
    if labels != [] {
      ExecInv(s, labels[..|labels| - 1]);
      StepInv(Exec(s, labels[..|labels| - 1]), labels[|labels| - 1]);
    }
  }

  /**
   Once a persisting call has reported success, its message is at every later moment a row in MySQL or a
   copy the broker has promised to keep: queued, delivered but unacknowledged, or dead-lettered.
   */
  lemma NeverLost(s: Sys, c: nat)
    requires Reachable(s) && c < |s.calls| && s.calls[c].pc.Succeeded?
    ensures Kept(s, s.calls[c].id)
  {
    var labels :| s == Exec(Empty, labels);
    ExecInv(Empty, labels);
    assert CallOk(s, s.calls[c]);
  }

  // ----- one row, one content -----

  /** A publication some producer made: the first one of a call, or one from outside. */
  ghost predicate Root(s: Sys, m: Publication) {
    m in s.injected || exists c :: 0 <= c < |s.calls| && m == Fresh(s.calls[c].id, s.calls[c].content)
  }

  /** Publication `p` is the `n`-th republication of a root. */
  ghost predicate Descends(s: Sys, m: Publication, root: Publication, n: nat) {
    Root(s, root) && !root.dead && m == AfterFailures(root, n)
  }

  ghost predicate Lineage(s: Sys, m: Publication) {
    exists root, n: nat :: Descends(s, m, root, n)
  }

  /** The row says what a root with this identity says. */
  ghost predicate SaidBy(root: Publication, id: Id, content: Content) {
    Resolve(root) == id && root.body.Payload? && root.body.content == content
  }

  ghost predicate Said(s: Sys, id: Id, content: Content) {
    exists root :: Root(s, root) && SaidBy(root, id, content)
  }

  ghost predicate OriginInv(s: Sys) {
    && (forall p :: 0 <= p < |s.broker.log| ==> Lineage(s, s.broker.log[p]))
    && (forall j :: 0 <= j < |s.jobs| ==> Lineage(s, s.jobs[j].m))
    && forall id :: id in s.rows ==> Said(s, id, s.rows[id])
  }

  /** Producers are only ever added. */
  ghost predicate MoreRoots(s: Sys, s': Sys) {
    && s.injected <= s'.injected && |s.calls| <= |s'.calls|
    && forall c :: 0 <= c < |s.calls| ==> s'.calls[c].id == s.calls[c].id && s'.calls[c].content == s.calls[c].content
  }

  lemma RootLater(s: Sys, s': Sys, m: Publication)
    requires MoreRoots(s, s') && Root(s, m)
    ensures Root(s', m)
  {
    if m !in s.injected {
      var c :| 0 <= c < |s.calls| && m == Fresh(s.calls[c].id, s.calls[c].content);
      assert m == Fresh(s'.calls[c].id, s'.calls[c].content);
    }
  }

  lemma LineageLater(s: Sys, s': Sys, m: Publication)
    requires MoreRoots(s, s') && Lineage(s, m)
    ensures Lineage(s', m)
  {
    var root, n: nat :| Descends(s, m, root, n);
    RootLater(s, s', root);
    assert Descends(s', m, root, n);
  }

  lemma SaidLater(s: Sys, s': Sys, id: Id, content: Content)
    requires MoreRoots(s, s') && Said(s, id, content)
    ensures Said(s', id, content)
  {
    var root :| Root(s, root) && SaidBy(root, id, content);
    RootLater(s, s', root);
  }

  lemma RepublishedLineage(s: Sys, m: Publication)
    requires Lineage(s, m)
    ensures Lineage(s, Republished(m))
  {
    var root, n: nat :| Descends(s, m, root, n);
    assert Descends(s, Republished(m), root, n + 1);
  }

  lemma RootLineage(s: Sys, m: Publication)
    requires Root(s, m) && !m.dead
    ensures Lineage(s, m)
  {
    assert Descends(s, m, m, 0);
  }

  lemma LineageSays(s: Sys, m: Publication)
    requires Lineage(s, m) && m.body.Payload?
    ensures Said(s, Resolve(m), m.body.content)
  {
    var root, n: nat :| Descends(s, m, root, n);
    RepublishingKeepsIdentity(root, n);
    assert SaidBy(root, Resolve(m), m.body.content);
  }

  lemma OriginLater(s: Sys, s': Sys)
    requires OriginInv(s) && MoreRoots(s, s') && s.broker.log <= s'.broker.log
    requires forall p :: |s.broker.log| <= p < |s'.broker.log| ==> Lineage(s', s'.broker.log[p])
    requires forall j :: 0 <= j < |s'.jobs| ==> (j < |s.jobs| && s'.jobs[j].m == s.jobs[j].m) || s'.jobs[j].m in s.broker.log
    requires forall id :: id in s'.rows ==> (id in s.rows && s'.rows[id] == s.rows[id]) || Said(s', id, s'.rows[id])
    ensures OriginInv(s')
  {
    forall p | 0 <= p < |s'.broker.log| ensures Lineage(s', s'.broker.log[p]) {
      if p < |s.broker.log| {
        LineageLater(s, s', s.broker.log[p]);
      }
    }
    forall j | 0 <= j < |s'.jobs| ensures Lineage(s', s'.jobs[j].m) {
      LineageLater(s, s', s'.jobs[j].m);
    }
    forall id | id in s'.rows ensures Said(s', id, s'.rows[id]) {
      if id in s.rows && s'.rows[id] == s.rows[id] {
        SaidLater(s, s', id, s.rows[id]);
      }
    }
  }

  lemma CallOrigin(s: Sys, l: Label)
    requires OriginInv(s)
    ensures OriginInv(CallStep(s, l))
  {
    var s' := CallStep(s, l);
    if (l.CallSends? || l.CallInserts?) && l.call < |s.calls| {
      assert Fresh(s.calls[l.call].id, s.calls[l.call].content) == Fresh(s'.calls[l.call].id, s'.calls[l.call].content);
      CallSays(s', l.call);
    }
    OriginLater(s, s');
  }

  /** A call stands behind its first publication and behind the content of its row. */
  lemma CallSays(s: Sys, c: nat)
    requires c < |s.calls|
    ensures Lineage(s, Fresh(s.calls[c].id, s.calls[c].content)) && Said(s, s.calls[c].id, s.calls[c].content)
  {
    var first := Fresh(s.calls[c].id, s.calls[c].content);
    assert Root(s, first);
    RootLineage(s, first);
    assert SaidBy(first, s.calls[c].id, s.calls[c].content);
  }

  lemma JobSendOrigin(s: Sys, j: nat, lands: bool, sent: bool)
    requires OriginInv(s)
    ensures OriginInv(JobStep(s, JobSends(j, lands, sent)))
  {
    var s' := JobStep(s, JobSends(j, lands, sent));
    if j < |s.jobs| {
      RepublishedLineage(s, s.jobs[j].m);
      LineageLater(s, s', Republished(s.jobs[j].m));
    }
    OriginLater(s, s');
  }

  lemma HandleOrigin(s: Sys, j: nat, lands: bool, ok: bool)
    requires OriginInv(s)
    ensures OriginInv(JobStep(s, Handles(j, lands, ok)))
  {
    var s' := JobStep(s, Handles(j, lands, ok));
    if j < |s.jobs| && s.jobs[j].m.body.Payload? {
      LineageSays(s, s.jobs[j].m);
      SaidLater(s, s', Resolve(s.jobs[j].m), s.jobs[j].m.body.content);
    }
    OriginLater(s, s');
  }

  lemma JobOrigin(s: Sys, l: Label)
    requires OriginInv(s)
    ensures OriginInv(JobStep(s, l))
  {
    match l
    case JobSends(j, lands, sent) => JobSendOrigin(s, j, lands, sent);
    case Handles(j, lands, ok) => HandleOrigin(s, j, lands, ok);
    case _ =>
      JobWritesNothing(s, l);
      OriginLater(s, JobStep(s, l));
  }

  /** Hearing an answer, settling a delivery and a crash publish nothing and store nothing. */
  lemma JobWritesNothing(s: Sys, l: Label)
    requires !l.JobSends? && !l.Handles?
    ensures var s' := JobStep(s, l);
            && s'.broker.log == s.broker.log && s'.rows == s.rows && s'.calls == s.calls && s'.injected == s.injected
            && |s'.jobs| == |s.jobs| && forall j :: 0 <= j < |s.jobs| ==> s'.jobs[j].m == s.jobs[j].m
  {
  }

  lemma BrokerOrigin(s: Sys, l: Label)
    requires OriginInv(s) && BrokerOk(s.broker)
    ensures OriginInv(BrokerStep(s, l))
  {
    var s' := BrokerStep(s, l);
    if l.Injects? && !l.m.dead {
      RootLineage(s', l.m);
    } else if l.Delivers? && QueuedAt(s.broker, l.p) {
      assert s.broker.copies[l.p].m == s.broker.log[l.p];
    }
    OriginLater(s, s');
  }

  lemma {:induction false} ExecOrigin(s: Sys, labels: seq<Label>)
    requires Inv(s) && OriginInv(s)
    ensures OriginInv(Exec(s, labels))
    decreases |labels|
  {
    if labels != [] {
      var before := Exec(s, labels[..|labels| - 1]);
      ExecOrigin(s, labels[..|labels| - 1]);
      ExecInv(s, labels[..|labels| - 1]);
      CallOrigin(before, labels[|labels| - 1]);
      JobOrigin(before, labels[|labels| - 1]);
      BrokerOrigin(before, labels[|labels| - 1]);
    }
  }

  /** If everyone who ever used an identifier meant the same content, the one row under it has that content. */
  lemma OneRowPerMessage(s: Sys, id: Id, content: Content)
    requires Reachable(s) && id in s.rows
    requires forall root :: Root(s, root) && Resolve(root) == id && root.body.Payload? ==> root.body.content == content
    ensures s.rows[id] == content
  {
    var labels :| s == Exec(Empty, labels);
    ExecOrigin(Empty, labels);
    var root :| Root(s, root) && SaidBy(root, id, s.rows[id]);
  }

  /** Rows keep their content, and confirmed dead letters their place. */
  ghost predicate Settled(s: Sys, s': Sys) {
    && (forall id :: id in s.rows ==> id in s'.rows && s'.rows[id] == s.rows[id])
    && forall p :: DeadLetter(s.broker, p) ==> DeadLetter(s'.broker, p) && s'.broker.copies[p].m == s.broker.copies[p].m
  }

  predicate DeadLetter(b: Broker, p: nat) {
    p in b.copies && b.copies[p].place == Dead && p in b.confirmed
  }

  lemma CallSettled(s: Sys, l: Label)
    requires Inv(s)
    ensures Settled(s, CallStep(s, l))
  {
  }

  lemma JobSettled(s: Sys, l: Label)
    requires Inv(s)
    ensures Settled(s, JobStep(s, l))
  {
  }

  lemma BrokerSettled(s: Sys, l: Label)
    requires Inv(s)
    ensures Settled(s, BrokerStep(s, l))
  {
  }

  lemma {:induction false} ExecSettled(s: Sys, labels: seq<Label>)
    requires Inv(s)
    ensures Settled(s, Exec(s, labels))
    decreases |labels|
  {
    if labels != [] {
      ExecSettled(s, labels[..|labels| - 1]);
      ExecInv(s, labels[..|labels| - 1]);
      var mid := Exec(s, labels[..|labels| - 1]);
      CallSettled(mid, labels[|labels| - 1]);
      JobSettled(mid, labels[|labels| - 1]);
      BrokerSettled(mid, labels[|labels| - 1]);
    }
  }

  /** A row, once written, is never changed by a duplicate, and a confirmed dead letter stays where it is. */
  lemma RowsAndDeadLettersStay(s: Sys, labels: seq<Label>)
    requires Reachable(s)
    ensures Settled(s, Exec(s, labels))
  {
    var first :| s == Exec(Empty, first);
    ExecInv(Empty, first);
    ExecSettled(s, labels);
  }

  /**
   A copy of a persisted message is a dead letter exactly when it is past its third republication. Every republication
   stands for a failed handling; a delivery that was requeued unhandled leaves the copy as it was and is not counted.
   */
  lemma RetriesAreBounded(s: Sys, p: nat, id: Id, content: Content, n: nat)
    requires Reachable(s) && p < |s.broker.log| && s.broker.log[p] == AfterFailures(Fresh(id, content), n)
    requires p in s.broker.copies
    ensures s.broker.copies[p].place == Dead <==> n > MAX_RETRIES
  {
    var labels :| s == Exec(Empty, labels);
    ExecInv(Empty, labels);
    DeadLetterAfterFour(id, content, n);
  }

  /** No copy of a readable message is ever stuck outside the dead letters: a delivery can still store it. */
  lemma CopyCanBeStored(s: Sys, p: nat) returns (labels: seq<Label>)
    requires Reachable(s) && p in s.broker.copies && s.broker.copies[p].place != Dead && s.broker.copies[p].m.body.Payload?
    ensures Resolve(s.broker.copies[p].m) in Exec(s, labels).rows
  {
    var j := |s.jobs|;
    var queued := Step(s, Redelivers(p));
    assert QueuedAt(queued.broker, p) && queued.broker.copies[p].m == s.broker.copies[p].m;
    var held := Step(queued, Delivers(p));
    assert held.jobs[j] == Job(p, s.broker.copies[p].m, Handling);
    labels := [Redelivers(p), Delivers(p), Handles(j, true, true)];
    assert labels[..2] == [Redelivers(p), Delivers(p)];
    assert labels[..2][..1] == [Redelivers(p)] && labels[..2][..1][..0] == [];
    assert Exec(s, labels[..2][..1]) == queued;
    assert Exec(s, labels[..2]) == held;
    assert Exec(s, labels) == Step(held, Handles(j, true, true));
  }
}
