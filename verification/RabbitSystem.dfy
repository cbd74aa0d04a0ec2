/**
 The path of chat messages through the broker into MySQL: any number of persisting callers and consumer
 deliveries interleave with a broker that redelivers, loses unconfirmed copies and loses its answers.
 One transition is one broker operation or one insert.
 */
module RabbitSystem {
  import opened RabbitIds

  /** Where a copy is: in the work queue, delivered to a job and not yet acknowledged, or dead-lettered. */
  datatype Place = Queued | Held(job: nat) | Dead

  datatype Copy = Copy(m: Publication, place: Place)

  /**
   `log`: every publication that arrived, in order; `copies`: what is still stored, by position in the log;
   `confirmed`: publications the broker has acknowledged; `lost`: unacknowledged ones it dropped.
   */
  datatype Broker = Broker(log: seq<Publication>, copies: map<nat, Copy>, confirmed: set<nat>, lost: set<nat>)

  /** Publishing attempt `n`; after it was sent, waiting for the answer about publication `p`. */
  datatype CallPc = Sending(n: nat) | Waiting(n: nat, p: nat) | Inserting | Succeeded | Failed

  datatype Call = Call(id: Id, content: Content, pc: CallPc)

  /** A job handles one delivery: insert, or on failure republish; then it acknowledges or returns the original. */
  datatype JobPc = Handling | Resending(n: nat) | Awaiting(n: nat, p: nat) | Acking | Returning | Over

  datatype Job = Job(p: nat, m: Publication, pc: JobPc)

  datatype Sys = Sys(broker: Broker, rows: map<Id, Content>, calls: seq<Call>, jobs: seq<Job>, injected: seq<Publication>)

  /** `lands`: the operation takes effect; `ok`: its answer is a success. */
  datatype Label =
    | Persists(id: Id, content: Content, queue: bool)
    | Injects(m: Publication)
    | CallSends(call: nat, lands: bool, sent: bool)
    | CallHears(call: nat, ack: bool)
    | CallInserts(call: nat, lands: bool, ok: bool)
    | Delivers(p: nat)
    | Handles(job: nat, lands: bool, ok: bool)
    | JobSends(job: nat, lands: bool, sent: bool)
    | JobHears(job: nat, ack: bool)
    | Settles(job: nat, lands: bool)
    | Redelivers(p: nat)
    | Confirms(p: nat)
    | Loses(p: nat)
    | CallStops(call: nat)
    | JobStops(job: nat)

  const Empty := Sys(Broker([], map[], {}, {}), map[], [], [], [])

  const MAX_ATTEMPTS := 2

  // ----- the two stores -----

  function Accept(b: Broker, m: Publication): Broker {
    b.(copies := b.copies[|b.log| := Copy(m, if m.dead then Dead else Queued)], log := b.log + [m])
  }

  function Move(b: Broker, p: nat, place: Place): Broker {
    if p in b.copies then b.(copies := b.copies[p := b.copies[p].(place := place)]) else b
  }

  function Remove(b: Broker, p: nat): Broker {
    b.(copies := b.copies - {p})
  }

  /** Insert-or-ignore on the unique identifier: an existing row stays as it is. */
  function Insert(rows: map<Id, Content>, id: Id, content: Content): map<Id, Content> {
    if id in rows then rows else rows[id := content]
  }

  /** An acknowledgement is for a publication that arrived and was not dropped. */
  predicate MayAck(b: Broker, p: nat) {
    p in b.confirmed
  }

  // ----- callers -----

  function SetCall(s: Sys, c: nat, pc: CallPc): Sys
    requires c < |s.calls|
  {
    s.(calls := s.calls[c := s.calls[c].(pc := pc)])
  }

  function AfterSend(n: nat): CallPc {
    if n + 1 < MAX_ATTEMPTS then Sending(n + 1) else Inserting
  }

  function CallSend(s: Sys, c: nat, lands: bool, sent: bool): Sys
    requires c < |s.calls| && s.calls[c].pc.Sending?
  {
    var call := s.calls[c];
    var landed := if lands then s.(broker := Accept(s.broker, Fresh(call.id, call.content))) else s;
    SetCall(landed, c, if lands && sent then Waiting(call.pc.n, |s.broker.log|) else AfterSend(call.pc.n))
  }

  function CallHear(s: Sys, c: nat, ack: bool): Sys
    requires c < |s.calls| && s.calls[c].pc.Waiting?
  {
    var pc := s.calls[c].pc;
    SetCall(s, c, if ack && MayAck(s.broker, pc.p) then Succeeded else AfterSend(pc.n))
  }

  function CallInsert(s: Sys, c: nat, lands: bool, ok: bool): Sys
    requires c < |s.calls| && s.calls[c].pc.Inserting?
  {
    var call := s.calls[c];
    SetCall(if lands then s.(rows := Insert(s.rows, call.id, call.content)) else s, c, if lands && ok then Succeeded else Failed)
  }

  // ----- deliveries -----

  function SetJob(s: Sys, j: nat, pc: JobPc): Sys
    requires j < |s.jobs|
  {
    s.(jobs := s.jobs[j := s.jobs[j].(pc := pc)])
  }

  function AfterResend(n: nat): JobPc {
    if n + 1 < MAX_ATTEMPTS then Resending(n + 1) else Returning
  }

  /** A payload that does not decode always fails. */
  function Handle(s: Sys, j: nat, lands: bool, ok: bool): Sys
    requires j < |s.jobs| && s.jobs[j].pc.Handling?
  {
    var m := s.jobs[j].m;
    if !m.body.Payload? then SetJob(s, j, Resending(0))
    else
      SetJob(if lands then s.(rows := Insert(s.rows, Resolve(m), m.body.content)) else s, j,
             if lands && ok then Acking else Resending(0))
  }

  function JobSend(s: Sys, j: nat, lands: bool, sent: bool): Sys
    requires j < |s.jobs| && s.jobs[j].pc.Resending?
  {
    var job := s.jobs[j];
    var landed := if lands then s.(broker := Accept(s.broker, Republished(job.m))) else s;
    SetJob(landed, j, if lands && sent then Awaiting(job.pc.n, |s.broker.log|) else AfterResend(job.pc.n))
  }

  function JobHear(s: Sys, j: nat, ack: bool): Sys
    requires j < |s.jobs| && s.jobs[j].pc.Awaiting?
  {
    var pc := s.jobs[j].pc;
    SetJob(s, j, if ack && MayAck(s.broker, pc.p) then Acking else AfterResend(pc.n))
  }

  /** Acknowledging removes the copy, returning requeues it; either reaches the broker only while the job holds it. */
  function Settle(s: Sys, j: nat, lands: bool): Sys
    requires j < |s.jobs|
  {
    var job := s.jobs[j];
    var holds := job.p in s.broker.copies && s.broker.copies[job.p].place == Held(j);
    if job.pc.Acking? then
      SetJob(if lands && holds then s.(broker := Remove(s.broker, job.p)) else s, j, Over)
    else if job.pc.Returning? then
      SetJob(if lands && holds then s.(broker := Move(s.broker, job.p, Queued)) else s, j, Over)
    else s
  }

  // ----- one transition -----

  function CallStep(s: Sys, l: Label): Sys {
    match l
    case Persists(id, content, queue) => s.(calls := s.calls + [Call(id, content, if queue then Sending(0) else Inserting)])
    case CallSends(c, lands, sent) => if c < |s.calls| && s.calls[c].pc.Sending? then CallSend(s, c, lands, sent) else s
    case CallHears(c, ack) => if c < |s.calls| && s.calls[c].pc.Waiting? then CallHear(s, c, ack) else s
    case CallInserts(c, lands, ok) => if c < |s.calls| && s.calls[c].pc.Inserting? then CallInsert(s, c, lands, ok) else s
    case CallStops(c) => if c < |s.calls| && !s.calls[c].pc.Succeeded? then SetCall(s, c, Failed) else s
    case _ => s
  }

  function JobStep(s: Sys, l: Label): Sys {
    match l
    case Handles(j, lands, ok) => if j < |s.jobs| && s.jobs[j].pc.Handling? then Handle(s, j, lands, ok) else s
    case JobSends(j, lands, sent) => if j < |s.jobs| && s.jobs[j].pc.Resending? then JobSend(s, j, lands, sent) else s
    case JobHears(j, ack) => if j < |s.jobs| && s.jobs[j].pc.Awaiting? then JobHear(s, j, ack) else s
    case Settles(j, lands) => if j < |s.jobs| then Settle(s, j, lands) else s
    case JobStops(j) => if j < |s.jobs| then SetJob(s, j, Over) else s
    case _ => s
  }

  predicate QueuedAt(b: Broker, p: nat) {
    p in b.copies && b.copies[p].place == Queued
  }

  /** `Injects` is any other producer, for instance one that predates identifiers. */
  function BrokerStep(s: Sys, l: Label): Sys {
    var b := s.broker;
    match l
    case Injects(m) => if m.dead then s else s.(broker := Accept(b, m), injected := s.injected + [m])
    case Delivers(p) =>
      if !QueuedAt(b, p) then s
      else s.(broker := Move(b, p, Held(|s.jobs|)), jobs := s.jobs + [Job(p, b.copies[p].m, Handling)])
    case Redelivers(p) => if p in b.copies && b.copies[p].place.Held? then s.(broker := Move(b, p, Queued)) else s
    case Confirms(p) => if p < |b.log| && p !in b.lost then s.(broker := b.(confirmed := b.confirmed + {p})) else s
    case Loses(p) =>
      if p in b.copies && p !in b.confirmed then s.(broker := Remove(b, p).(lost := b.lost + {p})) else s
    case _ => s
  }

  function Step(s: Sys, l: Label): Sys {
    match l
    case Persists(_, _, _) | CallSends(_, _, _) | CallHears(_, _) | CallInserts(_, _, _) | CallStops(_) => CallStep(s, l)
    case Handles(_, _, _) | JobSends(_, _, _) | JobHears(_, _) | Settles(_, _) | JobStops(_) => JobStep(s, l)
    case _ => BrokerStep(s, l)
  }

  function Exec(s: Sys, labels: seq<Label>): Sys
    decreases |labels|
  {
    if labels == [] then s else Step(Exec(s, labels[..|labels| - 1]), labels[|labels| - 1])
  }

  ghost predicate Reachable(s: Sys) {
    exists labels :: s == Exec(Empty, labels)
  }
}
