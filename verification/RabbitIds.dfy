/** Messages on the wire and the one identifier every copy of a message resolves to. */
module RabbitIds {
  import opened Options

  type Content = string

  /** A canonical message identifier: a UUID, or the name-based one derived from a whole legacy payload. */
  datatype Id = Uuid(n: nat) | Derived(body: Body)

  /** `named` is the payload's own identifier when it parses as a UUID. */
  datatype Body = Payload(named: Option<Id>, content: Content) | Malformed(bytes: string)

  /** A header value as the broker returns it. */
  datatype Header = Absent | Number(value: int) | Text(parsed: Option<int>) | Unreadable

  datatype Publication = Publication(body: Body, transport: Option<Id>, retries: Header, dead: bool)

  const MAX_RETRIES := 3

  function Max(a: int, b: int): int {
    if a < b then b else a
  }

  function RetryCount(header: Header): (r: nat) {
    match header
    case Number(value) => Max(0, value)
    case Text(Some(value)) => Max(0, if value < MAX_RETRIES then value else MAX_RETRIES)
    case _ => 0
  }

  /** Payload identifier first, then the transport property, then a name derived from the payload. */
  function MessageId(named: Option<Id>, transport: Option<Id>, body: Body): Id {
    if named.Some? then named.value else if transport.Some? then transport.value else Derived(body)
  }

  function Resolve(m: Publication): Id {
    MessageId(if m.body.Payload? then m.body.named else None, m.transport, m.body)
  }

  /** What a failed delivery is republished as: one retry more, or a dead letter once the budget is spent. */
  function Republished(m: Publication): Publication {
    var count := RetryCount(m.retries);
    if count >= MAX_RETRIES then Publication(m.body, Some(Resolve(m)), m.retries, true)
    else Publication(m.body, Some(Resolve(m)), Number(count + 1), false)
  }

  /** The first publication of a message. */
  function Fresh(id: Id, content: Content): Publication {
    Publication(Payload(Some(id), content), Some(id), Absent, false)
  }

  /** A publication after `n` failed deliveries. */
  function AfterFailures(m: Publication, n: nat): Publication {
    if n == 0 then m else Republished(AfterFailures(m, n - 1))
  }

  /** Even a payload without any identifier keeps one identity through every republication. */
  lemma {:induction false} RepublishingKeepsIdentity(m: Publication, n: nat)
    ensures Resolve(AfterFailures(m, n)) == Resolve(m) && AfterFailures(m, n).body == m.body
    ensures n > 0 ==> AfterFailures(m, n).transport == Some(Resolve(m))
    ensures Resolve(m) == match m.body
                          case Payload(Some(id), _) => id
                          case _ => if m.transport.Some? then m.transport.value else Derived(m.body)
  {
    if n > 0 {
      RepublishingKeepsIdentity(m, n - 1);
    }
  }

  /** How many failures a header stands for: a number as it is, a text up to the bound, nothing below zero. */
  function FailuresIn(header: Header): int {
    match header
    case Number(value) => if value >= 0 then value else 0
    case Text(Some(value)) => if value > 3 then 3 else if value >= 0 then value else 0
    case Text(None) => 0
    case Absent => 0
    case Unreadable => 0
  }

  /**
   Whatever a publication says of its failures, it becomes a dead letter with the first republication that would make
   them more than three; the count goes up by one with every republication before that, and then stays.
   */
  lemma {:induction false} RepublishingCounts(m: Publication, n: nat)
    ensures n > 0 ==> (AfterFailures(m, n).dead <==> FailuresIn(m.retries) + n > 3)
    ensures var count := FailuresIn(m.retries);
            FailuresIn(AfterFailures(m, n).retries) == if count >= 3 then count else if count + n <= 3 then count + n else 3
  {
    if n > 0 {
      RepublishingCounts(m, n - 1);
    }
  }

  /** After `n` republications a new message is a dead letter exactly if `n` is past the bound: it is the fourth that makes it one. */
  lemma {:induction false} DeadLetterAfterFour(id: Id, content: Content, n: nat)
    ensures AfterFailures(Fresh(id, content), n).dead <==> n > 3
    ensures Fresh(id, content).transport == Some(id) && Fresh(id, content).body == Payload(Some(id), content)
    ensures RetryCount(AfterFailures(Fresh(id, content), n).retries) == if n < MAX_RETRIES then n else MAX_RETRIES
  {
    if n > 0 {
      DeadLetterAfterFour(id, content, n - 1);
    }
  }
}
