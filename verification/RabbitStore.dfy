/** The message table, and the two procedures that move a message between it and the broker. */
module RabbitStore {
  import opened Options
  import opened RabbitIds
  import opened RabbitChannel

  /** The table after an insert-or-fetch. */
  function Inserted(rows: map<Id, Content>, id: Id, content: Content, insert: Outcome): map<Id, Content> {
    if insert.Refused? || id in rows then rows else rows[id := content]
  }

  /** One statement: it commits and says so, commits but reports an error, or does neither. */
  datatype Outcome = Committed | AckLost | Refused

  class Table {
    var rows: map<Id, Content>

    constructor ()
      ensures rows == map[]
    {
      rows := map[];
    }

    /**
     Inserts unless the identifier is taken; then fetches the row that has it. The caller's message becomes the
     stored one.
     */
    method CreateMessage(id: Id, content: Content, insert: Outcome, found: bool) returns (stored: Option<Content>)
      modifies this
      ensures rows == Inserted(old(rows), id, content, insert)
      ensures rows == if id !in old(rows) && insert != Refused then old(rows)[id := content] else old(rows)
      ensures insert != Committed ==> stored == None
      ensures insert == Committed && id !in old(rows) ==> stored == Some(content)
      ensures insert == Committed && id in old(rows) ==> stored == if found then Some(old(rows)[id]) else None
    {
      var duplicate := id in rows;
      if !insert.Refused? && !duplicate {
        rows := rows[id := content];
      }
      if !insert.Committed? {
        return None;
      }
      if !duplicate {
        return Some(content);
      }
      if !found {
        return None;
      }
      return Some(rows[id]);
    }
  }

  /**
   Queue first, table as the fallback, both under one identifier. Success means a stored row or a publication the
   broker has acknowledged; failure means both ways failed, though either may still have taken effect.
   */
  method PersistMessage(id: Id, content: Content, queue: RabbitMQ?, table: Table, attempts: seq<Attempt>,
                        insert: Outcome, found: bool)
    returns (ok: bool, ghost confirmed: Option<Publication>)
    requires queue != null ==> queue.Valid()
    requires |attempts| == MAX_ATTEMPTS
    modifies if queue == null then {table} else {queue, table}
    ensures queue != null ==> queue.Valid()
    ensures ok ==> id in table.rows || (queue != null && confirmed == Some(Fresh(id, content)))
    ensures confirmed.Some? <==> queue != null && PublishSucceeds(old(queue.open), old(queue.destroyed), attempts)
    ensures confirmed.Some? ==> ok && Fresh(id, content) in queue.wire && table.rows == old(table.rows)
    ensures confirmed.None? ==> table.rows == Inserted(old(table.rows), id, content, insert)
    ensures confirmed.None? ==> (ok <==> insert == Committed && (id !in old(table.rows) || found))
    ensures id in old(table.rows) ==> table.rows == old(table.rows) && (insert == Committed && found ==> ok)
  {
    confirmed := None;
    if queue != null {
      ok, confirmed := queue.Publish(Fresh(id, content), attempts);
      if ok {
        return;
      }
      confirmed := None;
    }
    var stored := table.CreateMessage(id, content, insert, found);
    ok := stored.Some?;
  }

  datatype Settlement = Unsettled | Acked | Requeued

  class Delivery {
    const m: Publication
    var settlement: Settlement

    constructor (m: Publication)
      ensures this.m == m && settlement == Unsettled
    {
      this.m := m;
      settlement := Unsettled;
    }
  }

  /**
   Stores a delivery or, when that fails, republishes it one retry further (in the end as a dead letter) before it
   acknowledges. It is acknowledged exactly if its message was stored or its republication confirmed, and given back
   to the queue otherwise; a message that is already stored is acknowledged and not republished. `settles`: the answer
   reaches the broker.
   */
  method ProcessDelivery(d: Delivery, queue: RabbitMQ, table: Table, attempts: seq<Attempt>,
                         insert: Outcome, found: bool, settles: bool)
    returns (ok: bool, ghost confirmed: Option<Publication>)
    requires queue.Valid() && d.settlement == Unsettled && |attempts| == MAX_ATTEMPTS
    modifies d, queue, table
    ensures queue.Valid()
    ensures d.settlement == Settlement.Acked ==>
              (d.m.body.Payload? && Resolve(d.m) in table.rows) || (confirmed == Some(Republished(d.m)) && Republished(d.m) in queue.wire)
    ensures var stored := d.m.body.Payload? && insert == Committed && (Resolve(d.m) !in old(table.rows) || found);
            var resent := !stored && PublishSucceeds(old(queue.open), old(queue.destroyed), attempts);
            && d.settlement == (if !settles then Unsettled else if stored || resent then Settlement.Acked else Requeued)
            && (confirmed.Some? <==> resent)
            && (stored ==> queue.wire == old(queue.wire))
    ensures ok <==> d.settlement == Settlement.Acked
    ensures d.m.body.Payload? && Resolve(d.m) in old(table.rows) && insert == Committed && found && settles ==>
              d.settlement == Settlement.Acked && queue.wire == old(queue.wire) && table.rows == old(table.rows)
    ensures table.rows == if d.m.body.Payload? then Inserted(old(table.rows), Resolve(d.m), d.m.body.content, insert)
                          else old(table.rows)
  {
    confirmed := None;
    var stored: Option<Content> := None;
    if d.m.body.Payload? {
      stored := table.CreateMessage(Resolve(d.m), d.m.body.content, insert, found);
    }
    if stored.Some? {
      if settles {
        d.settlement := Settlement.Acked;
      }
      return settles, None;
    }
    var published;
    published, confirmed := queue.Publish(Republished(d.m), attempts);
    if !published {
      confirmed := None;
      if settles {
        d.settlement := Requeued;
      }
      return false, None;
    }
    if settles {
      d.settlement := Settlement.Acked;
    }
    ok := settles;
  }
}
