/**
 The publisher side of one queue connection. Confirmations of a channel arrive in publication order,
 so the next one read belongs to the oldest publication of that channel that is still unanswered.
 */
module RabbitChannel {
  import opened Options
  import opened RabbitIds

  datatype Answer = Acked | Nacked | Closed | TimedOut

  /**
   What the network and the broker do during one attempt: `dropped` - the connection turns out closed;
   `dials` - outcomes of the connection attempts; `sent` - the client library accepts the publication;
   `lands` - the broker receives it, which an acknowledgement implies.
   */
  datatype Attempt = Attempt(dropped: bool, dials: seq<bool>, declared: bool, sent: bool, lands: bool, answer: Answer)

  const MAX_RECONNECTS := 3
  const MAX_ATTEMPTS := 2

  predicate Dials(attempt: Attempt) {
    exists i :: 0 <= i < MAX_RECONNECTS && i < |attempt.dials| && attempt.dials[i]
  }

  /** An attempt gets its acknowledgement, starting from an open channel or not. */
  predicate Succeeds(open: bool, attempt: Attempt) {
    ((open && !attempt.dropped) || Dials(attempt)) && attempt.declared && attempt.sent && attempt.answer.Acked?
  }

  /** The second attempt always starts from a closed channel. */
  predicate PublishSucceeds(open: bool, destroyed: bool, attempts: seq<Attempt>)
    requires |attempts| == MAX_ATTEMPTS
  {
    !destroyed && (Succeeds(open, attempts[0]) || Succeeds(false, attempts[1]))
  }

  /** The attempt has a channel, by keeping an open one or by one of three dials, and all that follows goes well. */
  predicate Acknowledged(attempt: Attempt, open: bool) {
    && ((open && !attempt.dropped) || exists i :: 0 <= i < 3 && i < |attempt.dials| && attempt.dials[i])
    && attempt.declared && attempt.sent && attempt.answer == Acked
  }

  class RabbitMQ {
    var open: bool
    var destroyed: bool
    /** Publications made on the current channel, and how many of their confirmations have been read. */
    var onChannel: seq<Publication>
    var answered: nat
    /** Everything the broker received over this object's channels. */
    ghost var wire: seq<Publication>

    /** With the mutex free, no confirmation of the channel in use is outstanding. */
    ghost predicate Valid()
      reads this
    {
      (open ==> answered == |onChannel|) && (destroyed ==> !open)
    }

    constructor ()
      ensures Valid() && !open && !destroyed && wire == []
    {
      open, destroyed, onChannel, answered, wire := false, false, [], 0, [];
    }

    method Close()
      modifies `open, `onChannel, `answered
      ensures !open && onChannel == []
    {
      open, onChannel, answered := false, [], 0;
    }

    method EnsureConnected(attempt: Attempt) returns (ok: bool)
      requires Valid()
      modifies `open, `onChannel, `answered
      ensures Valid() && open == ok
      ensures ok <==> !destroyed && ((old(open) && !attempt.dropped) || Dials(attempt))
      ensures ok <==> !destroyed && ((old(open) && !attempt.dropped)
                                     || exists i :: 0 <= i < 3 && i < |attempt.dials| && attempt.dials[i])
      ensures ok && !old(open) ==> onChannel == []
    {
      if destroyed {
        return false;
      }
      if open && !attempt.dropped {
        return true;
      }
      Close();
      for i := 0 to MAX_RECONNECTS
        invariant Valid() && !open && !destroyed
        invariant forall j :: 0 <= j < i && j < |attempt.dials| ==> !attempt.dials[j]
      {
        if i < |attempt.dials| && attempt.dials[i] {
          open, onChannel, answered := true, [], 0;
          return true;
        }
      }
      return false;
    }

    /**
     One attempt under the mutex. `confirmed` is the publication the acknowledgement that was read is about.
     On failure a confirmation may be outstanding; the caller must close the channel.
     */
    method PublishLocked(m: Publication, attempt: Attempt) returns (ok: bool, ghost confirmed: Option<Publication>)
      requires Valid()
      modifies `open, `onChannel, `answered, `wire
      ensures ok ==> Valid() && open && confirmed == Some(m) && wire == old(wire) + [m]
      ensures !ok ==> wire == old(wire) || wire == old(wire) + [m]
      ensures ok <==> !destroyed && Succeeds(old(open), attempt)
      ensures ok <==> !destroyed && ((old(open) && !attempt.dropped)
                                     || exists i :: 0 <= i < 3 && i < |attempt.dials| && attempt.dials[i])
                      && attempt.declared && attempt.sent && attempt.answer == Acked
      ensures destroyed ==> !open
    {
      confirmed := None;
      if destroyed {
        return false, None;
      }
      var connected := EnsureConnected(attempt);
      if !connected || !attempt.declared {
        return false, None;
      }
      if !attempt.sent {
        if attempt.lands {
          wire := wire + [m];
        }
        return false, None;
      }
      onChannel := onChannel + [m];
      if attempt.lands || attempt.answer.Acked? {
        wire := wire + [m];
      }
      match attempt.answer
      case Acked =>
        confirmed := Some(onChannel[answered]);
        answered := answered + 1;
        return true, confirmed;
      case Nacked =>
        answered := answered + 1;
        return false, None;
      case Closed => return false, None;
      case TimedOut => return false, None;
    }

    /**
     At most two attempts; the channel of a failed attempt is closed before the mutex is released. Success means
     an acknowledgement of this very publication was read, so a late confirmation of an earlier one never counts.
     */
    method Publish(m: Publication, attempts: seq<Attempt>) returns (ok: bool, ghost confirmed: Option<Publication>)
      requires Valid() && |attempts| == MAX_ATTEMPTS
      modifies `open, `onChannel, `answered, `wire
      ensures Valid()
      ensures ok <==> PublishSucceeds(old(open), destroyed, attempts)
      ensures ok <==> !destroyed && exists n :: 0 <= n < 2 && Acknowledged(attempts[n], n == 0 && old(open))
      ensures ok ==> confirmed == Some(m)
      ensures exists n :: 0 <= n <= MAX_ATTEMPTS && wire == old(wire) + Copies(m, n) && (ok ==> n > 0)
    {
      assert PublishSucceeds(open, destroyed, attempts)
        <==> !destroyed && (Acknowledged(attempts[0], open) || Acknowledged(attempts[1], false));
      ok, confirmed := false, None;
      ghost var n := 0;
      assert wire == old(wire) + Copies(m, 0);
      for i := 0 to MAX_ATTEMPTS
        invariant Valid() && !ok && 0 <= n <= i && open == (i == 0 && old(open))
        invariant i > 0 ==> destroyed || !Succeeds(old(open), attempts[0])
        invariant i > 1 ==> destroyed || !Succeeds(false, attempts[1])
        invariant wire == old(wire) + Copies(m, n)
      {
        ghost var before := wire;
        ok, confirmed := PublishLocked(m, attempts[i]);
        if wire != before {
          assert before + [m] == old(wire) + Copies(m, n + 1);
          n := n + 1;
        }
        if ok {
          assert |wire| == |before| + 1;
          return;
        }
        Close();
      }
    }

    method Reconnect(attempt: Attempt) returns (ok: bool)
      requires Valid()
      modifies `open, `onChannel, `answered
      ensures Valid() && (ok <==> !destroyed && Dials(attempt)) && (ok ==> open && onChannel == [])
      ensures ok <==> !destroyed && exists i :: 0 <= i < 3 && i < |attempt.dials| && attempt.dials[i]
    {
      if destroyed {
        return false;
      }
      Close();
      ok := EnsureConnected(attempt);
    }

    method Destroy()
      requires Valid()
      modifies `open, `onChannel, `answered, `destroyed
      ensures Valid() && destroyed && !open
    {
      destroyed := true;
      Close();
    }
  }

  function Copies(m: Publication, n: nat): (r: seq<Publication>)
    ensures |r| == n && forall i :: 0 <= i < n ==> r[i] == m
  {
    if n == 0 then [] else Copies(m, n - 1) + [m]
  }
}
