/** Publishing with confirmations, on a channel that is opened when needed and dropped when broken. */
module Publisher {
  import opened Domain

  datatype Reply = Ack | Nack | Silence

  /**
   * What the broker and the connection do during one publication. `late` are messages published
   * earlier on the same channel whose return arrives only now; `arrives` says whether the message
   * reaches the broker at all, `routed` whether some queue takes it there.
   */
  datatype Script = Script(closed: bool, opens: bool, confirms: bool, sends: bool, arrives: bool, routed: bool,
                           reply: Reply, late: seq<nat>)
  {
    /** Only what has arrived is answered. That whatever cannot be routed comes back first is part of Publish. */
    predicate Honest() { reply != Silence ==> arrives }
  }

  class Publisher {
    var ch: Option<nat>
    /** Returns received on the current channel and not read yet. */
    var bounced: seq<nat>
    var channels: nat
    /** Messages that some queue has taken. */
    ghost var queued: set<nat>

    ghost predicate Valid()
      reads this
    {
      (forall m :: m in bounced ==> m !in queued) && (ch.None? ==> bounced == [])
    }

    /** Whether there will be a channel to publish on. */
    predicate Usable(s: Script)
      reads this
    {
      (ch.Some? && !s.closed) || (s.opens && s.confirms)
    }

    /** Whether some queue takes the message: it does not if the broker refuses it. */
    predicate Takes(s: Script)
      reads this
    {
      Usable(s) && s.arrives && s.routed && s.reply != Nack
    }

    /** The returns there will be to read once the message is acknowledged, in order of arrival. */
    function Waiting(m: nat, s: Script): seq<nat>
      reads this
    {
      (if ch.Some? && !s.closed then bounced else []) + s.late + if s.routed then [] else [m]
    }

    /** Sent, confirmed and routed, with no return of an earlier message waiting. */
    predicate Confirms(s: Script)
      reads this
    {
      && Usable(s) && s.sends && s.reply == Ack && s.routed && s.late == []
      && (ch.Some? && !s.closed ==> bounced == [])
    }

    constructor ()
      ensures Valid() && ch.None? && queued == {}
    {
      ch, bounced, channels, queued := None, [], 0, {};
    }

    /** A channel that is missing or closed is replaced; returns of the old one are lost with it. */
    method Open(s: Script) returns (ok: bool)
      requires Valid()
      modifies this`ch, this`bounced, this`channels
      ensures Valid()
      ensures ok == (if old(ch).Some? && !s.closed then true else s.opens && s.confirms)
      ensures if (old(ch).Some? && !s.closed) || !ok then ch == old(ch) && bounced == old(bounced)
              else ch.Some? && bounced == []
    {
      if ch.Some? && !s.closed {
        return true;
      }
      if !s.opens || !s.confirms {
        return false;
      }
      ch, bounced, channels := Some(channels), [], channels + 1;
      return true;
    }

    method Drop()
      requires Valid()
      modifies this`ch, this`bounced
      ensures Valid() && ch.None?
    {
      ch, bounced := None, [];
    }

    /**
     * Success means that some queue has the message. It is reported exactly when the message was
     * sent, confirmed and routed, and no return of an earlier message was waiting: a stale return
     * can only turn a success into an error. An error says nothing about the message itself; the
     * return it may report is of a message that no queue has taken.
     */
    method Publish(m: nat, s: Script) returns (ok: bool, returned: Option<nat>)
      requires Valid() && s.Honest() && m !in queued && m !in bounced && m !in s.late
      requires forall r :: r in s.late ==> r !in queued
      modifies this
      ensures Valid()
      ensures ok ==> m in queued
      ensures returned.Some? ==> !ok && returned.value !in queued
      ensures queued == old(queued) + (if old(Takes(s)) then {m} else {})
      ensures ok <==> old(Confirms(s))
      ensures s.reply != Ack || !s.sends || !s.routed || s.late != [] ==> !ok
      ensures s.sends && s.arrives && s.routed && s.reply == Ack && s.late == [] ==>
                && (old(ch).Some? && !s.closed && old(bounced) == [] ==> ok)
                && ((old(ch).None? || s.closed) && s.opens && s.confirms ==> ok)
      ensures returned ==
                if old(Usable(s)) && s.sends && s.reply == Ack && old(Waiting(m, s)) != []
                then Some(old(Waiting(m, s))[0]) else None
      ensures old(Usable(s)) && s.sends && s.reply == Ack ==>
                ch.Some? && bounced == if old(Waiting(m, s)) == [] then [] else old(Waiting(m, s))[1..]
      ensures old(Usable(s)) ==> (ch.None? <==> !s.sends)
      ensures old(Usable(s)) && s.sends && s.reply != Ack ==>
                bounced == (if old(ch).Some? && !s.closed then old(bounced) else []) + s.late +
                  if s.reply == Nack && !s.routed then [m] else []
      ensures !old(Usable(s)) ==> ch == old(ch) && bounced == old(bounced)
    {
      returned := None;
      ok := Open(s);
      if !ok {
        return;
      }
      queued := queued + if s.arrives && s.routed && s.reply != Nack then {m} else {};
      if !s.sends {
        Drop();
        return false, None;
      }
      bounced := bounced + s.late + if s.arrives && !s.routed && s.reply != Silence then [m] else [];
      if s.reply == Silence {
        return false, None;
      }
      if s.reply == Nack {
        return false, None;
      }
      if bounced != [] {
        returned := Some(bounced[0]);
        bounced := bounced[1..];
        return false, returned;
      }
      return true, None;
    }
  }
}
