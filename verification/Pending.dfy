/** The tables of in-flight requests (workers/friends.go, workers/link.go) and the worker's
    one-slot registry (workers/registry.go).

    Each table operation runs under its mutex, so it is one atomic function on the table; the
    classes below are the source's objects, proved against those functions. A channel send
    happens outside the mutex and is a separate operation. */
module Pending {
  import opened Wrappers
  import opened Messages

  // ----- pendingFriends

  type Friends<C> = map<RequestId, C>

  class PendingFriends<C> {
    var chans: map<RequestId, C>

    constructor ()
      ensures chans == map[]
    {
      chans := map[];
    }

    method Add(r: RequestId, ch: C)
      modifies this
      ensures chans == old(chans)[r := ch]
    {
      chans := chans[r := ch];
    }

    method Remove(r: RequestId)
      modifies this
      ensures chans == old(chans) - {r}
    {
      chans := chans - {r};
    }
  }

  // ----- pendingLinks

  datatype Links<C> = Links(chans: map<RequestId, C>, guards: map<RequestId, C>, challenges: map<RequestId, C>)

  function EmptyLinks<C>(): Links<C> {
    Links(map[], map[], map[])
  }

  /** A nil callback is not recorded. */
  function AddLink<C>(p: Links<C>, r: RequestId, ch: C, onGuard: Option<C>, onChallenge: Option<C>): Links<C> {
    Links(p.chans[r := ch],
          if onGuard.Some? then p.guards[r := onGuard.value] else p.guards,
          if onChallenge.Some? then p.challenges[r := onChallenge.value] else p.challenges)
  }

  function RemoveLink<C>(p: Links<C>, r: RequestId): Links<C> {
    Links(p.chans - {r}, p.guards - {r}, p.challenges - {r})
  }

  /** Adding under a fresh id and removing it leaves the table as it was, callbacks included. */
  lemma AddThenRemove<C>(p: Links<C>, r: RequestId, ch: C, onGuard: Option<C>, onChallenge: Option<C>)
    requires r !in p.chans && r !in p.guards && r !in p.challenges
    ensures RemoveLink(AddLink(p, r, ch, onGuard, onChallenge), r) == p
  {
    var q := RemoveLink(AddLink(p, r, ch, onGuard, onChallenge), r);
    assert q.chans == p.chans && q.guards == p.guards && q.challenges == p.challenges;
  }

  class PendingLinks<C> {
    var chans: map<RequestId, C>
    var guards: map<RequestId, C>
    var challenges: map<RequestId, C>

    ghost function Table(): Links<C>
      reads this
    {
      Links(chans, guards, challenges)
    }

    constructor ()
      ensures Table() == EmptyLinks()
    {
      chans, guards, challenges := map[], map[], map[];
    }

    method Add(r: RequestId, ch: C, onGuard: Option<C>, onChallenge: Option<C>)
      modifies this
      ensures Table() == AddLink(old(Table()), r, ch, onGuard, onChallenge)
    {
      chans := chans[r := ch];
      if onGuard.Some? {
        guards := guards[r := onGuard.value];
      }
      if onChallenge.Some? {
        challenges := challenges[r := onChallenge.value];
      }
    }

    method Remove(r: RequestId)
      modifies this
      ensures Table() == RemoveLink(old(Table()), r)
    {
      chans := chans - {r};
      guards := guards - {r};
      challenges := challenges - {r};
    }
  }

  // ----- The buffered reply channel and deliver

  datatype SendResult = Sent | Dropped | Blocked

  /** make(chan, 1) */
  class ReplyChannel {
    var buffer: seq<Reply>

    constructor ()
      ensures buffer == []
    {
      buffer := [];
    }

    method Send(reply: Reply) returns (r: SendResult)
      requires |buffer| <= 1
      modifies this
      ensures r == if old(buffer) == [] then Sent else Blocked
      ensures buffer == if old(buffer) == [] then [reply] else old(buffer)
    {
      if |buffer| < 1 {
        buffer := buffer + [reply];
        r := Sent;
      } else {
        r := Blocked;
      }
    }
  }

  /** deliver with nothing happening between the lookup and the send: the reply goes into the
      channel registered under its own id and nowhere else. */
  method DeliverLink(p: PendingLinks<ReplyChannel>, reply: Reply) returns (r: SendResult)
    requires reply.LinkReply?
    requires forall id :: id in p.chans ==> |p.chans[id].buffer| <= 1
    modifies p.chans.Values
    ensures reply.requestId !in p.chans ==> r == Dropped
    ensures reply.requestId in p.chans ==>
              var ch := p.chans[reply.requestId];
              && r == (if old(ch.buffer) == [] then Sent else Blocked)
              && ch.buffer == (if old(ch.buffer) == [] then [reply] else old(ch.buffer))
    ensures forall ch :: ch in p.chans.Values && (reply.requestId in p.chans ==> ch != p.chans[reply.requestId]) ==>
              ch.buffer == old(ch.buffer)
  {
    if reply.requestId in p.chans {
      var ch := p.chans[reply.requestId];
      r := ch.Send(reply);
    } else {
      r := Dropped;
    }
  }

  // ----- The registry

  function Register<W>(current: Option<W>, w: W): Option<W> {
    Some(w)
  }

  /** Clears w only if it is still current. */
  function Unregister<W(==)>(current: Option<W>, w: W): Option<W> {
    if current == Some(w) then None else current
  }

  const SEND_CAPACITY := 8

  class Worker {
    var id: string
    var send: seq<Command>

    constructor ()
      ensures send == []
    {
      id := "";
      send := [];
    }
  }

  class Registry {
    var current: Worker?

    ghost function Slot(): Option<Worker>
      reads this
    {
      if current == null then None else Some(current)
    }

    constructor ()
      ensures Slot() == None
    {
      current := null;
    }

    method RegisterWorker(w: Worker)
      modifies this
      ensures Slot() == Register(old(Slot()), w)
    {
      current := w;
    }

    method UnregisterWorker(w: Worker)
      modifies this
      ensures Slot() == Unregister(old(Slot()), w)
    {
      if current == w {
        current := null;
      }
    }

    /** Send when nothing happens between reading the slot and the channel send. */
    method Send(cmd: Command) returns (r: SendResult)
      requires Slot().Some? ==> |Slot().value.send| <= SEND_CAPACITY
      modifies current
      ensures Slot() == old(Slot())
      ensures Slot().None? ==> r == Dropped
      ensures Slot().Some? ==>
                var w := Slot().value;
                && r == (if |old(w.send)| < SEND_CAPACITY then Sent else Blocked)
                && w.send == (if r == Sent then old(w.send) + [cmd] else old(w.send))
                && |w.send| <= SEND_CAPACITY
    {
      if current == null {
        r := Dropped;
      } else if |current.send| < SEND_CAPACITY {
        current.send := current.send + [cmd];
        r := Sent;
      } else {
        r := Blocked;
      }
    }
  }
}
