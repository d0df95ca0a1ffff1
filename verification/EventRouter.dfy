/** The event router object: it numbers and enters local events, resequences the broadcast log,
    hands it to its receivers, and decides when to ask for missing entries. */
module EventRouter {
  import opened Common
  import opened Cluster
  import opened EventBuffer
  import opened NackRequests
  import opened Replication

  /** A receiver's end of a channel: whether it is still open, and what was put in. */
  datatype Channel = Channel(open: bool, items: seq<(nat, Event)>)

  const NACK_BASE := 0.5
  const NACK_CAP := 10.0

  function Doubled(attempts: nat): (r: real)
    ensures r >= 1.0
  {
    if attempts == 0 then 1.0 else 2.0 * Doubled(attempts - 1)
  }

  /** How long a request waits before it is sent. */
  function NackDelay(attempts: nat): real
  {
    var delay := NACK_BASE * Doubled(attempts);
    if delay < NACK_CAP then delay else NACK_CAP
  }

  lemma {:induction false} DoubledGrows(a: nat, b: nat)
    requires a <= b
    ensures Doubled(a) <= Doubled(b)
  {
    if a < b {
      DoubledGrows(a, b - 1);
    }
  }

  /** The first wait is half a second, every further one twice as long, up to ten seconds, which the
      sixth reaches. */
  lemma {:induction false} NackDelayGrows(attempts: nat)
    ensures NackDelay(0) == 0.5 && 0.5 <= NackDelay(attempts) <= NackDelay(attempts + 1) <= 10.0
    ensures NackDelay(attempts + 1) == if 2.0 * NackDelay(attempts) < 10.0 then 2.0 * NackDelay(attempts) else 10.0
    ensures NackDelay(attempts) == 10.0 <==> attempts >= 5
  {
    assert Doubled(4) == 16.0 && Doubled(5) == 32.0;
    if attempts >= 5 {
      DoubledGrows(5, attempts);
    } else {
      DoubledGrows(attempts, 4);
    }
  }

  // ---------------------------------------------------------------- handing out events

  /** Sending one item to every channel and dropping those found closed. */
  ghost function SentTo(channels: seq<Channel>, item: (nat, Event)): seq<Channel>
  {
    if channels == [] then []
    else (if channels[0].open then [channels[0].(items := channels[0].items + [item])] else [])
         + SentTo(channels[1..], item)
  }

  ghost function AllSentTo(channels: seq<Channel>, items: seq<(nat, Event)>): seq<Channel>
    decreases items
  {
    if items == [] then channels else AllSentTo(SentTo(channels, items[0]), items[1..])
  }

  /** The open channels, each with `items` added. */
  ghost function OpenWith(channels: seq<Channel>, items: seq<(nat, Event)>): seq<Channel>
  {
    if channels == [] then []
    else (if channels[0].open then [channels[0].(items := channels[0].items + items)] else [])
         + OpenWith(channels[1..], items)
  }

  lemma {:induction false} SentThenMore(channels: seq<Channel>, item: (nat, Event), rest: seq<(nat, Event)>)
    ensures OpenWith(SentTo(channels, item), rest) == OpenWith(channels, [item] + rest)
    ensures SentTo(channels, item) == OpenWith(channels, [item])
  {
    if channels != [] {
      SentThenMore(channels[1..], item, rest);
      if channels[0].open {
        var sent := channels[0].(items := channels[0].items + [item]);
        assert SentTo(channels, item)[1..] == SentTo(channels[1..], item);
        assert sent.items + rest == channels[0].items + ([item] + rest);
      } else {
        assert SentTo(channels, item) == SentTo(channels[1..], item);
        assert OpenWith(channels, [item] + rest) == OpenWith(channels[1..], [item] + rest);
      }
    }
  }

  /** Every receiver that is still open gets all of the items in order; with nothing to send
      nobody is even checked. */
  lemma {:induction false} ReceiversGetEverything(channels: seq<Channel>, items: seq<(nat, Event)>)
    ensures AllSentTo(channels, items) == if items == [] then channels else OpenWith(channels, items)
    decreases items
  {
    if items != [] {
      assert items == [items[0]] + items[1..];
      SentThenMore(channels, items[0], items[1..]);
      ReceiversGetEverything(SentTo(channels, items[0]), items[1..]);
      if items[1..] == [] {
        assert items == [items[0]];
      }
    }
  }

  class Router {
    const session: Session
    var buffer: OrderedBuffer<Event>
    var outForDelivery: map<EventId, LocalEvent>
    var outbound: seq<Channel>
    var nackScope: NackScope
    var nackAttempts: nat
    var nackScopes: nat
    ghost var delivered: seq<(nat, Event)>
    ghost var waiting: nat
    ghost var underWay: set<nat>
    ghost var told: set<nat>

    /** The requests as they stand. */
    ghost function Requests(): Nacks
      reads this
    {
      Nacks(nackScope, nackScopes, waiting, underWay, told)
    }

    ghost function Value(): Replication.Router
      reads this, buffer
    {
      Replication.Router(session, buffer.Value(), outForDelivery, delivered)
    }

    constructor (session: Session)
      ensures Value() == NewRouter(session) && outbound == [] && Requests() == NO_NACKS
      ensures NacksInv(Requests())
      ensures fresh(buffer)
    {
      this.session := session;
      buffer := new OrderedBuffer<Event>();
      outForDelivery, outbound, delivered := map[], [], [];
      nackScope, nackAttempts, nackScopes, waiting, underWay, told := NoScope, 0, 0, 0, {}, {};
    }

    /** `_ingest` for one event: send it under the sender's next index, then enter it. */
    method Ingest(origin: SystemId, idx: nat, event: Event) returns (sent: LocalEvent, next: nat)
      modifies this`outForDelivery
      ensures sent == LocalEvent(origin, idx, session, event) && next == idx + 1
      ensures Value() == old(Value()).(outbox := old(outForDelivery)[event.id := sent])
    {
      sent := LocalEvent(origin, idx, session, event);
      next := idx + 1;
      outForDelivery := outForDelivery[event.id := sent];
    }

    /** Offers one item to every receiver and notes which ones turned out closed. */
    method Offer(item: (nat, Event)) returns (toClear: set<nat>)
      modifies this`outbound
      ensures |outbound| == |old(outbound)|
      ensures forall k :: 0 <= k < |outbound| ==>
                && outbound[k] == (if old(outbound)[k].open
                                   then old(outbound)[k].(items := old(outbound)[k].items + [item])
                                   else old(outbound)[k])
                && (k in toClear <==> !old(outbound)[k].open)
    {
      toClear := {};
      for i := 0 to |outbound|
        invariant |outbound| == |old(outbound)|
        invariant forall k :: 0 <= k < i ==>
          outbound[k] == if old(outbound)[k].open
                         then old(outbound)[k].(items := old(outbound)[k].items + [item])
                         else old(outbound)[k]
        invariant forall k :: i <= k < |outbound| ==> outbound[k] == old(outbound)[k]
        invariant forall k :: k in toClear <==> 0 <= k < i && !old(outbound)[k].open
      {
        if outbound[i].open {
          outbound := outbound[i := outbound[i].(items := outbound[i].items + [item])];
        } else {
          toClear := toClear + {i};
        }
      }
    }

    /** Sends one item to every receiver, then removes the closed ones from the back. */
    method SendToReceivers(item: (nat, Event))
      modifies this`outbound
      ensures outbound == SentTo(old(outbound), item)
    {
      var toClear := Offer(item);
      ghost var before, marked := old(outbound), outbound;
      var n: nat := |outbound|;
      while n > 0
        invariant n <= |marked|
        invariant outbound == marked[..n] + SentTo(before[n..], item)
      {
        n := n - 1;
        assert before[n..][1..] == before[n + 1..] && before[n..][0] == before[n];
        assert marked[..n + 1] == marked[..n] + [marked[n]];
        if n in toClear {
          outbound := outbound[..n] + outbound[n + 1..];
        }
      }
      assert before[0..] == before;
    }

    /** Buffers an event of this session, takes it off redelivery and drains what is in order. */
    method TakeIn(g: GlobalEvent) returns (drained: seq<(nat, Event)>)
      requires Addressed(session, g) && Accepts(buffer.Value(), g.idx, g.event)
      modifies this`outForDelivery, this`delivered, buffer
      ensures Value() == RouterReceives(old(Value()), g) && delivered == old(delivered) + drained
    {
      buffer.Ingest(g.idx, g.event);
      if g.event.id in outForDelivery {
        outForDelivery := outForDelivery - {g.event.id};
      }
      drained := buffer.DrainIndexed();
      delivered := delivered + drained;
    }

    /** Events came in order: the request in the scope is told to stop. */
    method StopNack()
      requires NacksInv(Requests())
      modifies this`nackScope, this`nackAttempts, this`told
      ensures NacksInv(Requests())
      ensures Requests() == Moved(old(Requests()), InOrder) && nackAttempts == 0
    {
      MoveKeepsNacks(Requests(), InOrder);
      nackAttempts := 0;
      if nackScope.Active? {
        told := told + {nackScope.id};
        nackScope := CancelCalled(nackScope.id);
      }
    }

    /** One broadcast event. Returns the index to ask for, if this arrival starts a request. */
    method OnGlobalEvent(g: GlobalEvent) returns (nack: Option<nat>)
      requires g.session == session && g.origin == session.master ==> Accepts(buffer.Value(), g.idx, g.event)
      requires NacksInv(Requests())
      modifies this`outForDelivery, this`delivered, this`outbound, this`nackScope, this`nackAttempts
      modifies this`waiting, this`told, buffer
      ensures NacksInv(Requests())
      ensures Value() == RouterReceives(old(Value()), g)
      ensures g.session != session || g.origin != session.master ==>
                && Value() == old(Value()) && outbound == old(outbound)
                && nack == None && Requests() == old(Requests())
      ensures g.session == session && g.origin == session.master ==>
                var items := delivered[|old(delivered)|..];
                && outbound == AllSentTo(old(outbound), items)
                && (nack.Some? <==> items == [] && !old(nackScope).Active?)
                && (nack.Some? ==> nack.value == buffer.next)
                && (items != [] ==> nackAttempts == 0)
                && Requests() == Moved(old(Requests()), if items == [] then OutOfOrder else InOrder)
    {
      if g.session != session {
        return None;
      }
      if g.origin != session.master {
        return None;
      }
      var drained := TakeIn(g);
      assert delivered[|old(delivered)|..] == drained;
      if drained != [] {
        StopNack();
      }
      if drained == [] && (nackScope == NoScope || nackScope.CancelCalled?) {
        waiting := waiting + 1;
        return Some(buffer.next);
      }
      nack := None;
      HandOut(drained);
    }

    /** A request that was started, up to its wait: it takes the scope, even from a request that is still
        active, and counts as an attempt. */
    method BeginNack(since: int) returns (asked: nat, id: nat, delay: real)
      requires NacksInv(Requests()) && waiting > 0
      modifies this`nackScope, this`nackAttempts, this`nackScopes, this`waiting, this`underWay
      ensures NacksInv(Requests()) && Requests() == Moved(old(Requests()), Begin)
      ensures nackScope == Active(id) && id !in old(underWay)
      ensures forall x :: Stray(Requests(), x) <==> Stray(old(Requests()), x) || old(nackScope) == Active(x)
      ensures nackAttempts == old(nackAttempts) + 1 && delay == NackDelay(old(nackAttempts))
      ensures since >= 0 ==> asked == since
    {
      asked := if since < 0 then 0 else since;
      id, nackScopes := nackScopes, nackScopes + 1;
      nackScope := Active(id);
      delay := NackDelay(nackAttempts);
      nackAttempts := nackAttempts + 1;
      waiting, underWay := waiting - 1, underWay + {id};
    }

    /** The end of a request, sent or stopped. */
    method EndNack(id: nat)
      requires NacksInv(Requests()) && id in underWay
      modifies this`nackScope, this`underWay
      ensures NacksInv(Requests()) && Requests() == Moved(old(Requests()), End(id))
      ensures forall x :: Stray(Requests(), x) <==> Stray(old(Requests()), x) && x != id
    {
      if nackScope == Active(id) || nackScope == CancelCalled(id) {
        nackScope := NoScope;
      }
      underWay := underWay - {id};
    }

    method HandOut(drained: seq<(nat, Event)>)
      modifies this`outbound
      ensures outbound == AllSentTo(old(outbound), drained)
    {
      for k := 0 to |drained|
        invariant AllSentTo(outbound, drained[k..]) == AllSentTo(old(outbound), drained)
      {
        SendToReceivers(drained[k]);
        assert drained[k..][1..] == drained[k + 1..];
      }
      assert drained[|drained|..] == [];
    }
  }
}
