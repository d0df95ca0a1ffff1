/** The resequencing buffers of the event log: one buffer restores the order of one
    numbered stream, and a multi-source buffer keeps one such buffer per origin. */
module EventBuffer {

  // ---------------------------------------------------------------- values

  /** What a buffer holds: items waiting for a gap to close, and the next index to release. */
  datatype Buffer<T> = Buffer(store: map<nat, T>, next: nat)

  /** The buffer's own assertion: an index that is still held is only repeated with the same item. */
  ghost predicate Accepts<T>(b: Buffer<T>, idx: nat, item: T)
  {
    b.next <= idx && idx in b.store ==> b.store[idx] == item
  }

  ghost function Ingested<T>(b: Buffer<T>, idx: nat, item: T): Buffer<T>
  {
    if idx < b.next || idx in b.store then b else b.(store := b.store[idx := item])
  }

  /** The buffer once its next item has been popped. */
  ghost function Popped<T>(b: Buffer<T>): Buffer<T>
    requires b.next in b.store
  {
    Buffer(b.store - {b.next}, b.next + 1)
  }

  /** The items a drain releases. */
  ghost function Released<T>(b: Buffer<T>): seq<T>
    decreases |b.store|
  {
    if b.next !in b.store then [] else [b.store[b.next]] + Released(Popped(b))
  }

  /** The buffer a drain leaves behind. */
  ghost function Drained<T>(b: Buffer<T>): Buffer<T>
    decreases |b.store|
  {
    if b.next !in b.store then b else Drained(Popped(b))
  }

  /** Items paired with consecutive indices from `first` on. */
  ghost function Indexed<T>(first: nat, items: seq<T>): (r: seq<(nat, T)>)
    decreases items
  {
    if items == [] then [] else [(first, items[0])] + Indexed(first + 1, items[1..])
  }

  lemma {:induction false} IndexedAt<T>(first: nat, items: seq<T>)
    ensures |Indexed(first, items)| == |items|
    ensures forall i :: 0 <= i < |items| ==> Indexed(first, items)[i] == (first + i, items[i])
    decreases items
  {
    if items != [] {
      IndexedAt(first + 1, items[1..]);
    }
  }

  lemma IndexedFirst<T>(first: nat, item: T, rest: seq<T>)
    ensures Indexed(first, [item] + rest) == [(first, item)] + Indexed(first + 1, rest)
  {
    assert ([item] + rest)[1..] == rest;
  }

  lemma Regroup<X>(done: seq<X>, x: X, rest: seq<X>)
    ensures done + ([x] + rest) == (done + [x]) + rest
  {
  }

  lemma PopStep<T>(b: Buffer<T>, done: seq<(nat, T)>)
    requires b.next in b.store
    ensures done + Indexed(b.next, Released(b))
         == (done + [(b.next, b.store[b.next])]) + Indexed(b.next + 1, Released(Popped(b)))
    ensures Drained(b) == Drained(Popped(b)) && |Popped(b).store| < |b.store|
  {
    var item, rest := b.store[b.next], Released(Popped(b));
    IndexedFirst(b.next, item, rest);
    Regroup(done, (b.next, item), Indexed(b.next + 1, rest));
  }

  // ---------------------------------------------------------------- what a drain does

  /** A drain stops at the least index that is not held, releases exactly the items below it
      in order, and keeps exactly the items above it. */
  lemma {:induction false} DrainReachesLeastGap<T>(b: Buffer<T>)
    ensures b.next <= Drained(b).next && Drained(b).next !in b.store
    ensures forall i :: b.next <= i < Drained(b).next ==> i in b.store
    ensures |Released(b)| == Drained(b).next - b.next
    ensures forall i :: 0 <= i < |Released(b)| ==> Released(b)[i] == b.store[b.next + i]
    ensures Drained(b).store == map i | i in b.store && !(b.next <= i < Drained(b).next) :: b.store[i]
    decreases |b.store|
  {
    if b.next in b.store {
      var p := Popped(b);
      DrainReachesLeastGap(p);
      forall i | b.next <= i < Drained(b).next ensures i in b.store {
        assert i == b.next || i in p.store;
      }
      forall i | 0 <= i < |Released(b)| ensures Released(b)[i] == b.store[b.next + i] {
        if i > 0 {
          assert Released(p)[i - 1] == p.store[p.next + (i - 1)];
        }
      }
    }
  }

  // ---------------------------------------------------------------- agreement with a source sequence

  /** Everything the buffer still holds, and its release index, agree with the numbered stream `s`. */
  ghost predicate Tracks<T>(b: Buffer<T>, s: seq<T>)
  {
    && b.next <= |s|
    && forall i :: i in b.store ==> b.next <= i < |s| && b.store[i] == s[i]
  }

  /** Nothing is releasable: the state every drain leaves. */
  ghost predicate Settled<T>(b: Buffer<T>)
  {
    b.next !in b.store
  }

  lemma TracksIngest<T>(b: Buffer<T>, s: seq<T>, idx: nat, item: T)
    requires Tracks(b, s) && idx < |s| && item == s[idx]
    ensures Accepts(b, idx, item)
    ensures Tracks(Ingested(b, idx, item), s)
  {
  }

  /** What a drain releases is the next stretch of the stream: no gap, no repeat. */
  lemma TracksDrain<T>(b: Buffer<T>, s: seq<T>)
    requires Tracks(b, s)
    ensures Tracks(Drained(b), s) && Settled(Drained(b))
    ensures b.next <= Drained(b).next
    ensures Released(b) == s[b.next..Drained(b).next]
  {
    DrainReachesLeastGap(b);
    if Drained(b).next > b.next {
      assert Drained(b).next - 1 in b.store;
    }
  }

  lemma TracksLonger<T>(b: Buffer<T>, s: seq<T>, more: seq<T>)
    requires Tracks(b, s)
    ensures Tracks(b, s + more)
  {
  }

  // ---------------------------------------------------------------- whole deliveries

  /** One arrival: ingest, then drain. */
  ghost function Arrived<T>(b: Buffer<T>, s: seq<T>, idx: nat): Buffer<T>
    requires idx < |s|
  {
    Drained(Ingested(b, idx, s[idx]))
  }

  /** The buffer after the items of `s` at `arrivals` came in, in that order. */
  ghost function Fed<T>(b: Buffer<T>, s: seq<T>, arrivals: seq<nat>): Buffer<T>
    requires forall k :: 0 <= k < |arrivals| ==> arrivals[k] < |s|
  {
    if arrivals == [] then b
    else
      var last := |arrivals| - 1;
      Arrived(Fed(b, s, arrivals[..last]), s, arrivals[last])
  }

  /** An index the buffer has already seen, released or not. */
  ghost predicate Knows<T>(b: Buffer<T>, i: nat)
  {
    i < b.next || i in b.store
  }

  lemma {:induction false} ArrivalAddsOneIndex<T>(b: Buffer<T>, s: seq<T>, idx: nat)
    requires Tracks(b, s) && idx < |s|
    ensures Tracks(Arrived(b, s, idx), s) && Settled(Arrived(b, s, idx))
    ensures b.next <= Arrived(b, s, idx).next
    ensures forall i: nat :: Knows(Arrived(b, s, idx), i) <==> Knows(b, i) || i == idx
  {
    var c := Ingested(b, idx, s[idx]);
    TracksIngest(b, s, idx, s[idx]);
    TracksDrain(c, s);
    DrainReachesLeastGap(c);
    forall i: nat ensures Knows(Drained(c), i) <==> Knows(b, i) || i == idx {
      assert Knows(c, i) <==> Knows(b, i) || i == idx;
      if i in c.store && i < Drained(c).next {
        assert Knows(Drained(c), i);
      }
    }
  }

  /** After any arrivals, in any order and with any repeats, the buffer knows exactly the old
      indices and the arrived ones. */
  lemma {:induction false} FedKnowsArrivals<T>(b: Buffer<T>, s: seq<T>, arrivals: seq<nat>)
    requires Tracks(b, s) && Settled(b)
    requires forall k :: 0 <= k < |arrivals| ==> arrivals[k] < |s|
    ensures Tracks(Fed(b, s, arrivals), s) && Settled(Fed(b, s, arrivals))
    ensures b.next <= Fed(b, s, arrivals).next
    ensures forall i: nat :: Knows(Fed(b, s, arrivals), i) <==> Knows(b, i) || i in arrivals
    decreases |arrivals|
  {
    if arrivals != [] {
      var last := |arrivals| - 1;
      FedKnowsArrivals(b, s, arrivals[..last]);
      ArrivalAddsOneIndex(Fed(b, s, arrivals[..last]), s, arrivals[last]);
      assert arrivals == arrivals[..last] + [arrivals[last]];
    }
  }

  /** A settled buffer that tracks a stream is determined by the indices it knows. */
  lemma KnownIndicesDetermineBuffer<T>(b: Buffer<T>, c: Buffer<T>, s: seq<T>)
    requires Tracks(b, s) && Settled(b) && Tracks(c, s) && Settled(c)
    requires forall i: nat :: Knows(b, i) <==> Knows(c, i)
    ensures b == c
  {
    assert !Knows(b, b.next) && !Knows(c, c.next);
    forall i: nat ensures i in b.store <==> i in c.store {
      assert Knows(b, i) <==> Knows(c, i);
    }
  }

  /** Order and repetition do not matter: the same set of arrivals leaves the same buffer. */
  lemma {:induction false} OrderInsensitive<T>(b: Buffer<T>, s: seq<T>, xs: seq<nat>, ys: seq<nat>)
    requires Tracks(b, s) && Settled(b)
    requires forall k :: 0 <= k < |xs| ==> xs[k] < |s|
    requires forall i :: i in xs <==> i in ys
    requires forall k :: 0 <= k < |ys| ==> ys[k] < |s|
    ensures Fed(b, s, xs) == Fed(b, s, ys)
  {
    FedKnowsArrivals(b, s, xs);
    FedKnowsArrivals(b, s, ys);
    KnownIndicesDetermineBuffer(Fed(b, s, xs), Fed(b, s, ys), s);
  }

  /** Catching up: once every index from the release index up to `end` has arrived among any
      other traffic, the release index is at least `end`. */
  lemma {:induction false} ArrivalsCloseGap<T>(b: Buffer<T>, s: seq<T>, arrivals: seq<nat>, end: nat)
    requires Tracks(b, s) && Settled(b)
    requires forall k :: 0 <= k < |arrivals| ==> arrivals[k] < |s|
    requires forall i: nat :: b.next <= i < end ==> i in arrivals
    ensures end <= Fed(b, s, arrivals).next
  {
    FedKnowsArrivals(b, s, arrivals);
    assert !Knows(Fed(b, s, arrivals), Fed(b, s, arrivals).next);
  }

  // ---------------------------------------------------------------- the buffer object

  class OrderedBuffer<T> {
    var store: map<nat, T>
    var next: nat

    ghost function Value(): Buffer<T>
      reads this
    {
      Buffer(store, next)
    }

    constructor ()
      ensures Value() == Buffer(map[], 0)
    {
      store, next := map[], 0;
    }

    method Ingest(idx: nat, item: T)
      requires Accepts(Value(), idx, item)
      modifies this
      ensures Value() == Ingested(old(Value()), idx, item)
    {
      if idx < next {
        return;
      }
      if idx in store {
        assert store[idx] == item;
        return;
      }
      store := store[idx := item];
    }

    method Drain() returns (ret: seq<T>)
      modifies this
      ensures ret == Released(old(Value()))
      ensures Value() == Drained(old(Value()))
    {
      ret := [];
      ghost var all := Released(Value());
      while next in store
        invariant all == ret + Released(Value())
        invariant Drained(Value()) == Drained(old(Value()))
        decreases |store|
      {
        ghost var before := Value();
        Regroup(ret, store[next], Released(Popped(before)));
        var item := store[next];
        store := store - {next};
        ret := ret + [item];
        next := next + 1;
        assert Value() == Popped(before);
        assert Drained(Value()) == Drained(before);
      }
    }

    method DrainIndexed() returns (ret: seq<(nat, T)>)
      modifies this
      ensures ret == Indexed(old(next), Released(old(Value())))
      ensures Value() == Drained(old(Value()))
    {
      ret := [];
      ghost var whole := Indexed(next, Released(Value()));
      while next in store
        invariant whole == ret + Indexed(next, Released(Value()))
        invariant Drained(Value()) == Drained(old(Value()))
        decreases |store|
      {
        ghost var before := Value();
        PopStep(before, ret);
        var idx, item := next, store[next];
        store := store - {idx};
        ret := ret + [(idx, item)];
        next := next + 1;
        assert Value() == Popped(before);
        assert Drained(Value()) == Drained(before);
      }
    }
  }

  // ---------------------------------------------------------------- many sources

  /** One buffer per source, with the sources in the order they first appeared. */
  datatype Multi<S, T> = Multi(order: seq<S>, buffers: map<S, Buffer<T>>)

  ghost predicate Listed<S>(order: seq<S>, keys: set<S>)
  {
    && (forall i, j :: 0 <= i < j < |order| ==> order[i] != order[j])
    && (set x | x in order) == keys
  }

  ghost function BufferFor<S, T>(m: Multi<S, T>, source: S): Buffer<T>
  {
    if source in m.buffers then m.buffers[source] else Buffer(map[], 0)
  }

  ghost function MultiIngested<S, T>(m: Multi<S, T>, idx: nat, item: T, source: S): Multi<S, T>
  {
    Multi(if source in m.buffers then m.order else m.order + [source],
          m.buffers[source := Ingested(BufferFor(m, source), idx, item)])
  }

  ghost function Tagged<S, T>(source: S, items: seq<T>): (r: seq<(S, T)>)
  {
    if items == [] then [] else [(source, items[0])] + Tagged(source, items[1..])
  }

  /** What draining every source in turn releases, each item with its source. */
  ghost function MultiReleased<S, T>(order: seq<S>, buffers: map<S, Buffer<T>>): seq<(S, T)>
    requires forall x :: x in order ==> x in buffers
  {
    if order == [] then []
    else
      var last := |order| - 1;
      MultiReleased(order[..last], buffers) + Tagged(order[last], Released(buffers[order[last]]))
  }

  ghost function Untagged<S, T>(items: seq<(S, T)>): (r: seq<T>)
  {
    if items == [] then [] else [items[0].1] + Untagged(items[1..])
  }

  lemma UntaggedTagged<S, T>(source: S, items: seq<T>)
    ensures Untagged(Tagged(source, items)) == items
  {
  }

  lemma {:induction false} UntaggedAppend<S, T>(released: seq<(S, T)>, source: S, items: seq<T>)
    ensures Untagged(released + Tagged(source, items)) == Untagged(released) + items
  {
    if released != [] {
      assert (released + Tagged(source, items))[1..] == released[1..] + Tagged(source, items);
      UntaggedAppend(released[1..], source, items);
    } else {
      assert released + Tagged(source, items) == Tagged(source, items);
      UntaggedTagged(source, items);
    }
  }

  ghost function MultiDrained<S, T>(m: Multi<S, T>): Multi<S, T>
  {
    m.(buffers := map x | x in m.buffers :: Drained(m.buffers[x]))
  }

  /** The buffers once the sources in `done` have been drained. */
  ghost function DrainedAmong<S, T>(buffers: map<S, Buffer<T>>, done: seq<S>): map<S, Buffer<T>>
  {
    map x | x in buffers :: if x in done then Drained(buffers[x]) else buffers[x]
  }

  lemma AllDrained<S, T>(m: Multi<S, T>)
    requires Listed(m.order, m.buffers.Keys)
    ensures DrainedAmong(m.buffers, m.order) == MultiDrained(m).buffers
    ensures forall x :: x in m.order ==> x in m.buffers
  {
    assert forall x :: x in m.buffers ==> x in (set y | y in m.order);
    assert forall x :: x in m.order ==> x in (set y | y in m.order);
  }

  /** What draining the first n sources releases. */
  ghost function ReleasedTo<S, T>(m: Multi<S, T>, n: nat): seq<T>
    requires n <= |m.order| && forall x :: x in m.order ==> x in m.buffers
  {
    Untagged(MultiReleased(m.order[..n], m.buffers))
  }

  lemma DrainStep<S, T>(m: Multi<S, T>, n: nat)
    requires n < |m.order| && Listed(m.order, m.buffers.Keys) && forall x :: x in m.order ==> x in m.buffers
    ensures var source, now := m.order[n], DrainedAmong(m.buffers, m.order[..n]);
            && source in now
            && DrainedAmong(m.buffers, m.order[..n + 1]) == now[source := Drained(now[source])]
            && ReleasedTo(m, n + 1) == ReleasedTo(m, n) + Released(now[source])
  {
    var source := m.order[n];
    assert m.order[..n + 1] == m.order[..n] + [source];
    assert m.order[..n + 1][..n] == m.order[..n];
    UntaggedAppend(MultiReleased(m.order[..n], m.buffers), source, Released(m.buffers[source]));
  }

  class MultiSourceBuffer<S(==), T> {
    var order: seq<S>
    var stores: map<S, OrderedBuffer<T>>

    ghost predicate Valid()
      reads this
    {
      && Listed(order, stores.Keys)
      && forall x, y :: x in stores && y in stores && x != y ==> stores[x] != stores[y]
    }

    ghost function Value(): Multi<S, T>
      reads this, stores.Values
    {
      Multi(order, map x | x in stores :: stores[x].Value())
    }

    constructor ()
      ensures Valid() && Value() == Multi([], map[]) && stores == map[]
    {
      order, stores := [], map[];
    }

    /** The source has a buffer from its first item on. */
    method Open(source: S)
      requires Valid()
      modifies this
      ensures Valid() && source in stores
      ensures Value() == Multi(if source in old(stores) then old(order) else old(order) + [source],
                               old(Value()).buffers[source := BufferFor(old(Value()), source)])
      ensures source in old(stores) ==> stores == old(stores)
      ensures source !in old(stores) ==> stores == old(stores)[source := stores[source]] && fresh(stores[source])
    {
      if source !in stores {
        var created := new OrderedBuffer<T>();
        order := order + [source];
        stores := stores[source := created];
      }
    }

    method IngestAt(source: S, idx: nat, item: T)
      requires Valid() && source in stores
      requires Accepts(Value().buffers[source], idx, item)
      modifies stores[source]
      ensures Value().buffers == old(Value()).buffers[source := Ingested(old(Value()).buffers[source], idx, item)]
    {
      stores[source].Ingest(idx, item);
      assert forall x :: x in stores && x != source ==> stores[x] != stores[source];
    }

    method Ingest(idx: nat, item: T, source: S)
      requires Valid()
      requires Accepts(BufferFor(Value(), source), idx, item)
      modifies this, stores.Values
      ensures Valid() && Value() == MultiIngested(old(Value()), idx, item, source)
      ensures fresh(stores.Values - old(stores.Values))
    {
      Open(source);
      IngestAt(source, idx, item);
    }

    method DrainSource(source: S) returns (items: seq<T>)
      requires Valid() && source in stores
      modifies stores[source]
      ensures items == Released(old(Value()).buffers[source])
      ensures Value().buffers == old(Value()).buffers[source := Drained(old(Value()).buffers[source])]
    {
      items := stores[source].Drain();
      assert forall x :: x in stores && x != source ==> stores[x] != stores[source];
    }

    /** One turn of the loop over the sources. */
    method DrainTurn(ghost before: Multi<S, T>, n: nat) returns (items: seq<T>)
      requires Valid() && n < |order| && before.order == order && Listed(before.order, before.buffers.Keys)
      requires (forall x :: x in order ==> x in stores) && forall x :: x in before.order ==> x in before.buffers
      requires Value() == before.(buffers := DrainedAmong(before.buffers, order[..n]))
      modifies stores[order[n]]
      ensures Value() == before.(buffers := DrainedAmong(before.buffers, order[..n + 1]))
      ensures ReleasedTo(before, n + 1) == ReleasedTo(before, n) + items
    {
      DrainStep(before, n);
      items := DrainSource(order[n]);
    }

    method DrainEach() returns (ret: seq<T>)
      requires Valid() && forall x :: x in order ==> x in stores
      modifies stores.Values
      ensures Value() == old(Value()).(buffers := DrainedAmong(old(Value()).buffers, order))
      ensures ret == ReleasedTo(old(Value()), |order|)
    {
      ret := [];
      ghost var before := Value();
      for n := 0 to |order|
        invariant Value() == before.(buffers := DrainedAmong(before.buffers, order[..n]))
        invariant ret == ReleasedTo(before, n)
      {
        var items := DrainTurn(before, n);
        ret := ret + items;
      }
      assert order[..|order|] == order;
    }

    method Drain() returns (ret: seq<T>)
      requires Valid()
      modifies stores.Values
      ensures Valid() && Value() == MultiDrained(old(Value()))
      ensures ret == Untagged(MultiReleased(old(Value()).order, old(Value()).buffers))
    {
      AllDrained(Value());
      assert order[..|order|] == order;
      ret := DrainEach();
    }
  }
}
