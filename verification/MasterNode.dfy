/** The master object: it resequences local events, indexes and logs them on disk, keeps the
    folded state, and answers requests for the log. */
module MasterNode {
  import opened Common
  import opened Cluster
  import opened EventBuffer
  import opened Replication
  import Disk = DiskEventLog

  ghost function IndexedAll(m: Master, now: Time): Master
    decreases |m.pending|
  {
    if m.pending == [] then m else IndexedAll(MasterIndexes(m, now), now)
  }

  /** The messages that carry the log's entries from index `from` on. */
  ghost function Broadcast(session: Session, log: seq<Event>, from: nat): (r: seq<GlobalEvent>)
    ensures |r| == if |log| <= from then 0 else |log| - from
  {
    if |log| <= from then []
    else
      var last := |log| - 1;
      Broadcast(session, log[..last], from) + [GlobalEvent(session.master, last, session, log[last])]
  }

  lemma {:induction false} BroadcastAt(session: Session, log: seq<Event>, from: nat, k: nat)
    requires from + k < |log|
    ensures Broadcast(session, log, from)[k] == GlobalEvent(session.master, from + k, session, log[from + k])
  {
    if from + k < |log| - 1 {
      BroadcastAt(session, log[..|log| - 1], from, k);
    }
  }

  lemma BroadcastGrows(session: Session, log: seq<Event>, e: Event, from: nat)
    requires from <= |log|
    ensures Broadcast(session, log + [e], from)
         == Broadcast(session, log, from) + [GlobalEvent(session.master, |log|, session, e)]
  {
    assert (log + [e])[..|log|] == log;
  }

  lemma IndexedAllStep(m: Master, now: Time)
    ensures m.pending == [] ==> IndexedAll(m, now) == m
    ensures m.pending != [] ==> IndexedAll(MasterIndexes(m, now), now) == IndexedAll(m, now)
  {
  }

  lemma IndexStep(w: World, s: Session, now: Time) returns (next: World)
    requires s in w.masters && w.masters[s].pending != []
    ensures Step(w, next)
    ensures next == w.(masters := w.masters[s := MasterIndexes(w.masters[s], now)], globals := next.globals)
  {
    var m := w.masters[s];
    var m' := MasterIndexes(m, now);
    var sent: set<GlobalEvent> := if m'.log == m.log then {} else {GlobalEvent(s.master, |m.log|, s, m'.log[|m.log|])};
    next := w.(masters := w.masters[s := m'], globals := w.globals + sent);
    assert Index(w, next, s, now);
  }

  /** Indexing everything pending is a run of the step system's own indexing steps. */
  lemma {:induction false} IndexedAllIsSteps(w: World, s: Session, now: Time) returns (ws: seq<World>)
    requires s in w.masters
    ensures ws != [] && ws[0] == w && forall i :: 0 <= i < |ws| - 1 ==> Step(ws[i], ws[i + 1])
    ensures ws[|ws| - 1].masters == w.masters[s := IndexedAll(w.masters[s], now)]
    decreases |w.masters[s].pending|
  {
    var m := w.masters[s];
    if m.pending == [] {
      return [w];
    }
    var next := IndexStep(w, s, now);
    var rest := IndexedAllIsSteps(next, s, now);
    IndexedAllStep(m, now);
    ws := [w] + rest;
    assert ws[|ws| - 1] == rest[|rest| - 1];
    forall i | 0 <= i < |ws| - 1 ensures Step(ws[i], ws[i + 1]) {
      assert i > 0 ==> Step(rest[i - 1], rest[i]);
    }
  }

  /** The buffers once an event of the session has been received. */
  ghost function ReceivedBuffers(m: Multi<SystemId, Event>, l: LocalEvent): Multi<SystemId, Event>
  {
    MultiDrained(MultiIngested(m, l.idx, l.event, l.origin))
  }

  /** The events that releases, each with its source. */
  ghost function ReceivedEvents(m: Multi<SystemId, Event>, l: LocalEvent): seq<(SystemId, Event)>
    requires Listed(m.order, m.buffers.Keys)
  {
    MultiIngestedListed(m, l.idx, l.event, l.origin);
    var b := MultiIngested(m, l.idx, l.event, l.origin);
    MultiReleased(b.order, b.buffers)
  }

  lemma ReceivedValue(session: Session, m: Master, l: LocalEvent)
    requires Listed(m.buffers.order, m.buffers.buffers.Keys) && m.pending == []
    ensures MasterReceives(session, m, l) ==
              if l.session != session then m
              else m.(buffers := ReceivedBuffers(m.buffers, l), pending := ReceivedEvents(m.buffers, l))
  {
    assert [] + ReceivedEvents(m.buffers, l) == ReceivedEvents(m.buffers, l);
  }

  lemma IndexedFields(m: Master, now: Time, origin: SystemId, event: Event)
    requires m.pending != [] && m.pending[0] == (origin, event)
    ensures MasterIndexes(m, now) ==
              if event.body.TracesCollected? then Master(m.buffers, m.pending[1..], m.log, m.origins, m.state)
              else Master(m.buffers, m.pending[1..], m.log + [Stamp(event, now)], m.origins + [origin],
                          Applied(m.state, |m.log|, Stamp(event, now)))
  {
  }

  /** What indexing adds to the log: the events that are no trace reports, with the master's time. */
  ghost function Recorded(events: seq<Event>, now: Time): seq<Event>
  {
    if events == [] then []
    else
      var last := events[|events| - 1];
      Recorded(events[..|events| - 1], now) + if last.body.TracesCollected? then [] else [Stamp(last, now)]
  }

  /** An event can be stored if it is a trace report, which is not, or its record fits its header. */
  predicate Storable(encode: Event -> Disk.Payload, event: Event, now: Time)
  {
    event.body.TracesCollected? || |encode(Stamp(event, now))| < Disk.LENGTH_LIMIT
  }

  /** How many events come before the first that cannot be stored. */
  ghost function Through(encode: Event -> Disk.Payload, events: seq<Event>, now: Time): (n: nat)
    ensures n <= |events|
    ensures forall k :: 0 <= k < n ==> Storable(encode, events[k], now)
    ensures n < |events| ==> !Storable(encode, events[n], now)
  {
    if events == [] || !Storable(encode, events[0], now) then 0 else 1 + Through(encode, events[1..], now)
  }

  lemma ThroughIs(encode: Event -> Disk.Payload, events: seq<Event>, now: Time, k: nat)
    requires k <= |events| && forall j :: 0 <= j < k ==> Storable(encode, events[j], now)
    requires k < |events| ==> !Storable(encode, events[k], now)
    ensures Through(encode, events, now) == k
  {
  }

  lemma RecordedNext(log: seq<Event>, events: seq<Event>, k: nat, now: Time)
    requires k < |events|
    ensures log + Recorded(events[..k + 1], now)
         == log + Recorded(events[..k], now)
            + if events[k].body.TracesCollected? then [] else [Stamp(events[k], now)]
  {
    assert events[..k + 1][..k] == events[..k];
  }

  lemma SliceOf(records: seq<Disk.Payload>, since: int, end: int)
    requires end <= |records|
    ensures var s := Disk.Slice(records, since, end);
            if 0 <= since < end then |s| == end - since && forall k :: 0 <= k < |s| ==> s[k] == records[since + k]
            else s == []
  {
  }

  class MasterProcess {
    const session: Session
    const encode: Event -> Disk.Payload
    const decode: Disk.Payload -> Event
    var sources: MultiSourceBuffer<SystemId, Event>
    var eventLog: Disk.EventLog
    var state: State
    ghost var pending: seq<(SystemId, Event)>
    ghost var entries: seq<Event>
    ghost var origins: seq<SystemId>

    /** Serialisation is taken to round-trip. */
    ghost predicate Serialises()
    {
      forall e :: decode(encode(e)) == e
    }

    /** The log on disk is the serialised log. */
    ghost predicate Logged()
      reads this`eventLog, this`entries, eventLog
    {
      && eventLog.Valid() && Serialises()
      && |eventLog.records| == |entries|
      && forall i :: 0 <= i < |entries| ==> eventLog.records[i] == encode(entries[i])
    }

    ghost predicate Valid()
      reads this, sources, eventLog
    {
      sources.Valid() && Logged() && |entries| == |origins|
    }

    ghost function Value(): Master
      reads this, sources, sources.stores.Values
    {
      Master(sources.Value(), pending, entries, origins, state)
    }

    constructor (session: Session, encode: Event -> Disk.Payload, decode: Disk.Payload -> Event)
      requires forall e :: decode(encode(e)) == e
      ensures Valid() && Value() == NEW_MASTER && this.session == session
    {
      this.session, this.encode, this.decode := session, encode, decode;
      sources := new MultiSourceBuffer<SystemId, Event>();
      eventLog := new Disk.EventLog();
      state, pending, entries, origins := EMPTY, [], [], [];
    }

    /** Buffer one event of this session and drain whatever is now in order. */
    method Resequence(l: LocalEvent) returns (drained: seq<Event>, ghost released: seq<(SystemId, Event)>)
      requires sources.Valid() && l.session == session
      requires Accepts(BufferFor(sources.Value(), l.origin), l.idx, l.event)
      modifies sources, sources.stores.Values
      ensures sources.Valid() && fresh(sources.stores.Values - old(sources.stores.Values))
      ensures sources.Value() == ReceivedBuffers(old(sources.Value()), l)
      ensures released == ReceivedEvents(old(sources.Value()), l) && drained == Untagged(released)
    {
      released := ReceivedEvents(sources.Value(), l);
      MultiIngestedListed(sources.Value(), l.idx, l.event, l.origin);
      sources.Ingest(l.idx, l.event, l.origin);
      drained := sources.Drain();
    }

    /** The first half of the event processor: discard, buffer, drain. */
    method Receive(l: LocalEvent) returns (drained: seq<Event>)
      requires sources.Valid() && pending == []
      requires l.session == session ==> Accepts(BufferFor(sources.Value(), l.origin), l.idx, l.event)
      modifies this`pending, sources, sources.stores.Values
      ensures sources.Valid() && fresh(sources.stores.Values - old(sources.stores.Values))
      ensures drained == Untagged(pending)
      ensures l.session != session ==> sources.Value() == old(sources.Value()) && pending == []
      ensures l.session == session ==>
                sources.Value() == ReceivedBuffers(old(sources.Value()), l) && pending == ReceivedEvents(old(sources.Value()), l)
    {
      if l.session != session {
        return [];
      }
      drained, pending := Resequence(l);
    }

    method Record(event: Event) returns (ok: bool)
      requires Logged()
      modifies this`entries, eventLog
      ensures Logged() && ok == (|encode(event)| < Disk.LENGTH_LIMIT)
      ensures entries == if ok then old(entries) + [event] else old(entries)
    {
      ok := eventLog.Append(encode(event));
      if ok {
        entries := entries + [event];
      }
    }

    /** Index, apply and append one event that belongs in the log. An event too long to store
        raises after it was applied: it is neither logged nor broadcast. */
    method LogNext(event: Event, now: Time, ghost origin: SystemId) returns (sent: Option<GlobalEvent>)
      requires Logged() && state.lastApplied == |entries| - 1
      modifies this`entries, this`origins, this`state, eventLog
      ensures Logged() && state == Applied(old(state), |old(entries)|, Stamp(event, now))
      ensures sent.Some? <==> |encode(Stamp(event, now))| < Disk.LENGTH_LIMIT
      ensures sent.Some? ==>
                && sent.value == GlobalEvent(session.master, |old(entries)|, session, Stamp(event, now))
                && entries == old(entries) + [Stamp(event, now)] && origins == old(origins) + [origin]
                && state.lastApplied == |entries| - 1 && Timed(event, now, sent.value.event)
      ensures sent == None ==> entries == old(entries) && origins == old(origins)
    {
      StampIsTimed(event, now);
      var stamped, idx := Stamp(event, now), eventLog.count;
      state := Apply(state, idx, stamped).value;
      var ok := Record(stamped);
      if !ok {
        return None;
      }
      origins := origins + [origin];
      sent := Some(GlobalEvent(session.master, idx, session, stamped));
    }

    /** The second half, once per drained event: index, apply, append, broadcast. It raises exactly
        on an event that cannot be stored. */
    method IndexNext(event: Event, now: Time) returns (ok: bool, sent: Option<GlobalEvent>)
      requires Valid() && pending != [] && event == pending[0].1
      requires state.lastApplied == |entries| - 1
      modifies this`pending, this`entries, this`origins, this`state, eventLog
      ensures Valid() && ok == (event.body.TracesCollected? || |encode(Stamp(event, now))| < 0x1_0000_0000)
      ensures ok ==> Value() == MasterIndexes(old(Value()), now) && state.lastApplied == |entries| - 1
      ensures ok ==> sent == if event.body.TracesCollected? then None
                             else Some(GlobalEvent(session.master, |old(entries)|, session, Stamp(event, now)))
      ensures !ok ==> entries == old(entries) && sent == None
    {
      ghost var m, origin := Value(), pending[0].0;
      IndexedFields(m, now, origin, event);
      pending := pending[1..];
      if event.body.TracesCollected? {
        return true, None;
      }
      sent := LogNext(event, now, origin);
      ok := sent.Some?;
    }

    /** The first k drained events are indexed: logged after `before` and broadcast. Indexing the
        rest as well leads to `goal`. */
    ghost predicate IndexedSoFar(drained: seq<Event>, k: nat, now: Time, sent: seq<GlobalEvent>, before: seq<Event>, goal: Master)
      requires k <= |drained|
      reads this, sources, sources.stores.Values, eventLog
    {
      && Valid() && state.lastApplied == |entries| - 1
      && drained[k..] == Untagged(pending) && IndexedAll(Value(), now) == goal
      && entries == before + Recorded(drained[..k], now) && sent == Broadcast(session, entries, |before|)
    }

    /** One turn of the event processor's loop. */
    method IndexTurn(drained: seq<Event>, k: nat, now: Time, sent: seq<GlobalEvent>,
                     ghost before: seq<Event>, ghost goal: Master)
      returns (ok: bool, more: seq<GlobalEvent>)
      requires k < |drained| && IndexedSoFar(drained, k, now, sent, before, goal)
      modifies this`pending, this`entries, this`origins, this`state, eventLog
      ensures Valid() && ok == Storable(encode, drained[k], now)
      ensures ok ==> IndexedSoFar(drained, k + 1, now, more, before, goal)
      ensures !ok ==> entries == old(entries) && more == sent
    {
      ghost var event := drained[k];
      assert drained[k..][0] == event && drained[k..][1..] == drained[k + 1..];
      IndexedAllStep(Value(), now);
      BroadcastGrows(session, entries, Stamp(event, now), |before|);
      RecordedNext(before, drained, k, now);
      var broadcast;
      ok, broadcast := IndexNext(drained[k], now);
      assert ok ==> pending == Value().pending && entries == Value().log;
      more := if broadcast.Some? then sent + [broadcast.value] else sent;
    }

    /** Index every drained event, up to the first that cannot be stored. */
    method IndexDrained(drained: seq<Event>, now: Time) returns (ok: bool, sent: seq<GlobalEvent>)
      requires Valid() && drained == Untagged(pending) && state.lastApplied == |entries| - 1
      modifies this`pending, this`entries, this`origins, this`state, eventLog
      ensures Valid() && (ok <==> Through(encode, drained, now) == |drained|)
      ensures ok ==> pending == [] && state.lastApplied == |entries| - 1
      ensures ok ==> Value() == IndexedAll(old(Value()), now)
      ensures entries == old(entries) + Recorded(drained[..Through(encode, drained, now)], now)
      ensures sent == Broadcast(session, entries, |old(entries)|)
    {
      ghost var goal := IndexedAll(Value(), now);
      sent := [];
      assert drained[..0] == [];
      for k := 0 to |drained|
        invariant IndexedSoFar(drained, k, now, sent, old(entries), goal)
        invariant forall j :: 0 <= j < k ==> Storable(encode, drained[j], now)
      {
        ok, sent := IndexTurn(drained, k, now, sent, old(entries), goal);
        if !ok {
          ThroughIs(encode, drained, now, k);
          return;
        }
      }
      ThroughIs(encode, drained, now, |drained|);
      ok := true;
      IndexedAllStep(Value(), now);
    }

    /** The event processor on one local event: receive, then index every drained event. It gives up,
        having logged and broadcast what came before, exactly if one of them cannot be stored. */
    method OnLocalEvent(l: LocalEvent, now: Time) returns (ok: bool, sent: seq<GlobalEvent>, ghost drained: seq<Event>)
      requires Valid() && pending == [] && state.lastApplied == |entries| - 1
      requires l.session == session ==> Accepts(BufferFor(sources.Value(), l.origin), l.idx, l.event)
      modifies this, sources, sources.stores.Values, eventLog
      ensures Valid() && drained == Untagged(MasterReceives(session, old(Value()), l).pending)
      ensures ok <==> Through(encode, drained, now) == |drained|
      ensures ok ==> pending == [] && state.lastApplied == |entries| - 1
      ensures ok ==> Value() == IndexedAll(MasterReceives(session, old(Value()), l), now)
      ensures entries == old(entries) + Recorded(drained[..Through(encode, drained, now)], now)
      ensures sent == Broadcast(session, entries, |old(entries)|)
    {
      ReceivedValue(session, Value(), l);
      var released := Receive(l);
      drained := released;
      ok, sent := IndexDrained(released, now);
    }

    /** Broadcasts a stretch of the log read back from disk. */
    method Announce(payloads: seq<Disk.Payload>, since: nat, ghost log: seq<Event>) returns (sent: seq<GlobalEvent>)
      requires Serialises() && since + |payloads| <= |log|
      requires forall k :: 0 <= k < |payloads| ==> payloads[k] == encode(log[since + k])
      ensures sent == Broadcast(session, log[..since + |payloads|], since)
    {
      sent := [];
      for k := 0 to |payloads|
        invariant sent == Broadcast(session, log[..since + k], since)
      {
        BroadcastGrows(session, log[..since + k], log[since + k], since);
        assert log[..since + k] + [log[since + k]] == log[..since + k + 1];
        sent := sent + [GlobalEvent(session.master, since + k, session, decode(payloads[k]))];
      }
    }

    /** A request for the log: at most a thousand entries from the asked index on, none for an
        index outside the log. */
    method Answer(since: int) returns (sent: seq<GlobalEvent>)
      requires Valid()
      modifies eventLog`disk, eventLog`buffered, eventLog`order, eventLog`cache
      ensures Valid()
      ensures var end := if since + 1000 <= |entries| then since + 1000 else |entries|;
              sent == if 0 <= since <= end then Broadcast(session, entries[..end], since) else []
    {
      var end := if since + REPLY_LIMIT <= eventLog.count then since + REPLY_LIMIT else eventLog.count;
      var payloads := Disk.ReadRange(eventLog, since, end);
      SliceOf(eventLog.records, since, end);
      if payloads == [] {
        return [];
      }
      sent := Announce(payloads, since, entries);
    }
  }
}
