/** The API's copy of the state: the events it folded are the events in its own log on disk, and a
    new session starts both over. It holds requests back while an election is under way. */
module ApiNode {
  import opened Common
  import opened Cluster
  import Disk = DiskEventLog

  // ---------------------------------------------------------------- when requests are held back

  /** What the API hears of elections: a message of one, or that one ended here. */
  datatype Signal = Heard(clock: nat) | Ended(clock: nat)

  /** The clock of the last election that ended. */
  ghost function LastEnded(signals: seq<Signal>): nat
  {
    if signals == [] then 0
    else if signals[|signals| - 1].Ended? then signals[|signals| - 1].clock
    else LastEnded(signals[..|signals| - 1])
  }

  /** The clocks of the messages since the last election ended here. */
  ghost function HeardSince(signals: seq<Signal>): set<nat>
  {
    if signals == [] || signals[|signals| - 1].Ended? then {}
    else HeardSince(signals[..|signals| - 1]) + {signals[|signals| - 1].clock}
  }

  /** One of them is of a later election. */
  ghost predicate LaterUnderWay(signals: seq<Signal>)
  {
    exists clock :: clock in HeardSince(signals) && clock > LastEnded(signals)
  }

  lemma HeardOneMore(signals: seq<Signal>, clock: nat)
    ensures LastEnded(signals + [Heard(clock)]) == LastEnded(signals)
    ensures HeardSince(signals + [Heard(clock)]) == HeardSince(signals) + {clock}
    ensures LaterUnderWay(signals + [Heard(clock)]) <==> LaterUnderWay(signals) || clock > LastEnded(signals)
  {
    var more := signals + [Heard(clock)];
    assert more[..|signals|] == signals;
    assert clock in HeardSince(more);
  }

  lemma EndedOneMore(signals: seq<Signal>, clock: nat)
    ensures LastEnded(signals + [Ended(clock)]) == clock && !LaterUnderWay(signals + [Ended(clock)])
  {
  }

  /** An election heard of before an earlier one ended is not waited for. */
  lemma NewerElectionForgotten(signals: seq<Signal>, earlier: nat, later: nat)
    requires LastEnded(signals) <= earlier < later
    ensures LaterUnderWay(signals + [Heard(later)])
    ensures LastEnded(signals + [Heard(later)] + [Ended(earlier)]) < later
    ensures !LaterUnderWay(signals + [Heard(later)] + [Ended(earlier)])
  {
    HeardOneMore(signals, later);
    EndedOneMore(signals + [Heard(later)], earlier);
  }

  // ---------------------------------------------------------------- the API object

  class ApiState {
    const encode: Event -> Disk.Payload
    var eventLog: Disk.EventLog
    var state: State
    var sentImageHashes: set<ImageHash>
    var lastCompletedElection: nat
    var paused: bool
    ghost var applied: seq<Event>
    ghost var signals: seq<Signal>

    /** Requests are held back exactly while a later election is under way. */
    ghost predicate PausedRight()
      reads this`lastCompletedElection, this`paused, this`signals
    {
      lastCompletedElection == LastEnded(signals) && (paused <==> LaterUnderWay(signals))
    }

    /** The log holds exactly the events the state is the fold of. */
    ghost predicate Logged()
      reads this`state, this`applied, this`eventLog, eventLog
    {
      && eventLog.Valid() && state == Fold(applied) && |eventLog.records| == |applied|
      && forall i :: 0 <= i < |applied| ==> eventLog.records[i] == encode(applied[i])
    }

    constructor (encode: Event -> Disk.Payload)
      ensures Logged() && PausedRight() && applied == [] && signals == [] && sentImageHashes == {}
      ensures this.encode == encode && fresh(eventLog)
    {
      this.encode := encode;
      eventLog := new Disk.EventLog();
      state, applied, sentImageHashes := EMPTY, [], {};
      lastCompletedElection, paused, signals := 0, false, [];
    }

    /** One event from the router: stored, then applied at its index. An event too long to store
        raises before it is applied. */
    method OnEvent(idx: nat, event: Event) returns (ok: bool)
      requires Logged() && idx == |applied|
      modifies this`state, this`applied, eventLog
      ensures Logged() && ok == (|encode(event)| < Disk.LENGTH_LIMIT)
      ensures applied == if ok then old(applied) + [event] else old(applied)
    {
      FoldIndex(applied);
      FoldExtends(applied, event);
      ok := eventLog.Append(encode(event));
      if ok {
        state := Apply(state, idx, event).value;
        applied := applied + [event];
      }
    }

    /** A new session: a new log, the empty state, and every image counts as not sent. */
    method Reset(resultClock: nat)
      modifies this
      ensures Logged() && PausedRight() && applied == [] && state == EMPTY && sentImageHashes == {} && fresh(eventLog)
      ensures signals == old(signals) + [Ended(resultClock)] && !paused
    {
      eventLog := new Disk.EventLog();
      state, applied := EMPTY, [];
      Unpause(resultClock);
      sentImageHashes := {};
    }

    /** The election with that clock has ended here. */
    method Unpause(resultClock: nat)
      modifies this`lastCompletedElection, this`paused, this`signals
      ensures PausedRight() && signals == old(signals) + [Ended(resultClock)] && !paused
    {
      EndedOneMore(signals, resultClock);
      lastCompletedElection := resultClock;
      paused := false;
      signals := signals + [Ended(resultClock)];
    }

    method OnElectionMessage(clock: nat)
      requires PausedRight()
      modifies this`paused, this`signals
      ensures PausedRight() && signals == old(signals) + [Heard(clock)]
    {
      HeardOneMore(signals, clock);
      if clock > lastCompletedElection {
        paused := true;
      }
      signals := signals + [Heard(clock)];
    }
  }
}
