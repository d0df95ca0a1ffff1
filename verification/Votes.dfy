/** What a node says of itself in an election: its own message in a campaign's list, over every run of
    its campaigns, and what that means for a node that is no candidate. */
module Votes {
  import opened Common
  import opened Election

  /** How many commands the node has seen. */
  ghost function Commands(moves: seq<Move>): nat
  {
    if moves == [] then 0
    else Commands(moves[..|moves| - 1]) + if moves[|moves| - 1].Command? then 1 else 0
  }

  /** The k-th move is the one with which campaign c begins to vote. */
  ghost predicate BeginsVoting(ns: seq<Node>, k: nat, c: nat)
    requires k + 1 < |ns|
  {
    && c < |ns[k].campaigns| && c < |ns[k + 1].campaigns|
    && !ns[k].campaigns[c].phase.Voting? && ns[k + 1].campaigns[c].phase.Voting?
  }

  /** The message says what the node was like when the campaign began to vote. */
  ghost predicate SaysItself(ns: seq<Node>, moves: seq<Move>, k: nat, c: nat, m: Message)
    requires k < |moves| && |ns| == |moves| + 1
  {
    && BeginsVoting(ns, k, c)
    && m.seniority == ns[k].seniority && m.commandsSeen == Commands(moves[..k])
    && m.clock == ns[k + 1].campaigns[c].clock
    && m.session == (if ns[k].session.master == ns[k].id then ns[k].session else Session(ns[k].id, m.clock))
  }

  ghost predicate SaysItselfOnce(ns: seq<Node>, moves: seq<Move>, i: nat, c: nat, m: Message)
    requires i <= |moves| && |ns| == |moves| + 1
  {
    exists k :: 0 <= k < i && SaysItself(ns, moves, k, c, m)
  }

  /** Every message of the node's own in any of its lists. */
  ghost predicate OwnMessagesTrue(ns: seq<Node>, moves: seq<Move>, i: nat)
    requires i <= |moves| && |ns| == |moves| + 1
  {
    forall c, m :: 0 <= c < |ns[i].campaigns| && m in ns[i].campaigns[c].candidates && m.session.master == ns[i].id ==>
      SaysItselfOnce(ns, moves, i, c, m)
  }

  lemma CommandsMore(moves: seq<Move>, i: nat)
    requires i < |moves|
    ensures Commands(moves[..i + 1]) == Commands(moves[..i]) + if moves[i].Command? then 1 else 0
  {
    assert moves[..i + 1][..i] == moves[..i];
  }

  // ---------------------------------------------------------------- one move

  /** An own message is old, or the move begins the campaign's vote with it. */
  lemma NewOwnMessage(n: Node, move: Move, n': Node, c: nat, m: Message)
    requires WellFormed(n) && Enabled(n, move) && n' == After(n, move)
    requires c < |n'.campaigns| && m in n'.campaigns[c].candidates && m.session.master == n.id
    ensures c < |n.campaigns|
    ensures m in n.campaigns[c].candidates
            || (&& !n.campaigns[c].phase.Voting? && n'.campaigns[c].phase.Voting?
                && m.seniority == n.seniority && m.commandsSeen == n.commandsSeen && m.clock == n'.campaigns[c].clock
                && m.session == if n.session.master == n.id then n.session else Session(n.id, m.clock))
  {
  }

  /** A campaign's clock is read once, before it has any message of the node's own. */
  ghost predicate ClockFits(n: Node, c: nat)
    requires c < |n.campaigns|
  {
    var k := n.campaigns[c];
    && (k.phase.Scheduled? || k.phase.Waiting? ==> forall m :: m in k.candidates ==> m.session.master != n.id)
    && (forall m :: m in k.candidates && m.session.master == n.id ==> m.clock == k.clock)
    && (k.phase.Voting? ==> exists m :: m in k.candidates && m.session.master == n.id)
  }

  ghost predicate ClocksFit(n: Node)
  {
    forall c :: 0 <= c < |n.campaigns| ==> ClockFits(n, c)
  }

  ghost predicate Pending(k: Campaign)
  {
    k.phase.Scheduled? || k.phase.Waiting?
  }

  lemma BegunFits(n: Node, c: nat)
    requires WellFormed(n) && c < |n.campaigns| && ClocksFit(n) && Pending(n.campaigns[c])
    ensures ClocksFit(Begun(n, c))
  {
    var n' := Begun(n, c);
    var own := Status(n, n.campaigns[c].clock);
    assert n'.campaigns[c].candidates == n.campaigns[c].candidates + [own];
    assert own in n'.campaigns[c].candidates;
    forall d | 0 <= d < |n'.campaigns| ensures ClockFits(n', d) {
      assert ClockFits(n, d);
    }
  }

  lemma EnteredFits(n: Node, c: nat)
    requires WellFormed(n) && c < |n.campaigns| && n.campaigns[c].phase.Scheduled? && ClocksFit(n)
    ensures ClocksFit(Entered(n, c))
  {
    assert ClockFits(n, c);
    var k := n.campaigns[c].(clock := n.clock);
    var read := n.(campaigns := n.campaigns[c := k]);
    forall d | 0 <= d < |read.campaigns| ensures ClockFits(read, d) {
      assert ClockFits(n, d);
    }
    var entered := n.(campaigns := Cancelled(n.campaigns[c := k], n.scope));
    forall d | 0 <= d < |entered.campaigns| ensures ClockFits(entered, d) {
      assert ClockFits(read, d);
    }
    if n.done.None? {
      BegunFits(entered, c);
    } else {
      forall d | 0 <= d < |n.campaigns| ensures ClockFits(Entered(n, c), d) {
        assert ClockFits(entered, d);
      }
    }
  }

  lemma MoveFits(n: Node, move: Move)
    requires WellFormed(n) && Enabled(n, move) && ClocksFit(n)
    ensures ClocksFit(After(n, move))
  {
    match move
    case Enter(c) => EnteredFits(n, c);
    case Wake(c) => BegunFits(n, c);
    case _ =>
      forall d | 0 <= d < |After(n, move).campaigns| ensures ClockFits(After(n, move), d) {
        assert d < |n.campaigns| ==> ClockFits(n, d);
      }
  }

  // ---------------------------------------------------------------- every run

  ghost predicate RunFrom(ns: seq<Node>, moves: seq<Move>, id: NodeId, seniority: int)
  {
    NodeRun(ns, moves) && ns[0] == Started(id, seniority)
  }

  lemma {:induction false} EveryState(ns: seq<Node>, moves: seq<Move>, id: NodeId, seniority: int, i: nat)
    requires RunFrom(ns, moves, id, seniority) && i < |ns|
    ensures ns[i].id == id && ns[i].commandsSeen == Commands(moves[..i]) && ClocksFit(ns[i])
  {
    if i > 0 {
      EveryState(ns, moves, id, seniority, i - 1);
      CommandsMore(moves, i - 1);
      MoveFits(ns[i - 1], moves[i - 1]);
    }
  }

  lemma SaysItselfLater(ns: seq<Node>, moves: seq<Move>, id: NodeId, seniority: int, b: nat, c: nat, m: Message)
    requires RunFrom(ns, moves, id, seniority) && b < |moves| && OwnMessagesTrue(ns, moves, b)
    requires c < |ns[b + 1].campaigns| && m in ns[b + 1].campaigns[c].candidates && m.session.master == id
    ensures SaysItselfOnce(ns, moves, b + 1, c, m)
  {
    EveryState(ns, moves, id, seniority, b);
    NewOwnMessage(ns[b], moves[b], ns[b + 1], c, m);
    if m in ns[b].campaigns[c].candidates {
      assert SaysItselfOnce(ns, moves, b, c, m);
    } else {
      assert SaysItself(ns, moves, b, c, m);
    }
  }

  /** In every run, each of the node's own messages in a list says how senior the node was, in which
      session, and how many commands it had seen, when the campaign of that list began to vote. */
  lemma {:induction false} EveryOwnMessageIsTrue(ns: seq<Node>, moves: seq<Move>, id: NodeId, seniority: int, i: nat)
    requires RunFrom(ns, moves, id, seniority) && i < |ns|
    ensures OwnMessagesTrue(ns, moves, i)
  {
    if i > 0 {
      EveryOwnMessageIsTrue(ns, moves, id, seniority, i - 1);
      EveryState(ns, moves, id, seniority, i);
      forall c, m | 0 <= c < |ns[i].campaigns| && m in ns[i].campaigns[c].candidates && m.session.master == ns[i].id
        ensures SaysItselfOnce(ns, moves, i, c, m)
      {
        SaysItselfLater(ns, moves, id, seniority, i - 1, c, m);
      }
    }
  }

  // ---------------------------------------------------------------- a node that is no candidate

  lemma {:induction false} StaysNoCandidate(ns: seq<Node>, moves: seq<Move>, id: NodeId, seniority: int, i: nat)
    requires RunFrom(ns, moves, id, seniority) && i < |ns| && seniority < 0
    ensures ns[i].seniority == seniority
  {
    if i > 0 {
      StaysNoCandidate(ns, moves, id, seniority, i - 1);
      SeniorityOnlyGrows(ns[i - 1], moves[i - 1]);
    }
  }

  lemma OwnMessageOfNoCandidate(ns: seq<Node>, moves: seq<Move>, id: NodeId, seniority: int, i: nat, c: nat, m: Message)
    requires RunFrom(ns, moves, id, seniority) && i < |ns| && seniority < 0
    requires c < |ns[i].campaigns| && m in ns[i].campaigns[c].candidates && m.session.master == id
    ensures m.seniority < 0 && m.clock == ns[i].campaigns[c].clock
  {
    EveryState(ns, moves, id, seniority, i);
    assert ClockFits(ns[i], c);
    EveryOwnMessageIsTrue(ns, moves, id, seniority, i);
    assert SaysItselfOnce(ns, moves, i, c, m);
    var k :| 0 <= k < i && SaysItself(ns, moves, k, c, m);
    StaysNoCandidate(ns, moves, id, seniority, k);
  }

  /** A node that is no candidate wins a campaign only if every candidate's message in it is of an
      earlier round than the one the campaign was entered in. */
  lemma NoCandidateWinsOnlyOverOlder(ns: seq<Node>, moves: seq<Move>, id: NodeId, seniority: int, i: nat, c: nat, m: Message)
    requires RunFrom(ns, moves, id, seniority) && i < |ns| && seniority < 0
    requires WellFormed(ns[i]) && Enabled(ns[i], Finish(c)) && Verdict(ns[i], c).session.master == id
    requires m in ns[i].campaigns[c].candidates && m.seniority >= 0
    ensures m.clock < ns[i].campaigns[c].clock
  {
    var best := Greatest(ns[i].campaigns[c].candidates);
    OwnMessageOfNoCandidate(ns, moves, id, seniority, i, c, best);
    assert !Less(best, m);
  }

  /** Among candidates it wins if and only if all of their messages are that old. */
  lemma NoCandidateWinsExactly(ns: seq<Node>, moves: seq<Move>, id: NodeId, seniority: int, i: nat, c: nat)
    requires RunFrom(ns, moves, id, seniority) && i < |ns| && seniority < 0
    requires WellFormed(ns[i]) && Enabled(ns[i], Finish(c))
    requires forall m :: m in ns[i].campaigns[c].candidates && m.session.master != id ==> m.seniority >= 0
    ensures Verdict(ns[i], c).session.master == id
       <==> forall m :: m in ns[i].campaigns[c].candidates && m.session.master != id ==> m.clock < ns[i].campaigns[c].clock
  {
    var candidates, best := ns[i].campaigns[c].candidates, Greatest(ns[i].campaigns[c].candidates);
    if best.session.master == id {
      forall m | m in candidates && m.session.master != id ensures m.clock < ns[i].campaigns[c].clock {
        NoCandidateWinsOnlyOverOlder(ns, moves, id, seniority, i, c, m);
      }
    } else {
      EveryState(ns, moves, id, seniority, i);
      assert ClockFits(ns[i], c);
      var own :| own in candidates && own.session.master == id;
      assert !Less(best, own);
      assert best.clock >= ns[i].campaigns[c].clock;
    }
  }

  // ---------------------------------------------------------------- a campaign entered late

  const FIRST_CALL := Message(1, 5, Session(2, 1), 0)
  const SECOND_CALL := Message(2, 5, Session(2, 2), 0)

  /** Node 1 votes in its first round. */
  ghost function Alone(): Node
  {
    var own := Message(0, NOT_A_CANDIDATE, Session(1, 0), 0);
    Node(1, NOT_A_CANDIDATE, 0, 0, Session(1, 0), [Campaign([own], 0, Voting, false)], 0, Some(0), Some(0))
  }

  /** It is called twice before either campaign is entered. */
  ghost function Called(): Node
  {
    var n := Alone();
    n.(clock := 2, current := 2, campaigns := n.campaigns
         + [Campaign([FIRST_CALL], 0, Scheduled, false), Campaign([SECOND_CALL], 0, Scheduled, false)])
  }

  /** Both read the second round's clock and wait for the first campaign. */
  ghost function Late(): Node
  {
    var n := Called();
    n.(campaigns := [n.campaigns[0].(cancelled := true), Campaign([FIRST_CALL], 2, Waiting(0), false),
                     Campaign([SECOND_CALL], 2, Waiting(0), false)])
  }

  lemma AloneIs()
    ensures WellFormed(Started(1, NOT_A_CANDIDATE)) && Enabled(Started(1, NOT_A_CANDIDATE), Enter(0))
    ensures After(Started(1, NOT_A_CANDIDATE), Enter(0)) == Alone()
  {
    assert Entered(Started(1, NOT_A_CANDIDATE), 0).campaigns[0].candidates == [Message(0, NOT_A_CANDIDATE, Session(1, 0), 0)];
  }

  lemma CalledIs()
    ensures WellFormed(Alone()) && WellFormed(Heard(Alone(), FIRST_CALL))
    ensures Heard(Heard(Alone(), FIRST_CALL), SECOND_CALL) == Called()
  {
    assert Heard(Heard(Alone(), FIRST_CALL), SECOND_CALL).campaigns == Called().campaigns;
  }

  lemma LateIs()
    ensures WellFormed(Called()) && Enabled(Called(), Enter(1)) && WellFormed(Entered(Called(), 1))
    ensures Enabled(Entered(Called(), 1), Enter(2)) && Entered(Entered(Called(), 1), 2) == Late()
  {
    assert Entered(Entered(Called(), 1), 2).campaigns == Late().campaigns;
  }

  lemma LateVotes()
    ensures WellFormed(Late()) && Enabled(Late(), Stop(0)) && WellFormed(Closed(Late(), 0))
    ensures Enabled(Closed(Late(), 0), Wake(1))
    ensures var n := Begun(Closed(Late(), 0), 1);
            && WellFormed(n) && Enabled(n, Finish(1)) && Verdict(n, 1).session.master == 1
            && n.campaigns[1].candidates == [FIRST_CALL, Message(2, NOT_A_CANDIDATE, Session(1, 0), 0)]
  {
    var own := Message(2, NOT_A_CANDIDATE, Session(1, 0), 0);
    var n := Begun(Closed(Late(), 0), 1);
    assert n.campaigns[1].candidates == [FIRST_CALL, own];
    var best := Greatest([FIRST_CALL, own]);
    assert own in [FIRST_CALL, own] && !Less(best, own);
  }

  lemma OneMoveMore(ns: seq<Node>, moves: seq<Move>, move: Move, n: Node) returns (more: seq<Node>, all: seq<Move>)
    requires NodeRun(ns, moves) && WellFormed(ns[|moves|]) && Enabled(ns[|moves|], move)
    requires n == After(ns[|moves|], move)
    ensures NodeRun(more, all) && more[|all|] == n && more[0] == ns[0]
  {
    more, all := ns + [n], moves + [move];
  }

  lemma RunToLate() returns (ns: seq<Node>, moves: seq<Move>)
    ensures RunFrom(ns, moves, 1, NOT_A_CANDIDATE) && ns[|moves|] == Late()
  {
    AloneIs();
    CalledIs();
    LateIs();
    ns, moves := [Started(1, NOT_A_CANDIDATE)], [];
    ns, moves := OneMoveMore(ns, moves, Enter(0), Alone());
    ns, moves := OneMoveMore(ns, moves, Hear(FIRST_CALL), Heard(Alone(), FIRST_CALL));
    ns, moves := OneMoveMore(ns, moves, Hear(SECOND_CALL), Called());
    ns, moves := OneMoveMore(ns, moves, Enter(1), Entered(Called(), 1));
    ns, moves := OneMoveMore(ns, moves, Enter(2), Late());
  }

  /** Two rounds are called while the first campaign votes, and the campaign of the first of them is
      entered only after the second call: it votes under the second round's clock, and the node, which
      is no candidate, wins it over the candidate that called. */
  lemma LateEntryBeatsCandidate() returns (ns: seq<Node>, moves: seq<Move>)
    ensures RunFrom(ns, moves, 1, NOT_A_CANDIDATE)
    ensures var n := ns[|moves|];
            && WellFormed(n) && Enabled(n, Finish(1)) && Verdict(n, 1).session.master == 1
            && FIRST_CALL in n.campaigns[1].candidates
  {
    LateVotes();
    ns, moves := RunToLate();
    ns, moves := OneMoveMore(ns, moves, Stop(0), Closed(Late(), 0));
    ns, moves := OneMoveMore(ns, moves, Wake(1), Begun(Closed(Late(), 0), 1));
  }
}
