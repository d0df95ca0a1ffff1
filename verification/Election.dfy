/** Master election on one node: the ordering of election messages, the campaign that gathers one
    round's candidates, and the choice every node makes from them. */
module Election {
  import opened Common

  datatype Message = Message(clock: nat, seniority: int, session: Session, commandsSeen: nat)

  /** The round decides first, then seniority, then commands seen, then the node's name. */
  predicate Less(a: Message, b: Message)
  {
    if a.clock != b.clock then a.clock < b.clock
    else if a.seniority != b.seniority then a.seniority < b.seniority
    else if a.commandsSeen != b.commandsSeen then a.commandsSeen < b.commandsSeen
    else a.session.master < b.session.master
  }

  // ---------------------------------------------------------------- the choice

  ghost predicate IsGreatest(m: Message, candidates: seq<Message>)
  {
    m in candidates && forall c :: c in candidates ==> !Less(m, c)
  }

  /** The first of the greatest messages. */
  ghost function Greatest(candidates: seq<Message>): (m: Message)
    requires candidates != []
    ensures IsGreatest(m, candidates)
  {
    var last := |candidates| - 1;
    if last == 0 then candidates[0]
    else
      var best := Greatest(candidates[..last]);
      assert forall c :: c in candidates ==> c in candidates[..last] || c == candidates[last];
      if Less(best, candidates[last]) then candidates[last] else best
  }

  method Max(candidates: seq<Message>) returns (best: Message)
    requires candidates != []
    ensures best == Greatest(candidates)
  {
    best := candidates[0];
    for k := 1 to |candidates|
      invariant best == Greatest(candidates[..k])
    {
      assert candidates[..k + 1][..k] == candidates[..k];
      if Less(best, candidates[k]) {
        best := candidates[k];
      }
    }
    assert candidates[..|candidates|] == candidates;
  }

  /** One message per node: what a round in which everybody sends one status leaves. */
  ghost predicate OnePerNode(candidates: set<Message>)
  {
    forall a, b :: a in candidates && b in candidates && a.session.master == b.session.master ==> a == b
  }

  /** Two nodes that gathered the same messages, in any order and with any repeats, elect the
      same session. */
  lemma SameMessagesSameElection(xs: seq<Message>, ys: seq<Message>)
    requires xs != [] && ys != []
    requires (set m | m in xs) == (set m | m in ys) && OnePerNode(set m | m in xs)
    ensures Greatest(xs) == Greatest(ys)
  {
    var a, b := Greatest(xs), Greatest(ys);
    assert a in (set m | m in xs) && b in (set m | m in ys);
    assert !Less(a, b) && !Less(b, a);
  }

  ghost predicate SameRound(candidates: seq<Message>, clock: nat)
  {
    forall m :: m in candidates ==> m.clock == clock
  }

  const NOT_A_CANDIDATE := -1

  /** Within one round a node that is no candidate wins only when there is no candidate at all,
      and otherwise the winner is a candidate of the highest seniority. */
  lemma NonCandidateWinsOnlyAlone(candidates: seq<Message>, clock: nat)
    requires candidates != [] && SameRound(candidates, clock)
    ensures Greatest(candidates).seniority <= NOT_A_CANDIDATE
       <==> forall m :: m in candidates ==> m.seniority <= NOT_A_CANDIDATE
    ensures forall m :: m in candidates ==> m.seniority <= Greatest(candidates).seniority
  {
    var best := Greatest(candidates);
    assert best in candidates;
    forall m | m in candidates ensures m.seniority <= best.seniority {
      assert !Less(best, m);
    }
  }

  /** Within one round the winner is the most senior; among the most senior, one that has seen the
      most commands; and among those the one with the highest name. */
  lemma WinnerRanksFirst(candidates: seq<Message>, clock: nat, m: Message)
    requires candidates != [] && SameRound(candidates, clock) && m in candidates
    ensures var best := Greatest(candidates);
            || m.seniority < best.seniority
            || (m.seniority == best.seniority && m.commandsSeen < best.commandsSeen)
            || (m.seniority == best.seniority && m.commandsSeen == best.commandsSeen
                && m.session.master <= best.session.master)
  {
    assert !Less(Greatest(candidates), m);
  }

  // ---------------------------------------------------------------- one node

  /** A campaign waits for the one before it to end, then votes until its time is up. */
  datatype Phase = Scheduled | Waiting(on: nat) | Voting | Ended

  datatype Campaign = Campaign(candidates: seq<Message>, clock: nat, phase: Phase, cancelled: bool)

  /** `current` is the campaign whose list still takes messages; `scope` the one a new campaign
      would cancel, and `done` the one it would wait for. */
  datatype Node = Node(
    id: NodeId, seniority: int, clock: nat, commandsSeen: nat, session: Session,
    campaigns: seq<Campaign>, current: nat, scope: Option<nat>, done: Option<nat>)

  datatype Result = Result(session: Session, wonClock: nat, isNewMaster: bool)

  /** Every node starts as its own master, with its first campaign about to run. */
  function Started(id: NodeId, seniority: int): Node
  {
    Node(id, seniority, 0, 0, Session(id, 0), [Campaign([], 0, Scheduled, false)], 0, None, None)
  }

  function Status(n: Node, clock: nat): Message
  {
    Message(clock, n.seniority,
            if n.session.master == n.id then n.session else Session(n.id, clock), n.commandsSeen)
  }

  ghost function NewRound(n: Node, clock: nat, first: seq<Message>): Node
  {
    n.(clock := clock, current := |n.campaigns|,
       campaigns := n.campaigns + [Campaign(first, 0, Scheduled, false)])
  }

  ghost predicate WellFormed(n: Node)
  {
    && n.current < |n.campaigns|
    && (n.scope.Some? ==> n.scope.value < |n.campaigns|)
    && (n.done.Some? ==> n.done.value < |n.campaigns|)
    && (forall i :: 0 <= i < |n.campaigns| && n.campaigns[i].phase.Waiting? ==>
          n.campaigns[i].phase.on < |n.campaigns|)
    && (forall i :: 0 <= i < |n.campaigns| && n.campaigns[i].phase.Voting? ==> n.campaigns[i].candidates != [])
  }

  ghost predicate StartsRound(n: Node, m: Message)
  {
    m.session.master != n.id && m.clock > n.clock
  }

  /** The node's own messages are dropped, a later round is joined, an earlier one ignored. */
  ghost function Heard(n: Node, m: Message): Node
    requires WellFormed(n)
  {
    if m.session.master == n.id then n
    else if m.clock > n.clock then NewRound(n, m.clock, [m])
    else if m.clock < n.clock then n
    else n.(campaigns := n.campaigns[n.current :=
              n.campaigns[n.current].(candidates := n.campaigns[n.current].candidates + [m])])
  }

  ghost function PeerChanged(n: Node): Node
  {
    NewRound(n, n.clock + 1, [])
  }

  ghost function CommandSeen(n: Node): Node
  {
    n.(commandsSeen := n.commandsSeen + 1)
  }

  ghost function Cancelled(campaigns: seq<Campaign>, scope: Option<nat>): seq<Campaign>
    requires scope.Some? ==> scope.value < |campaigns|
  {
    if scope.None? then campaigns else campaigns[scope.value := campaigns[scope.value].(cancelled := true)]
  }

  /** The campaign enters its own status and starts voting. */
  ghost function Begun(n: Node, c: nat): Node
    requires c < |n.campaigns|
  {
    var k := n.campaigns[c];
    n.(campaigns := n.campaigns[c := k.(candidates := k.candidates + [Status(n, k.clock)], phase := Voting)],
       scope := Some(c), done := Some(c))
  }

  /** A campaign's first stretch: it reads the clock, cancels the campaign before it, and waits
      for that one to be done. */
  ghost function Entered(n: Node, c: nat): Node
    requires WellFormed(n) && c < |n.campaigns| && n.campaigns[c].phase.Scheduled?
  {
    var entered := n.(campaigns := Cancelled(n.campaigns[c := n.campaigns[c].(clock := n.clock)], n.scope));
    if n.done.None? then Begun(entered, c)
    else entered.(campaigns := entered.campaigns[c := entered.campaigns[c].(phase := Waiting(n.done.value))])
  }

  ghost function Closed(n: Node, c: nat): Node
    requires c < |n.campaigns|
  {
    n.(campaigns := n.campaigns[c := n.campaigns[c].(phase := Ended)],
       scope := if n.scope == Some(c) then None else n.scope)
  }

  /** The election: the winner's session becomes current, and a winning candidate gains seniority. */
  ghost function Won(n: Node, c: nat): Node
    requires c < |n.campaigns| && n.campaigns[c].candidates != []
  {
    var candidates := n.campaigns[c].candidates;
    var elected := Greatest(candidates);
    var seniority := if n.id == elected.session.master && n.seniority >= 0 && |candidates| > n.seniority
                     then |candidates| else n.seniority;
    Closed(n.(seniority := seniority, session := elected.session), c)
  }

  ghost function Verdict(n: Node, c: nat): Result
    requires c < |n.campaigns| && n.campaigns[c].candidates != []
  {
    var elected := Greatest(n.campaigns[c].candidates);
    Result(elected.session, elected.clock, elected.session != n.session)
  }

  // ---------------------------------------------------------------- any interleaving

  datatype Move =
    | Hear(message: Message)
    | Peer
    | Command
    | Enter(campaign: nat)
    | Wake(campaign: nat)
    | Finish(campaign: nat)
    | Stop(campaign: nat)

  ghost predicate Enabled(n: Node, move: Move)
  {
    match move
    case Hear(_) => true
    case Peer => true
    case Command => true
    case Enter(c) => c < |n.campaigns| && n.campaigns[c].phase.Scheduled?
    case Wake(c) =>
      && c < |n.campaigns| && n.campaigns[c].phase.Waiting?
      && n.campaigns[c].phase.on < |n.campaigns| && n.campaigns[n.campaigns[c].phase.on].phase.Ended?
    case Finish(c) => c < |n.campaigns| && n.campaigns[c].phase.Voting? && !n.campaigns[c].cancelled
    case Stop(c) => c < |n.campaigns| && n.campaigns[c].phase.Voting? && n.campaigns[c].cancelled
  }

  ghost function After(n: Node, move: Move): Node
    requires WellFormed(n) && Enabled(n, move)
  {
    match move
    case Hear(m) => Heard(n, m)
    case Peer => PeerChanged(n)
    case Command => CommandSeen(n)
    case Enter(c) => Entered(n, c)
    case Wake(c) => Begun(n, c)
    case Finish(c) => Won(n, c)
    case Stop(c) => Closed(n, c)
  }

  /** Whichever order the receivers and campaigns run in, the list that still takes messages
      holds messages of the current round only. */
  ghost predicate RoundInv(n: Node)
  {
    && WellFormed(n)
    && SameRound(n.campaigns[n.current].candidates, n.clock)
    && (!n.campaigns[n.current].phase.Scheduled? ==> n.campaigns[n.current].clock == n.clock)
  }

  lemma MoveKeepsWellFormed(n: Node, move: Move)
    requires WellFormed(n) && Enabled(n, move)
    ensures WellFormed(After(n, move))
  {
  }

  lemma MoveKeepsRound(n: Node, move: Move)
    requires RoundInv(n) && Enabled(n, move)
    ensures RoundInv(After(n, move))
  {
    MoveKeepsWellFormed(n, move);
  }

  ghost predicate NodeRun(ns: seq<Node>, moves: seq<Move>)
  {
    && |ns| == |moves| + 1
    && forall i :: 0 <= i < |moves| ==>
         WellFormed(ns[i]) && Enabled(ns[i], moves[i]) && ns[i + 1] == After(ns[i], moves[i])
  }

  lemma {:induction false} EveryListIsOneRound(ns: seq<Node>, moves: seq<Move>, id: NodeId, seniority: int)
    requires NodeRun(ns, moves) && ns[0] == Started(id, seniority)
    ensures forall i :: 0 <= i < |ns| ==> RoundInv(ns[i])
    decreases |ns|
  {
    if |ns| > 1 {
      var last := |moves| - 1;
      EveryListIsOneRound(ns[..|ns| - 1], moves[..last], id, seniority);
      assert RoundInv(ns[..|ns| - 1][last]);
      MoveKeepsRound(ns[last], moves[last]);
    }
  }

  /** A node that is no candidate never gains seniority; a candidate never loses any, and one that
      wins is from then on at least as senior as it gathered messages. */
  lemma SeniorityOnlyGrows(n: Node, move: Move)
    requires WellFormed(n) && Enabled(n, move)
    ensures After(n, move).seniority >= n.seniority
    ensures n.seniority < 0 ==> After(n, move).seniority == n.seniority
    ensures After(n, move).seniority > n.seniority ==>
              move.Finish? && Verdict(n, move.campaign).session.master == n.id
    ensures move.Finish? && Verdict(n, move.campaign).session.master == n.id && n.seniority >= 0 ==>
              After(n, move).seniority >= |n.campaigns[move.campaign].candidates|
  {
  }

  /** Two nodes whose rounds end with the same messages go on in the same session, and each finds
      its master new exactly when it was in another session before. */
  lemma NodesAgree(a: Node, ca: nat, b: Node, cb: nat)
    requires WellFormed(a) && Enabled(a, Finish(ca)) && WellFormed(b) && Enabled(b, Finish(cb))
    requires (set m | m in a.campaigns[ca].candidates) == (set m | m in b.campaigns[cb].candidates)
    requires OnePerNode(set m | m in a.campaigns[ca].candidates)
    ensures After(a, Finish(ca)).session == After(b, Finish(cb)).session
    ensures Verdict(a, ca).session == Verdict(b, cb).session == After(a, Finish(ca)).session
    ensures Verdict(a, ca).isNewMaster <==> After(a, Finish(ca)).session != a.session
  {
    SameMessagesSameElection(a.campaigns[ca].candidates, b.campaigns[cb].candidates);
  }

  // ---------------------------------------------------------------- the object

  class Elector {
    const id: NodeId
    var seniority: int
    var clock: nat
    var commandsSeen: nat
    var currentSession: Session
    var campaigns: seq<Campaign>
    var current: nat
    var cancelScope: Option<nat>
    var campaignDone: Option<nat>

    ghost function Value(): Node
      reads this
    {
      Node(id, seniority, clock, commandsSeen, currentSession, campaigns, current, cancelScope, campaignDone)
    }

    constructor (id: NodeId, isCandidate: bool, seniority: int)
      ensures Value() == Started(id, if isCandidate then seniority else -1)
      ensures RoundInv(Value())
    {
      this.id, this.seniority := id, if isCandidate then seniority else NOT_A_CANDIDATE;
      clock, commandsSeen, currentSession := 0, 0, Session(id, 0);
      campaigns, current := [Campaign([], 0, Scheduled, false)], 0;
      cancelScope, campaignDone := None, None;
    }

    method StartRound(first: seq<Message>)
      modifies this`campaigns, this`current
      ensures Value() == NewRound(old(Value()), clock, first)
    {
      current := |campaigns|;
      campaigns := campaigns + [Campaign(first, 0, Scheduled, false)];
    }

    /** One message from the election receiver. */
    method OnMessage(message: Message)
      requires WellFormed(Value())
      modifies this`clock, this`campaigns, this`current
      ensures Value() == After(old(Value()), Hear(message))
    {
      if message.session.master == id {
        return;
      }
      if message.clock > clock {
        clock := message.clock;
        StartRound([message]);
        return;
      }
      if message.clock < clock {
        return;
      }
      var k := campaigns[current];
      campaigns := campaigns[current := k.(candidates := k.candidates + [message])];
    }

    method OnConnection()
      requires WellFormed(Value())
      modifies this`clock, this`campaigns, this`current
      ensures Value() == After(old(Value()), Peer)
    {
      clock := clock + 1;
      StartRound([]);
    }

    method OnCommand()
      requires WellFormed(Value())
      modifies this`commandsSeen
      ensures Value() == After(old(Value()), Command)
    {
      commandsSeen := commandsSeen + 1;
    }

    method BeginVote(c: nat)
      requires c < |campaigns|
      modifies this`campaigns, this`cancelScope, this`campaignDone
      ensures Value() == Begun(old(Value()), c)
    {
      campaignDone := Some(c);
      cancelScope := Some(c);
      var k := campaigns[c];
      var status := Message(k.clock, seniority,
                            if currentSession.master == id then currentSession else Session(id, k.clock),
                            commandsSeen);
      campaigns := campaigns[c := k.(candidates := k.candidates + [status], phase := Voting)];
    }

    /** A campaign up to its first wait. */
    method EnterCampaign(c: nat)
      requires WellFormed(Value()) && Enabled(Value(), Enter(c))
      modifies this`campaigns, this`cancelScope, this`campaignDone
      ensures Value() == After(old(Value()), Enter(c))
    {
      campaigns := campaigns[c := campaigns[c].(clock := clock)];
      if cancelScope.Some? {
        campaigns := campaigns[cancelScope.value := campaigns[cancelScope.value].(cancelled := true)];
      }
      if campaignDone.Some? {
        campaigns := campaigns[c := campaigns[c].(phase := Waiting(campaignDone.value))];
      } else {
        BeginVote(c);
      }
    }

    /** The end of a campaign, however it came: its scope is released and it is done. */
    method EndCampaign(c: nat)
      requires c < |campaigns|
      modifies this`campaigns, this`cancelScope
      ensures Value() == Closed(old(Value()), c)
    {
      if cancelScope == Some(c) {
        cancelScope := None;
      }
      campaigns := campaigns[c := campaigns[c].(phase := Ended)];
    }

    /** A campaign that woke from its sleep uncancelled. */
    method FinishCampaign(c: nat) returns (result: Result)
      requires WellFormed(Value()) && Enabled(Value(), Finish(c))
      modifies this`seniority, this`currentSession, this`campaigns, this`cancelScope
      ensures Value() == After(old(Value()), Finish(c)) && result == Verdict(old(Value()), c)
    {
      var elected := Max(campaigns[c].candidates);
      if id == elected.session.master && seniority >= 0 {
        seniority := if |campaigns[c].candidates| > seniority then |campaigns[c].candidates| else seniority;
      }
      result := Result(elected.session, elected.clock, elected.session != currentSession);
      currentSession := elected.session;
      EndCampaign(c);
    }
  }
}
