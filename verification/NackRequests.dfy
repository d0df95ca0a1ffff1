/** A router's requests for missing log entries: which of them an arrival in order can still stop. A
    request is started by an arrival out of order, begins some time later, and is then under way until
    it has been sent or stopped. */
module NackRequests {

  /** The scope of the request that took it last, while that one is under way, and whether it was told
      to stop. */
  datatype NackScope = NoScope | Active(id: nat) | CancelCalled(id: nat)

  /** Requests are numbered as they begin. `waiting` counts those started and not yet begun; `told` is
      history: those that were told to stop. */
  datatype Nacks = Nacks(scope: NackScope, begun: nat, waiting: nat, underWay: set<nat>, told: set<nat>)

  const NO_NACKS := Nacks(NoScope, 0, 0, {}, {})

  datatype NackMove = OutOfOrder | InOrder | Begin | End(id: nat)

  ghost predicate CanMove(n: Nacks, move: NackMove)
  {
    (move.Begin? ==> n.waiting > 0) && (move.End? ==> move.id in n.underWay)
  }

  ghost function Moved(n: Nacks, move: NackMove): Nacks
    requires CanMove(n, move)
  {
    match move
    case OutOfOrder => if n.scope.Active? then n else n.(waiting := n.waiting + 1)
    case InOrder =>
      if n.scope.Active? then n.(scope := CancelCalled(n.scope.id), told := n.told + {n.scope.id}) else n
    case Begin =>
      n.(scope := Active(n.begun), begun := n.begun + 1, waiting := n.waiting - 1, underWay := n.underWay + {n.begun})
    case End(id) =>
      n.(scope := if n.scope == Active(id) || n.scope == CancelCalled(id) then NoScope else n.scope,
         underWay := n.underWay - {id})
  }

  /** The scope is that of the newest request for as long as that request is under way, and says
      whether it was told to stop. */
  ghost predicate NacksInv(n: Nacks)
  {
    && (forall id :: id in n.underWay || id in n.told ==> id < n.begun)
    && (n.scope == NoScope <==> n.begun - 1 !in n.underWay)
    && (n.scope != NoScope ==> n.scope.id == n.begun - 1 && (n.scope.CancelCalled? <==> n.scope.id in n.told))
  }

  lemma MoveKeepsNacks(n: Nacks, move: NackMove)
    requires NacksInv(n) && CanMove(n, move)
    ensures NacksInv(Moved(n, move))
  {
  }

  ghost predicate MoveAt(ns: seq<Nacks>, moves: seq<NackMove>, i: nat)
    requires i < |moves| && i + 1 < |ns|
  {
    CanMove(ns[i], moves[i]) && ns[i + 1] == Moved(ns[i], moves[i])
  }

  ghost predicate NackRun(ns: seq<Nacks>, moves: seq<NackMove>)
  {
    && |ns| == |moves| + 1 && ns[0] == NO_NACKS
    && forall i :: 0 <= i < |moves| ==> MoveAt(ns, moves, i)
  }

  lemma {:induction false} EveryNackState(ns: seq<Nacks>, moves: seq<NackMove>, i: nat)
    requires NackRun(ns, moves) && i < |ns|
    ensures NacksInv(ns[i])
  {
    if i > 0 {
      EveryNackState(ns, moves, i - 1);
      assert MoveAt(ns, moves, i - 1);
      MoveKeepsNacks(ns[i - 1], moves[i - 1]);
    }
  }

  // ---------------------------------------------------------------- requests nothing can stop

  /** Under way, never told to stop, and no longer the one an arrival in order would tell. */
  ghost predicate Stray(n: Nacks, id: nat)
  {
    id in n.underWay && id !in n.told && n.scope != Active(id)
  }

  /** A request becomes stray exactly when another begins and finds it active. */
  lemma BecomesStrayExactly(n: Nacks, move: NackMove, id: nat)
    requires NacksInv(n) && CanMove(n, move)
    ensures !Stray(n, id) && Stray(Moved(n, move), id) <==> move.Begin? && n.scope == Active(id)
  {
  }

  /** Once stray it is never told to stop: it stays stray until it has been sent. */
  lemma StrayIsNeverTold(n: Nacks, move: NackMove, id: nat)
    requires NacksInv(n) && CanMove(n, move) && Stray(n, id)
    ensures id !in Moved(n, move).told
    ensures Stray(Moved(n, move), id) <==> move != End(id)
  {
  }

  lemma {:induction false} StrayHasBeginning(ns: seq<Nacks>, moves: seq<NackMove>, i: nat, id: nat) returns (k: nat)
    requires NackRun(ns, moves) && i < |ns| && Stray(ns[i], id)
    ensures k < i && moves[k].Begin? && ns[k].scope == Active(id)
  {
    EveryNackState(ns, moves, i - 1);
    assert MoveAt(ns, moves, i - 1);
    if Stray(ns[i - 1], id) {
      k := StrayHasBeginning(ns, moves, i - 1, id);
    } else {
      BecomesStrayExactly(ns[i - 1], moves[i - 1], id);
      k := i - 1;
    }
  }

  ghost predicate SomeStray(ns: seq<Nacks>)
  {
    exists i, id :: 0 <= i < |ns| && Stray(ns[i], id)
  }

  /** A request begins while another is active. */
  ghost predicate TakesOver(ns: seq<Nacks>, moves: seq<NackMove>, i: nat)
    requires i < |moves| && i < |ns|
  {
    moves[i].Begin? && ns[i].scope.Active?
  }

  /** In every run, some request gets out of reach if and only if some request begins while another is
      active. */
  lemma StraysExactly(ns: seq<Nacks>, moves: seq<NackMove>)
    requires NackRun(ns, moves)
    ensures SomeStray(ns) <==> exists i :: 0 <= i < |moves| && TakesOver(ns, moves, i)
  {
    if i, id :| 0 <= i < |ns| && Stray(ns[i], id) {
      var k := StrayHasBeginning(ns, moves, i, id);
      assert TakesOver(ns, moves, k);
    }
    if i :| 0 <= i < |moves| && TakesOver(ns, moves, i) {
      EveryNackState(ns, moves, i);
      assert MoveAt(ns, moves, i);
      BecomesStrayExactly(ns[i], moves[i], ns[i].scope.id);
      assert Stray(ns[i + 1], ns[i].scope.id);
    }
  }

  // ---------------------------------------------------------------- when every request begins at once

  /** No event arrives while a request is started and has not begun. */
  ghost predicate Prompt(ns: seq<Nacks>, moves: seq<NackMove>)
  {
    NackRun(ns, moves) && forall i :: 0 <= i < |moves| && (moves[i].OutOfOrder? || moves[i].InOrder?) ==> ns[i].waiting == 0
  }

  /** At most one request waits to begin, and none while another is active. */
  ghost predicate PromptInv(n: Nacks)
  {
    n.waiting <= 1 && (n.scope.Active? ==> n.waiting == 0)
  }

  lemma {:induction false} PromptStates(ns: seq<Nacks>, moves: seq<NackMove>, i: nat)
    requires Prompt(ns, moves) && i < |ns|
    ensures PromptInv(ns[i])
  {
    if i > 0 {
      PromptStates(ns, moves, i - 1);
      assert MoveAt(ns, moves, i - 1);
    }
  }

  lemma PromptNeverTakesOver(ns: seq<Nacks>, moves: seq<NackMove>, i: nat)
    requires Prompt(ns, moves) && i < |moves|
    ensures !TakesOver(ns, moves, i)
  {
    PromptStates(ns, moves, i);
    assert MoveAt(ns, moves, i);
  }

  /** Then every request under way that was not told to stop is the one in the scope, so there is at
      most one, and an arrival in order stops it. */
  lemma PromptRequestsStop(ns: seq<Nacks>, moves: seq<NackMove>, i: nat)
    requires Prompt(ns, moves) && i < |ns|
    ensures forall id :: id in ns[i].underWay && id !in ns[i].told ==> ns[i].scope == Active(id)
    ensures Moved(ns[i], InOrder).underWay <= Moved(ns[i], InOrder).told
  {
    forall k: nat | k < |moves| ensures !TakesOver(ns, moves, k) {
      PromptNeverTakesOver(ns, moves, k);
    }
    StraysExactly(ns, moves);
    forall id | id in ns[i].underWay && id !in ns[i].told ensures ns[i].scope == Active(id) {
      assert !Stray(ns[i], id);
    }
  }

  lemma OneMoveMore(ns: seq<Nacks>, moves: seq<NackMove>, move: NackMove) returns (more: seq<Nacks>, all: seq<NackMove>)
    requires NackRun(ns, moves) && CanMove(ns[|moves|], move)
    ensures NackRun(more, all) && all == moves + [move] && more[|all|] == Moved(ns[|moves|], move)
  {
    more, all := ns + [Moved(ns[|moves|], move)], moves + [move];
    forall i | 0 <= i < |all| ensures MoveAt(more, all, i) {
      assert i < |moves| ==> MoveAt(ns, moves, i);
    }
  }

  /** Two arrivals out of order before the request of the first begins: both begin, and the arrival in
      order that follows stops the second only. */
  lemma FirstOfTwoIsNeverTold() returns (ns: seq<Nacks>, moves: seq<NackMove>)
    ensures NackRun(ns, moves) && moves == [OutOfOrder] + [OutOfOrder] + [Begin] + [Begin] + [InOrder]
    ensures ns[5].underWay == {0, 1} && ns[5].told == {1} && Stray(ns[5], 0)
  {
    ns, moves := OneMoveMore([NO_NACKS], [], OutOfOrder);
    ns, moves := OneMoveMore(ns, moves, OutOfOrder);
    ns, moves := OneMoveMore(ns, moves, Begin);
    ns, moves := OneMoveMore(ns, moves, Begin);
    ns, moves := OneMoveMore(ns, moves, InOrder);
  }
}
