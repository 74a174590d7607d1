/** The declared set of sleepers along runs of the machine: as long as no deadline is taken twice and
    no timed receiver but the earliest gets a message, it lists what the machine's sleepers list; and a
    run after which it does not, and what that leads to. */
module SleeperRuns {
  import opened Base
  import opened Queues
  import opened Machine
  import opened Invariant
  import opened Safety
  import opened RunQueue
  import opened SleeperSet
  import Channels
  import Lists
  import Tour
  import Waiters

  /** tree' may be the declared set after a step that does `op`, from core c to c'; the library may
      balance it in any way. */
  predicate SetAfter(c: Core, op: Waiters.ListOp, c': Core, tree: Tree, tree': Tree) {
    match op
    case Sleeps(t, _) => InOrder(tree') == InOrder(Insert(c'.tasks, tree, t))
    case Expires => tree.Node? && InOrder(tree') == InOrder(EraseFirst(tree))
    case Rouses(t) => ErasedZeroed(c.tasks, tree, t, tree')
    case _ => InOrder(tree') == InOrder(tree)
  }

  /** A filing takes a deadline that is free, and a woken timed receiver is the earliest sleeper. */
  ghost predicate Careful(c: Core, op: Waiters.ListOp) {
    match op
    case Sleeps(_, wake) => forall u :: u in c.sleepers ==> WakeOf(c.tasks, u) != wake
    case Rouses(t) => forall u :: u in c.sleepers ==> WakeOf(c.tasks, t) <= WakeOf(c.tasks, u)
    case _ => true
  }

  /** The deadlines of all sleepers but the one that the step moves are as before. */
  lemma DeadlinesKept(s: State, a: Action, s': State)
    requires Reachable(s) && Step(s, a) == Next(s')
    ensures forall u :: u in s.core.sleepers && !Waiters.MovedBy(s.core, Waiters.ListOpOf(s, a), u) ==>
              WakeOf(s'.core.tasks, u) == WakeOf(s.core.tasks, u)
  {
    forall u | u in s.core.sleepers && !Waiters.MovedBy(s.core, Waiters.ListOpOf(s, a), u)
      ensures WakeOf(s'.core.tasks, u) == WakeOf(s.core.tasks, u)
    {
      Waiters.WaitersAreIdle(s, a, u);
      Waiters.StepLists(s, a, s');
    }
  }

  lemma FilingStep(c: Core, t: Tid, wake: nat, c': Core, tree: Tree, tree': Tree)
    requires Agrees(c.tasks, tree, c.sleepers) && t !in c.sleepers
    requires Waiters.ListsAfter(c, Waiters.Sleeps(t, wake), c') && SetAfter(c, Waiters.Sleeps(t, wake), c', tree, tree')
    requires forall u :: u in c.sleepers ==> WakeOf(c'.tasks, u) == WakeOf(c.tasks, u)
    ensures Agrees(c'.tasks, tree', c'.sleepers) <==> Careful(c, Waiters.Sleeps(t, wake))
  {
    AgreesFrame(c.tasks, c'.tasks, tree, c.sleepers);
    forall u ensures In(u, tree) <==> u in c.sleepers {
      InIsInOrder(u, tree);
    }
    InsertAgreesIff(c'.tasks, tree, t);
    if Careful(c, Waiters.Sleeps(t, wake)) {
      Rebalanced(c'.tasks, Insert(c'.tasks, tree, t), tree', c'.sleepers);
    } else {
      OrderedDistinct(c.tasks, tree);
      Lists.InsertMembers(c'.tasks, c.sleepers, t);
      InIsInOrder(t, Insert(c'.tasks, tree, t));
    }
  }

  lemma ExpiryStep(c: Core, c': Core, tree: Tree, tree': Tree)
    requires Agrees(c.tasks, tree, c.sleepers)
    requires Waiters.ListsAfter(c, Waiters.Expires, c') && SetAfter(c, Waiters.Expires, c', tree, tree')
    requires forall u :: u in c.sleepers && u != c.sleepers[0] ==> WakeOf(c'.tasks, u) == WakeOf(c.tasks, u)
    ensures Agrees(c'.tasks, tree', c'.sleepers)
  {
    EraseFirstAgrees(c.tasks, tree);
    OrderedDistinct(c.tasks, tree);
    DistinctTail(c.sleepers);
    AgreesFrame(c.tasks, c'.tasks, EraseFirst(tree), c'.sleepers);
    Rebalanced(c'.tasks, EraseFirst(tree), tree', c'.sleepers);
  }

  lemma RousingStep(c: Core, t: Tid, c': Core, tree: Tree, tree': Tree)
    requires Agrees(c.tasks, tree, c.sleepers) && t in c.sleepers && t < |c.tasks|
    requires Waiters.ListsAfter(c, Waiters.Rouses(t), c') && SetAfter(c, Waiters.Rouses(t), c', tree, tree')
    requires forall u :: u in c.sleepers && u != t ==> WakeOf(c'.tasks, u) == WakeOf(c.tasks, u)
    ensures Agrees(c'.tasks, tree', c'.sleepers) <==> Careful(c, Waiters.Rouses(t))
  {
    InIsInOrder(t, tree);
    EarliestAmong(c, tree, t);
    EraseAfterZeroing(c.tasks, tree, t);
    if Earliest(c.tasks, tree, t) {
      WithoutAgrees(c.tasks, tree, c'.tasks, tree', t);
    }
  }

  /** A step of the machine keeps the declared set in agreement with the machine's sleepers if and only
      if it is careful. */
  lemma StepAgreesIff(s: State, a: Action, s': State, tree: Tree, tree': Tree)
    requires Reachable(s) && Step(s, a) == Next(s') && Agrees(s.core.tasks, tree, s.core.sleepers)
    requires SetAfter(s.core, Waiters.ListOpOf(s, a), s'.core, tree, tree')
    ensures Agrees(s'.core.tasks, tree', s'.core.sleepers) <==> Careful(s.core, Waiters.ListOpOf(s, a))
  {
    Waiters.StepLists(s, a, s');
    DeadlinesKept(s, a, s');
    Waiters.MovedFrom(s, a, s');
    match Waiters.ListOpOf(s, a)
    case Sleeps(t, wake) => FilingStep(s.core, t, wake, s'.core, tree, tree');
    case Expires => ExpiryStep(s.core, s'.core, tree, tree');
    case Rouses(t) =>
      Waiters.MessageFor(s, a, s');
      TimedIsAsleep(s, t);
      RousingStep(s.core, t, s'.core, tree, tree');
    case _ =>
      AgreesFrame(s.core.tasks, s'.core.tasks, tree, s.core.sleepers);
      Rebalanced(s'.core.tasks, tree, tree', s.core.sleepers);
  }

  lemma TimedIsAsleep(s: State, t: Tid)
    requires Reachable(s) && !s.destroyed && t < |s.core.tasks| && s.core.tasks[t].state.TimeoutWaitting?
    ensures Live(s, t) ==> t in s.core.sleepers
  {
    var pl := ReachablePlacement(s);
    assert TaskOk(s.core.tasks[t], s.ctx[t], pl[t], Leaver(s) == Some(t));
  }

  /** trees[k] may be the declared set before step k, and all steps are careful. */
  ghost predicate SetRun(states: seq<State>, actions: seq<Action>, trees: seq<Tree>)
    requires |states| == |actions| + 1
  {
    && |trees| == |states|
    && forall k {:trigger actions[k]} :: 0 <= k < |actions| ==>
         SetAfter(states[k].core, Waiters.ListOpOf(states[k], actions[k]), states[k + 1].core, trees[k], trees[k + 1])
  }

  /** Along any run whose steps are careful the declared set goes on agreeing with the machine's
      sleepers. */
  lemma {:induction false} RunAgrees(states: seq<State>, actions: seq<Action>, trees: seq<Tree>, n: nat)
    requires IsRun(states, actions) && SetRun(states, actions, trees) && n <= |actions| && Reachable(states[0])
    requires Agrees(states[0].core.tasks, trees[0], states[0].core.sleepers)
    requires forall k {:trigger actions[k]} :: 0 <= k < n ==> Careful(states[k].core, Waiters.ListOpOf(states[k], actions[k]))
    ensures Agrees(states[n].core.tasks, trees[n], states[n].core.sleepers)
  {
    if n == 0 {
    } else {
      RunAgrees(states, actions, trees, n - 1);
      Channels.ReachableAlong(states, actions, n - 1);
      StepAgreesIff(states[n - 1], actions[n - 1], states[n], trees[n - 1], trees[n]);
    }
  }

  // ----- a run that is not careful

  /** The tree of two sleepers, the second filed after the first. */
  function TwoNap(): Tree {
    Node(Leaf, 0, Node(Leaf, 1, Leaf))
  }

  /** The program's core after the post to the second sleeper: the erase finds nothing to remove. */
  function StaleCore(m: Message): Core {
    Dispatch(Tour.BothNap().core, 1, m, false).value
  }

  /** Two timed receivers sleep, and the set lists both. */
  lemma TwoNapAgrees()
    ensures Reachable(Tour.BothNap()) && Agrees(Tour.BothNap().core.tasks, TwoNap(), [0, 1])
  {
    Tour.BothNapReachable();
    SortedOrdered(Tour.BothNap().core.tasks, TwoNap());
  }

  /** The port service may post to the second, whose deadline is the later. */
  lemma PostIsCareless(m: Message)
    requires m.PortMsg?
    ensures Step(Tour.BothNap(), PortPost(1, m.content, 0)).Next? && Tour.BothNap().core.sleepers == [0, 1]
    ensures !Careful(Tour.BothNap().core, Waiters.ListOpOf(Tour.BothNap(), PortPost(1, m.content, 0)))
  {
    assert 0 in Tour.BothNap().core.sleepers;
  }

  /** Then the second stays in the declared set, with deadline 0, behind the first; and it is queued. */
  lemma PostLeavesStale(m: Message)
    requires m.PortMsg?
    ensures var z := Zeroed(Tour.BothNap().core.tasks, 1);
            EraseRange(z, TwoNap(), 1) == EraseFound(z, TwoNap(), 1) == [0, 1]
    ensures Dispatch(Tour.BothNap().core, 1, m, false).Ok? && StaleCore(m).sleepers == [0, 1] && StaleCore(m).runq == [1]
  {
    LowerBoundZero(Zeroed(Tour.BothNap().core.tasks, 1), TwoNap());
  }

  /** If the timer then finds the first due while the second is still queued, it queues the second
      again: the run queue is linked twice through one tasklet. */
  lemma StaleIsQueuedTwice(m: Message)
    requires m.PortMsg?
    ensures Scan(StaleCore(m), 5) == Bad(ListCorrupted)
  {
  }

  /** If a threadlet has taken the second by then, it is queued while it runs. */
  lemma StaleIsQueuedRunning(m: Message)
    requires m.PortMsg?
    ensures var popped := PopRunnable(StaleCore(m));
      && popped.Ok? && popped.value.1 == 1 && popped.value.0.tasks[1].state.Running?
      && var r := Scan(popped.value.0, 5);
         r.Ok? && r.value.runq == [0, 1]
  {
    var c := PopRunnable(StaleCore(m)).value.0;
    var c1 := ExpireFirst(c).value;
    assert c1.runq == [0] && c1.sleepers == [1];
    var c2 := ExpireFirst(c1).value;
    assert c2.runq == [0, 1] && c2.sleepers == [];
    assert Scan(c2, 5) == Ok(c2);
    assert Scan(c1, 5) == Scan(c2, 5);
  }
}
