/** `_sleepers` as the program declares it: a std::set whose comparator reads nothing but `_wake`,
    and whose members' `_wake` is overwritten while they are in it.  The rest of the model uses
    the intended collection, a sequence ordered by deadline with ties kept, from which erase removes
    that very tasklet; here is, operation by operation, exactly when the declared set agrees with
    it.  An erase by key from a set whose order is broken is undefined by the standard of C++; it is
    modelled in the two ways in which libraries search for the key. */
module SleeperSet {
  import opened Base
  import opened Queues
  import Lists

  /** A search tree of any shape; how the library balances it is not modelled. */
  datatype Tree = Leaf | Node(left: Tree, t: Tid, right: Tree)

  /** The members in the order in which the timer's scan meets them. */
  function InOrder(tree: Tree): seq<Tid> {
    match tree
    case Leaf => []
    case Node(l, t, r) => InOrder(l) + [t] + InOrder(r)
  }

  predicate In(t: Tid, tree: Tree) {
    match tree
    case Leaf => false
    case Node(l, u, r) => In(t, l) || t == u || In(t, r)
  }

  /** Comp: no other field takes part. */
  predicate Less(tasks: seq<Task>, a: Tid, b: Tid) {
    WakeOf(tasks, a) < WakeOf(tasks, b)
  }

  ghost predicate Ordered(tasks: seq<Task>, tree: Tree) {
    match tree
    case Leaf => true
    case Node(l, t, r) =>
      && Ordered(tasks, l) && Ordered(tasks, r)
      && (forall u :: In(u, l) ==> Less(tasks, u, t))
      && (forall u :: In(u, r) ==> Less(tasks, t, u))
  }

  function Insert(tasks: seq<Task>, tree: Tree, t: Tid): Tree {
    match tree
    case Leaf => Node(Leaf, t, Leaf)
    case Node(l, u, r) =>
      if Less(tasks, t, u) then Node(Insert(tasks, l, t), u, r)
      else if Less(tasks, u, t) then Node(l, u, Insert(tasks, r, t))
      else tree                                   // an equivalent member: t is not inserted
  }

  /** The erase of the timer's scan, by position: the first member goes. */
  function EraseFirst(tree: Tree): Tree
    requires tree.Node?
  {
    if tree.left.Leaf? then tree.right else Node(EraseFirst(tree.left), tree.t, tree.right)
  }

  /** The declared set is in order and lists what the intended collection `xs` does. */
  ghost predicate Agrees(tasks: seq<Task>, tree: Tree, xs: seq<Tid>) {
    Ordered(tasks, tree) && InOrder(tree) == xs
  }

  // ----- members and their order

  lemma {:induction false} InIsInOrder(t: Tid, tree: Tree)
    ensures In(t, tree) <==> t in InOrder(tree)
  {
    match tree
    case Leaf =>
    case Node(l, u, r) =>
      InIsInOrder(t, l);
      InIsInOrder(t, r);
  }

  lemma {:induction false} OrderedDistinct(tasks: seq<Task>, tree: Tree)
    requires Ordered(tasks, tree)
    ensures Distinct(InOrder(tree))
  {
    match tree
    case Leaf =>
    case Node(l, u, r) =>
      OrderedDistinct(tasks, l);
      OrderedDistinct(tasks, r);
      forall v ensures In(v, l) <==> v in InOrder(l) ensures In(v, r) <==> v in InOrder(r) {
        InIsInOrder(v, l);
        InIsInOrder(v, r);
      }
      DistinctJoin(InOrder(l), u, InOrder(r));
  }

  lemma DistinctJoin(xs: seq<Tid>, u: Tid, ys: seq<Tid>)
    requires Distinct(xs) && Distinct(ys) && u !in xs && u !in ys && forall v :: v in xs ==> v !in ys
    ensures Distinct(xs + [u] + ys)
  {
    var zs := xs + [u] + ys;
    forall i, j | 0 <= i < j < |zs| ensures zs[i] != zs[j] {
      if i < |xs| { assert zs[i] in xs; }
      if j > |xs| { assert zs[j] in ys; }
    }
  }

  /** Only the deadlines of members matter. */
  lemma {:induction false} OrderedFrame(tasks: seq<Task>, tasks': seq<Task>, tree: Tree)
    requires Ordered(tasks, tree) && forall u :: In(u, tree) ==> WakeOf(tasks', u) == WakeOf(tasks, u)
    ensures Ordered(tasks', tree)
  {
    match tree
    case Leaf =>
    case Node(l, u, r) =>
      assert In(u, tree);
      OrderedFrame(tasks, tasks', l);
      OrderedFrame(tasks, tasks', r);
  }

  // ----- filing a sleeper

  lemma {:induction false} InsertBefore(tasks: seq<Task>, xs: seq<Tid>, u: Tid, ys: seq<Tid>, t: Tid)
    requires Less(tasks, t, u)
    ensures InsertByWake(tasks, xs + [u] + ys, t) == InsertByWake(tasks, xs, t) + [u] + ys
  {
    if xs == [] {
      assert xs + [u] + ys == [u] + ys;
    } else {
      assert (xs + [u] + ys)[1..] == xs[1..] + [u] + ys;
      InsertBefore(tasks, xs[1..], u, ys, t);
    }
  }

  lemma {:induction false} InsertBehind(tasks: seq<Task>, xs: seq<Tid>, ys: seq<Tid>, t: Tid)
    requires forall v :: v in xs ==> !Less(tasks, t, v)
    ensures InsertByWake(tasks, xs + ys, t) == xs + InsertByWake(tasks, ys, t)
  {
    if xs == [] {
      assert xs + ys == ys;
    } else {
      assert (xs + ys)[1..] == xs[1..] + ys && xs[0] in xs;
      InsertBehind(tasks, xs[1..], ys, t);
    }
  }

  ghost predicate Tied(tasks: seq<Task>, tree: Tree, t: Tid) {
    exists u :: In(u, tree) && WakeOf(tasks, u) == WakeOf(tasks, t)
  }

  /** A tie can only be on the side to which the search for t turns. */
  lemma TiedBelow(tasks: seq<Task>, tree: Tree, t: Tid)
    requires Ordered(tasks, tree) && tree.Node?
    ensures Less(tasks, t, tree.t) ==> (Tied(tasks, tree, t) <==> Tied(tasks, tree.left, t))
    ensures Less(tasks, tree.t, t) ==> (Tied(tasks, tree, t) <==> Tied(tasks, tree.right, t))
    ensures !Less(tasks, t, tree.t) && !Less(tasks, tree.t, t) ==> Tied(tasks, tree, t)
  {
    assert In(tree.t, tree);
    forall v ensures In(v, tree) <==> In(v, tree.left) || v == tree.t || In(v, tree.right) {
    }
    if Tied(tasks, tree, t) {
      var v :| In(v, tree) && WakeOf(tasks, v) == WakeOf(tasks, t);
      assert Less(tasks, t, tree.t) ==> In(v, tree.left);
      assert Less(tasks, tree.t, t) ==> In(v, tree.right);
    }
  }

  lemma {:induction false} InsertMembers(tasks: seq<Task>, tree: Tree, t: Tid)
    requires Ordered(tasks, tree)
    ensures forall v :: In(v, Insert(tasks, tree, t)) <==> In(v, tree) || (v == t && !Tied(tasks, tree, t))
  {
    match tree
    case Leaf =>
    case Node(l, u, r) =>
      InsertMembers(tasks, l, t);
      InsertMembers(tasks, r, t);
      assert In(u, tree);
      TiedBelow(tasks, tree, t);
  }

  lemma {:induction false} InsertUntied(tasks: seq<Task>, tree: Tree, t: Tid)
    requires Ordered(tasks, tree) && !Tied(tasks, tree, t)
    ensures Agrees(tasks, Insert(tasks, tree, t), InsertByWake(tasks, InOrder(tree), t))
  {
    match tree
    case Leaf =>
    case Node(l, u, r) =>
      assert In(u, tree);
      if Less(tasks, t, u) {
        assert !Tied(tasks, l, t);
        InsertUntied(tasks, l, t);
        InsertMembers(tasks, l, t);
        InsertBefore(tasks, InOrder(l), u, InOrder(r), t);
      } else {
        assert !Tied(tasks, r, t);
        InsertUntied(tasks, r, t);
        InsertMembers(tasks, r, t);
        forall v | v in InOrder(l) + [u] ensures !Less(tasks, t, v) {
          InIsInOrder(v, l);
        }
        InsertBehind(tasks, InOrder(l) + [u], InOrder(r), t);
      }
  }

  /** A tasklet that goes to sleep: the declared set agrees with the intended collection if and
      only if no sleeper has the same deadline; otherwise the tasklet is lost. */
  lemma InsertAgreesIff(tasks: seq<Task>, tree: Tree, t: Tid)
    requires Ordered(tasks, tree) && !In(t, tree)
    ensures Agrees(tasks, Insert(tasks, tree, t), InsertByWake(tasks, InOrder(tree), t)) <==> !Tied(tasks, tree, t)
    ensures In(t, Insert(tasks, tree, t)) <==> !Tied(tasks, tree, t)
  {
    InsertMembers(tasks, tree, t);
    if Tied(tasks, tree, t) {
      InIsInOrder(t, tree);
      InIsInOrder(t, Insert(tasks, tree, t));
      OrderedDistinct(tasks, tree);
      Lists.InsertMembers(tasks, InOrder(tree), t);
    } else {
      InsertUntied(tasks, tree, t);
    }
  }

  // ----- expiry

  /** The timer's scan starts at the first member and takes it away, in either collection. */
  lemma {:induction false} EraseFirstAgrees(tasks: seq<Task>, tree: Tree)
    requires Ordered(tasks, tree) && tree.Node?
    ensures InOrder(tree) != [] && Agrees(tasks, EraseFirst(tree), InOrder(tree)[1..])
    ensures forall u :: In(u, EraseFirst(tree)) ==> In(u, tree)
  {
    if tree.left.Leaf? {
      assert InOrder(tree) == [tree.t] + InOrder(tree.right);
    } else {
      EraseFirstAgrees(tasks, tree.left);
      assert InOrder(tree)[1..] == InOrder(tree.left)[1..] + [tree.t] + InOrder(tree.right);
    }
  }

  // ----- erasing by key

  /** lower_bound: how many members lie before the place to which the search for `key` leads. */
  function LowerBound(tasks: seq<Task>, tree: Tree, key: nat): (n: nat)
    ensures n <= |InOrder(tree)|
  {
    match tree
    case Leaf => 0
    case Node(l, u, r) =>
      if WakeOf(tasks, u) < key then |InOrder(l)| + 1 + LowerBound(tasks, r, key) else LowerBound(tasks, l, key)
  }

  /** upper_bound, likewise. */
  function UpperBound(tasks: seq<Task>, tree: Tree, key: nat): (n: nat)
    ensures n <= |InOrder(tree)|
  {
    match tree
    case Leaf => 0
    case Node(l, u, r) =>
      if key < WakeOf(tasks, u) then UpperBound(tasks, l, key) else |InOrder(l)| + 1 + UpperBound(tasks, r, key)
  }

  /** erase(t), as the standard has it: all members from the lower to the upper bound go.  The bounds
      are in order where this is used: see `KeyBounds` and `LowerBoundZero`. */
  function EraseRange(tasks: seq<Task>, tree: Tree, t: Tid): seq<Tid> {
    var xs, key := InOrder(tree), WakeOf(tasks, t);
    var lo, hi := LowerBound(tasks, tree, key), UpperBound(tasks, tree, key);
    if lo <= hi then xs[..lo] + xs[hi..] else xs
  }

  /** erase(t), where the library looks the member up first: the one at the lower bound goes, if its
      deadline is not greater. */
  function EraseFound(tasks: seq<Task>, tree: Tree, t: Tid): seq<Tid> {
    var xs, key := InOrder(tree), WakeOf(tasks, t);
    var lo := LowerBound(tasks, tree, key);
    if lo < |xs| && WakeOf(tasks, xs[lo]) <= key then xs[..lo] + xs[lo + 1..] else xs
  }

  lemma {:induction false} AllBefore(tasks: seq<Task>, tree: Tree, key: nat)
    requires forall u :: In(u, tree) ==> WakeOf(tasks, u) < key
    ensures LowerBound(tasks, tree, key) == |InOrder(tree)|
  {
    match tree
    case Leaf =>
    case Node(l, u, r) =>
      assert In(u, tree);
      AllBefore(tasks, r, key);
  }

  lemma {:induction false} AllBehind(tasks: seq<Task>, tree: Tree, key: nat)
    requires forall u :: In(u, tree) ==> key < WakeOf(tasks, u)
    ensures UpperBound(tasks, tree, key) == 0
  {
    match tree
    case Leaf =>
    case Node(l, u, r) =>
      assert In(u, tree);
      AllBehind(tasks, l, key);
  }

  /** In a set in order the bounds for a member's deadline enclose just that member. */
  lemma {:induction false} KeyBounds(tasks: seq<Task>, tree: Tree, t: Tid)
    requires Ordered(tasks, tree) && In(t, tree)
    ensures var n, key := LowerBound(tasks, tree, WakeOf(tasks, t)), WakeOf(tasks, t);
            n < |InOrder(tree)| && InOrder(tree)[n] == t && UpperBound(tasks, tree, key) == n + 1
  {
    match tree
    case Leaf =>
    case Node(l, u, r) =>
      if t == u {
        AllBefore(tasks, l, WakeOf(tasks, t));
        AllBehind(tasks, r, WakeOf(tasks, t));
      } else if In(t, l) {
        KeyBounds(tasks, l, t);
      } else {
        KeyBounds(tasks, r, t);
      }
  }

  /** Erasing a tasklet whose `_wake` still is its deadline removes that very tasklet. */
  lemma EraseIntended(tasks: seq<Task>, tree: Tree, t: Tid)
    requires Ordered(tasks, tree) && In(t, tree)
    ensures EraseRange(tasks, tree, t) == EraseFound(tasks, tree, t) == Without(InOrder(tree), t)
  {
    KeyBounds(tasks, tree, t);
    OrderedDistinct(tasks, tree);
    WithoutAt(InOrder(tree), LowerBound(tasks, tree, WakeOf(tasks, t)));
  }

  // ----- erasing a tasklet whose `_wake` was zeroed first

  function Zeroed(tasks: seq<Task>, t: Tid): seq<Task> {
    if t < |tasks| then tasks[t := tasks[t].(wake := 0)] else tasks
  }

  lemma {:induction false} LowerBoundZero(tasks: seq<Task>, tree: Tree)
    ensures LowerBound(tasks, tree, 0) == 0
  {
    match tree
    case Leaf =>
    case Node(l, _, _) => LowerBoundZero(tasks, l);
  }

  ghost predicate Earliest(tasks: seq<Task>, tree: Tree, t: Tid) {
    forall u :: In(u, tree) ==> WakeOf(tasks, t) <= WakeOf(tasks, u)
  }

  lemma {:induction false} EarliestBound(tasks: seq<Task>, tree: Tree, t: Tid)
    requires Ordered(tasks, tree) && In(t, tree) && t < |tasks| && Earliest(tasks, tree, t)
    ensures UpperBound(Zeroed(tasks, t), tree, 0) == 1
  {
    match tree
    case Leaf =>
    case Node(l, u, r) =>
      assert In(u, tree);
      if u == t {
        assert l.Leaf? by {
          if l.Node? { assert In(l.t, l) && In(l.t, tree); }
        }
        AllBehind(Zeroed(tasks, t), r, 0);
      } else {
        assert !In(t, r);
        EarliestBound(tasks, l, t);
      }
  }

  /** The earliest member of a set in order is its first. */
  lemma EarliestIsFirst(tasks: seq<Task>, tree: Tree, t: Tid)
    requires Ordered(tasks, tree) && In(t, tree)
    ensures InOrder(tree) != [] && (Earliest(tasks, tree, t) <==> InOrder(tree)[0] == t)
  {
    var xs := InOrder(tree);
    InOrderSorted(tasks, tree);
    InIsInOrder(t, tree);
    InIsInOrder(xs[0], tree);
    forall u | In(u, tree) ensures WakeOf(tasks, xs[0]) <= WakeOf(tasks, u) {
      InIsInOrder(u, tree);
      var k :| 0 <= k < |xs| && xs[k] == u;
      assert k > 0 ==> Less(tasks, xs[0], xs[k]);
    }
    var k :| 0 <= k < |xs| && xs[k] == t;
    assert k > 0 ==> Less(tasks, xs[0], xs[k]);
  }

  /** Cutting off a front of a sequence removes just t if and only if that is t alone. */
  lemma CutOff(xs: seq<Tid>, k: nat, t: Tid)
    requires Distinct(xs) && t in xs && k <= |xs|
    ensures xs[k..] == Without(xs, t) <==> k == 1 && xs[0] == t
  {
    var n :| 0 <= n < |xs| && xs[n] == t;
    WithoutAt(xs, n);
    if n > 0 && k == 1 {
      assert (xs[..n] + xs[n + 1..])[0] == xs[0] && xs[1..][0] == xs[1];
    }
  }

  /** active_tasklet zeroes `_wake` and then erases: in any set in order, and whichever way the
      library searches, that removes just this tasklet if and only if it has the earliest deadline.
      Otherwise the tasklet stays in the set, or the earliest is lost with it. */
  lemma EraseAfterZeroing(tasks: seq<Task>, tree: Tree, t: Tid)
    requires Ordered(tasks, tree) && In(t, tree) && t < |tasks|
    ensures var z, xs := Zeroed(tasks, t), InOrder(tree);
      && (EraseRange(z, tree, t) == Without(xs, t) <==> Earliest(tasks, tree, t))
      && (EraseFound(z, tree, t) == Without(xs, t) <==> Earliest(tasks, tree, t))
      && (!Earliest(tasks, tree, t) ==> t in EraseRange(z, tree, t) || xs[0] !in EraseRange(z, tree, t))
      && (!Earliest(tasks, tree, t) ==> t in EraseFound(z, tree, t))
  {
    var z, xs := Zeroed(tasks, t), InOrder(tree);
    LowerBoundZero(z, tree);
    OrderedDistinct(tasks, tree);
    InIsInOrder(t, tree);
    EarliestIsFirst(tasks, tree, t);
    var hi := UpperBound(z, tree, 0);
    CutOff(xs, hi, t);
    CutOff(xs, 1, t);
    CutOff(xs, 0, t);
    assert EraseRange(z, tree, t) == xs[hi..];
    assert EraseFound(z, tree, t) == xs[if WakeOf(z, xs[0]) == 0 then 1 else 0..];
    if Earliest(tasks, tree, t) {
      EarliestBound(tasks, tree, t);
    } else if hi == 0 {
      assert xs[0..] == xs;
    }
  }

  ghost predicate StrictlySorted(tasks: seq<Task>, xs: seq<Tid>) {
    forall i, j :: 0 <= i < j < |xs| ==> Less(tasks, xs[i], xs[j])
  }

  lemma {:induction false} InOrderSorted(tasks: seq<Task>, tree: Tree)
    requires Ordered(tasks, tree)
    ensures StrictlySorted(tasks, InOrder(tree))
  {
    match tree
    case Leaf =>
    case Node(l, u, r) =>
      InOrderSorted(tasks, l);
      InOrderSorted(tasks, r);
      forall v ensures In(v, l) <==> v in InOrder(l) ensures In(v, r) <==> v in InOrder(r) {
        InIsInOrder(v, l);
        InIsInOrder(v, r);
      }
      SortedJoin(tasks, InOrder(l), u, InOrder(r));
  }

  lemma SortedJoin(tasks: seq<Task>, xs: seq<Tid>, u: Tid, ys: seq<Tid>)
    requires StrictlySorted(tasks, xs) && StrictlySorted(tasks, ys)
    requires (forall v :: v in xs ==> Less(tasks, v, u)) && (forall v :: v in ys ==> Less(tasks, u, v))
    ensures StrictlySorted(tasks, xs + [u] + ys)
  {
    var zs := xs + [u] + ys;
    forall i, j | 0 <= i < j < |zs| ensures Less(tasks, zs[i], zs[j]) {
      if i < |xs| { assert zs[i] in xs; }
      if j > |xs| { assert zs[j] in ys; }
    }
  }

  // ----- the scheduler's operations, on either collection

  lemma {:induction false} SortedOrdered(tasks: seq<Task>, tree: Tree)
    requires StrictlySorted(tasks, InOrder(tree))
    ensures Ordered(tasks, tree)
  {
    match tree
    case Leaf =>
    case Node(l, u, r) =>
      var xs, ys, zs := InOrder(l), InOrder(r), InOrder(tree);
      assert zs[..|xs|] == xs && zs[|xs|] == u && zs[|xs| + 1..] == ys;
      SortedOrdered(tasks, l);
      SortedOrdered(tasks, r);
      forall v | In(v, l) ensures Less(tasks, v, u) {
        InIsInOrder(v, l);
        var k :| 0 <= k < |xs| && xs[k] == v;
        assert Less(tasks, zs[k], zs[|xs|]);
      }
      forall v | In(v, r) ensures Less(tasks, u, v) {
        InIsInOrder(v, r);
        var k :| 0 <= k < |ys| && ys[k] == v;
        assert Less(tasks, zs[|xs|], zs[|xs| + 1 + k]);
      }
  }

  lemma AgreesFrame(tasks: seq<Task>, tasks': seq<Task>, tree: Tree, xs: seq<Tid>)
    requires Agrees(tasks, tree, xs) && forall u :: u in xs ==> WakeOf(tasks', u) == WakeOf(tasks, u)
    ensures Agrees(tasks', tree, xs)
  {
    forall u | In(u, tree) ensures WakeOf(tasks', u) == WakeOf(tasks, u) {
      InIsInOrder(u, tree);
    }
    OrderedFrame(tasks, tasks', tree);
  }

  /** `sleep` and the timed `recv`: the two collections go on agreeing if and only if the deadline
      is not taken. */
  lemma FilingAgreesIff(c: Core, tree: Tree, t: Tid, st: TState, wake: nat)
    requires t < |c.tasks| && t !in c.sleepers && Agrees(c.tasks, tree, c.sleepers)
    ensures var c' := AddSleeper(c, t, st, wake);
            Agrees(c'.tasks, Insert(c'.tasks, tree, t), c'.sleepers) <==> forall u :: u in c.sleepers ==> WakeOf(c.tasks, u) != wake
  {
    var c' := AddSleeper(c, t, st, wake);
    AgreesFrame(c.tasks, c'.tasks, tree, c.sleepers);
    forall u ensures In(u, tree) <==> u in c.sleepers {
      InIsInOrder(u, tree);
    }
    InsertAgreesIff(c'.tasks, tree, t);
  }

  /** The timer's scan: they always go on agreeing. */
  lemma ExpiryAgrees(c: Core, tree: Tree, c': Core)
    requires c.sleepers != [] && Agrees(c.tasks, tree, c.sleepers) && ExpireFirst(c) == Ok(c')
    ensures tree.Node? && Agrees(c'.tasks, EraseFirst(tree), c'.sleepers)
  {
    EraseFirstAgrees(c.tasks, tree);
    OrderedDistinct(c.tasks, tree);
    DistinctTail(c.sleepers);
    AgreesFrame(c.tasks, c'.tasks, EraseFirst(tree), c'.sleepers);
  }

  lemma WithoutSorted(tasks: seq<Task>, xs: seq<Tid>, t: Tid)
    requires StrictlySorted(tasks, xs) && Distinct(xs) && t in xs
    ensures StrictlySorted(tasks, Without(xs, t))
  {
    var k :| 0 <= k < |xs| && xs[k] == t;
    WithoutAt(xs, k);
    var ys := xs[..k] + xs[k + 1..];
    forall i, j | 0 <= i < j < |ys| ensures Less(tasks, ys[i], ys[j]) {
      assert Less(tasks, xs[if i < k then i else i + 1], xs[if j < k then j else j + 1]);
    }
  }

  lemma WokenEffect(c: Core, t: Tid, c': Core)
    requires t < |c.tasks| && c.tasks[t].state.TimeoutWaitting? && ActiveTasklet(c, t, true) == Ok(c')
    ensures c'.sleepers == Without(c.sleepers, t)
    ensures forall u :: u != t ==> WakeOf(c'.tasks, u) == WakeOf(c.tasks, u)
  {
  }

  lemma WithoutAgrees(tasks: seq<Task>, tree: Tree, tasks': seq<Task>, tree': Tree, t: Tid)
    requires Ordered(tasks, tree) && In(t, tree) && InOrder(tree') == Without(InOrder(tree), t)
    requires forall u :: u in InOrder(tree) && u != t ==> WakeOf(tasks', u) == WakeOf(tasks, u)
    ensures Ordered(tasks', tree')
  {
    var xs := InOrder(tree);
    InIsInOrder(t, tree);
    OrderedDistinct(tasks, tree);
    InOrderSorted(tasks, tree);
    WithoutSorted(tasks, xs, t);
    WithoutMembers(xs, t);
    StrictlyFrame(tasks, tasks', Without(xs, t));
    SortedOrdered(tasks', tree');
  }

  lemma EarliestAmong(c: Core, tree: Tree, t: Tid)
    requires InOrder(tree) == c.sleepers
    ensures Earliest(c.tasks, tree, t) <==> forall u :: u in c.sleepers ==> WakeOf(c.tasks, t) <= WakeOf(c.tasks, u)
  {
    forall u ensures In(u, tree) <==> u in c.sleepers {
      InIsInOrder(u, tree);
    }
  }

  /** tree' is what an erase by key of t, zeroed, may leave of the set: balanced in some way, and with
      either way of searching. */
  predicate ErasedZeroed(tasks: seq<Task>, tree: Tree, t: Tid, tree': Tree) {
    || InOrder(tree') == EraseRange(Zeroed(tasks, t), tree, t)
    || InOrder(tree') == EraseFound(Zeroed(tasks, t), tree, t)
  }

  /** A message for a timed receiver: however the library searches and balances, they go on agreeing
      if and only if the receiver has the earliest deadline of all sleepers. */
  lemma WakingAgreesIff(c: Core, tree: Tree, t: Tid, c': Core, tree': Tree)
    requires t < |c.tasks| && t in c.sleepers && c.tasks[t].state.TimeoutWaitting? && Agrees(c.tasks, tree, c.sleepers)
    requires ActiveTasklet(c, t, true) == Ok(c') && ErasedZeroed(c.tasks, tree, t, tree')
    ensures Agrees(c'.tasks, tree', c'.sleepers) <==> forall u :: u in c.sleepers ==> WakeOf(c.tasks, t) <= WakeOf(c.tasks, u)
  {
    InIsInOrder(t, tree);
    EarliestAmong(c, tree, t);
    WokenEffect(c, t, c');
    EraseAfterZeroing(c.tasks, tree, t);
    if Earliest(c.tasks, tree, t) {
      WithoutAgrees(c.tasks, tree, c'.tasks, tree', t);
    }
  }

  /** Balancing changes nothing. */
  lemma Rebalanced(tasks: seq<Task>, tree: Tree, tree': Tree, xs: seq<Tid>)
    requires Agrees(tasks, tree, xs) && InOrder(tree') == InOrder(tree)
    ensures Agrees(tasks, tree', xs)
  {
    InOrderSorted(tasks, tree);
    SortedOrdered(tasks, tree');
  }

  lemma StrictlyFrame(tasks: seq<Task>, tasks': seq<Task>, xs: seq<Tid>)
    requires StrictlySorted(tasks, xs) && forall u :: u in xs ==> WakeOf(tasks', u) == WakeOf(tasks, u)
    ensures StrictlySorted(tasks', xs)
  {
    forall i, j | 0 <= i < j < |xs| ensures Less(tasks', xs[i], xs[j]) {
      assert Less(tasks, xs[i], xs[j]);
    }
  }

  // ----- concrete cases

  function Deadlines(wakes: seq<nat>): seq<Task> {
    seq(|wakes|, k requires 0 <= k < |wakes| => FRESH_TASK.(wake := wakes[k]))
  }

  /** Two sleepers with one deadline: the second is lost. */
  lemma TieLosesTasklet()
    ensures exists tasks, tree :: Ordered(tasks, tree) && !In(1, tree) && !In(1, Insert(tasks, tree, 1))
  {
    var tasks, tree := Deadlines([7, 7]), Node(Leaf, 0, Leaf);
    assert Insert(tasks, tree, 1) == tree;
    assert Ordered(tasks, tree) && !In(1, tree) && !In(1, Insert(tasks, tree, 1));
  }

  /** Three sleepers in a balanced tree. */
  function Balanced(): Tree {
    Node(Node(Leaf, 0, Leaf), 1, Node(Leaf, 2, Leaf))
  }

  lemma BalancedOrdered()
    ensures Ordered(Deadlines([1, 2, 3]), Balanced()) && InOrder(Balanced()) == [0, 1, 2]
  {
    SortedOrdered(Deadlines([1, 2, 3]), Balanced());
  }

  /** Waking the last of them leaves it in the set. */
  lemma ZeroingLeavesStaleSleeper()
    ensures Agrees(Deadlines([1, 2, 3]), Balanced(), [0, 1, 2])
    ensures EraseRange(Zeroed(Deadlines([1, 2, 3]), 2), Balanced(), 2) == [0, 1, 2]
  {
    BalancedOrdered();
    LowerBoundZero(Zeroed(Deadlines([1, 2, 3]), 2), Balanced());
  }

  /** Waking the second takes the first out of the set with it: nothing will wake the first. */
  lemma ZeroingLosesEarlierSleeper()
    ensures Agrees(Deadlines([1, 2, 3]), Balanced(), [0, 1, 2])
    ensures EraseRange(Zeroed(Deadlines([1, 2, 3]), 1), Balanced(), 1) == [2]
  {
    BalancedOrdered();
    LowerBoundZero(Zeroed(Deadlines([1, 2, 3]), 1), Balanced());
  }
}
