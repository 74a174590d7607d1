/** The two scans over whole lists, against filters that say what they achieve: the timer's
    early-returning scan of the sleepers, and check_waittings over the wait list. */
module Scans {
  import opened Base
  import opened Queues

  // ----- the timer

  /** The tasklets of `xs`, in order, whose deadline has passed (`due`) or has not (`!due`). */
  function ByDeadline(tasks: seq<Task>, xs: seq<Tid>, time: nat, due: bool): seq<Tid> {
    if xs == [] then []
    else (if (WakeOf(tasks, xs[0]) <= time) == due then [xs[0]] else []) + ByDeadline(tasks, xs[1..], time, due)
  }

  ghost predicate SleepersOk(c: Core) {
    && Distinct(c.sleepers) && SortedByWake(c.tasks, c.sleepers)
    && forall t :: t in c.sleepers ==>
         t < |c.tasks| && (c.tasks[t].state.Sleeping? || c.tasks[t].state.TimeoutWaitting?) && t !in c.runq
  }

  /** A tasklet after its deadline: runnable, and told so if it waits for a message. */
  function Expired(k: Task): Task {
    if k.state.TimeoutWaitting? then
      k.(state := Runnable, wake := 0, mail := k.mail + [NoMsg], sent := k.sent + [NoMsg])
    else k.(state := Runnable)
  }

  lemma ExpireFirstWakes(c: Core)
    requires SleepersOk(c) && c.sleepers != []
    ensures var r, t := ExpireFirst(c), c.sleepers[0];
      t < |c.tasks| && r == Ok(c.(tasks := c.tasks[t := Expired(c.tasks[t])], runq := c.runq + [t], sleepers := c.sleepers[1..],
                                 signals := c.signals + if c.runq == [] then 1 else 0))
    ensures SleepersOk(ExpireFirst(c).value)
  {
    var t := c.sleepers[0];
    assert t in c.sleepers;
    DistinctTail(c.sleepers);
    var c1 := ExpireFirst(c).value;
    assert c1.tasks == c.tasks[t := Expired(c.tasks[t])];
    forall i, j | 0 <= i < j < |c1.sleepers| ensures WakeOf(c1.tasks, c1.sleepers[i]) <= WakeOf(c1.tasks, c1.sleepers[j]) {
      assert c1.sleepers[i] == c.sleepers[i + 1] && c1.sleepers[j] == c.sleepers[j + 1];
      assert c1.sleepers[i] in c.sleepers && c1.sleepers[j] in c.sleepers;
    }
  }

  lemma {:induction false} ByDeadlineFrame(tasks: seq<Task>, tasks': seq<Task>, xs: seq<Tid>, time: nat, due: bool)
    requires forall t :: t in xs ==> WakeOf(tasks', t) == WakeOf(tasks, t)
    ensures ByDeadline(tasks', xs, time, due) == ByDeadline(tasks, xs, time, due)
  {
    if xs == [] {
    } else {
      ByDeadlineFrame(tasks, tasks', xs[1..], time, due);
    }
  }

  lemma {:induction false} NoneDue(tasks: seq<Task>, xs: seq<Tid>, time: nat)
    requires forall t :: t in xs ==> WakeOf(tasks, t) > time
    ensures ByDeadline(tasks, xs, time, true) == [] && ByDeadline(tasks, xs, time, false) == xs
  {
    if xs == [] {
    } else {
      NoneDue(tasks, xs[1..], time);
    }
  }

  /** All due sleepers, and no others, have moved to the run queue in deadline order; exactly the
      timed receivers among them got a message; the condition is signalled if work appeared. */
  ghost predicate DueMoved(c: Core, time: nat, c': Core) {
    var due := ByDeadline(c.tasks, c.sleepers, time, true);
    && c'.runq == c.runq + due
    && c'.sleepers == ByDeadline(c.tasks, c.sleepers, time, false)
    && c'.waitq == c.waitq
    && DueExpired(c, time, c')
    && c'.signals == c.signals + if c.runq == [] && due != [] then 1 else 0
  }

  lemma NothingDue(c: Core, time: nat)
    requires SleepersOk(c) && !Due(c, time)
    ensures DueMoved(c, time, c)
  {
    forall t | t in c.sleepers ensures WakeOf(c.tasks, t) > time {
      var j :| 0 <= j < |c.sleepers| && c.sleepers[j] == t;
      assert WakeOf(c.tasks, c.sleepers[0]) <= WakeOf(c.tasks, c.sleepers[j]);
    }
    NoneDue(c.tasks, c.sleepers, time);
  }

  /** c1 is c after one turn of the scan. */
  ghost predicate FirstMoved(c: Core, c1: Core)
    requires c.sleepers != [] && c.sleepers[0] < |c.tasks|
  {
    var t := c.sleepers[0];
    c1 == c.(tasks := c.tasks[t := Expired(c.tasks[t])], runq := c.runq + [t], sleepers := c.sleepers[1..],
             signals := c.signals + if c.runq == [] then 1 else 0)
  }

  lemma FiltersThenRest(c: Core, c1: Core, time: nat)
    requires SleepersOk(c) && Due(c, time) && c.sleepers[0] < |c.tasks| && FirstMoved(c, c1)
    ensures ByDeadline(c.tasks, c.sleepers, time, true) == [c.sleepers[0]] + ByDeadline(c1.tasks, c1.sleepers, time, true)
    ensures ByDeadline(c.tasks, c.sleepers, time, false) == ByDeadline(c1.tasks, c1.sleepers, time, false)
  {
    DistinctTail(c.sleepers);
    ByDeadlineFrame(c.tasks, c1.tasks, c1.sleepers, time, true);
    ByDeadlineFrame(c.tasks, c1.tasks, c1.sleepers, time, false);
  }

  /** Only due sleepers have changed, and they are woken. */
  ghost predicate DueExpired(c: Core, time: nat, c': Core) {
    && |c'.tasks| == |c.tasks|
    && forall t :: 0 <= t < |c.tasks| ==>
         c'.tasks[t] == if t in c.sleepers && c.tasks[t].wake <= time then Expired(c.tasks[t]) else c.tasks[t]
  }

  lemma TasksThenRest(c: Core, c1: Core, time: nat, c': Core)
    requires SleepersOk(c) && Due(c, time) && c.sleepers[0] < |c.tasks| && FirstMoved(c, c1) && DueExpired(c1, time, c')
    ensures DueExpired(c, time, c')
  {
    DistinctTail(c.sleepers);
  }

  lemma FirstThenRest(c: Core, c1: Core, time: nat, c': Core)
    requires SleepersOk(c) && Due(c, time) && c.sleepers[0] < |c.tasks| && FirstMoved(c, c1)
    requires DueMoved(c1, time, c')
    ensures DueMoved(c, time, c')
  {
    FiltersThenRest(c, c1, time);
    TasksThenRest(c, c1, time, c');
    var t, rest := c.sleepers[0], ByDeadline(c1.tasks, c1.sleepers, time, true);
    assert c.runq + [t] + rest == c.runq + ([t] + rest);
  }

  /** The scan stops at the first sleeper that is not due, and yet equals the full filter: nobody
      is woken early and nobody due is left behind. */
  lemma {:induction false} ScanIsFilter(c: Core, time: nat)
    requires SleepersOk(c)
    ensures Scan(c, time).Ok? && DueMoved(c, time, Scan(c, time).value)
    decreases |c.sleepers|
  {
    if Due(c, time) {
      ExpireFirstWakes(c);
      var c1 := ExpireFirst(c).value;
      ScanIsFilter(c1, time);
      FirstThenRest(c, c1, time, Scan(c1, time).value);
    } else {
      NothingDue(c, time);
    }
  }

  // ----- check_waittings

  predicate HasMail(tasks: seq<Task>, t: Tid) {
    t < |tasks| && tasks[t].mail != []
  }

  /** The tasklets of `xs`, in order, that have mail (`mail`) or have none (`!mail`). */
  function ByMail(tasks: seq<Task>, xs: seq<Tid>, mail: bool): seq<Tid> {
    if xs == [] then []
    else (if HasMail(tasks, xs[0]) == mail then [xs[0]] else []) + ByMail(tasks, xs[1..], mail)
  }

  lemma {:induction false} ByMailMembers(tasks: seq<Task>, xs: seq<Tid>, mail: bool)
    ensures forall t :: t in ByMail(tasks, xs, mail) <==> t in xs && HasMail(tasks, t) == mail
  {
    if xs == [] {
    } else {
      ByMailMembers(tasks, xs[1..], mail);
    }
  }

  lemma {:induction false} ByMailAppend(tasks: seq<Task>, xs: seq<Tid>, t: Tid, mail: bool)
    ensures ByMail(tasks, xs + [t], mail) == ByMail(tasks, xs, mail) + if HasMail(tasks, t) == mail then [t] else []
  {
    if xs == [] {
      assert [t][1..] == [] && xs + [t] == [t];
    } else {
      var head, last := if HasMail(tasks, xs[0]) == mail then [xs[0]] else [], if HasMail(tasks, t) == mail then [t] else [];
      assert (xs + [t])[1..] == xs[1..] + [t] && (xs + [t])[0] == xs[0];
      ByMailAppend(tasks, xs[1..], t, mail);
      assert head + (ByMail(tasks, xs[1..], mail) + last) == (head + ByMail(tasks, xs[1..], mail)) + last;
    }
  }

  /** Exactly the tasklets of `moved` have become runnable. */
  ghost predicate MadeRunnable(vals: seq<Task>, moved: seq<Tid>, vals': seq<Task>) {
    && |vals'| == |vals|
    && forall t :: 0 <= t < |vals| ==> vals'[t] == if t in moved then vals[t].(state := Runnable) else vals[t]
  }

  /** The traversal of the wait list `q` after i elements, from the tasks `vals0` and the run
      queue `run0`. */
  ghost predicate Scanned(vals0: seq<Task>, q: seq<Tid>, run0: seq<Tid>, i: nat, vals: seq<Task>, waitq: seq<Tid>, runq: seq<Tid>) {
    && i <= |q|
    && waitq == ByMail(vals0, q[..i], false) + q[i..]
    && runq == run0 + ByMail(vals0, q[..i], true)
    && MadeRunnable(vals0, ByMail(vals0, q[..i], true), vals)
  }

  /** Where the traversal stands: at an element of the wait list that is not in the run queue,
      followed there by the element that followed it at the start. */
  lemma ScannedAt(vals0: seq<Task>, q: seq<Tid>, run0: seq<Tid>, i: nat, vals: seq<Task>, waitq: seq<Tid>, runq: seq<Tid>)
    returns (p: nat)
    requires Scanned(vals0, q, run0, i, vals, waitq, runq) && i < |q| && Distinct(q)
    requires forall t :: t in q ==> t !in run0 && t < |vals0|
    ensures p < |waitq| && waitq[p] == q[i]
    ensures p + 1 < |waitq| <==> i + 1 < |q|
    ensures i + 1 < |q| ==> waitq[p + 1] == q[i + 1]
    ensures q[i] !in runq && vals[q[i]] == vals0[q[i]]
  {
    p := |ByMail(vals0, q[..i], false)|;
    ByMailMembers(vals0, q[..i], true);
    assert q[i] !in q[..i];
    assert q[i] in q;
  }

  lemma ScannedNext(vals0: seq<Task>, q: seq<Tid>, run0: seq<Tid>, i: nat, vals: seq<Task>, waitq: seq<Tid>, runq: seq<Tid>,
                    vals': seq<Task>, waitq': seq<Tid>, runq': seq<Tid>)
    requires Scanned(vals0, q, run0, i, vals, waitq, runq) && i < |q| && q[i] < |vals0|
    requires if HasMail(vals0, q[i]) then
               && vals' == vals[q[i] := vals[q[i]].(state := Runnable)]
               && Distinct(waitq) && waitq' == Without(waitq, q[i]) && runq' == runq + [q[i]]
             else vals' == vals && waitq' == waitq && runq' == runq
    ensures Scanned(vals0, q, run0, i + 1, vals', waitq', runq')
  {
    var quiet, ready := ByMail(vals0, q[..i], false), ByMail(vals0, q[..i], true);
    assert q[..i + 1] == q[..i] + [q[i]];
    ByMailAppend(vals0, q[..i], q[i], true);
    ByMailAppend(vals0, q[..i], q[i], false);
    if HasMail(vals0, q[i]) {
      assert waitq[|quiet|] == q[i];
      WithoutAt(waitq, |quiet|);
      assert waitq[..|quiet|] == quiet && waitq[|quiet| + 1..] == q[i + 1..];
    } else {
      assert quiet + q[i..] == quiet + [q[i]] + q[i + 1..];
    }
  }

  lemma ScannedAll(vals0: seq<Task>, q: seq<Tid>, run0: seq<Tid>, i: nat, vals: seq<Task>, waitq: seq<Tid>, runq: seq<Tid>)
    requires Scanned(vals0, q, run0, i, vals, waitq, runq) && i == |q|
    ensures q[..i] == q
    ensures waitq == ByMail(vals0, q, false) && runq == run0 + ByMail(vals0, q, true)
    ensures MadeRunnable(vals0, ByMail(vals0, q, true), vals)
  {
    assert q[..i] == q;
  }
}
