/** ring_buffer over whole runs of its operations. */
module RingRuns {
  import opened RingModel
  import opened RingProofs

  datatype RingOp =
    | OpWrite(target: seq<byte>, len: int, all: bool)
    | OpRead(len: int, all: bool)
    | OpRecv(fd: Fd)
    | OpSend(fd: Fd)

  /** `into` went into the ring, `out` came out of it. */
  datatype Performed = Performed(ring: Ring, into: seq<byte>, out: seq<byte>) | Overrun

  predicate Callable(op: RingOp) {
    op.OpWrite? ==> op.len <= |op.target|
  }

  function Perform(r: Ring, op: RingOp): Performed
    requires Valid(r) && Callable(op)
  {
    match op
    case OpWrite(target, len, all) =>
      (match Write(r, target, len, all)
       case Done(r1, ret) => Performed(r1, if 0 < ret <= |target| then target[..ret] else [], [])
       case OutOfBounds => Overrun)
    case OpRead(len, all) => var x := Read(r, len, all); Performed(x.ring, [], x.bytes)
    case OpRecv(fd) => var x := OnRecv(r, fd); Performed(x.ring, x.bytes, [])
    case OpSend(fd) => var x := OnSend(r, fd); Performed(x.ring, [], x.bytes)
  }

  /** The write side's precondition; the read side needs none. */
  predicate Guarded(r: Ring, op: RingOp)
    requires Valid(r)
  {
    match op
    case OpWrite(target, len, all) =>
      len <= |target| && (WriteCount(r, len, all) > 0 ==> AppendGuard(r, WriteCount(r, len, all)))
    case OpRecv(fd) => !Fills(r, fd)
    case _ => true
  }

  lemma PerformKeepsOrder(r: Ring, op: RingOp)
    requires Valid(r) && Guarded(r, op)
    ensures var p := Perform(r, op);
            p.Performed? && Valid(p.ring) && p.out + Contents(p.ring) == Contents(r) + p.into
  {
    match op
    case OpWrite(target, len, all) =>
      WriteAppendsIff(r, target, len, all);
      assert [] + Contents(r) == Contents(r) + [];
    case OpRead(len, all) => ReadTakes(r, len, all);
    case OpRecv(fd) =>
      RecvAppendsIff(r, fd);
      assert [] + Contents(OnRecv(r, fd).ring) == Contents(r) + OnRecv(r, fd).bytes;
    case OpSend(fd) => SendAccounts(r, fd);
  }

  /** The ring after a list of operations, with all that went in and all that came out. */
  function RunOps(r: Ring, ops: seq<RingOp>): Performed
    requires Valid(r) && forall k :: 0 <= k < |ops| ==> Callable(ops[k])
    decreases |ops|
  {
    if ops == [] then Performed(r, [], [])
    else match Perform(r, ops[0]) {
      case Overrun => Overrun
      case Performed(r1, into, out) =>
        if !Valid(r1) then Overrun
        else match RunOps(r1, ops[1..]) {
          case Overrun => Overrun
          case Performed(r2, into2, out2) => Performed(r2, into + into2, out + out2)
        }
    }
  }

  predicate AllGuarded(r: Ring, ops: seq<RingOp>)
    requires Valid(r)
    decreases |ops|
  {
    ops != [] ==>
      && Guarded(r, ops[0]) && Callable(ops[0])
      && var p := Perform(r, ops[0]);
         p.Performed? && Valid(p.ring) ==> AllGuarded(p.ring, ops[1..])
  }

  lemma {:induction false} GuardedCallable(r: Ring, ops: seq<RingOp>)
    requires Valid(r) && AllGuarded(r, ops)
    ensures forall k :: 0 <= k < |ops| ==> Callable(ops[k])
    decreases |ops|
  {
    if ops == [] {
    } else {
      PerformKeepsOrder(r, ops[0]);
      GuardedCallable(Perform(r, ops[0]).ring, ops[1..]);
      assert ops == [ops[0]] + ops[1..];
    }
  }

  lemma Chain(out: seq<byte>, out2: seq<byte>, c0: seq<byte>, c1: seq<byte>, c2: seq<byte>, into: seq<byte>, into2: seq<byte>)
    requires out + c1 == c0 + into && out2 + c2 == c1 + into2
    ensures (out + out2) + c2 == c0 + (into + into2)
  {
    assert (out + out2) + c2 == out + (out2 + c2) == (out + c1) + into2;
  }

  /** From any well-formed ring, over any guarded run: what came out, then what is held, is what
      was held, then what went in; no index leaves the array and no copy does. */
  lemma {:induction false} RingRefinesSequence(r: Ring, ops: seq<RingOp>)
    requires Valid(r) && AllGuarded(r, ops)
    requires forall k :: 0 <= k < |ops| ==> Callable(ops[k])
    ensures var p := RunOps(r, ops);
            p.Performed? && Valid(p.ring) && p.out + Contents(p.ring) == Contents(r) + p.into
    decreases |ops|
  {
    if ops == [] {
      assert [] + Contents(r) == Contents(r) + [];
    } else {
      PerformKeepsOrder(r, ops[0]);
      var p1 := Perform(r, ops[0]);
      GuardedCallable(p1.ring, ops[1..]);
      RingRefinesSequence(p1.ring, ops[1..]);
      var p2 := RunOps(p1.ring, ops[1..]);
      Chain(p1.out, p2.out, Contents(r), Contents(p1.ring), Contents(p2.ring), p1.into, p2.into);
    }
  }

  // ----- rings that carry nothing any more

  /** Empty with both indices at the start, or both at the end, of the array. */
  predicate Stuck(r: Ring) {
    r.head == r.tail && (r.head == 0 || r.head == |r.buf|)
  }

  lemma StuckStep(r: Ring, op: RingOp)
    requires Valid(r) && Stuck(r) && Callable(op)
    ensures Perform(r, op) == Performed(r, [], []) || (r.head > 0 && Perform(r, op) == Overrun)
  {
    match op
    case OpWrite(target, len, all) => WriteAppendsIff(r, target, len, all);
    case OpRead(_, _) =>
    case OpRecv(fd) => if r.tail == |r.buf| { TailAtEndReceivesNothing(r, fd); }
    case OpSend(_) =>
  }

  /** No run brings a byte into such a ring; with the indices at the end of the array a write
      overruns it. */
  lemma {:induction false} StuckForever(r: Ring, ops: seq<RingOp>)
    requires Valid(r) && Stuck(r) && forall k :: 0 <= k < |ops| ==> Callable(ops[k])
    ensures RunOps(r, ops) == Performed(r, [], []) || (r.head > 0 && RunOps(r, ops) == Overrun)
    decreases |ops|
  {
    if ops == [] {
    } else {
      StuckStep(r, ops[0]);
      StuckForever(r, ops[1..]);
    }
  }

  predicate AllCallable(ops: seq<RingOp>) {
    forall k :: 0 <= k < |ops| ==> Callable(ops[k])
  }

  /** The run goes well, and a byte enters the ring or leaves it. */
  ghost predicate Carries(r: Ring, ops: seq<RingOp>)
    requires Valid(r)
  {
    AllCallable(ops) && var p := RunOps(r, ops); p.Performed? && (p.into != [] || p.out != [])
  }

  /** These are the only rings no byte can be moved into or out of. */
  lemma CarriesIff(r: Ring)
    requires Valid(r)
    ensures (exists ops :: Carries(r, ops)) <==> !Stuck(r)
  {
    if Stuck(r) {
      forall ops | AllCallable(ops) ensures !Carries(r, ops) {
        StuckForever(r, ops);
      }
    } else {
      CarriesOne(r);
    }
  }

  /** One byte read from a ring that holds some, or written to one that does not. */
  function FirstUse(r: Ring): RingOp {
    if Readable(r) > 0 then OpRead(1, false) else OpWrite([0], 1, false)
  }

  lemma CarriesOne(r: Ring)
    requires Valid(r) && !Stuck(r)
    ensures Carries(r, [FirstUse(r)])
  {
    var p := Perform(r, FirstUse(r));
    assert [FirstUse(r)][1..] == [] && RunOps(p.ring, []) == Performed(p.ring, [], []);
    if Readable(r) > 0 {
      ReadTakes(r, 1, false);
      assert |p.out + []| == 1;
    } else {
      assert |p.into + []| == 1;
    }
  }

  /** A ring of one byte with the head behind that byte: whatever is put into it reads as nothing. */
  predicate Swallows(r: Ring) {
    |r.buf| == r.head == 1 && r.tail == 0
  }

  ghost predicate Yields(r: Ring, ops: seq<RingOp>)
    requires Valid(r)
  {
    AllCallable(ops) && var p := RunOps(r, ops); p.Performed? && p.out != []
  }

  lemma SwallowsStep(r: Ring, op: RingOp)
    requires Valid(r) && Swallows(r) && Callable(op)
    ensures var p := Perform(r, op);
            p.Performed? ==> p.out == [] && Valid(p.ring) && (Swallows(p.ring) || Stuck(p.ring))
  {
    match op
    case OpWrite(_, _, _) =>
    case OpRead(_, _) =>
    case OpRecv(fd) => RecvAccounts(r, fd); ReadGets(fd, 1, TRIES);
    case OpSend(_) =>
  }

  lemma {:induction false} UselessForever(r: Ring, ops: seq<RingOp>)
    requires Valid(r) && (Stuck(r) || Swallows(r)) && AllCallable(ops)
    ensures RunOps(r, ops).Performed? ==> RunOps(r, ops).out == []
    decreases |ops|
  {
    if ops == [] {
    } else if Stuck(r) {
      StuckForever(r, ops);
    } else {
      SwallowsStep(r, ops[0]);
      var p := Perform(r, ops[0]);
      if p.Performed? {
        UselessForever(p.ring, ops[1..]);
      }
    }
  }

  /** A byte can be brought to come out of any other ring. */
  lemma YieldsIff(r: Ring)
    requires Valid(r)
    ensures (exists ops :: Yields(r, ops)) <==> !Stuck(r) && !Swallows(r)
  {
    if Stuck(r) || Swallows(r) {
      forall ops | AllCallable(ops) ensures !Yields(r, ops) {
        UselessForever(r, ops);
      }
    } else if Readable(r) > 0 {
      CarriesOne(r);
      assert Yields(r, [FirstUse(r)]);
    } else {
      WrittenThenRead(r);
    }
  }

  lemma WrittenThenRead(r: Ring)
    requires Valid(r) && !Stuck(r) && !Swallows(r) && Readable(r) == 0
    ensures Yields(r, [FirstUse(r), OpRead(1, false)])
  {
    PerformKeepsOrder(r, FirstUse(r));
    ReadableIsLength(r);
    var r1 := Perform(r, FirstUse(r)).ring;
    ReadableIsLength(r1);
    CarriesOne(r1);
    assert [FirstUse(r), OpRead(1, false)][1..] == [FirstUse(r1)];
    assert RunOps(r1, [FirstUse(r1)]).out != [];
  }

  /** A ring as constructed never carries a byte: it has no room to write and nothing to read, and
      stays so whatever is done with it. */
  lemma FreshRingCarriesNothing(buf: seq<byte>, ops: seq<RingOp>)
    requires forall k :: 0 <= k < |ops| ==> Callable(ops[k])
    ensures RunOps(Fresh(buf), ops) == Performed(Fresh(buf), [], [])
  {
    StuckForever(Fresh(buf), ops);
  }

  /** A ring gets there by a `read` that asks for exactly the bytes held; a read that asks for
      more, and takes all, leaves it elsewhere unless its bytes end with the array. */
  lemma DrainingReads(r: Ring, len: int, all: bool)
    requires Valid(r) && 0 < Readable(r) == ReadCount(r, len, all)
    ensures var x := Read(r, len, all);
      && Contents(x.ring) == []
      && (Stuck(x.ring) <==> len == Readable(r) || r.tail == |r.buf| || r.tail == 0)
  {
  }

  /** Or by an `on_send` that sends all bytes held, if they end with the array. */
  lemma DrainingSends(r: Ring, fd: Fd)
    requires Valid(r) && 0 < Readable(r) == OnSend(r, fd).ret
    ensures var x := OnSend(r, fd);
      && Contents(x.ring) == []
      && (Stuck(x.ring) <==> r.tail == |r.buf| || r.tail == 0)
  {
    ReadableIsLength(r);
    SendAccounts(r, fd);
    ReadableIsLength(OnSend(r, fd).ring);
    SendSucceedsIff(r, fd);
    if r.head > r.tail {
      WritePuts(fd, r.buf[r.head..], TRIES);
      WritePuts(TryWrite(fd, r.buf[r.head..], TRIES).fd, r.buf[..r.tail], TRIES);
    } else {
      WritePuts(fd, r.buf[r.head..r.tail], TRIES);
    }
  }
}
