/** ring_buffer as a value: its arithmetic, its transfers and what they mean for the sequence of
    bytes it holds.  A copy outside the array is a result of its own, `OutOfBounds`. */
module RingModel {
  newtype byte = x: int | 0 <= x < 0x100

  /** `buf` stands for the array of `_size` bytes. */
  datatype Ring = Ring(buf: seq<byte>, head: int, tail: int)

  predicate Valid(r: Ring) {
    0 <= r.head <= |r.buf| && 0 <= r.tail <= |r.buf|
  }

  /** The bytes held, oldest first. */
  function Contents(r: Ring): seq<byte>
    requires Valid(r)
  {
    if r.tail >= r.head then r.buf[r.head..r.tail] else r.buf[r.head..] + r.buf[..r.tail]
  }

  function Readable(r: Ring): int {
    if r.tail >= r.head then r.tail - r.head else |r.buf| - r.head + r.tail
  }

  function Writable(r: Ring): int {
    if r.head > r.tail || (r.head == 0 && r.tail == 0) then r.head - r.tail else |r.buf| - r.tail + r.head
  }

  function Fresh(buf: seq<byte>): Ring {
    Ring(buf, 0, 0)
  }

  function Min(a: int, b: int): int {
    if a <= b then a else b
  }

  predicate Fits(buf: seq<byte>, off: int, n: int) {
    0 <= off && off + n <= |buf|
  }

  /** memcpy of `data` to offset `off`. */
  function Blit(buf: seq<byte>, off: int, data: seq<byte>): seq<byte>
    requires Fits(buf, off, |data|)
  {
    buf[..off] + data + buf[off + |data|..]
  }

  datatype Written = Done(ring: Ring, ret: int) | OutOfBounds

  // ----- write

  /** The number of bytes `write` copies, or its error code. */
  function WriteCount(r: Ring, len: int, all: bool): int {
    if len <= 0 then (if len == 0 then 0 else -3)
    else if all && len > Writable(r) then (if len <= |r.buf| then -1 else -2)
    else if Writable(r) == 0 then -4
    else Min(len, Writable(r))
  }

  /** The copy of `data` behind the tail. */
  function Append(r: Ring, data: seq<byte>): Written
    requires Valid(r)
  {
    var part1 := |r.buf| - r.tail;
    if r.head >= r.tail || part1 >= |data| then
      if Fits(r.buf, r.tail, |data|)
      then Done(Ring(Blit(r.buf, r.tail, data), r.head, r.tail + |data|), |data|) else OutOfBounds
    else if |data| - part1 <= |r.buf| then
      Done(Ring(Blit(Blit(r.buf, r.tail, data[..part1]), 0, data[part1..]), r.head, |data| - part1), |data|)
    else OutOfBounds
  }

  function Write(r: Ring, target: seq<byte>, len: int, all: bool): Written
    requires Valid(r) && len <= |target|
  {
    var n := WriteCount(r, len, all);
    if n <= 0 then Done(r, n) else Append(r, target[..n])
  }

  /** What a caller can check before appending n bytes: the array is not overrun, and the tail
      does not come to rest on the head, where the ring would read as empty. */
  predicate AppendGuard(r: Ring, n: int) {
    if r.head == r.tail then r.tail + n <= |r.buf|
    else n < Writable(r) || r.head == 0
  }

  // ----- read

  datatype Taken = Taken(ring: Ring, ret: int, bytes: seq<byte>)

  function ReadCount(r: Ring, len: int, all: bool): int {
    if len <= 0 then (if len == 0 then 0 else -3)
    else if all && len > Readable(r) then (if len <= |r.buf| then -1 else -2)
    else if Readable(r) == 0 then -4
    else Min(len, Readable(r))
  }

  /** The copy of n bytes from the head. */
  function Consume(r: Ring, n: int): (Ring, seq<byte>)
    requires Valid(r) && 0 < n <= Readable(r)
  {
    var part1 := |r.buf| - r.head;
    if r.tail > r.head then (r.(head := r.head + n), r.buf[r.head..r.head + n])
    else if n <= part1 then (r.(head := if n == part1 then 0 else r.head + n), r.buf[r.head..r.head + n])
    else (r.(head := n - part1), r.buf[r.head..] + r.buf[..n - part1])
  }

  function Read(r: Ring, len: int, all: bool): Taken
    requires Valid(r)
  {
    var n := ReadCount(r, len, all);
    if n <= 0 then Taken(r, n, [])
    else
      var (r1, bytes) := Consume(r, n);
      Taken(if Readable(r) == len then r1.(head := 0, tail := 0) else r1, n, bytes)
  }

  // ----- back_write

  function PatchPos(r: Ring, goBack: int): int {
    if r.tail - goBack < 0 then r.tail - goBack + |r.buf| else r.tail - goBack
  }

  function BackWrite(r: Ring, goBack: int, target: seq<byte>, len: int): Written
    requires Valid(r) && len <= |target|
  {
    var pos := PatchPos(r, goBack);
    if !(0 <= pos <= |r.buf|) then OutOfBounds
    else match Write(r.(tail := pos), target, len, true) {
      case Done(r1, ret) => Done(r1.(tail := r.tail), ret)
      case OutOfBounds => OutOfBounds
    }
  }

  /** `xs` with `data` written over the bytes that start goBack from its end. */
  function Patched(xs: seq<byte>, goBack: int, data: seq<byte>): seq<byte>
    requires |data| <= goBack <= |xs|
  {
    xs[..|xs| - goBack] + data + xs[|xs| - goBack + |data|..]
  }

  predicate PatchGuard(r: Ring, goBack: int, len: int) {
    goBack < Readable(r) || (r.head > 0 && (r.head == |r.buf| || r.head + len <= |r.buf|))
  }

  // ----- descriptors

  /** What the kernel does at one call: transfers at most `max` bytes, reports the end, asks for
      a retry (-1 with EAGAIN or EINTR), or fails with a negative code. */
  datatype Attempt = Moves(max: nat) | End | Again | Fails(code: int)

  /** `input` is still to be received, `output` has been sent; the kernel acts by `script`, and
      asks for retries when that is used up. */
  datatype Fd = Fd(input: seq<byte>, output: seq<byte>, script: seq<Attempt>)

  const TRIES := 10

  /** The outcome of a loop of tries: `ret` as read(2) or write(2) returns it; `gaveUp` if every
      try asked for a retry. */
  datatype Transfer = Transfer(fd: Fd, ret: int, bytes: seq<byte>, gaveUp: bool)

  predicate Retries(fd: Fd) {
    fd.script == [] || fd.script[0].Again?
  }

  /** The kernel asks for a retry n times in a row. */
  predicate OnlyRetries(fd: Fd, n: nat) {
    forall k :: 0 <= k < n && k < |fd.script| ==> fd.script[k].Again?
  }

  function Skip(fd: Fd): Fd {
    if fd.script == [] then fd else fd.(script := fd.script[1..])
  }

  function NegativeCode(a: Attempt): int {
    if a.Fails? && a.code < 0 then a.code else if a.End? then 0 else -1
  }

  /** One call of read(2) for n bytes that is not asked to be retried. */
  function SysRead(fd: Fd, n: nat): Transfer
    requires !Retries(fd)
  {
    match fd.script[0]
    case Moves(max) =>
      var k := Min(Min(max, n), |fd.input|);
      Transfer(Skip(fd).(input := fd.input[k..]), k, fd.input[..k], false)
    case a => Transfer(Skip(fd), NegativeCode(a), [], false)
  }

  /** One call of write(2) for `data` that is not asked to be retried. */
  function SysWrite(fd: Fd, data: seq<byte>): Transfer
    requires !Retries(fd)
  {
    match fd.script[0]
    case Moves(max) =>
      var k := Min(max, |data|);
      Transfer(Skip(fd).(output := fd.output + data[..k]), k, data[..k], false)
    case a => Transfer(Skip(fd), NegativeCode(a), [], false)
  }

  function TryRead(fd: Fd, n: nat, tries: nat): Transfer
    decreases tries, |fd.script|
  {
    if tries == 0 then Transfer(fd, -1, [], true)
    else if Retries(fd) then TryRead(Skip(fd), n, tries - 1)
    else SysRead(fd, n)
  }

  function TryWrite(fd: Fd, data: seq<byte>, tries: nat): Transfer
    decreases tries, |fd.script|
  {
    if tries == 0 then Transfer(fd, -1, [], true)
    else if Retries(fd) then TryWrite(Skip(fd), data, tries - 1)
    else SysWrite(fd, data)
  }

  // ----- on_recv and on_send

  /** `bytes` are the bytes that went through the descriptor. */
  datatype Moved = Moved(ring: Ring, fd: Fd, ret: int, bytes: seq<byte>)

  /** x is the outcome of reading at most n bytes. */
  ghost predicate Got(fd: Fd, n: nat, x: Transfer) {
    && fd.input == x.bytes + x.fd.input && x.fd.output == fd.output
    && (if x.ret > 0 then |x.bytes| == x.ret <= n && !x.gaveUp else x.bytes == [])
    && (x.gaveUp ==> x.ret == -1)
  }

  /** x is the outcome of writing `data`. */
  ghost predicate Put(fd: Fd, data: seq<byte>, x: Transfer) {
    && x.fd.output == fd.output + x.bytes && x.fd.input == fd.input
    && (if x.ret > 0 then |x.bytes| == x.ret <= |data| && x.bytes == data[..x.ret] && !x.gaveUp else x.bytes == [])
    && (x.gaveUp ==> x.ret == -1)
  }

  /** The bytes of x go behind the tail. */
  function Received(r: Ring, x: Transfer): Moved
    requires Valid(r) && x.ret == |x.bytes| && Fits(r.buf, r.tail, |x.bytes|)
  {
    Moved(Ring(Blit(r.buf, r.tail, x.bytes), r.head, r.tail + x.ret), x.fd, x.ret, x.bytes)
  }

  /** Those of x fill the array to its end, and those of y go to its start. */
  function ReceivedAround(r: Ring, x: Transfer, y: Transfer): Moved
    requires Valid(r) && x.ret == |x.bytes| == |r.buf| - r.tail && (y.ret > 0 ==> y.ret == |y.bytes| <= r.head)
  {
    var buf1 := Blit(r.buf, r.tail, x.bytes);
    if y.ret <= 0 then Moved(Ring(buf1, r.head, |r.buf|), y.fd, x.ret, x.bytes)
    else Moved(Ring(Blit(buf1, 0, y.bytes), r.head, y.ret), y.fd, x.ret + y.ret, x.bytes + y.bytes)
  }

  function OnRecv(r: Ring, fd: Fd): Moved
    requires Valid(r)
  {
    if Writable(r) <= 0 then Moved(r, fd, 0, [])
    else if r.head > r.tail then
      var x := TryRead(fd, Writable(r), TRIES);
      ReadGets(fd, Writable(r), TRIES);
      if x.ret <= 0 then Moved(r, x.fd, if x.gaveUp then 0 else x.ret, []) else Received(r, x)
    else
      var room := |r.buf| - r.tail;
      var x := TryRead(fd, room, TRIES);
      ReadGets(fd, room, TRIES);
      if x.ret <= 0 then Moved(r, x.fd, x.ret, [])
      else if x.ret < room then Received(r, x)
      else
        var y := TryRead(x.fd, r.head, TRIES);
        ReadGets(x.fd, r.head, TRIES);
        ReceivedAround(r, x, y)
  }

  function OnSend(r: Ring, fd: Fd): Moved
    requires Valid(r)
  {
    if Readable(r) <= 0 then Moved(r, fd, 0, [])
    else if r.head < r.tail then
      var x := TryWrite(fd, r.buf[r.head..r.tail], TRIES);
      if x.ret <= 0 then Moved(r, x.fd, if x.gaveUp then 0 else x.ret, [])
      else Moved(r.(head := r.head + x.ret), x.fd, x.ret, x.bytes)
    else
      var x := TryWrite(fd, r.buf[r.head..], TRIES);
      if x.ret <= 0 then Moved(r, x.fd, x.ret, [])
      else if x.ret < |r.buf| - r.head then Moved(r.(head := r.head + x.ret), x.fd, x.ret, x.bytes)
      else
        var y := TryWrite(x.fd, r.buf[..r.tail], TRIES);
        if y.ret <= 0 then Moved(r.(head := 0), y.fd, x.ret, x.bytes)
        else Moved(r.(head := y.ret), y.fd, x.ret + y.ret, x.bytes + y.bytes)
  }

  /** The first of at most `tries` attempts that is not a retry; `Again` if there is none. */
  function Answer(script: seq<Attempt>, tries: nat): Attempt
    decreases tries, |script|
  {
    if tries == 0 || script == [] then Again
    else if script[0].Again? then Answer(script[1..], tries - 1)
    else script[0]
  }

  /** How much that attempt is ready to transfer. */
  function Offer(script: seq<Attempt>, tries: nat): nat {
    var a := Answer(script, tries);
    if a.Moves? then a.max else 0
  }

  /** The script behind that attempt. */
  function After(script: seq<Attempt>, tries: nat): seq<Attempt>
    decreases tries, |script|
  {
    if tries == 0 || script == [] then script
    else if script[0].Again? then After(script[1..], tries - 1)
    else script[1..]
  }

  /** The descriptor is about to fill a ring up to its head, which is not at the start: there is
      input enough, and the kernel transfers as much as there is room for, in one piece or, around
      the end of the array, in two. */
  predicate Fills(r: Ring, fd: Fd) {
    && r.head > 0 && r.tail < |r.buf| && |fd.input| >= Writable(r)
    && if r.head > r.tail then Offer(fd.script, TRIES) >= Writable(r)
       else Offer(fd.script, TRIES) >= |r.buf| - r.tail && Offer(After(fd.script, TRIES), TRIES) >= r.head
  }

  lemma RetriesSkip(fd: Fd, n: nat)
    requires n > 0
    ensures OnlyRetries(fd, n) <==> Retries(fd) && OnlyRetries(Skip(fd), n - 1)
  {
  }

  /** A positive result is the number of bytes received, which left the input; any other result
      means that none did. */
  lemma {:induction false} ReadGets(fd: Fd, n: nat, tries: nat)
    ensures Got(fd, n, TryRead(fd, n, tries))
    decreases tries
  {
    if tries > 0 && Retries(fd) {
      ReadGets(Skip(fd), n, tries - 1);
    } else {
      assert fd.input == [] + fd.input;
    }
  }

  lemma {:induction false} WritePuts(fd: Fd, data: seq<byte>, tries: nat)
    ensures Put(fd, data, TryWrite(fd, data, tries))
    decreases tries
  {
    if tries > 0 && Retries(fd) {
      WritePuts(Skip(fd), data, tries - 1);
    } else {
      assert fd.output == fd.output + [];
    }
  }

  /** What read(2) or write(2) returns for an attempt that may transfer up to n bytes. */
  function Returned(a: Attempt, n: nat): int {
    match a
    case Moves(max) => Min(max, n)
    case Again => -1
    case _ => NegativeCode(a)
  }

  /** What a loop of reads returns, from the script and the input alone. */
  lemma {:induction false} ReadAnswers(fd: Fd, n: nat, tries: nat)
    ensures var x, a := TryRead(fd, n, tries), Answer(fd.script, tries);
            x.ret == Returned(a, Min(n, |fd.input|)) && (x.gaveUp <==> a.Again?)
    decreases tries
  {
    if tries == 0 || fd.script == [] {
      NoScript(fd, n, [], tries);
    } else if Retries(fd) {
      ReadAnswers(Skip(fd), n, tries - 1);
    }
  }

  lemma {:induction false} WriteAnswers(fd: Fd, data: seq<byte>, tries: nat)
    ensures var x, a := TryWrite(fd, data, tries), Answer(fd.script, tries);
            x.ret == Returned(a, |data|) && (x.gaveUp <==> a.Again?)
    decreases tries
  {
    if tries == 0 || fd.script == [] {
      NoScript(fd, 0, data, tries);
    } else if Retries(fd) {
      WriteAnswers(Skip(fd), data, tries - 1);
    }
  }

  /** How much a loop of writes transfers, and what it leaves. */
  lemma {:induction false} WriteOffers(fd: Fd, data: seq<byte>, tries: nat)
    ensures var x, k := TryWrite(fd, data, tries), Min(Offer(fd.script, tries), |data|);
            k > 0 ==> x.ret == k && x.fd == fd.(output := fd.output + data[..k], script := After(fd.script, tries))
    decreases tries
  {
    if tries == 0 || fd.script == [] {
    } else if Retries(fd) {
      WriteOffers(Skip(fd), data, tries - 1);
    }
  }

  /** How much a loop of reads transfers, and what it leaves. */
  lemma {:induction false} ReadOffers(fd: Fd, n: nat, tries: nat)
    ensures var x, k := TryRead(fd, n, tries), Min(Min(Offer(fd.script, tries), n), |fd.input|);
            (x.ret > 0 <==> k > 0) && (k > 0 ==> x.ret == k && x.fd == fd.(input := fd.input[k..], script := After(fd.script, tries)))
    decreases tries
  {
    if tries == 0 || fd.script == [] {
      NoScript(fd, n, [], tries);
    } else if Retries(fd) {
      ReadOffers(Skip(fd), n, tries - 1);
    }
  }

  /** With the script used up every try asks for a retry. */
  lemma {:induction false} NoScript(fd: Fd, n: nat, data: seq<byte>, tries: nat)
    requires tries == 0 || fd.script == []
    ensures TryRead(fd, n, tries).ret == -1 && TryWrite(fd, data, tries).ret == -1
    ensures TryRead(fd, n, tries).gaveUp && TryWrite(fd, data, tries).gaveUp
    decreases tries
  {
    if tries == 0 {
    } else {
      NoScript(Skip(fd), n, data, tries - 1);
    }
  }

  /** The loops give up exactly when every try asks for a retry. */
  lemma {:induction false} GivesUpIff(fd: Fd, n: nat, data: seq<byte>, tries: nat)
    ensures TryRead(fd, n, tries).gaveUp <==> OnlyRetries(fd, tries)
    ensures TryWrite(fd, data, tries).gaveUp <==> OnlyRetries(fd, tries)
    decreases tries
  {
    if tries == 0 {
    } else {
      RetriesSkip(fd, tries);
      if Retries(fd) {
        GivesUpIff(Skip(fd), n, data, tries - 1);
      }
    }
  }
}
