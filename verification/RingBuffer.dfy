/** ring_buffer over its array.  Every method is proved against the function of RingModel with the
    same name, applied to the ring that the fields stand for. */
module RingBuffer {
  import opened RingModel

  /** A loop of at most ten calls of read(2). */
  method TryReading(fd: Fd, n: nat) returns (x: Transfer)
    ensures x == TryRead(fd, n, TRIES)
  {
    var current := fd;
    for i := 0 to TRIES
      invariant TryRead(fd, n, TRIES) == TryRead(current, n, TRIES - i)
    {
      if !Retries(current) {
        x := SysRead(current, n);
        return;
      }
      current := Skip(current);
    }
    x := Transfer(current, -1, [], true);
  }

  /** A loop of at most ten calls of write(2). */
  method TryWriting(fd: Fd, data: seq<byte>) returns (x: Transfer)
    ensures x == TryWrite(fd, data, TRIES)
  {
    var current := fd;
    for i := 0 to TRIES
      invariant TryWrite(fd, data, TRIES) == TryWrite(current, data, TRIES - i)
    {
      if !Retries(current) {
        x := SysWrite(current, data);
        return;
      }
      current := Skip(current);
    }
    x := Transfer(current, -1, [], true);
  }

  method Memcpy(dst: array<byte>, off: int, data: seq<byte>)
    requires Fits(dst[..], off, |data|)
    modifies dst
    ensures dst[..] == Blit(old(dst[..]), off, data)
  {
    forall k | 0 <= k < |data| {
      dst[off + k] := data[k];
    }
  }

  class Buffer {
    const buffer: array<byte>
    var head: int
    var tail: int

    ghost function View(): Ring
      reads this, buffer
    {
      Ring(buffer[..], head, tail)
    }

    constructor (size: nat)
      ensures fresh(buffer) && buffer.Length == size && View() == Fresh(buffer[..])
    {
      buffer := new byte[size];
      head, tail := 0, 0;
    }

    method Readable() returns (n: int)
      ensures n == RingModel.Readable(View())
    {
      n := if tail >= head then tail - head else buffer.Length - head + tail;
    }

    method Writable() returns (n: int)
      ensures n == RingModel.Writable(View())
    {
      n := if head > tail || (head == 0 && tail == 0) then head - tail else buffer.Length - tail + head;
    }

    method Write(target: seq<byte>, len: int, all: bool) returns (ret: int)
      requires Valid(View()) && len <= |target|
      requires RingModel.Write(View(), target, len, all).Done?
      modifies this, buffer
      ensures Done(View(), ret) == RingModel.Write(old(View()), target, len, all)
    {
      if len <= 0 {
        return if len == 0 then 0 else -3;
      }
      var size := Writable();
      if all && len > size {
        return if len <= buffer.Length then -1 else -2;
      } else if size == 0 {
        return -4;
      }
      ret := if len > size then size else len;
      AppendData(target[..ret]);
    }

    /** The two copies of `write`. */
    method AppendData(data: seq<byte>)
      requires Valid(View()) && Append(View(), data).Done?
      modifies this, buffer
      ensures Done(View(), |data|) == Append(old(View()), data)
    {
      if head >= tail {
        Memcpy(buffer, tail, data);
        tail := tail + |data|;
      } else {
        var part1 := buffer.Length - tail;
        if part1 >= |data| {
          Memcpy(buffer, tail, data);
          tail := tail + |data|;
        } else {
          Memcpy(buffer, tail, data[..part1]);
          var rest := |data| - part1;
          Memcpy(buffer, 0, data[part1..]);
          tail := rest;
        }
      }
    }

    method Read(target: array<byte>, len: int, all: bool) returns (ret: int)
      requires Valid(View()) && len <= target.Length && target != buffer
      modifies this, target
      ensures var x := RingModel.Read(old(View()), len, all);
        View() == x.ring && ret == x.ret && |x.bytes| <= target.Length && target[..] == Blit(old(target[..]), 0, x.bytes)
    {
      if len <= 0 {
        return if len == 0 then 0 else -3;
      }
      var size := Readable();
      if all && len > size {
        return if len <= buffer.Length then -1 else -2;
      } else if size == 0 {
        return -4;
      }
      ret := if size > len then len else size;
      var bytes := ConsumeData(ret);
      Memcpy(target, 0, bytes);
      if size == len {
        head := 0;
        tail := 0;
      }
    }

    /** The two copies of `read`. */
    method ConsumeData(n: int) returns (bytes: seq<byte>)
      requires Valid(View()) && 0 < n <= RingModel.Readable(View())
      modifies this`head
      ensures (View(), bytes) == Consume(old(View()), n) && |bytes| == n
    {
      if tail > head {
        bytes := buffer[head..head + n];
        head := head + n;
      } else {
        var part1 := buffer.Length - head;
        if n <= part1 {
          bytes := buffer[head..head + n];
          head := if n == part1 then 0 else head + n;
        } else {
          var rest := n - part1;
          bytes := buffer[head..] + buffer[..rest];
          head := rest;
        }
      }
    }

    /** Moves the tail back, writes, and restores it. */
    method BackWrite(goBack: int, target: seq<byte>, len: int)
      requires Valid(View()) && len <= |target|
      requires RingModel.BackWrite(View(), goBack, target, len).Done?
      modifies this, buffer
      ensures View() == RingModel.BackWrite(old(View()), goBack, target, len).ring
    {
      var pos := tail - goBack;
      if pos < 0 {
        pos := pos + buffer.Length;
      }
      var current := tail;
      tail := pos;
      assert View() == old(View()).(tail := pos);
      var _ := Write(target, len, true);
      tail := current;
    }

    method OnRecv(fd: Fd) returns (ret: int, fd': Fd, ghost bytes: seq<byte>)
      requires Valid(View())
      modifies this, buffer
      ensures Moved(View(), fd', ret, bytes) == RingModel.OnRecv(old(View()), fd)
    {
      var toRead := Writable();
      if toRead <= 0 {
        return 0, fd, [];
      }
      if head > tail {
        var x := TryReading(fd, toRead);
        ReadGets(fd, toRead, TRIES);
        if x.ret <= 0 {
          return if x.gaveUp then 0 else x.ret, x.fd, [];
        }
        Memcpy(buffer, tail, x.bytes);
        tail := tail + x.ret;
        return x.ret, x.fd, x.bytes;
      }
      var x := TryReading(fd, buffer.Length - tail);
      ReadGets(fd, buffer.Length - tail, TRIES);
      if x.ret <= 0 {
        return x.ret, x.fd, [];
      }
      Memcpy(buffer, tail, x.bytes);
      if x.ret < buffer.Length - tail {
        tail := tail + x.ret;
        return x.ret, x.fd, x.bytes;
      }
      var y := TryReading(x.fd, head);
      ReadGets(x.fd, head, TRIES);
      if y.ret <= 0 {
        tail := buffer.Length;
        return x.ret, y.fd, x.bytes;
      }
      Memcpy(buffer, 0, y.bytes);
      tail := y.ret;
      return x.ret + y.ret, y.fd, x.bytes + y.bytes;
    }

    method OnSend(fd: Fd) returns (ret: int, fd': Fd, ghost bytes: seq<byte>)
      requires Valid(View())
      modifies this`head
      ensures Moved(View(), fd', ret, bytes) == RingModel.OnSend(old(View()), fd)
    {
      var toWrite := Readable();
      if toWrite <= 0 {
        return 0, fd, [];
      }
      if head < tail {
        var x := TryWriting(fd, buffer[head..tail]);
        if x.ret <= 0 {
          return if x.gaveUp then 0 else x.ret, x.fd, [];
        }
        head := head + x.ret;
        return x.ret, x.fd, x.bytes;
      }
      var x := TryWriting(fd, buffer[head..]);
      if x.ret <= 0 {
        return x.ret, x.fd, [];
      } else if x.ret < buffer.Length - head {
        head := head + x.ret;
        return x.ret, x.fd, x.bytes;
      }
      var y := TryWriting(x.fd, buffer[..tail]);
      if y.ret <= 0 {
        head := 0;
        return x.ret, y.fd, x.bytes;
      }
      head := y.ret;
      return x.ret + y.ret, y.fd, x.bytes + y.bytes;
    }
  }
}
