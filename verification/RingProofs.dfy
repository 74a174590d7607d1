/** ring_buffer against a plain sequence of bytes: what every operation does to the contents, and
    exactly when. */
module RingProofs {
  import opened RingModel

  lemma ReadableIsLength(r: Ring)
    requires Valid(r)
    ensures Readable(r) == |Contents(r)| && 0 <= Writable(r) <= |r.buf|
    ensures !(r.head == 0 && r.tail == 0) ==> Readable(r) + Writable(r) == |r.buf|
  {
  }

  // ----- write

  /** Ring after `data` was put behind the tail, in the three cases that keep it apart from the head. */
  lemma AppendContiguous(r: Ring, data: seq<byte>)
    requires Valid(r) && data != [] && r.tail >= r.head && r.tail + |data| <= |r.buf|
    ensures var r' := Ring(Blit(r.buf, r.tail, data), r.head, r.tail + |data|);
            Valid(r') && Contents(r') == Contents(r) + data
  {
  }

  lemma AppendBelowHead(r: Ring, data: seq<byte>)
    requires Valid(r) && data != [] && r.tail < r.head && r.tail + |data| < r.head
    ensures var r' := Ring(Blit(r.buf, r.tail, data), r.head, r.tail + |data|);
            Valid(r') && Contents(r') == Contents(r) + data
  {
  }

  lemma AppendAround(r: Ring, data: seq<byte>)
    requires Valid(r) && r.tail >= r.head && |r.buf| - r.tail < |data| < |r.buf| - r.tail + r.head
    ensures var p := |r.buf| - r.tail;
            var r' := Ring(Blit(Blit(r.buf, r.tail, data[..p]), 0, data[p..]), r.head, |data| - p);
            Valid(r') && Contents(r') == Contents(r) + data
  {
    var p := |r.buf| - r.tail;
    TwoBlits(r.buf, r.tail, data, p);
    AroundSlices(r.buf, r.head, r.tail, data, p);
    AroundJoins(r.buf[r.head..r.tail], data, p, []);
  }

  lemma AroundSlices(buf: seq<byte>, head: int, tail: int, data: seq<byte>, p: int)
    requires 0 <= head <= tail && 0 <= p <= |data| && |data| - p <= head && tail + p == |buf|
    ensures var q := |data| - p; var b := data[p..] + buf[q..tail] + data[..p];
            b[head..] == buf[head..tail] + data[..p] && b[..q] == data[p..] + []
  {
  }

  /** The ring now holds its old bytes followed by `data`, and no byte was copied elsewhere. */
  ghost predicate Appended(r: Ring, data: seq<byte>, w: Written) {
    w.Done? && w.ret == |data| && Valid(r) && Valid(w.ring) && Contents(w.ring) == Contents(r) + data
  }

  lemma AppendMeetsIff(r: Ring, data: seq<byte>)
    requires Valid(r) && 0 < |data| <= Writable(r)
    ensures Appended(r, data, Append(r, data)) <==> AppendGuard(r, |data|)
  {
    var n := |data|;
    if AppendGuard(r, n) {
      if r.tail >= r.head && r.tail + n <= |r.buf| {
        AppendContiguous(r, data);
      } else if r.tail < r.head {
        AppendBelowHead(r, data);
      } else {
        AppendAround(r, data);
      }
    } else {
      ReadableIsLength(r);
      if Append(r, data).Done? {
        ReadableIsLength(Append(r, data).ring);
      }
    }
  }

  /** `write` appends the bytes it reports if and only if the guard holds; where it reports none
      it changes nothing. */
  lemma WriteAppendsIff(r: Ring, target: seq<byte>, len: int, all: bool)
    requires Valid(r) && len <= |target|
    ensures var n, w := WriteCount(r, len, all), Write(r, target, len, all);
      && n <= Writable(r) && (n > 0 ==> n <= len)
      && (n <= 0 ==> w == Done(r, n))
      && (n > 0 ==> (Appended(r, target[..n], w) <==> AppendGuard(r, n)))
  {
    var n := WriteCount(r, len, all);
    if n > 0 {
      AppendMeetsIff(r, target[..n]);
    }
  }

  /** What happens outside the guard: a write that fills the ring makes it read as empty, and one
      into an empty ring may run past the end of the array. */
  lemma WriteOutsideGuard(r: Ring, data: seq<byte>)
    requires Valid(r) && 0 < |data| <= Writable(r) && !AppendGuard(r, |data|)
    ensures if r.head == r.tail then Append(r, data) == OutOfBounds
            else Append(r, data).Done? && Valid(Append(r, data).ring) && Contents(Append(r, data).ring) == []
  {
  }

  /** What `write` returns, case by case: an error code, and the ring as it was, or the number of bytes
      asked for, or as many as there is room for if not all need go; the tail moves on by as many,
      around the end of the array. */
  lemma WriteReturns(r: Ring, target: seq<byte>, len: int, all: bool)
    requires Valid(r) && len <= |target|
    ensures var w, n, room := Write(r, target, len, all), Min(len, Writable(r)), |r.buf| - r.tail;
      if len == 0 then w == Done(r, 0)
      else if len < 0 then w == Done(r, -3)
      else if all && len > Writable(r) then w == Done(r, if len <= |r.buf| then -1 else -2)
      else if Writable(r) == 0 then w == Done(r, -4)
      else w.Done? ==> w.ret == n && w.ring.head == r.head &&
                       w.ring.tail == if r.head < r.tail && n > room then n - room else r.tail + n
  {
  }

  /** When a copy of `write` would leave the array: the ring is empty, and the bytes do not fit behind
      the tail. */
  lemma WriteOverrunsIff(r: Ring, target: seq<byte>, len: int, all: bool)
    requires Valid(r) && len <= |target|
    ensures Write(r, target, len, all) == OutOfBounds <==>
              && 0 < len && r.head == r.tail > 0 && (all ==> len <= |r.buf|)
              && r.tail + Min(len, |r.buf|) > |r.buf|
  {
  }

  // ----- read

  /** `read` takes the oldest bytes, as many as it reports, in every state; where it reports none
      it changes nothing. */
  lemma ReadTakes(r: Ring, len: int, all: bool)
    requires Valid(r)
    ensures var x := Read(r, len, all);
      && Valid(x.ring) && x.ring.buf == r.buf
      && x.ret == ReadCount(r, len, all) && (if x.ret > 0 then |x.bytes| == x.ret <= len else x.bytes == [] && x.ring == r)
      && Contents(r) == x.bytes + Contents(x.ring)
  {
  }

  /** What `read` returns, case by case, and where it leaves the indices: both at the start after a read
      of exactly the bytes held; else the head moves on by the bytes read, around the end of the array
      in a ring that is wrapped. */
  lemma ReadReturns(r: Ring, len: int, all: bool)
    requires Valid(r)
    ensures var x, n := Read(r, len, all), Min(len, Readable(r));
      if len == 0 then x == Taken(r, 0, [])
      else if len < 0 then x == Taken(r, -3, [])
      else if all && len > Readable(r) then x == Taken(r, if len <= |r.buf| then -1 else -2, [])
      else if Readable(r) == 0 then x == Taken(r, -4, [])
      else
        && x.ret == n
        && if len == Readable(r) then x.ring.head == x.ring.tail == 0
           else
             && x.ring.tail == r.tail
             && x.ring.head == if r.head >= r.tail && r.head + n >= |r.buf| then r.head + n - |r.buf| else r.head + n
  {
  }

  // ----- back_write

  /** The patch went to its place, and length, indices and all other bytes are as before. */
  ghost predicate PatchedInPlace(r: Ring, goBack: int, data: seq<byte>, w: Written)
    requires Valid(r)
  {
    && w.Done? && w.ring.head == r.head && w.ring.tail == r.tail && Valid(w.ring)
    && |data| <= goBack <= |Contents(r)| && Contents(w.ring) == Patched(Contents(r), goBack, data)
  }

  lemma BlitFrom(buf: seq<byte>, off: int, data: seq<byte>, h: int)
    requires Fits(buf, off, |data|) && 0 <= h <= off
    ensures Blit(buf, off, data)[h..] == Patched(buf[h..], |buf| - off, data)
    ensures Blit(buf, off, data)[..h] == buf[..h]
  {
  }

  lemma BlitUpTo(buf: seq<byte>, off: int, data: seq<byte>, t: int)
    requires Fits(buf, off, |data|) && off + |data| <= t <= |buf|
    ensures Blit(buf, off, data)[..t] == Patched(buf[..t], t - off, data)
    ensures Blit(buf, off, data)[t..] == buf[t..]
  {
  }

  lemma PatchedInside(xs: seq<byte>, ys: seq<byte>, zs: seq<byte>, goBack: int, data: seq<byte>)
    requires |data| <= goBack <= |ys|
    ensures xs + Patched(ys, goBack, data) == Patched(xs + ys, goBack, data)
    ensures Patched(ys, goBack, data) + zs == Patched(ys + zs, goBack + |zs|, data)
  {
  }

  lemma PatchStraight(r: Ring, goBack: int, data: seq<byte>)
    requires Valid(r) && 0 < |data| <= goBack <= Readable(r) && r.head < r.tail
    ensures var b := Blit(r.buf, r.tail - goBack, data);
            PatchedInPlace(r, goBack, data, Done(r.(buf := b), |data|))
  {
    var pos := r.tail - goBack;
    BlitUpTo(r.buf, pos, data, r.tail);
    BlitFrom(r.buf[..r.tail], pos, data, r.head);
    assert r.buf[..r.tail][r.head..] == r.buf[r.head..r.tail];
    assert Blit(r.buf, pos, data)[..r.tail][r.head..] == Blit(r.buf, pos, data)[r.head..r.tail];
  }

  /** The patch lies below the tail of a ring that is wrapped. */
  lemma PatchLow(r: Ring, goBack: int, data: seq<byte>)
    requires Valid(r) && 0 < |data| <= goBack <= r.tail < r.head
    ensures var b := Blit(r.buf, r.tail - goBack, data);
            PatchedInPlace(r, goBack, data, Done(r.(buf := b), |data|))
  {
    BlitUpTo(r.buf, r.tail - goBack, data, r.tail);
    assert Blit(r.buf, r.tail - goBack, data)[r.head..] == r.buf[r.head..];
    PatchedInside(r.buf[r.head..], r.buf[..r.tail], [], goBack, data);
  }

  /** The patch lies above the head of a ring that is wrapped, and fits below the end. */
  lemma PatchHigh(r: Ring, goBack: int, data: seq<byte>)
    requires Valid(r) && 0 < |data| <= goBack <= Readable(r) && r.tail < r.head && r.tail < goBack
    requires r.tail - goBack + |r.buf| + |data| <= |r.buf|
    ensures var b := Blit(r.buf, r.tail - goBack + |r.buf|, data);
            PatchedInPlace(r, goBack, data, Done(r.(buf := b), |data|))
  {
    var pos := r.tail - goBack + |r.buf|;
    BlitFrom(r.buf, pos, data, r.head);
    BlitFrom(r.buf, pos, data, r.tail);
    PatchedInside([], r.buf[r.head..], r.buf[..r.tail], goBack - r.tail, data);
  }

  lemma TwoBlits(buf: seq<byte>, pos: int, data: seq<byte>, p: int)
    requires 0 <= p <= |data| && 0 <= |data| - p <= pos && pos + p == |buf|
    ensures Blit(Blit(buf, pos, data[..p]), 0, data[p..]) == data[p..] + buf[|data| - p..pos] + data[..p]
  {
  }

  /** The patch itself wraps. */
  lemma PatchAround(r: Ring, goBack: int, data: seq<byte>)
    requires Valid(r) && 0 < |data| <= goBack < Readable(r) && r.tail < r.head && r.tail < goBack
    requires goBack - r.tail < |data|
    ensures var pos, p := r.tail - goBack + |r.buf|, goBack - r.tail;
            var b := Blit(Blit(r.buf, pos, data[..p]), 0, data[p..]);
            PatchedInPlace(r, goBack, data, Done(r.(buf := b), |data|))
  {
  }

  lemma AroundJoins(xs: seq<byte>, data: seq<byte>, p: int, ys: seq<byte>)
    requires 0 <= p <= |data|
    ensures (xs + data[..p]) + (data[p..] + ys) == xs + data + ys
  {
  }

  /** For a patch inside the contents, `back_write` rewrites exactly its bytes, whatever they are,
      if and only if the guard holds: the patch starts behind the oldest byte, or there it does
      not meet the corner cases of `write`. */
  lemma BackWriteIff(r: Ring, goBack: int, len: int)
    requires Valid(r) && 0 < len <= goBack <= Readable(r)
    ensures (forall target: seq<byte> :: |target| >= len ==>
               PatchedInPlace(r, goBack, target[..len], BackWrite(r, goBack, target, len))) <==> PatchGuard(r, goBack, len)
  {
    if PatchGuard(r, goBack, len) {
      forall target: seq<byte> | |target| >= len
        ensures PatchedInPlace(r, goBack, target[..len], BackWrite(r, goBack, target, len))
      {
        BackWritePatches(r, goBack, target, len);
      }
    } else {
      BackWriteMisses(r, goBack, len);
    }
  }

  lemma PatchWithin(r: Ring, goBack: int, target: seq<byte>, len: int)
    requires Valid(r) && 0 < len <= goBack <= Readable(r) && len <= |target| && PatchGuard(r, goBack, len)
    requires PatchPos(r, goBack) + len <= |r.buf|
    ensures 0 <= PatchPos(r, goBack)
    ensures BackWrite(r, goBack, target, len) == Done(r.(buf := Blit(r.buf, PatchPos(r, goBack), target[..len])), len)
  {
  }

  lemma PatchBeyond(r: Ring, goBack: int, target: seq<byte>, len: int)
    requires Valid(r) && 0 < len <= goBack <= Readable(r) && len <= |target| && PatchGuard(r, goBack, len)
    requires PatchPos(r, goBack) + len > |r.buf|
    ensures r.tail < r.head && r.tail < goBack < Readable(r) && goBack - r.tail < len
    ensures var data, p, pos := target[..len], goBack - r.tail, r.tail - goBack + |r.buf|;
            BackWrite(r, goBack, target, len) == Done(r.(buf := Blit(Blit(r.buf, pos, data[..p]), 0, data[p..])), len)
  {
  }

  lemma BackWritePatches(r: Ring, goBack: int, target: seq<byte>, len: int)
    requires Valid(r) && 0 < len <= goBack <= Readable(r) && len <= |target| && PatchGuard(r, goBack, len)
    ensures PatchedInPlace(r, goBack, target[..len], BackWrite(r, goBack, target, len))
  {
    var data := target[..len];
    if PatchPos(r, goBack) + len > |r.buf| {
      PatchBeyond(r, goBack, target, len);
      PatchAround(r, goBack, data);
    } else {
      PatchWithin(r, goBack, target, len);
      PatchInOne(r, goBack, data);
    }
  }

  lemma PatchInOne(r: Ring, goBack: int, data: seq<byte>)
    requires Valid(r) && 0 < |data| <= goBack <= Readable(r)
    requires 0 <= PatchPos(r, goBack) && PatchPos(r, goBack) + |data| <= |r.buf|
    ensures PatchedInPlace(r, goBack, data, Done(r.(buf := Blit(r.buf, PatchPos(r, goBack), data)), |data|))
  {
    if r.head < r.tail {
      PatchStraight(r, goBack, data);
    } else if goBack <= r.tail {
      PatchLow(r, goBack, data);
    } else {
      PatchHigh(r, goBack, data);
    }
  }

  /** Outside the guard the patch is dropped, or the copy runs past the end of the array. */
  lemma BackWriteOutsideGuard(r: Ring, goBack: int, target: seq<byte>, len: int)
    requires Valid(r) && 0 < len <= goBack <= Readable(r) && len <= |target| && !PatchGuard(r, goBack, len)
    ensures var w := BackWrite(r, goBack, target, len);
            if r.head == 0 then w.Done? && w.ring == r else w == OutOfBounds
  {
  }

  lemma BackWriteMisses(r: Ring, goBack: int, len: int)
    requires Valid(r) && 0 < len <= goBack <= Readable(r) && !PatchGuard(r, goBack, len)
    ensures exists target: seq<byte> ::
              |target| >= len && !PatchedInPlace(r, goBack, target[..len], BackWrite(r, goBack, target, len))
  {
    ReadableIsLength(r);
    var oldest := Contents(r)[|Contents(r)| - goBack];
    var target := Filled(len, if oldest == 0 then 1 else 0);
    assert target[..len] == target;
    MissedBy(r, goBack, target, len);
  }

  function Filled(len: nat, x: byte): (xs: seq<byte>)
    ensures |xs| == len && forall k :: 0 <= k < len ==> xs[k] == x
  {
    seq(len, _ => x)
  }

  lemma MissedBy(r: Ring, goBack: int, target: seq<byte>, len: int)
    requires Valid(r) && 0 < len <= goBack <= Readable(r) == |Contents(r)| && !PatchGuard(r, goBack, len) && len == |target|
    requires target[0] != Contents(r)[|Contents(r)| - goBack]
    ensures !PatchedInPlace(r, goBack, target, BackWrite(r, goBack, target, len))
  {
  }

  /** The new contents are the old ones with `data` written over the bytes that start goBack from their
      end; the indices are as before. */
  ghost predicate ContentsPatched(r: Ring, goBack: int, data: seq<byte>, buf: seq<byte>)
    requires Valid(r)
  {
    |buf| == |r.buf| && |data| <= goBack <= |Contents(r)| && Contents(r.(buf := buf)) == Patched(Contents(r), goBack, data)
  }

  /** The copy in one piece of a patch that goes on behind the contents. */
  lemma LongInOne(r: Ring, pos: int, goBack: int, data: seq<byte>)
    requires Valid(r) && 0 < goBack <= Readable(r) && goBack < |data| && pos == r.tail - goBack >= 0 && pos + |data| <= |r.buf|
    requires r.tail < r.head ==> pos + |data| <= r.head
    ensures ContentsPatched(r, goBack, data[..goBack], Blit(r.buf, pos, data))
  {
    var b := Blit(r.buf, pos, data);
    assert Blit(r.buf, pos, data[..goBack])[..r.tail] == b[..r.tail];
    PatchInOne(r, goBack, data[..goBack]);
  }

  /** And in two. */
  lemma LongAround(r: Ring, pos: int, goBack: int, data: seq<byte>)
    requires Valid(r) && 0 < goBack <= Readable(r) && goBack < |data| && pos == PatchPos(r, goBack) && r.head < pos <= |r.buf|
    requires 0 < |data| - (|r.buf| - pos) <= r.head && |r.buf| - pos <= |data|
    ensures var p := |r.buf| - pos; var b := Blit(Blit(r.buf, pos, data[..p]), 0, data[p..]);
            ContentsPatched(r, goBack, data[..goBack], b)
  {
  }

  /** A patch longer than the bytes it goes back: nothing is written if it is longer than all that lies
      behind its start; else the contents end with its first goBack bytes, and the rest is left behind
      them unseen; but one that starts at the oldest byte may run past the end of the array. */
  lemma BackWriteLong(r: Ring, goBack: int, target: seq<byte>, len: int)
    requires Valid(r) && 0 < goBack <= Readable(r) && goBack < len <= |target|
    ensures var w, pos, room := BackWrite(r, goBack, target, len), PatchPos(r, goBack), Writable(r.(tail := PatchPos(r, goBack)));
      if len > room then w == Done(r, if len <= |r.buf| then -1 else -2)
      else if r.head == pos && pos + len > |r.buf| then w == OutOfBounds
      else
        && w.Done? && w.ret == len && w.ring == r.(buf := w.ring.buf)
        && ContentsPatched(r, goBack, target[..goBack], w.ring.buf)
  {
    var pos, data := PatchPos(r, goBack), target[..len];
    var room := Writable(r.(tail := pos));
    assert data[..goBack] == target[..goBack];
    if len <= room && !(r.head == pos && pos + len > |r.buf|) {
      if r.head >= pos || pos + len <= |r.buf| {
        LongInOne(r, pos, goBack, data);
      } else {
        LongAround(r, pos, goBack, data);
      }
    }
  }

  /** Without a length nothing is patched. */
  lemma BackWriteNothing(r: Ring, goBack: int, target: seq<byte>, len: int)
    requires Valid(r) && 0 <= goBack <= |r.buf| && len <= 0
    ensures BackWrite(r, goBack, target, len) == Done(r, if len == 0 then 0 else -3)
  {
  }

  // ----- on_recv and on_send

  ghost predicate RecvFacts(r: Ring, fd: Fd, x: Moved) {
    && Valid(x.ring) && |x.ring.buf| == |r.buf|
    && fd.input == x.bytes + x.fd.input && x.fd.output == fd.output
    && (if x.ret > 0 then |x.bytes| == x.ret <= Writable(r) else x.bytes == [] && x.ring == r)
  }

  lemma RecvAroundFacts(r: Ring, fd: Fd, x: Transfer, y: Transfer)
    requires Valid(r) && r.head <= r.tail && Writable(r) == |r.buf| - r.tail + r.head
    requires Got(fd, |r.buf| - r.tail, x) && 0 < x.ret == |r.buf| - r.tail && Got(x.fd, r.head, y)
    ensures RecvFacts(r, fd, ReceivedAround(r, x, y))
  {
  }

  lemma RecvAbove(r: Ring, fd: Fd)
    requires Valid(r) && Writable(r) > 0 && r.head <= r.tail
    ensures RecvFacts(r, fd, OnRecv(r, fd))
  {
    var room := |r.buf| - r.tail;
    ReadGets(fd, room, TRIES);
    var x := TryRead(fd, room, TRIES);
    if 0 < x.ret == room {
      ReadGets(x.fd, r.head, TRIES);
      RecvAroundFacts(r, fd, x, TryRead(x.fd, r.head, TRIES));
    }
  }

  /** `on_recv` takes from the descriptor exactly the bytes it reports, and none when it reports
      none; every pattern of short transfers, retries and failures included. */
  lemma RecvAccounts(r: Ring, fd: Fd)
    requires Valid(r)
    ensures RecvFacts(r, fd, OnRecv(r, fd))
  {
    if Writable(r) <= 0 {
      assert fd.input == [] + fd.input;
    } else if r.head > r.tail {
      ReadGets(fd, Writable(r), TRIES);
    } else {
      RecvAbove(r, fd);
    }
  }

  /** The bytes received are appended, unless they fill the ring to the point where it reads as
      empty. */
  lemma RecvAppendsOrFills(r: Ring, fd: Fd)
    requires Valid(r) && OnRecv(r, fd).ret > 0
    ensures var m := OnRecv(r, fd);
      && Valid(m.ring)
      && (Contents(m.ring) == Contents(r) + m.bytes <==> |m.bytes| < Writable(r) || r.head == 0)
  {
    RecvAccounts(r, fd);
    ReadableIsLength(OnRecv(r, fd).ring);
    if r.head > r.tail {
      RecvStoresBelow(r, fd);
    } else {
      RecvStoresAbove(r, fd);
    }
  }

  /** `on_recv` receives bytes if and only if there is room behind the tail, there is input, and
      the kernel transfers some of it before ten retries. */
  lemma RecvSucceedsIff(r: Ring, fd: Fd)
    requires Valid(r)
    ensures OnRecv(r, fd).ret > 0 <==>
              Writable(r) > 0 && r.tail < |r.buf| && fd.input != [] && Offer(fd.script, TRIES) > 0
  {
    if Writable(r) > 0 {
      var n := if r.head > r.tail then Writable(r) else |r.buf| - r.tail;
      ReadOffers(fd, n, TRIES);
      ReadGets(fd, n, TRIES);
    }
  }

  /** `on_send` sends bytes if and only if there are some between the head and the end of the array
      and the kernel transfers some of them before ten retries. */
  lemma SendSucceedsIff(r: Ring, fd: Fd)
    requires Valid(r)
    ensures OnSend(r, fd).ret > 0 <==> Readable(r) > 0 && r.head < |r.buf| && Offer(fd.script, TRIES) > 0
  {
    if Readable(r) > 0 {
      WriteAnswers(fd, if r.head < r.tail then r.buf[r.head..r.tail] else r.buf[r.head..], TRIES);
    }
  }

  /** Which descriptors fill a ring can be told from their input and their kernel. */
  lemma FillsIff(r: Ring, fd: Fd)
    requires Valid(r)
    ensures Fills(r, fd) <==> r.head > 0 && OnRecv(r, fd).ret > 0 && |OnRecv(r, fd).bytes| == Writable(r)
  {
    RecvSucceedsIff(r, fd);
    RecvAccounts(r, fd);
    if Writable(r) > 0 && r.tail < |r.buf| {
      if r.head > r.tail {
        ReadOffers(fd, Writable(r), TRIES);
      } else {
        FillsAroundIff(r, fd);
      }
    }
  }

  lemma FillsAroundIff(r: Ring, fd: Fd)
    requires Valid(r) && Writable(r) > 0 && r.head <= r.tail < |r.buf|
    ensures Fills(r, fd) <==> r.head > 0 && OnRecv(r, fd).ret == Writable(r)
  {
    var room := |r.buf| - r.tail;
    ReadOffers(fd, room, TRIES);
    ReadGets(fd, room, TRIES);
    var x := TryRead(fd, room, TRIES);
    if x.ret == room {
      ReadOffers(x.fd, r.head, TRIES);
      ReadGets(x.fd, r.head, TRIES);
    }
  }

  /** `on_recv` appends exactly the bytes it takes from the descriptor if and only if the
      descriptor does not fill the ring. */
  lemma RecvAppendsIff(r: Ring, fd: Fd)
    requires Valid(r)
    ensures var m := OnRecv(r, fd);
            Valid(m.ring) && (Contents(m.ring) == Contents(r) + m.bytes <==> !Fills(r, fd))
  {
    FillsIff(r, fd);
    RecvAccounts(r, fd);
    if OnRecv(r, fd).ret > 0 {
      RecvAppendsOrFills(r, fd);
    } else {
      assert Contents(r) == Contents(r) + [];
    }
  }

  /** And it does so with every descriptor if and only if the head is at the start of the array, or
      the tail is at its end, where nothing can be received. */
  lemma RecvAlwaysAppendsIff(r: Ring)
    requires Valid(r)
    ensures (forall fd :: AppendsFrom(r, fd)) <==> r.head == 0 || r.tail == |r.buf|
  {
    if r.head == 0 || r.tail == |r.buf| {
      forall fd ensures AppendsFrom(r, fd) {
        RecvAppendsIff(r, fd);
      }
    } else {
      var fd := Fd(Filled(Writable(r), 0), [], [Moves(|r.buf|), Moves(|r.buf|)]);
      assert After(fd.script, TRIES) == [Moves(|r.buf|)];
      RecvAppendsIff(r, fd);
      assert !AppendsFrom(r, fd);
    }
  }

  ghost predicate AppendsFrom(r: Ring, fd: Fd)
    requires Valid(r)
  {
    var m := OnRecv(r, fd);
    Valid(m.ring) && Contents(m.ring) == Contents(r) + m.bytes
  }

  lemma ReceivedAroundStores(r: Ring, fd: Fd, x: Transfer, y: Transfer)
    requires Valid(r) && r.head <= r.tail && Writable(r) == |r.buf| - r.tail + r.head
    requires Got(fd, |r.buf| - r.tail, x) && 0 < x.ret == |r.buf| - r.tail && Got(x.fd, r.head, y)
    ensures var m := ReceivedAround(r, x, y);
            if |m.bytes| < Writable(r) || r.head == 0 then Valid(m.ring) && Contents(m.ring) == Contents(r) + m.bytes
            else m.ring.head == m.ring.tail
  {
  }

  lemma RecvStoresAbove(r: Ring, fd: Fd)
    requires Valid(r) && OnRecv(r, fd).ret > 0 && r.head <= r.tail
    ensures var m := OnRecv(r, fd);
            if |m.bytes| < Writable(r) || r.head == 0 then Valid(m.ring) && Contents(m.ring) == Contents(r) + m.bytes
            else m.ring.head == m.ring.tail
  {
    var room := |r.buf| - r.tail;
    ReadGets(fd, room, TRIES);
    var x := TryRead(fd, room, TRIES);
    if x.ret < room {
      AppendContiguous(r, x.bytes);
    } else {
      ReadGets(x.fd, r.head, TRIES);
      ReceivedAroundStores(r, fd, x, TryRead(x.fd, r.head, TRIES));
    }
  }

  lemma RecvStoresBelow(r: Ring, fd: Fd)
    requires Valid(r) && OnRecv(r, fd).ret > 0 && r.head > r.tail
    ensures var m := OnRecv(r, fd);
            if |m.bytes| < Writable(r) then Valid(m.ring) && Contents(m.ring) == Contents(r) + m.bytes
            else m.ring.head == m.ring.tail
  {
    ReadGets(fd, Writable(r), TRIES);
    var x := TryRead(fd, Writable(r), TRIES);
    if x.ret < Writable(r) {
      AppendBelowHead(r, x.bytes);
    }
  }

  ghost predicate SendFacts(r: Ring, fd: Fd, x: Moved) {
    && Valid(r) && Valid(x.ring) && x.ring.buf == r.buf
    && x.fd.output == fd.output + x.bytes && x.fd.input == fd.input
    && (if x.ret > 0 then |x.bytes| == x.ret else x.bytes == [] && x.ring == r)
    && Contents(r) == x.bytes + Contents(x.ring)
  }

  lemma {:induction false} DropIs(r: Ring, bytes: seq<byte>, r': Ring)
    requires Valid(r) && Valid(r') && |bytes| <= |Contents(r)|
    requires bytes == Contents(r)[..|bytes|] && Contents(r') == Contents(r)[|bytes|..]
    ensures Contents(r) == bytes + Contents(r')
  {
  }

  /** `on_send` removes from the front exactly the bytes the descriptor took, and returns their
      number when positive; every pattern of short transfers, retries and failures included. */
  lemma SendAccounts(r: Ring, fd: Fd)
    requires Valid(r)
    ensures SendFacts(r, fd, OnSend(r, fd))
  {
    ReadableIsLength(r);
    var x := OnSend(r, fd);
    if Readable(r) <= 0 {
      assert fd.output == fd.output + [] && Contents(r) == [] + Contents(r);
    } else if r.head < r.tail {
      WritePuts(fd, r.buf[r.head..r.tail], TRIES);
      DropIs(r, x.bytes, x.ring);
    } else {
      SendAround(r, fd);
    }
  }

  lemma SendAround(r: Ring, fd: Fd)
    requires Valid(r) && Readable(r) > 0 && r.head > r.tail
    ensures SendFacts(r, fd, OnSend(r, fd))
  {
    var x := OnSend(r, fd);
    var high, low := r.buf[r.head..], r.buf[..r.tail];
    WritePuts(fd, high, TRIES);
    var a := TryWrite(fd, high, TRIES);
    if a.ret == |high| && a.ret > 0 {
      WritePuts(a.fd, low, TRIES);
      var b := TryWrite(a.fd, low, TRIES);
      assert a.bytes == high;
      assert fd.output + (a.bytes + b.bytes) == fd.output + a.bytes + b.bytes;
    }
    DropIs(r, x.bytes, x.ring);
  }

  /** When ten tries in a row ask for a retry, the result depends on the layout: -1 where the
      transfer might go around the end, but 0, which callers take for the end of the stream,
      where it would not. */
  lemma GivingUp(r: Ring, fd: Fd)
    requires Valid(r) && OnlyRetries(fd, TRIES)
    ensures Writable(r) > 0 ==> OnRecv(r, fd).ret == (if r.head > r.tail then 0 else -1)
    ensures Readable(r) > 0 ==> OnSend(r, fd).ret == (if r.head < r.tail then 0 else -1)
  {
    GivesUpIff(fd, if r.head > r.tail then Writable(r) else |r.buf| - r.tail,
               if r.head < r.tail then r.buf[r.head..r.tail] else r.buf[r.head..], TRIES);
    if Writable(r) > 0 {
      ReadGets(fd, if r.head > r.tail then Writable(r) else |r.buf| - r.tail, TRIES);
    }
    if Readable(r) > 0 {
      WritePuts(fd, if r.head < r.tail then r.buf[r.head..r.tail] else r.buf[r.head..], TRIES);
    }
  }

  /** What a loop of tries returns that transfers nothing; one that gives up returns `gaveUp`. */
  function Failure(a: Attempt, n: int, gaveUp: int): int {
    match a
    case Moves(max) => Min(max, n)
    case End => 0
    case Again => gaveUp
    case Fails(code) => if code < 0 then code else -1
  }

  /** How much of up to `low` bytes more goes through the descriptor once the first attempt has moved
      all it might. */
  function SecondOffer(fd: Fd, low: int): int {
    Min(Offer(After(fd.script, 10), 10), low)
  }

  /** What `on_recv` returns, from the ring, the input and what the kernel does: as much as the kernel
      offers of the room that lies in one piece, and, if that is used up and lies at the end of the
      array, as much as it offers then of the room below the head; each within ten tries. */
  lemma RecvReturns(r: Ring, fd: Fd)
    requires Valid(r)
    ensures var n := if r.head > r.tail then Writable(r) else |r.buf| - r.tail;
      var k := Min(Min(Offer(fd.script, 10), n), |fd.input|);
      OnRecv(r, fd).ret ==
        if Writable(r) <= 0 then 0
        else if k <= 0 then Failure(Answer(fd.script, 10), Min(n, |fd.input|), if r.head > r.tail then 0 else -1)
        else if r.head <= r.tail && k == n then k + SecondOffer(fd, Min(r.head, |fd.input| - k))
        else k
  {
    if Writable(r) > 0 {
      var n := if r.head > r.tail then Writable(r) else |r.buf| - r.tail;
      ReadAnswers(fd, n, 10);
      ReadOffers(fd, n, 10);
      ReadGets(fd, n, 10);
      var x := TryRead(fd, n, 10);
      if r.head <= r.tail && x.ret == n > 0 {
        ReadOffers(x.fd, r.head, 10);
        ReadGets(x.fd, r.head, 10);
      }
    }
  }

  /** The same for `on_send` and the bytes held. */
  lemma SendReturns(r: Ring, fd: Fd)
    requires Valid(r)
    ensures var n := if r.head < r.tail then r.tail - r.head else |r.buf| - r.head;
      var k := Min(Offer(fd.script, 10), n);
      OnSend(r, fd).ret ==
        if Readable(r) <= 0 then 0
        else if k <= 0 then Failure(Answer(fd.script, 10), n, if r.head < r.tail then 0 else -1)
        else if r.head >= r.tail && k == n then k + SecondOffer(fd, r.tail)
        else k
  {
    if Readable(r) > 0 {
      var data := if r.head < r.tail then r.buf[r.head..r.tail] else r.buf[r.head..];
      WriteAnswers(fd, data, 10);
      WriteOffers(fd, data, 10);
      var x := TryWrite(fd, data, 10);
      if r.head >= r.tail && x.ret == |data| > 0 {
        WriteAnswers(x.fd, r.buf[..r.tail], 10);
        WriteOffers(x.fd, r.buf[..r.tail], 10);
      }
    }
  }

  /** Only the tail moves in `on_recv`, and only the head in `on_send`, by the bytes transferred, around
      the end of the array. */
  lemma TransferIndices(r: Ring, fd: Fd)
    requires Valid(r)
    ensures var m, room := OnRecv(r, fd), |r.buf| - r.tail;
      && m.ring.head == r.head
      && m.ring.tail == if m.ret <= 0 then r.tail else if r.head <= r.tail && m.ret > room then m.ret - room else r.tail + m.ret
    ensures var m, high := OnSend(r, fd), |r.buf| - r.head;
      && m.ring.tail == r.tail
      && m.ring.head == if m.ret <= 0 then r.head else if r.head >= r.tail && m.ret >= high then m.ret - high else r.head + m.ret
  {
    RecvIndex(r, fd);
    SendIndex(r, fd);
  }

  lemma RecvIndex(r: Ring, fd: Fd)
    requires Valid(r)
    ensures var m, room := OnRecv(r, fd), |r.buf| - r.tail;
      && m.ring.head == r.head
      && m.ring.tail == if m.ret <= 0 then r.tail else if r.head <= r.tail && m.ret > room then m.ret - room else r.tail + m.ret
  {
    if Writable(r) > 0 {
      var n := if r.head > r.tail then Writable(r) else |r.buf| - r.tail;
      ReadGets(fd, n, TRIES);
      ReadGets(TryRead(fd, n, TRIES).fd, r.head, TRIES);
    }
  }

  lemma SendIndex(r: Ring, fd: Fd)
    requires Valid(r)
    ensures var m, high := OnSend(r, fd), |r.buf| - r.head;
      && m.ring.tail == r.tail
      && m.ring.head == if m.ret <= 0 then r.head else if r.head >= r.tail && m.ret >= high then m.ret - high else r.head + m.ret
  {
    if Readable(r) > 0 {
      var data := if r.head < r.tail then r.buf[r.head..r.tail] else r.buf[r.head..];
      WritePuts(fd, data, TRIES);
      WritePuts(TryWrite(fd, data, TRIES).fd, r.buf[..r.tail], TRIES);
    }
  }

  /** The attempt transfers none of up to n bytes, and is no failure. */
  predicate Silent(a: Attempt, n: int) {
    a.End? || (a.Moves? && Min(a.max, n) <= 0)
  }

  /** `on_recv` returns 0, which callers take for the end of the stream, exactly when there is no
      room; when the stream ends or nothing is transferred, for lack of input or of room behind the
      tail too; and, in a ring whose free space is in one piece below the head, when it gives up. */
  lemma RecvZeroIff(r: Ring, fd: Fd)
    requires Valid(r)
    ensures var a := Answer(fd.script, TRIES);
      OnRecv(r, fd).ret == 0 <==>
        || Writable(r) <= 0
        || (r.head > r.tail && (a.Again? || Silent(a, Min(Writable(r), |fd.input|))))
        || (r.head <= r.tail && Silent(a, Min(|r.buf| - r.tail, |fd.input|)))
  {
    if Writable(r) > 0 {
      var n := if r.head > r.tail then Writable(r) else |r.buf| - r.tail;
      ReadAnswers(fd, n, TRIES);
      ReadGets(fd, n, TRIES);
    }
  }

  /** `on_send` returns 0 exactly when there is nothing to send; when nothing is transferred, for
      lack of bytes between the head and the end of the array too; and, in a ring that is not
      wrapped, when it gives up. */
  lemma SendZeroIff(r: Ring, fd: Fd)
    requires Valid(r)
    ensures var a := Answer(fd.script, TRIES);
      OnSend(r, fd).ret == 0 <==>
        || Readable(r) <= 0
        || (r.head < r.tail && (a.Again? || Silent(a, r.tail - r.head)))
        || (r.head >= r.tail && Silent(a, |r.buf| - r.head))
  {
    if Readable(r) > 0 {
      WriteAnswers(fd, if r.head < r.tail then r.buf[r.head..r.tail] else r.buf[r.head..], TRIES);
    }
  }

  /** With the tail at the end of the array `on_recv` never takes a byte, however much room the
      ring has at its start. */
  lemma TailAtEndReceivesNothing(r: Ring, fd: Fd)
    requires Valid(r) && r.tail == |r.buf|
    ensures OnRecv(r, fd).ret <= 0 && OnRecv(r, fd).ring == r && OnRecv(r, fd).bytes == []
  {
    RecvAccounts(r, fd);
    ReadGets(fd, 0, TRIES);
  }
}
