// Pipe_CB: the ring buffer, with the code of pipe_write and pipe_read between
// two waits.
module Pipe {
  import opened PipeModel

  // The bytes from position r to position w of a ring buffer.
  function RingSlice(b: seq<byte>, r: nat, w: nat): seq<byte>
    requires r < |b| && w < |b|
  {
    if r <= w then b[r..w] else b[r..] + b[..w]
  }

  lemma SliceLength(b: seq<byte>, r: nat, w: nat)
    requires |b| == PIPE_BUFFER_SIZE && r < |b| && w < |b|
    ensures |RingSlice(b, r, w)| == if r <= w then w - r else w - r + PIPE_BUFFER_SIZE
    ensures |RingSlice(b, r, w)| == CAPACITY <==> r == (w + 1) % PIPE_BUFFER_SIZE
    ensures |RingSlice(b, r, w)| == 0 <==> r == w
  {
  }

  // A byte stored at w, if the ring is not full, follows those unread and
  // changes none of them.
  lemma PutSlice(b: seq<byte>, r: nat, w: nat, x: byte)
    requires |b| == PIPE_BUFFER_SIZE && r < |b| && w < |b| && r != (w + 1) % PIPE_BUFFER_SIZE
    ensures RingSlice(b[w := x], r, (w + 1) % PIPE_BUFFER_SIZE) == RingSlice(b, r, w) + [x]
  {
    var w', c := (w + 1) % PIPE_BUFFER_SIZE, b[w := x];
    var s, s' := RingSlice(b, r, w), RingSlice(c, r, w');
    SliceLength(b, r, w);
    SliceLength(c, r, w');
    assert |s'| == |s| + 1;
    forall k | 0 <= k < |s'|
      ensures s'[k] == (s + [x])[k]
    {
      if r <= w {
        assert s'[k] == c[r + k];
      } else if k < |b| - r {
        assert s'[k] == c[r + k] == b[r + k];
      } else {
        assert s'[k] == c[k - (|b| - r)];
      }
    }
  }

  lemma TakeSlice(b: seq<byte>, r: nat, w: nat)
    requires |b| == PIPE_BUFFER_SIZE && r < |b| && w < |b| && r != w
    ensures RingSlice(b, r, w) == [b[r]] + RingSlice(b, (r + 1) % PIPE_BUFFER_SIZE, w)
  {
    var r' := (r + 1) % PIPE_BUFFER_SIZE;
    var s, s' := RingSlice(b, r, w), RingSlice(b, r', w);
    SliceLength(b, r, w);
    SliceLength(b, r', w);
    assert s[0] == b[r];
    forall k | 0 <= k < |s'|
      ensures s[k + 1] == s'[k]
    {
      if r + 1 == |b| {
        assert s'[k] == b[k];
      } else if r < w {
        assert s'[k] == b[r + 1 + k];
      }
    }
    assert s[1..] == s';
  }

  // pipe_write byte by byte is WriteStep at once.
  lemma WriteByByte(p: Pipe, buf: seq<byte>, i: nat)
    requires i < |buf| && |p.contents| < CAPACITY && p.reader && p.writer
    ensures WriteStep(p, buf, i) == WriteStep(p.(contents := p.contents + [buf[i]]), buf, i + 1)
  {
    var p' := p.(contents := p.contents + [buf[i]]);
    var k := Min(|buf| - i, CAPACITY - |p.contents|);
    assert p.contents + buf[i..i + k] == p'.contents + buf[i + 1..i + k];
    if i + 1 == |buf| || |p'.contents| == CAPACITY {
      assert buf[i + 1..i + k] == [];
    }
  }

  lemma ReadByByte(p: Pipe, n: nat, got: seq<byte>)
    requires |got| < n && p.contents != [] && p.reader
    ensures ReadStep(p, n, got) == ReadStep(p.(contents := p.contents[1..]), n, got + [p.contents[0]])
  {
    var p', got' := p.(contents := p.contents[1..]), got + [p.contents[0]];
    var k := Min(n - |got|, |p.contents|);
    assert p.contents[k..] == p'.contents[k - 1..];
    assert got + p.contents[..k] == got' + p'.contents[..k - 1];
    if |got'| == n || p'.contents == [] {
      assert p'.contents[k - 1..] == p'.contents && p'.contents[..k - 1] == [];
    }
  }

  class PipeCB {
    var reader: bool             // the reader's FCB is not NULL
    var writer: bool
    var wPosition: nat
    var rPosition: nat
    const buffer: array<byte>
    var hasSpace: set<Tid>       // the waiters of the condition variables
    var hasData: set<Tid>

    ghost predicate Valid()
      reads this
    {
      buffer.Length == PIPE_BUFFER_SIZE && wPosition < PIPE_BUFFER_SIZE && rPosition < PIPE_BUFFER_SIZE
    }

    ghost function Now(): Pipe
      requires Valid()
      reads this, buffer
    {
      SliceLength(buffer[..], rPosition, wPosition);
      Pipe(RingSlice(buffer[..], rPosition, wPosition), reader, writer)
    }

    constructor ()
      ensures Valid() && Now() == Pipe([], true, true) && hasSpace == {} && hasData == {} && fresh(buffer)
    {
      reader, writer := true, true;
      wPosition, rPosition := 0, 0;
      buffer := new byte[PIPE_BUFFER_SIZE];
      hasSpace, hasData := {}, {};
    }

    predicate Full()
      requires Valid()
      reads this
    {
      rPosition == (wPosition + 1) % PIPE_BUFFER_SIZE
    }

    method Put(x: byte)
      requires Valid() && !Full()
      modifies this`wPosition, buffer
      ensures Valid() && Now() == old(Now()).(contents := old(Now().contents) + [x])
    {
      PutSlice(buffer[..], rPosition, wPosition, x);
      buffer[wPosition] := x;
      wPosition := (wPosition + 1) % PIPE_BUFFER_SIZE;
    }

    method Take() returns (x: byte)
      requires Valid() && rPosition != wPosition
      modifies this`rPosition
      ensures Valid() && [x] + Now().contents == old(Now().contents)
      ensures Now() == old(Now()).(contents := old(Now().contents)[1..])
    {
      TakeSlice(buffer[..], rPosition, wPosition);
      x := buffer[rPosition];
      rPosition := (rPosition + 1) % PIPE_BUFFER_SIZE;
    }

    method WriteByte(buf: seq<byte>, i: nat)
      requires Valid() && i < |buf| && reader && writer && !Full()
      modifies this`wPosition, buffer
      ensures Valid() && WriteStep(Now(), buf, i + 1) == WriteStep(old(Now()), buf, i)
    {
      SliceLength(buffer[..], rPosition, wPosition);
      WriteByByte(Now(), buf, i);
      Put(buf[i]);
    }

    // The loop of pipe_write, up to its next wait.
    method WriteOn(t: Tid, buf: seq<byte>, i: nat) returns (bytesWritten: nat, next: Progress)
      requires Valid() && i <= |buf|
      modifies this, buffer
      ensures Valid()
      ensures var r := WriteStep(old(Now()), buf, i);
              && Now() == r.pipe && bytesWritten == r.i && next == r.next
              && hasData == (if r.wakes then {} else old(hasData))
              && hasSpace == (if r.next.Sleeps? then old(hasSpace) + {t} else old(hasSpace))
    {
      bytesWritten := i;
      while bytesWritten < |buf|
        invariant bytesWritten <= |buf| && Valid()
        invariant unchanged(`hasData) && unchanged(`hasSpace)
        invariant WriteStep(Now(), buf, bytesWritten) == WriteStep(old(Now()), buf, i)
      {
        SliceLength(buffer[..], rPosition, wPosition);
        if Full() && reader {
          hasData := {};
          hasSpace := hasSpace + {t};
          return bytesWritten, Sleeps;
        }
        if !reader {
          return bytesWritten, Returns(-1);
        }
        if !writer {
          break;
        }
        WriteByte(buf, bytesWritten);
        bytesWritten := bytesWritten + 1;
      }
      hasData := {};
      next := Returns(bytesWritten);
    }

    method Write(t: Tid, buf: seq<byte>) returns (bytesWritten: nat, next: Progress)
      requires Valid()
      modifies this, buffer
      ensures Valid()
      ensures !old(reader) || !old(writer) ==>
                next == Returns(-1) && Now() == old(Now()) && hasData == old(hasData) && hasSpace == old(hasSpace)
      ensures old(reader) && old(writer) ==>
                var r := WriteStep(old(Now()), buf, 0);
                && Now() == r.pipe && bytesWritten == r.i && next == r.next && hasData == {}
                && hasSpace == (if r.next.Sleeps? then old(hasSpace) + {t} else old(hasSpace))
    {
      if !writer || !reader {
        return 0, Returns(-1);
      }
      bytesWritten, next := WriteOn(t, buf, 0);
    }

    method ReadByte(buf: array<byte>, n: nat, j: nat)
      requires Valid() && j < n <= buf.Length && buf != buffer && reader && rPosition != wPosition
      modifies this`rPosition, buf
      ensures Valid() && ReadStep(Now(), n, buf[..j + 1]) == ReadStep(old(Now()), n, old(buf[..j]))
      ensures forall k :: j < k < buf.Length ==> buf[k] == old(buf[k])
    {
      ghost var got := buf[..j];
      SliceLength(buffer[..], rPosition, wPosition);
      ReadByByte(Now(), n, got);
      var x := Take();
      buf[j] := x;
      assert buf[..j + 1] == got + [x];
    }

    // The loop of pipe_read, up to its next wait.  j bytes are in buf already.
    method ReadOn(t: Tid, buf: array<byte>, n: nat, j: nat) returns (bytesRead: nat, next: Progress)
      requires Valid() && j <= n <= buf.Length && buf != buffer
      modifies this, buf
      ensures Valid() && j <= bytesRead <= n
      ensures var r := ReadStep(old(Now()), n, old(buf[..j]));
              && Now() == r.pipe && buf[..bytesRead] == r.got && next == r.next
              && hasData == (if r.next.Sleeps? then old(hasData) + {t} else old(hasData))
              && hasSpace == (if r.wakes then {} else old(hasSpace))
      ensures forall k :: bytesRead <= k < buf.Length ==> buf[k] == old(buf[k])
    {
      bytesRead := j;
      while bytesRead < n
        invariant j <= bytesRead <= n && Valid()
        invariant unchanged(`hasData) && unchanged(`hasSpace)
        invariant ReadStep(Now(), n, buf[..bytesRead]) == ReadStep(old(Now()), n, old(buf[..j]))
        invariant forall k :: bytesRead <= k < buf.Length ==> buf[k] == old(buf[k])
      {
        SliceLength(buffer[..], rPosition, wPosition);
        if wPosition == rPosition && writer {
          hasSpace := {};
          hasData := hasData + {t};
          return bytesRead, Sleeps;
        }
        if !reader {
          return bytesRead, Returns(-1);
        }
        if wPosition == rPosition && !writer {
          break;
        }
        ReadByte(buf, n, bytesRead);
        bytesRead := bytesRead + 1;
      }
      hasSpace := {};
      next := Returns(bytesRead);
    }

    method Read(t: Tid, buf: array<byte>, n: nat) returns (bytesRead: nat, next: Progress)
      requires Valid() && n <= buf.Length && buf != buffer
      modifies this, buf
      ensures Valid() && bytesRead <= n
      ensures !old(reader) ==>
                next == Returns(-1) && Now() == old(Now()) && hasData == old(hasData) && hasSpace == old(hasSpace)
      ensures old(reader) ==>
                var r := ReadStep(old(Now()), n, []);
                && Now() == r.pipe && buf[..bytesRead] == r.got && next == r.next && hasSpace == {}
                && hasData == (if r.next.Sleeps? then old(hasData) + {t} else old(hasData))
      ensures forall k :: bytesRead <= k < buf.Length ==> buf[k] == old(buf[k])
    {
      if !reader {
        return 0, Returns(-1);
      }
      assert buf[..0] == [];
      bytesRead, next := ReadOn(t, buf, n, 0);
    }

    // pipe_writer_close; `freed` says that the pipe is gone.
    method CloseWriter() returns (freed: bool)
      requires Valid()
      modifies this
      ensures Valid() && Now() == old(Now()).(writer := false) && freed == !reader
      ensures hasSpace == old(hasSpace) && hasData == if reader then {} else old(hasData)
    {
      writer := false;
      if reader {
        hasData := {};
      }
      freed := !reader && !writer;
    }

    method CloseReader() returns (freed: bool)
      requires Valid()
      modifies this
      ensures Valid() && Now() == old(Now()).(reader := false) && freed == !writer
      ensures hasData == old(hasData) && hasSpace == if writer then {} else old(hasSpace)
    {
      reader := false;
      if writer {
        hasSpace := {};
      }
      freed := !writer && !reader;
    }
  }
}
