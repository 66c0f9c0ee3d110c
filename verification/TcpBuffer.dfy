/** The socket buffer: one fixed array with a read and a write index, compacted in place. */
module TcpBuffer {
  import opened Bytes
  import opened Framing

  const TCP_BUF_SIZE := 4096

  const YES: seq<byte> := [0x59, 0x65, 0x73, 0x20]
  const NO: seq<byte> := [0x4E, 0x6F, 0x20]

  /** How many bytes sends take that take `takes[0]`, `takes[1]` and so on, up to the first that fails. */
  ghost function Total(takes: seq<nat>): nat {
    if takes == [] || takes[0] == 0 then 0 else takes[0] + Total(takes[1..])
  }

  lemma {:induction false} TotalSnoc(takes: seq<nat>, c: nat)
    requires c < |takes| && forall i :: 0 <= i < c ==> takes[i] > 0
    ensures Total(takes[..c]) + Total(takes[c..]) == Total(takes)
    ensures takes[c] > 0 ==> Total(takes[..c + 1]) == Total(takes[..c]) + takes[c]
  {
    if c > 0 {
      TotalSnoc(takes[1..], c - 1);
      assert takes[1..][..c - 1] == takes[..c][1..] && takes[1..][c - 1..] == takes[c..] && takes[1..][..c] == takes[..c + 1][1..];
    }
  }

  /** How much is received of `n` bytes on the way, with the indices of the buffer as they were. What has arrived
      is taken as far as there is room behind the pending bytes; room in front of them is gained only after the
      space behind has been filled, and only if more than half of the buffer is in front. */
  ghost predicate Arrived(readIndex: int, writeIndex: int, n: nat, ready: seq<nat>, got: nat, count: int) {
    var space := 4096 - writeIndex;
    if space == 0 && ready != [] then got == 0 && count == 0
    else if ready == [] || ready[0] == 0 || n == 0 then got == 0 && count == -1
    else if ready[0] < space || n < space then got == count == if ready[0] < n then ready[0] else n
    else if readIndex <= 2048 && |ready| > 1 then got == count == space
    else got >= space
  }

  class TcpBuffer {
    const buf: array<byte>
    var readIndex: int
    var writeIndex: int

    ghost predicate Valid()
      reads this
    {
      buf.Length == TCP_BUF_SIZE && 0 <= readIndex <= writeIndex <= TCP_BUF_SIZE
    }

    /** The bytes that have been put in and not yet taken out. */
    function Pending(): (q: seq<byte>)
      requires Valid()
      reads this, buf
      ensures |q| == writeIndex - readIndex
    {
      buf[readIndex..writeIndex]
    }

    constructor ()
      ensures Valid() && fresh(buf) && Pending() == [] && writeIndex == 0
    {
      buf := new byte[TCP_BUF_SIZE];
      readIndex, writeIndex := 0, 0;
    }

    /** Compaction moves the pending bytes to the front and changes none of them. */
    method Adjust()
      requires Valid()
      modifies this, buf
      ensures Valid() && Pending() == old(Pending())
      ensures readIndex == (if old(readIndex) > TCP_BUF_SIZE / 2 then 0 else old(readIndex))
    {
      if readIndex > TCP_BUF_SIZE / 2 {
        var len := writeIndex - readIndex;
        forall k | 0 <= k < len { buf[k] := buf[readIndex + k]; }
        readIndex := 0;
        writeIndex := len;
      }
    }

    /** Accepts `len` bytes that have been stored behind the pending ones. */
    method RecycleWrite(len: int)
      requires Valid() && 0 <= len
      modifies this, buf
      ensures Valid()
      ensures old(writeIndex) + len <= TCP_BUF_SIZE ==> Pending() == old(buf[readIndex..writeIndex + len])
      ensures old(writeIndex) + len > TCP_BUF_SIZE ==> Pending() == old(Pending())
      ensures old(writeIndex) + len <= TCP_BUF_SIZE ==> readIndex == (if old(readIndex) > TCP_BUF_SIZE / 2 then 0 else old(readIndex))
    {
      var j := writeIndex + len;
      if j > TCP_BUF_SIZE {
        return;
      }
      writeIndex := j;
      Adjust();
    }

    /** Gives up the first `len` pending bytes. A negative `len` moves the read index back, over
        whatever the buffer holds there, or out of it. */
    method RecycleRead(len: int)
      requires Valid() && len <= |Pending()|
      modifies this, buf
      ensures Valid() <==> old(readIndex) + len >= 0
      ensures len >= 0 ==> Pending() == old(Pending())[len..]
      ensures len < 0 <= old(readIndex) + len ==> Pending() == old(buf[readIndex + len..writeIndex])
      ensures old(readIndex) + len < 0 ==>
                readIndex == old(readIndex) + len && writeIndex == old(writeIndex) && buf[..] == old(buf[..])
    {
      var j := readIndex + len;
      if j > TCP_BUF_SIZE {
        return;
      }
      readIndex := j;
      if j >= 0 { Adjust(); }
    }

    /** `memcpy(&buf[o], s, |s|)`. */
    method CopyIn(o: int, s: seq<byte>)
      requires Valid() && 0 <= o && o + |s| <= TCP_BUF_SIZE
      modifies buf
      ensures buf[..] == Patch(old(buf[..]), o, s)
    {
      forall k | 0 <= k < |s| { buf[o + k] := s[k]; }
    }

    /** Frames `prefix` and the first `len` bytes of `s` as one message behind the pending
        bytes; does nothing when the length is negative or the message does not fit. */
    method Put(prefix: seq<byte>, s: seq<byte>, len: int)
      requires Valid() && len <= |s| && |prefix| <= 4 && len <= 0x7FFF_FFF0
      modifies this, buf
      ensures Valid()
      ensures if 0 <= len && |prefix| + len + 4 <= TCP_BUF_SIZE - old(writeIndex)
              then Pending() == old(Pending()) + Frame(prefix + s[..len])
              else Pending() == old(Pending()) && writeIndex == old(writeIndex)
    {
      hide Header, Patch;
      var writeable := TCP_BUF_SIZE - writeIndex;
      if len < 0 {
        return;
      }
      var n := len + |prefix|;
      if writeable < n + 4 {
        return;
      }
      var w := writeIndex;
      FramePatched(buf[..], readIndex, w, prefix, s[..len], Header(n));
      CopyIn(w + 4, prefix);
      CopyIn(w + 4 + |prefix|, s[..len]);
      CopyIn(w, Header(n));
      RecycleWrite(n + 4);
    }

    static lemma FramePatched(b: seq<byte>, i: nat, w: nat, prefix: seq<byte>, body: seq<byte>, h: seq<byte>)
      requires i <= w && |h| == 4 && w + 4 + |prefix| + |body| <= |b|
      ensures Patch(Patch(Patch(b, w + 4, prefix), w + 4 + |prefix|, body), w, h)[i..w + 4 + |prefix| + |body|]
           == b[i..w] + (h + (prefix + body))
    {
    }

    method Append(s: seq<byte>, len: int)
      requires Valid() && len <= |s| && len <= 0x7FFF_FFF0
      modifies this, buf
      ensures Valid()
      ensures if 0 <= len && len + 4 <= 4096 - old(writeIndex)
              then Pending() == old(Pending()) + ([0, 0, len / 256, len % 256] + s[..len])
              else Pending() == old(Pending()) && writeIndex == old(writeIndex)
    {
      hide Frame, Pending;
      Put([], s, len);
      if 0 <= len && len + 4 <= TCP_BUF_SIZE {
        assert [] + s[..len] == s[..len];
        FrameBytes(s[..len]);
      }
    }

    method ReplyWithYes(s: seq<byte>, len: int)
      requires Valid() && len <= |s| && len <= 0x7FFF_FFF0
      modifies this, buf
      ensures Valid()
      ensures if 0 <= len && len + 8 <= 4096 - old(writeIndex)
              then Pending() == old(Pending()) + ([0, 0, (len + 4) / 256, (len + 4) % 256] + ([0x59, 0x65, 0x73, 0x20] + s[..len]))
              else Pending() == old(Pending()) && writeIndex == old(writeIndex)
    {
      hide Frame, Pending;
      Put(YES, s, len);
      if 0 <= len && len + 8 <= TCP_BUF_SIZE { FrameBytes(YES + s[..len]); }
    }

    method ReplyWithNo(s: seq<byte>, len: int)
      requires Valid() && len <= |s| && len <= 0x7FFF_FFF0
      modifies this, buf
      ensures Valid()
      ensures if 0 <= len && len + 7 <= 4096 - old(writeIndex)
              then Pending() == old(Pending()) + ([0, 0, (len + 3) / 256, (len + 3) % 256] + ([0x4E, 0x6F, 0x20] + s[..len]))
              else Pending() == old(Pending()) && writeIndex == old(writeIndex)
    {
      hide Frame, Pending;
      Put(NO, s, len);
      if 0 <= len && len + 7 <= TCP_BUF_SIZE { FrameBytes(NO + s[..len]); }
    }

    /** What one `recv` has stored behind the pending bytes is accepted. */
    method Receive(data: seq<byte>)
      requires Valid() && |data| <= TCP_BUF_SIZE - writeIndex
      modifies this, buf
      ensures Valid() && Pending() == old(Pending()) + data
      ensures old(readIndex) <= 2048 ==> readIndex == old(readIndex) && writeIndex == old(writeIndex) + |data|
    {
      CopyIn(writeIndex, data);
      RecycleWrite(|data|);
    }

    static lemma Received(q: seq<byte>, incoming: seq<byte>, got: nat, ret: nat)
      requires got + ret <= |incoming|
      ensures q + incoming[..got + ret] == q + incoming[..got] + incoming[got..got + ret]
    {
    }

    /** `read_to_buffer`: `ready[c]` is how much of `incoming` the c-th `recv` finds, 0 when
        the peer has closed. Every byte received goes behind the pending ones. */
    method ReadToBuffer(incoming: seq<byte>, ready: seq<nat>) returns (got: nat, count: int)
      requires Valid()
      modifies this, buf
      ensures Valid() && got <= |incoming|
      ensures Pending() == old(Pending()) + incoming[..got]
      ensures count == -1 || count == got
      ensures Arrived(old(readIndex), old(writeIndex), |incoming|, ready, got, count)
    {
      hide Pending;
      got, count := 0, 0;
      var c := 0;
      while c < |ready|
        invariant Valid() && 0 <= c <= |ready| && got == count <= |incoming|
        invariant Pending() == old(Pending()) + incoming[..got]
        invariant c == 0 ==> got == 0 && readIndex == old(readIndex) && writeIndex == old(writeIndex)
        invariant c > 0 ==>
                    && 0 < 4096 - old(writeIndex) <= got && ready[0] >= 4096 - old(writeIndex) && |incoming| >= 4096 - old(writeIndex)
                    && (old(readIndex) <= 2048 ==> c == 1 && got == 4096 - old(writeIndex) && writeIndex == 4096)
      {
        var writeable := TCP_BUF_SIZE - writeIndex;
        if writeable == 0 {
          return;
        }
        var ret := Min(Min(ready[c], writeable), |incoming| - got);
        if ret == 0 {
          return got, -1;
        }
        Received(old(Pending()), incoming, got, ret);
        Receive(incoming[got..got + ret]);
        got, count := got + ret, count + ret;
        if ret < writeable {
          return;
        }
        c := c + 1;
      }
      return got, -1;
    }

    static lemma ParseShort(q: seq<byte>, done: seq<Msg>)
      requires !Complete(q)
      ensures Parse(q) == Parsed([], q) && done + Parse(q).msgs == done
    {
    }

    static lemma DrainStep(q: seq<byte>, done: seq<Msg>)
      requires |q| >= 4 && !Odd(q)
      ensures Complete(q) <==> |q| >= Length(q) + 4
      ensures !Complete(q) ==> Parse(q) == Parsed([], q) && done + Parse(q).msgs == done
      ensures Complete(q) ==>
                && Parse(q).rest == Parse(Behind(q)).rest
                && done + Parse(q).msgs == done + [First(q)] + Parse(Behind(q)).msgs
    {
    }

    /** The message loop of `handle_read`: hands over every complete message, up to the first header
        too large for a signed length. `odd` tells whether it met one, where `TakeOdd` goes on. */
    method Drain() returns (delivered: seq<Msg>, odd: bool)
      requires Valid()
      modifies this, buf
      ensures Valid() && Parsed(delivered, Pending()) == Parse(old(Pending()))
      ensures odd == Odd(Pending()) && (odd <==> !Regular(old(Pending())))
    {
      hide Length, Pending, Parse, Regular;
      delivered, odd := [], false;
      ghost var all := Parse(Pending());
      assert delivered + all.msgs == all.msgs;
      RegularParse(Pending());
      while true
        invariant Valid()
        invariant all.msgs == delivered + Parse(Pending()).msgs && all.rest == Parse(Pending()).rest
        decreases |Pending()|
      {
        var readable := writeIndex - readIndex;
        if readable < 4 {
          ParseShort(Pending(), delivered);
          break;
        }
        var q := Pending();
        var len: int := Length(q);
        if len > MAXLEN {
          ParseShort(q, delivered);
          odd := true;
          break;
        }
        DrainStep(q, delivered);
        if readable >= len + 4 {
          var msg := q[4..len + 4];
          delivered := delivered + [msg];
          RecycleRead(len + 4);
        } else {
          break;
        }
      }
    }

    /** A round of the message loop at a header too large for a signed length. It always moves by
        `Advance`: one to three bytes further inside the buffer; not at all, so that the next round
        is the same for ever; or back, over bytes that were taken out before, and out of the buffer
        exactly if there are not as many before the read index. */
    method TakeOdd()
      requires Valid() && Odd(Pending())
      modifies this, buf
      ensures var n := Advance(old(Pending()));
        && (Valid() <==> old(readIndex) + n >= 0)
        && (n > 0 ==> Pending() == old(Pending())[n..])
        && (n == 0 ==> Pending() == old(Pending()))
        && (n < 0 <= old(readIndex) + n ==> Pending() == old(buf[readIndex + n..writeIndex]))
        && (old(readIndex) + n < 0 ==> readIndex == old(readIndex) + n && writeIndex == old(writeIndex))
    {
      hide Length;
      RecycleRead(Advance(Pending()));
    }

    /** What `handle_read` does with the bytes that have arrived: one step of `Feed`, up to a header
        too large for a signed length. Nothing is handed over once the peer has closed. */
    method HandleRead(incoming: seq<byte>, ready: seq<nat>) returns (delivered: seq<Msg>, got: nat, count: int, odd: bool)
      requires Valid()
      modifies this, buf
      ensures Valid() && got <= |incoming|
      ensures count > 0 ==> Parsed(delivered, Pending()) == Parse(old(Pending()) + incoming[..got]) && !Complete(Pending())
      ensures count > 0 ==> FrontTaken(old(Pending()) + incoming[..got], Parsed(delivered, Pending()))
      ensures count > 0 ==> odd == Odd(Pending()) && (odd <==> !Regular(old(Pending()) + incoming[..got]))
      ensures count <= 0 ==> delivered == [] && Pending() == old(Pending()) + incoming[..got] && !odd
      ensures count == 0 ==> got == 0
      ensures Arrived(old(readIndex), old(writeIndex), |incoming|, ready, got, count)
    {
      hide Pending, Parse, Regular, Complete, Odd, FrontTaken, Arrived;
      got, count := ReadToBuffer(incoming, ready);
      delivered, odd := [], false;
      ghost var q1 := Pending();
      ParseFrames(q1);
      ParseFront(q1);
      if count > 0 {
        delivered, odd := Drain();
      }
    }

    /** `buffer_next`: the first message without taking it out; 0 stands both for an empty
        message and for an incomplete one, -1 for a length no buffer could hold. */
    method Next() returns (r: int, out: seq<byte>)
      requires Valid()
      ensures r == -1 <==> |Pending()| >= 4 && Length(Pending()) > 4092
      ensures r > 0 <==> Parse(Pending()).msgs != [] && Parse(Pending()).msgs[0] != []
      ensures r > 0 ==> out == Parse(Pending()).msgs[0] && r == |out|
    {
      hide Length, Pending;
      out := [];
      var q := Pending();
      var avail := writeIndex - readIndex;
      if avail < 4 {
        return 0, out;
      }
      var plen := Length(q);
      if plen > TCP_BUF_SIZE - 4 {
        return -1, out;
      }
      if avail < 4 + plen {
        return 0, out;
      }
      out := q[4..plen + 4];
      assert Complete(q) && out == First(q);
      return plen, out;
    }

    static lemma Passed(sent: seq<byte>, q: seq<byte>, n: nat)
      requires n <= |q|
      ensures sent + q[..n] + q[n..] == sent + q
    {
    }

    /** `send_buffer`: the c-th `send` takes `takes[c]` bytes, or fails when that is 0. What
        has been sent and what is still pending are together what was pending. */
    method SendBuffer(takes: seq<nat>) returns (sent: seq<byte>)
      requires Valid()
      modifies this, buf
      ensures Valid() && sent + Pending() == old(Pending())
      ensures |sent| == if Total(takes) < |old(Pending())| then Total(takes) else |old(Pending())|
    {
      hide Pending;
      sent := [];
      var c := 0;
      while writeIndex > readIndex && c < |takes|
        invariant Valid() && sent + Pending() == old(Pending()) && c <= |takes|
        invariant forall i :: 0 <= i < c ==> takes[i] > 0
        invariant |sent| == if Total(takes[..c]) < |old(Pending())| then Total(takes[..c]) else |old(Pending())|
        decreases |takes| - c
      {
        TotalSnoc(takes, c);
        var readable := writeIndex - readIndex;
        var ret := Min(takes[c], readable);
        if ret <= 0 {
          assert takes[c..][0] == 0;
          return;
        }
        Passed(sent, Pending(), ret);
        sent := sent + Pending()[..ret];
        RecycleRead(ret);
        c := c + 1;
      }
      if c < |takes| { TotalSnoc(takes, c); } else { assert takes[..c] == takes; }
    }
  }
}
