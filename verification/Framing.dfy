/** Length-prefixed messages as a byte stream: four bytes of big-endian length, then the message. */
module Framing {
  import opened Bytes

  /** Lengths a signed 32-bit `len + 4` can express. */
  const MAXLEN := 0x7FFF_FFFB

  type Msg = m: seq<byte> | |m| <= MAXLEN

  /** `htonl` and `ntohl`. */
  function Header(n: uint32): (h: seq<byte>)
    ensures |h| == 4
  {
    [n / 0x100 / 0x100 / 0x100, n / 0x100 / 0x100 % 0x100, n / 0x100 % 0x100, n % 0x100]
  }

  function Length(q: seq<byte>): uint32
    requires |q| >= 4
  {
    q[0] as int * 0x100_0000 + q[1] as int * 0x1_0000 + q[2] as int * 0x100 + q[3] as int
  }

  function Frame(m: Msg): (f: seq<byte>)
    ensures |f| == |m| + 4
  {
    Header(|m|) + m
  }

  function Frames(ms: seq<Msg>): seq<byte> {
    if ms == [] then [] else Frame(ms[0]) + Frames(ms[1..])
  }

  /** A complete message is at the front. */
  predicate Complete(q: seq<byte>) {
    |q| >= 4 && Length(q) <= MAXLEN && |q| >= Length(q) + 4
  }

  /** Every length met is one a peer may send. */
  predicate Regular(q: seq<byte>) {
    |q| >= 4 ==> Length(q) <= MAXLEN && (|q| >= Length(q) + 4 ==> Regular(q[Length(q) + 4..]))
  }

  /** Messages that are complete, and the bytes left over. */
  datatype Parsed = Parsed(msgs: seq<Msg>, rest: seq<byte>)

  function First(q: seq<byte>): Msg
    requires Complete(q)
  {
    q[4..Length(q) + 4]
  }

  function Behind(q: seq<byte>): (r: seq<byte>)
    requires Complete(q)
    ensures |r| < |q|
  {
    q[Length(q) + 4..]
  }

  /** The complete messages at the front, and what is left over. */
  function Parse(q: seq<byte>): Parsed
    decreases |q|
  {
    if Complete(q) then
      var r := Parse(Behind(q));
      Parsed([First(q)] + r.msgs, r.rest)
    else Parsed([], q)
  }

  lemma LengthOfHeader(n: uint32, rest: seq<byte>)
    ensures Length(Header(n) + rest) == n
  {
  }

  lemma HeaderOfLength(q: seq<byte>)
    requires |q| >= 4
    ensures Header(Length(q)) == q[..4]
  {
    var x1 := q[0] as int * 0x100 + q[1] as int;
    var x2 := x1 * 0x100 + q[2] as int;
    assert Length(q) == x2 * 0x100 + q[3] as int;
    assert Length(q) / 0x100 == x2 && x2 / 0x100 == x1 && x1 / 0x100 == q[0];
  }

  /** The first of the four bytes weighs most. */
  lemma BigEndian(q: seq<byte>)
    requires |q| >= 4
    ensures Length(q) == 256 * (256 * (256 * q[0] as int + q[1] as int) + q[2] as int) + q[3] as int
    ensures Header(Length(q)) == q[..4]
  {
    HeaderOfLength(q);
  }

  /** Headers are ordered, byte by byte from the front, as the lengths they stand for. */
  lemma HeaderOrder(m: uint32, n: uint32)
    ensures var x, y := Header(m), Header(n);
      m < n <==> x[0] < y[0] || (x[0] == y[0] && (x[1] < y[1] || (x[1] == y[1] && (x[2] < y[2] || (x[2] == y[2] && x[3] < y[3])))))
    ensures Header(0) == [0, 0, 0, 0] && Header(1) == [0, 0, 0, 1]
  {
    LengthOfHeader(m, []);
    LengthOfHeader(n, []);
    assert Header(m) + [] == Header(m) && Header(n) + [] == Header(n);
  }

  /** The bytes of a frame whose message fits a buffer. */
  lemma FrameBytes(m: Msg)
    requires |m| < 0x1_0000
    ensures Frame(m) == [0, 0, |m| / 256, |m| % 256] + m
  {
    var h := [0, 0, |m| / 256, |m| % 256];
    HeaderOfLength(h);
    assert Length(h) == |m|;
  }

  lemma FrameFirst(m: Msg, rest: seq<byte>)
    ensures Complete(Frame(m) + rest) && First(Frame(m) + rest) == m && Behind(Frame(m) + rest) == rest
  {
    LengthOfHeader(|m|, m + rest);
    assert Frame(m) + rest == Header(|m|) + (m + rest);
  }

  lemma FirstFrame(q: seq<byte>)
    requires Complete(q)
    ensures Frame(First(q)) + Behind(q) == q
  {
    HeaderOfLength(q);
  }

  /** Parsing loses nothing: framing the messages again and appending the rest gives the stream back. */
  lemma {:induction false} ParseFrames(q: seq<byte>)
    ensures Frames(Parse(q).msgs) + Parse(q).rest == q
    ensures !Complete(Parse(q).rest)
    decreases |q|
  {
    hide Complete, First, Behind, Frame, Parse;
    if Complete(q) {
      ParseFrames(Behind(q));
      ParseStep(q);
      FirstFrame(q);
      var r := Parse(Behind(q));
      assert ([First(q)] + r.msgs)[1..] == r.msgs;
      assert Frame(First(q)) + (Frames(r.msgs) + r.rest) == Frame(First(q)) + Frames(r.msgs) + r.rest;
    } else {
      ParseNone(q);
    }
  }

  /** Framed messages are parsed back as they were, whatever incomplete piece follows. */
  lemma {:induction false} FramesParse(ms: seq<Msg>, rest: seq<byte>)
    requires !Complete(rest)
    ensures Parse(Frames(ms) + rest) == Parsed(ms, rest)
  {
    hide Complete, First, Behind, Frame, Parse;
    if ms == [] {
      ParseNone(rest);
      assert Frames(ms) + rest == rest;
    } else {
      var more := Frames(ms[1..]) + rest;
      FramesParse(ms[1..], rest);
      FrameFirst(ms[0], more);
      assert Frames(ms) + rest == Frame(ms[0]) + more;
      ParseStep(Frame(ms[0]) + more);
      assert [ms[0]] + ms[1..] == ms;
    }
  }

  /** What comes first out of a stream: as many bytes behind the first four as these say, the first weighing most,
      once that many have arrived. Otherwise nothing is taken out. */
  ghost predicate FrontTaken(q: seq<byte>, p: Parsed) {
    if |q| >= 4
       && q[0] as int * 16777216 + q[1] as int * 65536 + q[2] as int * 256 + q[3] as int <= 2147483643
       && q[0] as int * 16777216 + q[1] as int * 65536 + q[2] as int * 256 + q[3] as int <= |q| - 4
    then
      p.msgs != [] && p.msgs[0] == q[4..4 + q[0] as int * 16777216 + q[1] as int * 65536 + q[2] as int * 256 + q[3] as int]
    else p == Parsed([], q)
  }

  lemma ParseFront(q: seq<byte>)
    ensures FrontTaken(q, Parse(q))
  {
    if |q| >= 4 { BigEndian(q); }
  }

  lemma ParseStep(q: seq<byte>)
    requires Complete(q)
    ensures Parse(q) == Parsed([First(q)] + Parse(Behind(q)).msgs, Parse(Behind(q)).rest)
  {
  }

  /** A message behind a header of its length is delivered first, and parsing goes on behind it. */
  lemma ParseMessage(h: byte, l: byte, m: seq<byte>, rest: seq<byte>)
    requires |m| == 256 * h as int + l as int
    ensures Parse([0, 0, h, l] + m + rest) == Parsed([m] + Parse(rest).msgs, Parse(rest).rest)
  {
    hide Complete, First, Behind, Frame, Parse;
    FrameBytes(m);
    assert |m| / 256 == h && |m| % 256 == l;
    FrameFirst(m, rest);
    ParseStep(Frame(m) + rest);
  }

  lemma CompleteAppend(a: seq<byte>, b: seq<byte>)
    requires Complete(a)
    ensures Complete(a + b) && First(a + b) == First(a) && Behind(a + b) == Behind(a) + b
  {
    assert Length(a + b) == Length(a);
  }

  /** More bytes only complete what was left over. */
  lemma {:induction false} ParseAppend(a: seq<byte>, b: seq<byte>)
    ensures Parse(a + b) == Parsed(Parse(a).msgs + Parse(Parse(a).rest + b).msgs, Parse(Parse(a).rest + b).rest)
    decreases |a|
  {
    hide Complete, First, Behind, Parse;
    if Complete(a) {
      ParseAppend(Behind(a), b);
      CompleteAppend(a, b);
      ParseStep(a);
      ParseStep(a + b);
      var r, s := Parse(Behind(a)), Parse(Parse(a).rest + b);
      assert [First(a)] + (r.msgs + s.msgs) == [First(a)] + r.msgs + s.msgs;
    } else {
      ParseNone(a);
      assert [] + Parse(a + b).msgs == Parse(a + b).msgs;
    }
  }

  lemma ParseNone(q: seq<byte>)
    requires !Complete(q)
    ensures Parse(q) == Parsed([], q)
  {
  }

  lemma {:induction false} RegularAppend(a: seq<byte>, b: seq<byte>)
    requires Regular(a + b)
    ensures Regular(a) && Regular(Parse(a).rest + b)
    decreases |a|
  {
    if |a| >= 4 {
      assert Length(a + b) == Length(a);
      if Complete(a) {
        CompleteAppend(a, b);
        RegularAppend(Behind(a), b);
      }
    }
  }

  /** The header at the front is one that no signed `len + 4` can express. */
  predicate Odd(q: seq<byte>) {
    |q| >= 4 && Length(q) > MAXLEN
  }

  /** How far the message loop moves on past the front message: `len + 4` in signed 32 bits. */
  function Advance(q: seq<byte>): (n: int)
    requires |q| >= 4
    ensures !Odd(q) ==> n == Length(q) + 4
    ensures Odd(q) ==> -0x8000_0000 <= n < 4 && n == Length(q) + 4 - 0x1_0000_0000
    ensures Odd(q) ==> (n == 0 <==> Length(q) == 0xFFFF_FFFC) && (n > 0 <==> Length(q) > 0xFFFF_FFFC)
  {
    var n := (Length(q) + 4) % 0x1_0000_0000;
    if n >= 0x8000_0000 then n - 0x1_0000_0000 else n
  }

  /** A stream is regular exactly if parsing does not stop at such a header. */
  lemma {:induction false} RegularParse(q: seq<byte>)
    ensures Regular(q) <==> !Odd(Parse(q).rest)
    decreases |q|
  {
    if Complete(q) { RegularParse(Behind(q)); }
  }

  function Flatten(chunks: seq<seq<byte>>): seq<byte> {
    if chunks == [] then [] else Flatten(chunks[..|chunks| - 1]) + chunks[|chunks| - 1]
  }

  /** What a receiver that parses after every chunk has delivered, and what it holds. */
  function Feed(chunks: seq<seq<byte>>): Parsed {
    if chunks == [] then Parsed([], [])
    else
      var r := Feed(chunks[..|chunks| - 1]);
      var s := Parse(r.rest + chunks[|chunks| - 1]);
      Parsed(r.msgs + s.msgs, s.rest)
  }

  /** How the stream is cut into chunks makes no difference. */
  lemma {:induction false} Segmentation(chunks: seq<seq<byte>>)
    ensures Feed(chunks) == Parse(Flatten(chunks))
  {
    if chunks != [] {
      Segmentation(chunks[..|chunks| - 1]);
      ParseAppend(Flatten(chunks[..|chunks| - 1]), chunks[|chunks| - 1]);
    }
  }

  /** However much of a sender's stream has arrived, in whatever chunks, the messages
      delivered are the first of those sent, in order; all of them once all has arrived. */
  lemma DeliveredPrefix(sent: seq<Msg>, chunks: seq<seq<byte>>)
    requires Flatten(chunks) <= Frames(sent)
    ensures Feed(chunks).msgs <= sent
    ensures Flatten(chunks) == Frames(sent) ==> Feed(chunks) == Parsed(sent, [])
    ensures Regular(Flatten(chunks))
  {
    var a := Flatten(chunks);
    var b := Frames(sent)[|a|..];
    assert Frames(sent) == a + b;
    Segmentation(chunks);
    FramesParse(sent, []);
    assert Frames(sent) + [] == Frames(sent);
    ParseAppend(a, b);
    FramesRegular(sent);
    RegularAppend(a, b);
  }

  lemma {:induction false} FramesRegular(ms: seq<Msg>)
    ensures Regular(Frames(ms))
  {
    if ms != [] {
      assert Frames(ms) == Frame(ms[0]) + Frames(ms[1..]);
      FrameFirst(ms[0], Frames(ms[1..]));
      FramesRegular(ms[1..]);
    }
  }
}
