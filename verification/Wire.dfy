/** The text in which the block cache asks the disk server for sectors, and the server's parser. */
module Wire {
  import opened Bytes
  import opened Results
  import opened Disk
  import opened Inodes
  import opened TcpBuffer

  const SPACE: byte := 32
  const NEWLINE: byte := 10
  const PLUS: byte := 43
  const MINUS: byte := 45
  const ZERO: byte := 48

  /** `%u`. */
  function Decimal(n: nat): (d: seq<byte>)
    ensures d != []
  {
    if n < 10 then [ZERO + n] else Decimal(n / 10) + [ZERO + n % 10]
  }

  predicate IsSpace(b: byte) {
    9 <= b <= 13 || b == SPACE
  }

  predicate IsDigit(b: byte) {
    ZERO <= b <= ZERO + 9
  }

  /** `while (isspace(*p)) p++`. */
  function SkipSpace(q: seq<byte>): (r: seq<byte>)
    ensures r != [] ==> !IsSpace(r[0])
  {
    if q != [] && IsSpace(q[0]) then SkipSpace(q[1..]) else q
  }

  /** `while (*p && !isspace(*p)) p++`. */
  function SkipWord(q: seq<byte>): seq<byte> {
    if q != [] && q[0] != 0 && !IsSpace(q[0]) then SkipWord(q[1..]) else q
  }

  function Value(q: seq<byte>, n: int): int {
    if q != [] && IsDigit(q[0]) then Value(q[1..], 10 * n + (q[0] - ZERO)) else n
  }

  /** `atoi`, for numbers that fit. */
  function Atoi(q: seq<byte>): int {
    var p := SkipSpace(q);
    if p != [] && p[0] == MINUS then -Value(p[1..], 0)
    else if p != [] && p[0] == PLUS then Value(p[1..], 0)
    else Value(p, 0)
  }

  datatype ReadArgs = ReadArgs(cyl: int, sec: int)

  datatype WriteArgs = WriteArgs(cyl: int, sec: int, len: int, data: seq<byte>)

  function ArgsR(args: seq<byte>): ReadArgs {
    var p := SkipSpace(args);
    ReadArgs(Atoi(p), Atoi(SkipSpace(SkipWord(p))))
  }

  function ArgsW(args: seq<byte>): WriteArgs {
    var p := SkipSpace(args);
    var p1 := SkipSpace(SkipWord(p));
    var p2 := SkipSpace(SkipWord(p1));
    WriteArgs(Atoi(p), Atoi(p1), Atoi(p2), SkipSpace(SkipWord(p2)))
  }

  method PassSpace(q: seq<byte>, from: nat) returns (p: nat)
    requires from <= |q|
    ensures from <= p <= |q| && q[p..] == SkipSpace(q[from..])
  {
    p := from;
    while p < |q| && IsSpace(q[p])
      invariant from <= p <= |q| && SkipSpace(q[p..]) == SkipSpace(q[from..])
    {
      p := p + 1;
    }
  }

  method PassWord(q: seq<byte>, from: nat) returns (p: nat)
    requires from <= |q|
    ensures from <= p <= |q| && q[p..] == SkipWord(q[from..])
  {
    p := from;
    while p < |q| && q[p] != 0 && !IsSpace(q[p])
      invariant from <= p <= |q| && SkipWord(q[p..]) == SkipWord(q[from..])
    {
      p := p + 1;
    }
  }

  method ParseArgsR(args: seq<byte>) returns (r: ReadArgs)
    ensures r == ArgsR(args)
  {
    assert args[0..] == args;
    var p := PassSpace(args, 0);
    var cyl := Atoi(args[p..]);
    p := PassWord(args, p);
    p := PassSpace(args, p);
    var sec := Atoi(args[p..]);
    r := ReadArgs(cyl, sec);
  }

  method ParseArgsW(args: seq<byte>) returns (r: WriteArgs)
    ensures r == ArgsW(args)
  {
    assert args[0..] == args;
    var p := PassSpace(args, 0);
    var cyl := Atoi(args[p..]);
    p := PassWord(args, p);
    p := PassSpace(args, p);
    var sec := Atoi(args[p..]);
    p := PassWord(args, p);
    p := PassSpace(args, p);
    var len := Atoi(args[p..]);
    p := PassWord(args, p);
    p := PassSpace(args, p);
    r := WriteArgs(cyl, sec, len, args[p..]);
  }

  // ---------------------------------------------------------------- printing and parsing

  /** The arguments of `R c s` and `W c s 512 data`, as printed. */
  function TextR(c: nat, s: nat): seq<byte> {
    Decimal(c) + [SPACE] + Decimal(s) + [NEWLINE]
  }

  function TextW(c: nat, s: nat, data: Block): seq<byte> {
    Decimal(c) + [SPACE] + Decimal(s) + [SPACE] + Decimal(BSIZE) + [SPACE] + data + [NEWLINE]
  }

  lemma {:induction false} ValueOfDecimal(n: nat, rest: seq<byte>)
    ensures Value(Decimal(n) + rest, 0) == Value(rest, n)
  {
    if n >= 10 {
      var d: byte := ZERO + n % 10;
      ValueOfDecimal(n / 10, [d] + rest);
      assert Decimal(n) + rest == Decimal(n / 10) + ([d] + rest);
      assert ([d] + rest)[1..] == rest;
    } else {
      assert (Decimal(n) + rest)[1..] == rest;
    }
  }

  lemma {:induction false} WordOfDecimal(n: nat, rest: seq<byte>)
    ensures SkipWord(Decimal(n) + rest) == SkipWord(rest)
    ensures IsDigit(Decimal(n)[0])
  {
    if n >= 10 {
      var d: byte := ZERO + n % 10;
      WordOfDecimal(n / 10, [d] + rest);
      assert Decimal(n) + rest == Decimal(n / 10) + ([d] + rest);
      assert ([d] + rest)[1..] == rest;
    } else {
      assert (Decimal(n) + rest)[1..] == rest;
    }
  }

  /** A printed number, followed by white space, is read back and passed over. */
  lemma NumberRead(n: nat, sp: byte, rest: seq<byte>)
    requires IsSpace(sp)
    ensures var q := Decimal(n) + [sp] + rest;
      SkipSpace(q) == q && Atoi(q) == n && SkipSpace(SkipWord(q)) == SkipSpace(rest)
  {
    var q := Decimal(n) + [sp] + rest;
    assert q == Decimal(n) + ([sp] + rest);
    ValueOfDecimal(n, [sp] + rest);
    WordOfDecimal(n, [sp] + rest);
    assert ([sp] + rest)[1..] == rest;
  }

  /** Read requests are parsed back as printed, whatever follows them in memory. */
  lemma ReadRoundTrip(c: nat, s: nat, junk: seq<byte>)
    ensures ArgsR(TextR(c, s) + junk) == ReadArgs(c, s)
  {
    var q1 := Decimal(s) + [NEWLINE] + junk;
    assert TextR(c, s) + junk == Decimal(c) + [SPACE] + q1;
    NumberRead(c, SPACE, q1);
    NumberRead(s, NEWLINE, junk);
  }

  /** Write requests are parsed back as printed, except that white space at the start of the
      data is skipped with the separator. */
  lemma WriteParsed(c: nat, s: nat, data: Block, junk: seq<byte>)
    ensures ArgsW(TextW(c, s, data) + junk) == WriteArgs(c, s, BSIZE, SkipSpace(data + [NEWLINE] + junk))
  {
    var q3 := data + [NEWLINE] + junk;
    var q2 := Decimal(BSIZE) + [SPACE] + q3;
    var q1 := Decimal(s) + [SPACE] + q2;
    assert TextW(c, s, data) + junk == Decimal(c) + [SPACE] + q1;
    NumberRead(c, SPACE, q1);
    NumberRead(s, SPACE, q2);
    NumberRead(BSIZE, SPACE, q3);
  }

  /** The data arrives exactly when its first byte is not white space. */
  lemma WriteRoundTrip(c: nat, s: nat, data: Block, junk: seq<byte>)
    ensures BSIZE <= |ArgsW(TextW(c, s, data) + junk).data| && ArgsW(TextW(c, s, data) + junk).data[..BSIZE] == data
            <==> !(9 <= data[0] <= 13 || data[0] == 32)
    ensures ArgsW(TextW(c, s, data) + junk).(data := []) == WriteArgs(c, s, BSIZE, [])
  {
    WriteParsed(c, s, data, junk);
    var q := data + [NEWLINE] + junk;
    assert q[0] == data[0] && q[..BSIZE] == data;
    var r := SkipSpace(q);
    if BSIZE <= |r| && r[..BSIZE] == data {
      assert data[0] == r[0];
    }
  }

  // ---------------------------------------------------------------- requests by their bytes

  ghost predicate Digits(x: seq<byte>) {
    x != [] && forall i :: 0 <= i < |x| ==> 48 <= x[i] <= 57
  }

  /** The number that decimal digits stand for. */
  ghost function Number(x: seq<byte>): int {
    if x == [] then 0 else 10 * Number(x[..|x| - 1]) + (x[|x| - 1] as int - 48)
  }

  lemma {:induction false} ValueOfDigits(x: seq<byte>, rest: seq<byte>, n: int)
    requires forall i :: 0 <= i < |x| ==> 48 <= x[i] <= 57
    requires rest != [] ==> !(48 <= rest[0] <= 57)
    ensures Value(x + rest, n) == Value(x, n) && SkipWord(x + rest) == SkipWord(rest)
  {
    if x == [] {
      assert x + rest == rest;
    } else {
      assert (x + rest)[1..] == x[1..] + rest;
      ValueOfDigits(x[1..], rest, 10 * n + (x[0] as int - 48));
    }
  }

  lemma {:induction false} ValueSnoc(x: seq<byte>, n: int)
    requires Digits(x)
    ensures Value(x, n) == 10 * Value(x[..|x| - 1], n) + (x[|x| - 1] as int - 48)
  {
    if |x| > 1 {
      ValueSnoc(x[1..], 10 * n + (x[0] as int - 48));
      assert x[1..][..|x| - 2] == x[..|x| - 1][1..];
    }
  }

  lemma {:induction false} ValueIsNumber(x: seq<byte>)
    requires forall i :: 0 <= i < |x| ==> 48 <= x[i] <= 57
    ensures Value(x, 0) == Number(x)
    decreases |x|
  {
    if x != [] {
      ValueSnoc(x, 0);
      ValueIsNumber(x[..|x| - 1]);
    }
  }

  /** The printed form of a number: digits that stand for it, without a leading zero. */
  lemma {:induction false} DecimalNumber(n: nat)
    ensures Digits(Decimal(n)) && Number(Decimal(n)) == n
    ensures Decimal(n)[0] == 48 <==> n == 0
    decreases n
  {
    var d := Decimal(n);
    if n >= 10 {
      DecimalNumber(n / 10);
      assert d[..|d| - 1] == Decimal(n / 10);
    } else {
      assert d[..|d| - 1] == [];
    }
  }

  /** A number in digits, ended by white space, is read as what its digits stand for. */
  lemma DigitsRead(x: seq<byte>, sp: byte, rest: seq<byte>)
    requires Digits(x) && (sp == 32 || sp == 10)
    ensures var q := x + [sp] + rest;
      SkipSpace(q) == q && Atoi(q) == Number(x) && SkipSpace(SkipWord(q)) == SkipSpace(rest)
  {
    var q := x + [sp] + rest;
    assert q == x + ([sp] + rest) && q[0] == x[0];
    ValueOfDigits(x, [sp] + rest, 0);
    ValueIsNumber(x);
    assert ([sp] + rest)[1..] == rest;
  }

  /** A sign is read. */
  lemma SignRead(x: seq<byte>)
    requires Digits(x)
    ensures Atoi([0x2D] + x) == -Number(x) && Atoi([0x2B] + x) == Number(x)
  {
    assert ([0x2D] + x)[1..] == x && ([0x2B] + x)[1..] == x;
    ValueIsNumber(x);
  }

  /** The first token is what stands before a blank, an end of line or a NUL, without those in front of it. */
  lemma {:induction false} TokenBytes(b: byte, name: seq<byte>, d: byte, args: seq<byte>)
    requires (b == 32 || b == 13 || b == 10) && (d == 0 || d == 32 || d == 13 || d == 10)
    requires name != [] && forall i :: 0 <= i < |name| ==> name[i] != 0 && name[i] != 32 && name[i] != 13 && name[i] != 10
    ensures Tokenize(SkipDelimiters([b] + name + [d] + args)) == Request(name, args)
    ensures SkipDelimiters(name + [d] + args) == name + [d] + args
  {
    assert ([b] + name + [d] + args)[1..] == name + [d] + args && (name + [d] + args)[0] == name[0];
    TokenIs(name, d, args);
  }

  lemma {:induction false} TokenIs(name: seq<byte>, d: byte, args: seq<byte>)
    requires d == 0 || IsDelimiter(d)
    requires forall i :: 0 <= i < |name| ==> name[i] != 0 && !IsDelimiter(name[i])
    ensures Tokenize(name + [d] + args) == Request(name, args)
  {
    if name == [] {
      assert (name + [d] + args)[1..] == args;
    } else {
      assert (name + [d] + args)[1..] == name[1..] + [d] + args;
      TokenIs(name[1..], d, args);
      assert [name[0]] + name[1..] == name;
    }
  }

  /** `R x y` and a newline, in bytes: a read of sector `y` of cylinder `x`. */
  lemma ReadBytes(x: seq<byte>, y: seq<byte>, junk: seq<byte>)
    requires Digits(x) && Digits(y)
    ensures var r := Tokenize(SkipDelimiters([0x52, 0x20] + (x + [0x20] + y + [0x0A] + junk)));
      r.name == [0x52] && ArgsR(r.args) == ReadArgs(Number(x), Number(y))
  {
    var args := x + [0x20] + y + [0x0A] + junk;
    OneLetter(0x52, args);
    var q1 := y + [0x0A] + junk;
    assert args == x + [0x20] + q1;
    DigitsRead(x, 0x20, q1);
    DigitsRead(y, 0x0A, junk);
  }

  /** `W x y n` and the data: a write of `n` bytes, which start at the first that is not white space. */
  lemma WriteBytes(x: seq<byte>, y: seq<byte>, n: seq<byte>, data: seq<byte>, sp: byte)
    requires Digits(x) && Digits(y) && Digits(n)
    ensures var r := Tokenize(SkipDelimiters([0x57, 0x20] + (x + [0x20] + y + [0x20] + n + [0x20] + data)));
      r.name == [0x57] && ArgsW(r.args) == WriteArgs(Number(x), Number(y), Number(n), SkipSpace(data))
    ensures data != [] && !(9 <= data[0] <= 13 || data[0] == 32) ==> SkipSpace(data) == data
    ensures 9 <= sp <= 13 || sp == 32 ==> SkipSpace([sp] + data) == SkipSpace(data)
  {
    var args := x + [0x20] + y + [0x20] + n + [0x20] + data;
    OneLetter(0x57, args);
    var q2 := n + [0x20] + data;
    var q1 := y + [0x20] + q2;
    assert args == x + [0x20] + q1;
    DigitsRead(x, 0x20, q1);
    DigitsRead(y, 0x20, q2);
    DigitsRead(n, 0x20, data);
    assert ([sp] + data)[1..] == data;
  }

  /** What is printed is of that form. */
  lemma TextBytes(c: nat, s: nat, data: Block)
    ensures Digits(Decimal(c)) && Number(Decimal(c)) == c
    ensures TextR(c, s) == Decimal(c) + [0x20] + Decimal(s) + [0x0A]
    ensures TextW(c, s, data) == Decimal(c) + [0x20] + Decimal(s) + [0x20, 0x35, 0x31, 0x32, 0x20] + data + [0x0A]
  {
    DecimalNumber(c);
    assert Decimal(512) == [0x35, 0x31, 0x32] by {
      assert Decimal(5) == [0x35];
      assert Decimal(51) == [0x35, 0x31];
    }
  }

  // ---------------------------------------------------------------- one request and its reply

  const LETTER_R: byte := 0x52
  const LETTER_W: byte := 0x57

  datatype Request = Request(name: seq<byte>, args: seq<byte>)

  predicate IsDelimiter(b: byte) {
    b == SPACE || b == 13 || b == NEWLINE
  }

  function SkipDelimiters(q: seq<byte>): seq<byte> {
    if q != [] && IsDelimiter(q[0]) then SkipDelimiters(q[1..]) else q
  }

  /** The first token and everything behind the delimiter or NUL that ends it. */
  function Tokenize(q: seq<byte>): Request {
    if q == [] || q[0] == 0 || IsDelimiter(q[0]) then Request([], if q == [] then [] else q[1..])
    else
      var r := Tokenize(q[1..]);
      Request([q[0]] + r.name, r.args)
  }

  lemma OneLetter(c: byte, args: seq<byte>)
    requires c != 0 && !IsDelimiter(c)
    ensures Tokenize(SkipDelimiters([c, SPACE] + args)) == Request([c], args)
  {
    var q := [c, SPACE] + args;
    assert q[1..] == [SPACE] + args;
    assert ([SPACE] + args)[1..] == args;
  }

  /** What the server asks `memcpy` for is there: a write that is not refused has no negative length, and as
      many bytes behind it. */
  predicate Copyable(ncyl: nat, nsec: nat, msg: seq<byte>) {
    var r := Tokenize(SkipDelimiters(msg));
    r.name == [LETTER_W] ==>
      var a := ArgsW(r.args);
      0 <= a.cyl < ncyl && 0 <= a.sec < nsec && a.len <= BSIZE ==> 0 <= a.len <= |a.data|
  }

  /** The server's handling of `R` and `W`: what it answers, `None` for no such command. `msg`
      is the message and the memory behind it. */
  method OnRecv(disk: Disk, msg: seq<byte>) returns (reply: Option<seq<byte>>)
    requires disk.Valid() && Copyable(disk.ncyl, disk.nsec, msg)
    modifies disk.data
    ensures Answered(disk.ncyl, disk.nsec, old(disk.Blocks()), msg, disk.Blocks(), reply)
  {
    hide ArgsR, ArgsW, Sectors, Tokenize, SkipDelimiters;
    reply := None;
    var req := Tokenize(SkipDelimiters(msg));
    if req.name == [LETTER_R] {
      var a := ParseArgsR(req.args);
      var r := disk.CmdR(a.cyl, a.sec);
      reply := Some(if r.Some? then YES + r.value else NO);
    } else if req.name == [LETTER_W] {
      var a := ParseArgsW(req.args);
      var ok := disk.CmdW(a.cyl, a.sec, a.len, a.data);
      reply := Some(if ok then YES else NO);
    }
  }

  ghost predicate Answered(ncyl: nat, nsec: nat, d: seq<Block>, msg: seq<byte>, d': seq<Block>, reply: Option<seq<byte>>)
    requires |d| == ncyl * nsec
  {
    var r := Tokenize(SkipDelimiters(msg));
    if r.name == [0x52] then
      var a := ArgsR(r.args);
      && d' == d
      && (if 0 <= a.cyl < ncyl && 0 <= a.sec < nsec then
            0 <= a.cyl * nsec + a.sec < |d| && reply == Some([0x59, 0x65, 0x73, 0x20] + d[a.cyl * nsec + a.sec])
          else reply == Some([0x4E, 0x6F, 0x20]))
    else if r.name == [0x57] then
      var a := ArgsW(r.args);
      if 0 <= a.cyl < ncyl && 0 <= a.sec < nsec && 0 <= a.len <= BSIZE && a.len <= |a.data| then
        && 0 <= a.cyl * nsec + a.sec < |d|
        && d' == d[a.cyl * nsec + a.sec := a.data[..a.len] + Zero()[a.len..]] && reply == Some([0x59, 0x65, 0x73, 0x20])
      else d' == d && reply == Some([0x4E, 0x6F, 0x20])
    else d' == d && reply == None
  }

  /** The three bytes that the sender of a write looks at tell whether it has been done. */
  lemma Acknowledged(ncyl: nat, nsec: nat, d: seq<Block>, msg: seq<byte>, d': seq<Block>, reply: Option<seq<byte>>)
    requires |d| == ncyl * nsec && Answered(ncyl, nsec, d, msg, d', reply) && reply.Some?
    ensures var r := Tokenize(SkipDelimiters(msg));
      |reply.value| >= 3 &&
      (reply.value[..3] == [0x59, 0x65, 0x73] <==>
         if r.name == [0x52] then 0 <= ArgsR(r.args).cyl < ncyl && 0 <= ArgsR(r.args).sec < nsec
         else
           var a := ArgsW(r.args);
           0 <= a.cyl < ncyl && 0 <= a.sec < nsec && 0 <= a.len <= BSIZE && a.len <= |a.data|)
  {
    hide ArgsR, ArgsW, Tokenize, SkipDelimiters;
    assert [0x4E, 0x6F, 0x20][..3][0] == 0x4E;
  }

  /** `fetch_block_from_server`: the block asked for is the block received. */
  method Fetch(disk: Disk, b: nat, junk: seq<byte>) returns (r: Option<Block>)
    requires disk.Valid() && b < disk.ncyl * disk.nsec
    modifies disk.data
    ensures disk.Blocks() == old(disk.Blocks())
    ensures r == Some(disk.Blocks()[b])
  {
    hide ArgsR, ArgsW, Sectors, Tokenize, SkipDelimiters, TextR;
    var c, s := b / disk.nsec, b % disk.nsec;
    AddressBijection(disk.ncyl, disk.nsec, b, 0, 0);
    OneLetter(LETTER_R, TextR(c, s) + junk);
    ReadRoundTrip(c, s, junk);
    var payload := OnRecv(disk, [LETTER_R, SPACE] + (TextR(c, s) + junk));
    ghost var sent: Block := disk.Blocks()[b];
    assert payload == Some(YES + sent) && (YES + sent)[..4] == YES && (YES + sent)[4..4 + BSIZE] == sent;
    if payload.None? || |payload.value| < 4 + BSIZE || payload.value[..4] != YES {
      return None;
    }
    r := Some(payload.value[4..4 + BSIZE]);
  }

  /** `push_block_to_server`: the request is always acknowledged, and the block stored is the
      block sent exactly when its first byte is not white space. */
  method Push(disk: Disk, b: nat, data: Block, junk: seq<byte>) returns (acked: bool)
    requires disk.Valid() && b < disk.ncyl * disk.nsec
    requires BSIZE <= |SkipSpace(data + [NEWLINE] + junk)|
    modifies disk.data
    ensures acked
    ensures forall i :: 0 <= i < disk.ncyl * disk.nsec && i != b ==> disk.Blocks()[i] == old(disk.Blocks())[i]
    ensures disk.Blocks()[b] == data <==> !(9 <= data[0] <= 13 || data[0] == 32)
  {
    hide ArgsR, ArgsW, Sectors, Tokenize, SkipDelimiters, TextW, IsSpace, SkipSpace;
    var c, s := b / disk.nsec, b % disk.nsec;
    AddressBijection(disk.ncyl, disk.nsec, b, 0, 0);
    OneLetter(LETTER_W, TextW(c, s, data) + junk);
    WriteParsed(c, s, data, junk);
    WriteRoundTrip(c, s, data, junk);
    var payload := OnRecv(disk, [LETTER_W, SPACE] + (TextW(c, s, data) + junk));
    acked := payload.Some? && |payload.value| >= 3 && payload.value[..3] == YES[..3];
    ghost var got := ArgsW(TextW(c, s, data) + junk).data;
    assert got[..BSIZE] + Zero()[BSIZE..] == got[..BSIZE];
  }

  /** Two blocks of the inode area do not survive the link once their first record is in
      use: the record starts with its inode number, 12 or 32, and those bytes are white space. */
  lemma InodeBlocksAtRisk(v: seq<Block>, n: nat, ino: Inode, refs: uint32)
    requires n < NINODES && n % INODES_PER_BLOCK == 0 && INODE_START + INODE_BLOCKS <= |v| && ino.inum == n
    ensures IsSpace(Stored(v, n, ino, refs)[InodeBlock(n)][0]) <==> n == 12 || n == 32
  {
    assert Encode(ino, refs)[..4] == WordBytes(n);
    assert Encode(ino, refs)[0] == Encode(ino, refs)[..4][0];
  }
}
