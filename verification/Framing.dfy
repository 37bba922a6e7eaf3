/** The package format of Communication/core/comm_protocol.{h,cpp} and the reassembly of
    packages from a byte stream in _read_content_process (Communication/core/comm_core.cpp).

    The packed header is stored as a little-endian host lays it out: version (1 byte), magic (4),
    task id (8), type (1), length (4), followed by `length` bytes of data. */
module Framing {
  import opened Common

  type Bytes = seq<Byte>

  const HEADER: nat := 18
  const VERSION: Byte := 1
  const MAGIC: nat := 0x12345678
  const PKG_TYPE_ALIVE: Byte := 0
  const PKG_TYPE_COMMON: Byte := 1
  const PKG_TYPE_PUSH: Byte := 2
  const ERR_COMM_PROTO_VERSION: int := 7
  const ERR_BAD_COMM_PACKAGE: int := 8

  /** The largest data length for which `length + sizeof(comm_pkg_t)` fits the `int` that holds it. */
  const MAX_DATA: nat := 0x7FFF_FFFF - 18

  /** The value an unsigned sum has once it is stored in a 32-bit `int`. */
  function ToInt(v: nat): int {
    var w := v % 0x1_0000_0000;
    if w < 0x8000_0000 then w else w - 0x1_0000_0000
  }

  /** proto_parse_package computes the package size correctly for exactly these lengths. */
  lemma RequireLenExact(length: nat)
    requires length < 0x1_0000_0000
    ensures ToInt(length + HEADER) == length + HEADER <==> length <= MAX_DATA
  {
  }

  datatype Package = Package(version: Byte, magic: nat, taskId: nat, kind: Byte, data: Bytes)

  // ----- little-endian integers

  function Little(v: nat, n: nat): (r: Bytes)
    ensures |r| == n
  {
    if n == 0 then [] else [v % 256] + Little(v / 256, n - 1)
  }

  function Number(s: Bytes): (v: nat) {
    if s == [] then 0 else s[0] + 256 * Number(s[1..])
  }

  function Power256(n: nat): nat { if n == 0 then 1 else 256 * Power256(n - 1) }

  lemma {:induction false} NumberOfLittle(v: nat, n: nat)
    requires v < Power256(n)
    ensures Number(Little(v, n)) == v
  {
    if n > 0 {
      assert Little(v, n)[1..] == Little(v / 256, n - 1);
      NumberOfLittle(v / 256, n - 1);
    }
  }

  // ----- one package

  function Header(version: Byte, magic: nat, taskId: nat, kind: Byte, length: nat): (r: Bytes)
    ensures |r| == HEADER
  {
    [version] + Little(magic, 4) + Little(taskId, 8) + [kind] + Little(length, 4)
  }

  /** proto_build_package */
  function Build(data: Bytes, kind: Byte, taskId: nat): Bytes {
    Header(VERSION, MAGIC, taskId, kind, |data|) + data
  }

  function LengthField(s: Bytes): nat
    requires |s| >= HEADER
  {
    Number(s[14..18])
  }

  function Unpack(s: Bytes, length: nat): Package
    requires |s| >= HEADER + length
  {
    Package(s[0], Number(s[1..5]), Number(s[5..13]), s[13], s[18..18 + length])
  }

  /** proto_check_pkg */
  function Check(p: Package): int {
    if p.magic != MAGIC then ERR_BAD_COMM_PACKAGE
    else if p.version != VERSION then ERR_COMM_PROTO_VERSION
    else 0
  }

  /** Packages of a stream that pass the check, and the bytes that do not yet form a package.
      `Overrun` stands for a header whose length does not fit the `int` arithmetic of
      proto_parse_package, after the packages before it. */
  datatype Parsed = Parsed(pkgs: seq<Package>, rest: Bytes) | Overrun(pkgs: seq<Package>)

  function Prepend(pkgs: seq<Package>, r: Parsed): Parsed {
    match r
    case Parsed(q, rest) => Parsed(pkgs + q, rest)
    case Overrun(q) => Overrun(pkgs + q)
  }

  function Good(p: Package): seq<Package> { if Check(p) == 0 then [p] else [] }

  /** What repeated proto_parse_package and proto_check_pkg make of a stream. */
  function Parse(s: Bytes): Parsed
    decreases |s|
  {
    if |s| < HEADER then Parsed([], s)
    else
      var length := LengthField(s);
      if length > MAX_DATA then Overrun([])
      else if HEADER + length > |s| then Parsed([], s)
      else Prepend(Good(Unpack(s, length)), Parse(s[HEADER + length..]))
  }

  // ----- chunking independence

  lemma UnpackExtends(a: Bytes, b: Bytes)
    requires |a| >= HEADER
    ensures LengthField(a + b) == LengthField(a)
    ensures HEADER + LengthField(a) <= |a| ==>
      && Unpack(a + b, LengthField(a)) == Unpack(a, LengthField(a))
      && (a + b)[HEADER + LengthField(a)..] == a[HEADER + LengthField(a)..] + b
  {
    var s := a + b;
    assert s[14..18] == a[14..18];
    var n := HEADER + LengthField(a);
    if n <= |a| {
      assert s[1..5] == a[1..5];
      assert s[5..13] == a[5..13];
      assert s[18..n] == a[18..n];
    }
  }

  /** One step of the parse loop. */
  lemma ParseStep(s: Bytes)
    requires |s| >= HEADER && LengthField(s) <= MAX_DATA && HEADER + LengthField(s) <= |s|
    ensures Parse(s) == Prepend(Good(Unpack(s, LengthField(s))), Parse(s[HEADER + LengthField(s)..]))
  {
  }

  lemma PrependTwice(p: seq<Package>, q: seq<Package>, r: Parsed)
    ensures Prepend(p, Prepend(q, r)) == Prepend(p + q, r)
  {
  }

  /** More bytes only continue a parse: nothing already decided changes. */
  lemma {:induction false} ParseExtends(a: Bytes, b: Bytes)
    ensures Parse(a + b) ==
      match Parse(a)
      case Parsed(pkgs, rest) => Prepend(pkgs, Parse(rest + b))
      case Overrun(pkgs) => Overrun(pkgs)
    decreases |a|
  {
    if |a| < HEADER {
      PrependNothing(Parse(a + b));
    } else {
      UnpackExtends(a, b);
      var length := LengthField(a);
      if length <= MAX_DATA {
        if HEADER + length > |a| {
          PrependNothing(Parse(a + b));
        } else {
          var p, t := Good(Unpack(a, length)), a[HEADER + length..];
          ParseStep(a + b);
          ParseStep(a);
          ParseExtends(t, b);
          if Parse(t).Parsed? { PrependTwice(p, Parse(t).pkgs, Parse(Parse(t).rest + b)); }
        }
      }
    }
  }

  lemma PrependNothing(r: Parsed)
    ensures Prepend([], r) == r
  {
    assert [] + r.pkgs == r.pkgs;
  }

  function Concat(chunks: seq<Bytes>): Bytes {
    if chunks == [] then [] else chunks[0] + Concat(chunks[1..])
  }

  /** The connection's cache after a series of reads, and all packages dispatched. */
  function Reads(cache: Bytes, chunks: seq<Bytes>): Parsed
    decreases |chunks|
  {
    if chunks == [] then Parsed([], cache)
    else
      match Parse(cache + chunks[0])
      case Overrun(pkgs) => Overrun(pkgs)
      case Parsed(pkgs, rest) => Prepend(pkgs, Reads(rest, chunks[1..]))
  }

  ghost predicate Settled(cache: Bytes) { Parse(cache) == Parsed([], cache) }

  lemma {:induction false} RestSettled(s: Bytes)
    ensures Parse(s).Parsed? ==> Settled(Parse(s).rest)
    decreases |s|
  {
    if |s| >= HEADER && LengthField(s) <= MAX_DATA && HEADER + LengthField(s) <= |s| {
      RestSettled(s[HEADER + LengthField(s)..]);
    }
  }

  /** Any split of a stream into reads dispatches the same packages and leaves the same cache as
      the whole stream at once. */
  lemma {:induction false} ChunkingIndependent(cache: Bytes, chunks: seq<Bytes>)
    requires Settled(cache)
    ensures Reads(cache, chunks) == Parse(cache + Concat(chunks))
    decreases |chunks|
  {
    if chunks == [] {
      assert cache + Concat(chunks) == cache;
    } else {
      var s := cache + chunks[0];
      assert cache + Concat(chunks) == s + Concat(chunks[1..]);
      ParseExtends(s, Concat(chunks[1..]));
      RestSettled(s);
      if Parse(s).Parsed? {
        ChunkingIndependent(Parse(s).rest, chunks[1..]);
      }
    }
  }

  // ----- round trip

  datatype Message = Message(data: Bytes, kind: Byte, taskId: nat)

  ghost predicate Fits(m: Message) { |m.data| <= MAX_DATA && m.taskId < Power256(8) }

  function Sent(m: Message): Package { Package(VERSION, MAGIC, m.taskId, m.kind, m.data) }

  function BuildAll(ms: seq<Message>): Bytes {
    if ms == [] then [] else Build(ms[0].data, ms[0].kind, ms[0].taskId) + BuildAll(ms[1..])
  }

  function SentAll(ms: seq<Message>): seq<Package> {
    if ms == [] then [] else [Sent(ms[0])] + SentAll(ms[1..])
  }

  lemma HeaderUnpacks(version: Byte, magic: nat, taskId: nat, kind: Byte, length: nat, s: Bytes)
    requires magic < 0x1_0000_0000 && taskId < Power256(8) && length < 0x1_0000_0000
    ensures var b := Header(version, magic, taskId, kind, length) + s;
      && LengthField(b) == length
      && (length <= |s| ==>
            && Unpack(b, length) == Package(version, magic, taskId, kind, s[..length])
            && b[HEADER + length..] == s[length..])
  {
    var b := Header(version, magic, taskId, kind, length) + s;
    assert b[1..5] == Little(magic, 4);
    assert b[5..13] == Little(taskId, 8);
    assert b[14..18] == Little(length, 4);
    assert Power256(4) == 0x1_0000_0000;
    NumberOfLittle(magic, 4);
    NumberOfLittle(taskId, 8);
    NumberOfLittle(length, 4);
    if length <= |s| { assert b[18..18 + length] == s[..length]; }
  }

  lemma BuildUnpacks(m: Message, s: Bytes)
    requires Fits(m)
    ensures var b := Build(m.data, m.kind, m.taskId) + s;
      && |b| >= HEADER + |m.data| && LengthField(b) == |m.data|
      && Unpack(b, |m.data|) == Sent(m) && b[HEADER + |m.data|..] == s
  {
    HeaderUnpacks(VERSION, MAGIC, m.taskId, m.kind, |m.data|, m.data + s);
    Appended(Header(VERSION, MAGIC, m.taskId, m.kind, |m.data|), m.data, s);
    assert (m.data + s)[..|m.data|] == m.data && (m.data + s)[|m.data|..] == s;
  }

  lemma BuildParses(m: Message, s: Bytes)
    requires Fits(m)
    ensures Parse(Build(m.data, m.kind, m.taskId) + s) == Prepend([Sent(m)], Parse(s))
  {
    BuildUnpacks(m, s);
    ParseStep(Build(m.data, m.kind, m.taskId) + s);
  }

  // ----- what any stream is taken for

  ghost function Four(a: int, b: int, c: int, d: int): int { a + 0x100 * b + 0x1_0000 * c + 0x100_0000 * d }

  /** The packed header: every integer is stored with its lowest byte first. */
  lemma HeaderLayout(version: Byte, magic: nat, taskId: nat, kind: Byte, length: nat)
    requires magic < 0x1_0000_0000 && taskId < Power256(8) && length < 0x1_0000_0000
    ensures var h := Header(version, magic, taskId, kind, length);
      && h[0] == version && h[13] == kind
      && magic == Four(h[1], h[2], h[3], h[4]) && length == Four(h[14], h[15], h[16], h[17])
      && taskId == Four(h[5], h[6], h[7], h[8]) + 0x1_0000_0000 * Four(h[9], h[10], h[11], h[12])
  {
    var h := Header(version, magic, taskId, kind, length);
    HeaderUnpacks(version, magic, taskId, kind, length, []);
    assert h + [] == h;
    assert Power256(4) == 0x1_0000_0000;
    NumberOfLittle(magic, 4);
    NumberOfLittle(taskId, 8);
    NumberOfLittle(length, 4);
    assert h[1..5] == Little(magic, 4) && h[5..13] == Little(taskId, 8) && h[14..18] == Little(length, 4);
    FourBytes(h[1..5]);
    FourBytes(h[14..18]);
    EightBytes(h[5..13]);
  }

  lemma FirstByte(s: Bytes, i: nat)
    requires i < |s|
    ensures Number(s[i..]) == s[i] + 256 * Number(s[i + 1..])
  {
    assert s[i..][1..] == s[i + 1..];
  }

  lemma FourBytes(s: Bytes)
    requires |s| == 4
    ensures Number(s) == Four(s[0], s[1], s[2], s[3])
  {
    FirstByte(s, 0);
    FirstByte(s, 1);
    FirstByte(s, 2);
    FirstByte(s, 3);
    assert s[0..] == s && s[4..] == [];
  }

  lemma EightBytes(s: Bytes)
    requires |s| == 8
    ensures Number(s) == Four(s[0], s[1], s[2], s[3]) + 0x1_0000_0000 * Four(s[4], s[5], s[6], s[7])
  {
    FirstByte(s, 0);
    FirstByte(s, 1);
    FirstByte(s, 2);
    FirstByte(s, 3);
    assert s[0..] == s;
    FourBytes(s[4..]);
  }

  /** A whole package, whatever follows it, is dispatched if it carries the magic number and the
      version, and is skipped with its data if it does not. */
  lemma HeaderParses(version: Byte, magic: nat, taskId: nat, kind: Byte, data: Bytes, rest: Bytes)
    requires magic < 0x1_0000_0000 && taskId < Power256(8) && |data| <= MAX_DATA
    ensures Parse(Header(version, magic, taskId, kind, |data|) + (data + rest)) ==
      Prepend(if magic == 0x12345678 && version == 1 then [Package(version, magic, taskId, kind, data)] else [],
              Parse(rest))
  {
    var s := Header(version, magic, taskId, kind, |data|) + (data + rest);
    HeaderUnpacks(version, magic, taskId, kind, |data|, data + rest);
    assert (data + rest)[..|data|] == data && (data + rest)[|data|..] == rest;
    ParseStep(s);
  }

  /** A package that is not complete waits for more bytes, and a length above 2^31-1-18 does not. */
  lemma HeaderWaits(version: Byte, magic: nat, taskId: nat, kind: Byte, length: nat, data: Bytes)
    requires magic < 0x1_0000_0000 && taskId < Power256(8) && |data| < length < 0x1_0000_0000
    ensures var s := Header(version, magic, taskId, kind, length) + data;
      Parse(s) == if length <= 0x7FFF_FFFF - 18 then Parsed([], s) else Overrun([])
  {
    HeaderUnpacks(version, magic, taskId, kind, length, data);
  }

  /** Fewer than 18 bytes wait, and any 18 bytes are a header; so these lemmas say what becomes of
      every stream. */
  lemma EveryStream(s: Bytes)
    ensures |s| < 18 ==> Parse(s) == Parsed([], s)
    ensures |s| >= 18 ==> exists version: Byte, magic: nat, taskId: nat, kind: Byte, length: nat ::
      magic < 0x1_0000_0000 && taskId < Power256(8) && length < 0x1_0000_0000 &&
        s[..18] == Header(version, magic, taskId, kind, length)
  {
    if |s| >= 18 {
      LittleOfNumber(s[1..5]);
      LittleOfNumber(s[5..13]);
      LittleOfNumber(s[14..18]);
      assert Power256(4) == 0x1_0000_0000;
      assert s[..18] == [s[0]] + s[1..5] + s[5..13] + [s[13]] + s[14..18];
      assert s[..18] == Header(s[0], Number(s[1..5]), Number(s[5..13]), s[13], Number(s[14..18]));
    }
  }

  lemma {:induction false} LittleOfNumber(s: Bytes)
    ensures Number(s) < Power256(|s|) && Little(Number(s), |s|) == s
    decreases |s|
  {
    if s != [] { LittleOfNumber(s[1..]); }
  }

  /** Only packages with the magic number and the version are dispatched. */
  lemma {:induction false} AllGenuine(s: Bytes)
    ensures forall p :: p in Parse(s).pkgs ==> p.magic == 0x12345678 && p.version == 1
    decreases |s|
  {
    if |s| >= HEADER && LengthField(s) <= MAX_DATA && HEADER + LengthField(s) <= |s| {
      AllGenuine(s[HEADER + LengthField(s)..]);
    }
  }

  lemma Appended(a: Bytes, b: Bytes, c: Bytes)
    ensures (a + b) + c == a + (b + c)
  {
  }

  /** Built packages are recovered in order, whatever follows them. */
  lemma {:induction false} BuildAllParses(ms: seq<Message>, s: Bytes)
    requires forall m :: m in ms ==> Fits(m)
    ensures Parse(BuildAll(ms) + s) == Prepend(SentAll(ms), Parse(s))
  {
    if ms == [] {
      assert BuildAll(ms) + s == s;
      PrependNothing(Parse(s));
    } else {
      var first, rest := Build(ms[0].data, ms[0].kind, ms[0].taskId), BuildAll(ms[1..]);
      Appended(first, rest, s);
      BuildParses(ms[0], rest + s);
      BuildAllParses(ms[1..], s);
      PrependTwice([Sent(ms[0])], SentAll(ms[1..]), Parse(s));
    }
  }

  /** Any list of messages, built, concatenated and delivered in any fragments, is recovered in
      order with nothing left over. */
  lemma RoundTrip(ms: seq<Message>, chunks: seq<Bytes>)
    requires forall m :: m in ms ==> Fits(m)
    requires Concat(chunks) == BuildAll(ms)
    ensures Reads([], chunks) == Parsed(SentAll(ms), [])
  {
    ChunkingIndependent([], chunks);
    assert [] + Concat(chunks) == BuildAll(ms) + [];
    BuildAllParses(ms, []);
    assert SentAll(ms) + [] == SentAll(ms);
  }

  lemma Sliced(buf: Bytes, cursor: nat, n: nat)
    requires cursor + n <= |buf|
    ensures buf[cursor..][n..] == buf[cursor + n..]
  {
  }

  lemma NotYet(t: Bytes)
    requires |t| < HEADER || (LengthField(t) <= MAX_DATA && HEADER + LengthField(t) > |t|)
    ensures Parse(t) == Parsed([], t)
  {
  }

  lemma TooLong(t: Bytes)
    requires |t| >= HEADER && LengthField(t) > MAX_DATA
    ensures Parse(t) == Overrun([])
  {
  }

  lemma FoundAgrees(buf: Bytes, cursor: nat)
    requires cursor <= |buf| && |buf[cursor..]| >= HEADER && LengthField(buf[cursor..]) <= MAX_DATA
    requires HEADER + LengthField(buf[cursor..]) <= |buf[cursor..]|
    ensures var t := buf[cursor..]; var length := LengthField(t);
      Parse(t) == Prepend(Good(Unpack(t, length)), Parse(buf[cursor + HEADER + length..]))
  {
    ParseStep(buf[cursor..]);
    Sliced(buf, cursor, HEADER + LengthField(buf[cursor..]));
  }

  /** proto_parse_package at `cursor`, with the data length as its `int` arithmetic sees it. */
  datatype Taken = Incomplete | OutOfRange | Found(pkg: Package, next: nat)

  function ParsePackage(buf: Bytes, cursor: nat): (r: Taken)
    requires cursor <= |buf|
    ensures r.Found? ==> cursor < r.next <= |buf|
  {
    var t := buf[cursor..];
    if |t| < HEADER then Incomplete
    else
      var length := LengthField(t);
      if length > MAX_DATA then OutOfRange
      else if HEADER + length > |t| then Incomplete
      else Found(Unpack(t, length), cursor + HEADER + length)
  }

  /** One package at the cursor is one step of the parse of the stream from there. */
  lemma PackageAgrees(buf: Bytes, cursor: nat)
    requires cursor <= |buf|
    ensures var t := buf[cursor..];
      match ParsePackage(buf, cursor)
      case Incomplete => Parse(t) == Parsed([], t)
      case OutOfRange => Parse(t) == Overrun([])
      case Found(pkg, next) => Parse(t) == Prepend(Good(pkg), Parse(buf[next..]))
  {
    match ParsePackage(buf, cursor)
    case Incomplete => NotYet(buf[cursor..]);
    case OutOfRange => TooLong(buf[cursor..]);
    case Found(_, _) => FoundAgrees(buf, cursor);
  }

  /** The parse loop of _read_content_process. */
  method ParseAll(pkgs: Bytes) returns (taskList: seq<Package>, cursor: nat, overrun: bool)
    ensures cursor <= |pkgs|
    ensures Parse(pkgs) == if overrun then Overrun(taskList) else Parsed(taskList, pkgs[cursor..])
  {
    cursor, taskList, overrun := 0, [], false;
    PrependNothing(Parse(pkgs));
    assert pkgs[0..] == pkgs;
    while true
      invariant cursor <= |pkgs|
      invariant Parse(pkgs) == Prepend(taskList, Parse(pkgs[cursor..]))
      decreases |pkgs| - cursor
    {
      PackageAgrees(pkgs, cursor);
      match ParsePackage(pkgs, cursor)
      case Incomplete =>
        assert taskList + [] == taskList;
        return;
      case OutOfRange =>
        assert taskList + [] == taskList;
        overrun := true;
        return;
      case Found(pkg, next) =>
        PrependTwice(taskList, Good(pkg), Parse(pkgs[next..]));
        cursor := next;
        if Check(pkg) == 0 {
          taskList := taskList + [pkg];
        } else {
          assert taskList + [] == taskList;
        }
    }
  }

  // ----- the per-connection cache

  /** comm_tcp_t: the cache buffer and the number of bytes in use. */
  class Tcp {
    var cache: array<Byte>
    var length: nat

    ghost predicate Valid()
      reads this, cache
    {
      length <= cache.Length && Settled(cache[..length])
    }

    ghost function Cached(): Bytes
      requires Valid()
      reads this, cache
    {
      cache[..length]
    }

    /** init_tcp_conn */
    constructor ()
      ensures Valid() && Cached() == [] && fresh(cache)
    {
      cache := new Byte[0];
      length := 0;
    }

    /** The parsing part of _read_content_process: the packages to dispatch, or that a length
        field was out of range. */
    method ReadContent(content: Bytes) returns (taskList: seq<Package>, overrun: bool)
      requires Valid()
      modifies this, cache
      ensures fresh(cache) || cache == old(cache)
      ensures var r := Parse(old(Cached()) + content);
        && taskList == r.pkgs && overrun == r.Overrun?
        && (!overrun ==> Valid() && Cached() == r.rest)
      ensures forall p :: p in taskList ==> p.magic == 0x12345678 && p.version == 1
    {
      var pkgs := cache[..length] + content;
      AllGenuine(pkgs);
      RestSettled(pkgs);
      var cursor;
      taskList, cursor, overrun := ParseAll(pkgs);
      if !overrun {
        Store(pkgs[cursor..]);
      }
    }

    /** Keeps the unparsed bytes; the buffer is only replaced when it is too small. */
    method Store(rest: Bytes)
      requires Settled(rest)
      modifies this, cache
      ensures Valid() && Cached() == rest && (fresh(cache) || cache == old(cache))
      ensures cache.Length >= old(cache.Length)
    {
      if cache.Length < |rest| {
        cache := new Byte[|rest|];
      }
      length := |rest|;
      forall i | 0 <= i < |rest| {
        cache[i] := rest[i];
      }
      assert cache[..length] == rest;
    }
  }
}
