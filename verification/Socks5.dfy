/** The incremental SOCKS5 parser of third/libuv/samples/socks5-proxy/s5.c (sections 3 and 4 of
    RFC 1928, section 2 of RFC 1929). */
module Socks5 {
  import opened Common

  datatype Phase =
    | Version | Nmethods | Methods
    | PwVersion | PwUserlen | PwUsername | PwPasslen | PwPassword
    | ReqVersion | ReqCmd | ReqReserved | ReqAtyp | ReqAtypHost | ReqDaddr | ReqDport0 | ReqDport1
    | Dead

  datatype Err = BadVersion | BadCmd | BadAtyp | Ok | AuthSelect | AuthVerify | ExecCmd

  datatype Method = NoAuth | Gssapi | Passwd

  datatype Cmd = TcpConnect | TcpBind | UdpAssoc

  datatype Atyp = Ipv4 | Ipv6 | Host

  /** The two bytes of a uint16_t. */
  datatype Word = Word(hi: Byte, lo: Byte)

  function Number(w: Word): nat {
    var hi: int, lo: int := w.hi, w.lo;
    256 * hi + lo
  }

  /** s5_ctx; the bits of `methods` as a set. */
  datatype Ctx = Ctx(
    arg0: nat, arg1: nat, phase: Phase, methods: set<Method>, cmd: Cmd, atyp: Atyp,
    userlen: Byte, passlen: Byte, dport: Word, username: seq<Byte>, password: seq<Byte>, daddr: seq<Byte>)

  const SIZE: nat := 257

  /** The buffers have room for every index that the phase leads to. */
  ghost predicate Valid(x: Ctx) {
    && |x.username| == SIZE && |x.password| == SIZE && |x.daddr| == SIZE
    && (x.phase == Methods ==> x.arg0 <= x.arg1 < 256)
    && (x.phase == PwUsername ==> x.arg0 <= x.userlen)
    && (x.phase == PwPassword ==> x.arg0 <= x.passlen)
    && (x.phase == ReqAtypHost ==> x.arg0 == 0)
    && (x.phase == ReqDaddr ==> x.arg0 <= x.arg1 < 256)
    && (x.phase == ReqDport1 ==> x.dport.lo == 0)
  }

  function Zeros(n: nat): (r: seq<Byte>)
    ensures |r| == n
  {
    if n == 0 then [] else Zeros(n - 1) + [0]
  }

  /** s5_init */
  function Start(): (x: Ctx)
    ensures Valid(x)
  {
    Ctx(0, 0, Version, {}, TcpConnect, Ipv4, 0, 0, Word(0, 0), Zeros(SIZE), Zeros(SIZE), Zeros(SIZE))
  }

  function MethodOf(c: Byte): set<Method> {
    if c == 0 then {NoAuth} else if c == 1 then {Gssapi} else if c == 2 then {Passwd} else {}
  }

  /** A counted byte goes into a buffer; the last one is followed by the terminator. */
  function Store(buf: seq<Byte>, i: nat, n: nat, c: Byte): (r: seq<Byte>)
    requires i <= n < 256 && |buf| == SIZE
    ensures |r| == SIZE
  {
    var filled := if i < n then buf[i := c] else buf;
    if Next(i, n) == n then filled[n := 0] else filled
  }

  function Next(i: nat, n: nat): nat { if i < n then i + 1 else i }

  /** One byte: the new context and, unless it is Ok, the result with which s5_parse returns. */
  function Step(x: Ctx, c: Byte): (r: (Ctx, Err))
    requires Valid(x)
    ensures Valid(r.0)
  {
    match x.phase
    case Version => if c != 5 then (x, BadVersion) else (x.(phase := Nmethods), Ok)
    case Nmethods => (x.(arg0 := 0, arg1 := c, phase := Methods), Ok)
    case Methods =>
      var x' := if x.arg0 < x.arg1 then x.(methods := x.methods + MethodOf(c), arg0 := x.arg0 + 1) else x;
      (x', if x'.arg0 == x'.arg1 then AuthSelect else Ok)
    case PwVersion => if c != 1 then (x, BadVersion) else (x.(phase := PwUserlen), Ok)
    case PwUserlen => (x.(arg0 := 0, userlen := c, phase := PwUsername), Ok)
    case PwUsername =>
      var i := Next(x.arg0, x.userlen);
      (x.(username := Store(x.username, x.arg0, x.userlen, c), arg0 := i,
          phase := if i == x.userlen then PwPasslen else PwUsername), Ok)
    case PwPasslen => (x.(arg0 := 0, passlen := c, phase := PwPassword), Ok)
    case PwPassword =>
      var i := Next(x.arg0, x.passlen);
      (x.(password := Store(x.password, x.arg0, x.passlen, c), arg0 := i,
          phase := if i == x.passlen then ReqVersion else PwPassword),
       if i == x.passlen then AuthVerify else Ok)
    case ReqVersion => if c != 5 then (x, BadVersion) else (x.(phase := ReqCmd), Ok)
    case ReqCmd =>
      if c == 1 then (x.(cmd := TcpConnect, phase := ReqReserved), Ok)
      else if c == 3 then (x.(cmd := UdpAssoc, phase := ReqReserved), Ok)
      else (x, BadCmd)
    case ReqReserved => (x.(phase := ReqAtyp), Ok)
    case ReqAtyp =>
      if c == 1 then (x.(arg0 := 0, phase := ReqDaddr, atyp := Ipv4, arg1 := 4), Ok)
      else if c == 3 then (x.(arg0 := 0, phase := ReqAtypHost, atyp := Host, arg1 := 0), Ok)
      else if c == 4 then (x.(arg0 := 0, phase := ReqDaddr, atyp := Ipv6, arg1 := 16), Ok)
      else (x.(arg0 := 0), BadAtyp)
    case ReqAtypHost => (x.(arg1 := c, phase := ReqDaddr), Ok)
    case ReqDaddr =>
      var i := Next(x.arg0, x.arg1);
      (x.(daddr := Store(x.daddr, x.arg0, x.arg1, c), arg0 := i,
        phase := if i == x.arg1 then ReqDport0 else ReqDaddr), Ok)
    case ReqDport0 => (x.(dport := Word(c, 0), phase := ReqDport1), Ok)
    case ReqDport1 => (x.(dport := Word(x.dport.hi, c), phase := Dead), ExecCmd)
    case Dead => (x, Ok)
  }

  /** The result of s5_parse, the new context, and the bytes that are left. */
  datatype Parsed = Parsed(err: Err, ctx: Ctx, rest: seq<Byte>)

  /** s5_parse */
  function Parse(x: Ctx, data: seq<Byte>): (r: Parsed)
    requires Valid(x)
    ensures Valid(r.ctx)
    decreases |data|
  {
    if data == [] then Parsed(Ok, x, [])
    else
      var (x', err) := Step(x, data[0]);
      if err != Ok then Parsed(err, x', data[1..]) else Parse(x', data[1..])
  }

  /** What is left is a tail of the data, and nothing is left after s5_ok. */
  lemma {:induction false} ParseLeaves(x: Ctx, data: seq<Byte>)
    requires Valid(x)
    ensures var rest := Parse(x, data).rest; |rest| <= |data| && rest == data[|data| - |rest|..]
    ensures Parse(x, data).err == Ok ==> Parse(x, data).rest == []
    decreases |data|
  {
    if data != [] && Step(x, data[0]).1 == Ok { ParseLeaves(Step(x, data[0]).0, data[1..]); }
  }

  // ----- chunking

  /** Parsing `a` and then `b` is parsing `a + b`. */
  lemma {:induction false} ChunkIndependent(x: Ctx, a: seq<Byte>, b: seq<Byte>)
    requires Valid(x)
    ensures var p := Parse(x, a);
      Parse(x, a + b) == if p.err == Ok then Parse(p.ctx, b) else Parsed(p.err, p.ctx, p.rest + b)
    decreases |a|
  {
    if a == [] {
      assert a + b == b;
    } else {
      assert (a + b)[0] == a[0] && (a + b)[1..] == a[1..] + b;
      if Step(x, a[0]).1 == Ok { ChunkIndependent(Step(x, a[0]).0, a[1..], b); }
    }
  }

  ghost function Concat(chunks: seq<seq<Byte>>): seq<Byte> {
    if chunks == [] then [] else chunks[0] + Concat(chunks[1..])
  }

  /** A caller that parses one chunk after the other until a result other than s5_ok. */
  ghost function Feed(x: Ctx, chunks: seq<seq<Byte>>): Parsed
    requires Valid(x)
    decreases |chunks|
  {
    if chunks == [] then Parsed(Ok, x, [])
    else
      var p := Parse(x, chunks[0]);
      if p.err == Ok then Feed(p.ctx, chunks[1..]) else Parsed(p.err, p.ctx, p.rest + Concat(chunks[1..]))
  }

  lemma {:induction false} FeedIsParse(x: Ctx, chunks: seq<seq<Byte>>)
    requires Valid(x)
    ensures Feed(x, chunks) == Parse(x, Concat(chunks))
    decreases |chunks|
  {
    if chunks != [] {
      ChunkIndependent(x, chunks[0], Concat(chunks[1..]));
      var p := Parse(x, chunks[0]);
      if p.err == Ok { FeedIsParse(p.ctx, chunks[1..]); }
    }
  }

  // ----- counted strings

  /** One byte of which s5_parse makes nothing but a step. */
  lemma Eats(x: Ctx, c: Byte, rest: seq<Byte>)
    requires Valid(x) && Step(x, c).1 == Ok
    ensures Parse(x, [c] + rest) == Parse(Step(x, c).0, rest)
  {
    assert ([c] + rest)[1..] == rest;
  }

  /** One byte at which s5_parse returns. */
  lemma Stops(x: Ctx, c: Byte, rest: seq<Byte>)
    requires Valid(x) && Step(x, c).1 != Ok
    ensures Parse(x, [c] + rest) == Parsed(Step(x, c).1, Step(x, c).0, rest)
  {
    assert ([c] + rest)[1..] == rest;
  }

  /** A buffer that holds `s` and its terminator. */
  ghost predicate Holds(buf: seq<Byte>, s: seq<Byte>) {
    |s| < |buf| && buf[..|s|] == s && buf[|s|] == 0
  }

  /** A byte of a counted string changes only its own place, and the last one also what follows it. */
  lemma StoreDoes(buf: seq<Byte>, i: nat, n: nat, c: Byte)
    requires |buf| == SIZE && i <= n < 256
    ensures Store(buf, i, n, c) ==
      if i == n then buf[n := 0] else if i + 1 == n then buf[i := c][n := 0] else buf[i := c]
  {
  }

  lemma StoreHolds(buf: seq<Byte>, s: seq<Byte>, i: nat)
    requires |buf| == SIZE && i < |s| < 256 && buf[..i] == s[..i]
    ensures var buf' := Store(buf, i, |s|, s[i]); buf'[..i + 1] == s[..i + 1] && (i + 1 == |s| ==> Holds(buf', s))
  {
    var buf' := Store(buf, i, |s|, s[i]);
    assert buf'[..i] == buf[..i];
    assert buf'[..i + 1] == buf'[..i] + [s[i]] && s[..i + 1] == s[..i] + [s[i]];
    if i + 1 == |s| { assert s[..i + 1] == s; }
  }

  lemma FirstOf(s: seq<Byte>, i: nat, rest: seq<Byte>)
    requires i < |s|
    ensures s[i..] + rest == [s[i]] + (s[i + 1..] + rest)
  {
  }

  lemma {:induction false} ReadsAddress(x: Ctx, s: seq<Byte>, rest: seq<Byte>) returns (x': Ctx)
    requires Valid(x) && x.phase == ReqDaddr && x.arg0 < x.arg1 == |s| && x.daddr[..x.arg0] == s[..x.arg0]
    ensures Valid(x') && Parse(x, s[x.arg0..] + rest) == Parse(x', rest)
    ensures x'.phase == ReqDport0 && Holds(x'.daddr, s) && x'.cmd == x.cmd && x'.atyp == x.atyp
    ensures x'.arg0 == x'.arg1 == |s|
    decreases |s| - x.arg0
  {
    var i := x.arg0;
    x' := Step(x, s[i]).0;
    StoreHolds(x.daddr, s, i);
    FirstOf(s, i, rest);
    Eats(x, s[i], s[i + 1..] + rest);
    if i + 1 == |s| {
      assert s[i + 1..] + rest == rest;
    } else {
      x' := ReadsAddress(x', s, rest);
    }
  }

  lemma {:induction false} ReadsUsername(x: Ctx, s: seq<Byte>, rest: seq<Byte>) returns (x': Ctx)
    requires Valid(x) && x.phase == PwUsername && x.arg0 < x.userlen == |s| && x.username[..x.arg0] == s[..x.arg0]
    ensures Valid(x') && Parse(x, s[x.arg0..] + rest) == Parse(x', rest)
    ensures x'.phase == PwPasslen && Holds(x'.username, s) && x'.userlen == |s|
    decreases |s| - x.arg0
  {
    var i := x.arg0;
    x' := Step(x, s[i]).0;
    StoreHolds(x.username, s, i);
    FirstOf(s, i, rest);
    Eats(x, s[i], s[i + 1..] + rest);
    if i + 1 == |s| {
      assert s[i + 1..] + rest == rest;
    } else {
      x' := ReadsUsername(x', s, rest);
    }
  }

  lemma {:induction false} ReadsPassword(x: Ctx, s: seq<Byte>, rest: seq<Byte>) returns (x': Ctx)
    requires Valid(x) && x.phase == PwPassword && x.arg0 < x.passlen == |s| && x.password[..x.arg0] == s[..x.arg0]
    ensures Valid(x') && Parse(x, s[x.arg0..] + rest) == Parsed(AuthVerify, x', rest)
    ensures x'.phase == ReqVersion && Holds(x'.password, s) && x'.passlen == |s|
    ensures x'.username == x.username && x'.userlen == x.userlen
    decreases |s| - x.arg0
  {
    var i := x.arg0;
    x' := Step(x, s[i]).0;
    StoreHolds(x.password, s, i);
    FirstOf(s, i, rest);
    if i + 1 == |s| {
      Stops(x, s[i], s[i + 1..] + rest);
      assert s[i + 1..] + rest == rest;
    } else {
      Eats(x, s[i], s[i + 1..] + rest);
      x' := ReadsPassword(x', s, rest);
    }
  }

  ghost function MethodsOf(ms: seq<Byte>): set<Method> {
    if ms == [] then {} else MethodOf(ms[0]) + MethodsOf(ms[1..])
  }

  /** The methods of section 3 of RFC 1928 that a list of method numbers adds. */
  ghost predicate Offered(before: set<Method>, after: set<Method>, ms: seq<Byte>) {
    && (NoAuth in after <==> NoAuth in before || 0 in ms)
    && (Gssapi in after <==> Gssapi in before || 1 in ms)
    && (Passwd in after <==> Passwd in before || 2 in ms)
  }

  lemma {:induction false} MethodsOffered(before: set<Method>, ms: seq<Byte>)
    ensures Offered(before, before + MethodsOf(ms), ms)
    decreases |ms|
  {
    if ms != [] {
      MethodsOffered(before, ms[1..]);
      assert forall c: Byte :: c in ms <==> c == ms[0] || c in ms[1..];
    }
  }

  lemma {:induction false} ReadsMethods(x: Ctx, ms: seq<Byte>, rest: seq<Byte>)
    requires Valid(x) && x.phase == Methods && ms != [] && x.arg0 + |ms| == x.arg1
    ensures Parse(x, ms + rest) == Parsed(AuthSelect, x.(methods := x.methods + MethodsOf(ms), arg0 := x.arg1), rest)
    decreases |ms|
  {
    assert ms + rest == [ms[0]] + (ms[1..] + rest);
    if |ms| == 1 {
      Stops(x, ms[0], ms[1..] + rest);
      assert ms[1..] + rest == rest;
      assert MethodsOf(ms) == MethodOf(ms[0]);
    } else {
      Eats(x, ms[0], ms[1..] + rest);
      ReadsMethods(Step(x, ms[0]).0, ms[1..], rest);
    }
  }

  // ----- the messages of the protocol

  /** The greeting of section 3 of RFC 1928. */
  ghost function Greeting(ms: seq<Byte>): seq<Byte>
    requires |ms| < 256
  {
    [5, |ms|] + ms
  }

  lemma GreetingParses(x: Ctx, ms: seq<Byte>, rest: seq<Byte>) returns (x': Ctx)
    requires Valid(x) && x.phase == Version && 0 < |ms| < 256
    ensures Valid(x') && Parse(x, Greeting(ms) + rest) == Parsed(AuthSelect, x', rest)
    ensures x'.methods == x.methods + MethodsOf(ms)
  {
    assert Greeting(ms) + rest == [5] + ([|ms|] + (ms + rest));
    Eats(x, 5, [|ms|] + (ms + rest));
    var x1 := Step(x, 5).0;
    Eats(x1, |ms|, ms + rest);
    var x2 := Step(x1, |ms|).0;
    ReadsMethods(x2, ms, rest);
    x' := Parse(x2, ms + rest).ctx;
  }

  /** A greeting is recognised at its last byte if and only if it names a method; the byte after an
      empty list is swallowed. */
  lemma GreetingDecodes(x: Ctx, ms: seq<Byte>, rest: seq<Byte>)
    requires Valid(x) && x.phase == Version && |ms| < 256
    ensures var p := Parse(x, Greeting(ms) + rest);
      p.err == AuthSelect && p.rest == rest && Offered(x.methods, p.ctx.methods, ms) <==> ms != []
  {
    if ms != [] {
      MethodsOffered(x.methods, ms);
      var x' := GreetingParses(x, ms, rest);
    } else {
      var x1, none: Byte := Step(x, 5).0, 0;
      assert Greeting(ms) + rest == [5] + ([none] + rest);
      Eats(x, 5, [none] + rest);
      Eats(x1, none, rest);
      var x2 := Step(x1, none).0;
      if rest != [] {
        assert rest == [rest[0]] + rest[1..];
        Stops(x2, rest[0], rest[1..]);
      }
    }
  }

  /** The user name and password of section 2 of RFC 1929. */
  ghost function Credentials(user: seq<Byte>, pass: seq<Byte>): seq<Byte>
    requires |user| < 256 && |pass| < 256
  {
    [1, |user|] + user + [|pass|] + pass
  }

  lemma UserParses(x: Ctx, user: seq<Byte>, rest: seq<Byte>) returns (x': Ctx)
    requires Valid(x) && x.phase == PwVersion && 0 < |user| < 256
    ensures Valid(x') && Parse(x, [1] + ([|user|] + (user + rest))) == Parse(x', rest)
    ensures x'.phase == PwPasslen && Holds(x'.username, user) && x'.userlen == |user|
  {
    var n: Byte := |user|;
    Eats(x, 1, [n] + (user + rest));
    var x1 := Step(x, 1).0;
    Eats(x1, n, user + rest);
    assert user[0..] == user;
    x' := ReadsUsername(Step(x1, n).0, user, rest);
  }

  lemma PassParses(x: Ctx, pass: seq<Byte>, rest: seq<Byte>) returns (x': Ctx)
    requires Valid(x) && x.phase == PwPasslen && 0 < |pass| < 256
    ensures Valid(x') && Parse(x, [|pass|] + (pass + rest)) == Parsed(AuthVerify, x', rest)
    ensures x'.phase == ReqVersion && Holds(x'.password, pass) && x'.passlen == |pass|
    ensures x'.username == x.username && x'.userlen == x.userlen
  {
    var n: Byte := |pass|;
    Eats(x, n, pass + rest);
    assert pass[0..] == pass;
    x' := ReadsPassword(Step(x, n).0, pass, rest);
  }

  lemma CredentialsParse(x: Ctx, user: seq<Byte>, pass: seq<Byte>, rest: seq<Byte>) returns (x': Ctx)
    requires Valid(x) && x.phase == PwVersion && 0 < |user| < 256 && 0 < |pass| < 256
    ensures Valid(x') && Parse(x, Credentials(user, pass) + rest) == Parsed(AuthVerify, x', rest)
    ensures x'.phase == ReqVersion && Holds(x'.username, user) && Holds(x'.password, pass)
    ensures x'.userlen == |user| && x'.passlen == |pass|
  {
    var last := [|pass|] + (pass + rest);
    assert Credentials(user, pass) + rest == [1] + ([|user|] + (user + last));
    var x1 := UserParses(x, user, last);
    x' := PassParses(x1, pass, rest);
  }

  /** A password takes as many bytes as its length says, and one if that is none. */
  lemma {:induction false} PasswordTakes(x: Ctx, data: seq<Byte>)
    requires Valid(x) && x.phase == PwPassword && (x.arg0 == x.passlen ==> x.passlen == 0)
    ensures var p := Parse(x, data);
      p.err == AuthVerify ==>
        && p.ctx.passlen == x.passlen
        && |p.rest| + (if x.passlen == 0 then 1 else x.passlen - x.arg0) == |data|
    decreases |data|
  {
    if data != [] {
      var x' := Step(x, data[0]).0;
      assert x'.passlen == x.passlen;
      if Step(x, data[0]).1 == Ok { PasswordTakes(x', data[1..]); }
    }
  }

  lemma PasslenTakes(x: Ctx, data: seq<Byte>)
    requires Valid(x) && x.phase == PwPasslen
    ensures var p := Parse(x, data);
      p.err == AuthVerify ==> |p.rest| + 1 + (if p.ctx.passlen == 0 then 1 else p.ctx.passlen) == |data|
  {
    if data != [] { PasswordTakes(Step(x, data[0]).0, data[1..]); }
  }

  /** The byte after an empty user name is swallowed. */
  lemma EmptyUser(x: Ctx, data: seq<Byte>)
    requires Valid(x) && x.phase == PwVersion
    ensures var none: Byte := 0; var p := Parse(x, [1] + ([none] + data));
      p.err == AuthVerify ==> |p.rest| + 2 + (if p.ctx.passlen == 0 then 1 else p.ctx.passlen) == |data|
  {
    var none: Byte := 0;
    var x1 := Step(x, 1).0;
    var x2 := Step(x1, none).0;
    Eats(x, 1, [none] + data);
    Eats(x1, none, data);
    if data != [] {
      var x3 := Step(x2, data[0]).0;
      assert data == [data[0]] + data[1..];
      Eats(x2, data[0], data[1..]);
      PasslenTakes(x3, data[1..]);
    }
  }

  /** User name and password are recognised at their last byte if and only if neither is empty. */
  lemma CredentialsDecode(x: Ctx, user: seq<Byte>, pass: seq<Byte>, rest: seq<Byte>)
    requires Valid(x) && x.phase == PwVersion && |user| < 256 && |pass| < 256
    ensures var p := Parse(x, Credentials(user, pass) + rest);
      && p.err == AuthVerify && p.rest == rest && p.ctx.userlen == |user| && p.ctx.passlen == |pass|
      && Holds(p.ctx.username, user) && Holds(p.ctx.password, pass)
      <==> user != [] && pass != []
  {
    var last := [|pass|] + (pass + rest);
    assert Credentials(user, pass) + rest == [1] + ([|user|] + (user + last));
    if user == [] {
      assert user + last == last;
      EmptyUser(x, last);
    } else if pass == [] {
      var x1 := UserParses(x, user, last);
      PasslenTakes(x1, last);
    } else {
      var x' := CredentialsParse(x, user, pass, rest);
    }
  }

  /** A request of section 4 of RFC 1928. */
  datatype Request = Request(cmd: Cmd, atyp: Atyp, addr: seq<Byte>, port: nat)

  ghost predicate WellFormed(q: Request) {
    && q.cmd != TcpBind && q.port < 0x10000
    && match q.atyp
       case Ipv4 => |q.addr| == 4
       case Ipv6 => |q.addr| == 16
       case Host => |q.addr| < 256
  }

  ghost function Kind(q: Request): seq<Byte>
    requires WellFormed(q)
  {
    match q.atyp
    case Ipv4 => [1]
    case Ipv6 => [4]
    case Host => [3, |q.addr|]
  }

  ghost function CmdByte(cmd: Cmd): Byte { match cmd case TcpConnect => 1 case TcpBind => 2 case UdpAssoc => 3 }

  /** The port in network order. */
  ghost function Port(q: Request): (r: seq<Byte>)
    requires q.port < 0x10000
    ensures |r| == 2 && r[0] as int * 256 + r[1] as int == q.port
  {
    [q.port / 256, q.port % 256]
  }

  ghost function Encode(q: Request, reserved: Byte): seq<Byte>
    requires WellFormed(q)
  {
    [5, CmdByte(q.cmd), reserved] + (Kind(q) + (q.addr + Port(q)))
  }

  lemma Appended(a: seq<Byte>, b: seq<Byte>, c: seq<Byte>, d: seq<Byte>, rest: seq<Byte>)
    ensures a + (b + (c + d)) + rest == a + (b + (c + (d + rest)))
  {
  }

  lemma HeaderParses(x: Ctx, q: Request, reserved: Byte, rest: seq<Byte>) returns (x': Ctx)
    requires Valid(x) && x.phase == ReqVersion && WellFormed(q)
    ensures Valid(x') && Parse(x, [5, CmdByte(q.cmd), reserved] + rest) == Parse(x', rest)
    ensures x'.phase == ReqAtyp && x'.cmd == q.cmd
  {
    var c := CmdByte(q.cmd);
    var tail := [reserved] + rest;
    assert [5, c, reserved] + rest == [5] + ([c] + tail);
    Eats(x, 5, [c] + tail);
    var x1 := Step(x, 5).0;
    Eats(x1, c, tail);
    var x2 := Step(x1, c).0;
    Eats(x2, reserved, rest);
    x' := Step(x2, reserved).0;
  }

  lemma KindParses(x: Ctx, q: Request, rest: seq<Byte>) returns (x': Ctx)
    requires Valid(x) && x.phase == ReqAtyp && WellFormed(q)
    ensures Valid(x') && Parse(x, Kind(q) + rest) == Parse(x', rest)
    ensures x'.phase == ReqDaddr && x'.arg0 == 0 && x'.arg1 == |q.addr| && x'.cmd == x.cmd && x'.atyp == q.atyp
  {
    var c: Byte := Kind(q)[0];
    x' := Step(x, c).0;
    if q.atyp == Host {
      var n: Byte := |q.addr|;
      assert Kind(q) + rest == [c] + ([n] + rest);
      Eats(x, c, [n] + rest);
      Eats(x', n, rest);
      x' := Step(x', n).0;
    } else {
      assert Kind(q) == [c];
      Eats(x, c, rest);
    }
  }

  lemma PortParses(x: Ctx, hi: Byte, lo: Byte, rest: seq<Byte>)
    requires Valid(x) && x.phase == ReqDport0
    ensures Parse(x, [hi, lo] + rest) == Parsed(ExecCmd, x.(dport := Word(hi, lo), phase := Dead), rest)
  {
    var x1 := x.(dport := Word(hi, 0), phase := ReqDport1);
    assert [hi, lo] + rest == [hi] + ([lo] + rest);
    Eats(x, hi, [lo] + rest);
    LowParses(x1, lo, rest);
  }

  lemma LowParses(x: Ctx, lo: Byte, rest: seq<Byte>)
    requires Valid(x) && x.phase == ReqDport1
    ensures Parse(x, [lo] + rest) == Parsed(ExecCmd, x.(dport := Word(x.dport.hi, lo), phase := Dead), rest)
  {
    Stops(x, lo, rest);
  }

  /** What a request leaves in the context. */
  ghost predicate Carries(x: Ctx, q: Request) {
    && x.phase == Dead && x.cmd == q.cmd && x.atyp == q.atyp && Number(x.dport) == q.port
    && x.arg1 == |q.addr| && Holds(x.daddr, q.addr)
  }

  lemma AddressedParses(x: Ctx, q: Request, rest: seq<Byte>) returns (x': Ctx)
    requires Valid(x) && WellFormed(q) && q.addr != []
    requires x.phase == ReqDaddr && x.arg0 == 0 && x.arg1 == |q.addr| && x.cmd == q.cmd && x.atyp == q.atyp
    ensures Parse(x, q.addr + (Port(q) + rest)) == Parsed(ExecCmd, x', rest)
    ensures Valid(x') && Carries(x', q)
  {
    assert q.addr[0..] == q.addr;
    var x1 := ReadsAddress(x, q.addr, Port(q) + rest);
    PortParses(x1, Port(q)[0], Port(q)[1], rest);
    x' := x1.(dport := Word(Port(q)[0], Port(q)[1]), phase := Dead);
  }

  /** The bytes after the type of an empty address: the first one is taken for the address, so the
      last byte of the request is not the last one parsed. */
  lemma EmptyAddressed(x: Ctx, hi: Byte, lo: Byte, rest: seq<Byte>)
    requires Valid(x) && x.phase == ReqDaddr && x.arg0 == 0 && x.arg1 == 0
    ensures var p := Parse(x, [hi, lo] + rest);
      if rest == [] then p.err == Ok && p.ctx.phase == ReqDport1
      else p.err == ExecCmd && p.ctx.dport == Word(lo, rest[0]) && p.rest == rest[1..]
  {
    assert [hi, lo] + rest == [hi] + ([lo] + rest);
    Eats(x, hi, [lo] + rest);
    var x1 := Step(x, hi).0;
    assert x1.phase == ReqDport0;
    PortHalf(x1, lo, rest);
  }

  lemma PortHalf(x: Ctx, lo: Byte, rest: seq<Byte>)
    requires Valid(x) && x.phase == ReqDport0
    ensures var p := Parse(x, [lo] + rest);
      if rest == [] then p.err == Ok && p.ctx.phase == ReqDport1
      else p.err == ExecCmd && p.ctx.dport == Word(lo, rest[0]) && p.rest == rest[1..]
  {
    Eats(x, lo, rest);
    if rest != [] {
      assert rest == [rest[0]] + rest[1..];
      LowParses(Step(x, lo).0, rest[0], rest[1..]);
    }
  }

  /** The request up to its address. */
  lemma PrefixParses(x: Ctx, q: Request, reserved: Byte, rest: seq<Byte>) returns (x': Ctx)
    requires Valid(x) && x.phase == ReqVersion && WellFormed(q)
    ensures Valid(x') && x'.phase == ReqDaddr && x'.arg0 == 0 && x'.arg1 == |q.addr| && x'.cmd == q.cmd &&
      x'.atyp == q.atyp
    ensures Parse(x, Encode(q, reserved) + rest) == Parse(x', q.addr + (Port(q) + rest))
  {
    var tail := q.addr + (Port(q) + rest);
    Appended([5, CmdByte(q.cmd), reserved], Kind(q), q.addr, Port(q), rest);
    var x1 := HeaderParses(x, q, reserved, Kind(q) + tail);
    x' := KindParses(x1, q, tail);
  }

  /** A request is decoded, with s5_exec_cmd at its last byte, if and only if its address is not
      empty. */
  lemma RequestDecodes(x: Ctx, q: Request, reserved: Byte, rest: seq<Byte>)
    requires Valid(x) && x.phase == ReqVersion && WellFormed(q)
    ensures var p := Parse(x, Encode(q, reserved) + rest);
      p.err == ExecCmd && p.rest == rest && Carries(p.ctx, q) <==> q.addr != []
  {
    var x1 := PrefixParses(x, q, reserved, rest);
    if q.addr != [] {
      var x2 := AddressedParses(x1, q, rest);
    } else {
      var tail := Port(q) + rest;
      assert q.addr + tail == tail;
      EmptyAddressed(x1, Port(q)[0], Port(q)[1], rest);
      assert Port(q) == [Port(q)[0], Port(q)[1]];
    }
  }

  /** A byte that stands where the protocol fixes one is rejected, without a change of what was parsed,
      if and only if it is another one: the version, the sub-negotiation, the command or the address
      type.  No other byte is. */
  lemma RejectsExactly(x: Ctx, c: Byte, rest: seq<Byte>)
    requires Valid(x)
    ensures var p := Parse(x, [c] + rest);
      && ((x.phase == Version || x.phase == ReqVersion) && c != 5 ==> p == Parsed(BadVersion, x, rest))
      && (x.phase == PwVersion && c != 1 ==> p == Parsed(BadVersion, x, rest))
      && (x.phase == ReqCmd && c !in {1, 3} ==> p == Parsed(BadCmd, x, rest))
      && (x.phase == ReqAtyp && c !in {1, 3, 4} ==> p == Parsed(BadAtyp, x.(arg0 := 0), rest))
    ensures Step(x, c).1 in {BadVersion, BadCmd, BadAtyp} <==>
      || ((x.phase == Version || x.phase == ReqVersion) && c != 5) || (x.phase == PwVersion && c != 1)
      || (x.phase == ReqCmd && c !in {1, 3}) || (x.phase == ReqAtyp && c !in {1, 3, 4})
  {
    if Step(x, c).1 != Ok { Stops(x, c, rest); }
  }

  /** After the request every byte is swallowed. */
  lemma {:induction false} DeadSwallows(x: Ctx, data: seq<Byte>)
    requires Valid(x) && x.phase == Dead
    ensures Parse(x, data) == Parsed(Ok, x, [])
    decreases |data|
  {
    if data != [] { DeadSwallows(x, data[1..]); }
  }

  /** s5_select_auth */
  function SelectAuth(x: Ctx, m: Method): (r: (Ctx, bool))
    requires Valid(x)
    ensures Valid(r.0) && (r.1 <==> m != Gssapi) && (!r.1 ==> r.0 == x)
    ensures (m == NoAuth ==> r.0 == x.(phase := ReqVersion)) && (m == Passwd ==> r.0 == x.(phase := PwVersion))
  {
    match m
    case NoAuth => (x.(phase := ReqVersion), true)
    case Passwd => (x.(phase := PwVersion), true)
    case Gssapi => (x, false)
  }

  lemma GreetingFed(ms: seq<Byte>, chunks: seq<seq<Byte>>) returns (x: Ctx)
    requires 0 < |ms| < 256 && Concat(chunks) == Greeting(ms)
    ensures Valid(x) && Feed(Start(), chunks) == Parsed(AuthSelect, x, []) && Offered({}, x.methods, ms)
  {
    FeedIsParse(Start(), chunks);
    assert Greeting(ms) + [] == Greeting(ms);
    x := GreetingParses(Start(), ms, []);
    MethodsOffered({}, ms);
  }

  lemma CredentialsFed(x: Ctx, user: seq<Byte>, pass: seq<Byte>, chunks: seq<seq<Byte>>) returns (x': Ctx)
    requires Valid(x) && x.phase == PwVersion && 0 < |user| < 256 && 0 < |pass| < 256
    requires Concat(chunks) == Credentials(user, pass)
    ensures Valid(x') && Feed(x, chunks) == Parsed(AuthVerify, x', []) && x'.phase == ReqVersion
    ensures Holds(x'.username, user) && Holds(x'.password, pass)
  {
    FeedIsParse(x, chunks);
    assert Credentials(user, pass) + [] == Credentials(user, pass);
    x' := CredentialsParse(x, user, pass, []);
  }

  lemma RequestFed(x: Ctx, q: Request, reserved: Byte, chunks: seq<seq<Byte>>)
    requires Valid(x) && x.phase == ReqVersion && WellFormed(q) && q.addr != [] && Concat(chunks) == Encode(q, reserved)
    ensures var p := Feed(x, chunks); p.err == ExecCmd && p.rest == [] && Carries(p.ctx, q)
  {
    FeedIsParse(x, chunks);
    assert Encode(q, reserved) + [] == Encode(q, reserved);
    RequestDecodes(x, q, reserved, []);
  }

  /** A whole session with a password, in any chunks: every message is recognised at its last byte
      and the context carries what was sent. */
  lemma PasswordSession(ms: seq<Byte>, user: seq<Byte>, pass: seq<Byte>, q: Request, reserved: Byte,
                        c1: seq<seq<Byte>>, c2: seq<seq<Byte>>, c3: seq<seq<Byte>>)
    requires 0 < |ms| < 256 && 0 < |user| < 256 && 0 < |pass| < 256 && WellFormed(q) && q.addr != []
    requires Concat(c1) == Greeting(ms) && Concat(c2) == Credentials(user, pass) && Concat(c3) == Encode(q, reserved)
    ensures exists x1, x2 :: (
      && Valid(x1) && Valid(x2)
      && Feed(Start(), c1) == Parsed(AuthSelect, x1, []) && Offered({}, x1.methods, ms)
      && Feed(SelectAuth(x1, Passwd).0, c2) == Parsed(AuthVerify, x2, [])
      && Holds(x2.username, user) && Holds(x2.password, pass)
      && Feed(x2, c3).err == ExecCmd && Feed(x2, c3).rest == [] && Carries(Feed(x2, c3).ctx, q))
  {
    var x1 := GreetingFed(ms, c1);
    var x2 := CredentialsFed(SelectAuth(x1, Passwd).0, user, pass, c2);
    RequestFed(x2, q, reserved, c3);
  }

  // ----- the parser as an object

  class Parser {
    var arg0: nat
    var arg1: nat
    var phase: Phase
    var methods: set<Method>
    var cmd: Cmd
    var atyp: Atyp
    var userlen: Byte
    var passlen: Byte
    var dport: Word
    const username: array<Byte>
    const password: array<Byte>
    const daddr: array<Byte>

    ghost function Value(): Ctx
      reads this, username, password, daddr
    {
      Ctx(arg0, arg1, phase, methods, cmd, atyp, userlen, passlen, dport, username[..], password[..], daddr[..])
    }

    ghost predicate Ready()
      reads this, username, password, daddr
    {
      && Valid(Value())
      && username != password && username != daddr && password != daddr
    }

    /** s5_init */
    constructor ()
      ensures Ready() && Value() == Start() && fresh(username) && fresh(password) && fresh(daddr)
    {
      arg0, arg1, phase, methods, cmd, atyp := 0, 0, Version, {}, TcpConnect, Ipv4;
      userlen, passlen, dport := 0, 0, Word(0, 0);
      username, password, daddr := new Byte[SIZE](i => 0), new Byte[SIZE](i => 0), new Byte[SIZE](i => 0);
      new;
      ZerosAre(username[..]);
      ZerosAre(password[..]);
      ZerosAre(daddr[..]);
    }

    /** A byte of a counted string. */
    method Keep(buf: array<Byte>, n: nat, c: Byte)
      requires buf.Length == SIZE && arg0 <= n < 256
      modifies this`arg0, buf
      ensures buf[..] == Store(old(buf[..]), old(arg0), n, c) && arg0 == Next(old(arg0), n)
    {
      if arg0 < n {
        buf[arg0] := c;
        arg0 := arg0 + 1;
      }
      if arg0 == n {
        buf[n] := 0;
      }
    }

    /** The body of the loop of s5_parse. */
    method Eat(c: Byte) returns (err: Err)
      requires Ready()
      modifies this, username, password, daddr
      ensures Ready() && (Value(), err) == Step(old(Value()), c)
    {
      match phase
      case Version => err := EatGreeting(c);
      case Nmethods => err := EatGreeting(c);
      case Methods => err := EatGreeting(c);
      case PwVersion => err := EatUser(c);
      case PwUserlen => err := EatUser(c);
      case PwUsername => err := EatUser(c);
      case PwPasslen => err := EatPassword(c);
      case PwPassword => err := EatPassword(c);
      case ReqVersion => err := EatCommand(c);
      case ReqCmd => err := EatCommand(c);
      case ReqReserved => err := EatCommand(c);
      case ReqAtyp => err := EatAtyp(c);
      case ReqAtypHost => err := EatAddress(c);
      case ReqDaddr => err := EatAddress(c);
      case ReqDport0 => err := EatPort(c);
      case ReqDport1 => err := EatPort(c);
      case Dead => err := Ok;
    }

    method EatGreeting(c: Byte) returns (err: Err)
      requires Ready() && (phase.Version? || phase.Nmethods? || phase.Methods?)
      modifies this`arg0, this`arg1, this`methods, this`phase
      ensures Ready() && (Value(), err) == Step(old(Value()), c)
    {
      err := Ok;
      if phase == Version {
        if c != 5 { return BadVersion; }
        phase := Nmethods;
      } else if phase == Nmethods {
        arg0, arg1, phase := 0, c, Methods;
      } else {
        err := EatMethod(c);
      }
    }

    method EatMethod(c: Byte) returns (err: Err)
      requires Ready() && phase.Methods?
      modifies this`arg0, this`methods
      ensures Ready() && (Value(), err) == Step(old(Value()), c)
    {
      if arg0 < arg1 {
        methods := methods + MethodOf(c);
        arg0 := arg0 + 1;
      }
      err := if arg0 == arg1 then AuthSelect else Ok;
    }

    method EatUser(c: Byte) returns (err: Err)
      requires Ready() && (phase.PwVersion? || phase.PwUserlen? || phase.PwUsername?)
      modifies this`arg0, this`userlen, this`phase, username
      ensures Ready() && (Value(), err) == Step(old(Value()), c)
    {
      err := Ok;
      if phase == PwVersion {
        if c != 1 { return BadVersion; }
        phase := PwUserlen;
      } else if phase == PwUserlen {
        arg0, userlen, phase := 0, c, PwUsername;
      } else {
        Keep(username, userlen, c);
        if arg0 == userlen { phase := PwPasslen; }
      }
    }

    method EatPassword(c: Byte) returns (err: Err)
      requires Ready() && (phase.PwPasslen? || phase.PwPassword?)
      modifies this`arg0, this`passlen, this`phase, password
      ensures Ready() && (Value(), err) == Step(old(Value()), c)
    {
      err := Ok;
      if phase == PwPasslen {
        arg0, passlen, phase := 0, c, PwPassword;
      } else {
        Keep(password, passlen, c);
        if arg0 == passlen {
          phase := ReqVersion;
          return AuthVerify;
        }
      }
    }

    method EatCommand(c: Byte) returns (err: Err)
      requires Ready() && (phase.ReqVersion? || phase.ReqCmd? || phase.ReqReserved?)
      modifies this`cmd, this`phase
      ensures Ready() && (Value(), err) == Step(old(Value()), c)
    {
      err := Ok;
      if phase == ReqVersion {
        if c != 5 { return BadVersion; }
        phase := ReqCmd;
      } else if phase == ReqCmd {
        if c == 1 { cmd := TcpConnect; } else if c == 3 { cmd := UdpAssoc; } else { return BadCmd; }
        phase := ReqReserved;
      } else {
        phase := ReqAtyp;
      }
    }

    method EatAddress(c: Byte) returns (err: Err)
      requires Ready() && (phase.ReqAtypHost? || phase.ReqDaddr?)
      modifies this`arg0, this`arg1, this`phase, daddr
      ensures Ready() && (Value(), err) == Step(old(Value()), c)
    {
      err := Ok;
      if phase == ReqAtypHost {
        arg1, phase := c, ReqDaddr;
      } else {
        Keep(daddr, arg1, c);
        if arg0 == arg1 { phase := ReqDport0; }
      }
    }

    method EatPort(c: Byte) returns (err: Err)
      requires Ready() && (phase.ReqDport0? || phase.ReqDport1?)
      modifies this`dport, this`phase
      ensures Ready() && (Value(), err) == Step(old(Value()), c)
    {
      err := Ok;
      if phase == ReqDport0 {
        dport, phase := Word(c, 0), ReqDport1;
      } else {
        dport, phase := Word(dport.hi, c), Dead;
        return ExecCmd;
      }
    }

    method EatAtyp(c: Byte) returns (err: Err)
      requires Ready() && phase == ReqAtyp
      modifies this`arg0, this`arg1, this`atyp, this`phase
      ensures Ready() && (Value(), err) == Step(old(Value()), c)
    {
      arg0, err := 0, Ok;
      if c == 1 {
        phase, atyp, arg1 := ReqDaddr, Ipv4, 4;
      } else if c == 3 {
        phase, atyp, arg1 := ReqAtypHost, Host, 0;
      } else if c == 4 {
        phase, atyp, arg1 := ReqDaddr, Ipv6, 16;
      } else {
        err := BadAtyp;
      }
    }

    /** s5_parse; `i` is the number of bytes consumed. */
    method ParseData(p: seq<Byte>) returns (err: Err, i: nat)
      requires Ready()
      modifies this, username, password, daddr
      ensures Ready() && i <= |p| && Parsed(err, Value(), p[i..]) == Parse(old(Value()), p)
    {
      i, err := 0, Ok;
      assert p[0..] == p;
      while i < |p|
        invariant i <= |p| && Ready() && err == Ok
        invariant Parse(old(Value()), p) == Parse(Value(), p[i..])
      {
        var c := p[i];
        assert p[i..][1..] == p[i + 1..];
        i := i + 1;
        err := Eat(c);
        if err != Ok { return; }
      }
    }

    /** s5_select_auth; false stands for -EINVAL */
    method Select(m: Method) returns (ok: bool)
      requires Ready()
      modifies this`phase
      ensures Ready() && (Value(), ok) == SelectAuth(old(Value()), m)
    {
      ok := true;
      match m
      case NoAuth => phase := ReqVersion;
      case Passwd => phase := PwVersion;
      case Gssapi => ok := false;
    }
  }

  lemma {:induction false} ZerosAre(s: seq<Byte>)
    requires forall i :: 0 <= i < |s| ==> s[i] == 0
    ensures s == Zeros(|s|)
    decreases |s|
  {
    if s != [] {
      var n := |s| - 1;
      ZerosAre(s[..n]);
      assert s == s[..n] + [s[n]];
    }
  }
}
