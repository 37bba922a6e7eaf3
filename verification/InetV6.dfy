/** IPv6 text conversion: inet_ntop6 and inet_pton6 of third/libuv/src/inet.c (text forms of
    section 2.2 of RFC 4291). */
module InetV6 {
  import opened Common

  import opened InetV4

  const LOWER: string := "0123456789abcdef"

  function HexDigit(d: nat): char
    requires d < 16
  {
    LOWER[d]
  }

  /** The digit value found in the lower or else the upper case digits, or -1. */
  function HexValue(c: char): (d: int)
    ensures -1 <= d < 16
  {
    if '0' <= c <= '9' then c as int - '0' as int
    else if 'a' <= c <= 'f' then c as int - 'a' as int + 10
    else if 'A' <= c <= 'F' then c as int - 'A' as int + 10
    else -1
  }

  lemma HexDigitValue(d: nat)
    requires d < 16
    ensures HexValue(HexDigit(d)) == d && HexDigit(d) != ':' && HexDigit(d) != '.'
  {
  }

  /** "%x" */
  function Hex(n: nat): (r: string)
    ensures |r| >= 1
  {
    if n < 16 then [HexDigit(n)] else Hex(n / 16) + [HexDigit(n % 16)]
  }

  // ----- parsing

  function Pair(val: nat): (r: seq<Byte>) { [(val / 256) % 256, val % 256] }

  /** The last part of inet_pton6: a pending group, and the bytes after a `::` move to the end. */
  function End6(out: seq<Byte>, colon: Option<nat>, seen: nat, val: nat): Result<seq<Byte>>
    requires |out| <= 16 && (colon.Some? ==> colon.value <= |out|)
  {
    if seen > 0 && |out| + 2 > 16 then Einval
    else
      var out1 := if seen > 0 then out + Pair(val) else out;
      if colon.Some? then
        if |out1| == 16 then Einval
        else Ok(out1[..colon.value] + Zeros(16 - |out1|) + out1[colon.value..])
      else if |out1| != 16 then Einval
      else Ok(out1)
  }

  function Zeros(n: nat): (r: seq<Byte>)
    ensures |r| == n && forall i :: 0 <= i < n ==> r[i] == 0
  {
    if n == 0 then [] else [0] + Zeros(n - 1)
  }

  /** The loop of inet_pton6 over the remaining text `t`; `tok` is the text from curtok on. */
  function Scan6(t: string, tok: string, out: seq<Byte>, colon: Option<nat>, seen: nat, val: nat): Result<seq<Byte>>
    requires |out| <= 16 && (colon.Some? ==> colon.value <= |out|)
    decreases |t|
  {
    if t == "" then End6(out, colon, seen, val)
    else if HexValue(t[0]) >= 0 then
      if seen + 1 > 4 then Einval
      else Scan6(t[1..], tok, out, colon, seen + 1, val * 16 + HexValue(t[0]))
    else if t[0] == ':' then
      if seen == 0 then
        if colon.Some? then Einval else Scan6(t[1..], t[1..], out, Some(|out|), 0, val)
      else if t[1..] == "" then Einval
      else if |out| + 2 > 16 then Einval
      else Scan6(t[1..], t[1..], out + Pair(val), colon, 0, 0)
    else if t[0] == '.' && |out| + 4 <= 16 then
      match Pton4Of(tok)
      case Ok(a) => AcceptsExactlyPrinted(tok, a); End6(out + a, colon, 0, val)
      case Enospc => Einval
      case Einval => Einval
    else Einval
  }

  /** inet_pton6 as a function of the text. */
  function Pton6Of(text: string): Result<seq<Byte>> {
    if text != "" && text[0] == ':' then
      if |text| < 2 || text[1] != ':' then Einval else Scan6(text[1..], text[1..], [], None, 0, 0)
    else Scan6(text, text, [], None, 0, 0)
  }

  // ----- printing

  function Word(a: seq<Byte>, i: nat): (w: nat)
    requires 2 * i + 1 < |a|
    ensures w < 0x10000
  {
    var high: int, low: int := a[2 * i], a[2 * i + 1];
    256 * high + low
  }

  function Words(a: seq<Byte>): (ws: seq<nat>)
    requires |a| == 16
    ensures |ws| == 8 && forall i :: 0 <= i < 8 ==> ws[i] == Word(a, i)
  {
    seq(8, i requires 0 <= i < 8 => Word(a, i))
  }

  /** Groups joined by colons. */
  function Joined(ws: seq<nat>): string {
    if ws == [] then "" else if |ws| == 1 then Hex(ws[0]) else Hex(ws[0]) + ":" + Joined(ws[1..])
  }

  /** The run of zero groups that is written as `::`. */
  datatype Run = Run(base: nat, len: nat)

  ghost predicate ZeroRun(ws: seq<nat>, base: int, len: int) {
    0 <= base && 0 <= len && base + len <= |ws| && forall i :: base <= i < base + len ==> ws[i] == 0
  }

  /** Whether the last two groups are written as an IPv4 address. */
  predicate Embedded(ws: seq<nat>, run: Run)
    requires |ws| == 8
  {
    run.base == 0 && (run.len == 6 || (run.len == 7 && ws[7] != 1) || (run.len == 5 && ws[5] == 0xffff))
  }

  /** The text after the double colon. */
  function Tail6(a: seq<Byte>, run: Run): string
    requires |a| == 16 && run.base + run.len <= 8
  {
    var ws, e := Words(a), run.base + run.len;
    if Embedded(ws, run) && e <= 6 then (if e == 5 then "ffff:" else "") + Dotted(a[12..]) else Joined(ws[e..])
  }

  /** The text form of an address whose run `run` of zero groups is shortened. */
  function Text6(a: seq<Byte>, run: Option<Run>): string
    requires |a| == 16 && (run.Some? ==> run.value.base + run.value.len <= 8)
  {
    if run.None? then Joined(Words(a))
    else Joined(Words(a)[..run.value.base]) + "::" + Tail6(a, run.value)
  }

  // ----- what inet_ntop6 prints, inet_pton6 reads back

  lemma {:induction false} HexLength(n: nat)
    requires n < 0x10000
    ensures |Hex(n)| <= (if n < 16 then 1 else if n < 256 then 2 else if n < 4096 then 3 else 4)
    decreases n
  {
    if n >= 16 { HexLength(n / 16); }
  }

  lemma ScansDigit(d: nat, rest: string, tok: string, out: seq<Byte>, colon: Option<nat>, seen: nat, val: nat)
    requires |out| <= 16 && (colon.Some? ==> colon.value <= |out|) && d < 16 && seen < 4
    ensures Scan6([HexDigit(d)] + rest, tok, out, colon, seen, val) ==
      Scan6(rest, tok, out, colon, seen + 1, val * 16 + d)
  {
    HexDigitValue(d);
    assert ([HexDigit(d)] + rest)[1..] == rest;
  }

  lemma HexUnfolds(n: nat, q: nat, r: nat, rest: string)
    requires n == 16 * q + r && r < 16 && q > 0
    ensures Hex(n) + rest == Hex(q) + ([HexDigit(r)] + rest) && |Hex(n)| == |Hex(q)| + 1
  {
    assert n / 16 == q && n % 16 == r;
  }

  lemma {:induction false} ScansHex(n: nat, rest: string, tok: string, out: seq<Byte>, colon: Option<nat>)
    requires |out| <= 16 && (colon.Some? ==> colon.value <= |out|) && |Hex(n)| <= 4
    ensures Scan6(Hex(n) + rest, tok, out, colon, 0, 0) == Scan6(rest, tok, out, colon, |Hex(n)|, n)
    decreases n
  {
    if n < 16 {
      ScansDigit(n, rest, tok, out, colon, 0, 0);
    } else {
      var q, r := n / 16, n % 16;
      var more := [HexDigit(r)] + rest;
      assert n == 16 * q + r;
      calc {
        Scan6(Hex(n) + rest, tok, out, colon, 0, 0);
        { HexUnfolds(n, q, r, rest); }
        Scan6(Hex(q) + more, tok, out, colon, 0, 0);
        { HexUnfolds(n, q, r, rest); ScansHex(q, more, tok, out, colon); }
        Scan6(more, tok, out, colon, |Hex(q)|, q);
        { HexUnfolds(n, q, r, rest); ScansDigit(r, rest, tok, out, colon, |Hex(q)|, q); }
        Scan6(rest, tok, out, colon, |Hex(q)| + 1, q * 16 + r);
        { HexUnfolds(n, q, r, rest); }
        Scan6(rest, tok, out, colon, |Hex(n)|, n);
      }
    }
  }

  /** The bytes of a list of groups. */
  ghost function GroupBytes(ws: seq<nat>): (r: seq<Byte>)
    ensures |r| == 2 * |ws|
  {
    if ws == [] then [] else Pair(ws[0]) + GroupBytes(ws[1..])
  }

  ghost predicate Groups(ws: seq<nat>) {
    forall i :: 0 <= i < |ws| ==> ws[i] < 0x10000
  }

  /** A group followed by a colon and more text. */
  lemma ScansGroup(w: nat, rest: string, tok: string, out: seq<Byte>, colon: Option<nat>)
    requires |out| <= 14 && (colon.Some? ==> colon.value <= |out|) && w < 0x10000 && rest != ""
    ensures Scan6(Hex(w) + ":" + rest, tok, out, colon, 0, 0) == Scan6(rest, rest, out + Pair(w), colon, 0, 0)
  {
    HexLength(w);
    ScansHex(w, ":" + rest, tok, out, colon);
    assert Hex(w) + ":" + rest == Hex(w) + (":" + rest);
    assert (":" + rest)[1..] == rest;
  }

  lemma {:induction false} JoinedNonempty(ws: seq<nat>)
    requires ws != []
    ensures Joined(ws) != ""
  {
    assert |Hex(ws[0])| >= 1;
  }

  lemma ScansLast(w: nat, tok: string, out: seq<Byte>, colon: Option<nat>)
    requires |out| <= 14 && (colon.Some? ==> colon.value <= |out|) && w < 0x10000
    ensures Scan6(Hex(w), tok, out, colon, 0, 0) == End6(out + Pair(w), colon, 0, 0)
  {
    HexLength(w);
    ScansHex(w, "", tok, out, colon);
    assert Hex(w) + "" == Hex(w);
  }

  lemma GroupBytesFirst(ws: seq<nat>, out: seq<Byte>)
    requires ws != []
    ensures out + GroupBytes(ws) == out + Pair(ws[0]) + GroupBytes(ws[1..])
  {
  }

  /** Groups up to the end of the text. */
  lemma {:induction false} ScansGroups(ws: seq<nat>, tok: string, out: seq<Byte>, colon: Option<nat>)
    requires Groups(ws) && |out| + 2 * |ws| <= 16 && (colon.Some? ==> colon.value <= |out|)
    ensures Scan6(Joined(ws), tok, out, colon, 0, 0) == End6(out + GroupBytes(ws), colon, 0, 0)
    decreases |ws|
  {
    if ws == [] {
      assert out + GroupBytes(ws) == out;
    } else {
      var tail, out' := ws[1..], out + Pair(ws[0]);
      GroupBytesFirst(ws, out);
      if tail == [] {
        ScansLast(ws[0], tok, out, colon);
        assert out' + GroupBytes(tail) == out';
      } else {
        JoinedNonempty(tail);
        ScansGroups(tail, Joined(tail), out', colon);
        ScansGroup(ws[0], Joined(tail), tok, out, colon);
      }
    }
  }

  lemma DoubleColon(x: string, rest: string)
    ensures x + "::" + rest == x + ":" + (":" + rest)
  {
  }

  lemma ScansDoubleColon(w: nat, rest: string, tok: string, out: seq<Byte>)
    requires w < 0x10000 && |out| <= 14
    ensures var out' := out + Pair(w);
      Scan6(Hex(w) + "::" + rest, tok, out, None, 0, 0) == Scan6(rest, rest, out', Some(|out'|), 0, 0)
  {
    ScansGroup(w, ":" + rest, tok, out, None);
    DoubleColon(Hex(w), rest);
    assert (":" + rest)[1..] == rest;
  }

  /** Groups followed by the double colon. */
  lemma {:induction false} ScansUpToRun(ws: seq<nat>, rest: string, tok: string, out: seq<Byte>)
    requires Groups(ws) && ws != [] && |out| + 2 * |ws| <= 16
    ensures var out' := out + GroupBytes(ws);
      Scan6(Joined(ws) + "::" + rest, tok, out, None, 0, 0) == Scan6(rest, rest, out', Some(|out'|), 0, 0)
    decreases |ws|
  {
    var tail := ws[1..];
    GroupBytesFirst(ws, out);
    if |ws| == 1 {
      ScansDoubleColon(ws[0], rest, tok, out);
      assert out + Pair(ws[0]) + GroupBytes(tail) == out + Pair(ws[0]);
    } else {
      var more := Joined(tail) + "::" + rest;
      ScansUpToRun(tail, rest, more, out + Pair(ws[0]));
      ScansGroup(ws[0], more, tok, out, None);
      assert Joined(ws) + "::" + rest == Hex(ws[0]) + ":" + more;
    }
  }

  lemma {:induction false} DecimalIsHex(n: nat, rest: string, tok: string, out: seq<Byte>, colon: Option<nat>)
    returns (val: nat)
    requires |out| <= 16 && (colon.Some? ==> colon.value <= |out|) && |Decimal(n)| <= 4
    ensures Scan6(Decimal(n) + rest, tok, out, colon, 0, 0) == Scan6(rest, tok, out, colon, |Decimal(n)|, val)
    decreases n
  {
    var d := [Digit(n % 10)];
    assert HexValue(d[0]) == n % 10;
    assert (d + rest)[1..] == rest;
    if n < 10 {
      assert Decimal(n) + rest == d + rest;
      val := n;
    } else {
      assert Decimal(n) + rest == Decimal(n / 10) + (d + rest);
      var v := DecimalIsHex(n / 10, d + rest, tok, out, colon);
      val := v * 16 + n % 10;
    }
  }

  /** A dotted address at the end of the text. */
  lemma ScansDotted(b: seq<Byte>, out: seq<Byte>, colon: Option<nat>)
    requires |b| == 4 && |out| <= 12 && (colon.Some? ==> colon.value <= |out|)
    ensures Scan6(Dotted(b), Dotted(b), out, colon, 0, 0) == End6(out + b, colon, 0, 0)
  {
    var rest := "." + Decimal(b[1]) + "." + Decimal(b[2]) + "." + Decimal(b[3]);
    assert Dotted(b) == Decimal(b[0]) + rest;
    DecimalLength(b[0]);
    var val := DecimalIsHex(b[0], rest, Dotted(b), out, colon);
    assert rest[0] == '.';
    AcceptsExactlyPrinted(Dotted(b), b);
  }

  lemma PairOfWord(a: seq<Byte>, i: nat)
    requires 2 * i + 1 < |a|
    ensures Pair(Word(a, i)) == [a[2 * i], a[2 * i + 1]]
  {
  }

  lemma {:induction false} GroupBytesSlice(a: seq<Byte>, i: nat, j: nat)
    requires |a| == 16 && i <= j <= 8
    ensures GroupBytes(Words(a)[i..j]) == a[2 * i..2 * j]
    decreases j - i
  {
    if i < j {
      GroupBytesSlice(a, i + 1, j);
      PairOfWord(a, i);
      assert Words(a)[i..j][1..] == Words(a)[i + 1..j];
    }
  }

  lemma RunBytesZero(a: seq<Byte>, b: nat, e: nat)
    requires |a| == 16 && b <= e <= 8 && ZeroRun(Words(a), b, e - b)
    ensures a == a[..2 * b] + Zeros(2 * (e - b)) + a[2 * e..]
  {
    forall k | 2 * b <= k < 2 * e
      ensures a[k] == 0
    {
      assert Words(a)[k / 2] == Word(a, k / 2);
    }
  }

  /** The bytes around the double colon come out at both ends, with zeros between. */
  lemma Completed(a: seq<Byte>, b: nat, e: nat)
    requires |a| == 16 && b < e <= 8 && ZeroRun(Words(a), b, e - b)
    ensures End6(a[..2 * b] + a[2 * e..], Some(2 * b), 0, 0) == Ok(a)
  {
    RunBytesZero(a, b, e);
    var out := a[..2 * b] + a[2 * e..];
    assert out[..2 * b] == a[..2 * b] && out[2 * b..] == a[2 * e..];
  }

  lemma MappedScans(a: seq<Byte>, out: seq<Byte>, colon: Option<nat>, tok: string)
    requires |a| == 16 && out == [] && colon == Some(0) && Word(a, 5) == 0xffff && tok == "ffff:" + Dotted(a[12..])
    ensures Scan6(tok, tok, out, colon, 0, 0) == End6(a[10..], colon, 0, 0)
  {
    HexFfff();
    PairOfWord(a, 5);
    var b := a[12..];
    assert "ffff:" == "ffff" + ":";
    ScansGroup(0xffff, Dotted(b), tok, out, colon);
    ScansDotted(b, out + Pair(0xffff), colon);
    assert out + Pair(0xffff) + b == a[10..];
  }

  lemma HexFfff()
    ensures Hex(0xffff) == "ffff"
  {
    assert HexDigit(15) == 'f';
    assert Hex(0xf) == "f";
    assert Hex(0xff) == Hex(0xf) + "f" == "ff";
    assert Hex(0xfff) == Hex(0xff) + "f" == "fff";
    assert Hex(0xffff) == Hex(0xfff) + "f";
  }

  lemma HexTailScans(a: seq<Byte>, e: nat, out: seq<Byte>, tok: string)
    requires |a| == 16 && e <= 8 && |out| + 2 * (8 - e) <= 16 && tok == Joined(Words(a)[e..])
    ensures Scan6(tok, tok, out, Some(|out|), 0, 0) == End6(out + a[2 * e..], Some(|out|), 0, 0)
  {
    var ws := Words(a);
    GroupBytesSlice(a, e, 8);
    assert ws[e..] == ws[e..8] && a[2 * e..] == a[2 * e..16];
    ScansGroups(ws[e..], tok, out, Some(|out|));
  }

  lemma TailScans(a: seq<Byte>, run: Run, out: seq<Byte>, tok: string)
    requires |a| == 16 && run.len > 0 && run.base + run.len <= 8 && out == a[..2 * run.base]
    requires tok == Tail6(a, run)
    ensures Scan6(tok, tok, out, Some(|out|), 0, 0) ==
      End6(out + a[2 * (run.base + run.len)..], Some(|out|), 0, 0)
  {
    var ws, e := Words(a), run.base + run.len;
    if Embedded(ws, run) && e <= 6 {
      assert out == [];
      if e == 5 {
        MappedScans(a, out, Some(0), tok);
        assert out + a[10..] == a[10..];
      } else {
        assert tok == Dotted(a[12..]);
        ScansDotted(a[12..], out, Some(0));
      }
    } else {
      HexTailScans(a, e, out, tok);
    }
  }

  /** A text form with a shortened run, up to the end of the run. */
  lemma RunScans(a: seq<Byte>, run: Run, tail: string)
    requires |a| == 16 && run.base + run.len <= 8
    ensures var out := a[..2 * run.base];
      Pton6Of(Joined(Words(a)[..run.base]) + "::" + tail) == Scan6(tail, tail, out, Some(|out|), 0, 0)
  {
    var ws, b := Words(a), run.base;
    var first := Joined(ws[..b]);
    var text := first + "::" + tail;
    if b == 0 {
      assert first == "" && text[1..] == ":" + tail && (":" + tail)[1..] == tail && a[..0] == [];
    } else {
      GroupBytesSlice(a, 0, b);
      assert ws[..b] == ws[0..b];
      HexStart(ws[0]);
      assert text[0] == first[0] == Hex(ws[..b][0])[0];
      ScansUpToRun(ws[..b], tail, text, []);
      assert [] + GroupBytes(ws[..b]) == a[..2 * b];
    }
  }

  lemma PlainParses(a: seq<Byte>)
    requires |a| == 16
    ensures Pton6Of(Joined(Words(a))) == Ok(a)
  {
    var ws := Words(a);
    ScansGroups(ws, Joined(ws), [], None);
    GroupBytesSlice(a, 0, 8);
    assert ws[0..8] == ws && a[0..16] == a && [] + a == a;
    HexStart(ws[0]);
    assert Joined(ws)[0] == Hex(ws[0])[0];
  }

  /** inet_pton6 inverts every text form that shortens some run of zero groups, or none. */
  lemma Text6Parses(a: seq<Byte>, run: Option<Run>)
    requires |a| == 16
    requires run.Some? ==> run.value.len > 0 && ZeroRun(Words(a), run.value.base, run.value.len)
    ensures Pton6Of(Text6(a, run)) == Ok(a)
  {
    if run.None? {
      PlainParses(a);
    } else {
      var b, e := run.value.base, run.value.base + run.value.len;
      var tail := Tail6(a, run.value);
      RunScans(a, run.value, tail);
      TailScans(a, run.value, a[..2 * b], tail);
      Completed(a, b, e);
    }
  }

  lemma {:induction false} HexStart(n: nat)
    ensures Hex(n)[0] != ':'
    decreases n
  {
    if n < 16 { HexDigitValue(n); } else { HexStart(n / 16); }
  }

  // ----- inet_ntop6

  /** The run that is shortened: the first of the longest runs of at least two zero groups. */
  ghost predicate BestRun(ws: seq<nat>, run: Option<Run>) {
    match run
    case None => forall b, l :: ZeroRun(ws, b, l) ==> l < 2
    case Some(best) =>
      && best.len >= 2 && ZeroRun(ws, best.base, best.len)
      && forall b, l :: ZeroRun(ws, b, l) ==> l < best.len || (l == best.len && best.base <= b)
  }

  /** Whether `best` is at least as good as the run at `b`; a base of -1 is no run. */
  ghost predicate Covers(base: int, len: int, b: int, l: int) {
    base != -1 && (l < len || (l == len && base <= b))
  }

  /** Every non-empty zero run in the first `i` groups lies in the current run or is covered. */
  ghost predicate Searched(ws: seq<nat>, i: int, base: int, len: int, curBase: int) {
    forall b, l :: ZeroRun(ws, b, l) && l > 0 && b + l <= i ==>
      (curBase != -1 && b >= curBase) || Covers(base, len, b, l)
  }

  ghost predicate CurrentRun(ws: seq<nat>, i: int, base: int, len: int) {
    if base == -1 then i == 0 || (0 < i <= |ws| && ws[i - 1] != 0)
    else ZeroRun(ws, base, len) && len > 0 && base + len == i && (base > 0 ==> ws[base - 1] != 0)
  }

  lemma SearchedOn(ws: seq<nat>, i: int, base: int, len: int, curBase: int, curLen: int)
    requires 0 <= i < |ws| && ws[i] == 0
    requires Searched(ws, i, base, len, curBase) && CurrentRun(ws, i, curBase, curLen)
    ensures var cb, cl := if curBase == -1 then i else curBase, if curBase == -1 then 1 else curLen + 1;
      Searched(ws, i + 1, base, len, cb) && CurrentRun(ws, i + 1, cb, cl)
  {
  }

  lemma SearchedOff(ws: seq<nat>, i: int, base: int, len: int, curBase: int, curLen: int)
    requires 0 <= i <= |ws| && (base == -1 || ZeroRun(ws, base, len)) && (curBase == -1 || base <= curBase)
    requires Searched(ws, i, base, len, curBase) && CurrentRun(ws, i, curBase, curLen)
    ensures var take := curBase != -1 && (base == -1 || curLen > len);
      Searched(ws, i, if take then curBase else base, if take then curLen else len, -1)
  {
  }

  /** The first loop of inet_ntop6: the bytes as groups. */
  method FillWords(src: seq<Byte>, words: array<nat>)
    requires |src| == 16 && words.Length == 8
    modifies words
    ensures words[..] == Words(src)
  {
    for i := 0 to 8
      invariant forall k :: 0 <= k < i ==> words[k] == 0
    {
      words[i] := 0;
    }
    for i := 0 to 16
      invariant forall k :: 0 <= k < i / 2 ==> words[k] == Word(src, k)
      invariant forall k :: (i + 1) / 2 <= k < 8 ==> words[k] == 0
      invariant i % 2 == 1 ==> words[i / 2] == 256 * src[i - 1] as int
    {
      words[i / 2] := words[i / 2] + src[i] as int * (if i % 2 == 0 then 256 else 1);
    }
  }

  /** The second loop of inet_ntop6. */
  method FindRun(words: array<nat>) returns (run: Option<Run>)
    requires words.Length == 8
    ensures BestRun(words[..], run)
  {
    ghost var ws := words[..];
    var best, bestLen, cur, curLen := -1, 0, -1, 0;
    for i := 0 to 8
      invariant Searched(ws, i, best, bestLen, cur) && CurrentRun(ws, i, cur, curLen)
      invariant best == -1 || (ZeroRun(ws, best, bestLen) && bestLen > 0)
      invariant best < i && (cur == -1 || best <= cur)
    {
      if words[i] == 0 {
        SearchedOn(ws, i, best, bestLen, cur, curLen);
        if cur == -1 { cur, curLen := i, 1; } else { curLen := curLen + 1; }
      } else {
        SearchedOff(ws, i, best, bestLen, cur, curLen);
        if cur != -1 {
          if best == -1 || curLen > bestLen { best, bestLen := cur, curLen; }
          cur := -1;
        }
      }
    }
    SearchedOff(ws, 8, best, bestLen, cur, curLen);
    if cur != -1 && (best == -1 || curLen > bestLen) { best, bestLen := cur, curLen; }
    if best != -1 && bestLen < 2 { best := -1; }
    run := if best == -1 then None else Some(Run(best, bestLen));
  }

  /** The text after the first `i` groups. */
  ghost function Prefix6(ws: seq<nat>, run: Option<Run>, i: nat): string
    requires i <= |ws| && (run.Some? ==> run.value.base + run.value.len <= |ws|)
  {
    if run.None? || i <= run.value.base then Joined(ws[..i])
    else if i <= run.value.base + run.value.len then Joined(ws[..run.value.base]) + ":"
    else Joined(ws[..run.value.base]) + "::" + Joined(ws[run.value.base + run.value.len..i])
  }

  lemma {:induction false} JoinedAppend(ws: seq<nat>, w: nat)
    ensures Joined(ws + [w]) == Joined(ws) + (if ws == [] then "" else ":") + Hex(w)
    decreases |ws|
  {
    if ws == [] {
      assert ws + [w] == [w];
      assert Joined([w]) == Hex(w);
    } else {
      JoinedAppend(ws[1..], w);
      assert (ws + [w])[1..] == ws[1..] + [w];
      if |ws| == 1 { assert ws[1..] == []; }
    }
  }

  lemma PrefixBefore(ws: seq<nat>, i: nat)
    requires i < |ws|
    ensures Joined(ws[..i + 1]) == Joined(ws[..i]) + (if i != 0 then ":" else "") + Hex(ws[i])
  {
    JoinedAppend(ws[..i], ws[i]);
    assert ws[..i + 1] == ws[..i] + [ws[i]];
  }

  lemma PrefixAfter(ws: seq<nat>, e: nat, i: nat, first: string)
    requires e <= i < |ws|
    ensures first + "::" + Joined(ws[e..i + 1]) ==
      (if i == e then first + ":" else first + "::" + Joined(ws[e..i])) + ":" + Hex(ws[i])
  {
    JoinedAppend(ws[e..i], ws[i]);
    assert ws[e..i + 1] == ws[e..i] + [ws[i]];
  }

  lemma PrefixGroup(ws: seq<nat>, run: Option<Run>, i: nat)
    requires i < |ws| && (run.Some? ==> run.value.base + run.value.len <= |ws| && run.value.len > 0)
    requires run.Some? ==> i < run.value.base || run.value.base + run.value.len <= i
    ensures Prefix6(ws, run, i + 1) == Prefix6(ws, run, i) + (if i != 0 then ":" else "") + Hex(ws[i])
  {
    if run.None? || i < run.value.base {
      PrefixBefore(ws, i);
    } else {
      PrefixAfter(ws, run.value.base + run.value.len, i, Joined(ws[..run.value.base]));
    }
  }

  lemma PrefixEnds(a: seq<Byte>, run: Option<Run>)
    requires |a| == 16 && (run.Some? ==> run.value.base + run.value.len <= 8 && run.value.len > 0)
    requires run.Some? ==> !(Embedded(Words(a), run.value) && run.value.base + run.value.len <= 6)
    ensures Text6(a, run) == Prefix6(Words(a), run, 8) +
      (if run.Some? && run.value.base + run.value.len == 8 then ":" else "")
  {
    var ws := Words(a);
    assert ws[..8] == ws;
    if run.Some? {
      var e := run.value.base + run.value.len;
      assert ws[e..8] == ws[e..];
      if e == 8 { assert Joined(ws[8..]) == ""; }
    }
  }

  lemma PrefixEmbeds(a: seq<Byte>, run: Run)
    requires |a| == 16 && run.base + run.len <= 6 && Embedded(Words(a), run)
    ensures Text6(a, Some(run)) == Prefix6(Words(a), Some(run), 6) + ":" + Dotted(a[12..])
    ensures |Prefix6(Words(a), Some(run), 6)| <= 6
  {
    var ws := Words(a);
    assert Joined(ws[..0]) == "";
    if run.len == 5 {
      HexFfff();
      assert ws[5..6] == [0xffff];
    }
  }

  const ADDRSTRLEN: nat := 46

  /** The third loop of inet_ntop6; the text and its terminator fit the buffer. */
  method Format(src: seq<Byte>, words: array<nat>, run: Option<Run>) returns (tmp: string)
    requires |src| == 16 && words.Length == 8 && words[..] == Words(src)
    requires run.Some? ==> run.value.len > 0 && run.value.base + run.value.len <= 8
    ensures tmp == Text6(src, run) && |tmp| + 1 <= ADDRSTRLEN
  {
    ghost var ws := Words(src);
    tmp := "";
    for i := 0 to 8
      invariant tmp == Prefix6(ws, run, i) && |tmp| <= 5 * i
      invariant i > 6 && run.Some? ==> !(Embedded(ws, run.value) && run.value.base + run.value.len <= 6)
    {
      if run.Some? && run.value.base <= i < run.value.base + run.value.len {
        if i == run.value.base { tmp := tmp + ":"; }
      } else {
        PrefixGroup(ws, run, i);
        HexLength(words[i]);
        if i != 0 { tmp := tmp + ":"; }
        if i == 6 && run.Some? && Embedded(words[..], run.value) {
          PrefixEmbeds(src, run.value);
          DottedLength(src[12..]);
          var four := Ntop4(src[12..], ADDRSTRLEN - |tmp|);
          return tmp + four.value;
        }
        tmp := tmp + Hex(words[i]);
      }
    }
    PrefixEnds(src, run);
    if run.Some? && run.value.base + run.value.len == 8 { tmp := tmp + ":"; }
  }

  /** inet_ntop6: UV_ENOSPC exactly when the text and its terminator do not fit. */
  method Ntop6(src: seq<Byte>, size: nat) returns (r: Result<string>, ghost run: Option<Run>)
    requires |src| == 16
    ensures BestRun(Words(src), run)
    ensures r == if |Text6(src, run)| + 1 > size then Enospc else Ok(Text6(src, run))
    ensures r.Ok? ==> Pton6Of(r.value) == Ok(src)
  {
    var words := new nat[8];
    FillWords(src, words);
    var best := FindRun(words);
    var tmp := Format(src, words, best);
    run := best;
    Text6Parses(src, run);
    if |tmp| + 1 > size { return Enospc, run; }
    return Ok(tmp), run;
  }

  // ----- inet_pton6

  /** The shift at the end of inet_pton6: the bytes from `colon` to `tp` move to the end. */
  method ShiftUp(tmp: array<Byte>, colon: nat, tp: nat)
    requires tmp.Length == 16 && colon <= tp < 16
    requires forall k :: tp <= k < 16 ==> tmp[k] == 0
    modifies tmp
    ensures tmp[..] == old(tmp[..colon]) + Zeros(16 - tp) + old(tmp[colon..tp])
  {
    var n, i := tp - colon, 1;
    while i <= n
      invariant 1 <= i <= n + 1
      invariant forall k :: 0 <= k < tp - (i - 1) ==> tmp[k] == old(tmp[k])
      invariant forall k :: tp - (i - 1) <= k < 16 - (i - 1) ==> tmp[k] == 0
      invariant forall k :: 16 - (i - 1) <= k < 16 ==> tmp[k] == old(tmp[k - (16 - tp)])
    {
      tmp[16 - i] := tmp[colon + (n - i)];
      tmp[colon + (n - i)] := 0;
      i := i + 1;
    }
  }

  /** The last pending group, if there is room for it. */
  method StoreGroup(tmp: array<Byte>, tp: nat, val: nat)
    requires tmp.Length == 16 && tp + 2 <= 16 && forall k :: tp <= k < 16 ==> tmp[k] == 0
    modifies tmp
    ensures tmp[..tp + 2] == old(tmp[..tp]) + Pair(val) && forall k :: tp + 2 <= k < 16 ==> tmp[k] == 0
  {
    tmp[tp], tmp[tp + 1] := Pair(val)[0], Pair(val)[1];
  }

  /** What follows the loop of inet_pton6. */
  method Finish6(tmp: array<Byte>, tp0: nat, colon: Option<nat>, seen: nat, val: nat) returns (r: Result<seq<Byte>>)
    requires tmp.Length == 16 && tp0 <= 16 && (colon.Some? ==> colon.value <= tp0)
    requires forall k :: tp0 <= k < 16 ==> tmp[k] == 0
    modifies tmp
    ensures r == End6(old(tmp[..tp0]), colon, seen, val)
  {
    var tp := tp0;
    if seen > 0 {
      if tp + 2 > 16 { return Einval; }
      StoreGroup(tmp, tp, val);
      tp := tp + 2;
    }
    ghost var out := tmp[..tp];
    if colon.Some? {
      if tp == 16 { return Einval; }
      assert out[..colon.value] == tmp[..colon.value] && out[colon.value..] == tmp[colon.value..tp];
      ShiftUp(tmp, colon.value, tp);
      return Ok(tmp[..]);
    }
    if tp != 16 { return Einval; }
    assert tmp[..16] == tmp[..];
    return Ok(tmp[..]);
  }

  /** inet_pton6 */
  method Pton6(text: string) returns (r: Result<seq<Byte>>)
    ensures r == Pton6Of(text)
  {
    var tmp := new Byte[16](i => 0);
    var src: nat, tp: nat, colon: Option<nat>, seen: nat, val: nat := 0, 0, None, 0, 0;
    if text != "" && text[0] == ':' {
      src := 1;
      if |text| < 2 || text[1] != ':' { return Einval; }
    }
    var curtok := src;
    assert text[0..] == text && tmp[..0] == [];
    while src < |text|
      invariant curtok <= src <= |text| && tp <= 16 && (colon.Some? ==> colon.value <= tp)
      invariant forall k :: tp <= k < 16 ==> tmp[k] == 0
      invariant Pton6Of(text) == Scan6(text[src..], text[curtok..], tmp[..tp], colon, seen, val)
    {
      var ch := text[src];
      assert text[src..][1..] == text[src + 1..];
      src := src + 1;
      var d := HexValue(ch);
      if d >= 0 {
        val := val * 16 + d;
        seen := seen + 1;
        if seen > 4 { return Einval; }
        continue;
      }
      if ch == ':' {
        curtok := src;
        if seen == 0 {
          if colon.Some? { return Einval; }
          colon := Some(tp);
          continue;
        } else if src == |text| {
          return Einval;
        }
        if tp + 2 > 16 { return Einval; }
        StoreGroup(tmp, tp, val);
        tp := tp + 2;
        seen, val := 0, 0;
        continue;
      }
      if ch == '.' && tp + 4 <= 16 {
        var four := Pton4(text[curtok..]);
        if four.Ok? {
          AcceptsExactlyPrinted(text[curtok..], four.value);
          ghost var out := tmp[..tp];
          Store4(tmp, tp, four.value);
          tp := tp + 4;
          assert tmp[..tp] == out + four.value;
          r := Finish6(tmp, tp, colon, 0, val);
          return;
        }
      }
      return Einval;
    }
    assert text[src..] == "";
    r := Finish6(tmp, tp, colon, seen, val);
  }

  method Store4(tmp: array<Byte>, tp: nat, four: seq<Byte>)
    requires tp + 4 <= tmp.Length && |four| == 4
    modifies tmp
    ensures tmp[..] == old(tmp[..tp]) + four + old(tmp[tp + 4..])
  {
    for i := 0 to 4
      invariant tmp[..] == old(tmp[..tp]) + four[..i] + old(tmp[tp + i..])
    {
      tmp[tp + i] := four[i];
    }
  }
}
