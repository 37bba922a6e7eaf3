/** Which texts inet_pton6 of third/libuv/src/inet.c accepts, and what they mean: the text forms of
    section 2.2 of RFC 4291, written down without the scanner. */
module InetForms {
  import opened Common

  import opened InetV4
  import opened InetV6

  /** A group of hexadecimal digits, or an IPv4 address in dotted form. */
  datatype Piece = Group(digits: string) | Quad(bytes: seq<Byte>)

  /** The pieces before and after the double colon, or all of them if there is none. */
  datatype Form = Form(left: seq<Piece>, right: Option<seq<Piece>>)

  ghost predicate Spelled(d: bool) { d }

  /** The digits in either case; the position of a character is its value.  The trigger keeps other
      proofs from looking at the characters. */
  ghost predicate Shows(c: char, i: nat) {
    i < 16 && forall d {:trigger Spelled(d)} :: Spelled(d) ==> "0123456789abcdef"[i] == c || "0123456789ABCDEF"[i] == c
  }

  ghost predicate IsDigit(c: char) { exists i: nat :: Shows(c, i) }

  ghost function DigitOf(c: char): nat
    requires IsDigit(c)
  {
    var i: nat :| Shows(c, i);
    i
  }

  /** The scanner finds the position of a digit of either case, and of no other character. */
  lemma HexValueExactly(c: char)
    ensures forall i: nat :: Shows(c, i) <==> HexValue(c) == i
    ensures if IsDigit(c) then HexValue(c) == DigitOf(c) else HexValue(c) == -1
  {
    forall i: nat ensures Shows(c, i) <==> HexValue(c) == i { ShowsValue(c, i); }
    if HexValue(c) >= 0 { assert Shows(c, HexValue(c)); }
  }

  lemma ShowsValue(c: char, i: nat)
    ensures Shows(c, i) <==> HexValue(c) == i
  {
    assert Spelled(true);
  }

  ghost predicate AllHex(g: string) { forall i :: 0 <= i < |g| ==> IsDigit(g[i]) }

  ghost function Number(g: string): nat
    requires AllHex(g)
  {
    if g == "" then 0 else 16 * Number(g[..|g| - 1]) + DigitOf(g[|g| - 1])
  }

  ghost predicate IsGroup(p: Piece) { p.Group? && 1 <= |p.digits| <= 4 && AllHex(p.digits) }

  ghost predicate IsQuad(p: Piece) { p.Quad? && |p.bytes| == 4 }

  ghost predicate Groups(ps: seq<Piece>) { forall i :: 0 <= i < |ps| ==> IsGroup(ps[i]) }

  /** Groups, the last of which may be an IPv4 address. */
  ghost predicate Pieces(ps: seq<Piece>) {
    ps == [] || (Groups(ps[..|ps| - 1]) && (IsGroup(ps[|ps| - 1]) || IsQuad(ps[|ps| - 1])))
  }

  ghost function Text(p: Piece): string
    requires IsGroup(p) || IsQuad(p)
  {
    if p.Group? then p.digits else Dotted(p.bytes)
  }

  ghost function Bytes(p: Piece): (r: seq<Byte>)
    requires IsGroup(p) || IsQuad(p)
    ensures |r| >= 2
  {
    if p.Quad? then p.bytes
    else
      var v := Number(p.digits);
      [v / 256 % 256, v % 256]
  }

  ghost function Colons(ps: seq<Piece>): string
    requires Pieces(ps)
  {
    if ps == [] then ""
    else if |ps| == 1 then Text(ps[0])
    else Tails(ps); Text(ps[0]) + ":" + Colons(ps[1..])
  }

  ghost function AllBytes(ps: seq<Piece>): seq<Byte>
    requires Pieces(ps)
  {
    if ps == [] then [] else Tails(ps); Bytes(ps[0]) + AllBytes(ps[1..])
  }

  lemma Tails(ps: seq<Piece>)
    requires Pieces(ps) && ps != []
    ensures Pieces(ps[1..]) && (IsGroup(ps[0]) || IsQuad(ps[0])) && (|ps| > 1 ==> IsGroup(ps[0]))
  {
    if |ps| > 1 { assert ps[..|ps| - 1][0] == ps[0] && ps[1..][..|ps| - 2] == ps[..|ps| - 1][1..]; }
  }

  lemma HeadPieces(p: Piece, ps: seq<Piece>)
    requires IsGroup(p) && Pieces(ps)
    ensures Pieces([p] + ps) && ([p] + ps)[1..] == ps
  {
    var all := [p] + ps;
    if ps != [] { assert all[..|all| - 1] == [p] + ps[..|ps| - 1] && all[|all| - 1] == ps[|ps| - 1]; }
  }

  lemma Heads(p: Piece, ps: seq<Piece>)
    requires IsGroup(p) && Pieces(ps)
    ensures Pieces([p] + ps) && AllBytes([p] + ps) == Pair(Number(p.digits)) + AllBytes(ps)
    ensures Colons([p] + ps) == if ps == [] then p.digits else p.digits + ":" + Colons(ps)
  {
    HeadPieces(p, ps);
  }

  /** Eight groups' worth of bytes without a double colon, and less with one. */
  ghost predicate Legal(f: Form) {
    match f.right
    case None => Pieces(f.left) && |AllBytes(f.left)| == 16
    case Some(right) =>
      Pieces(f.left) && Groups(f.left) && Pieces(right) && |AllBytes(f.left)| + |AllBytes(right)| < 16
  }

  ghost function Written(f: Form): string
    requires Legal(f)
  {
    match f.right
    case None => Colons(f.left)
    case Some(right) => Colons(f.left) + "::" + Colons(right)
  }

  ghost function Meaning(f: Form): seq<Byte>
    requires Legal(f)
  {
    match f.right
    case None => AllBytes(f.left)
    case Some(right) =>
      var a, b := AllBytes(f.left), AllBytes(right);
      a + Zeros(16 - |a| - |b|) + b
  }

  // ----- what is written in one of the forms is read

  lemma ScansDigit(c: char, r: string, tok: string, out: seq<Byte>, colon: Option<nat>, seen: nat, val: nat)
    requires |out| <= 16 && (colon.Some? ==> colon.value <= |out|) && IsDigit(c) && seen < 4
    ensures Scan6([c] + r, tok, out, colon, seen, val) == Scan6(r, tok, out, colon, seen + 1, 16 * val + DigitOf(c))
  {
    HexValueExactly(c);
    assert ([c] + r)[1..] == r;
  }

  lemma {:induction false} ScansDigits(g: string, r: string, tok: string, out: seq<Byte>, colon: Option<nat>)
    requires |out| <= 16 && (colon.Some? ==> colon.value <= |out|) && AllHex(g) && |g| <= 4
    ensures Scan6(g + r, tok, out, colon, 0, 0) == Scan6(r, tok, out, colon, |g|, Number(g))
    decreases |g|
  {
    if g == "" {
      assert g + r == r;
    } else {
      var init, last := g[..|g| - 1], g[|g| - 1];
      calc {
        Scan6(g + r, tok, out, colon, 0, 0);
        { assert g + r == init + ([last] + r); }
        Scan6(init + ([last] + r), tok, out, colon, 0, 0);
        { ScansDigits(init, [last] + r, tok, out, colon); }
        Scan6([last] + r, tok, out, colon, |init|, Number(init));
        { ScansDigit(last, r, tok, out, colon, |init|, Number(init)); }
        Scan6(r, tok, out, colon, |g|, Number(g));
      }
    }
  }

  lemma ScansPiece(p: Piece, rest: string, out: seq<Byte>, colon: Option<nat>)
    requires |out| <= 14 && (colon.Some? ==> colon.value <= |out|) && IsGroup(p) && rest != ""
    ensures var tok := p.digits + ":" + rest;
      Scan6(tok, tok, out, colon, 0, 0) == Scan6(rest, rest, out + Pair(Number(p.digits)), colon, 0, 0)
  {
    var tok := p.digits + ":" + rest;
    assert tok == p.digits + (":" + rest) && (":" + rest)[1..] == rest;
    ScansDigits(p.digits, ":" + rest, tok, out, colon);
  }

  /** A pending group at the end of the text. */
  lemma Ending(out: seq<Byte>, colon: Option<nat>, seen: nat, val: nat)
    requires |out| + 2 <= 16 && (colon.Some? ==> colon.value <= |out|) && seen > 0
    ensures End6(out, colon, seen, val) == End6(out + Pair(val), colon, 0, 0)
  {
  }

  lemma ScansGroup(p: Piece, out: seq<Byte>, colon: Option<nat>)
    requires |out| <= 14 && (colon.Some? ==> colon.value <= |out|) && IsGroup(p)
    ensures Scan6(p.digits, p.digits, out, colon, 0, 0) == End6(out, colon, |p.digits|, Number(p.digits))
  {
    ScansDigits(p.digits, "", p.digits, out, colon);
    assert p.digits + "" == p.digits;
  }

  lemma ScansOne(p: Piece, out: seq<Byte>, colon: Option<nat>)
    requires IsGroup(p) || IsQuad(p)
    requires |out| + |Bytes(p)| <= 16 && (colon.Some? ==> colon.value <= |out|)
    ensures Scan6(Text(p), Text(p), out, colon, 0, 0) == End6(out + Bytes(p), colon, 0, 0)
  {
    if p.Quad? {
      ScansDotted(p.bytes, out, colon);
    } else {
      ScansGroup(p, out, colon);
      Ending(out, colon, |p.digits|, Number(p.digits));
    }
  }

  lemma {:induction false} ColonsNonempty(ps: seq<Piece>)
    requires Pieces(ps) && ps != []
    ensures Colons(ps) != ""
  {
    Tails(ps);
    if ps[0].Quad? { assert |Dotted(ps[0].bytes)| >= 3; }
  }

  lemma {:induction false} ScansPieces(ps: seq<Piece>, out: seq<Byte>, colon: Option<nat>)
    requires Pieces(ps) && |out| + |AllBytes(ps)| <= 16 && (colon.Some? ==> colon.value <= |out|)
    ensures Scan6(Colons(ps), Colons(ps), out, colon, 0, 0) == End6(out + AllBytes(ps), colon, 0, 0)
    decreases |ps|
  {
    if ps == [] {
      assert out + AllBytes(ps) == out;
    } else {
      Tails(ps);
      var p, rest := ps[0], ps[1..];
      assert out + AllBytes(ps) == out + Bytes(p) + AllBytes(rest);
      if rest == [] {
        ScansOne(p, out, colon);
        assert out + Bytes(p) + AllBytes(rest) == out + Bytes(p);
      } else {
        ColonsNonempty(rest);
        ScansPiece(p, Colons(rest), out, colon);
        ScansPieces(rest, out + Bytes(p), colon);
      }
    }
  }

  lemma Regrouped(d: string, l: string, r: string)
    ensures d + ":" + l + "::" + r == d + ":" + (l + "::" + r)
  {
  }

  lemma {:induction false} ScansLeft(ps: seq<Piece>, rest: string, out: seq<Byte>)
    requires Pieces(ps) && Groups(ps) && ps != [] && |out| + |AllBytes(ps)| <= 16
    ensures var tok, out' := Colons(ps) + "::" + rest, out + AllBytes(ps);
      Scan6(tok, tok, out, None, 0, 0) == Scan6(rest, rest, out', Some(|out'|), 0, 0)
    decreases |ps|
  {
    Tails(ps);
    var p, later, out1 := ps[0], ps[1..], out + Bytes(ps[0]);
    assert out + AllBytes(ps) == out1 + AllBytes(later);
    if later == [] {
      DoubleColon(p.digits, rest);
      assert Colons(ps) == p.digits && (":" + rest)[1..] == rest;
      ScansPiece(p, ":" + rest, out, None);
      assert out1 + AllBytes(later) == out1;
    } else {
      var more := Colons(later) + "::" + rest;
      Regrouped(p.digits, Colons(later), rest);
      ScansPiece(p, more, out, None);
      ScansLeft(later, rest, out1);
    }
  }

  lemma ColonsStart(ps: seq<Piece>)
    requires Pieces(ps) && ps != []
    ensures Colons(ps) != "" && Colons(ps)[0] != ':'
  {
    Tails(ps);
    ColonsNonempty(ps);
    if ps[0].Quad? { DecimalStart(ps[0].bytes[0]); } else { HexValueExactly(ps[0].digits[0]); }
  }

  lemma {:induction false} DecimalStart(n: nat)
    ensures Decimal(n)[0] != ':'
    decreases n
  {
    if n >= 10 { DecimalStart(n / 10); }
  }

  lemma PlainRead(f: Form)
    requires Legal(f) && f.right.None?
    ensures Pton6Of(Written(f)) == Ok(Meaning(f))
  {
    ScansPieces(f.left, [], None);
    assert [] + AllBytes(f.left) == AllBytes(f.left);
    if f.left != [] { ColonsStart(f.left); }
  }

  /** A text up to its double colon. */
  lemma LeftRead(ps: seq<Piece>, rest: string)
    requires Pieces(ps) && Groups(ps) && |AllBytes(ps)| <= 16
    ensures var a := AllBytes(ps); Pton6Of(Colons(ps) + "::" + rest) == Scan6(rest, rest, a, Some(|a|), 0, 0)
  {
    var text := Colons(ps) + "::" + rest;
    if ps == [] {
      assert text == "::" + rest && text[1..] == ":" + rest && (":" + rest)[1..] == rest;
    } else {
      ColonsStart(ps);
      assert text[0] == Colons(ps)[0];
      ScansLeft(ps, rest, []);
      assert [] + AllBytes(ps) == AllBytes(ps);
    }
  }

  lemma Shifted(a: seq<Byte>, b: seq<Byte>)
    requires |a| + |b| < 16
    ensures End6(a + b, Some(|a|), 0, 0) == Ok(a + Zeros(16 - |a| - |b|) + b)
  {
    assert (a + b)[..|a|] == a && (a + b)[|a|..] == b;
  }

  lemma ShortRead(f: Form)
    requires Legal(f) && f.right.Some?
    ensures Pton6Of(Written(f)) == Ok(Meaning(f))
  {
    var a, right := AllBytes(f.left), f.right.value;
    var rest, b := Colons(right), AllBytes(right);
    calc {
      Pton6Of(Written(f));
      { LeftRead(f.left, rest); }
      Scan6(rest, rest, a, Some(|a|), 0, 0);
      { ScansPieces(right, a, Some(|a|)); }
      End6(a + b, Some(|a|), 0, 0);
      { Shifted(a, b); }
      Ok(Meaning(f));
    }
  }

  lemma FormRead(f: Form)
    requires Legal(f)
    ensures Pton6Of(Written(f)) == Ok(Meaning(f))
  {
    if f.right.None? { PlainRead(f); } else { ShortRead(f); }
  }

  // ----- what is read is written in one of the forms

  /** The number of digits at the start. */
  ghost function Lead(t: string): (n: nat)
    ensures n <= |t| && AllHex(t[..n]) && (n < |t| ==> HexValue(t[n]) < 0)
  {
    if t == "" then 0
    else if HexValue(t[0]) < 0 then 0
    else
      HexValueExactly(t[0]);
      var n := 1 + Lead(t[1..]);
      assert t[..n] == [t[0]] + t[1..][..n - 1];
      n
  }

  /** The scan up to the end of the digits. */
  lemma ScansLead(tok: string, out: seq<Byte>, colon: Option<nat>)
    requires |out| <= 16 && (colon.Some? ==> colon.value <= |out|)
    ensures var n := Lead(tok);
      Scan6(tok, tok, out, colon, 0, 0) ==
        if n > 4 then Einval else Scan6(tok[n..], tok, out, colon, n, Number(tok[..n]))
  {
    var n := Lead(tok);
    var g, r := tok[..n], tok[n..];
    if n > 4 {
      var g4, r4 := tok[..4], tok[4..];
      assert tok == g4 + r4 && AllHex(g4) && g[4] == r4[0];
      HexValueExactly(r4[0]);
      ScansDigits(g4, r4, tok, out, colon);
    } else {
      assert tok == g + r;
      ScansDigits(g, r, tok, out, colon);
    }
  }

  ghost predicate ReadsTo(tok: string, out: seq<Byte>, colon: Option<nat>, a: seq<Byte>) {
    |out| <= 16 && (colon.Some? ==> colon.value <= |out|) && Scan6(tok, tok, out, colon, 0, 0) == Ok(a)
  }

  /** The scan after the digits of a piece, at its end or at a point. */
  lemma LastStep(r: string, tok: string, out: seq<Byte>, colon: Option<nat>, seen: nat, val: nat, a: seq<Byte>)
    requires |out| <= 16 && (colon.Some? ==> colon.value <= |out|) && Scan6(r, tok, out, colon, seen, val) == Ok(a)
    requires r == "" || (HexValue(r[0]) < 0 && r[0] != ':')
    ensures r == "" ==> End6(out, colon, seen, val) == Ok(a)
    ensures r != "" ==> |out| + 4 <= 16 && Pton4Of(tok).Ok? && |Pton4Of(tok).value| == 4
    ensures r != "" ==> End6(out + Pton4Of(tok).value, colon, 0, val) == Ok(a)
  {
    if Pton4Of(tok).Ok? { AcceptsExactlyPrinted(tok, Pton4Of(tok).value); }
  }

  /** The scan after the digits of a group, at its colon. */
  lemma ColonStep(r: string, tok: string, out: seq<Byte>, colon: Option<nat>, seen: nat, val: nat, a: seq<Byte>)
    requires |out| <= 16 && (colon.Some? ==> colon.value <= |out|) && Scan6(r, tok, out, colon, seen, val) == Ok(a)
    requires r != "" && r[0] == ':' && seen > 0
    ensures r[1..] != "" && |out| <= 14 && ReadsTo(r[1..], out + Pair(val), colon, a)
  {
  }

  lemma LastGroup(g: string, out: seq<Byte>, colon: Option<nat>, a: seq<Byte>) returns (ps: seq<Piece>)
    requires |out| <= 16 && (colon.Some? ==> colon.value <= |out|) && AllHex(g) && |g| <= 4
    requires End6(out, colon, |g|, Number(g)) == Ok(a)
    ensures Pieces(ps) && Colons(ps) == g && |out| + |AllBytes(ps)| <= 16
    ensures End6(out + AllBytes(ps), colon, 0, 0) == Ok(a)
  {
    if g == "" {
      ps := [];
      assert out + AllBytes(ps) == out;
    } else {
      ps := [Group(g)];
      assert AllBytes(ps) == Pair(Number(g)) + AllBytes([]) == Pair(Number(g));
    }
  }

  /** The end of a text, without a colon after its first digits. */
  lemma LastRead(tok: string, out: seq<Byte>, colon: Option<nat>, a: seq<Byte>) returns (ps: seq<Piece>)
    requires ReadsTo(tok, out, colon, a) && (Lead(tok) == |tok| || tok[Lead(tok)] != ':')
    ensures Pieces(ps) && Colons(ps) == tok && |out| + |AllBytes(ps)| <= 16
    ensures End6(out + AllBytes(ps), colon, 0, 0) == Ok(a)
  {
    ScansLead(tok, out, colon);
    var n := Lead(tok);
    LastStep(tok[n..], tok, out, colon, n, Number(tok[..n]), a);
    if n == |tok| {
      assert tok[..n] == tok;
      ps := LastGroup(tok, out, colon, a);
    } else {
      var b := Pton4Of(tok).value;
      AcceptsExactlyPrinted(tok, b);
      ps := [Quad(b)];
      assert AllBytes(ps) == b + AllBytes([]) == b;
    }
  }

  /** A group and its colon. */
  lemma GroupRead(tok: string, out: seq<Byte>, colon: Option<nat>, a: seq<Byte>) returns (p: Piece, rest: string)
    requires ReadsTo(tok, out, colon, a) && 0 < Lead(tok) < |tok| && tok[Lead(tok)] == ':'
    ensures IsGroup(p) && tok == p.digits + ":" + rest && rest != "" && |rest| < |tok| && |out| <= 14
    ensures ReadsTo(rest, out + Pair(Number(p.digits)), colon, a)
  {
    ScansLead(tok, out, colon);
    var n := Lead(tok);
    var r := tok[n..];
    ColonStep(r, tok, out, colon, n, Number(tok[..n]), a);
    p, rest := Group(tok[..n]), r[1..];
    assert r == ":" + rest;
  }

  /** A colon without a group before it completes the only double colon. */
  lemma ColonRead(tok: string, out: seq<Byte>, colon: Option<nat>, a: seq<Byte>)
    requires ReadsTo(tok, out, colon, a) && tok != "" && tok[0] == ':'
    ensures colon.None? && ReadsTo(tok[1..], out, Some(|out|), a)
  {
  }

  /** The bytes of a group, then those of the rest. */
  lemma GroupAdds(p: Piece, ps: seq<Piece>, out: seq<Byte>)
    requires IsGroup(p) && Pieces(ps)
    ensures Pieces([p] + ps) && out + AllBytes([p] + ps) == out + Pair(Number(p.digits)) + AllBytes(ps)
    ensures |AllBytes([p] + ps)| == 2 + |AllBytes(ps)|
  {
    Heads(p, ps);
  }

  /** After the double colon. */
  lemma {:induction false} RightRead(tok: string, out: seq<Byte>, c: nat, a: seq<Byte>) returns (ps: seq<Piece>)
    requires ReadsTo(tok, out, Some(c), a)
    ensures Pieces(ps) && Colons(ps) == tok && |out| + |AllBytes(ps)| <= 16
    ensures End6(out + AllBytes(ps), Some(c), 0, 0) == Ok(a)
    decreases |tok|
  {
    var n := Lead(tok);
    if n == |tok| || tok[n] != ':' {
      ps := LastRead(tok, out, Some(c), a);
    } else {
      if n == 0 { ColonRead(tok, out, Some(c), a); }
      var p, rest := GroupRead(tok, out, Some(c), a);
      var later := RightRead(rest, out + Pair(Number(p.digits)), c, a);
      Heads(p, later);
      GroupAdds(p, later, out);
      ps := [p] + later;
    }
  }

  /** The rest of a text up to and after its double colon, of which the first colon may be read. */
  ghost function Rest(f: Form): string
    requires Pieces(f.left) && (f.right.Some? ==> Pieces(f.right.value))
  {
    match f.right
    case None => Colons(f.left)
    case Some(right) => (if f.left == [] then ":" else Colons(f.left) + "::") + Colons(right)
  }

  /** What the form adds to the bytes read so far. */
  ghost predicate Adds(out: seq<Byte>, f: Form, a: seq<Byte>) {
    && Pieces(f.left) && |out| + |AllBytes(f.left)| <= 16
    && var out' := out + AllBytes(f.left);
      match f.right
      case None => End6(out', None, 0, 0) == Ok(a)
      case Some(right) =>
        && Groups(f.left) && Pieces(right) && |out'| + |AllBytes(right)| <= 16
        && End6(out' + AllBytes(right), Some(|out'|), 0, 0) == Ok(a)
  }

  lemma RestGrows(p: Piece, f: Form)
    requires IsGroup(p) && Pieces(f.left) && (f.right.Some? ==> Pieces(f.right.value)) && Rest(f) != ""
    ensures Pieces([p] + f.left) && Rest(f.(left := [p] + f.left)) == p.digits + ":" + Rest(f)
  {
    Heads(p, f.left);
    var d, l := p.digits, Colons(f.left);
    var all := Colons([p] + f.left);
    match f.right
    case None =>
    case Some(right) =>
      if f.left == [] { DoubleColon(d, Colons(right)); } else { Regrouped(d, l, Colons(right)); }
  }

  lemma {:induction false} FormAdds(tok: string, out: seq<Byte>, a: seq<Byte>) returns (f: Form)
    requires ReadsTo(tok, out, None, a)
    ensures Adds(out, f, a) && Rest(f) == tok
    decreases |tok|
  {
    var n := Lead(tok);
    if n == |tok| || tok[n] != ':' {
      var ps := LastRead(tok, out, None, a);
      f := Form(ps, None);
    } else if n == 0 {
      ColonRead(tok, out, None, a);
      var ps := RightRead(tok[1..], out, |out|, a);
      f := Form([], Some(ps));
      assert out + AllBytes([]) == out && tok == ":" + tok[1..];
    } else {
      var p, rest := GroupRead(tok, out, None, a);
      var f' := FormAdds(rest, out + Pair(Number(p.digits)), a);
      f := f'.(left := [p] + f'.left);
      GroupAdds(p, f'.left, out);
      RestGrows(p, f');
    }
  }

  lemma FormMeans(f: Form, a: seq<Byte>)
    requires Adds([], f, a)
    ensures Legal(f) && Meaning(f) == a
  {
    var out := AllBytes(f.left);
    assert [] + out == out;
    if f.right.Some? {
      var b := AllBytes(f.right.value);
      assert |out| + |b| < 16;
      Shifted(out, b);
    }
  }

  lemma ReadWritten(text: string, a: seq<Byte>) returns (f: Form)
    requires Pton6Of(text) == Ok(a)
    ensures Legal(f) && Written(f) == text && Meaning(f) == a
  {
    var tok := if text != "" && text[0] == ':' then text[1..] else text;
    f := FormAdds(tok, [], a);
    FormMeans(f, a);
    if tok != text {
      if f.left != [] { ColonsStart(f.left); }
      assert text == ":" + tok;
    }
  }

  /** inet_pton6 accepts exactly the texts of these forms, and returns what they mean. */
  lemma AcceptsExactlyForms(text: string, a: seq<Byte>)
    ensures Pton6Of(text) == Ok(a) <==> exists f :: Legal(f) && Written(f) == text && Meaning(f) == a
  {
    if Pton6Of(text) == Ok(a) {
      var f := ReadWritten(text, a);
    }
    if f :| Legal(f) && Written(f) == text && Meaning(f) == a {
      FormRead(f);
    }
  }

  // ----- what is printed

  ghost predicate LowerCase(g: string) { forall i :: 0 <= i < |g| ==> '0' <= g[i] <= '9' || 'a' <= g[i] <= 'f' }

  lemma HexDigitMeans(d: nat)
    requires d < 16
    ensures var g := [HexDigit(d)]; AllHex(g) && Number(g) == d && LowerCase(g) && (d > 0 ==> g[0] != '0')
  {
    HexDigitValue(d);
    HexValueExactly(HexDigit(d));
    assert [HexDigit(d)][..0] == "";
  }

  lemma NumberAppends(g: string, d: nat)
    requires AllHex(g) && d < 16
    ensures AllHex(g + [HexDigit(d)]) && Number(g + [HexDigit(d)]) == 16 * Number(g) + d
  {
    HexDigitMeans(d);
    var c := HexDigit(d);
    assert [c][0] == c && [c][..0] == "";
    assert (g + [c])[..|g|] == g;
  }

  /** A printed group has its value, no capital letter and no leading zero. */
  lemma {:induction false} HexMeans(n: nat)
    ensures var g := Hex(n);
      |g| > 0 && AllHex(g) && Number(g) == n && LowerCase(g) && (n > 0 ==> g[0] != '0')
    decreases n
  {
    HexDigitMeans(n % 16);
    if n >= 16 {
      HexMeans(n / 16);
      NumberAppends(Hex(n / 16), n % 16);
    }
  }

  /** Groups `i` to `j` of an address, as they are printed. */
  ghost function Printed(a: seq<Byte>, i: nat, j: nat): (ps: seq<Piece>)
    requires |a| == 16 && i <= j <= 8
    ensures |ps| == j - i && Groups(ps) && Pieces(ps)
  {
    var ps := seq(j - i, k requires 0 <= k < j - i => Group(Hex(Word(a, i + k))));
    forall k | 0 <= k < |ps| ensures IsGroup(ps[k]) { HexMeans(Word(a, i + k)); HexLength(Word(a, i + k)); }
    ps
  }

  lemma WordMeans(a: seq<Byte>, i: nat)
    requires |a| == 16 && i < 8
    ensures Words(a)[i] == 0x100 * a[2 * i] as int + a[2 * i + 1] as int
  {
  }

  lemma {:induction false} JoinedPrinted(a: seq<Byte>, i: nat, j: nat)
    requires |a| == 16 && i <= j <= 8
    ensures Joined(Words(a)[i..j]) == Colons(Printed(a, i, j))
    decreases j - i
  {
    if i < j {
      JoinedPrinted(a, i + 1, j);
      assert Words(a)[i..j][1..] == Words(a)[i + 1..j];
      assert Printed(a, i, j)[1..] == Printed(a, i + 1, j);
    }
  }

  /** ::ffff:a.b.c.d of section 2.5.5 of RFC 4291 */
  ghost predicate Mapped(a: seq<Byte>)
    requires |a| == 16
  {
    (forall i :: 0 <= i < 10 ==> a[i] == 0) && a[10] == 255 && a[11] == 255
  }

  /** ::a.b.c.d of section 2.5.5 of RFC 4291, unless its last group alone is not zero */
  ghost predicate Compatible(a: seq<Byte>)
    requires |a| == 16
  {
    (forall i :: 0 <= i < 12 ==> a[i] == 0) && (a[12] != 0 || a[13] != 0)
  }

  lemma ZeroWords(a: seq<Byte>, n: nat)
    requires |a| == 16 && n <= 8
    ensures (forall i :: 0 <= i < 2 * n ==> a[i] == 0) <==> ZeroRun(Words(a), 0, n)
  {
    forall i | 0 <= i < 8 ensures Words(a)[i] == 0 <==> a[2 * i] == 0 && a[2 * i + 1] == 0 { WordMeans(a, i); }
    if ZeroRun(Words(a), 0, n) {
      forall i | 0 <= i < 2 * n ensures a[i] == 0 { assert Words(a)[i / 2] == 0; }
    }
  }

  /** The last 32 bits are printed as an IPv4 address exactly for these two kinds. */
  lemma EmbeddedExactly(a: seq<Byte>, run: Option<Run>)
    requires |a| == 16 && BestRun(Words(a), run)
    ensures Mapped(a) <==> run == Some(Run(0, 5)) && Words(a)[5] == 0xffff
    ensures Compatible(a) <==> run == Some(Run(0, 6))
  {
    ZeroWords(a, 5);
    ZeroWords(a, 6);
    WordMeans(a, 5);
    WordMeans(a, 6);
    if Mapped(a) { BestFirst(Words(a), run, 5); }
    if Compatible(a) { BestFirst(Words(a), run, 6); }
    if run == Some(Run(0, 6)) { assert ZeroRun(Words(a), 0, 7) <==> Words(a)[6] == 0; }
  }

  /** More than half of the groups are zero, and the next one is not. */
  lemma BestFirst(ws: seq<nat>, run: Option<Run>, n: nat)
    requires |ws| == 8 && BestRun(ws, run) && 5 <= n < 8 && ZeroRun(ws, 0, n) && ws[n] != 0
    ensures run == Some(Run(0, n))
  {
    assert run.Some? && run.value.len >= n;
    assert !(run.value.base <= n < run.value.base + run.value.len);
  }

  /** What inet_ntop6 prints: an embedded IPv4 address, or the eight groups with the first of the
      longest runs of zero groups shortened. */
  lemma PrintsExactly(a: seq<Byte>, run: Option<Run>)
    requires |a| == 16 && BestRun(Words(a), run)
    ensures Mapped(a) ==> Text6(a, run) == "::ffff:" + Dotted(a[12..])
    ensures Compatible(a) ==> Text6(a, run) == "::" + Dotted(a[12..])
    ensures !Mapped(a) && !Compatible(a) && run.None? ==> Text6(a, run) == Colons(Printed(a, 0, 8))
    ensures !Mapped(a) && !Compatible(a) && run.Some? ==>
      var b, e := run.value.base, run.value.base + run.value.len;
      Text6(a, run) == Colons(Printed(a, 0, b)) + "::" + Colons(Printed(a, e, 8))
  {
    EmbeddedExactly(a, run);
    var ws := Words(a);
    if run.None? {
      JoinedPrinted(a, 0, 8);
      assert ws[0..8] == ws;
    } else {
      var b, e := run.value.base, run.value.base + run.value.len;
      JoinedPrinted(a, 0, b);
      JoinedPrinted(a, e, 8);
      assert ws[..b] == ws[0..b] && ws[e..] == ws[e..8];
      if b == 0 { EmptyLeft(a, Tail6(a, run.value)); }
    }
  }

  lemma EmptyLeft(a: seq<Byte>, tail: string)
    requires |a| == 16
    ensures Joined(Words(a)[..0]) + "::" + tail == "::" + tail
    ensures "::" + ("ffff:" + Dotted(a[12..])) == "::ffff:" + Dotted(a[12..])
    ensures "::" + ("" + Dotted(a[12..])) == "::" + Dotted(a[12..])
  {
    assert Joined(Words(a)[..0]) == "";
  }
}
