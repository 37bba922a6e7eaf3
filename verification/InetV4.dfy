/** IPv4 text conversion: inet_ntop4 and inet_pton4 of third/libuv/src/inet.c. */
module InetV4 {
  import opened Common

  datatype Result<T> = Ok(value: T) | Enospc | Einval

  const DIGITS: string := "0123456789"

  function Digit(d: nat): char
    requires d < 10
  {
    DIGITS[d]
  }

  /** The position that strchr finds in the digits, or -1. */
  function DigitValue(c: char): (d: int)
    ensures -1 <= d < 10
    ensures d >= 0 ==> Digit(d) == c
    ensures d < 0 ==> c !in DIGITS
  {
    if '0' <= c <= '9' then c as int - '0' as int else -1
  }

  lemma DigitRoundTrip(d: nat)
    requires d < 10
    ensures DigitValue(Digit(d)) == d && Digit(d) != '.'
  {
  }

  /** "%u" */
  function Decimal(n: nat): (r: string)
    ensures |r| >= 1
  {
    if n < 10 then [Digit(n)] else Decimal(n / 10) + [Digit(n % 10)]
  }

  /** The dotted form of an address. */
  function Dotted(a: seq<Byte>): string
    requires |a| == 4
  {
    Decimal(a[0]) + "." + Decimal(a[1]) + "." + Decimal(a[2]) + "." + Decimal(a[3])
  }

  lemma DecimalLength(n: nat)
    requires n < 256
    ensures |Decimal(n)| <= 3
  {
    if n >= 10 {
      assert Decimal(n) == Decimal(n / 10) + [Digit(n % 10)];
      if n >= 100 { assert Decimal(n / 10) == Decimal(n / 10 / 10) + [Digit(n / 10 % 10)]; }
    }
  }

  ghost predicate Decimals(s: string) { forall i :: 0 <= i < |s| ==> '0' <= s[i] <= '9' }

  ghost function Value10(s: string): int {
    if s == "" then 0 else 10 * Value10(s[..|s| - 1]) + (s[|s| - 1] as int - '0' as int)
  }

  lemma DigitMeans(d: nat)
    requires d < 10
    ensures '0' <= Digit(d) <= '9' && Digit(d) as int == '0' as int + d && Value10([Digit(d)]) == d
  {
    assert [Digit(d)][..0] == "";
  }

  lemma ValueAppends(s: string, d: nat)
    requires d < 10
    ensures Value10(s + [Digit(d)]) == 10 * Value10(s) + d && (Decimals(s) ==> Decimals(s + [Digit(d)]))
  {
    DigitMeans(d);
    assert (s + [Digit(d)])[..|s|] == s;
  }

  /** A printed number has its value in decimal digits, and no leading zero. */
  lemma {:induction false} DecimalMeans(n: nat)
    ensures Decimals(Decimal(n)) && Value10(Decimal(n)) == n && (n > 0 ==> Decimal(n)[0] != '0')
    decreases n
  {
    if n < 10 {
      DigitMeans(n);
    } else {
      DecimalMeans(n / 10);
      ValueAppends(Decimal(n / 10), n % 10);
    }
  }

  /** inet_ntop4: the text is read back by inet_pton4, and 16 bytes always hold it. */
  function Ntop4(a: seq<Byte>, size: nat): (r: Result<string>)
    requires |a| == 4
    ensures r.Ok? <==> |Dotted(a)| < size
    ensures r.Ok? ==> |r.value| < size && Pton4Of(r.value) == Ok(a)
    ensures size >= 16 ==> r.Ok?
  {
    var text := Dotted(a);
    AcceptsExactlyPrinted(text, a);
    DottedLength(a);
    if |text| >= size then Enospc else Ok(text)
  }

  lemma DottedLength(a: seq<Byte>)
    requires |a| == 4
    ensures |Dotted(a)| <= 15
  {
    DecimalLength(a[0]); DecimalLength(a[1]); DecimalLength(a[2]); DecimalLength(a[3]);
  }

  // ----- parsing

  /** The variables of inet_pton4; the last of `bytes` is `*tp`. */
  datatype Scan = Scan(saw: bool, octets: nat, bytes: seq<Byte>)

  const Begin: Scan := Scan(false, 0, [0])

  ghost predicate ScanOk(s: Scan) {
    && s.octets <= 4 && |s.bytes| == (if s.saw then s.octets else s.octets + 1)
    && 1 <= |s.bytes| <= 4
  }

  /** One character, or None for UV_EINVAL. */
  function Step4(s: Scan, c: char): (r: Result<Scan>)
    requires ScanOk(s)
    ensures r.Ok? ==> ScanOk(r.value)
  {
    var d := DigitValue(c);
    var last := |s.bytes| - 1;
    if d >= 0 then
      var nw := s.bytes[last] * 10 + d;
      if s.saw && s.bytes[last] == 0 then Einval
      else if nw > 255 then Einval
      else if !s.saw && s.octets + 1 > 4 then Einval
      else Ok(Scan(true, if s.saw then s.octets else s.octets + 1, s.bytes[last := nw]))
    else if c == '.' && s.saw then
      if s.octets == 4 then Einval else Ok(Scan(false, s.octets, s.bytes + [0]))
    else Einval
  }

  function Scan4(s: Scan, text: string): (r: Result<Scan>)
    requires ScanOk(s)
    ensures r.Ok? ==> ScanOk(r.value)
    decreases |text|
  {
    if text == "" then Ok(s)
    else match Step4(s, text[0])
      case Ok(s') => Scan4(s', text[1..])
      case Enospc => Enospc
      case Einval => Einval
  }

  /** inet_pton4 as a function of the text. */
  function Pton4Of(text: string): Result<seq<Byte>> {
    match Scan4(Begin, text)
    case Ok(s) => if s.octets < 4 then Einval else Ok(s.bytes)
    case Enospc => Enospc
    case Einval => Einval
  }

  /** inet_pton4 */
  method Pton4(src: string) returns (r: Result<seq<Byte>>)
    ensures r == Pton4Of(src)
  {
    var tmp := new Byte[4];
    var tp, saw, octets, i := 0, false, 0, 0;
    tmp[0] := 0;
    ghost var s := Begin;
    while i < |src|
      invariant 0 <= i <= |src| && ScanOk(s) && 0 <= tp < 4
      invariant s == Scan(saw, octets, tmp[..tp + 1])
      invariant Scan4(Begin, src) == Scan4(s, src[i..])
    {
      var ch := src[i];
      assert src[i..][1..] == src[i + 1..];
      i := i + 1;
      var d := DigitValue(ch);
      if d >= 0 {
        var nw := tmp[tp] * 10 + d;
        if saw && tmp[tp] == 0 { return Einval; }
        if nw > 255 { return Einval; }
        if !saw && octets + 1 > 4 { return Einval; }
        tmp[tp] := nw;
        if !saw {
          octets := octets + 1;
          saw := true;
        }
        s := Scan(saw, octets, s.bytes[tp := nw]);
      } else if ch == '.' && saw {
        if octets == 4 { return Einval; }
        tp := tp + 1;
        tmp[tp] := 0;
        saw := false;
        s := Scan(saw, octets, s.bytes + [0]);
      } else {
        return Einval;
      }
    }
    assert src[i..] == "";
    if octets < 4 { return Einval; }
    assert tmp[..tp + 1] == tmp[..];
    return Ok(tmp[..]);
  }

  // ----- what is accepted is exactly what is printed

  /** The text that leads to a scan state. */
  ghost function Printed(s: Scan): string
    requires |s.bytes| >= 1
  {
    Dots(s.bytes[..|s.bytes| - 1]) + if s.saw then Decimal(s.bytes[|s.bytes| - 1]) else ""
  }

  ghost function Dots(a: seq<Byte>): string {
    if a == [] then "" else Dots(a[..|a| - 1]) + Decimal(a[|a| - 1]) + "."
  }

  lemma StepPrints(s: Scan, c: char)
    requires ScanOk(s) && Step4(s, c).Ok? && (!s.saw ==> s.bytes[|s.bytes| - 1] == 0)
    ensures var s' := Step4(s, c).value;
      Printed(s') == Printed(s) + [c] && (!s'.saw ==> s'.bytes[|s'.bytes| - 1] == 0)
  {
    var s', last := Step4(s, c).value, |s.bytes| - 1;
    if DigitValue(c) >= 0 {
      assert s'.bytes[..last] == s.bytes[..last];
    } else {
      assert s'.bytes[..last + 1] == s.bytes;
      assert s.bytes[..last + 1] == s.bytes;
    }
  }

  lemma {:induction false} ScanPrints(s: Scan, text: string)
    requires ScanOk(s) && Scan4(s, text).Ok? && (!s.saw ==> s.bytes[|s.bytes| - 1] == 0)
    ensures Printed(Scan4(s, text).value) == Printed(s) + text
    decreases |text|
  {
    if text != "" {
      StepPrints(s, text[0]);
      ScanPrints(Step4(s, text[0]).value, text[1..]);
      assert [text[0]] + text[1..] == text;
    }
  }

  lemma DotsOfFour(a: seq<Byte>)
    requires |a| == 4
    ensures Printed(Scan(true, 4, a)) == Dotted(a)
  {
    var b := a[..3];
    assert b[..2] == a[..2] && a[..2][..1] == a[..1] && a[..1][..0] == [];
    assert Dots(a[..1]) == Decimal(a[0]) + ".";
    assert Dots(a[..2]) == Dots(a[..1]) + Decimal(a[1]) + ".";
    assert Dots(b) == Dots(a[..2]) + Decimal(a[2]) + ".";
  }

  /** Characters that are all accepted can be split off. */
  lemma {:induction false} ScanSplits(s: Scan, x: string, y: string)
    requires ScanOk(s)
    ensures Scan4(s, x + y) == match Scan4(s, x)
      case Ok(s') => Scan4(s', y)
      case Enospc => Enospc
      case Einval => Einval
    decreases |x|
  {
    if x == "" { assert x + y == y; } else {
      assert (x + y)[1..] == x[1..] + y;
      if Step4(s, x[0]).Ok? { ScanSplits(Step4(s, x[0]).value, x[1..], y); }
    }
  }

  lemma {:induction false} ScansDecimal(s: Scan, n: nat)
    requires ScanOk(s) && !s.saw && s.octets < 4 && s.bytes[|s.bytes| - 1] == 0 && n < 256
    ensures Scan4(s, Decimal(n)) == Ok(Scan(true, s.octets + 1, s.bytes[|s.bytes| - 1 := n]))
    decreases n
  {
    if n < 10 {
      DigitRoundTrip(n);
      assert Decimal(n)[1..] == "";
    } else {
      ScansDecimal(s, n / 10);
      ScanSplits(s, Decimal(n / 10), [Digit(n % 10)]);
      DigitRoundTrip(n % 10);
      assert [Digit(n % 10)][1..] == "";
      var last := |s.bytes| - 1;
      assert s.bytes[last := n / 10][last := n] == s.bytes[last := n];
    }
  }

  lemma ScansOctet(s: Scan, n: Byte, rest: string)
    requires ScanOk(s) && !s.saw && s.octets < 3 && s.bytes[|s.bytes| - 1] == 0
    ensures Scan4(s, Decimal(n) + "." + rest) ==
      Scan4(Scan(false, s.octets + 1, s.bytes[|s.bytes| - 1 := n] + [0]), rest)
  {
    assert Decimal(n) + "." + rest == Decimal(n) + ("." + rest);
    ScansDecimal(s, n);
    ScanSplits(s, Decimal(n), "." + rest);
    assert ("." + rest)[1..] == rest;
  }

  /** inet_pton4 accepts a text if and only if inet_ntop4 prints it for the returned address. */
  lemma AcceptsExactlyPrinted(text: string, a: seq<Byte>)
    ensures Pton4Of(text) == Ok(a) <==> |a| == 4 && text == Dotted(a)
  {
    if Pton4Of(text) == Ok(a) {
      ScanPrints(Begin, text);
      assert Printed(Begin) == "";
      DotsOfFour(a);
      assert Scan4(Begin, text).value == Scan(true, 4, a);
    }
    if |a| == 4 && text == Dotted(a) {
      PrintedAccepted(a);
    }
  }

  lemma PrintedAccepted(a: seq<Byte>)
    requires |a| == 4
    ensures Scan4(Begin, Dotted(a)) == Ok(Scan(true, 4, a))
  {
    var t3 := Decimal(a[3]);
    var t2 := Decimal(a[2]) + "." + t3;
    var t1 := Decimal(a[1]) + "." + t2;
    assert Dotted(a) == Decimal(a[0]) + "." + t1;
    var s1, s2, s3 := Scan(false, 1, [a[0], 0]), Scan(false, 2, [a[0], a[1], 0]), Scan(false, 3, [a[0], a[1], a[2], 0]);
    ScansOctet(Begin, a[0], t1);
    assert Begin.bytes[0 := a[0]] + [0] == s1.bytes;
    ScansOctet(s1, a[1], t2);
    assert s1.bytes[1 := a[1]] + [0] == s2.bytes;
    ScansOctet(s2, a[2], t3);
    assert s2.bytes[2 := a[2]] + [0] == s3.bytes;
    ScansDecimal(s3, a[3]);
    assert s3.bytes[3 := a[3]] == a;
  }
}
