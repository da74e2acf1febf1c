/** The agent's base64 decoder, whose 32-bit accumulator drops its high bits on long inputs. */
module Base64 {
  import opened Basics

  const WORD: nat := 0x1_0000_0000

  type sextet = v: int | 0 <= v < 64

  datatype Scan = Digits(digits: seq<sextet>) | Invalid(at: byte)

  datatype Outcome = Ok(bytes: seq<byte>) | Err(at: byte)

  datatype Kind = Value(v: sextet) | Blank | Pad | Other

  /** Both alphabets of sections 4 and 5 of RFC 4648, blanks, and padding. */
  function Classify(b: byte): Kind {
    if 65 <= b <= 90 then Value(b - 65)
    else if 97 <= b <= 122 then Value(b - 97 + 26)
    else if 48 <= b <= 57 then Value(b - 48 + 52)
    else if b == 43 || b == 45 then Value(62)
    else if b == 47 || b == 95 then Value(63)
    else if b == 61 then Pad
    else if b == 10 || b == 13 || b == 9 || b == 32 then Blank
    else Other
  }

  function Before(ds: seq<sextet>, rest: Scan): Scan {
    match rest
    case Digits(more) => Digits(ds + more)
    case Invalid(b) => Invalid(b)
  }

  /** The digits from position `i` to the padding or the end, unless a foreign byte comes first. */
  function ScanFrom(input: seq<byte>, i: nat): Scan
    requires i <= |input|
    decreases |input| - i
  {
    if i == |input| then Digits([])
    else
      match Classify(input[i])
      case Value(v) => Before([v], ScanFrom(input, i + 1))
      case Blank => ScanFrom(input, i + 1)
      case Pad => Digits([])
      case Other => Invalid(input[i])
  }

  // ---- Digits and bytes, group by group ----

  function DigitAt(ds: seq<sextet>, k: nat): sextet { if k < |ds| then ds[k] else 0 }

  function ByteAt(bs: seq<byte>, k: nat): byte { if k < |bs| then bs[k] else 0 }

  /** Byte `r` of group `g`: four digits make three bytes. */
  function Octet(ds: seq<sextet>, g: nat, r: nat): byte {
    if r == 0 then DigitAt(ds, 4 * g) * 4 + DigitAt(ds, 4 * g + 1) / 16
    else if r == 1 then DigitAt(ds, 4 * g + 1) % 16 * 16 + DigitAt(ds, 4 * g + 2) / 4
    else DigitAt(ds, 4 * g + 2) % 4 * 64 + DigitAt(ds, 4 * g + 3)
  }

  /** Digit `r` of group `g`: three bytes make four digits. */
  function Sextet(bs: seq<byte>, g: nat, r: nat): sextet {
    if r == 0 then ByteAt(bs, 3 * g) / 4
    else if r == 1 then ByteAt(bs, 3 * g) % 4 * 16 + ByteAt(bs, 3 * g + 1) / 16
    else if r == 2 then ByteAt(bs, 3 * g + 1) % 16 * 4 + ByteAt(bs, 3 * g + 2) / 64
    else ByteAt(bs, 3 * g + 2) % 64
  }

  /** The whole bytes that the digits hold. */
  function Octets(ds: seq<sextet>): (bs: seq<byte>)
    ensures |bs| == |ds| * 6 / 8
  {
    seq(|ds| * 6 / 8, k requires 0 <= k => Octet(ds, k / 3, k % 3))
  }

  /** As many digits as the bits need, the last one filled up with zeros. */
  function Sextets(bs: seq<byte>): (ds: seq<sextet>)
    ensures |ds| == (|bs| * 8 + 5) / 6
  {
    seq((|bs| * 8 + 5) / 6, k requires 0 <= k => Sextet(bs, k / 4, k % 4))
  }

  lemma SextetsAt(bs: seq<byte>, g: nat, r: nat)
    requires r < 4 && 4 * g + r < (|bs| * 8 + 5) / 6
    ensures DigitAt(Sextets(bs), 4 * g + r) == Sextet(bs, g, r)
  {
    assert (4 * g + r) / 4 == g && (4 * g + r) % 4 == r;
  }

  lemma EnoughDigits(n: nat, g: nat, r: nat)
    requires r < 3 && 3 * g + r < n
    ensures 4 * g + r + 1 < (n * 8 + 5) / 6
  {
  }

  lemma FirstBack(bs: seq<byte>, g: nat)
    requires 3 * g < |bs|
    ensures Octet(Sextets(bs), g, 0) == bs[3 * g]
  {
    EnoughDigits(|bs|, g, 0);
    SextetsAt(bs, g, 0);
    SextetsAt(bs, g, 1);
  }

  lemma Middle(a: byte, b: byte, c: byte)
    ensures (a % 4 * 16 + b / 16) % 16 == b / 16 && (b % 16 * 4 + c / 64) / 4 == b % 16
  {
  }

  lemma SecondBack(bs: seq<byte>, g: nat)
    requires 3 * g + 1 < |bs|
    ensures Octet(Sextets(bs), g, 1) == bs[3 * g + 1]
  {
    EnoughDigits(|bs|, g, 1);
    SextetsAt(bs, g, 1);
    SextetsAt(bs, g, 2);
    var b := bs[3 * g + 1];
    Middle(bs[3 * g], b, ByteAt(bs, 3 * g + 2));
    assert DigitAt(Sextets(bs), 4 * g + 1) % 16 == b / 16;
    assert DigitAt(Sextets(bs), 4 * g + 2) / 4 == b % 16;
  }

  lemma Lower(b: byte, c: byte)
    ensures (b % 16 * 4 + c / 64) % 4 == c / 64
  {
  }

  lemma ThirdBack(bs: seq<byte>, g: nat)
    requires 3 * g + 2 < |bs|
    ensures Octet(Sextets(bs), g, 2) == bs[3 * g + 2]
  {
    EnoughDigits(|bs|, g, 2);
    SextetsAt(bs, g, 2);
    SextetsAt(bs, g, 3);
    var c := bs[3 * g + 2];
    Lower(bs[3 * g + 1], c);
    assert DigitAt(Sextets(bs), 4 * g + 2) % 4 == c / 64;
  }

  /** The digits of a byte string hold exactly that byte string. */
  lemma OctetsOfSextets(bs: seq<byte>)
    ensures Octets(Sextets(bs)) == bs
  {
    var back := Octets(Sextets(bs));
    assert |back| == |bs|;
    forall k | 0 <= k < |bs| ensures back[k] == bs[k] {
      var g, r := k / 3, k % 3;
      if r == 0 { FirstBack(bs, g); } else if r == 1 { SecondBack(bs, g); } else { ThirdBack(bs, g); }
    }
  }

  // ---- The decoder ----

  /** The bytes that `ds` yields as it grows by one digit. */
  lemma OneMoreDigit(ds: seq<sextet>, v: sextet)
    ensures |ds| % 4 == 0 ==> Octets(ds + [v]) == Octets(ds)
    ensures |ds| % 4 != 0 ==> Octets(ds + [v]) == Octets(ds) + [Octet(ds + [v], |ds| / 4, |ds| % 4 - 1)]
  {
    var g, r := |ds| / 4, |ds| % 4;
    var more := ds + [v];
    assert |Octets(ds)| == if r == 0 then 3 * g else 3 * g + r - 1;
    assert |Octets(more)| == 3 * g + r;
    forall k | 0 <= k < |Octets(ds)| ensures Octets(more)[k] == Octets(ds)[k] {
      assert 4 * (k / 3) + k % 3 + 1 < |ds|;
    }
    if r != 0 {
      assert (3 * g + r - 1) / 3 == g && (3 * g + r - 1) % 3 == r - 1;
    }
  }

  /** The accumulator shifted by one digit still holds the last two digits, whatever it lost on top. */
  lemma Shifted(buffer: nat, v: sextet)
    ensures (buffer * 64 % WORD + v) % 4096 == buffer % 64 * 64 + v
    ensures buffer * 64 % WORD + v < WORD
  {
    var high := buffer * 64;
    assert high % 64 == 0;
    assert high % WORD == high - WORD * (high / WORD);
    assert high % WORD % 64 == 0;
    assert high % WORD % 4096 == high % 4096;
    assert high == buffer / 64 * 4096 + buffer % 64 * 64;
    assert high % 4096 == buffer % 64 * 64;
  }

  function Pow2(n: nat): (p: nat)
    ensures p > 0
  {
    if n == 0 then 1 else 2 * Pow2(n - 1)
  }

  /** Eight bits of the accumulator, above the lowest `bits`. */
  function Low8(buffer: nat, bits: nat): byte { buffer / Pow2(bits) % 256 }

  lemma Shift(k: nat, r: nat, w: nat)
    requires r < w
    ensures (k * w + r) / w == k && (k * w + r) % w == r
  {
    var q, m := (k * w + r) / w, (k * w + r) % w;
    assert k * w + r == q * w + m;
    SameQuotient(w, k, r, q, m);
  }

  lemma Above4(q: nat, d: sextet, v: sextet)
    ensures Low8(q * 4096 + d * 64 + v, 4) == d * 4 + v / 16
  {
    assert Pow2(4) == 16;
    Shift(q * 256 + d * 4 + v / 16, v % 16, 16);
    Shift(q, d * 4 + v / 16, 256);
  }

  lemma Above2(q: nat, d: sextet, v: sextet)
    ensures Low8(q * 4096 + d * 64 + v, 2) == d % 16 * 16 + v / 4
  {
    assert Pow2(2) == 4;
    Shift(q * 1024 + d * 16 + v / 4, v % 4, 4);
    Shift(q * 4 + d / 16, d % 16 * 16 + v / 4, 256);
  }

  lemma Above0(q: nat, d: sextet, v: sextet)
    ensures Low8(q * 4096 + d * 64 + v, 0) == d % 4 * 64 + v
  {
    Shift(q * 16 + d / 4, d % 4 * 64 + v, 256);
  }

  /** The byte completed by digit `v` is found in the accumulator. */
  lemma LastOctet(ds: seq<sextet>, v: sextet, next: nat)
    requires |ds| % 4 != 0 && next % 4096 == ds[|ds| - 1] * 64 + v
    ensures Octet(ds + [v], |ds| / 4, |ds| % 4 - 1) == Low8(next, 6 - 2 * (|ds| % 4))
  {
    var g, r, more, d := |ds| / 4, |ds| % 4, ds + [v], ds[|ds| - 1];
    var q := next / 4096;
    assert next == q * 4096 + d * 64 + v;
    assert DigitAt(more, 4 * g + r) == v && DigitAt(more, 4 * g + r - 1) == d;
    if r == 1 { Above4(q, d, v); } else if r == 2 { Above2(q, d, v); } else { Above0(q, d, v); }
  }

  /** What the decoder holds between two digits: unread low bits are counted, older ones may be gone. */
  ghost predicate Holds(ds: seq<sextet>, buffer: int, bits: int) {
    && 0 <= buffer < WORD && (ds != [] ==> buffer % 64 == ds[|ds| - 1])
    && bits == if |ds| % 4 == 0 then 0 else 8 - 2 * (|ds| % 4)
  }

  lemma StillHolds(ds: seq<sextet>, buffer: nat, bits: nat, v: sextet)
    requires Holds(ds, buffer, bits)
    ensures bits == 0 || bits >= 2
    ensures Holds(ds + [v], buffer * 64 % WORD + v, if bits == 0 then 6 else bits - 2)
  {
    var next := buffer * 64 % WORD + v;
    Shifted(buffer, v);
    assert next % 64 == next % 4096 % 64 == v;
    assert (|ds| + 1) % 4 == if |ds| % 4 == 3 then 0 else |ds| % 4 + 1;
  }

  lemma OneStep(ds: seq<sextet>, buffer: nat, bits: nat, v: sextet)
    requires Holds(ds, buffer, bits)
    ensures bits == 0 ==> Octets(ds + [v]) == Octets(ds)
    ensures bits == 0 || bits >= 2
    ensures bits >= 2 ==> Octets(ds + [v]) == Octets(ds) + [Low8(buffer * 64 % WORD + v, bits - 2)]
  {
    Shifted(buffer, v);
    OneMoreDigit(ds, v);
    if bits > 0 { LastOctet(ds, v, buffer * 64 % WORD + v); }
  }

  method DecodeBase64(input: seq<byte>) returns (r: Outcome)
    ensures match ScanFrom(input, 0)
            case Digits(ds) => r == Ok(Octets(ds))
            case Invalid(b) => r == Err(b)
  {
    var out: seq<byte> := [];
    var buffer, bits := 0, 0;
    ghost var ds: seq<sextet> := [];
    for i := 0 to |input|
      invariant ScanFrom(input, 0) == Before(ds, ScanFrom(input, i))
      invariant out == Octets(ds) && bits >= 0 && Holds(ds, buffer, bits)
    {
      match Classify(input[i]) {
        case Value(v) =>
          StillHolds(ds, buffer, bits, v);
          OneStep(ds, buffer, bits, v);
          MoreBefore(ds, v, ScanFrom(input, i + 1));
          buffer := buffer * 64 % WORD + v;
          bits := bits + 6;
          if bits >= 8 {
            bits := bits - 8;
            out := out + [Low8(buffer, bits)];
          }
          ds := ds + [v];
        case Blank =>
        case Pad =>
          assert Before(ds, Digits([])) == Digits(ds);
          break;
        case Other =>
          return Err(input[i]);
      }
    }
    assert ds + [] == ds;
    r := Ok(out);
  }

  lemma MoreBefore(ds: seq<sextet>, v: sextet, rest: Scan)
    ensures Before(ds, Before([v], rest)) == Before(ds + [v], rest)
  {
    if rest.Digits? { assert ds + ([v] + rest.digits) == (ds + [v]) + rest.digits; }
  }

  // ---- Refusals ----

  predicate Letter(b: byte) {
    var c := b as char;
    'A' <= c <= 'Z' || 'a' <= c <= 'z' || '0' <= c <= '9' || c == '+' || c == '/' || c == '-' || c == '_'
  }

  predicate Gap(b: byte) {
    var c := b as char;
    c == ' ' || c == '\t' || c == '\r' || c == '\n'
  }

  lemma {:induction false} ForeignIsInvalid(input: seq<byte>, i: nat, k: nat)
    requires i <= k < |input| && !Letter(input[k]) && !Gap(input[k]) && input[k] != '=' as int
    requires forall j :: i <= j < k ==> Letter(input[j]) || Gap(input[j])
    ensures ScanFrom(input, i) == Invalid(input[k])
    decreases k - i
  {
    if i < k { ForeignIsInvalid(input, i + 1, k); }
  }

  /** The first byte that is in neither alphabet and no gap, if it stands before the padding, is the error. */
  method RefusesForeign(input: seq<byte>, ghost k: nat) returns (r: Outcome)
    requires k < |input| && !Letter(input[k]) && !Gap(input[k]) && input[k] != '=' as int
    requires forall j :: 0 <= j < k ==> Letter(input[j]) || Gap(input[j])
    ensures r == Err(input[k])
  {
    ForeignIsInvalid(input, 0, k);
    r := DecodeBase64(input);
  }

  // ---- Round trip ----

  /** One written byte: a digit in either alphabet, or a blank. */
  datatype Glyph = Digit(v: sextet, urlSafe: bool) | Space(b: byte)

  function Symbol(v: sextet, urlSafe: bool): byte {
    if v < 26 then v + 65
    else if v < 52 then v - 26 + 97
    else if v < 62 then v - 52 + 48
    else if v == 62 then (if urlSafe then 45 else 43)
    else if urlSafe then 95
    else 47
  }

  /** `input` is the glyphs, then nothing or padding and anything at all after it. */
  predicate WrittenAs(input: seq<byte>, glyphs: seq<Glyph>) {
    && |glyphs| <= |input| && (|glyphs| < |input| ==> input[|glyphs|] == 61)
    && forall i :: 0 <= i < |glyphs| ==>
         match glyphs[i]
         case Digit(v, urlSafe) => input[i] == Symbol(v, urlSafe)
         case Space(b) => input[i] == b && b in [9, 10, 13, 32]
  }

  function DigitsFrom(glyphs: seq<Glyph>, i: nat): seq<sextet>
    requires i <= |glyphs|
    decreases |glyphs| - i
  {
    if i == |glyphs| then []
    else (if glyphs[i].Digit? then [glyphs[i].v] else []) + DigitsFrom(glyphs, i + 1)
  }

  lemma {:induction false} WrittenIsScanned(input: seq<byte>, glyphs: seq<Glyph>, i: nat)
    requires WrittenAs(input, glyphs) && i <= |glyphs|
    ensures ScanFrom(input, i) == Digits(DigitsFrom(glyphs, i))
    decreases |glyphs| - i
  {
    if i < |glyphs| {
      WrittenIsScanned(input, glyphs, i + 1);
      var more := DigitsFrom(glyphs, i + 1);
      assert [] + more == more;
      match glyphs[i]
      case Digit(v, urlSafe) => assert Classify(input[i]) == Value(v);
      case Space(b) => assert Classify(input[i]) == Blank;
    }
  }

  /** However its digits are written down, every byte string is decoded to itself. */
  method RoundTrip(input: seq<byte>, ghost glyphs: seq<Glyph>, ghost bytes: seq<byte>) returns (decoded: Outcome)
    requires WrittenAs(input, glyphs) && DigitsFrom(glyphs, 0) == Sextets(bytes)
    ensures decoded == Ok(bytes)
  {
    WrittenIsScanned(input, glyphs, 0);
    OctetsOfSextets(bytes);
    decoded := DecodeBase64(input);
  }

  /** Three bytes as section 4 of RFC 4648 writes them, and the two characters in which the alphabets differ. */
  lemma KnownGroups()
    ensures ScanFrom([84, 87, 70, 117], 0) == Digits([19, 22, 5, 46])
    ensures Octets([19, 22, 5, 46]) == [77, 97, 110]
    ensures ScanFrom([43, 45, 47, 95], 0) == Digits([62, 62, 63, 63])
  {
    ScanFour([84, 87, 70, 117], 19, 22, 5, 46);
    ScanFour([43, 45, 47, 95], 62, 62, 63, 63);
    var ds: seq<sextet> := [19, 22, 5, 46];
    assert Octet(ds, 0, 0) == 77 && Octet(ds, 0, 1) == 97 && Octet(ds, 0, 2) == 110;
  }

  lemma ScanFour(s: seq<byte>, a: sextet, b: sextet, c: sextet, d: sextet)
    requires |s| == 4 && Classify(s[0]) == Value(a) && Classify(s[1]) == Value(b)
    requires Classify(s[2]) == Value(c) && Classify(s[3]) == Value(d)
    ensures ScanFrom(s, 0) == Digits([a, b, c, d])
  {
    assert ScanFrom(s, 4) == Digits([]);
    assert ScanFrom(s, 3) == Digits([d]);
    assert ScanFrom(s, 2) == Digits([c, d]);
    assert ScanFrom(s, 1) == Digits([b, c, d]);
  }
}
