/**
 Decoding of chunked bodies, section 7.1 of RFC 9112.

 Chunk sizes are 64-bit words. What an overflowing `size + 2` does is not modelled: it is the
 separate outcome `Overflow`. The two bytes after a chunk are skipped, whatever they are.
 */
module Chunked {
  import opened Basics

  const WORD: nat := 0x1_0000_0000_0000_0000
  const CR: byte := 13
  const LF: byte := 10
  const SEMICOLON: byte := 59
  const PLUS: byte := 43

  datatype Outcome = Ok(bytes: seq<byte>) | Malformed | BadSize | Truncated | Overflow

  // ---- The size line ----

  predicate CrlfAt(s: seq<byte>, i: nat) { i + 1 < |s| && s[i] == CR && s[i + 1] == LF }

  /** `n` is the first line end. */
  predicate FirstCrlf(s: seq<byte>, n: nat) { CrlfAt(s, n) && forall k :: 0 <= k < n ==> !CrlfAt(s, k) }

  /** The first line end from `i` on, if any. */
  function CrlfFrom(s: seq<byte>, i: nat): (r: Option<nat>)
    requires i <= |s|
    ensures r.Some? ==> i <= r.value && r.value + 1 < |s|
    decreases |s| - i
  {
    if i + 1 >= |s| then None else if CrlfAt(s, i) then Some(i) else CrlfFrom(s, i + 1)
  }

  function Crlf(s: seq<byte>): (r: Option<nat>)
    ensures r.Some? ==> r.value + 1 < |s|
  {
    CrlfFrom(s, 0)
  }

  lemma {:induction false} CrlfIsFirst(s: seq<byte>, i: nat)
    requires i <= |s|
    ensures CrlfFrom(s, i).None? ==> forall k :: i <= k < |s| ==> !CrlfAt(s, k)
    ensures CrlfFrom(s, i).Some? ==>
              CrlfAt(s, CrlfFrom(s, i).value) && forall k :: i <= k < CrlfFrom(s, i).value ==> !CrlfAt(s, k)
    decreases |s| - i
  {
    if i + 1 < |s| && !CrlfAt(s, i) { CrlfIsFirst(s, i + 1); }
  }

  /** How many bytes from `i` on encode a white-space character in UTF-8. */
  function White(s: seq<byte>, i: nat): (n: nat)
    requires i <= |s|
    ensures i + n <= |s|
  {
    if i < |s| && (9 <= s[i] <= 13 || s[i] == 32) then 1
    else if i + 1 < |s| && s[i] == 0xC2 && (s[i + 1] == 0x85 || s[i + 1] == 0xA0) then 2
    else if i + 2 < |s| && Wide(s[i], s[i + 1], s[i + 2]) then 3
    else 0
  }

  predicate Wide(a: byte, b: byte, c: byte) {
    || (a == 0xE1 && b == 0x9A && c == 0x80)
    || (a == 0xE2 && b == 0x80 && (0x80 <= c <= 0x8A || c == 0xA8 || c == 0xA9 || c == 0xAF))
    || (a == 0xE2 && b == 0x81 && c == 0x9F)
    || (a == 0xE3 && b == 0x80 && c == 0x80)
  }

  /** How many bytes before `j`, back to `i` at most, encode one. */
  function WhiteBefore(s: seq<byte>, i: nat, j: nat): (n: nat)
    requires i <= j <= |s|
    ensures i + n <= j
  {
    if i < j && White(s[..j], j - 1) == 1 then 1
    else if i + 1 < j && White(s[..j], j - 2) == 2 then 2
    else if i + 2 < j && White(s[..j], j - 3) == 3 then 3
    else 0
  }

  function Front(s: seq<byte>, i: nat): (f: nat)
    requires i <= |s|
    ensures i <= f <= |s|
    decreases |s| - i
  {
    if White(s, i) == 0 then i else Front(s, i + White(s, i))
  }

  function Back(s: seq<byte>, i: nat, j: nat): (b: nat)
    requires i <= j <= |s|
    ensures i <= b <= j
    decreases j
  {
    if WhiteBefore(s, i, j) == 0 then j else Back(s, i, j - WhiteBefore(s, i, j))
  }

  function Trimmed(s: seq<byte>): seq<byte> { s[Front(s, 0)..Back(s, Front(s, 0), |s|)] }

  /** The part before the extensions. */
  function Field(s: seq<byte>, i: nat): (f: nat)
    requires i <= |s|
    ensures i <= f <= |s|
    decreases |s| - i
  {
    if i == |s| || s[i] == SEMICOLON then i else Field(s, i + 1)
  }

  lemma {:induction false} FieldIsFirst(s: seq<byte>, i: nat)
    requires i <= |s|
    ensures var f := Field(s, i);
            (f < |s| ==> s[f] == SEMICOLON) && forall k :: i <= k < f ==> s[k] != SEMICOLON
    decreases |s| - i
  {
    if i < |s| && s[i] != SEMICOLON { FieldIsFirst(s, i + 1); }
  }

  /** The number that the first `n` hexadecimal digits spell, however large. */
  function HexValue(s: seq<byte>, n: nat): Option<nat>
    requires n <= |s|
  {
    if n == 0 then Some(0)
    else
      match (HexValue(s, n - 1), HexDigit(s[n - 1]))
      case (Some(v), Some(d)) => Some(v * 16 + d)
      case _ => None
  }

  /** A word in hexadecimal, with at most one plus sign before it. */
  function ParseHex(s: seq<byte>): Option<nat> {
    var digits := if s != [] && s[0] == PLUS then s[1..] else s;
    if digits == [] then None
    else
      match HexValue(digits, |digits|)
      case Some(v) => if v < WORD then Some(v) else None
      case None => None
  }

  function SizeOf(line: seq<byte>): Option<nat> { ParseHex(Trimmed(line[..Field(line, 0)])) }

  // ---- The body ----

  function Before(out: seq<byte>, rest: Outcome): Outcome {
    match rest
    case Ok(bytes) => Ok(out + bytes)
    case _ => rest
  }

  datatype Turn = Stop(outcome: Outcome) | Take(data: seq<byte>, rest: seq<byte>)

  /** One chunk off the front of the body. */
  function Next(body: seq<byte>): (t: Turn)
    ensures t.Take? ==> |t.data| + |t.rest| < |body|
  {
    match Crlf(body)
    case None => Stop(Malformed)
    case Some(n) =>
      match SizeOf(body[..n])
      case None => Stop(BadSize)
      case Some(size) =>
        if size == 0 then Stop(Ok([]))
        else if size + 2 >= WORD then Stop(Overflow)
        else if |body| - (n + 2) < size + 2 then Stop(Truncated)
        else Take(body[n + 2..n + 2 + size], body[n + 2 + size + 2..])
  }

  function Decode(body: seq<byte>): Outcome
    decreases |body|
  {
    match Next(body)
    case Stop(outcome) => outcome
    case Take(data, rest) => Before(data, Decode(rest))
  }

  method FindCrlf(s: seq<byte>) returns (r: Option<nat>)
    ensures r == Crlf(s)
  {
    var i := 0;
    while i + 1 < |s|
      invariant i <= |s| && Crlf(s) == CrlfFrom(s, i)
    {
      if s[i] == CR && s[i + 1] == LF {
        return Some(i);
      }
      i := i + 1;
    }
    r := None;
  }

  /** One turn of the decoder's loop. */
  method TakeChunk(body: seq<byte>) returns (t: Turn)
    ensures t == Next(body)
  {
    var line := FindCrlf(body);
    if line.None? {
      return Stop(Malformed);
    }
    var size := SizeOf(body[..line.value]);
    if size.None? {
      return Stop(BadSize);
    }
    var rest := body[line.value + 2..];
    if size.value == 0 {
      return Stop(Ok([]));
    }
    if size.value + 2 >= WORD {
      return Stop(Overflow);
    }
    if |rest| < size.value + 2 {
      return Stop(Truncated);
    }
    t := Take(rest[..size.value], rest[size.value + 2..]);
  }

  /** Turn `k` took chunk `datas[k]` off the body and left the next one. */
  predicate TookAt(bodies: seq<seq<byte>>, datas: seq<seq<byte>>, k: nat)
    requires k < |datas| && |bodies| == |datas| + 1
  {
    Next(bodies[k]) == Take(datas[k], bodies[k + 1])
  }

  lemma FlattenFrom(datas: seq<seq<byte>>, k: nat)
    requires k < |datas|
    ensures Flatten(datas[k..]) == datas[k] + Flatten(datas[k + 1..])
  {
    assert datas[k..] == [datas[k]] + datas[k + 1..];
    FlattenCons(datas[k], datas[k + 1..]);
  }

  lemma {:induction false} DecodeOf(bodies: seq<seq<byte>>, datas: seq<seq<byte>>, outcome: Outcome, k: nat)
    requires |bodies| == |datas| + 1 && k <= |datas| && Next(bodies[|datas|]) == Stop(outcome)
    requires forall j :: 0 <= j < |datas| ==> TookAt(bodies, datas, j)
    ensures Decode(bodies[k]) == Before(Flatten(datas[k..]), outcome)
    decreases |datas| - k
  {
    if k == |datas| {
      assert datas[k..] == [];
      if outcome.Ok? { assert [] + outcome.bytes == outcome.bytes; }
    } else {
      DecodeOf(bodies, datas, outcome, k + 1);
      assert TookAt(bodies, datas, k);
      assert Decode(bodies[k]) == Before(datas[k], Decode(bodies[k + 1]));
      FlattenFrom(datas, k);
      BeforeBefore(datas[k], Flatten(datas[k + 1..]), outcome);
    }
  }

  lemma BeforeBefore(out: seq<byte>, data: seq<byte>, rest: Outcome)
    ensures Before(out, Before(data, rest)) == Before(out + data, rest)
  {
    if rest.Ok? { assert out + (data + rest.bytes) == (out + data) + rest.bytes; }
  }

  /** Each turn drops more than it appends and stays within the body, so the decoder stops. */
  method DecodeChunked(whole: seq<byte>) returns (r: Outcome)
    ensures r == Decode(whole)
    ensures r.Ok? ==> |r.bytes| <= |whole|
  {
    var out: seq<byte> := [];
    var body := whole;
    ghost var bodies, datas: seq<seq<byte>> := [whole], [];
    while true
      invariant |bodies| == |datas| + 1 && bodies[0] == whole && bodies[|datas|] == body
      invariant forall k :: 0 <= k < |datas| ==> TookAt(bodies, datas, k)
      invariant out == Flatten(datas) && |out| + |body| <= |whole|
      decreases |body|
    {
      var t := TakeChunk(body);
      match t {
        case Stop(outcome) =>
          DecodeOf(bodies, datas, outcome, 0);
          assert datas[0..] == datas;
          StopIsEmpty(body);
          return if outcome.Ok? then Ok(out) else outcome;
        case Take(data, rest) =>
          FlattenSnoc(datas, data);
          ghost var before, so := bodies, datas;
          bodies, datas := bodies + [rest], datas + [data];
          forall k | 0 <= k < |datas| ensures TookAt(bodies, datas, k) {
            assert k < |so| ==> TookAt(before, so, k);
          }
          out, body := out + data, rest;
      }
    }
  }

  lemma StopIsEmpty(body: seq<byte>)
    ensures Next(body).Stop? && Next(body).outcome.Ok? ==> Next(body).outcome == Ok([])
  {
  }

  // ---- Which bodies decode, and to what ----

  /** A chunk as it stands in the body: its size line, its data and the two bytes after it. */
  datatype Chunk = Chunk(head: seq<byte>, data: seq<byte>, gap: seq<byte>)

  predicate NoCrlf(s: seq<byte>) { forall k :: 0 <= k < |s| ==> !CrlfAt(s, k) }

  predicate Proper(c: Chunk) {
    && NoCrlf(c.head) && SizeOf(c.head) == Some(|c.data|) && 0 < |c.data| && |c.data| + 2 < WORD && |c.gap| == 2
  }

  /** A final size line, then any trailer. */
  predicate Final(head: seq<byte>) { NoCrlf(head) && SizeOf(head) == Some(0) }

  function Bytes(c: Chunk): seq<byte> { c.head + [CR, LF] + c.data + c.gap }

  function Layout(chunks: seq<Chunk>, last: seq<byte>, trailer: seq<byte>): seq<byte> {
    if chunks == [] then last + [CR, LF] + trailer else Bytes(chunks[0]) + Layout(chunks[1..], last, trailer)
  }

  function Content(chunks: seq<Chunk>): seq<byte> {
    if chunks == [] then [] else chunks[0].data + Content(chunks[1..])
  }

  lemma CrlfAfter(head: seq<byte>, rest: seq<byte>)
    requires NoCrlf(head)
    ensures Crlf(head + [CR, LF] + rest) == Some(|head|)
  {
    var s := head + [CR, LF] + rest;
    forall k | 0 <= k < |head| ensures !CrlfAt(s, k) { assert !CrlfAt(head, k); }
    assert CrlfAt(s, |head|);
    CrlfIsFirst(s, 0);
  }

  /** The parts of a body that starts with a chunk. */
  lemma Parts(c: Chunk, rest: seq<byte>)
    requires |c.gap| == 2
    ensures var body := Bytes(c) + rest;
            var n, size := |c.head|, |c.data|;
            && body == c.head + [CR, LF] + (c.data + c.gap + rest) && |body| == n + 2 + size + 2 + |rest|
            && body[..n] == c.head && body[n + 2..n + 2 + size] == c.data && body[n + 2 + size + 2..] == rest
  {
  }

  lemma NextIs(body: seq<byte>, n: nat, head: seq<byte>, data: seq<byte>, rest: seq<byte>)
    requires Crlf(body) == Some(n) && body[..n] == head && SizeOf(head) == Some(|data|)
    requires 0 < |data| && |data| + 2 < WORD && |body| - (n + 2) == |data| + 2 + |rest|
    requires body[n + 2..n + 2 + |data|] == data && body[n + 2 + |data| + 2..] == rest
    ensures Next(body) == Take(data, rest)
  {
  }

  lemma DecodeOne(c: Chunk, rest: seq<byte>)
    requires Proper(c)
    ensures Decode(Bytes(c) + rest) == Before(c.data, Decode(rest))
  {
    Parts(c, rest);
    CrlfAfter(c.head, c.data + c.gap + rest);
    NextIs(Bytes(c) + rest, |c.head|, c.head, c.data, rest);
  }

  lemma {:induction false} LayoutDecodes(chunks: seq<Chunk>, last: seq<byte>, trailer: seq<byte>)
    requires (forall c <- chunks :: Proper(c)) && Final(last)
    ensures Decode(Layout(chunks, last, trailer)) == Ok(Content(chunks))
  {
    if chunks == [] {
      CrlfAfter(last, trailer);
      assert (last + [CR, LF] + trailer)[..|last|] == last;
    } else {
      LayoutDecodes(chunks[1..], last, trailer);
      DecodeOne(chunks[0], Layout(chunks[1..], last, trailer));
    }
  }

  lemma HeadHasNoCrlf(body: seq<byte>, n: nat)
    requires FirstCrlf(body, n)
    ensures NoCrlf(body[..n])
  {
    forall k | 0 <= k < n ensures !CrlfAt(body[..n], k) { assert !CrlfAt(body, k); }
  }

  lemma Reassembled(body: seq<byte>, n: nat, size: nat)
    requires CrlfAt(body, n) && n + 2 + size + 2 <= |body|
    ensures var c := Chunk(body[..n], body[n + 2..n + 2 + size], body[n + 2 + size..n + 2 + size + 2]);
            |c.data| == size && |c.gap| == 2 && body == Bytes(c) + body[n + 2 + size + 2..]
  {
    assert body[n..n + 2] == [CR, LF];
  }

  /** The first chunk of a body that decodes, if it has one, and what remains. */
  lemma Opened(body: seq<byte>) returns (c: Chunk, rest: seq<byte>, more: bool)
    requires Decode(body).Ok?
    ensures more ==> Proper(c) && body == Bytes(c) + rest && Decode(rest).Ok? && |rest| < |body|
    ensures !more ==> Final(c.head) && body == c.head + [CR, LF] + rest
  {
    var n := Crlf(body).value;
    CrlfIsFirst(body, 0);
    HeadHasNoCrlf(body, n);
    var size := SizeOf(body[..n]).value;
    more := size != 0;
    if more {
      Reassembled(body, n, size);
      c := Chunk(body[..n], body[n + 2..n + 2 + size], body[n + 2 + size..n + 2 + size + 2]);
      rest := body[n + 2 + size + 2..];
    } else {
      c, rest := Chunk(body[..n], [], []), body[n + 2..];
      assert body[n..n + 2] == [CR, LF];
    }
  }

  lemma {:induction false} DecodedIsLaidOut(body: seq<byte>)
    returns (chunks: seq<Chunk>, last: seq<byte>, trailer: seq<byte>)
    requires Decode(body).Ok?
    ensures (forall c <- chunks :: Proper(c)) && Final(last) && body == Layout(chunks, last, trailer)
    decreases |body|
  {
    var c, rest, more := Opened(body);
    if !more {
      chunks, last, trailer := [], c.head, rest;
    } else {
      chunks, last, trailer := DecodedIsLaidOut(rest);
      assert ([c] + chunks)[1..] == chunks;
      chunks := [c] + chunks;
    }
  }

  ghost predicate Encodes(body: seq<byte>, out: seq<byte>) {
    exists chunks: seq<Chunk>, last, trailer ::
      (forall c <- chunks :: Proper(c)) && Final(last)
        && body == Layout(chunks, last, trailer) && out == Content(chunks)
  }

  /** A body decodes if and only if it is a list of chunks, and then to their concatenation. */
  lemma DecodesIffChunks(body: seq<byte>, out: seq<byte>)
    ensures Decode(body) == Ok(out) <==> Encodes(body, out)
  {
    if Decode(body) == Ok(out) {
      var chunks, last, trailer := DecodedIsLaidOut(body);
      LayoutDecodes(chunks, last, trailer);
    }
    if Encodes(body, out) {
      var chunks: seq<Chunk>, last, trailer :|
        (forall c <- chunks :: Proper(c)) && Final(last)
          && body == Layout(chunks, last, trailer) && out == Content(chunks);
      LayoutDecodes(chunks, last, trailer);
    }
  }

  // ---- Round trip ----

  function HexSymbol(d: nat, upper: bool): byte
    requires d < 16
  {
    if d < 10 then 48 + d else if upper then 55 + d else 87 + d
  }

  function HexText(n: nat, upper: bool): (s: seq<byte>)
    ensures s != [] && forall b <- s :: HexDigit(b).Some?
  {
    (if n < 16 then [] else HexText(n / 16, upper)) + [HexSymbol(n % 16, upper)]
  }

  lemma {:induction false} HexValuePrefix(s: seq<byte>, t: seq<byte>, n: nat)
    requires n <= |s|
    ensures HexValue(s + t, n) == HexValue(s, n)
  {
    if n > 0 { HexValuePrefix(s, t, n - 1); }
  }

  lemma {:induction false} HexTextValue(n: nat, upper: bool)
    ensures HexValue(HexText(n, upper), |HexText(n, upper)|) == Some(n)
  {
    var d := HexSymbol(n % 16, upper);
    assert HexDigit(d) == Some(n % 16);
    if n < 16 {
      assert HexText(n, upper) == [d];
      assert HexValue([d], 0) == Some(0);
    } else {
      var high := HexText(n / 16, upper);
      HexTextValue(n / 16, upper);
      HexValuePrefix(high, [d], |high|);
      assert HexText(n, upper) == high + [d];
      assert n == n / 16 * 16 + n % 16;
    }
  }

  lemma TrimmedHex(s: seq<byte>)
    requires s != [] && forall b <- s :: HexDigit(b).Some?
    ensures Trimmed(s) == s
  {
    assert s[0] in s && s[|s| - 1] in s;
    assert s[..|s|] == s;
    assert White(s, 0) == 0;
    assert WhiteBefore(s, 0, |s|) == 0;
  }

  // ---- Blanks around the size ----

  /** The white-space characters of Unicode, by code point. */
  predicate WhitePoint(c: nat) {
    || 9 <= c <= 13 || c == 32 || c == 0x85 || c == 0xA0 || c == 0x1680 || 0x2000 <= c <= 0x200A
    || c == 0x2028 || c == 0x2029 || c == 0x202F || c == 0x205F || c == 0x3000
  }

  /** UTF-8 for the code points that one to three bytes hold, section 3 of RFC 3629. */
  function Utf8(c: nat): seq<byte>
    requires c < 0x10000
  {
    if c < 0x80 then [c]
    else if c < 0x800 then [0xC0 + c / 0x40, 0x80 + c % 0x40]
    else [0xE0 + c / 0x1000, 0x80 + c / 0x40 % 0x40, 0x80 + c % 0x40]
  }

  /** Every white-space character is recognised where it stands. */
  lemma WhiteIsSeen(s: seq<byte>, i: nat, c: nat)
    requires c < 0x10000 && WhitePoint(c) && i + |Utf8(c)| <= |s| && s[i..i + |Utf8(c)|] == Utf8(c)
    ensures White(s, i) == |Utf8(c)|
  {
    var t := s[i..i + |Utf8(c)|];
    assert t[0] == s[i] && (|t| > 1 ==> t[1] == s[i + 1]) && (|t| > 2 ==> t[2] == s[i + 2]);
  }

  /** One white-space character stands between the cuts `k` and `k + 1`. */
  predicate WhiteCut(s: seq<byte>, cuts: seq<nat>, k: nat)
    requires k + 1 < |cuts|
  {
    cuts[k] < cuts[k + 1] <= |s| && White(s, cuts[k]) == cuts[k + 1] - cuts[k]
  }

  /** White-space characters, and nothing else, from one position to the other. */
  ghost predicate WhiteRun(s: seq<byte>, cuts: seq<nat>, start: nat, end: nat) {
    && cuts != [] && cuts[0] == start && cuts[|cuts| - 1] == end
    && forall k :: 0 <= k < |cuts| - 1 ==> WhiteCut(s, cuts, k)
  }

  lemma {:induction false} FrontSkips(s: seq<byte>, cuts: seq<nat>, k: nat)
    requires k < |cuts| && forall i :: 0 <= i < |cuts| - 1 ==> WhiteCut(s, cuts, i)
    requires cuts[|cuts| - 1] <= |s|
    ensures cuts[k] <= |s| && Front(s, cuts[k]) == Front(s, cuts[|cuts| - 1])
    decreases |cuts| - k
  {
    if k < |cuts| - 1 {
      assert WhiteCut(s, cuts, k);
      FrontSkips(s, cuts, k + 1);
    }
  }

  lemma BackOne(s: seq<byte>, i: nat, p: nat, q: nat)
    requires i <= p < q <= |s| && White(s, p) == q - p
    ensures WhiteBefore(s, i, q) == q - p
  {
    var t := s[..q];
    assert t[p] == s[p] && (p + 1 < q ==> t[p + 1] == s[p + 1]) && (p + 2 < q ==> t[p + 2] == s[p + 2]);
  }

  lemma {:induction false} BackSkips(s: seq<byte>, i: nat, cuts: seq<nat>, k: nat)
    requires k < |cuts| && i <= cuts[0] <= |s| && forall n :: 0 <= n < |cuts| - 1 ==> WhiteCut(s, cuts, n)
    ensures cuts[0] <= cuts[k] <= |s| && Back(s, i, cuts[k]) == Back(s, i, cuts[0])
  {
    if k > 0 {
      BackSkips(s, i, cuts, k - 1);
      assert WhiteCut(s, cuts, k - 1);
      BackOne(s, i, cuts[k - 1], cuts[k]);
    }
  }

  predicate AllHex(s: seq<byte>, start: nat, end: nat) {
    start < end <= |s| && forall i :: start <= i < end ==> HexDigit(s[i]).Some?
  }

  lemma HexStops(s: seq<byte>, start: nat, end: nat)
    requires AllHex(s, start, end)
    ensures Front(s, start) == start && Back(s, start, end) == end
  {
    assert s[..end][end - 1] == s[end - 1];
    assert White(s, start) == 0 && WhiteBefore(s, start, end) == 0;
  }

  /** Blanks of any kind on either side of hexadecimal digits are trimmed, and nothing else. */
  lemma BlanksAreTrimmed(s: seq<byte>, left: seq<nat>, start: nat, end: nat, right: seq<nat>)
    requires WhiteRun(s, left, 0, start) && AllHex(s, start, end) && WhiteRun(s, right, end, |s|)
    ensures Trimmed(s) == s[start..end]
  {
    FrontSkips(s, left, 0);
    BackSkips(s, start, right, |right| - 1);
    HexStops(s, start, end);
  }

  /** Extensions: nothing, or a semicolon and anything without a line end. */
  predicate Extension(ext: seq<byte>) { NoCrlf(ext) && (ext != [] ==> ext[0] == SEMICOLON) }

  lemma FieldEnds(hex: seq<byte>, ext: seq<byte>)
    requires (forall b <- hex :: HexDigit(b).Some?) && Extension(ext)
    ensures Field(hex + ext, 0) == |hex|
  {
    var line := hex + ext;
    FieldIsFirst(line, 0);
    forall k | 0 <= k < |hex| ensures line[k] != SEMICOLON { assert line[k] in hex; }
    assert ext != [] ==> line[|hex|] == SEMICOLON;
  }

  lemma LineEndFree(hex: seq<byte>, ext: seq<byte>)
    requires (forall b <- hex :: HexDigit(b).Some?) && Extension(ext)
    ensures NoCrlf(hex + ext)
  {
    var line := hex + ext;
    forall k | 0 <= k < |line| ensures !CrlfAt(line, k) {
      if k < |hex| { assert line[k] in hex; } else { assert !CrlfAt(ext, k - |hex|); }
    }
  }

  lemma ParsedHex(n: nat, upper: bool)
    requires n < WORD
    ensures ParseHex(HexText(n, upper)) == Some(n)
  {
    var hex := HexText(n, upper);
    HexTextValue(n, upper);
    assert hex[0] in hex;
  }

  /** Blanks around the size change nothing. */
  lemma SpacedSize(field: seq<byte>, left: seq<nat>, start: nat, end: nat, right: seq<nat>, ext: seq<byte>,
                   n: nat, upper: bool)
    requires WhiteRun(field, left, 0, start) && start < end <= |field| && WhiteRun(field, right, end, |field|)
    requires n < WORD && field[start..end] == HexText(n, upper)
    requires SEMICOLON !in field && (ext != [] ==> ext[0] == SEMICOLON)
    ensures SizeOf(field + ext) == Some(n)
  {
    FieldIs(field, ext);
    HexPlaced(field, start, end, n, upper);
    BlanksAreTrimmed(field, left, start, end, right);
    ParsedHex(n, upper);
  }

  lemma HexPlaced(s: seq<byte>, start: nat, end: nat, n: nat, upper: bool)
    requires start < end <= |s| && s[start..end] == HexText(n, upper)
    ensures AllHex(s, start, end)
  {
    forall i | start <= i < end ensures HexDigit(s[i]).Some? { assert s[i] == s[start..end][i - start]; }
  }

  lemma FieldIs(field: seq<byte>, ext: seq<byte>)
    requires SEMICOLON !in field && (ext != [] ==> ext[0] == SEMICOLON)
    ensures Field(field + ext, 0) == |field| && (field + ext)[..|field|] == field
  {
    var line := field + ext;
    FieldIsFirst(line, 0);
    forall k | 0 <= k < |field| ensures line[k] != SEMICOLON { assert line[k] in field; }
    assert ext != [] ==> line[|field|] == SEMICOLON;
  }

  lemma HexLine(n: nat, upper: bool, ext: seq<byte>)
    requires n < WORD && Extension(ext)
    ensures SizeOf(HexText(n, upper) + ext) == Some(n) && NoCrlf(HexText(n, upper) + ext)
  {
    var hex := HexText(n, upper);
    FieldEnds(hex, ext);
    assert (hex + ext)[..|hex|] == hex;
    TrimmedHex(hex);
    ParsedHex(n, upper);
    LineEndFree(hex, ext);
  }

  /** What a sender writes for one chunk. */
  datatype Piece = Piece(data: seq<byte>, upper: bool, ext: seq<byte>)

  predicate Sendable(p: Piece) { 0 < |p.data| && |p.data| + 2 < WORD && Extension(p.ext) }

  function ChunkOf(p: Piece): Chunk { Chunk(HexText(|p.data|, p.upper) + p.ext, p.data, [CR, LF]) }

  function Encode(pieces: seq<Piece>, ext: seq<byte>, trailer: seq<byte>): seq<byte> {
    Layout(seq(|pieces|, i requires 0 <= i < |pieces| => ChunkOf(pieces[i])), HexText(0, false) + ext, trailer)
  }

  function Data(pieces: seq<Piece>): seq<seq<byte>> {
    seq(|pieces|, i requires 0 <= i < |pieces| => pieces[i].data)
  }

  lemma {:induction false} ContentIsFlat(chunks: seq<Chunk>, parts: seq<seq<byte>>)
    requires |chunks| == |parts| && forall i :: 0 <= i < |chunks| ==> chunks[i].data == parts[i]
    ensures Content(chunks) == Flatten(parts)
  {
    if chunks != [] {
      ContentIsFlat(chunks[1..], parts[1..]);
      FlattenCons(parts[0], parts[1..]);
      assert parts == [parts[0]] + parts[1..];
    }
  }

  /** Decoding undoes encoding, whatever the extensions, the case of the sizes and the trailer. */
  lemma RoundTrip(pieces: seq<Piece>, ext: seq<byte>, trailer: seq<byte>)
    requires (forall p <- pieces :: Sendable(p)) && Extension(ext)
    ensures Decode(Encode(pieces, ext, trailer)) == Ok(Flatten(Data(pieces)))
  {
    var chunks := seq(|pieces|, i requires 0 <= i < |pieces| => ChunkOf(pieces[i]));
    forall c <- chunks ensures Proper(c) {
      var i :| 0 <= i < |chunks| && chunks[i] == c;
      assert pieces[i] in pieces;
      HexLine(|pieces[i].data|, pieces[i].upper, pieces[i].ext);
    }
    HexLine(0, false, ext);
    LayoutDecodes(chunks, HexText(0, false) + ext, trailer);
    ContentIsFlat(chunks, Data(pieces));
  }

  /** The bytes after a chunk are not looked at: these are no line end, and the body decodes all the same. */
  lemma GapIsNotChecked(data: seq<byte>, gap: seq<byte>, trailer: seq<byte>)
    requires 0 < |data| && |data| + 2 < WORD && |gap| == 2
    ensures Decode(Layout([Chunk(HexText(|data|, false), data, gap)], HexText(0, false), trailer)) == Ok(data)
  {
    HexLine(|data|, false, []);
    HexLine(0, false, []);
    assert HexText(|data|, false) + [] == HexText(|data|, false) && HexText(0, false) + [] == HexText(0, false);
    var chunks := [Chunk(HexText(|data|, false), data, gap)];
    LayoutDecodes(chunks, HexText(0, false), trailer);
    assert Content(chunks) == data + Content(chunks[1..]) == data;
  }
}
