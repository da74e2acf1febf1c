/**
 The canonical query string of a signed request.

 Parsing a URL into decoded pairs is not modelled: a query is its list of key and value bytes.
 */
module CanonicalQuery {
  import opened Basics

  const PERCENT: byte := 37
  const EQUALS: byte := 61
  const AMPERSAND: byte := 38

  type Text = seq<byte>

  datatype Pair = Pair(key: Text, value: Text)

  // ---- Percent-encoding, sections 2.1 and 2.3 of RFC 3986 ----

  predicate Unreserved(b: byte) {
    48 <= b <= 57 || 65 <= b <= 90 || 97 <= b <= 122 || b in [45, 95, 46, 126]
  }

  function HexSymbol(d: nat): byte
    requires d < 16
  {
    if d < 10 then 48 + d else 55 + d
  }

  function EncodeByte(b: byte): Text {
    if Unreserved(b) then [b] else [PERCENT, HexSymbol(b / 16), HexSymbol(b % 16)]
  }

  function Encode(s: Text): Text {
    if s == [] then [] else EncodeByte(s[0]) + Encode(s[1..])
  }

  function Unescape(high: byte, low: byte): Option<byte> {
    match (HexDigit(high), HexDigit(low))
    case (Some(h), Some(l)) => var v := h * 16 + l; if v < 256 then Some(v) else None
    case _ => None
  }

  /** Percent-decoding. */
  function Decode(s: Text): Option<Text> {
    if s == [] then Some([])
    else if s[0] != PERCENT then
      match Decode(s[1..])
      case Some(rest) => Some([s[0]] + rest)
      case None => None
    else if |s| < 3 then None
    else
      match (Unescape(s[1], s[2]), Decode(s[3..]))
      case (Some(b), Some(rest)) => Some([b] + rest)
      case _ => None
  }

  lemma EncodeByteBack(b: byte, rest: Text)
    ensures Decode(EncodeByte(b) + rest) == match Decode(rest) case Some(s) => Some([b] + s) case None => None
  {
    var s := EncodeByte(b) + rest;
    if Unreserved(b) {
      assert s[1..] == rest;
    } else {
      assert Unescape(s[1], s[2]) == Some(b);
      assert s[3..] == rest;
    }
  }

  lemma {:induction false} DecodeEncode(s: Text)
    ensures Decode(Encode(s)) == Some(s)
  {
    if s != [] {
      DecodeEncode(s[1..]);
      EncodeByteBack(s[0], Encode(s[1..]));
      assert [s[0]] + s[1..] == s;
    }
  }

  /** Distinct components have distinct encodings. */
  lemma EncodeIsInjective(a: Text, b: Text)
    requires Encode(a) == Encode(b)
    ensures a == b
  {
    DecodeEncode(a);
    DecodeEncode(b);
  }

  predicate Clean(s: Text) { EQUALS !in s && AMPERSAND !in s }

  lemma {:induction false} EncodeIsClean(s: Text)
    ensures Clean(Encode(s))
  {
    if s != [] { EncodeIsClean(s[1..]); }
  }

  lemma EncodeFrom(s: Text, i: nat)
    requires i < |s|
    ensures Encode(s[i..]) == EncodeByte(s[i]) + Encode(s[i + 1..])
  {
    assert s[i..][1..] == s[i + 1..];
  }

  lemma Regroup(a: Text, b: Text, c: Text)
    ensures a + (b + c) == (a + b) + c
  {
  }

  method EncodeComponent(value: Text) returns (encoded: Text)
    ensures encoded == Encode(value)
  {
    encoded := [];
    for i := 0 to |value|
      invariant encoded + Encode(value[i..]) == Encode(value)
    {
      EncodeFrom(value, i);
      Regroup(encoded, EncodeByte(value[i]), Encode(value[i + 1..]));
      if Unreserved(value[i]) {
        encoded := encoded + [value[i]];
      } else {
        encoded := encoded + [PERCENT, HexSymbol(value[i] / 16), HexSymbol(value[i] % 16)];
      }
    }
  }

  // ---- Sorting ----

  /** Byte-wise lexicographic order. */
  predicate Leq(a: Text, b: Text) {
    a == [] || (b != [] && (a[0] < b[0] || (a[0] == b[0] && Leq(a[1..], b[1..]))))
  }

  predicate PairLeq(p: Pair, q: Pair) { if p.key == q.key then Leq(p.value, q.value) else Leq(p.key, q.key) }

  lemma {:induction false} LeqTotal(a: Text, b: Text)
    ensures Leq(a, b) || Leq(b, a)
  {
    if a != [] && b != [] && a[0] == b[0] { LeqTotal(a[1..], b[1..]); }
  }

  lemma {:induction false} LeqAntisymmetric(a: Text, b: Text)
    requires Leq(a, b) && Leq(b, a)
    ensures a == b
  {
    if a != [] && b != [] {
      LeqAntisymmetric(a[1..], b[1..]);
      assert a == [a[0]] + a[1..] && b == [b[0]] + b[1..];
    }
  }

  lemma {:induction false} LeqTransitive(a: Text, b: Text, c: Text)
    requires Leq(a, b) && Leq(b, c)
    ensures Leq(a, c)
  {
    if a != [] && a[0] == b[0] == c[0] { LeqTransitive(a[1..], b[1..], c[1..]); }
  }

  lemma PairTotal(p: Pair, q: Pair)
    ensures PairLeq(p, q) || PairLeq(q, p)
  {
    LeqTotal(p.key, q.key);
    LeqTotal(p.value, q.value);
  }

  lemma PairAntisymmetric(p: Pair, q: Pair)
    requires PairLeq(p, q) && PairLeq(q, p)
    ensures p == q
  {
    if p.key == q.key { LeqAntisymmetric(p.value, q.value); } else { LeqAntisymmetric(p.key, q.key); }
  }

  lemma PairTransitive(p: Pair, q: Pair, r: Pair)
    requires PairLeq(p, q) && PairLeq(q, r)
    ensures PairLeq(p, r)
  {
    if p.key == q.key == r.key {
      LeqTransitive(p.value, q.value, r.value);
    } else {
      if p.key == q.key || q.key == r.key {} else { LeqTransitive(p.key, q.key, r.key); }
      if p.key == r.key { LeqAntisymmetric(p.key, q.key); }
    }
  }

  predicate Sorted(s: seq<Pair>) {
    forall i, j :: 0 <= i < j < |s| ==> PairLeq(s[i], s[j])
  }

  method Insert(s: seq<Pair>, x: Pair) returns (r: seq<Pair>)
    requires Sorted(s)
    ensures Sorted(r) && multiset(r) == multiset(s) + multiset{x}
  {
    var i := 0;
    while i < |s| && PairLeq(s[i], x)
      invariant i <= |s| && forall k :: 0 <= k < i ==> PairLeq(s[k], x)
    {
      i := i + 1;
    }
    r := s[..i] + [x] + s[i..];
    assert s == s[..i] + s[i..];
    if i < |s| {
      PairTotal(s[i], x);
      forall k | i <= k < |s| ensures PairLeq(x, s[k]) {
        if k > i { PairTransitive(x, s[i], s[k]); }
      }
    }
  }

  method Sort(s: seq<Pair>) returns (r: seq<Pair>)
    ensures Sorted(r) && multiset(r) == multiset(s)
  {
    r := [];
    for i := 0 to |s|
      invariant Sorted(r) && multiset(r) == multiset(s[..i])
    {
      assert s[..i + 1] == s[..i] + [s[i]];
      r := Insert(r, s[i]);
    }
    assert s[..|s|] == s;
  }

  lemma HeadsAgree(a: seq<Pair>, b: seq<Pair>)
    requires Sorted(a) && Sorted(b) && a != [] && b != [] && a[0] in b && b[0] in a
    ensures a[0] == b[0]
  {
    var j :| 0 <= j < |b| && b[j] == a[0];
    var i :| 0 <= i < |a| && a[i] == b[0];
    if i > 0 && j > 0 { PairAntisymmetric(a[0], b[0]); }
  }

  lemma WithoutHead<T>(s: seq<T>)
    requires s != []
    ensures multiset(s) == multiset{s[0]} + multiset(s[1..]) && multiset(s[1..]) == multiset(s) - multiset{s[0]}
  {
    assert s == [s[0]] + s[1..];
  }

  lemma SameMembers<T>(a: seq<T>, b: seq<T>)
    requires multiset(a) == multiset(b)
    ensures |a| == |b| && (a != [] ==> a[0] in b && b[0] in a)
  {
    assert |multiset(a)| == |multiset(b)|;
    if a != [] { assert a[0] in multiset(a) && b[0] in multiset(b); }
  }

  /** The same pairs can be sorted in one way only. */
  lemma {:induction false} SortedIsUnique(a: seq<Pair>, b: seq<Pair>)
    requires Sorted(a) && Sorted(b) && multiset(a) == multiset(b)
    ensures a == b
  {
    SameMembers(a, b);
    if a != [] {
      HeadsAgree(a, b);
      WithoutHead(a);
      WithoutHead(b);
      SortedIsUnique(a[1..], b[1..]);
      assert a == [a[0]] + a[1..] && b == [b[0]] + b[1..];
    }
  }

  // ---- Joining ----

  function Item(p: Pair): Text { p.key + [EQUALS] + p.value }

  function Join(pairs: seq<Pair>): Text {
    if pairs == [] then [] else Item(pairs[0]) + Tail(pairs[1..])
  }

  function Tail(pairs: seq<Pair>): Text {
    if pairs == [] then [] else [AMPERSAND] + Item(pairs[0]) + Tail(pairs[1..])
  }

  predicate AllClean(pairs: seq<Pair>) { forall p <- pairs :: Clean(p.key) && Clean(p.value) }

  /** What precedes the first separator is determined by the whole. */
  lemma Cut(left: Text, more: Text, left': Text, more': Text, separator: byte)
    requires left + more == left' + more' && separator !in left && separator !in left'
    requires (more == [] || more[0] == separator) && (more' == [] || more'[0] == separator)
    ensures left == left' && more == more'
  {
    var s := left + more;
    assert left == s[..|left|] && left' == (left' + more')[..|left'|];
    assert more == s[|left|..] && more' == (left' + more')[|left'|..];
  }

  lemma CutItem(p: Pair, tail: Text, q: Pair, tail': Text)
    requires Clean(p.key) && Clean(p.value) && Clean(q.key) && Clean(q.value)
    requires (tail == [] || tail[0] == AMPERSAND) && (tail' == [] || tail'[0] == AMPERSAND)
    requires Item(p) + tail == Item(q) + tail'
    ensures p == q && tail == tail'
  {
    assert Item(p) + tail == p.key + ([EQUALS] + p.value + tail);
    assert Item(q) + tail' == q.key + ([EQUALS] + q.value + tail');
    Cut(p.key, [EQUALS] + p.value + tail, q.key, [EQUALS] + q.value + tail', EQUALS);
    assert p.value + tail == ([EQUALS] + p.value + tail)[1..];
    assert q.value + tail' == ([EQUALS] + q.value + tail')[1..];
    Cut(p.value, tail, q.value, tail', AMPERSAND);
  }

  lemma {:induction false} TailIsInjective(a: seq<Pair>, b: seq<Pair>)
    requires AllClean(a) && AllClean(b) && Tail(a) == Tail(b)
    ensures a == b
  {
    if a != [] && b != [] {
      assert a[0] in a && b[0] in b;
      assert Item(a[0]) + Tail(a[1..]) == Tail(a)[1..];
      assert Item(b[0]) + Tail(b[1..]) == Tail(b)[1..];
      CutItem(a[0], Tail(a[1..]), b[0], Tail(b[1..]));
      TailIsInjective(a[1..], b[1..]);
      assert a == [a[0]] + a[1..] && b == [b[0]] + b[1..];
    }
  }

  lemma JoinIsInjective(a: seq<Pair>, b: seq<Pair>)
    requires AllClean(a) && AllClean(b) && Join(a) == Join(b)
    ensures a == b
  {
    if a != [] && b != [] {
      assert a[0] in a && b[0] in b;
      CutItem(a[0], Tail(a[1..]), b[0], Tail(b[1..]));
      TailIsInjective(a[1..], b[1..]);
      assert a == [a[0]] + a[1..] && b == [b[0]] + b[1..];
    }
  }

  // ---- The canonical form ----

  function EncodePair(p: Pair): Pair { Pair(Encode(p.key), Encode(p.value)) }

  function Encoded(pairs: seq<Pair>): seq<Pair> {
    seq(|pairs|, i requires 0 <= i < |pairs| => EncodePair(pairs[i]))
  }

  /** `s` is the encoded pairs, sorted and joined. */
  ghost predicate IsCanonical(pairs: seq<Pair>, s: Text) {
    exists sorted :: Sorted(sorted) && multiset(sorted) == multiset(Encoded(pairs)) && s == Join(sorted)
  }

  /** Read as a query, the string holds the encoded pairs in ascending order. */
  method Canonical(pairs: seq<Pair>) returns (s: Text)
    ensures IsCanonical(pairs, s)
    ensures pairs == [] ==> s == []
    ensures pairs != [] ==> Ascending(Parsed(s)) && multiset(Parsed(s)) == multiset(Encoded(pairs))
  {
    var encoded: seq<Pair> := [];
    for i := 0 to |pairs|
      invariant |encoded| == i && forall k :: 0 <= k < i ==> encoded[k] == EncodePair(pairs[k])
    {
      var key := EncodeComponent(pairs[i].key);
      var value := EncodeComponent(pairs[i].value);
      encoded := encoded + [Pair(key, value)];
    }
    assert encoded == Encoded(pairs);
    var sorted := Sort(encoded);
    s := JoinAll(sorted);
    CanonicalReads(pairs, s);
  }

  lemma TailFrom(pairs: seq<Pair>, i: nat)
    requires i < |pairs|
    ensures Tail(pairs[i..]) == [AMPERSAND] + (Item(pairs[i]) + Tail(pairs[i + 1..]))
  {
    assert pairs[i..][1..] == pairs[i + 1..];
    Regroup([AMPERSAND], Item(pairs[i]), Tail(pairs[i + 1..]));
  }

  method JoinAll(pairs: seq<Pair>) returns (s: Text)
    ensures s == Join(pairs)
  {
    s := [];
    for i := 0 to |pairs|
      invariant s + (if i == 0 then Join(pairs) else Tail(pairs[i..])) == Join(pairs)
    {
      ghost var rest := Tail(pairs[i + 1..]);
      if i > 0 {
        TailFrom(pairs, i);
        Regroup(s, [AMPERSAND], Item(pairs[i]) + rest);
        s := s + [AMPERSAND];
      }
      Regroup(s, Item(pairs[i]), rest);
      s := s + Item(pairs[i]);
    }
  }

  lemma EncodedMembers(pairs: seq<Pair>)
    ensures AllClean(Encoded(pairs))
  {
    forall e <- Encoded(pairs) ensures Clean(e.key) && Clean(e.value) {
      var i :| 0 <= i < |pairs| && e == EncodePair(pairs[i]);
      EncodeIsClean(pairs[i].key);
      EncodeIsClean(pairs[i].value);
    }
  }

  lemma {:induction false} CountMapped<A, B>(s: seq<A>, t: seq<B>, x: A, y: B)
    requires |s| == |t| && forall i :: 0 <= i < |s| ==> (s[i] == x <==> t[i] == y)
    ensures multiset(s)[x] == multiset(t)[y]
  {
    if s != [] {
      WithoutHead(s);
      WithoutHead(t);
      CountMapped(s[1..], t[1..], x, y);
    }
  }

  /** Encoding keeps how often each pair occurs. */
  lemma EncodedCount(pairs: seq<Pair>, p: Pair)
    ensures multiset(Encoded(pairs))[EncodePair(p)] == multiset(pairs)[p]
  {
    forall i | 0 <= i < |pairs| ensures pairs[i] == p <==> Encoded(pairs)[i] == EncodePair(p) {
      var q := pairs[i];
      if EncodePair(q) == EncodePair(p) {
        EncodeIsInjective(q.key, p.key);
        EncodeIsInjective(q.value, p.value);
      }
    }
    CountMapped(pairs, Encoded(pairs), p, EncodePair(p));
  }

  lemma SameCount(a: seq<Pair>, b: seq<Pair>, e: Pair)
    requires multiset(a) == multiset(b)
    ensures multiset(Encoded(a))[e] == multiset(Encoded(b))[e]
  {
    if p :| e == EncodePair(p) {
      EncodedCount(a, p);
      EncodedCount(b, p);
    } else {
      assert e !in Encoded(a) && e !in Encoded(b);
    }
  }

  lemma EncodedPermutes(a: seq<Pair>, b: seq<Pair>)
    ensures multiset(Encoded(a)) == multiset(Encoded(b)) <==> multiset(a) == multiset(b)
  {
    if multiset(Encoded(a)) == multiset(Encoded(b)) {
      forall p ensures multiset(a)[p] == multiset(b)[p] {
        EncodedCount(a, p);
        EncodedCount(b, p);
      }
    }
    if multiset(a) == multiset(b) {
      forall e ensures multiset(Encoded(a))[e] == multiset(Encoded(b))[e] { SameCount(a, b, e); }
    }
  }

  lemma SortedClean(pairs: seq<Pair>, sorted: seq<Pair>)
    requires multiset(sorted) == multiset(Encoded(pairs))
    ensures AllClean(sorted)
  {
    EncodedMembers(pairs);
    forall p <- sorted ensures Clean(p.key) && Clean(p.value) {
      assert p in multiset(sorted);
    }
  }

  /** The canonical string is a complete normal form: equal strings, and only they, come from permuted pairs. */
  lemma SameStringIffPermutation(a: seq<Pair>, b: seq<Pair>, s: Text, t: Text)
    requires IsCanonical(a, s) && IsCanonical(b, t)
    ensures s == t <==> multiset(a) == multiset(b)
  {
    var sa :| Sorted(sa) && multiset(sa) == multiset(Encoded(a)) && s == Join(sa);
    var sb :| Sorted(sb) && multiset(sb) == multiset(Encoded(b)) && t == Join(sb);
    EncodedPermutes(a, b);
    SortedClean(a, sa);
    SortedClean(b, sb);
    if s == t { JoinIsInjective(sa, sb); }
    if multiset(a) == multiset(b) { SortedIsUnique(sa, sb); }
  }

  // ---- The form in its own terms ----

  const DIGITS := "0123456789ABCDEF"

  predicate Plain(c: char) {
    '0' <= c <= '9' || 'A' <= c <= 'Z' || 'a' <= c <= 'z' || c == '-' || c == '_' || c == '.' || c == '~'
  }

  /** Letters, digits and four marks stand for themselves; any other byte is a percent sign and two digits. */
  function Shown(b: byte): string {
    if Plain(b as char) then [b as char] else ['%', DIGITS[b / 16], DIGITS[b % 16]]
  }

  function Chars(s: Text): string { seq(|s|, i requires 0 <= i < |s| => s[i] as char) }

  function ShownAll(s: Text): seq<string> { seq(|s|, i requires 0 <= i < |s| => Shown(s[i])) }

  lemma ByteShown(b: byte)
    ensures Chars(EncodeByte(b)) == Shown(b)
  {
    var high, low := b / 16, b % 16;
    assert HexSymbol(high) as char == DIGITS[high] && HexSymbol(low) as char == DIGITS[low];
  }

  lemma CharsAppend(a: Text, b: Text)
    ensures Chars(a + b) == Chars(a) + Chars(b)
  {
  }

  lemma {:induction false} EncodedShown(s: Text)
    ensures Chars(Encode(s)) == Flatten(ShownAll(s))
  {
    if s != [] {
      EncodedShown(s[1..]);
      ByteShown(s[0]);
      FlattenCons(Shown(s[0]), ShownAll(s[1..]));
      assert ShownAll(s) == [Shown(s[0])] + ShownAll(s[1..]);
      CharsAppend(EncodeByte(s[0]), Encode(s[1..]));
    }
  }

  /** `k` is the first place where they differ, and there `a` is smaller. */
  ghost predicate SmallerAt(a: Text, b: Text, k: nat) {
    k < |a| && k < |b| && a[k] < b[k] && forall j :: 0 <= j < k ==> a[j] == b[j]
  }

  /** `a` is `b` or a beginning of it, or smaller at the first place where they differ. */
  ghost predicate NotAfter(a: Text, b: Text) {
    a <= b || exists k :: SmallerAt(a, b, k)
  }

  lemma SmallerLater(a: Text, b: Text)
    requires a != [] && b != [] && a[0] == b[0]
    ensures NotAfter(a, b) <==> NotAfter(a[1..], b[1..])
  {
    assert a == [a[0]] + a[1..] && b == [b[0]] + b[1..];
    if k: nat :| SmallerAt(a[1..], b[1..], k) { assert SmallerAt(a, b, k + 1); }
    if k: nat :| SmallerAt(a, b, k) { assert SmallerAt(a[1..], b[1..], k - 1); }
  }

  lemma {:induction false} LeqIsNotAfter(a: Text, b: Text)
    ensures Leq(a, b) <==> NotAfter(a, b)
  {
    if a != [] && b != [] {
      if a[0] == b[0] {
        LeqIsNotAfter(a[1..], b[1..]);
        SmallerLater(a, b);
      } else if a[0] < b[0] {
        assert SmallerAt(a, b, 0);
      }
    }
  }

  /** Keys decide; equal keys leave it to the values. */
  ghost predicate Ascending(pairs: seq<Pair>) {
    forall i, j :: 0 <= i < j < |pairs| ==>
      if pairs[i].key == pairs[j].key then NotAfter(pairs[i].value, pairs[j].value)
      else NotAfter(pairs[i].key, pairs[j].key)
  }

  lemma SortedAscends(pairs: seq<Pair>)
    requires Sorted(pairs)
    ensures Ascending(pairs)
  {
    forall i, j | 0 <= i < j < |pairs|
      ensures if pairs[i].key == pairs[j].key then NotAfter(pairs[i].value, pairs[j].value)
              else NotAfter(pairs[i].key, pairs[j].key)
    {
      LeqIsNotAfter(pairs[i].key, pairs[j].key);
      LeqIsNotAfter(pairs[i].value, pairs[j].value);
    }
  }

  /** Where `separator` first stands, or the length. */
  function Until(s: Text, separator: char): (n: nat)
    ensures n <= |s| && (n < |s| ==> s[n] == separator as int) && forall k :: 0 <= k < n ==> s[k] != separator as int
  {
    if s == [] || s[0] == separator as int then 0 else Until(s[1..], separator) + 1
  }

  /** A key and a value around an equals sign. */
  function ParseItem(s: Text): Pair {
    var n := Until(s, '=');
    if n == |s| then Pair(s, []) else Pair(s[..n], s[n + 1..])
  }

  /** The items between ampersands, each with its key and value. */
  function Parsed(s: Text): seq<Pair>
    decreases |s|
  {
    var n := Until(s, '&');
    if n == |s| then [ParseItem(s)] else [ParseItem(s[..n])] + Parsed(s[n + 1..])
  }

  lemma ItemParsed(p: Pair)
    requires Clean(p.key) && Clean(p.value)
    ensures ParseItem(Item(p)) == p && AMPERSAND !in Item(p)
  {
    var s := Item(p);
    assert s[|p.key|] == EQUALS && s[..|p.key|] == p.key && s[|p.key| + 1..] == p.value;
  }

  lemma ItemThen(item: Text, tail: Text)
    requires AMPERSAND !in item
    ensures Parsed(item) == [ParseItem(item)]
    ensures Parsed(item + ([AMPERSAND] + tail)) == [ParseItem(item)] + Parsed(tail)
  {
    var s := item + ([AMPERSAND] + tail);
    assert s[|item|] == AMPERSAND && s[..|item|] == item && s[|item| + 1..] == tail;
    assert Until(s, '&') == |item|;
  }

  lemma {:induction false} JoinParsed(pairs: seq<Pair>)
    requires pairs != [] && AllClean(pairs)
    ensures Parsed(Join(pairs)) == pairs
  {
    var rest := pairs[1..];
    assert pairs[0] in pairs;
    ItemParsed(pairs[0]);
    if rest == [] {
      assert Join(pairs) == Item(pairs[0]);
      ItemThen(Item(pairs[0]), []);
    } else {
      JoinParsed(rest);
      TailFrom(rest, 0);
      assert Tail(rest) == [AMPERSAND] + Join(rest) by { assert rest[0..] == rest; }
      ItemThen(Item(pairs[0]), Join(rest));
      assert pairs == [pairs[0]] + rest;
    }
  }

  /** The canonical string read back: the encoded pairs, in ascending order. */
  lemma CanonicalReads(pairs: seq<Pair>, s: Text)
    requires IsCanonical(pairs, s)
    ensures pairs == [] ==> s == []
    ensures pairs != [] ==> Ascending(Parsed(s)) && multiset(Parsed(s)) == multiset(Encoded(pairs))
  {
    var sorted :| Sorted(sorted) && multiset(sorted) == multiset(Encoded(pairs)) && s == Join(sorted);
    SameMembers(sorted, Encoded(pairs));
    if pairs != [] {
      SortedClean(pairs, sorted);
      JoinParsed(sorted);
      SortedAscends(sorted);
    }
  }
}
