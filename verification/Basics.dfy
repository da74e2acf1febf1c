/** Types and sequence facts shared by the protocol models. */
module Basics {

  type byte = b: int | 0 <= b < 256

  datatype Option<+T> = None | Some(value: T)

  /** The value of a hexadecimal digit in either case. */
  function HexDigit(b: byte): Option<nat> {
    if 48 <= b <= 57 then Some(b - 48)
    else if 65 <= b <= 70 then Some(b - 55)
    else if 97 <= b <= 102 then Some(b - 87)
    else None
  }

  /** The concatenation of `parts`, in order. */
  function Flatten<T>(parts: seq<seq<T>>): seq<T> {
    if parts == [] then [] else Flatten(parts[..|parts| - 1]) + parts[|parts| - 1]
  }

  /** The last `n` elements of `s`, or all of `s` when it is shorter. */
  function Last<T>(s: seq<T>, n: nat): (r: seq<T>)
    ensures |r| <= n && |r| <= |s|
    ensures r == s[|s| - |r|..]
  {
    if |s| <= n then s else s[|s| - n..]
  }

  lemma FlattenSnoc<T>(parts: seq<seq<T>>, x: seq<T>)
    ensures Flatten(parts + [x]) == Flatten(parts) + x
  {
    assert (parts + [x])[..|parts|] == parts;
  }

  lemma {:induction false} FlattenCons<T>(x: seq<T>, parts: seq<seq<T>>)
    ensures Flatten([x] + parts) == x + Flatten(parts)
  {
    if parts == [] {
      assert [x] + parts == [] + [x];
      FlattenSnoc([], x);
    } else {
      var n := |parts| - 1;
      FlattenCons(x, parts[..n]);
      assert ([x] + parts)[..n + 1] == [x] + parts[..n];
    }
  }

  /** Keeping a window of the last `n` elements commutes with appending. */
  lemma LastOfAppend<T>(s: seq<T>, t: seq<T>, n: nat)
    ensures Last(Last(s, n) + t, n) == Last(s + t, n)
  {
    var kept := Last(s, n);
    assert s + t == s[..|s| - |kept|] + (kept + t);
    if |kept + t| >= n {
      LastOfSuffix(s[..|s| - |kept|], kept + t, n);
    }
  }

  lemma LastOfSuffix<T>(s: seq<T>, t: seq<T>, n: nat)
    requires |t| >= n
    ensures Last(s + t, n) == Last(t, n)
  {
    assert (s + t)[|s| + |t| - n..] == t[|t| - n..];
  }

  /** Quotient and remainder are unique. */
  lemma SameQuotient(n: nat, q: int, r: nat, d: int, m: nat)
    requires r < n && m < n && q * n + r == d * n + m
    ensures q == d && r == m
  {
    if q != d {
      var more := if q > d then q - d else d - q;
      assert more * n == if q > d then q * n - d * n else d * n - q * n;
      AtLeastOnce(more, n);
    }
  }

  lemma AtLeastOnce(k: int, n: nat)
    requires k >= 1
    ensures k * n >= n
  {
    assert k * n == n + (k - 1) * n;
  }
}
