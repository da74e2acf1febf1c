/**
 The mesh failover driver: roster, cooldowns, preferred endpoint, discovery and failover.

 Times are natural numbers, zero standing for the clock's zero value. Endpoint normalisation
 is not modelled: an endpoint arrives as the normalised URL, or `None` where normalisation fails.
 */
module MeshDriver {
  import opened Basics

  const COOLDOWN: nat := 5

  type Url = string

  datatype Entry = Entry(url: Url, seed: bool, healthy: bool, cooldownUntil: nat)

  datatype Info = Info(url: Url, healthy: bool, seed: bool)

  predicate Cooling(e: Entry, now: nat) { now < e.cooldownUntil }

  predicate Distinct(roster: seq<Entry>) {
    forall i, j :: 0 <= i < j < |roster| ==> roster[i].url != roster[j].url
  }

  predicate NoRepeats(urls: seq<Url>) {
    forall i, j :: 0 <= i < j < |urls| ==> urls[i] != urls[j]
  }

  predicate Listed(roster: seq<Entry>, url: Url) {
    exists i :: 0 <= i < |roster| && roster[i].url == url
  }

  /** The position of `url`, or the length of the roster. */
  ghost function IndexOf(roster: seq<Entry>, url: Url): (i: nat)
    ensures i <= |roster| && (i < |roster| ==> roster[i].url == url)
  {
    if Listed(roster, url) then var i :| 0 <= i < |roster| && roster[i].url == url; i else |roster|
  }

  // ---- Selection order ----

  /** 0 for the hinted endpoint, 1 for the preferred one, 2 for the others. */
  function Class(hint: Option<Url>, preferred: Url, e: Entry): nat {
    if hint == Some(e.url) then 0 else if e.url == preferred then 1 else 2
  }

  /** Where an endpoint stands: the hint first, then the preferred one, then roster order. */
  ghost function Rank(roster: seq<Entry>, hint: Option<Url>, preferred: Url, e: Entry): nat {
    var c := Class(hint, preferred, e);
    if c < 2 then c else 2 + IndexOf(roster, e.url)
  }

  /** Of two endpoints the one for the hint comes first, else the preferred one, else the one listed first. */
  lemma RanksBefore(roster: seq<Entry>, hint: Option<Url>, preferred: Url, i: nat, j: nat)
    requires Distinct(roster) && i < |roster| && j < |roster| && i != j
    ensures Rank(roster, hint, preferred, roster[i]) < Rank(roster, hint, preferred, roster[j]) <==>
            if hint == Some(roster[i].url) then true
            else if hint == Some(roster[j].url) then false
            else if roster[i].url == preferred then true
            else roster[j].url != preferred && i < j
  {
    IndexAt(roster, i);
    IndexAt(roster, j);
  }

  ghost predicate Rising(roster: seq<Entry>, hint: Option<Url>, preferred: Url, chosen: seq<Entry>) {
    forall i, j :: 0 <= i < j < |chosen| ==>
      Rank(roster, hint, preferred, chosen[i]) < Rank(roster, hint, preferred, chosen[j])
  }

  /** The entries of class `c` among the first `n`, in roster order. */
  function Pick(roster: seq<Entry>, n: nat, hint: Option<Url>, preferred: Url, c: nat): seq<Entry>
    requires n <= |roster|
  {
    if n == 0 then []
    else
      Pick(roster, n - 1, hint, preferred, c)
      + (if Class(hint, preferred, roster[n - 1]) == c then [roster[n - 1]] else [])
  }

  /** The roster reordered: the hint, the preferred endpoint, then the others. */
  function Ordered(roster: seq<Entry>, hint: Option<Url>, preferred: Url): seq<Entry> {
    Pick(roster, |roster|, hint, preferred, 0) + Pick(roster, |roster|, hint, preferred, 1)
    + Pick(roster, |roster|, hint, preferred, 2)
  }

  /** The entries among the first `n` that are not cooling down. */
  function Available(chosen: seq<Entry>, n: nat, now: nat): seq<Entry>
    requires n <= |chosen|
  {
    if n == 0 then []
    else Available(chosen, n - 1, now) + (if Cooling(chosen[n - 1], now) then [] else [chosen[n - 1]])
  }

  lemma IndexAt(roster: seq<Entry>, i: nat)
    requires Distinct(roster) && i < |roster|
    ensures IndexOf(roster, roster[i].url) == i
  {
    assert Listed(roster, roster[i].url);
  }

  /** The picked entries are those of the class. */
  lemma {:induction false} PickMembers(roster: seq<Entry>, n: nat, hint: Option<Url>, preferred: Url, c: nat)
    requires n <= |roster|
    ensures forall e <- Pick(roster, n, hint, preferred, c) :: e in roster && Class(hint, preferred, e) == c
    ensures forall k :: 0 <= k < n && Class(hint, preferred, roster[k]) == c ==>
      roster[k] in Pick(roster, n, hint, preferred, c)
  {
    if n > 0 {
      PickMembers(roster, n - 1, hint, preferred, c);
    }
  }

  /** The picked entries stand at rising positions below `n`. */
  lemma {:induction false} PickRises(roster: seq<Entry>, n: nat, hint: Option<Url>, preferred: Url, c: nat)
    requires Distinct(roster) && n <= |roster|
    ensures var picked := Pick(roster, n, hint, preferred, c);
            && (forall e <- picked :: IndexOf(roster, e.url) < n)
            && (forall i, j :: 0 <= i < j < |picked| ==>
              IndexOf(roster, picked[i].url) < IndexOf(roster, picked[j].url))
  {
    if n > 0 {
      PickRises(roster, n - 1, hint, preferred, c);
      IndexAt(roster, n - 1);
    }
  }

  lemma PickedDiffer(roster: seq<Entry>, hint: Option<Url>, preferred: Url, c: nat)
    requires Distinct(roster)
    ensures var picked := Pick(roster, |roster|, hint, preferred, c);
            |picked| <= 1 || picked[0].url != picked[1].url
  {
    PickRises(roster, |roster|, hint, preferred, c);
  }

  lemma PickedAgree(roster: seq<Entry>, hint: Option<Url>, preferred: Url, c: nat)
    requires c < 2
    ensures var picked := Pick(roster, |roster|, hint, preferred, c);
            |picked| <= 1 || picked[0].url == picked[1].url
  {
    PickMembers(roster, |roster|, hint, preferred, c);
    var picked := Pick(roster, |roster|, hint, preferred, c);
    if |picked| > 1 {
      assert picked[0] in picked && picked[1] in picked;
    }
  }

  lemma AtMostOne(roster: seq<Entry>, hint: Option<Url>, preferred: Url, c: nat)
    requires Distinct(roster) && c < 2
    ensures |Pick(roster, |roster|, hint, preferred, c)| <= 1
  {
    PickedDiffer(roster, hint, preferred, c);
    PickedAgree(roster, hint, preferred, c);
  }

  lemma OrderedMembers(roster: seq<Entry>, hint: Option<Url>, preferred: Url)
    requires Distinct(roster)
    ensures forall e :: e in Ordered(roster, hint, preferred) <==> e in roster
  {
    PickMembers(roster, |roster|, hint, preferred, 0);
    PickMembers(roster, |roster|, hint, preferred, 1);
    PickMembers(roster, |roster|, hint, preferred, 2);
  }

  /** The order of `Ordered` is exactly the order of ranks. */
  lemma OrderedByRank(roster: seq<Entry>, hint: Option<Url>, preferred: Url)
    requires Distinct(roster)
    ensures Rising(roster, hint, preferred, Ordered(roster, hint, preferred))
  {
    var first, second := Pick(roster, |roster|, hint, preferred, 0), Pick(roster, |roster|, hint, preferred, 1);
    var rest := Pick(roster, |roster|, hint, preferred, 2);
    AtMostOne(roster, hint, preferred, 0);
    AtMostOne(roster, hint, preferred, 1);
    PickRanks(roster, hint, preferred, 0);
    PickRanks(roster, hint, preferred, 1);
    PickRanks(roster, hint, preferred, 2);
    RisingJoin(roster, hint, preferred, first, second, 0);
    RisingJoin(roster, hint, preferred, first + second, rest, 1);
  }

  lemma PickRanks(roster: seq<Entry>, hint: Option<Url>, preferred: Url, c: nat)
    requires Distinct(roster) && c <= 2
    ensures var picked := Pick(roster, |roster|, hint, preferred, c);
            forall e <- picked :: Rank(roster, hint, preferred, e) >= c
              && (c < 2 ==> Rank(roster, hint, preferred, e) == c)
    ensures c == 2 ==> Rising(roster, hint, preferred, Pick(roster, |roster|, hint, preferred, c))
  {
    PickMembers(roster, |roster|, hint, preferred, c);
    PickRises(roster, |roster|, hint, preferred, c);
  }

  lemma RisingJoin(roster: seq<Entry>, hint: Option<Url>, preferred: Url, a: seq<Entry>, b: seq<Entry>, bound: nat)
    requires Rising(roster, hint, preferred, a) && Rising(roster, hint, preferred, b)
    requires forall e <- a :: Rank(roster, hint, preferred, e) <= bound
    requires forall e <- b :: Rank(roster, hint, preferred, e) > bound
    ensures Rising(roster, hint, preferred, a + b)
  {
  }

  /** All of `some` rank below `e`. */
  ghost predicate AllBelow(roster: seq<Entry>, hint: Option<Url>, preferred: Url, some: seq<Entry>, e: Entry) {
    forall i :: 0 <= i < |some| ==> Rank(roster, hint, preferred, some[i]) < Rank(roster, hint, preferred, e)
  }

  lemma RisingSnoc(roster: seq<Entry>, hint: Option<Url>, preferred: Url, some: seq<Entry>, e: Entry)
    requires Rising(roster, hint, preferred, some) && AllBelow(roster, hint, preferred, some, e)
    ensures Rising(roster, hint, preferred, some + [e])
  {
  }

  lemma {:induction false} AvailableBelow(roster: seq<Entry>, hint: Option<Url>, preferred: Url,
                                          chosen: seq<Entry>, n: nat, now: nat, k: nat)
    requires Rising(roster, hint, preferred, chosen) && n <= k < |chosen|
    ensures AllBelow(roster, hint, preferred, Available(chosen, n, now), chosen[k])
  {
    if n > 0 { AvailableBelow(roster, hint, preferred, chosen, n - 1, now, k); }
  }

  lemma {:induction false} AvailableMembers(chosen: seq<Entry>, n: nat, now: nat)
    requires n <= |chosen|
    ensures forall e <- Available(chosen, n, now) :: e in chosen && !Cooling(e, now)
    ensures forall k :: 0 <= k < n && !Cooling(chosen[k], now) ==> chosen[k] in Available(chosen, n, now)
  {
    if n > 0 { AvailableMembers(chosen, n - 1, now); }
  }

  /** Leaving entries out keeps the order of the others. */
  lemma {:induction false} AvailableKeepsOrder(roster: seq<Entry>, hint: Option<Url>, preferred: Url,
                                               chosen: seq<Entry>, n: nat, now: nat)
    requires Rising(roster, hint, preferred, chosen) && n <= |chosen|
    ensures Rising(roster, hint, preferred, Available(chosen, n, now))
  {
    if n > 0 {
      AvailableKeepsOrder(roster, hint, preferred, chosen, n - 1, now);
      AvailableBelow(roster, hint, preferred, chosen, n - 1, now, n - 1);
      RisingSnoc(roster, hint, preferred, Available(chosen, n - 1, now), chosen[n - 1]);
    }
  }
}
