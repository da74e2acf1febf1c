/**
 What the lock sections of the driver do to any one endpoint, as a fold over the sections in
 the order in which the goroutines take the lock.
 */
module MeshRecord {
  import opened Basics
  import opened MeshDriver

  /** One lock section: an attempt begins, fails or succeeds, or a refresh merges what it was told. */
  datatype Op =
    | Dialed(url: Url)
    | Failed(url: Url, now: nat)
    | Succeeded(url: Url)
    | Merged(advertised: seq<Option<Url>>)

  /** The endpoints listed, the preferred one, and of one endpoint whether it is clear and has a transport. */
  datatype Record = Record(known: set<Url>, preferred: Url, clear: bool, dialed: bool)

  function Entered(urls: seq<Option<Url>>): set<Url> {
    set i | 0 <= i < |urls| && urls[i].Some? :: urls[i].value
  }

  function ListedUrls(roster: seq<Entry>): set<Url> {
    set e | e in roster :: e.url
  }

  /** Healthy and not cooling down. */
  predicate Clear(roster: seq<Entry>, url: Url) {
    exists e <- roster :: e.url == url && e.healthy && e.cooldownUntil == 0
  }

  function RecordOf(roster: seq<Entry>, preferred: Url, transports: set<Url>, url: Url): Record {
    Record(ListedUrls(roster), preferred, Clear(roster, url), url in transports)
  }

  /** `first` is the first seed, which takes over when the preferred endpoint is dropped. */
  function Next(seeds: set<Url>, first: Url, url: Url, r: Record, op: Op): Record {
    match op
    case Dialed(u) => if u == url then r.(dialed := true) else r
    case Failed(u, _) => if u == url then r.(clear := false) else r
    case Succeeded(u) =>
      if u !in r.known then r
      else r.(preferred := u, clear := r.clear || u == url)
    case Merged(advertised) =>
      var keep := seeds + Entered(advertised);
      Record(keep, if r.preferred in keep then r.preferred else first,
             url in keep && (r.clear || url !in r.known), r.dialed && url in keep)
  }

  function Fold(seeds: set<Url>, first: Url, url: Url, r: Record, ops: seq<Op>): Record {
    if ops == [] then r
    else Next(seeds, first, url, Fold(seeds, first, url, r, ops[..|ops| - 1]), ops[|ops| - 1])
  }

  lemma {:induction false} FoldAppend(seeds: set<Url>, first: Url, url: Url, r: Record, a: seq<Op>, b: seq<Op>)
    ensures Fold(seeds, first, url, r, a + b) == Fold(seeds, first, url, Fold(seeds, first, url, r, a), b)
  {
    if b == [] {
      assert a + b == a;
    } else {
      var n := |b| - 1;
      FoldAppend(seeds, first, url, r, a, b[..n]);
      assert (a + b)[..|a| + n] == a + b[..n];
    }
  }

  lemma FoldOne(seeds: set<Url>, first: Url, url: Url, r: Record, op: Op)
    ensures Fold(seeds, first, url, r, [op]) == Next(seeds, first, url, r, op)
  {
    assert [op][..0] == [];
  }

  // ---- The roster follows the fold ----

  lemma ListedUrl(roster: seq<Entry>, url: Url)
    ensures url in ListedUrls(roster) <==> Listed(roster, url)
  {
    if Listed(roster, url) {
      var i :| 0 <= i < |roster| && roster[i].url == url;
      assert roster[i] in roster;
    }
  }

  /** Only the entry of `url` changed, and it became `healthy` with that cooldown. */
  predicate Marked(before: seq<Entry>, after: seq<Entry>, url: Url, healthy: bool, cooldownUntil: nat) {
    |after| == |before| && forall i :: 0 <= i < |before| ==>
      after[i] == if before[i].url == url
                  then before[i].(healthy := healthy, cooldownUntil := cooldownUntil) else before[i]
  }

  lemma MarkedListed(before: seq<Entry>, after: seq<Entry>, url: Url, healthy: bool, cooldownUntil: nat)
    requires Marked(before, after, url, healthy, cooldownUntil)
    ensures ListedUrls(after) == ListedUrls(before)
  {
    forall u ensures u in ListedUrls(before) <==> u in ListedUrls(after) {
      if u in ListedUrls(before) {
        var i :| 0 <= i < |before| && before[i].url == u;
        assert after[i] in after;
      }
      if u in ListedUrls(after) {
        var i :| 0 <= i < |after| && after[i].url == u;
        assert before[i] in before;
      }
    }
  }

  lemma MarkedClear(before: seq<Entry>, after: seq<Entry>, url: Url, healthy: bool, cooldownUntil: nat, u: Url)
    requires Marked(before, after, url, healthy, cooldownUntil)
    ensures u != url ==> (Clear(after, u) <==> Clear(before, u))
    ensures u == url ==> (Clear(after, u) <==> healthy && cooldownUntil == 0 && u in ListedUrls(before))
  {
    if Clear(after, u) {
      var e :| e in after && e.url == u && e.healthy && e.cooldownUntil == 0;
      var i :| 0 <= i < |after| && after[i] == e;
      assert before[i] in before;
    }
    if u != url && Clear(before, u) {
      var e :| e in before && e.url == u && e.healthy && e.cooldownUntil == 0;
      var i :| 0 <= i < |before| && before[i] == e;
      assert after[i] in after;
    }
    if u == url && u in ListedUrls(before) {
      var e :| e in before && e.url == u;
      var i :| 0 <= i < |before| && before[i] == e;
      assert after[i] in after;
    }
  }

  /** A fresh entry for `e.url`, or the one `previous` already had. */
  ghost predicate Retained(previous: seq<Entry>, e: Entry) {
    if Listed(previous, e.url) then e in previous else e == Entry(e.url, false, true, 0)
  }

  lemma MergedClear(before: seq<Entry>, after: seq<Entry>, u: Url)
    requires Distinct(before) && (forall e <- after :: Retained(before, e))
    ensures Clear(after, u) <==> u in ListedUrls(after) && (Clear(before, u) || u !in ListedUrls(before))
  {
    ListedUrl(before, u);
    if u in ListedUrls(after) {
      var e :| e in after && e.url == u;
      assert Retained(before, e);
      if Clear(before, u) {
        var f :| f in before && f.url == u && f.healthy && f.cooldownUntil == 0;
      }
    }
  }

  // ---- When the endpoint that answered ends up promoted ----

  predicate Sound(seeds: set<Url>, first: Url, r: Record) {
    first in seeds && seeds <= r.known && r.preferred in r.known
  }

  predicate IsPromoted(r: Record, url: Url) {
    url in r.known && r.preferred == url && r.clear
  }

  lemma {:induction false} FoldSound(seeds: set<Url>, first: Url, url: Url, r: Record, ops: seq<Op>)
    requires Sound(seeds, first, r)
    ensures Sound(seeds, first, Fold(seeds, first, url, r, ops))
  {
    if ops != [] { FoldSound(seeds, first, url, r, ops[..|ops| - 1]); }
  }

  predicate OnlyMerges(ops: seq<Op>) {
    forall op <- ops :: op.Merged?
  }

  predicate Keeps(seeds: set<Url>, op: Op, url: Url)
    requires op.Merged?
  {
    url in seeds || url in Entered(op.advertised)
  }

  predicate AllKeep(seeds: set<Url>, ops: seq<Op>, url: Url) {
    forall op <- ops :: op.Merged? && Keeps(seeds, op, url)
  }

  /** What the last merge among `ops` advertised. */
  function LastMerge(ops: seq<Op>): Option<seq<Option<Url>>> {
    if ops == [] then None
    else if ops[|ops| - 1].Merged? then Some(ops[|ops| - 1].advertised)
    else LastMerge(ops[..|ops| - 1])
  }

  /** Only the last merge says which endpoints are listed. */
  lemma {:induction false} ListedByLastMerge(seeds: set<Url>, first: Url, url: Url, r: Record, ops: seq<Op>)
    ensures Fold(seeds, first, url, r, ops).known ==
            if LastMerge(ops).None? then r.known else seeds + Entered(LastMerge(ops).value)
  {
    if ops != [] { ListedByLastMerge(seeds, first, url, r, ops[..|ops| - 1]); }
  }

  /** Once promoted, an endpoint stays so through merges exactly while every one of them keeps it. */
  lemma {:induction false} MergesKeep(seeds: set<Url>, first: Url, url: Url, r: Record, ops: seq<Op>)
    requires Sound(seeds, first, r) && IsPromoted(r, url) && OnlyMerges(ops)
    ensures AllKeep(seeds, ops, url) ==> IsPromoted(Fold(seeds, first, url, r, ops), url)
    ensures !AllKeep(seeds, ops, url) ==> Fold(seeds, first, url, r, ops).preferred != url
  {
    if ops != [] {
      var front, last := ops[..|ops| - 1], ops[|ops| - 1];
      MergesKeep(seeds, first, url, r, front);
      assert last in ops && ops == front + [last];
      assert AllKeep(seeds, ops, url) <==> AllKeep(seeds, front, url) && Keeps(seeds, last, url);
    }
  }

  /** An endpoint that is neither preferred nor a seed does not become preferred by merging. */
  lemma {:induction false} MergesNeverPromote(seeds: set<Url>, first: Url, url: Url, r: Record, ops: seq<Op>)
    requires first in seeds && url !in seeds && r.preferred != url && OnlyMerges(ops)
    ensures Fold(seeds, first, url, r, ops).preferred != url
  {
    if ops != [] {
      assert ops[|ops| - 1] in ops;
      MergesNeverPromote(seeds, first, url, r, ops[..|ops| - 1]);
    }
  }

  /** With only merges after an answer: promoted in the end iff listed when it answered and kept by all of them. */
  lemma AnsweredIsPromotedIff(seeds: set<Url>, first: Url, url: Url, r: Record, later: seq<Op>)
    requires Sound(seeds, first, r) && OnlyMerges(later)
    ensures IsPromoted(Fold(seeds, first, url, r, [Succeeded(url)] + later), url)
       <==> url in r.known && AllKeep(seeds, later, url)
  {
    FoldAppend(seeds, first, url, r, [Succeeded(url)], later);
    FoldOne(seeds, first, url, r, Succeeded(url));
    if url in r.known {
      MergesKeep(seeds, first, url, Next(seeds, first, url, r, Succeeded(url)), later);
    } else {
      MergesNeverPromote(seeds, first, url, r, later);
    }
  }

  // ---- The same for arbitrary sections, in closed form ----

  /** The endpoints listed after `ops`, `known` being those before. */
  function KnownAfter(seeds: set<Url>, known: set<Url>, ops: seq<Op>): set<Url> {
    if LastMerge(ops).None? then known else seeds + Entered(LastMerge(ops).value)
  }

  /** Section `i` is a success of an endpoint listed at that moment. */
  predicate Effective(seeds: set<Url>, known: set<Url>, ops: seq<Op>, i: nat)
    requires i < |ops|
  {
    ops[i].Succeeded? && ops[i].url in KnownAfter(seeds, known, ops[..i])
  }

  /** Section `i` marks `url` healthy or failed. */
  predicate Marks(seeds: set<Url>, known: set<Url>, ops: seq<Op>, i: nat, url: Url)
    requires i < |ops|
  {
    (ops[i].Failed? && ops[i].url == url) || (Effective(seeds, known, ops, i) && ops[i].url == url)
  }

  /** Every merge from `from` on keeps `url`. */
  predicate KeptSince(seeds: set<Url>, ops: seq<Op>, from: nat, url: Url) {
    forall i :: from <= i < |ops| && ops[i].Merged? ==> Keeps(seeds, ops[i], url)
  }

  /** The preference was last moved to `url` at section `from - 1`, or stood there before all of them. */
  predicate LastMovedTo(seeds: set<Url>, known: set<Url>, preferred: Url, ops: seq<Op>, from: nat, url: Url) {
    && from <= |ops|
    && (forall i :: from <= i < |ops| ==> !Effective(seeds, known, ops, i))
    && if from == 0 then url == preferred
       else Effective(seeds, known, ops, from - 1) && ops[from - 1].url == url
  }

  /** The last mark of `url`, if any, is a success; without one it is as clear as it was. */
  predicate LastMarkClears(seeds: set<Url>, r: Record, ops: seq<Op>, url: Url) {
    || (r.clear && forall i :: 0 <= i < |ops| ==> !Marks(seeds, r.known, ops, i, url))
    || exists i :: 0 <= i < |ops| && Marks(seeds, r.known, ops, i, url) && ops[i].Succeeded?
         && forall k :: i < k < |ops| ==> !Marks(seeds, r.known, ops, k, url)
  }

  /**
   The endpoint to which the preference was last moved is kept by every merge since and is `url`,
   or one of them drops it and `url` is the first seed; and the last mark of `url` is no failure.
   */
  ghost predicate EndsPromoted(seeds: set<Url>, first: Url, r: Record, ops: seq<Op>, url: Url) {
    && LastMarkClears(seeds, r, ops, url)
    && exists from: nat, target: Url :: LastMovedTo(seeds, r.known, r.preferred, ops, from, target)
         && url == if KeptSince(seeds, ops, from, target) then target else first
  }

  lemma PrefixAgrees(seeds: set<Url>, known: set<Url>, ops: seq<Op>, op: Op, i: nat, url: Url)
    requires i < |ops|
    ensures Effective(seeds, known, ops + [op], i) == Effective(seeds, known, ops, i)
    ensures Marks(seeds, known, ops + [op], i, url) == Marks(seeds, known, ops, i, url)
  {
    assert (ops + [op])[..i] == ops[..i];
  }

  /** Where the preference was last moved, and the endpoint it was moved to. */
  lemma {:induction false} PreferenceTraced(seeds: set<Url>, first: Url, url: Url, r: Record, ops: seq<Op>)
    returns (from: nat, target: Url)
    requires Sound(seeds, first, r)
    ensures LastMovedTo(seeds, r.known, r.preferred, ops, from, target)
    ensures Fold(seeds, first, url, r, ops).preferred == if KeptSince(seeds, ops, from, target) then target else first
  {
    if ops == [] {
      return 0, r.preferred;
    }
    var front, last := ops[..|ops| - 1], ops[|ops| - 1];
    assert ops == front + [last];
    from, target := PreferenceTraced(seeds, first, url, r, front);
    ListedByLastMerge(seeds, first, url, r, front);
    forall i | 0 <= i < |front| ensures Effective(seeds, r.known, ops, i) == Effective(seeds, r.known, front, i) {
      PrefixAgrees(seeds, r.known, front, last, i, url);
    }
    if Effective(seeds, r.known, ops, |front|) {
      from, target := |ops|, last.url;
    }
  }

  lemma MovedOnce(seeds: set<Url>, known: set<Url>, preferred: Url, ops: seq<Op>, a: nat, x: Url, b: nat, y: Url)
    requires LastMovedTo(seeds, known, preferred, ops, a, x) && LastMovedTo(seeds, known, preferred, ops, b, y)
    ensures a == b && x == y
  {
  }

  lemma LastMarkOne(seeds: set<Url>, r: Record, ops: seq<Op>, op: Op, url: Url)
    ensures LastMarkClears(seeds, r, ops + [op], url) <==>
            if Marks(seeds, r.known, ops + [op], |ops|, url) then op.Succeeded? else LastMarkClears(seeds, r, ops, url)
  {
    var all, n := ops + [op], |ops|;
    forall i | 0 <= i < n ensures Marks(seeds, r.known, all, i, url) == Marks(seeds, r.known, ops, i, url) {
      PrefixAgrees(seeds, r.known, ops, op, i, url);
    }
    if !Marks(seeds, r.known, all, n, url) {
      var unmarked := forall i :: 0 <= i < n ==> !Marks(seeds, r.known, ops, i, url);
      if LastMarkClears(seeds, r, ops, url) && !(r.clear && unmarked) {
        var i :| 0 <= i < n && Marks(seeds, r.known, ops, i, url) && ops[i].Succeeded?
          && forall k :: i < k < n ==> !Marks(seeds, r.known, ops, k, url);
        assert Marks(seeds, r.known, all, i, url) && all[i].Succeeded?;
      }
    }
  }

  /** A seed is clear, and so is the preferred endpoint, exactly when its last mark says so. */
  lemma {:induction false} ClearTraced(seeds: set<Url>, first: Url, url: Url, r: Record, ops: seq<Op>)
    requires Sound(seeds, first, r)
    ensures var r' := Fold(seeds, first, url, r, ops);
            url in seeds || r'.preferred == url ==> (r'.clear <==> LastMarkClears(seeds, r, ops, url))
  {
    if ops != [] {
      var front, last := ops[..|ops| - 1], ops[|ops| - 1];
      assert ops == front + [last];
      ClearTraced(seeds, first, url, r, front);
      FoldSound(seeds, first, url, r, front);
      ListedByLastMerge(seeds, first, url, r, front);
      LastMarkOne(seeds, r, front, last, url);
    }
  }

  /** Promoted in the end, whatever the sections, exactly as the closed form says. */
  lemma PromotedInTheEnd(seeds: set<Url>, first: Url, url: Url, r: Record, ops: seq<Op>)
    requires Sound(seeds, first, r)
    ensures IsPromoted(Fold(seeds, first, url, r, ops), url) <==> EndsPromoted(seeds, first, r, ops, url)
  {
    var from, target := PreferenceTraced(seeds, first, url, r, ops);
    ClearTraced(seeds, first, url, r, ops);
    FoldSound(seeds, first, url, r, ops);
    forall a: nat, x: Url | LastMovedTo(seeds, r.known, r.preferred, ops, a, x) ensures a == from && x == target {
      MovedOnce(seeds, r.known, r.preferred, ops, a, x, from, target);
    }
  }
}
