/** The driver as it runs: what holds whenever its lock is free, and what one failing-over request does. */
module MeshFailover {
  import opened Basics
  import opened MeshDriver
  import opened MeshRecord

  function Urls(chosen: seq<Entry>): seq<Url> {
    seq(|chosen|, i requires 0 <= i < |chosen| => chosen[i].url)
  }

  /** Distinct endpoints, a seed first, every seed and the preferred one among them; a healthy entry never cools. */
  ghost predicate RosterSound(seeds: set<Url>, roster: seq<Entry>, preferred: Url) {
    && Distinct(roster) && roster != [] && roster[0].url in seeds
    && (forall url <- seeds :: Listed(roster, url))
    && Listed(roster, preferred)
    && (forall e <- roster :: e.seed == (e.url in seeds) && (e.healthy ==> e.cooldownUntil == 0))
  }

  /** An entry is reported healthy exactly when the candidate filter would admit it. */
  lemma HealthyIffAdmitted(seeds: set<Url>, roster: seq<Entry>, preferred: Url, e: Entry, now: nat)
    requires RosterSound(seeds, roster, preferred) && e in roster
    ensures (e.healthy || !(now < e.cooldownUntil)) <==> !Cooling(e, now)
  {
  }

  /** Rising ranks make the URLs distinct. */
  lemma RisingHasNoRepeats(roster: seq<Entry>, hint: Option<Url>, preferred: Url, chosen: seq<Entry>)
    requires Rising(roster, hint, preferred, chosen)
    ensures NoRepeats(Urls(chosen))
  {
  }

  lemma PickedSoFar(roster: seq<Entry>, i: nat, hint: Option<Url>, preferred: Url, c: nat)
    requires Distinct(roster) && i < |roster|
    ensures roster[i] in Pick(roster, |roster|, hint, preferred, c) <==> Class(hint, preferred, roster[i]) == c
    ensures roster[i] !in Pick(roster, i, hint, preferred, c)
  {
    PickMembers(roster, |roster|, hint, preferred, c);
    PickRises(roster, i, hint, preferred, c);
    IndexAt(roster, i);
  }

  method ContainsEntry(entries: seq<Entry>, target: Entry) returns (found: bool)
    ensures found <==> target in entries
  {
    for i := 0 to |entries|
      invariant target !in entries[..i]
    {
      if entries[i] == target {
        return true;
      }
    }
    found := false;
  }

  /** Append the roster entries for `target` that are not there yet. */
  method AppendTarget(roster: seq<Entry>, hint: Option<Url>, preferred: Url, target: Url,
    ghost c: nat, ordered0: seq<Entry>)
    returns (ordered: seq<Entry>)
    requires Distinct(roster)
    requires (c == 0 && hint == Some(target) && ordered0 == [])
          || (c == 1 && preferred == target && ordered0 == Pick(roster, |roster|, hint, preferred, 0))
    ensures ordered == ordered0 + Pick(roster, |roster|, hint, preferred, c)
  {
    ordered := ordered0;
    for i := 0 to |roster|
      invariant ordered == ordered0 + Pick(roster, i, hint, preferred, c)
    {
      PickedSoFar(roster, i, hint, preferred, 0);
      PickedSoFar(roster, i, hint, preferred, c);
      if roster[i].url == target {
        var there := ContainsEntry(ordered, roster[i]);
        if !there { ordered := ordered + [roster[i]]; }
      }
    }
  }

  lemma InFront(roster: seq<Entry>, i: nat, hint: Option<Url>, preferred: Url)
    requires Distinct(roster) && i < |roster|
    ensures var front := Pick(roster, |roster|, hint, preferred, 0) + Pick(roster, |roster|, hint, preferred, 1);
            roster[i] in front + Pick(roster, i, hint, preferred, 2) <==> Class(hint, preferred, roster[i]) != 2
  {
    PickedSoFar(roster, i, hint, preferred, 0);
    PickedSoFar(roster, i, hint, preferred, 1);
    PickedSoFar(roster, i, hint, preferred, 2);
  }

  /** Append the roster entries that are not there yet. */
  method AppendRest(roster: seq<Entry>, hint: Option<Url>, preferred: Url, front: seq<Entry>)
    returns (ordered: seq<Entry>)
    requires Distinct(roster)
    requires front == Pick(roster, |roster|, hint, preferred, 0) + Pick(roster, |roster|, hint, preferred, 1)
    ensures ordered == front + Pick(roster, |roster|, hint, preferred, 2)
  {
    ordered := front;
    for i := 0 to |roster|
      invariant ordered == front + Pick(roster, i, hint, preferred, 2)
    {
      InFront(roster, i, hint, preferred);
      var there := ContainsEntry(ordered, roster[i]);
      if !there { ordered := ordered + [roster[i]]; }
    }
  }

  method Order(roster: seq<Entry>, hint: Option<Url>, preferred: Url) returns (ordered: seq<Entry>)
    requires Distinct(roster)
    ensures ordered == Ordered(roster, hint, preferred)
  {
    ordered := [];
    if hint.Some? {
      ordered := AppendTarget(roster, hint, preferred, hint.value, 0, []);
      assert ordered == Pick(roster, |roster|, hint, preferred, 0);
    } else {
      NoHint(roster, |roster|, preferred);
    }
    ordered := AppendTarget(roster, hint, preferred, preferred, 1, ordered);
    ordered := AppendRest(roster, hint, preferred, ordered);
  }

  lemma NoHint(roster: seq<Entry>, n: nat, preferred: Url)
    requires n <= |roster|
    ensures Pick(roster, n, None, preferred, 0) == []
  {
  }

  /** The first of the entries that stop cooling down earliest. */
  method Earliest(ordered: seq<Entry>) returns (e: Entry, ghost at: nat)
    requires ordered != []
    ensures at < |ordered| && e == ordered[at]
    ensures forall k :: 0 <= k < |ordered| ==> e.cooldownUntil <= ordered[k].cooldownUntil
    ensures forall k :: 0 <= k < at ==> e.cooldownUntil < ordered[k].cooldownUntil
  {
    e, at := ordered[0], 0;
    for i := 1 to |ordered|
      invariant at < i && e == ordered[at]
      invariant forall k :: 0 <= k < i ==> e.cooldownUntil <= ordered[k].cooldownUntil
      invariant forall k :: 0 <= k < at ==> e.cooldownUntil < ordered[k].cooldownUntil
    {
      if ordered[i].cooldownUntil < e.cooldownUntil {
        e, at := ordered[i], i;
      }
    }
  }

  /**
   The endpoints not cooling down, hint then preferred then roster order; or, when all are
   cooling down, the single one that stops first, ties broken in the same order.
   */
  ghost predicate IsSelection(roster: seq<Entry>, hint: Option<Url>, preferred: Url, now: nat, chosen: seq<Entry>) {
    && chosen != []
    && Rising(roster, hint, preferred, chosen)
    && (forall e <- chosen :: e in roster)
    && ((exists e <- roster :: !Cooling(e, now)) ==> forall e :: e in chosen <==> e in roster && !Cooling(e, now))
    && ((forall e <- roster :: Cooling(e, now)) ==>
          |chosen| == 1 && forall e <- roster ::
            || chosen[0].cooldownUntil < e.cooldownUntil
            || (chosen[0].cooldownUntil == e.cooldownUntil
                && Rank(roster, hint, preferred, chosen[0]) <= Rank(roster, hint, preferred, e)))
  }

  method KeepAvailable(ordered: seq<Entry>, now: nat) returns (urls: seq<Url>)
    ensures urls == Urls(Available(ordered, |ordered|, now))
  {
    urls := [];
    for i := 0 to |ordered|
      invariant urls == Urls(Available(ordered, i, now))
    {
      if now >= ordered[i].cooldownUntil {
        urls := urls + [ordered[i].url];
      }
    }
  }

  /** Sorted candidates that are available, if any, are a selection. */
  lemma AvailableIsSelection(roster: seq<Entry>, hint: Option<Url>, preferred: Url, now: nat)
    requires Distinct(roster)
    ensures var ordered := Ordered(roster, hint, preferred);
            var chosen := Available(ordered, |ordered|, now);
            && (forall e :: e in chosen <==> e in roster && !Cooling(e, now))
            && (chosen != [] ==> IsSelection(roster, hint, preferred, now, chosen))
  {
    var ordered := Ordered(roster, hint, preferred);
    OrderedByRank(roster, hint, preferred);
    OrderedMembers(roster, hint, preferred);
    AvailableKeepsOrder(roster, hint, preferred, ordered, |ordered|, now);
    AvailableMembers(ordered, |ordered|, now);
    var chosen := Available(ordered, |ordered|, now);
    if chosen != [] { assert chosen[0] in chosen; }
  }

  lemma EarliestIsSelection(roster: seq<Entry>, hint: Option<Url>, preferred: Url, now: nat, at: nat)
    requires Distinct(roster) && forall e <- roster :: Cooling(e, now)
    requires var ordered := Ordered(roster, hint, preferred);
             && at < |ordered|
             && (forall k :: 0 <= k < |ordered| ==> ordered[at].cooldownUntil <= ordered[k].cooldownUntil)
             && (forall k :: 0 <= k < at ==> ordered[at].cooldownUntil < ordered[k].cooldownUntil)
    ensures IsSelection(roster, hint, preferred, now, [Ordered(roster, hint, preferred)[at]])
  {
    var ordered := Ordered(roster, hint, preferred);
    OrderedByRank(roster, hint, preferred);
    OrderedMembers(roster, hint, preferred);
    var e := ordered[at];
    assert e in ordered;
    forall f <- roster
      ensures e.cooldownUntil < f.cooldownUntil
           || (e.cooldownUntil == f.cooldownUntil
             && Rank(roster, hint, preferred, e) <= Rank(roster, hint, preferred, f))
    {
      assert f in ordered;
      var k :| 0 <= k < |ordered| && ordered[k] == f;
    }
  }

  method Candidates(roster: seq<Entry>, hint: Option<Url>, preferred: Url, now: nat)
    returns (urls: seq<Url>, ghost chosen: seq<Entry>)
    requires Distinct(roster) && roster != []
    ensures urls == Urls(chosen) && NoRepeats(urls)
    ensures IsSelection(roster, hint, preferred, now, chosen)
  {
    var ordered := Order(roster, hint, preferred);
    urls := KeepAvailable(ordered, now);
    chosen := Available(ordered, |ordered|, now);
    AvailableIsSelection(roster, hint, preferred, now);
    if |urls| == 0 {
      OrderedMembers(roster, hint, preferred);
      assert roster[0] in ordered;
      ghost var at;
      var e;
      e, at := Earliest(ordered);
      urls, chosen := [e.url], [e];
      EarliestIsSelection(roster, hint, preferred, now, at);
    }
    RisingHasNoRepeats(roster, hint, preferred, chosen);
  }

  // ---- Building a roster ----

  /** Where `url` first occurs, or the length. */
  ghost function FirstIndex(urls: seq<Option<Url>>, url: Url): (k: nat)
    ensures k <= |urls| && (k < |urls| ==> urls[k] == Some(url)) && forall j :: 0 <= j < k ==> urls[j] != Some(url)
  {
    if urls == [] || urls[0] == Some(url) then 0 else FirstIndex(urls[1..], url) + 1
  }

  /** `kept` lists URLs in the order in which they first occur in `urls`. */
  ghost predicate FirstOccurrences(kept: seq<Url>, urls: seq<Option<Url>>) {
    forall i, j :: 0 <= i < j < |kept| ==> FirstIndex(urls, kept[i]) < FirstIndex(urls, kept[j])
  }

  /** The entries from `start` on stand in the order in which their URLs first occur in `urls`. */
  ghost predicate ListedInOrder(roster: seq<Entry>, start: nat, urls: seq<Option<Url>>) {
    forall i, j :: start <= i < j < |roster| ==> FirstIndex(urls, roster[i].url) < FirstIndex(urls, roster[j].url)
  }

  lemma FirstHere(urls: seq<Option<Url>>, i: nat)
    requires i < |urls| && urls[i].Some? && urls[i].value !in Entered(urls[..i])
    ensures FirstIndex(urls, urls[i].value) == i
  {
    forall k | 0 <= k < i ensures urls[k] != urls[i] { assert urls[..i][k] == urls[k]; }
  }

  /** The URLs that normalised, each at its first occurrence. */
  method Normalized(urls: seq<Option<Url>>) returns (kept: seq<Url>)
    ensures NoRepeats(kept) && forall u :: u in kept <==> u in Entered(urls)
    ensures FirstOccurrences(kept, urls)
  {
    kept := [];
    var seen: set<Url> := {};
    for i := 0 to |urls|
      invariant NoRepeats(kept) && (forall u :: u in kept <==> u in seen) && seen == Entered(urls[..i])
      invariant FirstOccurrences(kept, urls) && forall k :: 0 <= k < |kept| ==> FirstIndex(urls, kept[k]) < i
    {
      assert Entered(urls[..i + 1]) == Entered(urls[..i]) + (if urls[i].Some? then {urls[i].value} else {});
      if urls[i].Some? && urls[i].value !in seen {
        FirstHere(urls, i);
        seen := seen + {urls[i].value};
        kept := kept + [urls[i].value];
      }
    }
    assert urls[..|urls|] == urls;
  }

  /** The seeds among the first `n` entries. */
  function SeedEntries(roster: seq<Entry>, n: nat, seeds: set<Url>): seq<Entry>
    requires n <= |roster|
  {
    if n == 0 then []
    else SeedEntries(roster, n - 1, seeds) + (if roster[n - 1].url in seeds then [roster[n - 1]] else [])
  }

  method KeepSeeds(roster: seq<Entry>, seeds: set<Url>) returns (kept: seq<Entry>)
    requires Distinct(roster)
    ensures kept == SeedEntries(roster, |roster|, seeds)
    ensures Distinct(kept) && forall e :: e in kept <==> e in roster && e.url in seeds
  {
    kept := [];
    for i := 0 to |roster|
      invariant kept == SeedEntries(roster, i, seeds)
      invariant Distinct(kept) && forall e :: e in kept <==> e in roster[..i] && e.url in seeds
    {
      if roster[i].url in seeds { kept := kept + [roster[i]]; }
    }
    assert roster[..|roster|] == roster;
  }

  /** The entry for `url`: the previous one if there is one, so that its cooldown survives. */
  method Reuse(roster: seq<Entry>, url: Url) returns (e: Entry)
    ensures e.url == url
    ensures if Listed(roster, url) then e in roster else e == Entry(url, false, true, 0)
  {
    for i := 0 to |roster|
      invariant !Listed(roster[..i], url)
    {
      if roster[i].url == url {
        return roster[i];
      }
    }
    assert roster[..|roster|] == roster;
    e := Entry(url, false, true, 0);
  }

  /** From `start` on, the roster holds non-seeds among the first `i` found, in their order. */
  ghost predicate AsFound(roster: seq<Entry>, start: nat, seeds: set<Url>, found: seq<Url>, i: nat,
                          urls: seq<Option<Url>>)
  {
    && ListedInOrder(roster, start, urls)
    && forall k :: start <= k < |roster| ==>
         roster[k].url !in seeds && exists t :: 0 <= t < i && t < |found| && found[t] == roster[k].url
  }

  lemma FoundNext(roster: seq<Entry>, e: Entry, start: nat, seeds: set<Url>, found: seq<Url>, i: nat,
                  urls: seq<Option<Url>>)
    requires AsFound(roster, start, seeds, found, i, urls) && FirstOccurrences(found, urls)
    requires i < |found| && e.url == found[i] && e.url !in seeds
    ensures AsFound(roster + [e], start, seeds, found, i + 1, urls)
  {
  }

  method AddDiscovered(previous: seq<Entry>, seeds: set<Url>, kept: seq<Entry>, found: seq<Url>,
                       ghost urls: seq<Option<Url>>)
    returns (roster: seq<Entry>)
    requires FirstOccurrences(found, urls)
    requires Distinct(kept) && NoRepeats(found) && forall e <- kept :: e in previous && e.url in seeds
    ensures kept <= roster && Distinct(roster)
    ensures forall e <- roster :: e in kept || (e.url in found && e.url !in seeds && Retained(previous, e))
    ensures forall u <- found :: u in seeds || Listed(roster, u)
    ensures ListedInOrder(roster, |kept|, urls) && forall i :: |kept| <= i < |roster| ==> roster[i].url !in seeds
  {
    roster := kept;
    for i := 0 to |found|
      invariant kept <= roster && Distinct(roster)
      invariant forall e <- roster :: e in kept || (e.url in found[..i] && e.url !in seeds && Retained(previous, e))
      invariant forall u <- found[..i] :: u in seeds || Listed(roster, u)
      invariant AsFound(roster, |kept|, seeds, found, i, urls)
    {
      assert forall u <- found[..i + 1] :: u in found[..i] || u == found[i];
      if found[i] !in seeds {
        var e := Reuse(previous, found[i]);
        ghost var before := roster;
        roster := roster + [e];
        FoundNext(before, e, |kept|, seeds, found, i, urls);
        assert roster[|before|].url == found[i];
        forall u <- found[..i] | u !in seeds ensures Listed(roster, u) {
          var k :| 0 <= k < |before| && before[k].url == u;
          assert roster[k].url == u;
        }
      }
    }
    assert found[..|found|] == found;
  }

  /** The seeds in their old order, then the other advertised endpoints in the order of their advertisement. */
  ghost predicate Laid(previous: seq<Entry>, seeds: set<Url>, advertised: seq<Option<Url>>, roster: seq<Entry>) {
    var kept := SeedEntries(previous, |previous|, seeds);
    && kept <= roster && ListedInOrder(roster, |kept|, advertised)
    && forall i :: |kept| <= i < |roster| ==> roster[i].url !in seeds
  }

  method MergeRoster(previous: seq<Entry>, seeds: set<Url>, ghost preferred: Url, advertised: seq<Option<Url>>)
    returns (roster: seq<Entry>, keep: set<Url>)
    requires RosterSound(seeds, previous, preferred)
    ensures Distinct(roster) && roster != [] && SeedEntries(previous, |previous|, seeds) <= roster
    ensures roster[0].url == previous[0].url
    ensures keep == seeds + Entered(advertised) && forall url :: Listed(roster, url) <==> url in keep
    ensures forall e <- roster :: Retained(previous, e)
    ensures forall e <- roster :: e.seed == (e.url in seeds) && (e.healthy ==> e.cooldownUntil == 0)
    ensures Laid(previous, seeds, advertised, roster)
  {
    var normalized := Normalized(advertised);
    keep := seeds + set url | url in normalized;
    var kept := KeepSeeds(previous, seeds);
    roster := AddDiscovered(previous, seeds, kept, normalized, advertised);
    Merges(previous, seeds, preferred, kept, normalized, roster);
    FirstSeedFirst(previous, |previous|, seeds);
  }

  /** Seeds come first, so the first entry is the first seed, before and after. */
  lemma FirstSeedFirst(roster: seq<Entry>, n: nat, seeds: set<Url>)
    requires 0 < n <= |roster| && roster[0].url in seeds
    ensures SeedEntries(roster, n, seeds) != [] && SeedEntries(roster, n, seeds)[0] == roster[0]
  {
    if n > 1 { FirstSeedFirst(roster, n - 1, seeds); }
  }

  // ---- The driver ----

  datatype Reply = Answered | TransportError | OtherError | ContextEnded

  /** One attempt: what other goroutines did before it began and while it waited, how it ended, and when. */
  datatype Turn = Turn(before: seq<Op>, meanwhile: seq<Op>, reply: Reply, now: nat)

  /**
   What follows an answer: the steps of other goroutines until this request's own refresh merges,
   what that refresh was told if it came to a merge, and their steps until the request returns.
   */
  datatype Ending = Ending(before: seq<Op>, refreshed: Option<seq<Option<Url>>>, after: seq<Op>)

  datatype Outcome = Served(endpoint: Url) | Refused | Cancelled | Unavailable | Waiting

  /** The lock sections of one attempt on `endpoint`, with those of the others in between. */
  function AttemptOps(endpoint: Url, turn: Turn): seq<Op> {
    turn.before + [Dialed(endpoint)] + turn.meanwhile
    + match turn.reply
      case TransportError => [Failed(endpoint, turn.now)]
      case Answered => [Succeeded(endpoint)]
      case _ => []
  }

  function EndingOps(ending: Ending): seq<Op> {
    ending.before + (if ending.refreshed.Some? then [Merged(ending.refreshed.value)] else []) + ending.after
  }

  /** All lock sections during the first `n` attempts. */
  function AttemptsOps(list: seq<Url>, turns: seq<Turn>, n: nat): seq<Op>
    requires n <= |list| && n <= |turns|
  {
    if n == 0 then [] else AttemptsOps(list, turns, n - 1) + AttemptOps(list[n - 1], turns[n - 1])
  }

  class Driver {
    var seeds: set<Url>
    var roster: seq<Entry>
    var preferred: Url
    var transports: set<Url>

    ghost predicate Valid() reads this { RosterSound(seeds, roster, preferred) }

    constructor (seeds: set<Url>, roster: seq<Entry>, preferred: Url)
      ensures this.seeds == seeds && this.roster == roster && this.preferred == preferred && transports == {}
    {
      this.seeds, this.roster, this.preferred, transports := seeds, roster, preferred, {};
    }

    function View(): State reads this { State(seeds, roster, preferred, transports) }

    method MarkFailed(endpoint: Url, now: nat)
      requires Valid()
      modifies this`roster
      ensures Valid() && Marked(old(roster), roster, endpoint, false, now + COOLDOWN)
      ensures Reaches(old(View()), [Failed(endpoint, now)], View())
    {
      for i := 0 to |roster|
        invariant roster == old(roster) && forall k :: 0 <= k < i ==> roster[k].url != endpoint
      {
        if roster[i].url == endpoint {
          roster := roster[i := roster[i].(healthy := false, cooldownUntil := now + COOLDOWN)];
          break;
        }
      }
      StillListed(old(roster), roster);
      FailedReaches(old(View()), View(), endpoint, now);
    }

    /** Success counts only while the endpoint is still in the roster; then it is preferred and not cooling. */
    method MarkSuccess(endpoint: Url)
      requires Valid()
      modifies this`roster, this`preferred
      ensures Valid() && Marked(old(roster), roster, endpoint, true, 0)
      ensures preferred == if Listed(old(roster), endpoint) then endpoint else old(preferred)
      ensures Reaches(old(View()), [Succeeded(endpoint)], View())
    {
      for i := 0 to |roster|
        invariant roster == old(roster) && preferred == old(preferred)
        invariant forall k :: 0 <= k < i ==> roster[k].url != endpoint
      {
        if roster[i].url == endpoint {
          roster := roster[i := roster[i].(healthy := true, cooldownUntil := 0)];
          preferred := endpoint;
          break;
        }
      }
      StillListed(old(roster), roster);
      SucceededReaches(old(View()), View(), endpoint);
    }

    /** Seeds stay in their order, then come the others as advertised; known ones keep their state. */
    method MergeDiscovered(advertised: seq<Option<Url>>)
      requires Valid()
      modifies this`roster, this`preferred, this`transports
      ensures Valid()
      ensures forall url :: Listed(roster, url) <==> url in seeds || url in Entered(advertised)
      ensures Laid(old(roster), seeds, advertised, roster)
      ensures forall e <- roster :: Retained(old(roster), e)
      ensures preferred == if Listed(roster, old(preferred)) then old(preferred) else roster[0].url
      ensures transports == set url | url in old(transports) && Listed(roster, url)
      ensures Reaches(old(View()), [Merged(advertised)], View())
    {
      var next, keep := MergeRoster(roster, seeds, preferred, advertised);
      transports := set url | url in transports && url in keep;
      roster := next;
      if preferred !in keep && |roster| != 0 {
        preferred := roster[0].url;
      }
      assert Listed(roster, roster[0].url);
      MergedReaches(old(View()), View(), advertised);
    }

    /** The endpoint's transport, made on first use. */
    method Dial(endpoint: Url)
      requires Valid()
      modifies this`transports
      ensures Valid() && transports == old(transports) + {endpoint}
      ensures Reaches(old(View()), [Dialed(endpoint)], View())
    {
      if endpoint !in transports {
        transports := transports + {endpoint};
      }
      DialedReaches(old(View()), View(), endpoint);
    }

    method Endpoints(now: nat) returns (infos: seq<Info>)
      requires Valid()
      ensures |infos| == |roster|
      ensures forall i :: 0 <= i < |roster| ==>
                infos[i] == Info(roster[i].url, !Cooling(roster[i], now), roster[i].url in seeds)
    {
      infos := [];
      for i := 0 to |roster|
        invariant |infos| == i
        invariant forall k :: 0 <= k < i ==>
                    infos[k] == Info(roster[k].url, !Cooling(roster[k], now), roster[k].url in seeds)
      {
        HealthyIffAdmitted(seeds, roster, preferred, roster[i], now);
        var healthy := roster[i].healthy || !(now < roster[i].cooldownUntil);
        infos := infos + [Info(roster[i].url, healthy, roster[i].seed)];
      }
    }

    /** Other goroutines, one lock section at a time. */
    method Interfere(ops: seq<Op>)
      requires Valid()
      modifies this
      ensures Valid() && Reaches(old(View()), ops, View())
    {
      Stays(View());
      for i := 0 to |ops|
        invariant Valid() && Reaches(old(View()), ops[..i], View())
      {
        ghost var before := View();
        match ops[i] {
          case Dialed(url) => Dial(url);
          case Failed(url, now) => MarkFailed(url, now);
          case Succeeded(url) => MarkSuccess(url);
          case Merged(advertised) => MergeDiscovered(advertised);
        }
        assert ops[..i + 1] == ops[..i] + [ops[i]];
        Onward(old(View()), ops[..i], before, [ops[i]], View());
      }
      assert ops[..|ops|] == ops;
    }

    /** One attempt: its transport, what others do meanwhile, then what the reply does to the roster. */
    method Attempt(endpoint: Url, turn: Turn)
      requires Valid()
      modifies this
      ensures Valid() && Reaches(old(View()), AttemptOps(endpoint, turn), View())
    {
      Interfere(turn.before);
      ghost var queued := View();
      Dial(endpoint);
      Onward(old(View()), turn.before, queued, [Dialed(endpoint)], View());
      ghost var dialed := View();
      Interfere(turn.meanwhile);
      Onward(old(View()), turn.before + [Dialed(endpoint)], dialed, turn.meanwhile, View());
      ghost var waited, ops := View(), turn.before + [Dialed(endpoint)] + turn.meanwhile;
      if turn.reply.TransportError? {
        MarkFailed(endpoint, turn.now);
        Onward(old(View()), ops, waited, [Failed(endpoint, turn.now)], View());
      } else if turn.reply.Answered? {
        MarkSuccess(endpoint);
        Onward(old(View()), ops, waited, [Succeeded(endpoint)], View());
      } else {
        assert AttemptOps(endpoint, turn) == ops;
      }
    }

    /** Try `list` in order. `turns` are the attempts' fates; when they run out, the request is still waiting. */
    method TryEach(list: seq<Url>, turns: seq<Turn>) returns (outcome: Outcome, attempts: seq<Url>)
      requires Valid()
      modifies this
      ensures Valid() && FailedOver(list, turns, attempts, outcome)
      ensures Reaches(old(View()), AttemptsOps(list, turns, |attempts|), View())
    {
      attempts := [];
      Stays(View());
      for i := 0 to |list|
        invariant Valid() && attempts == list[..i] && AllTransport(turns, i)
        invariant Reaches(old(View()), AttemptsOps(list, turns, i), View())
      {
        if i == |turns| {
          return Waiting, attempts;
        }
        attempts := list[..i + 1];
        ghost var before := View();
        Attempt(list[i], turns[i]);
        Onward(old(View()), AttemptsOps(list, turns, i), before, AttemptOps(list[i], turns[i]), View());
        match turns[i].reply {
          case ContextEnded => return Cancelled, attempts;
          case OtherError => return Refused, attempts;
          case TransportError =>
          case Answered => return Served(list[i]), attempts;
        }
      }
      outcome := Unavailable;
    }

    /** The refresh after an answer: it may end in a merge of what this request itself was told. */
    method RefreshAfterRequest(ending: Ending)
      requires Valid()
      modifies this
      ensures Valid() && Reaches(old(View()), EndingOps(ending), View())
    {
      Interfere(ending.before);
      ghost var before, ops := View(), ending.before;
      if ending.refreshed.Some? {
        MergeDiscovered(ending.refreshed.value);
        Onward(old(View()), ops, before, [Merged(ending.refreshed.value)], View());
        ops := ops + [Merged(ending.refreshed.value)];
      } else {
        assert ops + [] == ops;
      }
      ghost var merged := View();
      Interfere(ending.after);
      Onward(old(View()), ops, merged, ending.after, View());
    }

    /**
     One request: choose the candidates, fail over along them, and after an answer refresh. What it
     leaves behind is, for every endpoint, what its lock sections and those of the others make of it.
     */
    method Do(hint: Option<Url>, now: nat, turns: seq<Turn>, ending: Ending)
      returns (outcome: Outcome, attempts: seq<Url>, ghost chosen: seq<Entry>)
      requires Valid()
      modifies this
      ensures Valid() && seeds == old(seeds)
      ensures IsSelection(old(roster), hint, old(preferred), now, chosen) && NoRepeats(Urls(chosen))
      ensures FailedOver(Urls(chosen), turns, attempts, outcome)
      ensures Reaches(old(View()), RequestOps(Urls(chosen), turns, |attempts|, outcome, ending), View())
      ensures forall url ::
                Promoted(roster, preferred, url) <==>
                EndsPromoted(old(seeds), old(roster)[0].url, old(View()).Of(url),
                             RequestOps(Urls(chosen), turns, |attempts|, outcome, ending), url)
      ensures outcome.Served? && OnlyMerges(EndingOps(ending)) ==>
                (Promoted(roster, preferred, outcome.endpoint) <==>
                 Survives(seeds, Urls(chosen), turns, |attempts|, ending, outcome.endpoint))
    {
      var list;
      list, chosen := Candidates(roster, hint, preferred, now);
      outcome, attempts := TryEach(list, turns);
      ghost var ops, tried := AttemptsOps(list, turns, |attempts|), View();
      assert ops + [] == ops;
      if outcome.Served? {
        RefreshAfterRequest(ending);
        Onward(old(View()), ops, tried, EndingOps(ending), View());
        ChosenAreListed(old(roster), chosen);
        if OnlyMerges(EndingOps(ending)) { PromotedIff(old(View()), View(), list, turns, |attempts|, ending); }
      }
      PromotedAfter(old(View()), RequestOps(list, turns, |attempts|, outcome, ending), View());
    }
  }

  // ---- The driver follows the fold ----

  datatype State = State(seeds: set<Url>, roster: seq<Entry>, preferred: Url, transports: set<Url>) {
    function Of(url: Url): Record { RecordOf(roster, preferred, transports, url) }

    ghost predicate Valid() { RosterSound(seeds, roster, preferred) }
  }

  /** `t` is, for every endpoint, what the lock sections `ops` make of `s`. */
  ghost predicate Reaches(s: State, ops: seq<Op>, t: State) {
    && t.seeds == s.seeds && s.roster != [] && t.roster != [] && t.roster[0].url == s.roster[0].url
    && forall url :: t.Of(url) == Fold(s.seeds, s.roster[0].url, url, s.Of(url), ops)
  }

  lemma Stays(s: State)
    requires s.roster != []
    ensures Reaches(s, [], s)
  {
  }

  lemma Onward(s: State, a: seq<Op>, t: State, b: seq<Op>, u: State)
    requires Reaches(s, a, t) && Reaches(t, b, u)
    ensures Reaches(s, a + b, u)
  {
    forall url ensures u.Of(url) == Fold(s.seeds, s.roster[0].url, url, s.Of(url), a + b) {
      assert t.Of(url) == Fold(s.seeds, s.roster[0].url, url, s.Of(url), a);
      FoldAppend(s.seeds, s.roster[0].url, url, s.Of(url), a, b);
    }
  }

  lemma DialedReaches(s: State, t: State, endpoint: Url)
    requires s.roster != [] && t == s.(transports := s.transports + {endpoint})
    ensures Reaches(s, [Dialed(endpoint)], t)
  {
    forall url ensures t.Of(url) == Fold(s.seeds, s.roster[0].url, url, s.Of(url), [Dialed(endpoint)]) {
      FoldOne(s.seeds, s.roster[0].url, url, s.Of(url), Dialed(endpoint));
    }
  }

  lemma FailedReaches(s: State, t: State, endpoint: Url, now: nat)
    requires s.roster != [] && t == s.(roster := t.roster)
    requires Marked(s.roster, t.roster, endpoint, false, now + COOLDOWN)
    ensures Reaches(s, [Failed(endpoint, now)], t)
  {
    MarkedListed(s.roster, t.roster, endpoint, false, now + COOLDOWN);
    forall url ensures t.Of(url) == Fold(s.seeds, s.roster[0].url, url, s.Of(url), [Failed(endpoint, now)]) {
      FoldOne(s.seeds, s.roster[0].url, url, s.Of(url), Failed(endpoint, now));
      MarkedClear(s.roster, t.roster, endpoint, false, now + COOLDOWN, url);
    }
  }

  lemma SucceededReaches(s: State, t: State, endpoint: Url)
    requires s.roster != [] && t == s.(roster := t.roster, preferred := t.preferred)
    requires Marked(s.roster, t.roster, endpoint, true, 0)
    requires t.preferred == if Listed(s.roster, endpoint) then endpoint else s.preferred
    ensures Reaches(s, [Succeeded(endpoint)], t)
  {
    ListedUrl(s.roster, endpoint);
    MarkedListed(s.roster, t.roster, endpoint, true, 0);
    forall url ensures t.Of(url) == Fold(s.seeds, s.roster[0].url, url, s.Of(url), [Succeeded(endpoint)]) {
      FoldOne(s.seeds, s.roster[0].url, url, s.Of(url), Succeeded(endpoint));
      MarkedClear(s.roster, t.roster, endpoint, true, 0, url);
      if !Listed(s.roster, endpoint) { assert t.roster == s.roster; }
    }
  }

  lemma MergedReaches(s: State, t: State, advertised: seq<Option<Url>>)
    requires s.Valid() && t.seeds == s.seeds && t.roster != [] && t.roster[0].url == s.roster[0].url
    requires forall url :: Listed(t.roster, url) <==> url in s.seeds || url in Entered(advertised)
    requires forall e <- t.roster :: Retained(s.roster, e)
    requires t.preferred == if Listed(t.roster, s.preferred) then s.preferred else t.roster[0].url
    requires t.transports == set url | url in s.transports && Listed(t.roster, url)
    ensures Reaches(s, [Merged(advertised)], t)
  {
    var keep := s.seeds + Entered(advertised);
    forall url ensures url in ListedUrls(t.roster) <==> url in keep { ListedUrl(t.roster, url); }
    forall url ensures t.Of(url) == Fold(s.seeds, s.roster[0].url, url, s.Of(url), [Merged(advertised)]) {
      FoldOne(s.seeds, s.roster[0].url, url, s.Of(url), Merged(advertised));
      MergedClear(s.roster, t.roster, url);
      assert Listed(t.roster, url) <==> url in keep;
    }
  }

  // ---- When the endpoint that answered is promoted ----

  /** All lock sections of a request, with those of the others in between. */
  function RequestOps(list: seq<Url>, turns: seq<Turn>, n: nat, outcome: Outcome, ending: Ending): seq<Op>
    requires n <= |list| && n <= |turns|
  {
    AttemptsOps(list, turns, n) + if outcome.Served? then EndingOps(ending) else []
  }

  /**
   Listed when it answered, that is a seed, or advertised by the last merge until then, or no
   merge; and kept by every merge after that, the request's own refresh included.
   */
  predicate Survives(seeds: set<Url>, list: seq<Url>, turns: seq<Turn>, n: nat, ending: Ending, url: Url)
    requires 0 < n <= |list| && n <= |turns|
  {
    var merge := LastMerge(AttemptsOps(list, turns, n));
    && (merge.None? || url in seeds || url in Entered(merge.value))
    && AllKeep(seeds, EndingOps(ending), url)
  }

  /** An endpoint that answered, with only merges after that, is promoted if and only if it survives. */
  lemma PromotedIff(s: State, t: State, list: seq<Url>, turns: seq<Turn>, n: nat, ending: Ending)
    requires s.Valid() && 0 < n <= |list| && n <= |turns| && turns[n - 1].reply.Answered?
    requires Listed(s.roster, list[n - 1]) && OnlyMerges(EndingOps(ending))
    requires Reaches(s, AttemptsOps(list, turns, n) + EndingOps(ending), t)
    ensures Promoted(t.roster, t.preferred, list[n - 1]) <==> Survives(s.seeds, list, turns, n, ending, list[n - 1])
  {
    var url, first, turn := list[n - 1], s.roster[0].url, turns[n - 1];
    var earlier := AttemptsOps(list, turns, n - 1) + (turn.before + [Dialed(url)] + turn.meanwhile);
    var later := EndingOps(ending);
    var r := Fold(s.seeds, first, url, s.Of(url), earlier);
    assert AttemptsOps(list, turns, n) == earlier + [Succeeded(url)];
    assert (earlier + [Succeeded(url)])[..|earlier|] == earlier;
    assert earlier + [Succeeded(url)] + later == earlier + ([Succeeded(url)] + later);
    StateSound(s, url);
    FoldSound(s.seeds, first, url, s.Of(url), earlier);
    FoldAppend(s.seeds, first, url, s.Of(url), earlier, [Succeeded(url)] + later);
    AnsweredIsPromotedIff(s.seeds, first, url, r, later);
    ListedByLastMerge(s.seeds, first, url, s.Of(url), earlier);
    assert t.Of(url) == Fold(s.seeds, first, url, s.Of(url), earlier + ([Succeeded(url)] + later));
    ListedUrl(s.roster, url);
  }

  /** Which endpoint is promoted after any lock sections. */
  lemma PromotedAfter(s: State, ops: seq<Op>, t: State)
    requires s.Valid() && Reaches(s, ops, t)
    ensures forall url ::
              Promoted(t.roster, t.preferred, url) <==> EndsPromoted(s.seeds, s.roster[0].url, s.Of(url), ops, url)
  {
    forall url
      ensures Promoted(t.roster, t.preferred, url) <==> EndsPromoted(s.seeds, s.roster[0].url, s.Of(url), ops, url)
    {
      StateSound(s, url);
      PromotedInTheEnd(s.seeds, s.roster[0].url, url, s.Of(url), ops);
      assert t.Of(url) == Fold(s.seeds, s.roster[0].url, url, s.Of(url), ops);
    }
  }

  lemma StateSound(s: State, url: Url)
    requires s.Valid()
    ensures Sound(s.seeds, s.roster[0].url, s.Of(url))
  {
    forall u <- s.seeds ensures u in ListedUrls(s.roster) { ListedUrl(s.roster, u); }
    ListedUrl(s.roster, s.preferred);
  }

  lemma ChosenAreListed(roster: seq<Entry>, chosen: seq<Entry>)
    requires forall e <- chosen :: e in roster
    ensures forall url <- Urls(chosen) :: Listed(roster, url)
  {
    forall url <- Urls(chosen) ensures Listed(roster, url) {
      var i :| 0 <= i < |chosen| && chosen[i].url == url;
      assert chosen[i] in roster;
      var k :| 0 <= k < |roster| && roster[k] == chosen[i];
    }
  }

  lemma HintIsFirst(roster: seq<Entry>, hint: Option<Url>, preferred: Url, now: nat, chosen: seq<Entry>, e: Entry)
    requires IsSelection(roster, hint, preferred, now, chosen) && e in roster && hint == Some(e.url) && !Cooling(e, now)
    ensures chosen[0] == e
  {
    var i :| 0 <= i < |chosen| && chosen[i] == e;
    assert Rank(roster, hint, preferred, e) == 0;
  }

  /** A seed `s`, preferred, and a discovered endpoint `d`. */
  method SeedAndDiscovered() returns (driver: Driver)
    ensures fresh(driver) && driver.Valid() && driver.seeds == {"s"} && driver.preferred == "s"
    ensures driver.roster == [Entry("s", true, true, 0), Entry("d", false, true, 0)]
  {
    var roster := [Entry("s", true, true, 0), Entry("d", false, true, 0)];
    driver := new Driver({"s"}, roster, "s");
    assert Listed(roster, roster[0].url);
  }

  /** Another goroutine's merge that no longer advertises the endpoint comes before its answer. */
  method AnsweredButDropped() returns (driver: Driver, outcome: Outcome)
    ensures fresh(driver) && driver.Valid() && outcome == Served("d")
    ensures driver.preferred != "d" && !Listed(driver.roster, "d")
  {
    driver := SeedAndDiscovered();
    ghost var before := driver.View();
    var attempts;
    ghost var chosen;
    var turns := [Turn([], [Merged([])], Answered, 0)];
    outcome, attempts, chosen := driver.Do(Some("d"), 0, turns, Ending([], None, []));
    HintIsFirst(before.roster, Some("d"), "s", 0, chosen, before.roster[1]);
    AnsweredFirst(Urls(chosen), turns[0], attempts, outcome, Ending([], None, []));
    ghost var ops: seq<Op> := [Dialed("d"), Merged([]), Succeeded("d")];
    assert AttemptOps("d", turns[0]) + EndingOps(Ending([], None, [])) == ops;
    assert ops[..2][1] == Merged([]) && LastMerge(ops[..2]) == Some([]);
    DropsUnlisted(before, driver.View(), ops, "d");
  }

  /** The request's own refresh, after the answer, is told of no endpoint but the seed. */
  method OwnRefreshDrops() returns (driver: Driver, outcome: Outcome)
    ensures fresh(driver) && driver.Valid() && outcome == Served("d")
    ensures driver.preferred != "d" && !Listed(driver.roster, "d")
  {
    driver := SeedAndDiscovered();
    ghost var before := driver.View();
    var attempts;
    ghost var chosen;
    var turns, ending := [Turn([], [], Answered, 0)], Ending([], Some([]), []);
    outcome, attempts, chosen := driver.Do(Some("d"), 0, turns, ending);
    HintIsFirst(before.roster, Some("d"), "s", 0, chosen, before.roster[1]);
    AnsweredFirst(Urls(chosen), turns[0], attempts, outcome, ending);
    ghost var ops: seq<Op> := [Dialed("d"), Succeeded("d"), Merged([])];
    assert AttemptOps("d", turns[0]) + EndingOps(ending) == ops;
    DropsUnlisted(before, driver.View(), ops, "d");
  }

  lemma AnsweredFirst(list: seq<Url>, turn: Turn, attempts: seq<Url>, outcome: Outcome, ending: Ending)
    requires list != [] && turn.reply.Answered? && FailedOver(list, [turn], attempts, outcome)
    ensures outcome == Served(list[0]) && |attempts| == 1
    ensures RequestOps(list, [turn], 1, outcome, ending) == AttemptOps(list[0], turn) + EndingOps(ending)
  {
    var turns := [turn];
    assert turns[0].reply.Answered?;
    assert !AllTransport(turns, 1);
    assert AttemptsOps(list, [turn], 1) == [] + AttemptOps(list[0], turn);
  }

  /** An endpoint that is no seed is gone once the last merge advertised nothing. */
  lemma DropsUnlisted(s: State, t: State, ops: seq<Op>, url: Url)
    requires s.Valid() && t.Valid() && Reaches(s, ops, t) && LastMerge(ops) == Some([]) && url !in s.seeds
    ensures !Listed(t.roster, url) && t.preferred != url
  {
    ListedByLastMerge(s.seeds, s.roster[0].url, url, s.Of(url), ops);
    assert t.Of(url).known == s.seeds + Entered([]);
    ListedUrl(t.roster, url);
  }

  /** The roster of the configured endpoints, unless one is malformed. */
  method Seeded(endpoints: seq<Option<Url>>) returns (ok: bool, roster: seq<Entry>, seeds: set<Url>)
    ensures ok <==> None !in endpoints
    ensures ok ==> seeds == Entered(endpoints) && SeedRoster(roster, seeds) && ListedInOrder(roster, 0, endpoints)
    ensures ok && endpoints != [] ==> roster != [] && endpoints[0] == Some(roster[0].url)
  {
    roster, seeds := [], {};
    for i := 0 to |endpoints|
      invariant None !in endpoints[..i] && seeds == Entered(endpoints[..i])
      invariant SeedRoster(roster, seeds) && PlacedBefore(roster, endpoints, i)
      invariant if i == 0 then roster == [] else roster != [] && endpoints[0] == Some(roster[0].url)
    {
      if endpoints[i].None? {
        return false, roster, seeds;
      }
      assert Entered(endpoints[..i + 1]) == Entered(endpoints[..i]) + {endpoints[i].value};
      if endpoints[i].value !in seeds {
        SeedAdded(roster, seeds, endpoints[i].value);
        SeedPlaced(roster, endpoints, i);
        seeds := seeds + {endpoints[i].value};
        roster := roster + [Entry(endpoints[i].value, true, true, 0)];
      }
    }
    assert endpoints[..|endpoints|] == endpoints;
    ok := true;
  }

  /** In order of first occurrence, all of them before position `i`. */
  ghost predicate PlacedBefore(roster: seq<Entry>, urls: seq<Option<Url>>, i: nat) {
    ListedInOrder(roster, 0, urls) && forall k :: 0 <= k < |roster| ==> FirstIndex(urls, roster[k].url) < i
  }

  lemma SeedPlaced(roster: seq<Entry>, urls: seq<Option<Url>>, i: nat)
    requires PlacedBefore(roster, urls, i) && i < |urls| && urls[i].Some? && urls[i].value !in Entered(urls[..i])
    ensures PlacedBefore(roster + [Entry(urls[i].value, true, true, 0)], urls, i + 1)
  {
    FirstHere(urls, i);
  }

  /** A driver for the configured endpoints, first one preferred, unless there are none or one is malformed. */
  method NewDriver(endpoints: seq<Option<Url>>, timeout: int) returns (driver: Option<Driver>)
    ensures driver.Some? <==> endpoints != [] && timeout > 0 && None !in endpoints
    ensures driver.Some? ==> fresh(driver.value) && driver.value.Valid() && driver.value.seeds == Entered(endpoints)
    ensures driver.Some? ==> forall e <- driver.value.roster :: e == Entry(e.url, true, true, 0)
    ensures driver.Some? ==> endpoints[0].Some? && driver.value.preferred == endpoints[0].value
    ensures driver.Some? ==> forall url :: Listed(driver.value.roster, url) <==> url in Entered(endpoints)
    ensures driver.Some? ==> ListedInOrder(driver.value.roster, 0, endpoints)
  {
    if |endpoints| == 0 || timeout <= 0 {
      return None;
    }
    var ok, roster, seeds := Seeded(endpoints);
    if !ok {
      return None;
    }
    assert Listed(roster, roster[0].url);
    var made := new Driver(seeds, roster, roster[0].url);
    driver := Some(made);
  }

  ghost predicate SeedRoster(roster: seq<Entry>, seeds: set<Url>) {
    && Distinct(roster)
    && (forall e <- roster :: e == Entry(e.url, true, true, 0))
    && forall url :: Listed(roster, url) <==> url in seeds
  }

  lemma SeedAdded(roster: seq<Entry>, seeds: set<Url>, url: Url)
    requires SeedRoster(roster, seeds) && url !in seeds
    ensures SeedRoster(roster + [Entry(url, true, true, 0)], seeds + {url})
  {
    var more := roster + [Entry(url, true, true, 0)];
    assert more[|roster|].url == url;
    forall i | 0 <= i < |roster| ensures roster[i].url != url { assert Listed(roster, roster[i].url); }
    forall u | Listed(roster, u) ensures Listed(more, u) {
      var i :| 0 <= i < |roster| && roster[i].url == u;
      assert more[i].url == u;
    }
    forall u | Listed(more, u) && u != url ensures Listed(roster, u) {
      var i :| 0 <= i < |more| && more[i].url == u;
      assert roster[i].url == u;
    }
  }

  predicate AllTransport(turns: seq<Turn>, n: nat) {
    n <= |turns| && forall k :: 0 <= k < n ==> turns[k].reply.TransportError?
  }

  /**
   The attempts are a prefix of the candidates; all but the last failed at transport level, so
   nothing is tried after an answer; only when every candidate failed so is the request given up.
   */
  predicate FailedOver(list: seq<Url>, turns: seq<Turn>, attempts: seq<Url>, outcome: Outcome) {
    && attempts <= list && |attempts| <= |turns|
    && (attempts != [] ==> AllTransport(turns, |attempts| - 1))
    && match outcome
       case Unavailable => attempts == list && AllTransport(turns, |attempts|)
       case Waiting => attempts < list && |attempts| == |turns| && AllTransport(turns, |attempts|)
       case Served(endpoint) =>
         attempts != [] && turns[|attempts| - 1].reply.Answered? && endpoint == attempts[|attempts| - 1]
       case Refused => attempts != [] && turns[|attempts| - 1].reply.OtherError?
       case Cancelled => attempts != [] && turns[|attempts| - 1].reply.ContextEnded?
  }

  /** The endpoint is preferred, healthy and not cooling down. */
  ghost predicate Promoted(roster: seq<Entry>, preferred: Url, url: Url) {
    preferred == url && Clear(roster, url)
  }

  lemma StillListed(before: seq<Entry>, after: seq<Entry>)
    requires |before| == |after| && forall i :: 0 <= i < |before| ==> before[i].url == after[i].url
    ensures forall url :: Listed(before, url) ==> Listed(after, url)
  {
    forall url | Listed(before, url) ensures Listed(after, url) {
      var i :| 0 <= i < |before| && before[i].url == url;
      assert after[i].url == url;
    }
  }

  lemma Merges(previous: seq<Entry>, seeds: set<Url>, preferred: Url, kept: seq<Entry>,
    found: seq<Url>, roster: seq<Entry>)
    requires RosterSound(seeds, previous, preferred)
    requires kept <= roster && Distinct(roster) && forall e :: e in kept <==> e in previous && e.url in seeds
    requires forall e <- roster :: e in kept || (e.url in found && e.url !in seeds && Retained(previous, e))
    requires forall u <- found :: u in seeds || Listed(roster, u)
    ensures forall url :: Listed(roster, url) <==> url in seeds || url in found
    ensures forall e <- roster :: Retained(previous, e)
    ensures forall e <- roster :: e.seed == (e.url in seeds) && (e.healthy ==> e.cooldownUntil == 0)
  {
    forall url <- seeds ensures Listed(roster, url) {
      var i :| 0 <= i < |previous| && previous[i].url == url;
      assert previous[i] in kept;
      assert previous[i] in roster;
    }
    forall url | Listed(roster, url) ensures url in seeds || url in found {
      var i :| 0 <= i < |roster| && roster[i].url == url;
      assert roster[i] in roster;
    }
  }
}
