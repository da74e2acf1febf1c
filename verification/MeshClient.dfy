/** Unary calls of the client: candidate order, and failover that never repeats an answered call. */
module MeshClient {
  import opened MeshDriver
  import opened MeshFailover

  predicate Names(info: Info, url: Url, healthy: bool) {
    info.url == url && (healthy ==> info.healthy)
  }

  /** The first entry from `i` on for `url`, among the healthy ones only if so asked. */
  function First(infos: seq<Info>, i: nat, url: Url, healthy: bool): (k: nat)
    requires i <= |infos|
    ensures i <= k <= |infos| && (k < |infos| ==> Names(infos[k], url, healthy))
    ensures forall j :: i <= j < k ==> !Names(infos[j], url, healthy)
    decreases |infos| - i
  {
    if i == |infos| || Names(infos[i], url, healthy) then i else First(infos, i + 1, url, healthy)
  }

  /** Where a candidate stands: the hint, then the healthy endpoints, then the rest, in roster order. */
  function Standing(infos: seq<Info>, hint: Url, url: Url): nat {
    if url == hint then 0
    else
      var k := First(infos, 0, url, true);
      1 + if k < |infos| then k else |infos| + First(infos, 0, url, false)
  }

  predicate Candidate(infos: seq<Info>, hint: Url, url: Url) {
    url != "" && (url == hint || exists k :: 0 <= k < |infos| && infos[k].url == url)
  }

  ghost predicate InOrder(infos: seq<Info>, hint: Url, urls: seq<Url>) {
    forall i, j :: 0 <= i < j < |urls| ==> Standing(infos, hint, urls[i]) < Standing(infos, hint, urls[j])
  }

  /** Every endpoint standing below `bound` is there and no other. */
  ghost predicate HasBelow(infos: seq<Info>, hint: Url, urls: seq<Url>, bound: nat) {
    && InOrder(infos, hint, urls)
    && forall u :: u in urls <==> Candidate(infos, hint, u) && Standing(infos, hint, u) < bound
  }

  /** Each candidate once, in the order of `Standing`. */
  method GrpcCandidates(infos: seq<Info>, hint: Url) returns (urls: seq<Url>)
    ensures NoRepeats(urls) && InOrder(infos, hint, urls)
    ensures forall u :: u in urls <==> Candidate(infos, hint, u)
  {
    urls := if hint != "" then [hint] else [];
    for i := 0 to |infos|
      invariant HasBelow(infos, hint, urls, 1 + i)
    {
      Healthy(infos, hint, i);
      if infos[i].healthy {
        urls := Add(infos, hint, urls, infos[i].url, 1 + i);
      }
    }
    for i := 0 to |infos|
      invariant HasBelow(infos, hint, urls, 1 + |infos| + i)
    {
      Other(infos, hint, i);
      urls := Add(infos, hint, urls, infos[i].url, 1 + |infos| + i);
    }
    forall u | Candidate(infos, hint, u) ensures Standing(infos, hint, u) < 1 + |infos| + |infos| {
      Placed(infos, hint, u);
    }
    assert NoRepeats(urls);
  }

  method Add(ghost infos: seq<Info>, ghost hint: Url, urls: seq<Url>, url: Url, ghost at: nat) returns (more: seq<Url>)
    requires HasBelow(infos, hint, urls, at)
    requires forall u :: Candidate(infos, hint, u) && Standing(infos, hint, u) == at ==> u == url
    requires url != "" ==> Candidate(infos, hint, url) && Standing(infos, hint, url) <= at
    ensures HasBelow(infos, hint, more, at + 1)
  {
    more := if url != "" && url !in urls then urls + [url] else urls;
    forall i | 0 <= i < |urls| ensures Standing(infos, hint, urls[i]) < at {
      assert urls[i] in urls;
    }
    forall u ensures u in more <==> Candidate(infos, hint, u) && Standing(infos, hint, u) < at + 1 {
    }
  }

  lemma Healthy(infos: seq<Info>, hint: Url, i: nat)
    requires i < |infos|
    ensures infos[i].healthy ==> Standing(infos, hint, infos[i].url) <= 1 + i
    ensures infos[i].healthy && infos[i].url != "" ==> Candidate(infos, hint, infos[i].url)
    ensures forall u :: Standing(infos, hint, u) == 1 + i ==> infos[i].healthy && u == infos[i].url
  {
    assert Names(infos[i], infos[i].url, true) <==> infos[i].healthy;
  }

  lemma Other(infos: seq<Info>, hint: Url, i: nat)
    requires i < |infos|
    ensures Standing(infos, hint, infos[i].url) <= 1 + |infos| + i
    ensures infos[i].url != "" ==> Candidate(infos, hint, infos[i].url)
    ensures forall u :: Standing(infos, hint, u) == 1 + |infos| + i ==> u == infos[i].url
  {
    assert Names(infos[i], infos[i].url, false);
  }

  lemma Placed(infos: seq<Info>, hint: Url, url: Url)
    requires Candidate(infos, hint, url)
    ensures Standing(infos, hint, url) < 1 + |infos| + |infos|
  {
    if url != hint {
      var k :| 0 <= k < |infos| && infos[k].url == url;
      assert Names(infos[k], url, false);
    }
  }

  /** Of two endpoints other than the hint, a healthy one comes before one that is not, else the one listed first. */
  lemma StandsBefore(infos: seq<Info>, hint: Url, i: nat, j: nat)
    requires i < |infos| && j < |infos| && i != j && infos[i].url != hint && infos[j].url != hint
    requires forall a, b :: 0 <= a < b < |infos| ==> infos[a].url != infos[b].url
    ensures Standing(infos, hint, infos[i].url) < Standing(infos, hint, infos[j].url) <==>
            if infos[i].healthy == infos[j].healthy then i < j else infos[i].healthy
    ensures Standing(infos, hint, hint) < Standing(infos, hint, infos[i].url)
  {
    StandsAt(infos, hint, i);
    StandsAt(infos, hint, j);
  }

  lemma StandsAt(infos: seq<Info>, hint: Url, i: nat)
    requires i < |infos| && infos[i].url != hint
    requires forall a, b :: 0 <= a < b < |infos| ==> infos[a].url != infos[b].url
    ensures Standing(infos, hint, infos[i].url) == 1 + i + if infos[i].healthy then 0 else |infos|
  {
    assert Names(infos[i], infos[i].url, true) <==> infos[i].healthy;
    assert Names(infos[i], infos[i].url, false);
  }

  // ---- One call ----

  /** What an attempt came to: no connection, or what the call returned. */
  datatype Fate = NoConnection(transport: bool) | Answered | Dropped(contextEnded: bool) | Declined

  datatype Result = Ok(endpoint: Url) | Error(endpoint: Url) | Refused | Cancelled | Unavailable | Waiting

  predicate MovesOn(fate: Fate) {
    fate == NoConnection(true) || fate == Dropped(false)
  }

  predicate AllMovedOn(fates: seq<Fate>, n: nat) {
    n <= |fates| && forall k :: 0 <= k < n ==> MovesOn(fates[k])
  }

  /** Attempts are a prefix of the candidates, and only a transport failure leads to the next one. */
  predicate Called(list: seq<Url>, fates: seq<Fate>, attempts: seq<Url>, result: Result) {
    && attempts <= list && |attempts| <= |fates|
    && (attempts != [] ==> AllMovedOn(fates, |attempts| - 1))
    && match result
       case Unavailable => attempts == list && AllMovedOn(fates, |attempts|)
       case Waiting => attempts < list && |attempts| == |fates| && AllMovedOn(fates, |attempts|)
       case Ok(endpoint) =>
         attempts != [] && fates[|attempts| - 1].Answered? && endpoint == attempts[|attempts| - 1]
       case Error(endpoint) =>
         attempts != [] && fates[|attempts| - 1].Declined? && endpoint == attempts[|attempts| - 1]
       case Refused => attempts != [] && fates[|attempts| - 1] == NoConnection(false)
       case Cancelled => attempts != [] && fates[|attempts| - 1] == Dropped(true)
  }

  /** One unary call; `fates` are what its attempts meet, and the call is still waiting when they run out. */
  method Unary(driver: Driver, hint: Url, now: nat, fates: seq<Fate>)
    returns (result: Result, attempts: seq<Url>, list: seq<Url>, ghost infos: seq<Info>)
    requires driver.Valid()
    ensures |infos| == |driver.roster| && forall i :: 0 <= i < |infos| ==>
              infos[i].url == driver.roster[i].url && infos[i].healthy == !Cooling(driver.roster[i], now)
    ensures InOrder(infos, hint, list)
    ensures Called(list, fates, attempts, result) && NoRepeats(list)
    ensures forall u :: u in list <==> u != "" && (u == hint || Listed(driver.roster, u))
    ensures hint != "" ==> list != [] && list[0] == hint
  {
    var endpoints := driver.Endpoints(now);
    infos := endpoints;
    list := GrpcCandidates(endpoints, hint);
    SameEndpoints(driver.roster, infos, hint);
    if hint != "" { HintFirst(infos, hint, list); }
    attempts := [];
    for i := 0 to |list|
      invariant attempts == list[..i] && AllMovedOn(fates, i)
    {
      if i == |fates| {
        return Result.Waiting, attempts, list, infos;
      }
      attempts := list[..i + 1];
      match fates[i] {
        case NoConnection(transport) =>
          if !transport {
            return Result.Refused, attempts, list, infos;
          }
        case Answered => return Ok(list[i]), attempts, list, infos;
        case Dropped(contextEnded) =>
          if contextEnded {
            return Result.Cancelled, attempts, list, infos;
          }
        case Declined => return Error(list[i]), attempts, list, infos;
      }
    }
    result := Result.Unavailable;
  }

  lemma SameEndpoints(roster: seq<Entry>, infos: seq<Info>, hint: Url)
    requires |infos| == |roster| && forall i :: 0 <= i < |roster| ==> infos[i].url == roster[i].url
    ensures forall u :: Candidate(infos, hint, u) <==> u != "" && (u == hint || Listed(roster, u))
  {
    forall u | Listed(roster, u) ensures exists k :: 0 <= k < |infos| && infos[k].url == u {
      var k :| 0 <= k < |roster| && roster[k].url == u;
      assert infos[k].url == u;
    }
    forall k | 0 <= k < |infos| ensures Listed(roster, infos[k].url) {
      assert roster[k].url == infos[k].url;
    }
  }

  lemma HintFirst(infos: seq<Info>, hint: Url, urls: seq<Url>)
    requires hint in urls && InOrder(infos, hint, urls)
    ensures urls[0] == hint
  {
    assert Standing(infos, hint, hint) == 0;
  }
}
