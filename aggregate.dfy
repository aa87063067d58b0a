/** The tail of the discovery route (src/app/api/audit/discovery/urls/route.ts): scoring
    each engine result as it arrives, folding the results of all queries by URL key,
    boosting repeated and well-ranked hits, and selecting the best per host. */
module Aggregate {
  import opened Strings
  import Web
  import Queries
  import Relevance

  /** One scored search result (an element of `allItems`); `rank` is its 1-based position
      in the engine's result list. */
  datatype Item = Item(url: string, title: string, content: string, host: string,
                       sourceType: Queries.SourceType, rank: int, scored: Relevance.Scored)

  function Score(it: Item): int { it.scored.score }

  // ---------------------------------------------------------------------------
  // Ingesting one engine response

  /** One element of `data.results`; `url` is "" when it is missing or not a string. */
  datatype RawResult = RawResult(url: string, title: string, content: string)

  /** What the ingestion loop does with one result. */
  datatype Outcome = BadUrl | OwnWebsite | Accepted(u: Web.Url, host: string)

  /** A result without a URL, or whose URL does not parse, or whose host is empty, is a bad
      URL; one whose normalised URL is the business's own website is excluded. */
  function Triage(parse: Web.UrlParser, website: Option<string>, raw: RawResult): Outcome
  {
    if raw.url == "" then BadUrl
    else match parse(raw.url)
      case None => BadUrl
      case Some(u) =>
        if website.Some? && Web.SlashKey(u) == website.value then OwnWebsite
        // `hostOf(r.url)` parses the same string again, so it cannot fail here
        else if Web.StripWww(u.hostname) == "" then BadUrl
        else Accepted(u, Web.StripWww(u.hostname))
  }

  /** The counters `emitted`, `excludedOwn` and `badUrl` after a prefix of the results. */
  datatype Tally = Tally(kept: nat, own: nat, bad: nat)

  function TallyOf(parse: Web.UrlParser, website: Option<string>, rs: seq<RawResult>): (t: Tally)
    ensures t.kept + t.own + t.bad == |rs|
  {
    if |rs| == 0 then Tally(0, 0, 0)
    else
      var t := TallyOf(parse, website, rs[..|rs| - 1]);
      match Triage(parse, website, rs[|rs| - 1])
      case BadUrl => t.(bad := t.bad + 1)
      case OwnWebsite => t.(own := t.own + 1)
      case Accepted(_, _) => t.(kept := t.kept + 1)
  }

  /** The guards of the scorer, read on an item: no strong support on a job board or a
      plain web page caps the score at 20; outside Facebook a wrong location caps it at 24
      and an occupation-only hit at 22. */
  predicate GuardsHold(it: Item)
  {
    var r := it.scored;
    && (r.jobBoard && Relevance.NoSupport(r) ==> r.score <= 20)
    && (it.sourceType == Queries.WebSource && Relevance.NoSupport(r) ==> r.score <= 20)
    && (r.wrongLocation && !Relevance.IsFacebookHost(it.host) ==> r.score <= 24)
    && (r.occupationOnly && !Relevance.IsFacebookHost(it.host) ==> r.score <= 22)
  }

  /** An accepted result with its parsed URL, its host and its 1-based position. */
  datatype Acceptance = Acceptance(raw: RawResult, u: Web.Url, host: string, rank: int)

  /** The accepted results of a response, in order. */
  function Acceptances(parse: Web.UrlParser, website: Option<string>, rs: seq<RawResult>): seq<Acceptance>
  {
    if |rs| == 0 then []
    else
      var pre := Acceptances(parse, website, rs[..|rs| - 1]);
      match Triage(parse, website, rs[|rs| - 1])
      case Accepted(u, host) => pre + [Acceptance(rs[|rs| - 1], u, host, |rs|)]
      case _ => pre
  }

  /** There are as many acceptances as the tally counts kept results. */
  lemma {:induction false} AcceptancesCounted(parse: Web.UrlParser, website: Option<string>, rs: seq<RawResult>)
    ensures |Acceptances(parse, website, rs)| == TallyOf(parse, website, rs).kept
  {
    if |rs| > 0 {
      AcceptancesCounted(parse, website, rs[..|rs| - 1]);
    }
  }

  /** Each acceptance is the accepted result at its position, and positions ascend. */
  lemma {:induction false} AcceptancesSound(parse: Web.UrlParser, website: Option<string>, rs: seq<RawResult>)
    ensures forall i, j :: 0 <= i < j < |Acceptances(parse, website, rs)| ==>
      Acceptances(parse, website, rs)[i].rank < Acceptances(parse, website, rs)[j].rank
    ensures forall a :: a in Acceptances(parse, website, rs) ==> AcceptedAt(parse, website, rs, a)
  {
    if |rs| > 0 {
      var pre := rs[..|rs| - 1];
      AcceptancesSound(parse, website, pre);
      AcceptancesLast(parse, website, rs);
      var acc0 := Acceptances(parse, website, pre);
      forall a | a in acc0
        ensures AcceptedAt(parse, website, rs, a) && a.rank <= |pre|
      {
        assert AcceptedAt(parse, website, pre, a);
        assert rs[a.rank - 1] == pre[a.rank - 1];
      }
    }
  }

  /** `a` is the accepted result at position `a.rank` of `rs`. */
  predicate AcceptedAt(parse: Web.UrlParser, website: Option<string>, rs: seq<RawResult>, a: Acceptance)
  {
    && 1 <= a.rank <= |rs| && a.raw == rs[a.rank - 1]
    && Triage(parse, website, rs[a.rank - 1]) == Accepted(a.u, a.host)
  }

  /** Every accepted result has its acceptance. */
  lemma {:induction false} AcceptancesComplete(parse: Web.UrlParser, website: Option<string>, rs: seq<RawResult>, k: nat)
    requires k < |rs| && Triage(parse, website, rs[k]).Accepted?
    ensures exists i :: 0 <= i < |Acceptances(parse, website, rs)| && Acceptances(parse, website, rs)[i].rank == k + 1
  {
    var pre := rs[..|rs| - 1];
    var acc0 := Acceptances(parse, website, pre);
    var acc := Acceptances(parse, website, rs);
    AcceptancesLast(parse, website, rs);
    if k < |pre| {
      assert rs[k] == pre[k];
      AcceptancesComplete(parse, website, pre, k);
      var i :| 0 <= i < |acc0| && acc0[i].rank == k + 1;
      assert acc[i] == acc0[i];
    } else {
      assert acc[|acc| - 1].rank == k + 1;
    }
  }

  /** The last result adds its acceptance, if it is accepted. */
  lemma AcceptancesLast(parse: Web.UrlParser, website: Option<string>, rs: seq<RawResult>)
    requires |rs| > 0
    ensures var o := Triage(parse, website, rs[|rs| - 1]);
      Acceptances(parse, website, rs) ==
        Acceptances(parse, website, rs[..|rs| - 1]) + if o.Accepted? then [Acceptance(rs[|rs| - 1], o.u, o.host, |rs|)] else []
  {
  }

  /** `it` is the scored item built from acceptance `a`. */
  predicate BuiltFrom(known: Queries.KnownHosts, it: Item, a: Acceptance)
  {
    && it.url == a.raw.url && it.title == a.raw.title && it.content == a.raw.content
    && it.host == a.host && it.sourceType == Queries.ClassifyHost(known, a.host)
    && it.rank == a.rank && GuardsHold(it)
  }

  predicate AllBuilt(known: Queries.KnownHosts, items: seq<Item>, acc: seq<Acceptance>)
  {
    |items| == |acc| && forall i :: 0 <= i < |items| ==> BuiltFrom(known, items[i], acc[i])
  }

  lemma AllBuiltSnoc(known: Queries.KnownHosts, items: seq<Item>, acc: seq<Acceptance>, it: Item, a: Acceptance)
    requires AllBuilt(known, items, acc) && BuiltFrom(known, it, a)
    ensures AllBuilt(known, items + [it], acc + [a])
  {
    forall i | 0 <= i < |items| + 1
      ensures BuiltFrom(known, (items + [it])[i], (acc + [a])[i])
    {
      if i < |items| {
        assert (items + [it])[i] == items[i] && (acc + [a])[i] == acc[i];
      }
    }
  }

  /** What the ingestion loop knows after the first `idx` results. */
  predicate Ingested(known: Queries.KnownHosts, parse: Web.UrlParser, website: Option<string>,
                     results: seq<RawResult>, idx: nat, items: seq<Item>, badUrl: nat, excludedOwn: nat)
  {
    && idx <= |results|
    && TallyOf(parse, website, results[..idx]) == Tally(|items|, excludedOwn, badUrl)
    && AllBuilt(known, items, Acceptances(parse, website, results[..idx]))
  }

  /** A result that is rejected moves one counter and nothing else. */
  lemma IngestRejected(known: Queries.KnownHosts, parse: Web.UrlParser, website: Option<string>,
                       results: seq<RawResult>, idx: nat, items: seq<Item>, badUrl: nat, excludedOwn: nat)
    requires idx < |results| && Ingested(known, parse, website, results, idx, items, badUrl, excludedOwn)
    ensures Triage(parse, website, results[idx]) == BadUrl ==>
      Ingested(known, parse, website, results, idx + 1, items, badUrl + 1, excludedOwn)
    ensures Triage(parse, website, results[idx]) == OwnWebsite ==>
      Ingested(known, parse, website, results, idx + 1, items, badUrl, excludedOwn + 1)
  {
    PrefixStep(parse, website, results, idx);
  }

  /** One more result moves one counter and appends its acceptance, if any. */
  lemma PrefixStep(parse: Web.UrlParser, website: Option<string>, results: seq<RawResult>, idx: nat)
    requires idx < |results|
    ensures var o := Triage(parse, website, results[idx]);
      var t := TallyOf(parse, website, results[..idx]);
      && TallyOf(parse, website, results[..idx + 1]) ==
           (if o.BadUrl? then t.(bad := t.bad + 1) else if o.OwnWebsite? then t.(own := t.own + 1) else t.(kept := t.kept + 1))
      && Acceptances(parse, website, results[..idx + 1]) ==
           Acceptances(parse, website, results[..idx]) + if o.Accepted? then [Acceptance(results[idx], o.u, o.host, idx + 1)] else []
  {
    var rs := results[..idx + 1];
    assert rs[..|rs| - 1] == results[..idx];
    assert rs[|rs| - 1] == results[idx];
  }

  /** An accepted result appends the item built from it. */
  lemma IngestAccepted(known: Queries.KnownHosts, parse: Web.UrlParser, website: Option<string>,
                       results: seq<RawResult>, idx: nat, items: seq<Item>, badUrl: nat, excludedOwn: nat,
                       it: Item)
    requires idx < |results| && Ingested(known, parse, website, results, idx, items, badUrl, excludedOwn)
    requires Triage(parse, website, results[idx]).Accepted?
    requires BuiltFrom(known, it, Acceptance(results[idx], Triage(parse, website, results[idx]).u,
                                             Triage(parse, website, results[idx]).host, idx + 1))
    ensures Ingested(known, parse, website, results, idx + 1, items + [it], badUrl, excludedOwn)
  {
    var o := Triage(parse, website, results[idx]);
    PrefixStep(parse, website, results, idx);
    AllBuiltSnoc(known, items, Acceptances(parse, website, results[..idx]), it, Acceptance(results[idx], o.u, o.host, idx + 1));
  }

  /** The loop over `data.results` for one query: every accepted result becomes a scored
      item, in order, ranked by its position; the others are counted. */
  method Ingest(known: Queries.KnownHosts, cfg: Queries.Config, parse: Web.UrlParser,
                g: Relevance.Golden, website: Option<string>, results: seq<RawResult>)
    returns (items: seq<Item>, badUrl: nat, excludedOwn: nat)
    ensures TallyOf(parse, website, results) == Tally(|items|, excludedOwn, badUrl)
    ensures AllBuilt(known, items, Acceptances(parse, website, results))
  {
    items, badUrl, excludedOwn := [], 0, 0;
    var idx := 0;
    while idx < |results|
      invariant Ingested(known, parse, website, results, idx, items, badUrl, excludedOwn)
    {
      var raw := results[idx];
      var outcome := Triage(parse, website, raw);
      match outcome {
        case BadUrl =>
          IngestRejected(known, parse, website, results, idx, items, badUrl, excludedOwn);
          badUrl := badUrl + 1;
        case OwnWebsite =>
          IngestRejected(known, parse, website, results, idx, items, badUrl, excludedOwn);
          excludedOwn := excludedOwn + 1;
        case Accepted(u, host) =>
          var it := ScoreResult(known, cfg, g, raw, u, host, idx + 1);
          IngestAccepted(known, parse, website, results, idx, items, badUrl, excludedOwn, it);
          items := items + [it];
      }
      assert Ingested(known, parse, website, results, idx + 1, items, badUrl, excludedOwn);
      idx := idx + 1;
    }
    assert results[..idx] == results;
  }

  /** The item built from an accepted result: classified by host, then scored. */
  method ScoreResult(known: Queries.KnownHosts, cfg: Queries.Config, g: Relevance.Golden,
                     raw: RawResult, u: Web.Url, host: string, rank: int) returns (it: Item)
    ensures BuiltFrom(known, it, Acceptance(raw, u, host, rank))
  {
    var sourceType := Queries.ClassifyHost(known, host);
    var hit := Relevance.Hit(u, raw.title, raw.content, host, sourceType);
    var scored := Relevance.ScoreHit(known, cfg, g, hit);
    it := Item(raw.url, raw.title, raw.content, host, sourceType, rank, scored);
  }

  // ---------------------------------------------------------------------------
  // Folding results by URL key

  /** One entry of the `agg` map. */
  datatype Agg = Agg(sample: Item, urlKey: string, bestScore: int, bestRank: int, hits: nat)

  /** The aggregation key: scheme, host and path for a social profile, scheme and host for
      anything else, the raw URL when it does not parse. */
  function KeyOf(parse: Web.UrlParser, it: Item): string
  {
    match parse(it.url)
    case None => it.url
    case Some(u) => if it.sourceType == Queries.SocialSource then Web.PathKey(u) else Web.OriginKey(u)
  }

  /** `item.rank || 999` */
  function RankOrDefault(rank: int): int { if rank == 0 then 999 else rank }

  /** The position of `key` among the entries, `|aggs|` when absent (`agg.get(key)`). */
  function Find(aggs: seq<Agg>, key: string): (r: nat)
    ensures r <= |aggs|
    ensures r < |aggs| ==> aggs[r].urlKey == key
    ensures forall j :: 0 <= j < r ==> aggs[j].urlKey != key
  {
    if |aggs| == 0 then 0
    else if aggs[0].urlKey == key then 0
    else 1 + Find(aggs[1..], key)
  }

  /** A repeated key: one more hit, the better score and rank, and the strictly better
      item as the sample. */
  function Absorb(a: Agg, it: Item): Agg
  {
    Agg(if Score(it) > Score(a.sample) then it else a.sample, a.urlKey,
        Max(a.bestScore, Score(it)), Min(a.bestRank, RankOrDefault(it.rank)), a.hits + 1)
  }

  /** One iteration of the aggregation loop; the map's insertion order is the order of
      the sequence. */
  function Step(parse: Web.UrlParser, aggs: seq<Agg>, it: Item): seq<Agg>
  {
    var key := KeyOf(parse, it);
    var j := Find(aggs, key);
    if j == |aggs| then aggs + [Agg(it, key, Score(it), RankOrDefault(it.rank), 1)]
    else aggs[j := Absorb(aggs[j], it)]
  }

  function Fold(parse: Web.UrlParser, items: seq<Item>): seq<Agg>
  {
    if |items| == 0 then [] else Step(parse, Fold(parse, items[..|items| - 1]), items[|items| - 1])
  }

  /** The aggregation loop over `allItems`. */
  method AggregateItems(parse: Web.UrlParser, items: seq<Item>) returns (aggs: seq<Agg>)
    ensures aggs == Fold(parse, items)
  {
    aggs := [];
    var i := 0;
    while i < |items|
      invariant 0 <= i <= |items|
      invariant aggs == Fold(parse, items[..i])
    {
      var it := items[i];
      FoldSnoc(parse, items[..i + 1]);
      assert items[..i + 1][..i] == items[..i];
      var key := KeyOf(parse, it);
      var j := FindAgg(aggs, key);
      if j == |aggs| {
        aggs := aggs + [Agg(it, key, Score(it), RankOrDefault(it.rank), 1)];
      } else {
        aggs := aggs[j := Absorb(aggs[j], it)];
      }
      i := i + 1;
    }
    assert items[..i] == items;
  }

  /** The lookup `agg.get(key)`: the position of the aggregate with `key`, or `|aggs|`. */
  method FindAgg(aggs: seq<Agg>, key: string) returns (j: nat)
    ensures j == Find(aggs, key)
  {
    j := 0;
    while j < |aggs| && aggs[j].urlKey != key
      invariant 0 <= j <= |aggs|
      invariant forall j' :: 0 <= j' < j ==> aggs[j'].urlKey != key
    {
      j := j + 1;
    }
  }

  lemma FoldSnoc(parse: Web.UrlParser, items: seq<Item>)
    requires |items| > 0
    ensures Fold(parse, items) == Step(parse, Fold(parse, items[..|items| - 1]), items[|items| - 1])
  {
  }

  /** How many items carry `key`. */
  function CountKey(parse: Web.UrlParser, items: seq<Item>, key: string): (n: nat)
    ensures n <= |items|
  {
    if |items| == 0 then 0
    else CountKey(parse, items[..|items| - 1], key) + (if KeyOf(parse, items[|items| - 1]) == key then 1 else 0)
  }

  lemma CountKeySnoc(parse: Web.UrlParser, items: seq<Item>, it: Item, key: string)
    ensures CountKey(parse, items + [it], key) == CountKey(parse, items, key) + (if KeyOf(parse, it) == key then 1 else 0)
  {
    assert (items + [it])[..|items + [it]| - 1] == items;
  }

  /** `agg.has(key)` */
  predicate KeyIn(aggs: seq<Agg>, key: string) { Find(aggs, key) < |aggs| }

  /** Some item with `key` has rank `r`. */
  predicate RankAttained(parse: Web.UrlParser, items: seq<Item>, key: string, r: int)
  {
    exists it :: it in items && KeyOf(parse, it) == key && RankOrDefault(it.rank) == r
  }

  /** Entry `a` sums up the items that share its key: its sample is one of them and has the
      best score, its rank is the best rank among them, and `hits` counts them. */
  predicate Summarises(parse: Web.UrlParser, items: seq<Item>, a: Agg)
  {
    && a.sample in items && KeyOf(parse, a.sample) == a.urlKey
    && a.bestScore == Score(a.sample)
    && (forall it :: it in items && KeyOf(parse, it) == a.urlKey ==>
          Score(it) <= a.bestScore && a.bestRank <= RankOrDefault(it.rank))
    && RankAttained(parse, items, a.urlKey, a.bestRank)
    && a.hits == CountKey(parse, items, a.urlKey)
  }

  /** The entries have distinct keys, each sums up its items, and every item's key has one. */
  predicate FoldInv(parse: Web.UrlParser, items: seq<Item>, aggs: seq<Agg>)
  {
    && (forall i, j :: 0 <= i < j < |aggs| ==> aggs[i].urlKey != aggs[j].urlKey)
    && (forall a :: a in aggs ==> Summarises(parse, items, a))
    && (forall it :: it in items ==> KeyIn(aggs, KeyOf(parse, it)))
  }

  /** The fold has one entry per distinct key, and each entry sums up its items. */
  lemma {:induction false} FoldSummarises(parse: Web.UrlParser, items: seq<Item>)
    ensures FoldInv(parse, items, Fold(parse, items))
  {
    if |items| > 0 {
      var pre, it := items[..|items| - 1], items[|items| - 1];
      assert items == pre + [it];
      FoldSummarises(parse, pre);
      StepKeys(parse, Fold(parse, pre), it);
      StepCovers(parse, pre, Fold(parse, pre), it);
      StepSummarises(parse, pre, Fold(parse, pre), it);
    }
  }

  lemma StepKeys(parse: Web.UrlParser, aggs: seq<Agg>, it: Item)
    requires forall i, j :: 0 <= i < j < |aggs| ==> aggs[i].urlKey != aggs[j].urlKey
    ensures var s := Step(parse, aggs, it);
      forall i, j :: 0 <= i < j < |s| ==> s[i].urlKey != s[j].urlKey
  {
  }

  lemma StepCovers(parse: Web.UrlParser, pre: seq<Item>, aggs: seq<Agg>, it: Item)
    requires forall x :: x in pre ==> KeyIn(aggs, KeyOf(parse, x))
    ensures forall x :: x in pre + [it] ==> KeyIn(Step(parse, aggs, it), KeyOf(parse, x))
  {
    var s := Step(parse, aggs, it);
    forall x | x in pre + [it]
      ensures KeyIn(s, KeyOf(parse, x))
    {
      if x in pre {
        var i := Find(aggs, KeyOf(parse, x));
        assert s[i].urlKey == aggs[i].urlKey;
      } else {
        assert s[Find(aggs, KeyOf(parse, it))].urlKey == KeyOf(parse, it);
      }
    }
  }

  lemma StepSummarises(parse: Web.UrlParser, pre: seq<Item>, aggs: seq<Agg>, it: Item)
    requires FoldInv(parse, pre, aggs)
    ensures forall a :: a in Step(parse, aggs, it) ==> Summarises(parse, pre + [it], a)
  {
    var s := Step(parse, aggs, it);
    var j := Find(aggs, KeyOf(parse, it));
    forall a | a in s
      ensures Summarises(parse, pre + [it], a)
    {
      var i :| 0 <= i < |s| && s[i] == a;
      if i == j {
        SummarisesHit(parse, pre, it, aggs);
      } else {
        assert a == aggs[i] && a in aggs;
        SummarisesMiss(parse, pre, it, a);
      }
    }
  }

  /** An entry whose key differs from the new item's still sums up its items. */
  lemma SummarisesMiss(parse: Web.UrlParser, pre: seq<Item>, it: Item, a: Agg)
    requires Summarises(parse, pre, a) && KeyOf(parse, it) != a.urlKey
    ensures Summarises(parse, pre + [it], a)
  {
    CountKeySnoc(parse, pre, it, a.urlKey);
    var w :| w in pre && KeyOf(parse, w) == a.urlKey && RankOrDefault(w.rank) == a.bestRank;
    assert w in pre + [it];
    assert a.sample in pre + [it];
  }

  /** The entry the new item lands in (new or absorbed) sums up its items. */
  lemma SummarisesHit(parse: Web.UrlParser, pre: seq<Item>, it: Item, aggs: seq<Agg>)
    requires FoldInv(parse, pre, aggs)
    ensures var j := Find(aggs, KeyOf(parse, it));
      j < |Step(parse, aggs, it)| && Summarises(parse, pre + [it], Step(parse, aggs, it)[j])
  {
    var key := KeyOf(parse, it);
    var j := Find(aggs, key);
    if j == |aggs| {
      forall x | x in pre
        ensures KeyOf(parse, x) != key
      {
        assert KeyIn(aggs, KeyOf(parse, x));
      }
      SummarisesNew(parse, pre, it);
    } else {
      assert aggs[j] in aggs;
      SummarisesAbsorb(parse, pre, it, aggs[j]);
    }
  }

  /** A first item with a new key makes an entry that sums it up. */
  lemma SummarisesNew(parse: Web.UrlParser, pre: seq<Item>, it: Item)
    requires forall x :: x in pre ==> KeyOf(parse, x) != KeyOf(parse, it)
    ensures Summarises(parse, pre + [it], Agg(it, KeyOf(parse, it), Score(it), RankOrDefault(it.rank), 1))
  {
    var key := KeyOf(parse, it);
    CountKeySnoc(parse, pre, it, key);
    NoKeyNoCount(parse, pre, key);
    assert it in pre + [it];
    assert forall x :: x in pre + [it] && KeyOf(parse, x) == key ==> x == it;
  }

  /** Absorbing an item with the entry's key keeps the entry a summary. */
  lemma SummarisesAbsorb(parse: Web.UrlParser, pre: seq<Item>, it: Item, a: Agg)
    requires Summarises(parse, pre, a) && KeyOf(parse, it) == a.urlKey
    ensures Summarises(parse, pre + [it], Absorb(a, it))
  {
    var items := pre + [it];
    CountKeySnoc(parse, pre, it, a.urlKey);
    assert it in items && a.sample in items;
    var w :| w in pre && KeyOf(parse, w) == a.urlKey && RankOrDefault(w.rank) == a.bestRank;
    assert w in items;
    var b := Absorb(a, it);
    assert RankAttained(parse, items, a.urlKey, b.bestRank) by {
      if RankOrDefault(it.rank) < a.bestRank {
        assert b.bestRank == RankOrDefault(it.rank);
      } else {
        assert b.bestRank == RankOrDefault(w.rank);
      }
    }
  }

  lemma {:induction false} NoKeyNoCount(parse: Web.UrlParser, items: seq<Item>, key: string)
    requires forall x :: x in items ==> KeyOf(parse, x) != key
    ensures CountKey(parse, items, key) == 0
  {
    if |items| > 0 {
      assert items[|items| - 1] in items;
      NoKeyNoCount(parse, items[..|items| - 1], key);
    }
  }

  // ---------------------------------------------------------------------------
  // Boosts

  /** `Math.min(6, Math.max(0, (a.hits - 1) * 2))` */
  function DupBoost(hits: int): (b: int)
    ensures 0 <= b <= 6
  {
    Min(6, Max(0, (hits - 1) * 2))
  }

  /** `Math.max(0, 6 - Math.max(0, a.bestRank - 1))` */
  function RankBoost(bestRank: int): (b: int)
    ensures 0 <= b <= 6
  {
    Max(0, 6 - Max(0, bestRank - 1))
  }

  /** `Math.round(bestScore + scale * (dup + rank))` with scale 1 from 40 points, one half
      from 30 points and 0 below; a half rounds up. */
  function FinalScore(best: int, hits: int, bestRank: int): (r: int)
    ensures best <= r <= best + 12
    ensures best < 30 ==> r == best
    ensures best >= 40 ==> r == best + DupBoost(hits) + RankBoost(bestRank)
    ensures 30 <= best < 40 ==> 2 * (r - best) - 1 <= DupBoost(hits) + RankBoost(bestRank) <= 2 * (r - best)
  {
    var boost := DupBoost(hits) + RankBoost(bestRank);
    if best >= 40 then best + boost
    else if best >= 30 then best + (boost + 1) / 2
    else best
  }

  /** A better score, more hits or a better rank never lower the final score. */
  lemma FinalScoreMonotone(best: int, hits: int, rank: int, best': int, hits': int, rank': int)
    requires best <= best' && hits <= hits' && rank' <= rank
    ensures FinalScore(best, hits, rank) <= FinalScore(best', hits', rank')
  {
    assert DupBoost(hits) <= DupBoost(hits');
    assert RankBoost(rank) <= RankBoost(rank');
  }

  /** `{ ...a.sample, url: a.urlKey, score: finalScore }` */
  function Finalize(a: Agg): (it: Item)
  {
    a.sample.(url := a.urlKey,
              scored := a.sample.scored.(score := FinalScore(a.bestScore, a.hits, a.bestRank)))
  }

  /** The loop over `agg.values()` that builds `urlsPre`. */
  method FinalizeAll(aggs: seq<Agg>) returns (pre: seq<Item>)
    ensures |pre| == |aggs|
    ensures forall i :: 0 <= i < |pre| ==> pre[i] == Finalize(aggs[i])
  {
    pre := [];
    for i := 0 to |aggs|
      invariant |pre| == i
      invariant forall k :: 0 <= k < i ==> pre[k] == Finalize(aggs[k])
    {
      pre := pre + [Finalize(aggs[i])];
    }
  }

  // ---------------------------------------------------------------------------
  // Thresholds, ordering and per-host caps

  predicate MeetsThreshold(cfg: Queries.Config, it: Item)
  {
    Score(it) >= Queries.MinScoreFor(cfg, it.sourceType)
  }

  function Threshold(cfg: Queries.Config): Item -> bool
  {
    it => MeetsThreshold(cfg, it)
  }

  /** Descending by score. */
  predicate SortedDesc(xs: seq<Item>)
  {
    forall i, j :: 0 <= i < j < |xs| ==> Score(xs[i]) >= Score(xs[j])
  }

  /** Inserts `x` behind every element scoring at least as much. */
  function Insert(x: Item, ys: seq<Item>): seq<Item>
  {
    if |ys| == 0 then [x]
    else if Score(ys[0]) >= Score(x) then [ys[0]] + Insert(x, ys[1..])
    else [x] + ys
  }

  /** Inserting adds `x` and loses nothing. */
  lemma {:induction false} InsertPerm(x: Item, ys: seq<Item>)
    ensures multiset(Insert(x, ys)) == multiset(ys) + multiset{x}
  {
    if |ys| > 0 && Score(ys[0]) >= Score(x) {
      InsertPerm(x, ys[1..]);
      assert ys == [ys[0]] + ys[1..];
    }
  }

  /** `preFiltered.sort((a, b) => b.score - a.score)`: a stable sort, descending. */
  function SortDesc(xs: seq<Item>): (r: seq<Item>)
    ensures multiset(r) == multiset(xs)
  {
    if |xs| == 0 then []
    else
      assert xs == xs[..|xs| - 1] + [xs[|xs| - 1]];
      InsertPerm(xs[|xs| - 1], SortDesc(xs[..|xs| - 1]));
      Insert(xs[|xs| - 1], SortDesc(xs[..|xs| - 1]))
  }

  lemma {:induction false} InsertSorted(x: Item, ys: seq<Item>)
    requires SortedDesc(ys)
    ensures SortedDesc(Insert(x, ys))
  {
    if |ys| > 0 && Score(ys[0]) >= Score(x) {
      InsertSorted(x, ys[1..]);
      var r := Insert(x, ys[1..]);
      InsertPerm(x, ys[1..]);
      assert forall k :: 0 <= k < |r| ==> Score(r[k]) <= Score(ys[0]) by {
        forall k | 0 <= k < |r|
          ensures Score(r[k]) <= Score(ys[0])
        {
          assert r[k] in multiset(r);
          assert r[k] in multiset(ys[1..]) + multiset{x};
          if r[k] != x {
            assert r[k] in ys[1..];
          }
        }
      }
    }
  }

  lemma {:induction false} SortDescSorted(xs: seq<Item>)
    ensures SortedDesc(SortDesc(xs))
  {
    if |xs| > 0 {
      SortDescSorted(xs[..|xs| - 1]);
      InsertSorted(xs[|xs| - 1], SortDesc(xs[..|xs| - 1]));
    }
  }

  /** The items scoring exactly `v`, in order. */
  function WithScore(xs: seq<Item>, v: int): (r: seq<Item>)
  {
    if |xs| == 0 then [] else (if Score(xs[0]) == v then [xs[0]] else []) + WithScore(xs[1..], v)
  }

  lemma {:induction false} WithScoreAppend(xs: seq<Item>, ys: seq<Item>, v: int)
    ensures WithScore(xs + ys, v) == WithScore(xs, v) + WithScore(ys, v)
  {
    if |xs| == 0 {
      assert xs + ys == ys;
    } else {
      var h := if Score(xs[0]) == v then [xs[0]] else [];
      assert (xs + ys)[1..] == xs[1..] + ys;
      assert (xs + ys)[0] == xs[0];
      assert WithScore(xs + ys, v) == h + WithScore(xs[1..] + ys, v);
      assert WithScore(xs, v) == h + WithScore(xs[1..], v);
      WithScoreAppend(xs[1..], ys, v);
    }
  }

  lemma {:induction false} WithScoreBelow(ys: seq<Item>, v: int)
    requires SortedDesc(ys) && |ys| > 0 && Score(ys[0]) < v
    ensures WithScore(ys, v) == []
  {
    if |ys| > 1 {
      WithScoreBelow(ys[1..], v);
    }
  }

  lemma {:induction false} InsertStable(x: Item, ys: seq<Item>, v: int)
    requires SortedDesc(ys)
    ensures WithScore(Insert(x, ys), v) == WithScore(ys, v) + (if Score(x) == v then [x] else [])
  {
    if |ys| == 0 {
    } else if Score(ys[0]) >= Score(x) {
      assert SortedDesc(ys[1..]);
      InsertStable(x, ys[1..], v);
      InsertBehind(x, ys, v);
    } else {
      InsertInFront(x, ys, v);
    }
  }

  /** Inserting behind the head keeps the head's contribution in front. */
  lemma InsertBehind(x: Item, ys: seq<Item>, v: int)
    requires |ys| > 0 && Score(ys[0]) >= Score(x)
    requires WithScore(Insert(x, ys[1..]), v) == WithScore(ys[1..], v) + (if Score(x) == v then [x] else [])
    ensures WithScore(Insert(x, ys), v) == WithScore(ys, v) + (if Score(x) == v then [x] else [])
  {
    var r, rest := Insert(x, ys), Insert(x, ys[1..]);
    assert r[0] == ys[0] && r[1..] == rest;
    var hd := if Score(ys[0]) == v then [ys[0]] else [];
    var xp := if Score(x) == v then [x] else [];
    assert WithScore(r, v) == hd + WithScore(rest, v);
    assert WithScore(ys, v) == hd + WithScore(ys[1..], v);
    assert hd + (WithScore(ys[1..], v) + xp) == (hd + WithScore(ys[1..], v)) + xp;
  }

  /** Inserting in front of a higher-scoring sorted sequence. */
  lemma InsertInFront(x: Item, ys: seq<Item>, v: int)
    requires SortedDesc(ys) && |ys| > 0 && Score(ys[0]) < Score(x)
    ensures WithScore(Insert(x, ys), v) == WithScore(ys, v) + (if Score(x) == v then [x] else [])
  {
    assert Insert(x, ys) == [x] + ys;
    assert ([x] + ys)[1..] == ys;
    if Score(x) == v {
      WithScoreBelow(ys, v);
    }
  }

  /** The sort is stable: the items of any one score keep their relative order. */
  lemma {:induction false} SortDescStable(xs: seq<Item>, v: int)
    ensures WithScore(SortDesc(xs), v) == WithScore(xs, v)
  {
    if |xs| > 0 {
      var pre, x := xs[..|xs| - 1], xs[|xs| - 1];
      SortDescStable(pre, v);
      SortDescSorted(pre);
      SortDescSnoc(xs);
      InsertStable(x, SortDesc(pre), v);
      WithScoreSnoc(xs, v);
    }
  }

  lemma SortDescSnoc(xs: seq<Item>)
    requires |xs| > 0
    ensures SortDesc(xs) == Insert(xs[|xs| - 1], SortDesc(xs[..|xs| - 1]))
  {
  }

  lemma WithScoreSnoc(xs: seq<Item>, v: int)
    requires |xs| > 0
    ensures var x := xs[|xs| - 1];
      WithScore(xs, v) == WithScore(xs[..|xs| - 1], v) + (if Score(x) == v then [x] else [])
  {
    var pre, x := xs[..|xs| - 1], xs[|xs| - 1];
    assert xs == pre + [x];
    WithScoreAppend(pre, [x], v);
    assert [x][1..] == [];
  }

  /** How many of `xs` are on `host`. */
  function CountHost(xs: seq<Item>, host: string): (n: nat)
    ensures n <= |xs|
  {
    if |xs| == 0 then 0
    else CountHost(xs[..|xs| - 1], host) + (if xs[|xs| - 1].host == host then 1 else 0)
  }

  /** The per-host cap loop: an item is kept while its host has fewer kept items than
      `capFor(host, type)`. */
  function Capped(cfg: Queries.Config, xs: seq<Item>): (r: seq<Item>)
    ensures |r| <= |xs|
  {
    if |xs| == 0 then []
    else
      var kept := Capped(cfg, xs[..|xs| - 1]);
      var it := xs[|xs| - 1];
      if CountHost(kept, it.host) < Queries.CapFor(cfg, it.host, it.sourceType) then kept + [it] else kept
  }

  /** The loop over `preFiltered` with its `perHost` counters. */
  method CapPerHost(cfg: Queries.Config, sorted: seq<Item>) returns (urls: seq<Item>, capDropped: nat)
    ensures urls == Capped(cfg, sorted)
    ensures |urls| + capDropped == |sorted|
  {
    urls, capDropped := [], 0;
    var perHost: map<string, int> := map[];
    var i := 0;
    while i < |sorted|
      invariant 0 <= i <= |sorted|
      invariant urls == Capped(cfg, sorted[..i])
      invariant |urls| + capDropped == i
      invariant perHost == HostCounts(urls)
    {
      CappedStep(cfg, sorted, i);
      var kept;
      urls, perHost, kept := CapOne(cfg, sorted[i], urls, perHost);
      if !kept {
        capDropped := capDropped + 1;
      }
      i := i + 1;
    }
    assert sorted[..i] == sorted;
  }

  /** One pass of the cap loop: keep `it` while its host is under its cap, counting it. */
  method CapOne(cfg: Queries.Config, it: Item, urls: seq<Item>, perHost: map<string, int>)
    returns (urls': seq<Item>, perHost': map<string, int>, kept: bool)
    requires perHost == HostCounts(urls)
    ensures kept <==> CountHost(urls, it.host) < Queries.CapFor(cfg, it.host, it.sourceType)
    ensures urls' == if kept then urls + [it] else urls
    ensures perHost' == HostCounts(urls')
  {
    var h := it.host;
    var n := if h in perHost then perHost[h] else 0;
    HostCountsCount(urls, h);
    var cap := Queries.CapFor(cfg, h, it.sourceType);
    kept := n < cap;
    if kept {
      HostCountsSnoc(urls, it);
      urls', perHost' := urls + [it], perHost[h := n + 1];
    } else {
      urls', perHost' := urls, perHost;
    }
  }

  /** The `perHost` counters after keeping `xs`. */
  function HostCounts(xs: seq<Item>): map<string, int>
  {
    if |xs| == 0 then map[]
    else
      var m := HostCounts(xs[..|xs| - 1]);
      var h := xs[|xs| - 1].host;
      m[h := (if h in m then m[h] else 0) + 1]
  }

  lemma HostCountsSnoc(xs: seq<Item>, x: Item)
    ensures HostCounts(xs + [x]) ==
      HostCounts(xs)[x.host := (if x.host in HostCounts(xs) then HostCounts(xs)[x.host] else 0) + 1]
  {
    assert (xs + [x])[..|xs|] == xs;
  }

  /** Each counter is the number of kept items on its host (0 when absent). */
  lemma {:induction false} HostCountsCount(xs: seq<Item>, h: string)
    ensures (if h in HostCounts(xs) then HostCounts(xs)[h] else 0) == CountHost(xs, h)
  {
    if |xs| > 0 {
      HostCountsCount(xs[..|xs| - 1], h);
    }
  }

  lemma CountHostSnocAll(xs: seq<Item>, x: Item)
    ensures forall h :: CountHost(xs + [x], h) == CountHost(xs, h) + (if x.host == h then 1 else 0)
  {
    assert (xs + [x])[..|xs + [x]| - 1] == xs;
  }

  lemma CappedStep(cfg: Queries.Config, xs: seq<Item>, i: nat)
    requires i < |xs|
    ensures var kept := Capped(cfg, xs[..i]);
      Capped(cfg, xs[..i + 1]) ==
        if CountHost(kept, xs[i].host) < Queries.CapFor(cfg, xs[i].host, xs[i].sourceType) then kept + [xs[i]] else kept
  {
    CappedSnoc(cfg, xs[..i + 1]);
    assert xs[..i + 1][..i] == xs[..i];
  }

  lemma CappedSnoc(cfg: Queries.Config, xs: seq<Item>)
    requires |xs| > 0
    ensures var kept := Capped(cfg, xs[..|xs| - 1]);
      var it := xs[|xs| - 1];
      Capped(cfg, xs) == if CountHost(kept, it.host) < Queries.CapFor(cfg, it.host, it.sourceType) then kept + [it] else kept
  {
  }

  lemma {:induction false} CappedPerHost(cfg: Queries.Config, xs: seq<Item>, h: string, t: Queries.SourceType)
    requires forall it :: it in xs && it.host == h ==> it.sourceType == t
    ensures CountHost(Capped(cfg, xs), h) == Min(CountHost(xs, h), Max(0, Queries.CapFor(cfg, h, t)))
  {
    if |xs| > 0 {
      var pre, it := xs[..|xs| - 1], xs[|xs| - 1];
      assert xs == pre + [it];
      CountHostSnocAll(pre, it);
      CappedPerHost(cfg, pre, h, t);
      var kept := Capped(cfg, pre);
      CappedSnoc(cfg, xs);
      CountHostSnocAll(kept, it);
    }
  }

  /** The cap loop keeps a subsequence of its input, so a descending order survives it. */
  lemma {:induction false} CappedSorted(cfg: Queries.Config, xs: seq<Item>)
    requires SortedDesc(xs)
    ensures SortedDesc(Capped(cfg, xs))
    ensures forall x :: x in Capped(cfg, xs) ==> x in xs
  {
    if |xs| > 0 {
      var pre, it := xs[..|xs| - 1], xs[|xs| - 1];
      CappedSorted(cfg, pre);
      var kept := Capped(cfg, pre);
      forall x | x in kept
        ensures Score(x) >= Score(it)
      {
        var k :| 0 <= k < |pre| && pre[k] == x;
      }
    }
  }

  /** Every host has one source type, as when the type is `classifyHost(host)`. */
  predicate HostTyped(xs: seq<Item>)
  {
    forall a, b :: a in xs && b in xs && a.host == b.host ==> a.sourceType == b.sourceType
  }

  /** The cap loop keeps only items of its input. */
  lemma {:induction false} CappedSubset(cfg: Queries.Config, xs: seq<Item>)
    ensures forall x :: x in Capped(cfg, xs) ==> x in xs
  {
    if |xs| > 0 {
      var pre := xs[..|xs| - 1];
      CappedSubset(cfg, pre);
      assert forall x :: x in pre ==> x in xs;
    }
  }

  /** When each host has one source type, no host keeps more than its cap. */
  lemma CappedWithinCap(cfg: Queries.Config, xs: seq<Item>)
    requires HostTyped(xs)
    ensures forall it :: it in Capped(cfg, xs) ==>
      CountHost(Capped(cfg, xs), it.host) <= Max(0, Queries.CapFor(cfg, it.host, it.sourceType))
  {
    CappedSubset(cfg, xs);
    forall it | it in Capped(cfg, xs)
      ensures CountHost(Capped(cfg, xs), it.host) <= Max(0, Queries.CapFor(cfg, it.host, it.sourceType))
    {
      CappedPerHost(cfg, xs, it.host, it.sourceType);
    }
  }

  /** Threshold, sort and cap: the selection of `urls`. */
  method Select(cfg: Queries.Config, urlsPre: seq<Item>) returns (urls: seq<Item>, capDropped: nat)
    ensures urls == Capped(cfg, SortDesc(Filter(urlsPre, Threshold(cfg))))
    ensures |urls| + capDropped == |Filter(urlsPre, Threshold(cfg))|
    ensures SortedDesc(urls)
    ensures forall it :: it in urls ==> it in urlsPre && MeetsThreshold(cfg, it)
  {
    var preFiltered := Filter(urlsPre, Threshold(cfg));
    var sorted := SortDesc(preFiltered);
    SortDescSorted(preFiltered);
    CappedSorted(cfg, sorted);
    forall x | x in sorted
      ensures x in preFiltered
    {
      assert x in multiset(sorted);
    }
    urls, capDropped := CapPerHost(cfg, sorted);
  }

  /** The finalised entries keep the hosts and source types of the items they sum up. */
  lemma FinalizedTyped(parse: Web.UrlParser, allItems: seq<Item>, urlsPre: seq<Item>)
    requires HostTyped(allItems)
    requires |urlsPre| == |Fold(parse, allItems)|
    requires forall i :: 0 <= i < |urlsPre| ==> urlsPre[i] == Finalize(Fold(parse, allItems)[i])
    ensures HostTyped(urlsPre)
  {
    var aggs := Fold(parse, allItems);
    FoldSummarises(parse, allItems);
    forall x | x in urlsPre
      ensures exists y :: y in allItems && y.host == x.host && y.sourceType == x.sourceType
    {
      var i :| 0 <= i < |urlsPre| && urlsPre[i] == x;
      assert aggs[i] in aggs;
    }
  }

  /** Thresholding and sorting keep one source type per host. */
  lemma SelectionTyped(cfg: Queries.Config, urlsPre: seq<Item>)
    requires HostTyped(urlsPre)
    ensures HostTyped(SortDesc(Filter(urlsPre, Threshold(cfg))))
  {
    var sorted := SortDesc(Filter(urlsPre, Threshold(cfg)));
    forall x | x in sorted
      ensures x in urlsPre
    {
      assert x in multiset(sorted);
    }
  }

  /** Aggregation, boosts and selection over every scored item of every query. */
  method AggregateAndSelect(cfg: Queries.Config, parse: Web.UrlParser, allItems: seq<Item>)
    returns (urls: seq<Item>, capDropped: nat)
    ensures SortedDesc(urls)
    ensures forall it :: it in urls ==> MeetsThreshold(cfg, it)
    ensures forall it :: it in urls ==> exists a :: a in Fold(parse, allItems) && it == Finalize(a)
    ensures HostTyped(allItems) ==> forall it :: it in urls ==>
      CountHost(urls, it.host) <= Max(0, Queries.CapFor(cfg, it.host, it.sourceType))
  {
    var aggs := AggregateItems(parse, allItems);
    var urlsPre := FinalizeAll(aggs);
    urls, capDropped := Select(cfg, urlsPre);
    forall it | it in urls
      ensures exists a :: a in aggs && it == Finalize(a)
    {
      var i :| 0 <= i < |urlsPre| && urlsPre[i] == it;
      assert aggs[i] in aggs;
    }
    if HostTyped(allItems) {
      FinalizedTyped(parse, allItems, urlsPre);
      SelectionTyped(cfg, urlsPre);
      CappedWithinCap(cfg, SortDesc(Filter(urlsPre, Threshold(cfg))));
    }
  }
}
