/** The deterministic directory probes of src/lib/discovery/probes_au.ts: one
    site-restricted search per Australian directory host, each answer filtered to links
    on that host, normalised, de-duplicated and cut at a per-host limit. The search
    backend is a parameter: `Search` maps the query text to what the backend answered. */
module Probes {
  import opened Strings
  import opened Web
  import Address
  import JsonLd

  /** The hosts probed, in order. */
  const ProbeHosts: seq<string> := ["yellowpages.com.au", "localsearch.com.au", "truelocal.com.au", "womo.com.au", "oneflare.com.au"]

  /** The caller's input; "" is a missing name or address. */
  datatype ProbeInput = ProbeInput(name: string, address: string, limitPerHost: Option<int>)

  /** One kept link: the normalised URL, the result's title and snippet as given, and the
      link's host without `www.`. */
  datatype ProbeResult = ProbeResult(url: string, title: Option<Json>, snippet: Option<Json>, host: string)

  /** What the backend does with one query: the request throws, the answer has a non-OK
      status, or it is OK with a body (`{}` where the body is not JSON). */
  datatype Reply = Unreachable | NotOk | Answered(body: Json)

  type Search = string -> Reply

  /** `Math.max(1, Math.min(3, limitPerHost ?? 2))` */
  function PerHost(limit: Option<int>): (r: int)
    ensures 1 <= r <= 3
    ensures limit.None? ==> r == 2
    ensures limit.Some? && 1 <= limit.value <= 3 ==> r == limit.value
    ensures limit.Some? && limit.value < 1 ==> r == 1
    ensures limit.Some? && limit.value > 3 ==> r == 3
  {
    Max(1, Min(3, if limit.Some? then limit.value else 2))
  }

  // ---------------------------------------------------------------------------
  // The query

  /** The location words an address yields: `cityFromAddress`, `stateFromAddress` and
      `postcodeFromAddress`. */
  datatype Location = Location(city: Option<string>, state: Option<string>, postcode: Option<string>)

  function LocationOf(address: string): (r: Location)
    ensures r.state.Some? ==> r.state.value in Address.StateCodes
    ensures r.postcode.Some? ==> |r.postcode.value| == 4
    ensures r.city.Some? ==> r.city.value != ""
    ensures Address.IsCityGuess(address, r.city)
  {
    Address.CityIsSegment(address);
    Address.CityRule(address);
    Location(Address.CityFromAddress(address), Address.StateFromAddress(address), Address.PostcodeFromAddress(address))
  }

  /** The query parts: `site:<host>`, the quoted name, the city when there is one, then
      the state, or the postcode when there is no state. */
  function QueryParts(host: string, name: string, loc: Location): seq<string>
  {
    ["site:" + host, "\"" + name + "\""]
      + (if loc.city.Some? then [loc.city.value] else [])
      + (if loc.state.Some? then [loc.state.value] else if loc.postcode.Some? then [loc.postcode.value] else [])
  }

  /** `parts.join(' ')` */
  function Query(host: string, name: string, loc: Location): string
  {
    Join(QueryParts(host, name, loc), " ")
  }

  /** The location words after the quoted name. */
  function LocationWords(loc: Location): (r: seq<string>)
    ensures |r| <= 2
    ensures r == [] <==> loc.city.None? && loc.state.None? && loc.postcode.None?
    ensures loc.city.Some? ==> |r| > 0 && r[0] == loc.city.value
    ensures loc.state.Some? ==> |r| > 0 && r[|r| - 1] == loc.state.value
    ensures loc.state.None? && loc.postcode.Some? ==> |r| > 0 && r[|r| - 1] == loc.postcode.value
    ensures loc.state.None? && loc.postcode.None? ==> |r| <= 1
  {
    (if loc.city.Some? then [loc.city.value] else [])
      + (if loc.state.Some? then [loc.state.value] else if loc.postcode.Some? then [loc.postcode.value] else [])
  }

  /** The query restricts the search to the host and quotes the name, then adds the
      location words, separated by single spaces. */
  lemma QueryShape(host: string, name: string, loc: Location)
    ensures var tail := LocationWords(loc);
      Query(host, name, loc) == "site:" + host + " \"" + name + "\"" + (if tail == [] then "" else " " + Join(tail, " "))
  {
    var r := QueryParts(host, name, loc);
    var tail := LocationWords(loc);
    assert r == [r[0]] + ([r[1]] + tail);
    JoinCons(r[0], [r[1]] + tail, " ");
    JoinCons(r[1], tail, " ");
  }

  lemma JoinCons(x: string, xs: seq<string>, sep: string)
    ensures Join([x] + xs, sep) == x + (if xs == [] then "" else sep + Join(xs, sep))
  {
    assert ([x] + xs)[1..] == xs;
  }

  // ---------------------------------------------------------------------------
  // One host's answer

  /** `Array.isArray(data?.organic) ? data.organic : []` */
  function Organic(body: Json): seq<Json>
  {
    match JsonLd.Field(body, "organic")
    case Some(JArr(items)) => items
    case _ => []
  }

  /** `${u0.protocol}//${u0.host}${u0.pathname || '/'}` after clearing search and hash. */
  function ProbeKey(u: Url): string
  {
    OriginKey(u) + (if u.path == "" then "/" else u.path)
  }

  /** The normalised URL does not depend on the query or the fragment. */
  lemma ProbeKeyDropsQuery(u: Url, query: string, fragment: string)
    ensures ProbeKey(u.(query := query, fragment := fragment)) == ProbeKey(u)
    ensures StartsWith(ProbeKey(u), u.scheme + "//" + u.hostname)
  {
  }

  /** The result one organic entry yields, if it passes the checks: its `link` is a
      non-empty string that parses and whose host (without `www.`) ends with `host`. */
  function Accepted(parse: UrlParser, host: string, o: Json): Option<ProbeResult>
  {
    var link := JsonLd.Field(o, "link");
    if link.None? || !link.value.JStr? || link.value.s == "" then None
    else
      var h := HostOf(parse, link.value.s);
      if h.None? || h.value == "" || !EndsWith(h.value, host) then None
      else Some(ProbeResult(ProbeKey(parse(link.value.s).value), JsonLd.Field(o, "title"), JsonLd.Field(o, "snippet"), h.value))
  }

  /** An accepted entry has a non-empty string link that parses; its URL is the link's
      key and its host, without `www.`, ends with the probed host. */
  lemma AcceptedSpec(parse: UrlParser, host: string, o: Json)
    ensures var r := Accepted(parse, host, o);
      r.Some? ==>
        && EndsWith(r.value.host, host) && r.value.host != ""
        && exists link ::
             && link != ""
             && JsonLd.Field(o, "link") == Some(JStr(link))
             && parse(link).Some?
             && r.value.url == ProbeKey(parse(link).value)
             && r.value.host == StripWww(parse(link).value.hostname)
  {
    var r := Accepted(parse, host, o);
    if r.Some? {
      var link := JsonLd.Field(o, "link").value.s;
      assert parse(link).Some? && r.value.host == StripWww(parse(link).value.hostname);
    }
  }

  function Urls(block: seq<ProbeResult>): (r: seq<string>)
    ensures |r| == |block| && forall i :: 0 <= i < |block| ==> r[i] == block[i].url
  {
    seq(|block|, i requires 0 <= i < |block| => block[i].url)
  }

  /** The inner loop over the organic entries: an accepted entry is kept unless its URL
      is already kept; once `perHost` entries are kept the loop stops. */
  function Block(parse: UrlParser, host: string, items: seq<Json>, perHost: int): seq<ProbeResult>
  {
    if |items| == 0 then []
    else
      var pre := Block(parse, host, items[..|items| - 1], perHost);
      if |pre| >= perHost then pre
      else
        match Accepted(parse, host, items[|items| - 1])
        case None => pre
        case Some(r) => if r.url in Urls(pre) then pre else pre + [r]
  }

  /** A host's block holds at most `perHost` results, with pairwise distinct URLs. */
  lemma {:induction false} BlockBounded(parse: UrlParser, host: string, items: seq<Json>, perHost: int)
    requires perHost >= 1
    ensures |Block(parse, host, items, perHost)| <= perHost
    ensures Distinct(Urls(Block(parse, host, items, perHost)))
  {
    if |items| > 0 {
      var pre := items[..|items| - 1];
      BlockBounded(parse, host, pre, perHost);
      var b0 := Block(parse, host, pre, perHost);
      var b := Block(parse, host, items, perHost);
      if b != b0 {
        assert Urls(b) == Urls(b0) + [b[|b| - 1].url];
      }
    }
  }

  /** Every result in a host's block is an accepted entry of the answer, on that host. */
  lemma {:induction false} BlockSound(parse: UrlParser, host: string, items: seq<Json>, perHost: int)
    ensures forall r :: r in Block(parse, host, items, perHost) ==>
      EndsWith(r.host, host) && exists o :: o in items && Accepted(parse, host, o) == Some(r)
  {
    if |items| > 0 {
      var pre := items[..|items| - 1];
      var last := items[|items| - 1];
      BlockSound(parse, host, pre, perHost);
      var b0 := Block(parse, host, pre, perHost);
      forall r | r in Block(parse, host, items, perHost)
        ensures exists o :: o in items && Accepted(parse, host, o) == Some(r)
      {
        if r in b0 {
          var o :| o in pre && Accepted(parse, host, o) == Some(r);
          assert o in items;
        } else {
          assert Accepted(parse, host, last) == Some(r);
        }
      }
    }
  }

  lemma UrlsOfPrefix(b0: seq<ProbeResult>, b: seq<ProbeResult>)
    requires b0 <= b
    ensures forall u :: u in Urls(b0) ==> u in Urls(b)
  {
    forall u | u in Urls(b0)
      ensures u in Urls(b)
    {
      var k :| 0 <= k < |b0| && Urls(b0)[k] == u;
      assert Urls(b)[k] == u;
    }
  }

  /** While a host's block is not full, no accepted URL of the answer is missing from it. */
  lemma {:induction false} BlockComplete(parse: UrlParser, host: string, items: seq<Json>, perHost: int)
    ensures |Block(parse, host, items, perHost)| < perHost ==>
      forall o :: o in items && Accepted(parse, host, o).Some? ==>
        Accepted(parse, host, o).value.url in Urls(Block(parse, host, items, perHost))
  {
    if |items| > 0 {
      var pre := items[..|items| - 1];
      BlockComplete(parse, host, pre, perHost);
      BlockCompleteStep(parse, host, items, perHost);
    }
  }

  /** `Block` on a non-empty answer, unfolded once. */
  lemma BlockLast(parse: UrlParser, host: string, items: seq<Json>, perHost: int)
    requires |items| > 0
    ensures var b0 := Block(parse, host, items[..|items| - 1], perHost);
      var a := Accepted(parse, host, items[|items| - 1]);
      Block(parse, host, items, perHost) ==
        if |b0| >= perHost || a.None? || a.value.url in Urls(b0) then b0 else b0 + [a.value]
  {
  }

  /** The step of `BlockComplete`: one more entry keeps a block that is not full complete. */
  lemma BlockCompleteStep(parse: UrlParser, host: string, items: seq<Json>, perHost: int)
    requires |items| > 0
    requires var b0 := Block(parse, host, items[..|items| - 1], perHost);
      |b0| < perHost ==>
        forall o :: o in items[..|items| - 1] && Accepted(parse, host, o).Some? ==>
          Accepted(parse, host, o).value.url in Urls(b0)
    ensures |Block(parse, host, items, perHost)| < perHost ==>
      forall o :: o in items && Accepted(parse, host, o).Some? ==>
        Accepted(parse, host, o).value.url in Urls(Block(parse, host, items, perHost))
  {
    var pre := items[..|items| - 1];
    var last := items[|items| - 1];
    var b0 := Block(parse, host, pre, perHost);
    var b := Block(parse, host, items, perHost);
    BlockLast(parse, host, items, perHost);
    if |b| < perHost {
      var a := Accepted(parse, host, last);
      assert b0 <= b;
      UrlsOfPrefix(b0, b);
      if a.Some? {
        if a.value.url !in Urls(b0) {
          assert b == b0 + [a.value];
          UrlsSnoc(b0, a.value);
        }
        assert a.value.url in Urls(b);
      }
      assert items == pre + [last];
      forall o | o in items && Accepted(parse, host, o).Some?
        ensures Accepted(parse, host, o).value.url in Urls(b)
      {
        if o != last {
          assert o in pre;
        }
      }
    }
  }

  /** Once the block is full the remaining entries change nothing (the `break`). */
  lemma {:induction false} BlockFull(parse: UrlParser, host: string, items: seq<Json>, perHost: int, k: nat)
    requires k <= |items| && |Block(parse, host, items[..k], perHost)| >= perHost
    ensures Block(parse, host, items, perHost) == Block(parse, host, items[..k], perHost)
    decreases |items| - k
  {
    if k < |items| {
      assert items[..k + 1][..k] == items[..k];
      BlockFull(parse, host, items, perHost, k + 1);
    } else {
      assert items[..k] == items;
    }
  }

  /** One more entry of a block that is not full: kept when accepted and new. */
  lemma BlockSnoc(parse: UrlParser, host: string, items: seq<Json>, perHost: int, i: nat)
    requires i < |items| && |Block(parse, host, items[..i], perHost)| < perHost
    ensures var b0 := Block(parse, host, items[..i], perHost);
      var a := Accepted(parse, host, items[i]);
      Block(parse, host, items[..i + 1], perHost) == if a.None? || a.value.url in Urls(b0) then b0 else b0 + [a.value]
  {
    assert items[..i + 1][..i] == items[..i];
  }

  lemma UrlsSnoc(b: seq<ProbeResult>, r: ProbeResult)
    ensures Urls(b + [r]) == Urls(b) + [r.url]
  {
  }

  /** One pass of that loop: the entry at `i` is kept when accepted and unseen, and
      `full` says the block has reached `perHost`. */
  method ScanOne(parse: UrlParser, host: string, items: seq<Json>, perHost: int, i: nat,
                 block: seq<ProbeResult>, seen: set<string>)
    returns (block': seq<ProbeResult>, seen': set<string>, full: bool)
    requires i < |items| && block == Block(parse, host, items[..i], perHost)
    requires forall u :: u in seen <==> u in Urls(block)
    requires |seen| == |block| < perHost
    ensures block' == Block(parse, host, items[..i + 1], perHost)
    ensures forall u :: u in seen' <==> u in Urls(block')
    ensures |seen'| == |block'| && (full <==> |block'| >= perHost)
  {
    BlockSnoc(parse, host, items, perHost, i);
    var r := Accepted(parse, host, items[i]);
    if r.None? || r.value.url in seen {
      return block, seen, false;
    }
    UrlsSnoc(block, r.value);
    block' := block + [r.value];
    seen' := seen + {r.value.url};
    full := |seen'| >= perHost;
  }

  /** The inner loop with its `seen` set and its early `break`; `perHost` is the clamped
      limit, so at least 1. */
  method ScanOrganic(parse: UrlParser, host: string, items: seq<Json>, perHost: int) returns (block: seq<ProbeResult>)
    requires perHost >= 1
    ensures block == Block(parse, host, items, perHost)
  {
    block := [];
    var seen: set<string> := {};
    for i := 0 to |items|
      invariant block == Block(parse, host, items[..i], perHost)
      invariant forall u :: u in seen <==> u in Urls(block)
      invariant |seen| == |block| < perHost
    {
      var full;
      block, seen, full := ScanOne(parse, host, items, perHost, i, block, seen);
      if full {
        BlockFull(parse, host, items, perHost, i + 1);
        return;
      }
    }
    assert items[..|items|] == items;
  }

  // ---------------------------------------------------------------------------
  // All hosts

  /** One host's contribution: the filtered answer when the backend answered OK, nothing
      when the request threw or the status was not OK. */
  function HostResults(parse: UrlParser, search: Search, host: string, name: string, loc: Location, perHost: int): seq<ProbeResult>
  {
    match search(Query(host, name, loc))
    case Answered(body) => Block(parse, host, Organic(body), perHost)
    case _ => []
  }

  /** The contribution of each probed host, in the order of `ProbeHosts`. */
  function HostBlocks(parse: UrlParser, search: Search, input: ProbeInput): (r: seq<seq<ProbeResult>>)
    ensures |r| == |ProbeHosts|
  {
    BlocksFor(parse, search, ProbeHosts, input.name, LocationOf(input.address), PerHost(input.limitPerHost))
  }

  /** One block per host of `hosts`, in order. */
  function BlocksFor(parse: UrlParser, search: Search, hosts: seq<string>, name: string, loc: Location, perHost: int)
    : (r: seq<seq<ProbeResult>>)
    ensures |r| == |hosts|
    ensures forall j :: 0 <= j < |hosts| ==> r[j] == HostResults(parse, search, hosts[j], name, loc, perHost)
  {
    seq(|hosts|, j requires 0 <= j < |hosts| => HostResults(parse, search, hosts[j], name, loc, perHost))
  }

  function Concat(bs: seq<seq<ProbeResult>>): seq<ProbeResult>
  {
    if |bs| == 0 then [] else Concat(bs[..|bs| - 1]) + bs[|bs| - 1]
  }

  /** `runDirectoryProbes(input)`; `apiKey` says whether a search API key is configured. */
  function DirectoryProbes(parse: UrlParser, search: Search, apiKey: bool, input: ProbeInput): seq<ProbeResult>
  {
    if !apiKey || input.name == "" then [] else Concat(HostBlocks(parse, search, input))
  }

  lemma {:induction false} ConcatMember(bs: seq<seq<ProbeResult>>)
    ensures forall r :: r in Concat(bs) <==> exists j :: 0 <= j < |bs| && r in bs[j]
  {
    if |bs| > 0 {
      ConcatMember(bs[..|bs| - 1]);
      assert forall j :: 0 <= j < |bs| - 1 ==> bs[..|bs| - 1][j] == bs[j];
    }
  }

  lemma {:induction false} ConcatBound(bs: seq<seq<ProbeResult>>, m: nat)
    requires forall j :: 0 <= j < |bs| ==> |bs[j]| <= m
    ensures |Concat(bs)| <= |bs| * m
  {
    if |bs| > 0 {
      ConcatBound(bs[..|bs| - 1], m);
      assert (|bs| - 1) * m + m == |bs| * m;
    }
  }

  /** Each host's block is that host's filtered answer: at most the per-host limit, with
      distinct URLs, every result on that host. */
  lemma HostBlockSpec(parse: UrlParser, search: Search, input: ProbeInput, j: nat)
    requires j < |ProbeHosts|
    ensures var b := HostBlocks(parse, search, input)[j];
      && |b| <= PerHost(input.limitPerHost)
      && Distinct(Urls(b))
      && forall r :: r in b ==> EndsWith(r.host, ProbeHosts[j])
  {
    var loc := LocationOf(input.address);
    var perHost := PerHost(input.limitPerHost);
    var host := ProbeHosts[j];
    match search(Query(host, input.name, loc))
    case Answered(body) =>
      BlockBounded(parse, host, Organic(body), perHost);
      BlockSound(parse, host, Organic(body), perHost);
    case _ =>
  }

  /** No API key or no name gives no results; otherwise every result comes from one
      probed host's block and lies on that host, and there are at most five times the
      per-host limit of them. */
  lemma DirectoryProbesSpec(parse: UrlParser, search: Search, apiKey: bool, input: ProbeInput)
    ensures var r := DirectoryProbes(parse, search, apiKey, input);
      && (!apiKey || input.name == "" ==> r == [])
      && |r| <= |ProbeHosts| * PerHost(input.limitPerHost)
      && forall x :: x in r ==> exists j :: 0 <= j < |ProbeHosts| && x in HostBlocks(parse, search, input)[j] && EndsWith(x.host, ProbeHosts[j])
  {
    if apiKey && input.name != "" {
      var bs: seq<seq<ProbeResult>> := HostBlocks(parse, search, input);
      forall j | 0 <= j < |bs|
        ensures |bs[j]| <= PerHost(input.limitPerHost)
        ensures forall x: ProbeResult :: x in bs[j] ==> EndsWith(x.host, ProbeHosts[j])
      {
        HostBlockSpec(parse, search, input, j);
      }
      ConcatBound(bs, PerHost(input.limitPerHost));
      ConcatMember(bs);
    }
  }

  /** A host whose request fails contributes nothing, and the other hosts' blocks are
      what they would have been had it answered. */
  lemma FailureIsolated(parse: UrlParser, s1: Search, s2: Search, input: ProbeInput, k: nat)
    requires k < |ProbeHosts|
    requires var loc := LocationOf(input.address);
      forall j :: 0 <= j < |ProbeHosts| && j != k ==> s2(Query(ProbeHosts[j], input.name, loc)) == s1(Query(ProbeHosts[j], input.name, loc))
    requires !s2(Query(ProbeHosts[k], input.name, LocationOf(input.address))).Answered?
    ensures HostBlocks(parse, s2, input)[k] == []
    ensures forall j :: 0 <= j < |ProbeHosts| && j != k ==> HostBlocks(parse, s2, input)[j] == HostBlocks(parse, s1, input)[j]
  {
  }

  /** One pass of the host loop: build the query, ask the backend, scan its answer. */
  method ProbeHost(parse: UrlParser, search: Search, host: string, name: string, loc: Location, perHost: int)
    returns (block: seq<ProbeResult>)
    requires perHost >= 1
    ensures block == HostResults(parse, search, host, name, loc, perHost)
  {
    var q := Query(host, name, loc);
    var reply := search(q);
    block := [];
    if reply.Answered? {
      block := ScanOrganic(parse, host, Organic(reply.body), perHost);
    }
  }

  /** The loop over the hosts, one search per host. */
  method RunDirectoryProbes(parse: UrlParser, search: Search, apiKey: bool, input: ProbeInput) returns (results: seq<ProbeResult>)
    ensures results == DirectoryProbes(parse, search, apiKey, input)
  {
    if !apiKey || input.name == "" {
      return [];
    }
    results := ProbeAll(parse, search, ProbeHosts, input.name, LocationOf(input.address), PerHost(input.limitPerHost));
  }

  /** The loop itself, over any list of hosts. */
  method ProbeAll(parse: UrlParser, search: Search, hosts: seq<string>, name: string, loc: Location, perHost: int)
    returns (results: seq<ProbeResult>)
    requires perHost >= 1
    ensures results == Concat(BlocksFor(parse, search, hosts, name, loc, perHost))
  {
    ghost var bs := BlocksFor(parse, search, hosts, name, loc, perHost);
    results := [];
    for i := 0 to |hosts|
      invariant results == Concat(bs[..i])
    {
      assert bs[..i + 1][..i] == bs[..i];
      var block := ProbeHost(parse, search, hosts[i], name, loc, perHost);
      results := results + block;
    }
    assert bs[..|hosts|] == bs;
  }
}
