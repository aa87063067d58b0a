/** The NAP scrape of src/app/api/audit/discovery/scrape/route.ts: which URLs are
    visited, what is read from each page, the observation and row recorded per URL, the
    batched inserts, the latest post time per social platform, and the listing
    opportunities derived at the end. Fetching, the database and regular-expression
    matching are not modelled: a page is given as the matches the route's patterns
    find in it. */
module Scrape {
  import opened Strings
  import opened Web
  import Directories
  import Queries
  import NapMatch
  import JsonLd
  import Socials

  // ---------------------------------------------------------------------------
  // classifyHost

  /** `hs.some(h => host.endsWith(h))` */
  function EndsWithAny(host: string, hs: seq<string>): (b: bool)
    ensures b <==> exists i :: 0 <= i < |hs| && EndsWith(host, hs[i])
  {
    if |hs| == 0 then false
    else EndsWith(host, hs[0]) || EndsWithAny(host, hs[1..])
  }

  /** The scrape route's `classifyHost`: the same order as discovery's (maps, social,
      listing), but with a plain suffix test instead of a dot-boundary domain match. */
  function ClassifyHost(known: Queries.KnownHosts, host: string): (r: Queries.SourceType)
    ensures r == Queries.PlacesSource <==>
      (exists i :: 0 <= i < |known.maps| && EndsWith(host, known.maps[i])) || Queries.GoogleMapsPattern(host)
    ensures r == Queries.SocialSource <==>
      r != Queries.PlacesSource && exists i :: 0 <= i < |known.social| && EndsWith(host, known.social[i])
    ensures r == Queries.DirectorySource <==>
      && r != Queries.PlacesSource && r != Queries.SocialSource
      && exists i :: 0 <= i < |known.directories| && EndsWith(host, known.directories[i])
  {
    if EndsWithAny(host, known.maps) || Queries.GoogleMapsPattern(host) then Queries.PlacesSource
    else if EndsWithAny(host, known.social) then Queries.SocialSource
    else if EndsWithAny(host, known.directories) then Queries.DirectorySource
    else Queries.WebSource
  }

  /** Every dot-boundary match is a plain suffix match, so a host discovery files under
      a category that comes first (maps before social before listing) is filed there or
      earlier by the scrape. */
  lemma DomainMatchIsSuffix(h: string, d: string)
    requires Queries.MatchDomain(h, d)
    ensures EndsWith(h, d)
  {
    if h != d {
      assert h[|h| - |d|..] == ("." + d)[1..];
    }
  }

  /** Discovery's places are the scrape's places. */
  lemma PlacesAgree(known: Queries.KnownHosts, host: string)
    requires Queries.ClassifyHost(known, host) == Queries.PlacesSource
    ensures ClassifyHost(known, host) == Queries.PlacesSource
  {
    if !Queries.GoogleMapsPattern(host) {
      var i :| 0 <= i < |known.maps| && Queries.MatchDomain(host, known.maps[i]);
      DomainMatchIsSuffix(host, known.maps[i]);
    }
  }

  /** The type a URL is scraped as: `web` when it has no host name. */
  function TypeOf(known: Queries.KnownHosts, parse: UrlParser, u: string): Queries.SourceType
  {
    match HostOf(parse, u)
    case None => Queries.WebSource
    case Some(h) => if h == "" then Queries.WebSource else ClassifyHost(known, h)
  }

  // ---------------------------------------------------------------------------
  // Target selection

  /** The request fields the selection reads: `urls` (empty when not an array) and
      `useDiscovery`. */
  datatype ScrapeRequest = ScrapeRequest(urls: seq<string>, useDiscovery: bool)

  /** The de-duplication key of a URL; "" for one that does not parse, which the
      selection never keeps. */
  function TargetKey(parse: UrlParser, u: string): string
  {
    match parse(u)
    case None => ""
    case Some(x) => SlashKey(x)
  }

  /** The keys of the URLs the caller ticked explicitly. */
  function ExplicitKeys(parse: UrlParser, urls: seq<string>): set<string>
  {
    set u | u in urls && parse(u).Some? :: SlashKey(parse(u).value)
  }

  function KeysOf(parse: UrlParser, xs: seq<string>): set<string>
  {
    set u | u in xs :: TargetKey(parse, u)
  }

  /** `snap.data.discovery.urls.map(x => x.url).filter(u => typeof u === 'string')`,
      given the `url` field of each discovered entry. */
  function StringUrls(xs: seq<Json>): (r: seq<string>)
    ensures |r| <= |xs|
    ensures forall s :: s in r <==> JStr(s) in xs
  {
    if |xs| == 0 then []
    else
      var pre := StringUrls(xs[..|xs| - 1]);
      var x := xs[|xs| - 1];
      assert xs == xs[..|xs| - 1] + [x];
      if x.JStr? then pre + [x.s] else pre
  }

  /** The stored social links (`Object.values(socials)`, in order) that are strings and
      parse, with query and fragment dropped. */
  function SocialLinks(parse: UrlParser, values: seq<Json>): (r: seq<string>)
    ensures |r| <= |values|
  {
    if |values| == 0 then []
    else
      var pre := SocialLinks(parse, values[..|values| - 1]);
      var v := values[|values| - 1];
      if v.JStr? && parse(v.s).Some? then pre + [PathKey(parse(v.s).value)] else pre
  }

  /** The candidate list before filtering: the request's URLs, or the discovered ones
      when discovery is asked for and the request lists none, then the social links. */
  function Candidates(parse: UrlParser, req: ScrapeRequest, discovered: Option<seq<Json>>,
                      socialValues: seq<Json>): seq<string>
  {
    (if req.useDiscovery && |req.urls| == 0 && discovered.Some? then StringUrls(discovered.value) else req.urls)
      + SocialLinks(parse, socialValues)
  }

  /** The filter's test before de-duplication: the URL parses, and it is not the
      business's own website unless the caller ticked it. */
  predicate Admitted(parse: UrlParser, explicit: set<string>, website: Option<string>, u: string)
  {
    parse(u).Some? && !(website == Some(TargetKey(parse, u)) && TargetKey(parse, u) !in explicit)
  }

  /** The candidates the filter keeps: admitted, and the first with their key. */
  function Kept(parse: UrlParser, explicit: set<string>, website: Option<string>, cs: seq<string>): (r: seq<string>)
    ensures |r| <= |cs|
  {
    if |cs| == 0 then []
    else
      var pre := Kept(parse, explicit, website, cs[..|cs| - 1]);
      var u := cs[|cs| - 1];
      if Admitted(parse, explicit, website, u) && TargetKey(parse, u) !in KeysOf(parse, pre) then pre + [u] else pre
  }

  /** What the filter keeps: admitted candidates with pairwise different keys, and a key
      for every admitted candidate. */
  lemma {:induction false} KeptSpec(parse: UrlParser, explicit: set<string>, website: Option<string>, cs: seq<string>)
    ensures var r := Kept(parse, explicit, website, cs);
      && (forall u :: u in r ==> u in cs && Admitted(parse, explicit, website, u))
      && (forall i, j :: 0 <= i < j < |r| ==> TargetKey(parse, r[i]) != TargetKey(parse, r[j]))
      && (forall u :: u in cs && Admitted(parse, explicit, website, u) ==> TargetKey(parse, u) in KeysOf(parse, r))
  {
    if |cs| > 0 {
      var pre := cs[..|cs| - 1];
      var u := cs[|cs| - 1];
      KeptSpec(parse, explicit, website, pre);
      assert cs == pre + [u];
      var p := Kept(parse, explicit, website, pre);
      var r := Kept(parse, explicit, website, cs);
      if r != p {
        assert r == p + [u];
        forall i, j | 0 <= i < j < |r|
          ensures TargetKey(parse, r[i]) != TargetKey(parse, r[j])
        {
          if j == |p| {
            assert r[i] in p;
          }
        }
      }
      assert forall x :: x in p ==> x in r;
    }
  }

  /** The targets are the kept candidates, at most 80. */
  lemma TargetsBounded(parse: UrlParser, explicit: set<string>, website: Option<string>, cs: seq<string>)
    ensures var t := Take(Kept(parse, explicit, website, cs), 80);
      && |t| <= 80
      && (forall u :: u in t ==> u in cs && parse(u).Some?)
      && (forall u :: u in t && website == Some(TargetKey(parse, u)) ==> TargetKey(parse, u) in explicit)
      && (forall i, j :: 0 <= i < j < |t| ==> TargetKey(parse, t[i]) != TargetKey(parse, t[j]))
  {
    KeptSpec(parse, explicit, website, cs);
  }

  lemma ExplicitKeysSnoc(parse: UrlParser, urls: seq<string>, u: string)
    ensures ExplicitKeys(parse, urls + [u]) ==
      ExplicitKeys(parse, urls) + (if parse(u).Some? then {SlashKey(parse(u).value)} else {})
  {
  }

  lemma KeysOfSnoc(parse: UrlParser, xs: seq<string>, u: string)
    ensures KeysOf(parse, xs + [u]) == KeysOf(parse, xs) + {TargetKey(parse, u)}
  {
  }

  /** The loop over the request's URLs that collects the explicit keys. */
  method CollectExplicit(parse: UrlParser, urls: seq<string>) returns (explicit: set<string>)
    ensures explicit == ExplicitKeys(parse, urls)
  {
    explicit := {};
    for i := 0 to |urls|
      invariant explicit == ExplicitKeys(parse, urls[..i])
    {
      ExplicitKeysSnoc(parse, urls[..i], urls[i]);
      assert urls[..i + 1] == urls[..i] + [urls[i]];
      var k := parse(urls[i]);
      if k.Some? {
        explicit := explicit + {SlashKey(k.value)};
      }
    }
    assert urls[..|urls|] == urls;
  }

  /** The loop over the stored social values that appends their links. */
  method PushSocialLinks(parse: UrlParser, cs0: seq<string>, socialValues: seq<Json>) returns (cs: seq<string>)
    ensures cs == cs0 + SocialLinks(parse, socialValues)
  {
    cs := cs0;
    for i := 0 to |socialValues|
      invariant cs == cs0 + SocialLinks(parse, socialValues[..i])
    {
      assert socialValues[..i + 1][..i] == socialValues[..i];
      var v := socialValues[i];
      if v.JStr? {
        var u0 := parse(v.s);
        if u0.Some? {
          cs := cs + [PathKey(u0.value)];
        }
      }
    }
    assert socialValues[..|socialValues|] == socialValues;
  }

  /** `targetUrls.filter(…)` with its `seen` set. */
  method FilterTargets(parse: UrlParser, explicit: set<string>, websiteKey: Option<string>, cs: seq<string>)
    returns (kept: seq<string>)
    ensures kept == Kept(parse, explicit, websiteKey, cs)
  {
    var seen: set<string> := {};
    kept := [];
    for i := 0 to |cs|
      invariant kept == Kept(parse, explicit, websiteKey, cs[..i])
      invariant seen == KeysOf(parse, kept)
    {
      kept, seen := FilterOne(parse, explicit, websiteKey, cs, i, kept, seen);
    }
    assert cs[..|cs|] == cs;
  }

  /** One pass of the filter: `cs[i]` is kept when it parses, is not the website (unless
      asked for explicitly) and its key is not yet seen. */
  method FilterOne(parse: UrlParser, explicit: set<string>, websiteKey: Option<string>, cs: seq<string>, i: nat,
                   kept: seq<string>, seen: set<string>) returns (kept': seq<string>, seen': set<string>)
    requires i < |cs| && kept == Kept(parse, explicit, websiteKey, cs[..i]) && seen == KeysOf(parse, kept)
    ensures kept' == Kept(parse, explicit, websiteKey, cs[..i + 1]) && seen' == KeysOf(parse, kept')
  {
    KeptSnoc(parse, explicit, websiteKey, cs, i);
    var u := cs[i];
    var key := parse(u);
    if key.Some? {
      var s := SlashKey(key.value);
      assert s == TargetKey(parse, u);
      if !(websiteKey.Some? && s == websiteKey.value && s !in explicit) && s !in seen {
        KeysOfSnoc(parse, kept, u);
        return kept + [u], seen + {s};
      }
    }
    return kept, seen;
  }

  lemma KeptSnoc(parse: UrlParser, explicit: set<string>, website: Option<string>, cs: seq<string>, i: nat)
    requires i < |cs|
    ensures Kept(parse, explicit, website, cs[..i + 1]) ==
      var pre := Kept(parse, explicit, website, cs[..i]);
      if Admitted(parse, explicit, website, cs[i]) && TargetKey(parse, cs[i]) !in KeysOf(parse, pre) then pre + [cs[i]] else pre
  {
    assert cs[..i + 1][..i] == cs[..i];
  }

  /** The selection as the handler performs it: the explicit keys, the discovery
      fallback, the social links, then the filter and the cap of 80. `discovered` is the
      latest manual snapshot's discovered entries, when there is one. */
  method SelectTargets(parse: UrlParser, req: ScrapeRequest, discovered: Option<seq<Json>>,
                       socialValues: seq<Json>, website: string) returns (targets: seq<string>)
    ensures targets == Take(Kept(parse, ExplicitKeys(parse, req.urls), Queries.WebsiteNormalized(parse, website),
                                 Candidates(parse, req, discovered, socialValues)), 80)
  {
    var explicit := CollectExplicit(parse, req.urls);
    var cs := req.urls;
    if req.useDiscovery && |cs| == 0 && discovered.Some? {
      cs := StringUrls(discovered.value);
    }
    cs := PushSocialLinks(parse, cs, socialValues);
    var kept := FilterTargets(parse, explicit, Queries.WebsiteNormalized(parse, website), cs);
    targets := Take(kept, 80);
  }

  // ---------------------------------------------------------------------------
  // extractFromHtml and extractLastPostAt

  /** What the route's patterns find in a page's HTML: the first `<title>` text, the
      bodies of the JSON-LD scripts, the `tel:` link targets, the Australian phone
      numbers in the text, the parsed `<time datetime>` and publication-meta dates that
      are not NaN (in milliseconds), and the `data-utime` numbers. */
  datatype Page = Page(title: Option<string>, jsonLdScripts: seq<string>, telLinks: seq<string>,
                       auPhones: seq<string>, postTimes: seq<int>, utimes: seq<nat>)

  /** The first five distinct names, addresses and phone numbers of a page. */
  datatype Extracted = Extracted(names: seq<string>, addresses: seq<string>, phones: seq<string>)

  /** `Array.from(new Set(xs)).slice(0, 5)` */
  function FirstFive(xs: seq<string>): (r: seq<string>)
    ensures |r| <= 5 && Distinct(r)
    ensures forall x :: x in r ==> x in xs
    ensures |xs| > 0 ==> |r| > 0 && r[0] == xs[0]
  {
    TakeDistinct(Dedup(xs), 5);
    assert |xs| > 0 ==> |Dedup(xs)| > 0 && Dedup(xs)[0] == xs[0] by {
      if |xs| > 0 {
        DedupHead(xs);
      }
    }
    Take(Dedup(xs), 5)
  }

  /** `html.match(/<title…>/i)?.[1]?.trim() || null` */
  function TitleName(title: Option<string>): (r: Option<string>)
    ensures r.Some? ==> title.Some? && r.value == Trim(title.value) && r.value != ""
  {
    match title
    case None => None
    case Some(t) => if Trim(t) == "" then None else Some(Trim(t))
  }

  /** The business names of the JSON-LD items: every `name` that is a string. */
  function BusinessNames(lbs: seq<Json>): (r: seq<string>)
    ensures |r| <= |lbs|
    ensures forall n :: n in r ==> exists lb :: lb in lbs && JsonLd.Field(lb, "name") == Some(JStr(n))
  {
    if |lbs| == 0 then []
    else
      var pre := BusinessNames(lbs[..|lbs| - 1]);
      var lb := lbs[|lbs| - 1];
      assert forall x :: x in lbs[..|lbs| - 1] ==> x in lbs;
      match JsonLd.Field(lb, "name")
      case Some(JStr(n)) => pre + [n]
      case _ => pre
  }

  /** The formatted address of an item, when its `address` is an object with at least
      one of the five fields. */
  function AddressOf(lb: Json): (r: Option<string>)
    ensures r.Some? ==> r.value != ""
  {
    match JsonLd.Field(lb, "address")
    case Some(a) =>
      if JsonLd.IsObject(a) && JsonLd.FormattedAddress(a) != "" then Some(JsonLd.FormattedAddress(a)) else None
    case None => None
  }

  function BusinessAddresses(lbs: seq<Json>): (r: seq<string>)
    ensures |r| <= |lbs|
    ensures forall a :: a in r ==> a != ""
  {
    if |lbs| == 0 then []
    else
      var pre := BusinessAddresses(lbs[..|lbs| - 1]);
      var a := AddressOf(lbs[|lbs| - 1]);
      if a.Some? then pre + [a.value] else pre
  }

  /** `JSON.parse` of each of the first five scripts. */
  function ParsedScripts(parseJson: JsonParser, scripts: seq<string>): (r: seq<Option<Json>>)
    ensures |r| == |Take(scripts, 5)|
  {
    var s := Take(scripts, 5);
    seq(|s|, i requires 0 <= i < |s| => parseJson(s[i]))
  }

  /** `extractFromHtml(html)`, or `None` where it throws: a `null` JSON-LD item makes
      its `item['@type']` raise a TypeError. */
  function ExtractOf(parseJson: JsonParser, page: Page): Option<Extracted>
  {
    match JsonLd.SelectBusinesses(JsonLd.Spread(ParsedScripts(parseJson, page.jsonLdScripts)))
    case None => None
    case Some(lbs) => Some(FromBusinesses(lbs, page))
  }

  /** The values read once the business items `lbs` are known. */
  function FromBusinesses(lbs: seq<Json>, page: Page): Extracted
  {
    var title := TitleName(page.title);
    var names := BusinessNames(lbs) + (if title.Some? then [title.value] else []);
    Extracted(FirstFive(names), FirstFive(BusinessAddresses(lbs)), FirstFive(page.telLinks + page.auPhones))
  }

  /** What a page yields: at most five distinct values of each kind, drawn from the
      business items, the title, the `tel:` links and the text; `tel:` links come first;
      and the extraction fails exactly when a parsed JSON-LD block holds a `null`. */
  lemma ExtractSpec(parseJson: JsonParser, page: Page)
    ensures var items := JsonLd.Spread(ParsedScripts(parseJson, page.jsonLdScripts));
      ExtractOf(parseJson, page).None? <==> JNull in items
    ensures var r := ExtractOf(parseJson, page);
      r.Some? ==>
        && |r.value.names| <= 5 && |r.value.addresses| <= 5 && |r.value.phones| <= 5
        && Distinct(r.value.names) && Distinct(r.value.addresses) && Distinct(r.value.phones)
        && (forall a :: a in r.value.addresses ==> a != "")
        && (forall p :: p in r.value.phones ==> p in page.telLinks || p in page.auPhones)
        && (|page.telLinks| > 0 ==> r.value.phones[0] == page.telLinks[0])
        && (TitleName(page.title).Some? ==> |r.value.names| > 0)
  {
    var items := JsonLd.Spread(ParsedScripts(parseJson, page.jsonLdScripts));
    JsonLd.SelectBusinessesIsFilter(items);
    var r := ExtractOf(parseJson, page);
    if r.Some? {
      assert |page.telLinks| > 0 ==> (page.telLinks + page.auPhones)[0] == page.telLinks[0];
    }
  }

  /** The name loop and the address loop over the business items. */
  method CollectNamesAndAddresses(lbs: seq<Json>) returns (names: seq<string>, addresses: seq<string>)
    ensures names == BusinessNames(lbs) && addresses == BusinessAddresses(lbs)
  {
    addresses := [];
    for i := 0 to |lbs|
      invariant addresses == BusinessAddresses(lbs[..i])
    {
      assert lbs[..i + 1][..i] == lbs[..i];
      var addr := JsonLd.Field(lbs[i], "address");
      if addr.Some? && JsonLd.IsObject(addr.value) {
        var formatted := JsonLd.FormattedAddress(addr.value);
        if formatted != "" {
          addresses := addresses + [formatted];
        }
      }
    }
    names := [];
    for i := 0 to |lbs|
      invariant names == BusinessNames(lbs[..i])
    {
      assert lbs[..i + 1][..i] == lbs[..i];
      var n := JsonLd.Field(lbs[i], "name");
      if n.Some? && n.value.JStr? {
        names := names + [n.value.s];
      }
    }
    assert lbs[..|lbs|] == lbs;
  }

  /** `extractFromHtml`: parse the first five scripts, spread them, pick the business
      items, then collect names, addresses and phones. */
  method ExtractFromHtml(parseJson: JsonParser, page: Page) returns (r: Option<Extracted>)
    ensures r == ExtractOf(parseJson, page)
  {
    var jsonLd := JsonLd.SpreadParsed(ParsedScripts(parseJson, page.jsonLdScripts));
    var localBusiness := JsonLd.SelectBusinessItems(jsonLd);
    if localBusiness.None? {
      return None;
    }
    var lbs := localBusiness.value;
    var phones := page.telLinks + page.auPhones;
    var names, addresses := CollectNamesAndAddresses(lbs);
    var nameFromTitle := TitleName(page.title);
    if nameFromTitle.Some? {
      names := names + [nameFromTitle.value];
    }
    assert names == BusinessNames(lbs) + (if nameFromTitle.Some? then [nameFromTitle.value] else []);
    r := Some(Extracted(FirstFive(names), FirstFive(addresses), FirstFive(phones)));
  }

  /** A `data-utime` value in milliseconds: numbers above 10^12 already are, smaller
      ones are seconds. */
  function UtimeMillis(n: nat): nat
  {
    if n > 1_000_000_000_000 then n else n * 1000
  }

  function UtimesMillis(us: seq<nat>): (r: seq<int>)
    ensures |r| == |us|
    ensures forall i :: 0 <= i < |us| ==> r[i] == UtimeMillis(us[i])
  {
    seq(|us|, i requires 0 <= i < |us| => UtimeMillis(us[i]) as int)
  }

  /** `Math.max(...xs)`, or `None` for no candidates. */
  function MaxOf(xs: seq<int>): (r: Option<int>)
    ensures r.None? <==> |xs| == 0
    ensures r.Some? ==> r.value in xs && forall x :: x in xs ==> x <= r.value
  {
    if |xs| == 0 then None
    else
      var m := MaxOf(xs[..|xs| - 1]);
      var x := xs[|xs| - 1];
      assert xs == xs[..|xs| - 1] + [x];
      if m.None? || x > m.value then Some(x) else m
  }

  /** `extractLastPostAt(html)`: the latest of the candidate times, in milliseconds. */
  function LastPostAt(page: Page): Option<int>
  {
    MaxOf(page.postTimes + UtimesMillis(page.utimes))
  }

  // ---------------------------------------------------------------------------
  // Observations

  /** What fetching a target gave: a thrown error (abort, network), a response that is
      not `ok`, or the page. */
  datatype Fetch = Unreachable(message: string) | HttpError(status: int) | Fetched(page: Page)

  /** A scored page, or the error that stopped it; a failure's flags are all false. */
  datatype Outcome = Matched(mismatch: NapMatch.Mismatch, flags: NapMatch.Flags) | Failed(error: string)

  /** One entry of `observations`; a missing name, address or phone is "". */
  datatype Observation = Observation(url: string, sourceType: Queries.SourceType, nap: NapMatch.Nap,
                                     score: int, outcome: Outcome, lastPostAt: Option<int>)

  /** One `nap_observations` row (the audit and business ids are the same on every row). */
  datatype Row = Row(url: string, sourceType: Queries.SourceType, nap: NapMatch.Nap, score: int, outcome: Outcome)

  /** `e?.message || 'fetch_failed'` */
  function ErrorText(message: string): string
  {
    if message == "" then "fetch_failed" else message
  }

  /** `xs[0] || null` */
  function FirstOrEmpty(xs: seq<string>): string
  {
    if |xs| == 0 then "" else xs[0]
  }

  function FailedObservation(u: string, t: Queries.SourceType, message: string): Observation
  {
    Observation(u, t, NapMatch.Nap("", "", ""), 0, Failed(ErrorText(message)), None)
  }

  /** The observation the loop records for target `u`, scored against `golden`. */
  function ObservationOf(known: Queries.KnownHosts, parse: UrlParser, parseJson: JsonParser,
                         golden: NapMatch.Nap, u: string, fetch: Fetch): Observation
  {
    var t := TypeOf(known, parse, u);
    match fetch
    case Unreachable(message) => FailedObservation(u, t, message)
    case HttpError(status) => FailedObservation(u, t, "HTTP " + IntToString(status))
    case Fetched(page) =>
      match ExtractOf(parseJson, page)
      case None => FailedObservation(u, t, JsonLd.NullItemError)
      case Some(ext) =>
        var obs := NapMatch.Nap(FirstOrEmpty(ext.names), FirstOrEmpty(ext.addresses), FirstOrEmpty(ext.phones));
        var m := NapMatch.MatchOf(golden, obs);
        Observation(u, t, obs, m.score, Matched(m.mismatch, m.flags),
                    if t == Queries.SocialSource then LastPostAt(page) else None)
  }

  /** Every observation is of its URL with the URL's type; a failure scores 0 with no
      values; a scored page scores the points of its flags, within [0, 100]; only social
      pages carry a post time. */
  lemma ObservationSpec(known: Queries.KnownHosts, parse: UrlParser, parseJson: JsonParser,
                        golden: NapMatch.Nap, u: string, fetch: Fetch)
    ensures var o := ObservationOf(known, parse, parseJson, golden, u, fetch);
      && o.url == u && o.sourceType == TypeOf(known, parse, u)
      && (o.outcome.Failed? ==> o.score == 0 && o.nap == NapMatch.Nap("", "", "") && o.lastPostAt.None? && o.outcome.error != "")
      && (o.outcome.Matched? ==> o.score == NapMatch.Points(o.outcome.flags) && 0 <= o.score <= 100)
      && (o.lastPostAt.Some? ==> o.sourceType == Queries.SocialSource)
      && (fetch.Fetched? ==> (o.outcome.Failed? <==> ExtractOf(parseJson, fetch.page).None?))
      && (!fetch.Fetched? ==> o.outcome.Failed?)
  {
    var o := ObservationOf(known, parse, parseJson, golden, u, fetch);
    if o.outcome.Matched? {
      NapMatch.PointsRange(o.outcome.flags);
    }
  }

  function RowOf(o: Observation): Row
  {
    Row(o.url, o.sourceType, o.nap, o.score, o.outcome)
  }

  function Rows(obs: seq<Observation>): (r: seq<Row>)
    ensures |r| == |obs|
    ensures forall i :: 0 <= i < |obs| ==> r[i] == RowOf(obs[i])
  {
    seq(|obs|, i requires 0 <= i < |obs| => RowOf(obs[i]))
  }

  lemma RowsSnoc(obs: seq<Observation>, o: Observation)
    ensures Rows(obs + [o]) == Rows(obs) + [RowOf(o)]
  {
  }

  // ---------------------------------------------------------------------------
  // socialsLast

  /** The platform whose latest post an observation reports, if any. */
  function PostKey(parse: UrlParser, o: Observation): Option<string>
  {
    if o.sourceType == Queries.SocialSource && o.lastPostAt.Some? && parse(o.url).Some? then
      Socials.SocialKeyOf(StripWww(parse(o.url).value.hostname))
    else None
  }

  /** `if (!prev || lastPostAt > prev) socialsLast[key] = lastPostAt` */
  function Record(last: map<string, int>, parse: UrlParser, o: Observation): map<string, int>
  {
    match PostKey(parse, o)
    case None => last
    case Some(k) => if k !in last || o.lastPostAt.value > last[k] then last[k := o.lastPostAt.value] else last
  }

  /** `socialsLast` after the observations `obs`. */
  function LatestPosts(parse: UrlParser, obs: seq<Observation>): map<string, int>
  {
    if |obs| == 0 then map[]
    else Record(LatestPosts(parse, obs[..|obs| - 1]), parse, obs[|obs| - 1])
  }

  /** There are entries for exactly the platforms observed with a post time. */
  lemma {:induction false} LatestPostsKeys(parse: UrlParser, obs: seq<Observation>)
    ensures forall k :: k in LatestPosts(parse, obs) <==> exists i :: 0 <= i < |obs| && PostKey(parse, obs[i]) == Some(k)
  {
    if |obs| > 0 {
      var pre := obs[..|obs| - 1];
      LatestPostsKeys(parse, pre);
      assert forall i :: 0 <= i < |pre| ==> obs[i] == pre[i];
    }
  }

  /** Each platform's entry is at least every post time observed for it. */
  lemma {:induction false} LatestPostsBound(parse: UrlParser, obs: seq<Observation>, i: nat)
    requires i < |obs| && PostKey(parse, obs[i]).Some?
    ensures PostKey(parse, obs[i]).value in LatestPosts(parse, obs)
    ensures obs[i].lastPostAt.value <= LatestPosts(parse, obs)[PostKey(parse, obs[i]).value]
  {
    var pre := obs[..|obs| - 1];
    if i < |pre| {
      assert obs[i] == pre[i];
      LatestPostsBound(parse, pre, i);
    }
  }

  /** Each platform's entry is one of the post times observed for it. */
  lemma {:induction false} LatestPostsAttained(parse: UrlParser, obs: seq<Observation>, k: string)
    requires k in LatestPosts(parse, obs)
    ensures exists i :: 0 <= i < |obs| && PostKey(parse, obs[i]) == Some(k)
                        && obs[i].lastPostAt.value == LatestPosts(parse, obs)[k]
  {
    var pre := obs[..|obs| - 1];
    var o := obs[|obs| - 1];
    if k in LatestPosts(parse, pre) && LatestPosts(parse, obs)[k] == LatestPosts(parse, pre)[k] {
      LatestPostsAttained(parse, pre, k);
      var i :| 0 <= i < |pre| && PostKey(parse, pre[i]) == Some(k) && pre[i].lastPostAt.value == LatestPosts(parse, pre)[k];
      assert obs[i] == pre[i];
    } else {
      assert PostKey(parse, o) == Some(k);
    }
  }

  lemma LatestPostsSnoc(parse: UrlParser, obs: seq<Observation>, o: Observation)
    ensures LatestPosts(parse, obs + [o]) == Record(LatestPosts(parse, obs), parse, o)
  {
    assert (obs + [o])[..|obs|] == obs;
  }

  // ---------------------------------------------------------------------------
  // The scrape loop

  /** The state the handler's loop builds up: the observations, the rows waiting in the
      insert buffer, the rows already inserted, and `socialsLast`. */
  class ScrapeRun {
    var observations: seq<Observation>
    var buffer: seq<Row>
    var inserted: seq<Row>
    var socialsLast: map<string, int>

    /** Every observation has its row, inserted or buffered, in order, and the buffer is
        flushed once it holds eight rows. */
    ghost predicate Valid()
      reads this
    {
      |buffer| < 8 && inserted + buffer == Rows(observations)
    }

    constructor ()
      ensures observations == [] && buffer == [] && inserted == [] && socialsLast == map[]
      ensures Valid()
    {
      observations := [];
      buffer := [];
      inserted := [];
      socialsLast := map[];
    }

    /** `flushBuffer()`: the buffered rows are inserted as one batch. */
    method FlushBuffer()
      modifies this
      ensures inserted == old(inserted) + old(buffer) && buffer == []
      ensures observations == old(observations) && socialsLast == old(socialsLast)
    {
      if |buffer| == 0 {
        return;
      }
      var batch := buffer;
      buffer := [];
      inserted := inserted + batch;
    }

    /** The rest of one iteration once its observation `o` is known: note a social
        page's latest post, push the observation and its row, flush at eight rows. */
    method Push(parse: UrlParser, o: Observation)
      requires Valid()
      modifies this
      ensures Valid()
      ensures observations == old(observations) + [o]
      ensures socialsLast == Record(old(socialsLast), parse, o)
      ensures |old(buffer)| == 7 ==> buffer == [] && inserted == old(inserted) + old(buffer) + [RowOf(o)]
      ensures |old(buffer)| < 7 ==> inserted == old(inserted) && buffer == old(buffer) + [RowOf(o)]
    {
      var key := PostKey(parse, o);
      if key.Some? {
        var prev := if key.value in socialsLast then Some(socialsLast[key.value]) else None;
        if prev.None? || o.lastPostAt.value > prev.value {
          socialsLast := socialsLast[key.value := o.lastPostAt.value];
        }
      }
      RowsSnoc(observations, o);
      observations := observations + [o];
      buffer := buffer + [RowOf(o)];
      if |buffer| >= 8 {
        FlushBuffer();
      }
    }
  }

  /** The body of the per-URL `try`/`catch`, computing the observation. */
  method Observe(known: Queries.KnownHosts, parse: UrlParser, parseJson: JsonParser,
                 golden: NapMatch.Nap, u: string, fetch: Fetch) returns (o: Observation)
    ensures o == ObservationOf(known, parse, parseJson, golden, u, fetch)
  {
    var host := HostOf(parse, u);
    var t := if host.Some? && host.value != "" then ClassifyHost(known, host.value) else Queries.WebSource;
    match fetch {
      case Unreachable(message) =>
        o := FailedObservation(u, t, message);
      case HttpError(status) =>
        o := FailedObservation(u, t, "HTTP " + IntToString(status));
      case Fetched(page) =>
        var ext := ExtractFromHtml(parseJson, page);
        if ext.None? {
          o := FailedObservation(u, t, JsonLd.NullItemError);
        } else {
          var obs := NapMatch.Nap(FirstOrEmpty(ext.value.names), FirstOrEmpty(ext.value.addresses),
                                  FirstOrEmpty(ext.value.phones));
          var m := NapMatch.ScoreMatch(golden, obs);
          var lastPostAt := None;
          if t == Queries.SocialSource {
            lastPostAt := LastPostAt(page);
          }
          o := Observation(u, t, obs, m.score, Matched(m.mismatch, m.flags), lastPostAt);
        }
    }
  }

  /** The observations for the targets, one per target, in order. */
  function ObservationsOf(known: Queries.KnownHosts, parse: UrlParser, parseJson: JsonParser,
                          golden: NapMatch.Nap, targets: seq<string>, fetches: seq<Fetch>): (r: seq<Observation>)
    requires |fetches| == |targets|
    ensures |r| == |targets|
    ensures forall i :: 0 <= i < |targets| ==> r[i].url == targets[i]
  {
    seq(|targets|, i requires 0 <= i < |targets| => ObservationOf(known, parse, parseJson, golden, targets[i], fetches[i]))
  }

  lemma ObservationsOfSnoc(known: Queries.KnownHosts, parse: UrlParser, parseJson: JsonParser,
                           golden: NapMatch.Nap, targets: seq<string>, fetches: seq<Fetch>, i: nat)
    requires |fetches| == |targets| && i < |targets|
    ensures ObservationsOf(known, parse, parseJson, golden, targets[..i + 1], fetches[..i + 1]) ==
      ObservationsOf(known, parse, parseJson, golden, targets[..i], fetches[..i]) +
      [ObservationOf(known, parse, parseJson, golden, targets[i], fetches[i])]
  {
    var long := ObservationsOf(known, parse, parseJson, golden, targets[..i + 1], fetches[..i + 1]);
    var short := ObservationsOf(known, parse, parseJson, golden, targets[..i], fetches[..i]);
    var last := ObservationOf(known, parse, parseJson, golden, targets[i], fetches[i]);
    assert |long| == |short + [last]|;
    forall j | 0 <= j < |long|
      ensures long[j] == (short + [last])[j]
    {
      if j < i {
        assert targets[..i + 1][j] == targets[..i][j] && fetches[..i + 1][j] == fetches[..i][j];
      }
    }
  }

  /** The handler's loop over the targets followed by the final flush: one observation
      per target, every row inserted, and `socialsLast` holding each platform's latest
      post. `fetches[i]` is what fetching `targets[i]` gave. */
  method ScrapeAll(known: Queries.KnownHosts, parse: UrlParser, parseJson: JsonParser,
                   golden: NapMatch.Nap, targets: seq<string>, fetches: seq<Fetch>) returns (run: ScrapeRun)
    requires |fetches| == |targets|
    ensures fresh(run)
    ensures run.observations == ObservationsOf(known, parse, parseJson, golden, targets, fetches)
    ensures run.buffer == [] && run.inserted == Rows(run.observations)
    ensures run.socialsLast == LatestPosts(parse, run.observations)
  {
    run := new ScrapeRun();
    for i := 0 to |targets|
      invariant run.Valid()
      invariant run.observations == ObservationsOf(known, parse, parseJson, golden, targets[..i], fetches[..i])
      invariant run.socialsLast == LatestPosts(parse, run.observations)
    {
      ScrapeOne(known, parse, parseJson, golden, targets, fetches, i, run);
    }
    assert targets[..|targets|] == targets && fetches[..|fetches|] == fetches;
    run.FlushBuffer();
  }

  /** One iteration of that loop: observe `targets[i]` and push the observation. */
  method ScrapeOne(known: Queries.KnownHosts, parse: UrlParser, parseJson: JsonParser,
                   golden: NapMatch.Nap, targets: seq<string>, fetches: seq<Fetch>, i: nat, run: ScrapeRun)
    requires |fetches| == |targets| && i < |targets| && run.Valid()
    requires run.observations == ObservationsOf(known, parse, parseJson, golden, targets[..i], fetches[..i])
    requires run.socialsLast == LatestPosts(parse, run.observations)
    modifies run
    ensures run.Valid()
    ensures run.observations == ObservationsOf(known, parse, parseJson, golden, targets[..i + 1], fetches[..i + 1])
    ensures run.socialsLast == LatestPosts(parse, run.observations)
  {
    ObservationsOfSnoc(known, parse, parseJson, golden, targets, fetches, i);
    var o := Observe(known, parse, parseJson, golden, targets[i], fetches[i]);
    LatestPostsSnoc(parse, run.observations, o);
    run.Push(parse, o);
  }

  // ---------------------------------------------------------------------------
  // Listing opportunities

  /** A `listing_opportunities` row for the audit (its suggested URL is null and its
      reason "not found or weak match" on every row). */
  datatype Opportunity = Opportunity(directory: string, priority: int)

  /** The registry entry an observation's host belongs to. */
  function DirectoryOf(parse: UrlParser, o: Observation): Option<Directories.DirectoryDef>
  {
    match HostOf(parse, o.url)
    case None => None
    case Some(h) => if h == "" then None else Directories.FindDirectoryByHost(h)
  }

  /** `strongByDirKey`: the directories some observation matched with a score of 85 or more. */
  function StrongKeys(parse: UrlParser, obs: seq<Observation>): set<string>
  {
    set o | o in obs && DirectoryOf(parse, o).Some? && o.score >= 85 :: DirectoryOf(parse, o).value.key
  }

  lemma StrongKeysSnoc(parse: UrlParser, obs: seq<Observation>, o: Observation)
    ensures StrongKeys(parse, obs + [o]) == StrongKeys(parse, obs) +
      (if DirectoryOf(parse, o).Some? && o.score >= 85 then {DirectoryOf(parse, o).value.key} else {})
  {
  }

  /** The loop that collects `strongByDirKey`. */
  method StrongDirectoryKeys(parse: UrlParser, obs: seq<Observation>) returns (strong: set<string>)
    ensures strong == StrongKeys(parse, obs)
  {
    strong := {};
    for i := 0 to |obs|
      invariant strong == StrongKeys(parse, obs[..i])
    {
      StrongKeysSnoc(parse, obs[..i], obs[i]);
      assert obs[..i + 1] == obs[..i] + [obs[i]];
      var h := HostOf(parse, obs[i].url);
      if h.None? || h.value == "" {
        continue;
      }
      var d := Directories.FindDirectoryByHost(h.value);
      if d.None? {
        continue;
      }
      if obs[i].score >= 85 {
        strong := strong + {d.value.key};
      }
    }
    assert obs[..|obs|] == obs;
  }

  /** `Math.max(1, 11 - (d.weight || 3))` */
  function Priority(d: Directories.DirectoryDef): int
  {
    Max(1, 11 - Directories.WeightOrDefault(d))
  }

  /** An entry gets an opportunity when it is a listing (not social, not maps) with no
      strong match. */
  predicate Wanted(strong: set<string>, d: Directories.DirectoryDef)
  {
    !Directories.IsSocial(d.category) && !Directories.IsMaps(d.category) && d.key !in strong
  }

  function OpportunitiesFrom(table: seq<Directories.DirectoryDef>, strong: set<string>): (r: seq<Opportunity>)
    ensures |r| <= |table|
  {
    if |table| == 0 then []
    else
      var pre := OpportunitiesFrom(table[..|table| - 1], strong);
      var d := table[|table| - 1];
      if Wanted(strong, d) then pre + [Opportunity(d.key, Priority(d))] else pre
  }

  /** One opportunity per wanted entry, with that entry's priority, and no other. */
  lemma {:induction false} OpportunitiesSpec(table: seq<Directories.DirectoryDef>, strong: set<string>)
    ensures forall op :: op in OpportunitiesFrom(table, strong) ==>
      exists i :: 0 <= i < |table| && Wanted(strong, table[i]) && op == Opportunity(table[i].key, Priority(table[i]))
    ensures forall i :: 0 <= i < |table| && Wanted(strong, table[i]) ==>
      Opportunity(table[i].key, Priority(table[i])) in OpportunitiesFrom(table, strong)
  {
    if |table| > 0 {
      var pre := table[..|table| - 1];
      OpportunitiesSpec(pre, strong);
      assert forall i :: 0 <= i < |pre| ==> table[i] == pre[i];
    }
  }

  /** With pairwise distinct keys, no directory gets two opportunities. */
  lemma {:induction false} OpportunitiesDistinct(table: seq<Directories.DirectoryDef>, strong: set<string>)
    requires forall i, j :: 0 <= i < j < |table| ==> table[i].key != table[j].key
    ensures var ops := OpportunitiesFrom(table, strong);
      forall i, j :: 0 <= i < j < |ops| ==> ops[i].directory != ops[j].directory
  {
    if |table| > 0 {
      var pre := table[..|table| - 1];
      var d := table[|table| - 1];
      assert forall i, j :: 0 <= i < j < |pre| ==> pre[i].key != pre[j].key;
      OpportunitiesDistinct(pre, strong);
      assert forall a, b :: 0 <= a < b < |OpportunitiesFrom(pre, strong)| ==>
        OpportunitiesFrom(pre, strong)[a].directory != OpportunitiesFrom(pre, strong)[b].directory;
      OpportunitiesSpec(pre, strong);
      var p := OpportunitiesFrom(pre, strong);
      var ops := OpportunitiesFrom(table, strong);
      if Wanted(strong, d) {
        assert ops == p + [Opportunity(d.key, Priority(d))];
        forall i, j | 0 <= i < j < |ops|
          ensures ops[i].directory != ops[j].directory
        {
          if j == |p| {
            assert ops[i] == p[i] && p[i] in p;
            var k :| 0 <= k < |pre| && Wanted(strong, pre[k]) && p[i] == Opportunity(pre[k].key, Priority(pre[k]));
            assert table[k] == pre[k] && ops[j] == Opportunity(d.key, Priority(d));
            assert table[k].key != table[|table| - 1].key;
          } else {
            assert ops[i] == p[i] && ops[j] == p[j];
          }
        }
      }
    }
  }

  /** On the registry: every directory, review and leads entry without a strong match
      gets exactly one opportunity, and every priority lies between 1 and 10. */
  lemma RegistryOpportunities(strong: set<string>)
    ensures var ops := OpportunitiesFrom(Directories.AuDirectories, strong);
      && (forall i, j :: 0 <= i < j < |ops| ==> ops[i].directory != ops[j].directory)
      && (forall op :: op in ops ==> 1 <= op.priority <= 10)
      && (forall i :: 0 <= i < |Directories.AuDirectories| ==>
            (Opportunity(Directories.AuDirectories[i].key, Priority(Directories.AuDirectories[i])) in ops <==>
               3 <= i < 20 && Directories.AuDirectories[i].key !in strong))
  {
    var t := Directories.AuDirectories;
    Directories.KeysDistinct();
    Directories.WeightsInRange();
    Directories.ListingLayout();
    OpportunitiesDistinct(t, strong);
    OpportunitiesSpec(t, strong);
    var ops := OpportunitiesFrom(t, strong);
    forall i | 0 <= i < |t|
      ensures Opportunity(t[i].key, Priority(t[i])) in ops <==> 3 <= i < 20 && t[i].key !in strong
    {
      if Opportunity(t[i].key, Priority(t[i])) in ops {
        var k :| 0 <= k < |t| && Wanted(strong, t[k]) && Opportunity(t[i].key, Priority(t[i])) == Opportunity(t[k].key, Priority(t[k]));
        assert k == i;
      }
    }
  }

  /** The loop over the registry that builds `opsToInsert`. */
  method ListingOpportunities(parse: UrlParser, obs: seq<Observation>) returns (ops: seq<Opportunity>)
    ensures ops == OpportunitiesFrom(Directories.AuDirectories, StrongKeys(parse, obs))
  {
    var strong := StrongDirectoryKeys(parse, obs);
    ops := OpportunitiesOf(Directories.AuDirectories, strong);
  }

  /** The loop itself, over any registry table. */
  method OpportunitiesOf(t: seq<Directories.DirectoryDef>, strong: set<string>) returns (ops: seq<Opportunity>)
    ensures ops == OpportunitiesFrom(t, strong)
  {
    ops := [];
    for i := 0 to |t|
      invariant ops == OpportunitiesFrom(t[..i], strong)
    {
      assert t[..i + 1][..i] == t[..i];
      var d := t[i];
      if d.category == Directories.Social || d.category == Directories.Maps {
        continue;
      }
      if d.key in strong {
        continue;
      }
      ops := ops + [Opportunity(d.key, Priority(d))];
    }
    assert t[..|t|] == t;
  }

  /** The directories of some opportunities. */
  ghost function DirectoriesOf(ops: seq<Opportunity>): set<string>
  {
    set op | op in ops :: op.directory
  }

  lemma DirectoriesOfSnoc(ops: seq<Opportunity>, op: Opportunity)
    ensures DirectoriesOf(ops + [op]) == DirectoriesOf(ops) + {op.directory}
  {
    assert forall q :: q in ops + [op] <==> q in ops || q == op;
  }

  /** The de-duplicating insert loop: an opportunity is inserted unless the audit
      already has one for its directory (`existing`, growing as rows are inserted). */
  method InsertOpportunities(ops: seq<Opportunity>, existing: set<string>) returns (inserted: seq<Opportunity>)
    ensures forall op :: op in inserted ==> op in ops && op.directory !in existing
    ensures forall op :: op in ops && op.directory !in existing ==> exists q :: q in inserted && q.directory == op.directory
    ensures forall i, j :: 0 <= i < j < |inserted| ==> inserted[i].directory != inserted[j].directory
  {
    var table := existing;
    inserted := [];
    for i := 0 to |ops|
      invariant forall op :: op in inserted ==> op in ops[..i] && op.directory !in existing
      invariant forall op :: op in ops[..i] && op.directory !in existing ==> op.directory in DirectoriesOf(inserted)
      invariant forall i, j :: 0 <= i < j < |inserted| ==> inserted[i].directory != inserted[j].directory
      invariant table == existing + DirectoriesOf(inserted)
    {
      assert ops[..i + 1] == ops[..i] + [ops[i]];
      var op := ops[i];
      if op.directory !in table {
        DirectoriesOfSnoc(inserted, op);
        inserted := inserted + [op];
        table := table + {op.directory};
      }
    }
    assert ops[..|ops|] == ops;
  }
}
