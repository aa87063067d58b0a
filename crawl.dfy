/** The website crawl of src/app/api/audit/website/crawl/route.ts: from the regular
    expression matches on one fetched page it builds a snapshot (capped meta tags,
    phone candidates, JSON-LD blocks, social links sorted by platform, name and address
    hints) and merges the social links into the stored business profile. The regular
    expression scans are not modelled: a page is the list of what each one matched. */
module Crawl {
  import opened Strings
  import opened Web
  import JsonLd
  import Socials

  // ---------------------------------------------------------------------------
  // uniq and take

  /** `uniq(arr)` on strings: the non-empty ones, first occurrences only. */
  function Uniq(xs: seq<string>): (r: seq<string>)
    ensures Distinct(r) && |r| <= |xs|
    ensures forall x :: x in r <==> x in xs && x != ""
  {
    Dedup(Filter(xs, (x: string) => x != ""))
  }

  /** `uniq(arr)` on JSON values: the truthy ones, first occurrences only. */
  function UniqJson(xs: seq<Json>): (r: seq<Json>)
    ensures Distinct(r) && |r| <= |xs|
    ensures forall x :: x in r <==> x in xs && !Falsy(x)
  {
    Dedup(Filter(xs, (x: Json) => !Falsy(x)))
  }

  /** The position of the first occurrence of `x`. */
  function IndexOf<T(==)>(xs: seq<T>, x: T): (i: nat)
    requires x in xs
    ensures i < |xs| && xs[i] == x && x !in xs[..i]
  {
    if xs[0] == x then 0 else 1 + IndexOf(xs[1..], x)
  }

  lemma IndexOfPrefix<T>(xs: seq<T>, n: nat, x: T)
    requires n <= |xs| && x in xs[..n]
    ensures IndexOf(xs, x) == IndexOf(xs[..n], x)
  {
    var i := IndexOf(xs[..n], x);
    var k := IndexOf(xs, x);
    assert xs[..n][..i] == xs[..i];
  }

  /** `new Set(xs)` keeps the order in which values first occur. */
  lemma {:induction false} DedupKeepsFirstOrder<T(!new)>(xs: seq<T>)
    ensures forall i, j :: 0 <= i < j < |Dedup(xs)| ==> IndexOf(xs, Dedup(xs)[i]) < IndexOf(xs, Dedup(xs)[j])
  {
    if |xs| > 0 {
      var pre := xs[..|xs| - 1];
      var x := xs[|xs| - 1];
      DedupKeepsFirstOrder(pre);
      var r0 := Dedup(pre);
      var r := Dedup(xs);
      assert xs[..|xs| - 1] == pre;
      forall i | 0 <= i < |r0|
        ensures r0[i] in xs && IndexOf(xs, r0[i]) == IndexOf(pre, r0[i])
      {
        assert r0[i] in pre;
        IndexOfPrefix(xs, |xs| - 1, r0[i]);
      }
      if x !in r0 {
        assert x !in pre;
        assert IndexOf(xs, x) == |xs| - 1;
        forall i, j | 0 <= i < j < |r|
          ensures IndexOf(xs, r[i]) < IndexOf(xs, r[j])
        {
          if j < |r0| {
            assert r[i] == r0[i] && r[j] == r0[j];
          } else {
            assert r[i] == r0[i];
          }
        }
      }
    }
  }

  /** `uniq` keeps the non-empty values in the order they first occur. */
  lemma UniqKeepsFirstOrder(xs: seq<string>)
    ensures var f := Filter(xs, (x: string) => x != "");
      forall i, j :: 0 <= i < j < |Uniq(xs)| ==> IndexOf(f, Uniq(xs)[i]) < IndexOf(f, Uniq(xs)[j])
  {
    DedupKeepsFirstOrder(Filter(xs, (x: string) => x != ""));
  }

  // ---------------------------------------------------------------------------
  // tryParseJson

  /** `-->` starts at `q`. */
  predicate CloseAt(s: string, q: nat)
  {
    q + 3 <= |s| && s[q..q + 3] == "-->"
  }

  /** The first `-->` at or after `p`. */
  function CloseFrom(s: string, p: nat): (r: Option<nat>)
    requires p <= |s|
    ensures r.Some? ==> p <= r.value && CloseAt(s, r.value)
    ensures r.Some? ==> forall q :: p <= q < r.value ==> !CloseAt(s, q)
    ensures r.None? ==> forall q :: p <= q ==> !CloseAt(s, q)
    decreases |s| - p
  {
    if p + 3 > |s| then None
    else if CloseAt(s, p) then Some(p)
    else CloseFrom(s, p + 1)
  }

  /** `s.replace(/<!--([\s\S]*?)-->/g, '')`: every `<!--` that has a later `-->` is
      removed together with everything up to the first such `-->`. */
  function StripComments(s: string): (r: string)
    ensures |r| <= |s|
    decreases |s|
  {
    if |s| == 0 then ""
    else if StartsWith(s, "<!--") && CloseFrom(s, 4).Some? then StripComments(s[CloseFrom(s, 4).value + 3..])
    else [s[0]] + StripComments(s[1..])
  }

  /** A text without `<!--` is left as it is. */
  lemma {:induction false} StripCommentsNoComment(s: string)
    requires !Contains(s, "<!--")
    ensures StripComments(s) == s
  {
    if |s| > 0 {
      assert !StartsWith(s, "<!--");
      StripCommentsNoComment(s[1..]);
      assert s == [s[0]] + s[1..];
    }
  }

  /** A leading comment is removed entirely. */
  lemma StripLeadingComment(c: string, t: string)
    requires !Contains(c + "--", "-->")
    ensures StripComments("<!--" + c + "-->" + t) == StripComments(t)
  {
    var s := "<!--" + c + "-->" + t;
    var q := |c| + 4;
    assert s[..4] == "<!--";
    assert s[q..q + 3] == "-->";
    assert CloseAt(s, q);
    NoCloseInside(c, t);
    CloseFromFirst(s, 4, q);
    assert s[q + 3..] == t;
  }

  lemma NoCloseInside(c: string, t: string)
    requires !Contains(c + "--", "-->")
    ensures forall p :: 4 <= p < |c| + 4 ==> !CloseAt("<!--" + c + "-->" + t, p)
  {
    var s := "<!--" + c + "-->" + t;
    var cc := c + "--";
    forall p | 4 <= p < |c| + 4
      ensures !CloseAt(s, p)
    {
      assert cc[p - 4..p - 1] == s[p..p + 3];
      if CloseAt(s, p) {
        ContainsAt(cc, "-->", p - 4);
      }
    }
  }

  lemma {:induction false} CloseFromFirst(s: string, p: nat, q: nat)
    requires p <= q && CloseAt(s, q)
    requires forall k :: p <= k < q ==> !CloseAt(s, k)
    ensures CloseFrom(s, p) == Some(q)
    decreases q - p
  {
    if p < q {
      CloseFromFirst(s, p + 1, q);
    }
  }

  /** `tryParseJson(s)`: the parse of `s`, or else the parse of `s` with its HTML
      comments removed and trimmed. */
  function TryParseJson(parseJson: JsonParser, s: string): (r: Option<Json>)
    ensures parseJson(s).Some? ==> r == parseJson(s)
    ensures r.None? <==> parseJson(s).None? && parseJson(Trim(StripComments(s))).None?
  {
    if parseJson(s).Some? then parseJson(s) else parseJson(Trim(StripComments(s)))
  }

  /** Without comments, the retry parses the trimmed text. */
  lemma TryParseJsonNoComment(parseJson: JsonParser, s: string)
    requires !Contains(s, "<!--") && parseJson(s).None?
    ensures TryParseJson(parseJson, s) == parseJson(Trim(s))
  {
    StripCommentsNoComment(s);
  }

  // ---------------------------------------------------------------------------
  // normalizeSocials

  /** The order in which `normalizeSocials` tries the platforms: x comes before linkedin,
      unlike the social-link route. */
  const CrawlOrder: seq<string> := ["facebook", "instagram", "x", "linkedin", "youtube", "tiktok"]

  /** `!map[key]` */
  predicate Unset(m: map<string, Json>, key: string)
  {
    key !in m || Falsy(m[key])
  }

  /** Whether a host may fill the slot of `key`: it mentions the platform and the slot is
      still empty. */
  predicate Fills(h: string, m: map<string, Json>, key: string)
  {
    Socials.MentionsPlatform(h, key) && Unset(m, key)
  }

  /** The slot the URL with host `h` fills given the slots filled so far: the first
      platform in `CrawlOrder` that the host mentions and whose slot is empty; `None`
      sends the URL to `other`. */
  function Slot(h: string, m: map<string, Json>): Option<string>
  {
    if Contains(h, "facebook.com") && Unset(m, "facebook") then Some("facebook")
    else if Contains(h, "instagram.com") && Unset(m, "instagram") then Some("instagram")
    else if (Contains(h, "x.com") || Contains(h, "twitter.com")) && Unset(m, "x") then Some("x")
    else if Contains(h, "linkedin.com") && Unset(m, "linkedin") then Some("linkedin")
    else if (Contains(h, "youtube.com") || Contains(h, "youtu.be")) && Unset(m, "youtube") then Some("youtube")
    else if Contains(h, "tiktok.com") && Unset(m, "tiktok") then Some("tiktok")
    else None
  }

  /** A slot is a platform in `CrawlOrder` that the host may fill. */
  lemma SlotFills(h: string, m: map<string, Json>)
    ensures Slot(h, m).Some? ==> Slot(h, m).value in CrawlOrder && Fills(h, m, Slot(h, m).value)
  {
    Socials.MentionsByKey(h);
  }

  /** The first of `keys` from position `from` on that the host may fill. */
  function FirstFill(h: string, m: map<string, Json>, keys: seq<string>, from: nat): Option<string>
    requires from <= |keys|
    decreases |keys| - from
  {
    if from == |keys| then None
    else if Fills(h, m, keys[from]) then Some(keys[from])
    else FirstFill(h, m, keys, from + 1)
  }

  /** With distinct keys, the first fill comes before every other key the host may fill. */
  lemma {:induction false} FirstFillIsFirst(h: string, m: map<string, Json>, keys: seq<string>, from: nat)
    requires from <= |keys|
    requires forall i, j :: 0 <= i < j < |keys| ==> keys[i] != keys[j]
    ensures FirstFill(h, m, keys, from).Some? ==> forall i :: from <= i < |keys| && keys[i] == FirstFill(h, m, keys, from).value ==>
      forall j :: from <= j < i ==> !Fills(h, m, keys[j])
    decreases |keys| - from
  {
    if from < |keys| && !Fills(h, m, keys[from]) {
      FirstFillIsFirst(h, m, keys, from + 1);
    }
  }

  /** The last three tests of the if-chain. */
  lemma FirstFillFromThree(h: string, m: map<string, Json>)
    ensures FirstFill(h, m, CrawlOrder, 3) ==
      if Contains(h, "linkedin.com") && Unset(m, "linkedin") then Some("linkedin")
      else if (Contains(h, "youtube.com") || Contains(h, "youtu.be")) && Unset(m, "youtube") then Some("youtube")
      else if Contains(h, "tiktok.com") && Unset(m, "tiktok") then Some("tiktok")
      else None
  {
    Socials.MentionsByKey(h);
    assert FirstFill(h, m, CrawlOrder, 5) == if Fills(h, m, "tiktok") then Some("tiktok") else None;
  }

  /** The second and third tests of the if-chain. */
  lemma FirstFillFromOne(h: string, m: map<string, Json>)
    ensures FirstFill(h, m, CrawlOrder, 1) ==
      if Contains(h, "instagram.com") && Unset(m, "instagram") then Some("instagram")
      else if (Contains(h, "x.com") || Contains(h, "twitter.com")) && Unset(m, "x") then Some("x")
      else FirstFill(h, m, CrawlOrder, 3)
  {
    Socials.MentionsByKey(h);
    assert FirstFill(h, m, CrawlOrder, 2) == if Fills(h, m, "x") then Some("x") else FirstFill(h, m, CrawlOrder, 3);
  }

  /** The if-chain of `normalizeSocials` tries the platforms in `CrawlOrder`. */
  lemma SlotIsFirstFill(h: string, m: map<string, Json>)
    ensures Slot(h, m) == FirstFill(h, m, CrawlOrder, 0)
  {
    Socials.MentionsByKey(h);
    FirstFillFromThree(h, m);
    FirstFillFromOne(h, m);
  }

  /** The slot is the first platform in `CrawlOrder` that the host may fill. */
  lemma SlotFirst(h: string, m: map<string, Json>)
    ensures Slot(h, m).Some? ==> forall i :: 0 <= i < |CrawlOrder| && CrawlOrder[i] == Slot(h, m).value ==>
      forall j :: 0 <= j < i ==> !Fills(h, m, CrawlOrder[j])
  {
    CrawlOrderDistinct();
    SlotIsFirstFill(h, m);
    FirstFillIsFirst(h, m, CrawlOrder, 0);
  }

  /** There is no slot exactly when the host may fill no platform. */
  lemma SlotNone(h: string, m: map<string, Json>)
    ensures Slot(h, m).None? <==> forall k :: k in CrawlOrder ==> !Fills(h, m, k)
  {
    SlotIsFirstFill(h, m);
    FirstFillNone(h, m, CrawlOrder, 0);
  }

  /** No key from `from` on fits exactly when there is no first fill. */
  lemma {:induction false} FirstFillNone(h: string, m: map<string, Json>, keys: seq<string>, from: nat)
    requires from <= |keys|
    ensures FirstFill(h, m, keys, from).None? <==> forall j :: from <= j < |keys| ==> !Fills(h, m, keys[j])
    decreases |keys| - from
  {
    if from < |keys| {
      FirstFillNone(h, m, keys, from + 1);
    }
  }

  /** The platform keys are pairwise different. */
  lemma CrawlOrderDistinct()
    ensures forall i, j :: 0 <= i < j < |CrawlOrder| ==> CrawlOrder[i] != CrawlOrder[j]
  {
    forall i, j | 0 <= i < j < |CrawlOrder|
      ensures CrawlOrder[i] != CrawlOrder[j]
    {
      if |CrawlOrder[i]| == |CrawlOrder[j]| {
        assert CrawlOrder[i][0] != CrawlOrder[j][0];
      }
    }
  }

  /** The host `new URL(u)` gives for a value; JavaScript converts a non-string to text. */
  function HostOfValue(parse: UrlParser, u: Json): Option<string>
  {
    HostOf(parse, JsonLd.JsText(u))
  }

  datatype SocialsSplit = SocialsSplit(platforms: map<string, Json>, other: seq<Json>)

  /** What the loop of `normalizeSocials` has built after the given URLs: each parseable
      URL fills its slot or goes to `other`; an unparseable one is dropped. */
  function Split(parse: UrlParser, urls: seq<Json>): SocialsSplit
  {
    if |urls| == 0 then SocialsSplit(map[], [])
    else
      var pre := Split(parse, urls[..|urls| - 1]);
      var u := urls[|urls| - 1];
      match HostOfValue(parse, u)
      case None => pre
      case Some(h) =>
        match Slot(h, pre.platforms)
        case Some(k) => SocialsSplit(pre.platforms[k := u], pre.other)
        case None => SocialsSplit(pre.platforms, pre.other + [u])
  }

  /** Every slot holds an input URL that parses and whose host mentions that platform;
      every URL in `other` is an input URL that parses. */
  lemma {:induction false} SplitSound(parse: UrlParser, urls: seq<Json>)
    ensures var r := Split(parse, urls);
      && (forall k :: k in r.platforms ==>
            && k in CrawlOrder
            && r.platforms[k] in urls
            && HostOfValue(parse, r.platforms[k]).Some?
            && Socials.MentionsPlatform(HostOfValue(parse, r.platforms[k]).value, k))
      && (forall u :: u in r.other ==> u in urls && HostOfValue(parse, u).Some?)
  {
    if |urls| > 0 {
      var pre := urls[..|urls| - 1];
      SplitSound(parse, pre);
      assert forall u :: u in pre ==> u in urls;
      var h := HostOfValue(parse, urls[|urls| - 1]);
      if h.Some? {
        SlotFills(h.value, Split(parse, pre).platforms);
      }
    }
  }

  /** Nothing parseable is lost: every URL that parses fills a slot or is in `other`
      (an unparseable URL is nowhere, by `SplitSound`). The URLs are truthy, as `uniq`
      leaves them. */
  lemma {:induction false} SplitComplete(parse: UrlParser, urls: seq<Json>)
    requires forall u :: u in urls ==> !Falsy(u)
    ensures var r := Split(parse, urls);
      forall u :: u in urls && HostOfValue(parse, u).Some? ==>
        u in r.other || exists k :: k in r.platforms && r.platforms[k] == u
  {
    if |urls| > 0 {
      var pre := urls[..|urls| - 1];
      var last := urls[|urls| - 1];
      SplitComplete(parse, pre);
      var r0 := Split(parse, pre);
      var r := Split(parse, urls);
      assert forall u :: u in pre ==> u in urls;
      assert r0.other <= r.other;
      forall u | u in urls && HostOfValue(parse, u).Some?
        ensures u in r.other || exists k :: k in r.platforms && r.platforms[k] == u
      {
        if u == last {
          var k := Slot(HostOfValue(parse, u).value, r0.platforms);
          if k.Some? {
            assert r.platforms[k.value] == u;
          }
        } else {
          assert u in pre by { assert urls == pre + [last]; }
          if u !in r0.other {
            var k :| k in r0.platforms && r0.platforms[k] == u;
            SlotKeep(HostOfValue(parse, last), r0, k);
            if r.platforms[k] != u {
              assert false;
            }
          }
        }
      }
    }
  }

  /** A truthy value in a slot is never replaced. */
  lemma SlotKeep(h: Option<string>, r0: SocialsSplit, k: string)
    requires k in r0.platforms && !Falsy(r0.platforms[k])
    ensures h.Some? && Slot(h.value, r0.platforms).Some? ==> Slot(h.value, r0.platforms).value != k
  {
  }

  /** Once a slot is filled with a truthy URL it keeps it to the end. */
  lemma {:induction false} SplitStable(parse: UrlParser, urls: seq<Json>, n: nat)
    requires n <= |urls|
    requires forall u :: u in urls ==> !Falsy(u)
    ensures var r0 := Split(parse, urls[..n]).platforms;
      var r := Split(parse, urls).platforms;
      forall k :: k in r0 ==> k in r && r[k] == r0[k]
    decreases |urls|
  {
    if n < |urls| {
      var pre := urls[..|urls| - 1];
      assert pre[..n] == urls[..n];
      assert forall u :: u in pre ==> u in urls;
      SplitStable(parse, pre, n);
      var m0 := Split(parse, pre);
      SplitSound(parse, pre);
      forall k | k in m0.platforms
        ensures k in Split(parse, urls).platforms && Split(parse, urls).platforms[k] == m0.platforms[k]
      {
        SlotKeep(HostOfValue(parse, urls[|urls| - 1]), m0, k);
      }
    } else {
      assert urls[..n] == urls;
    }
  }

  /** The URL that fills an empty slot is the one the slot holds at the end. */
  lemma FirstFillWins(parse: UrlParser, urls: seq<Json>, i: nat, k: string)
    requires i < |urls| && forall u :: u in urls ==> !Falsy(u)
    requires HostOfValue(parse, urls[i]).Some?
    requires Slot(HostOfValue(parse, urls[i]).value, Split(parse, urls[..i]).platforms) == Some(k)
    ensures k in Split(parse, urls).platforms && Split(parse, urls).platforms[k] == urls[i]
  {
    assert urls[..i + 1][..i] == urls[..i];
    SplitStable(parse, urls, i + 1);
  }

  /** The facebook slot, tried first, holds the first parseable URL whose host contains
      `facebook.com`. */
  lemma FacebookIsFirst(parse: UrlParser, urls: seq<Json>, i: nat)
    requires i < |urls| && forall u :: u in urls ==> !Falsy(u)
    requires HostOfValue(parse, urls[i]).Some? && Contains(HostOfValue(parse, urls[i]).value, "facebook.com")
    requires forall j :: 0 <= j < i && HostOfValue(parse, urls[j]).Some? ==> !Contains(HostOfValue(parse, urls[j]).value, "facebook.com")
    ensures "facebook" in Split(parse, urls).platforms && Split(parse, urls).platforms["facebook"] == urls[i]
  {
    var pre := urls[..i];
    SplitSound(parse, pre);
    assert "facebook" !in Split(parse, pre).platforms;
    FirstFillWins(parse, urls, i, "facebook");
  }

  /** `normalizeSocials(urls)`: the loop that fills the platform slots and `other`. */
  method NormalizeSocials(parse: UrlParser, urls: seq<Json>) returns (platforms: map<string, Json>, other: seq<Json>)
    ensures SocialsSplit(platforms, other) == Split(parse, urls)
  {
    platforms := map[];
    other := [];
    for i := 0 to |urls|
      invariant SocialsSplit(platforms, other) == Split(parse, urls[..i])
    {
      assert urls[..i + 1][..i] == urls[..i];
      var u := urls[i];
      var h := HostOfValue(parse, u);
      if h.None? {
        continue;
      }
      var k := Slot(h.value, platforms);
      if k.Some? {
        platforms := platforms[k.value := u];
      } else {
        other := other + [u];
      }
    }
    assert urls[..|urls|] == urls;
  }

  // ---------------------------------------------------------------------------
  // extractMeta and extractPhones

  /** The title, the description and the four Open Graph fields, each `None` where its
      pattern did not match. The same shape holds what the patterns captured and what the
      snapshot keeps. */
  datatype MetaTags = MetaTags(title: Option<string>, description: Option<string>, ogUrl: Option<string>,
                               ogTitle: Option<string>, ogSiteName: Option<string>, ogDescription: Option<string>)

  /** `m ? m[1].slice(0, n) : null` */
  function Capped(m: Option<string>, n: nat): (r: Option<string>)
    ensures r.None? <==> m.None?
    ensures r.Some? ==> |r.value| == (if |m.value| < n then |m.value| else n) && r.value <= m.value
    ensures r.Some? && |m.value| <= n ==> r.value == m.value
  {
    if m.None? then None else Some(Take(m.value, n))
  }

  /** `extractMeta(html)`: the title trimmed and cut at 500 characters; the description
      and each Open Graph field cut at 1000. */
  function ExtractMeta(matched: MetaTags): (r: MetaTags)
    ensures r.title.None? <==> matched.title.None?
    ensures r.title.Some? ==> r.title.value <= Trim(matched.title.value)
    ensures r.title.Some? ==> |r.title.value| == (if |Trim(matched.title.value)| < 500 then |Trim(matched.title.value)| else 500)
    ensures r.description == Capped(matched.description, 1000)
    ensures r.ogUrl == Capped(matched.ogUrl, 1000) && r.ogTitle == Capped(matched.ogTitle, 1000)
    ensures r.ogSiteName == Capped(matched.ogSiteName, 1000) && r.ogDescription == Capped(matched.ogDescription, 1000)
  {
    MetaTags(if matched.title.None? then None else Some(Take(Trim(matched.title.value), 500)),
             Capped(matched.description, 1000), Capped(matched.ogUrl, 1000), Capped(matched.ogTitle, 1000),
             Capped(matched.ogSiteName, 1000), Capped(matched.ogDescription, 1000))
  }

  /** `extractPhones(html)`: the `tel:` link targets, then the phone-like matches, without
      empty values or repeats, at most 20 of them. */
  function ExtractPhones(telLinks: seq<string>, patternMatches: seq<string>): (r: seq<string>)
    ensures |r| <= 20 && Distinct(r)
    ensures forall p :: p in r ==> p != "" && (p in telLinks || p in patternMatches)
    ensures |Uniq(telLinks + patternMatches)| <= 20 ==>
      forall p :: (p in telLinks || p in patternMatches) && p != "" ==> p in r
  {
    var u := Uniq(telLinks + patternMatches);
    TakeDistinct(u, 20);
    assert Take(u, 20) == u[..|Take(u, 20)|];
    assert forall p :: p in Take(u, 20) ==> p in u && p in telLinks + patternMatches;
    Take(u, 20)
  }

  // ---------------------------------------------------------------------------
  // collectJsonLd

  /** The JSON-LD part of the snapshot. */
  datatype JsonLdInfo = JsonLdInfo(snippets: seq<string>, parsed: seq<Json>, localBusiness: seq<Json>, sameAs: seq<Json>)

  /** `take(scripts.map(s => s.trim().slice(0, 16000)), 5)` */
  function Snippets(scripts: seq<string>): (r: seq<string>)
    ensures |r| == if |scripts| < 5 then |scripts| else 5
    ensures forall i :: 0 <= i < |r| ==> r[i] <= Trim(scripts[i])
    ensures forall i :: 0 <= i < |r| ==> |r[i]| == if |Trim(scripts[i])| < 16000 then |Trim(scripts[i])| else 16000
  {
    Take(seq(|scripts|, i requires 0 <= i < |scripts| => Take(Trim(scripts[i]), 16000)), 5)
  }

  /** The parse result of every snippet. */
  function ParsedBlocks(parseJson: JsonParser, snippets: seq<string>): (r: seq<Option<Json>>)
    ensures |r| == |snippets|
  {
    seq(|snippets|, i requires 0 <= i < |snippets| => TryParseJson(parseJson, snippets[i]))
  }

  /** `Array.isArray(item.sameAs) ? item.sameAs : []` */
  function SameAsOf(item: Json): seq<Json>
  {
    match JsonLd.Field(item, "sameAs")
    case Some(JArr(xs)) => xs
    case _ => []
  }

  /** Every `sameAs` entry of the items, in order. */
  function SameAsAll(items: seq<Json>): seq<Json>
  {
    if |items| == 0 then [] else SameAsAll(items[..|items| - 1]) + SameAsOf(items[|items| - 1])
  }

  /** `collectJsonLd(html)` from the script bodies: `None` where a `null` item makes the
      selection loop throw. */
  function CollectJsonLdOf(parseJson: JsonParser, scripts: seq<string>): Option<JsonLdInfo>
  {
    var snippets := Snippets(scripts);
    var items := JsonLd.Spread(ParsedBlocks(parseJson, snippets));
    match JsonLd.SelectBusinesses(items)
    case None => None
    case Some(lbs) => Some(JsonLdInfo(snippets, Take(items, 10), Take(lbs, 5), UniqJson(SameAsAll(items))))
  }

  /** The caps of `collectJsonLd`: at most 5 snippets of at most 16000 characters, at most
      10 parsed items and 5 business items, distinct `sameAs` values; the business items
      are exactly the leading business items of the spread blocks, and the collection
      throws exactly when some spread item is `null`. */
  lemma CollectJsonLdSpec(parseJson: JsonParser, scripts: seq<string>)
    ensures var items := JsonLd.Spread(ParsedBlocks(parseJson, Snippets(scripts)));
      var r := CollectJsonLdOf(parseJson, scripts);
      && (r.None? <==> JNull in items)
      && (r.Some? ==>
            && r.value.snippets == Snippets(scripts)
            && |r.value.snippets| <= 5
            && (forall i :: 0 <= i < |r.value.snippets| ==> |r.value.snippets[i]| <= 16000)
            && r.value.parsed <= items && |r.value.parsed| <= 10
            && r.value.localBusiness == Take(Filter(items, JsonLd.IsBusiness), 5)
            && Distinct(r.value.sameAs))
  {
    var items := JsonLd.Spread(ParsedBlocks(parseJson, Snippets(scripts)));
    JsonLd.SelectBusinessesIsFilter(items);
  }

  /** A snippet that does not parse, even after the comment retry, adds no item; every
      item comes from a snippet that did parse. */
  lemma MalformedSkipped(parseJson: JsonParser, scripts: seq<string>)
    ensures var blocks := ParsedBlocks(parseJson, Snippets(scripts));
      forall x :: x in JsonLd.Spread(blocks) ==>
        exists k :: 0 <= k < |blocks| && blocks[k].Some? && x in JsonLd.Contribution(blocks[k])
  {
    JsonLd.SpreadSound(ParsedBlocks(parseJson, Snippets(scripts)));
  }

  lemma SameAsAllSnoc(items: seq<Json>, x: Json)
    ensures SameAsAll(items + [x]) == SameAsAll(items) + SameAsOf(x)
  {
    assert (items + [x])[..|items|] == items;
  }

  /** The loop of `collectJsonLd` over the items: business items and `sameAs` entries;
      `None` where an item is `null`. */
  method ScanItems(items: seq<Json>) returns (localBusiness: Option<seq<Json>>, sameAs: seq<Json>)
    ensures localBusiness == JsonLd.SelectBusinesses(items)
    ensures localBusiness.Some? ==> sameAs == SameAsAll(items)
  {
    var lbs := [];
    sameAs := [];
    for i := 0 to |items|
      invariant JsonLd.SelectBusinesses(items[..i]) == Some(lbs)
      invariant sameAs == SameAsAll(items[..i])
    {
      assert items[..i + 1] == items[..i] + [items[i]];
      var item := items[i];
      if item.JNull? {
        JsonLd.NullStays(items, i + 1);
        return None, sameAs;
      }
      if JsonLd.IsBusiness(item) {
        lbs := lbs + [item];
      }
      SameAsAllSnoc(items[..i], item);
      sameAs := sameAs + SameAsOf(item);
    }
    assert items[..|items|] == items;
    localBusiness := Some(lbs);
  }

  /** `collectJsonLd(html)` from the script bodies. */
  method CollectJsonLd(parseJson: JsonParser, scripts: seq<string>) returns (r: Option<JsonLdInfo>)
    ensures r == CollectJsonLdOf(parseJson, scripts)
  {
    var snippets := Snippets(scripts);
    var items := JsonLd.SpreadParsed(ParsedBlocks(parseJson, snippets));
    var localBusiness, sameAs := ScanItems(items);
    if localBusiness.None? {
      return None;
    }
    r := Some(JsonLdInfo(snippets, Take(items, 10), Take(localBusiness.value, 5), UniqJson(sameAs)));
  }

  // ---------------------------------------------------------------------------
  // Name and address hints

  /** An address object of a business item with its formatted text (`None` for ""). */
  datatype AddressHint = AddressHint(raw: Json, formatted: Option<string>)

  /** `lb.name && typeof lb.name === 'string'` */
  function NameOf(lb: Json): Option<string>
  {
    match JsonLd.Field(lb, "name")
    case Some(JStr(n)) => if n == "" then None else Some(n)
    case _ => None
  }

  /** `addr && typeof addr === 'object'`, then the formatted address or `undefined`. */
  function AddressHintOf(lb: Json): Option<AddressHint>
  {
    match JsonLd.Field(lb, "address")
    case None => None
    case Some(addr) =>
      if !JsonLd.IsObject(addr) then None
      else
        var f := JsonLd.FormattedAddress(addr);
        Some(AddressHint(addr, if f == "" then None else Some(f)))
  }

  /** The names the loop over the business items pushes. */
  function NamesOf(lbs: seq<Json>): (r: seq<string>)
    ensures |r| <= |lbs|
    ensures forall n :: n in r ==> n != ""
  {
    if |lbs| == 0 then []
    else
      var n := NameOf(lbs[|lbs| - 1]);
      NamesOf(lbs[..|lbs| - 1]) + (if n.Some? then [n.value] else [])
  }

  /** The address hints the loop over the business items pushes. */
  function AddressHintsOf(lbs: seq<Json>): (r: seq<AddressHint>)
    ensures |r| <= |lbs|
    ensures forall a :: a in r ==> JsonLd.IsObject(a.raw) && (a.formatted.Some? ==> a.formatted.value != "")
  {
    if |lbs| == 0 then []
    else
      var a := AddressHintOf(lbs[|lbs| - 1]);
      AddressHintsOf(lbs[..|lbs| - 1]) + (if a.Some? then [a.value] else [])
  }

  /** The loop `for (const lb of localBusiness)` filling `names` and `addresses`. */
  method CollectHints(lbs: seq<Json>) returns (names: seq<string>, addresses: seq<AddressHint>)
    ensures names == NamesOf(lbs) && addresses == AddressHintsOf(lbs)
  {
    names := [];
    addresses := [];
    for i := 0 to |lbs|
      invariant names == NamesOf(lbs[..i]) && addresses == AddressHintsOf(lbs[..i])
    {
      assert lbs[..i + 1][..i] == lbs[..i];
      var n := NameOf(lbs[i]);
      if n.Some? {
        names := names + [n.value];
      }
      var a := AddressHintOf(lbs[i]);
      if a.Some? {
        addresses := addresses + [a.value];
      }
    }
    assert lbs[..|lbs|] == lbs;
  }

  // ---------------------------------------------------------------------------
  // The snapshot

  /** What the regular expression scans matched on the fetched page. */
  datatype Page = Page(meta: MetaTags, anchors: seq<string>, telLinks: seq<string>, phoneMatches: seq<string>,
                       ldScripts: seq<string>)

  /** The snapshot stored for the page (without its capture time). */
  datatype Snapshot = Snapshot(url: string, meta: MetaTags, socials: map<string, Json>, jsonLd: JsonLdInfo,
                               phones: seq<string>, names: seq<string>, addresses: seq<AddressHint>)

  /** `/^https?:\/\//i.test(h)` */
  predicate IsAbsoluteHttp(h: string)
  {
    var f := JsonLd.FoldAscii(h);
    StartsWith(f, "http://") || StartsWith(f, "https://")
  }

  /** `anchors.filter(h => /^https?:\/\//i.test(h)).slice(0, 200)` */
  function AnchorUrls(anchors: seq<string>): (r: seq<string>)
    ensures |r| <= 200
    ensures forall h :: h in r ==> h in anchors && IsAbsoluteHttp(h)
    ensures var f := Filter(anchors, IsAbsoluteHttp);
      r <= f && |r| == if |f| < 200 then |f| else 200
    ensures |Filter(anchors, IsAbsoluteHttp)| <= 200 ==>
      forall h :: h in anchors && IsAbsoluteHttp(h) ==> h in r
  {
    var f := Filter(anchors, IsAbsoluteHttp);
    assert Take(f, 200) == f[..|Take(f, 200)|];
    Take(f, 200)
  }

  /** `uniq([...socialFromAnchors, ...socialFromJsonLd])` */
  function SocialsAll(anchorUrls: seq<string>, sameAs: seq<Json>): (r: seq<Json>)
    ensures Distinct(r) && forall u :: u in r ==> !Falsy(u)
  {
    UniqJson(seq(|anchorUrls|, i requires 0 <= i < |anchorUrls| => JStr(anchorUrls[i])) + sameAs)
  }

  /** The platform slots, with `other` added only when it is not empty. */
  function OwnSocials(split: SocialsSplit): (r: map<string, Json>)
    ensures "other" !in split.platforms ==> ("other" in r <==> |split.other| > 0)
    ensures forall k :: k in split.platforms && k != "other" ==> k in r && r[k] == split.platforms[k]
  {
    if |split.other| > 0 then split.platforms["other" := JArr(split.other)] else split.platforms
  }

  /** The snapshot of a fetched page; `None` where collecting the JSON-LD throws. */
  function SnapshotOf(parse: UrlParser, parseJson: JsonParser, url: string, page: Page): Option<Snapshot>
  {
    match CollectJsonLdOf(parseJson, page.ldScripts)
    case None => None
    case Some(ld) =>
      var split := Split(parse, SocialsAll(AnchorUrls(page.anchors), ld.sameAs));
      Some(Snapshot(url, ExtractMeta(page.meta), OwnSocials(split), ld,
                    ExtractPhones(page.telLinks, page.phoneMatches),
                    Take(Uniq(NamesOf(ld.localBusiness)), 10), Take(AddressHintsOf(ld.localBusiness), 10)))
  }

  /** The caps the snapshot keeps: meta fields cut at 500 and 1000 characters, at most 20
      distinct phones, 10 distinct names and 10 addresses, the JSON-LD caps, and social
      slots that hold only platform keys. */
  lemma SnapshotCaps(parse: UrlParser, parseJson: JsonParser, url: string, page: Page)
    requires SnapshotOf(parse, parseJson, url, page).Some?
    ensures var s := SnapshotOf(parse, parseJson, url, page).value;
      && s.url == url
      && (s.meta.title.Some? ==> |s.meta.title.value| <= 500)
      && (s.meta.description.Some? ==> |s.meta.description.value| <= 1000)
      && |s.phones| <= 20 && Distinct(s.phones)
      && |s.names| <= 10 && Distinct(s.names)
      && |s.addresses| <= 10
      && |s.jsonLd.snippets| <= 5 && |s.jsonLd.parsed| <= 10 && |s.jsonLd.localBusiness| <= 5
      && Distinct(s.jsonLd.sameAs)
      && forall k :: k in s.socials ==> k in CrawlOrder || k == "other"
  {
    CollectJsonLdSpec(parseJson, page.ldScripts);
    var ld := CollectJsonLdOf(parseJson, page.ldScripts).value;
    var all := SocialsAll(AnchorUrls(page.anchors), ld.sameAs);
    SplitSound(parse, all);
    TakeDistinct(Uniq(NamesOf(ld.localBusiness)), 10);
  }

  // ---------------------------------------------------------------------------
  // The socials merge

  /** `{ ...existing.socials, ...mergedSocials }` when the stored column is an object (an
      array's items land under "0", "1", …); otherwise the crawl's own slots alone. The merge keeps every stored key, adds the
      crawl's keys, and where both have a key the crawl's value wins. */
  function MergeSocials(stored: Json, own: map<string, Json>): (r: map<string, Json>)
    ensures r.Keys == own.Keys + Spread(stored).Keys
    ensures forall k :: k in own ==> r[k] == own[k]
    ensures forall k :: k in Spread(stored) && k !in own ==> r[k] == Spread(stored)[k]
  {
    Spread(stored) + own
  }

  // ---------------------------------------------------------------------------
  // The handler

  /** The request body fields; "" is a missing `businessId` or `url`. */
  datatype CrawlRequest = CrawlRequest(businessId: string, auditId: Option<string>, url: string)

  /** What fetching the page gave: a thrown error with its message, a non-OK status with
      the response text ("" where it cannot be read), or the page. */
  datatype Fetch = Unreachable(message: string) | HttpError(status: int, text: string) | Fetched(page: Page)

  /** A store answer: a value or the error message. */
  datatype Answer<T> = Done(value: T) | Error(message: string)

  /** What the handler answers. */
  datatype CrawlResponse = Rejected(status: int, error: string) | Saved(snapshotId: string, businessId: string, auditId: Option<string>)

  /** The profile update the handler issues: the merged socials and the website. */
  datatype ProfileUpdate = ProfileUpdate(businessId: string, socials: map<string, Json>, website: string)

  /** The response with the writes that took effect. */
  datatype CrawlOutcome = CrawlOutcome(response: CrawlResponse, update: Option<ProfileUpdate>, snapshot: Option<Snapshot>)

  /** `err?.message || 'Unknown error'` */
  function ThrownText(message: string): string
  {
    if message == "" then "Unknown error" else message
  }

  /** The store part: read the stored socials, write the merged ones with the website,
      then insert the snapshot. `stored` is the profile's socials column or the read
      error, `updateError` the update's error, `inserted` the new snapshot id or the
      insert error. */
  function StoreOf(req: CrawlRequest, own: map<string, Json>, snap: Snapshot, stored: Answer<Json>,
                   updateError: Option<string>, inserted: Answer<string>): CrawlOutcome
  {
    match stored
    case Error(m) => CrawlOutcome(Rejected(500, m), None, None)
    case Done(col) =>
      var update := ProfileUpdate(req.businessId, MergeSocials(col, own), req.url);
      if updateError.Some? then CrawlOutcome(Rejected(500, updateError.value), None, None)
      else
        match inserted
        case Error(m) => CrawlOutcome(Rejected(500, m), Some(update), None)
        case Done(id) => CrawlOutcome(Saved(id, req.businessId, req.auditId), Some(update), Some(snap))
  }

  /** The POST handler. */
  function CrawlOf(parse: UrlParser, parseJson: JsonParser, req: CrawlRequest, fetch: Fetch,
                   stored: Answer<Json>, updateError: Option<string>, inserted: Answer<string>): CrawlOutcome
  {
    if req.businessId == "" || !Socials.IsHttpUrl(parse, req.url) then
      CrawlOutcome(Rejected(400, "Missing businessId or invalid url"), None, None)
    else
      match fetch
      case Unreachable(m) => CrawlOutcome(Rejected(500, ThrownText(m)), None, None)
      case HttpError(status, text) =>
        CrawlOutcome(Rejected(502, "Fetch failed: " + (if text != "" then text else IntToString(status))), None, None)
      case Fetched(page) =>
        match SnapshotOf(parse, parseJson, req.url, page)
        case None => CrawlOutcome(Rejected(500, JsonLd.NullItemError), None, None)
        case Some(snap) => StoreOf(req, snap.socials, snap, stored, updateError, inserted)
  }

  /** The handler's outcomes: an invalid request, a failed fetch or a throwing extraction
      writes nothing; a saved crawl has written both the merged socials with the website
      and the snapshot; the profile update keeps the stored keys the crawl did not find
      and takes the crawl's value for every key it found. */
  lemma CrawlSpec(parse: UrlParser, parseJson: JsonParser, req: CrawlRequest, fetch: Fetch,
                  stored: Answer<Json>, updateError: Option<string>, inserted: Answer<string>)
    ensures var o := CrawlOf(parse, parseJson, req, fetch, stored, updateError, inserted);
      && (req.businessId == "" || !Socials.IsHttpUrl(parse, req.url) ==> o.response == Rejected(400, "Missing businessId or invalid url"))
      && (o.response.Rejected? && o.response.status != 500 ==> o.update.None? && o.snapshot.None?)
      && (!fetch.Fetched? ==> o.response.Rejected? && o.update.None? && o.snapshot.None?)
      && (o.response.Saved? <==>
            (&& fetch.Fetched? && req.businessId != "" && Socials.IsHttpUrl(parse, req.url)
             && SnapshotOf(parse, parseJson, req.url, fetch.page).Some?
             && stored.Done? && updateError.None? && inserted.Done?))
      && (o.response.Saved? ==> o.snapshot == SnapshotOf(parse, parseJson, req.url, fetch.page) && o.response.snapshotId == inserted.value)
      && (o.update.Some? ==>
            && o.update.value.website == req.url
            && o.update.value.businessId == req.businessId
            && stored.Done?
            && SnapshotOf(parse, parseJson, req.url, fetch.page).Some?
            && o.update.value.socials == MergeSocials(stored.value, SnapshotOf(parse, parseJson, req.url, fetch.page).value.socials))
      && (o.snapshot.Some? ==> o.update.Some?)
  {
  }

  /** Builds the snapshot of a fetched page, as the handler does step by step. */
  method BuildSnapshot(parse: UrlParser, parseJson: JsonParser, url: string, page: Page) returns (snap: Option<Snapshot>)
    ensures snap == SnapshotOf(parse, parseJson, url, page)
  {
    var meta := ExtractMeta(page.meta);
    var phones := ExtractPhones(page.telLinks, page.phoneMatches);
    var ld := CollectJsonLd(parseJson, page.ldScripts);
    if ld.None? {
      return None;
    }
    var anchorUrls := AnchorUrls(page.anchors);
    var platforms, other := NormalizeSocials(parse, SocialsAll(anchorUrls, ld.value.sameAs));
    var names, addresses := CollectHints(ld.value.localBusiness);
    snap := Some(Snapshot(url, meta, OwnSocials(SocialsSplit(platforms, other)), ld.value, phones,
                          Take(Uniq(names), 10), Take(addresses, 10)));
  }

  /** The POST handler as it runs. */
  method HandleCrawl(parse: UrlParser, parseJson: JsonParser, req: CrawlRequest, fetch: Fetch,
                     stored: Answer<Json>, updateError: Option<string>, inserted: Answer<string>)
    returns (outcome: CrawlOutcome)
    ensures outcome == CrawlOf(parse, parseJson, req, fetch, stored, updateError, inserted)
  {
    if req.businessId == "" || !Socials.IsHttpUrl(parse, req.url) {
      return CrawlOutcome(Rejected(400, "Missing businessId or invalid url"), None, None);
    }
    if fetch.Unreachable? {
      return CrawlOutcome(Rejected(500, ThrownText(fetch.message)), None, None);
    }
    if fetch.HttpError? {
      var detail := if fetch.text != "" then fetch.text else IntToString(fetch.status);
      return CrawlOutcome(Rejected(502, "Fetch failed: " + detail), None, None);
    }
    var snap := BuildSnapshot(parse, parseJson, req.url, fetch.page);
    if snap.None? {
      return CrawlOutcome(Rejected(500, JsonLd.NullItemError), None, None);
    }
    outcome := StoreOf(req, snap.value.socials, snap.value, stored, updateError, inserted);
  }
}
