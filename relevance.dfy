/** The relevance scorer `scoreItem` of the discovery route
    (src/app/api/audit/discovery/urls/route.ts): an integer score built from brand, place,
    address and phone signals, followed by guards that penalise and cap it. */
module Relevance {
  import opened Strings
  import Fuzzy
  import Address
  import Queries
  import Web

  // ---------------------------------------------------------------------------
  // What the scorer knows about the business

  /** The golden record the route reads; an absent field is "". */
  datatype Golden = Golden(name: string, address: string, phone: string)

  /** `.replace(/[^a-z0-9\s-]/g, ' ')` */
  function TokenScrub(s: string): (r: string)
    ensures |r| == |s|
  {
    seq(|s|, i requires 0 <= i < |s| =>
      if IsLowerAlnum(s[i]) || IsSpace(s[i]) || s[i] == '-' then s[i] else ' ')
  }

  predicate LongToken(t: string) { |t| > 1 }

  /** `tokenise(s)`: lower-cased words of two or more characters. */
  function Tokenise(s: string): (r: seq<string>)
    ensures forall t :: t in r ==> |t| > 1
  {
    Filter(Words(TokenScrub(Lower(s))), LongToken)
  }

  /** `brandTokens`: the lower-cased words of the name, one-letter words included. */
  function BrandTokens(g: Golden): (r: seq<string>)
    ensures forall i :: 0 <= i < |r| ==> |r[i]| > 0
  {
    Words(TokenScrub(Lower(g.name)))
  }

  /** `brandPhrase` */
  function BrandPhrase(g: Golden): string { Trim(Lower(g.name)) }

  /** `brandBigrams`: each pair of neighbouring brand tokens joined by a space. */
  function Bigrams(ts: seq<string>): (r: seq<string>)
    ensures |ts| <= 1 ==> r == []
    ensures |ts| > 1 ==> |r| == |ts| - 1 && forall i :: 0 <= i < |r| ==> r[i] == ts[i] + " " + ts[i + 1]
  {
    if |ts| <= 1 then [] else seq(|ts| - 1, i requires 0 <= i < |ts| - 1 => ts[i] + " " + ts[i + 1])
  }

  function CityGuess(g: Golden): string
  {
    match Address.CityFromAddress(g.address)
    case Some(c) => c
    case None => ""
  }

  function PostcodeOf(g: Golden): string
  {
    match Address.PostcodeFromAddress(g.address)
    case Some(p) => p
    case None => ""
  }

  /** `phoneDigits.replace(/^61/, '')`: the digits the page must contain. */
  function LocalPhone(digits: string): (r: string)
    ensures StartsWith(digits, "61") ==> digits == "61" + r
    ensures !StartsWith(digits, "61") ==> r == digits
  {
    if StartsWith(digits, "61") then digits[2..] else digits
  }

  // ---------------------------------------------------------------------------
  // Constant word lists

  const NegHosts: seq<string> :=
    ["empire.edu", "walmart.com", "sensationnel.com", "empirebeautysupply.com",
     "empirebeautysupplies.com", "beautyempirepo.com"]
  const StateCodes: seq<string> := Address.StateCodes
  const MajorCities: seq<string> :=
    ["sydney", "melbourne", "brisbane", "perth", "adelaide", "hobart", "darwin", "canberra"]
  const OccupationWords: seq<string> :=
    ["physiotherapy", "physiotherapist", "chiropractor", "dentist", "dental", "doctor", "gp",
     "general practitioner", "clinic", "allied", "health", "massage", "podiatry", "podiatrist"]
  const GenericWords: seq<string> :=
    ["north", "east", "south", "west", "steel", "plumbing", "electrical", "electric", "auto",
     "services", "pty", "ltd"]

  // ---------------------------------------------------------------------------
  // Word-boundary tests

  /** `new RegExp('\\b' + w + '\\b', 'i').test(s)` for a word `w` given in upper case. */
  predicate HasWord(s: string, w: string)
  {
    exists p: nat :: p <= |s| && Address.CodeAt(s, p, w)
  }

  /** `zip\s*\d{5}\b` (case-insensitive) matches at `p`; the spaces are all taken because a
      digit cannot match one. */
  predicate ZipAt(s: string, p: nat)
  {
    && p + 3 <= |s| && Address.BoundaryBefore(s, p)
    && (forall k :: 0 <= k < 3 ==> Address.UpperAscii(s[p + k]) == "ZIP"[k])
    && ZipTail(s, p + 3)
  }

  /** `\s*\d{5}\b` matches at `q`. */
  predicate ZipTail(s: string, q: nat)
  {
    exists m: nat :: m <= |s| && ZipTailAt(s, q, m)
  }

  /** `\s*\d{5}\b` matches at `q` with `m` spaces. */
  predicate ZipTailAt(s: string, q: nat, m: nat)
  {
    && q + m + 5 <= |s|
    && (forall k :: q <= k < q + m ==> IsSpace(s[k]))
    && (forall k :: q + m <= k < q + m + 5 ==> IsDigit(s[k]))
    && Address.BoundaryAfter(s, q + m + 5)
  }

  /** `/\b(united states|usa|tx|oh|ca|sc|ms|zip\s*\d{5})\b/i.test(s)` */
  predicate UsMention(s: string)
  {
    || HasWord(s, "UNITED STATES") || HasWord(s, "USA") || HasWord(s, "TX") || HasWord(s, "OH")
    || HasWord(s, "CA") || HasWord(s, "SC") || HasWord(s, "MS")
    || exists p: nat :: p <= |s| && ZipAt(s, p)
  }

  /** `/\.au$/i.test(host)` */
  predicate IsAuHost(host: string)
  {
    |host| >= 3 && host[|host| - 3] == '.'
    && Address.UpperAscii(host[|host| - 2]) == 'A' && Address.UpperAscii(host[|host| - 1]) == 'U'
  }

  predicate IsFacebookHost(host: string) { host == "facebook.com" || host == "m.facebook.com" }

  // ---------------------------------------------------------------------------
  // One search hit

  /** A search hit: its parsed URL, title and snippet ("" when absent), host and type. */
  datatype Hit = Hit(url: Web.Url, title: string, content: string, host: string,
                     sourceType: Queries.SourceType)

  /** What `scoreItem` returns. */
  datatype Scored = Scored(score: int, exact: bool, bigram: bool, phone: bool, geo: bool,
                           wrongLocation: bool, occupationOnly: bool, jobBoard: bool)

  /** `hasExact`: the whole lower-cased name appears in the title or the snippet. */
  predicate HasExact(g: Golden, h: Hit)
  {
    var phrase := BrandPhrase(g);
    phrase != "" && (Contains(Lower(h.title), phrase) || Contains(Lower(h.content), phrase))
  }

  /** `bigram`: two neighbouring brand tokens appear together in the title or snippet. */
  predicate HasBigram(g: Golden, h: Hit)
  {
    exists bg :: bg in Bigrams(BrandTokens(g)) && (Contains(Lower(h.title), bg) || Contains(Lower(h.content), bg))
  }

  /** `hasContact`: the snippet's digits contain the phone without its 61 prefix. */
  predicate HasContact(g: Golden, h: Hit)
  {
    Digits(g.phone) != "" && Contains(Digits(h.content), LocalPhone(Digits(g.phone)))
  }

  /** `hasGeo`: the city guess or the postcode appears in the title or snippet. */
  predicate HasGeo(g: Golden, h: Hit)
  {
    var city := Lower(CityGuess(g));
    var pc := PostcodeOf(g);
    || (CityGuess(g) != "" && (Contains(Lower(h.title), city) || Contains(Lower(h.content), city)))
    || (pc != "" && (Contains(h.title, pc) || Contains(h.content, pc)))
  }

  /** None of the four strong support signals holds (`strongSupportCount === 0`). */
  predicate NoSupport(r: Scored) { !r.exact && !r.bigram && !r.phone && !r.geo }

  /** The wrong-location condition: a state or major city other than ours is named, our
      state is not, and our city does not appear. */
  predicate WrongLocation(g: Golden, h: Hit)
  {
    match Address.StateFromAddress(g.address)
    case None => false
    case Some(expected) =>
      var t, c := Lower(h.title), Lower(h.content);
      var hit := (st: string) => HasWord(t, st) || HasWord(c, st);
      var ourCity := CityGuess(g) != "" && (Contains(t, Lower(CityGuess(g))) || Contains(c, Lower(CityGuess(g))));
      var otherState := exists st :: st in StateCodes && st != expected && hit(st);
      var otherCity := exists mc :: mc in MajorCities && (Contains(t, mc) || Contains(c, mc));
      !ourCity && (otherState || otherCity) && !hit(expected)
  }

  /** The tokens of title, path and snippet together. */
  function CombinedTokens(h: Hit): seq<string>
  {
    Tokenise(h.title) + PathTokens(h) + Tokenise(h.content)
  }

  function PathTokens(h: Hit): seq<string>
  {
    Tokenise(seq(|h.url.path|, i requires 0 <= i < |h.url.path| =>
      if h.url.path[i] == '/' then ' ' else h.url.path[i]))
  }

  /** The occupation-only condition: an occupation word appears but no brand token does. */
  predicate OccupationOnly(g: Golden, h: Hit)
  {
    var t, c := Lower(h.title), Lower(h.content);
    && (exists w :: w in OccupationWords && (Contains(t, w) || Contains(c, w)))
    && forall bt :: bt in BrandTokens(g) ==> bt !in CombinedTokens(h)
  }

  // ---------------------------------------------------------------------------
  // Token contribution

  /** `Math.min(fuzzyScore, FUZZY_NAME_MAX_BONUS)` */
  function CappedFuzzy(fuzzy: int, fuzzyMax: int): (f: int)
    ensures f <= fuzzyMax && f <= fuzzy
    ensures f == fuzzy || f == fuzzyMax
  {
    Min(fuzzy, fuzzyMax)
  }

  /** The capped brand-token contribution: four points per title hit, two per path and host
      hit, plus the capped fuzzy bonus, at most 16 (a brand of generic words: at most 10
      with a phrase or bigram hit, else 4). */
  function TokenContribution(inTitle: nat, inPath: nat, inHost: nat, fuzzy: int, fuzzyMax: int,
                             generic: bool, phraseOrBigram: bool): (t: int)
    ensures t <= 16
    ensures generic && phraseOrBigram ==> t <= 10
    ensures generic && !phraseOrBigram ==> t <= 4
    ensures t <= inTitle * 4 + inPath * 2 + inHost * 2 + fuzzyMax
  {
    var raw := inTitle * 4 + inPath * 2 + inHost * 2 + CappedFuzzy(fuzzy, fuzzyMax);
    Min(raw, if generic then (if phraseOrBigram then 10 else 4) else 16)
  }

  /** More token hits never lower the contribution. */
  lemma TokenContributionMonotone(a: nat, b: nat, c: nat, a': nat, b': nat, c': nat,
                                  fuzzy: int, fuzzyMax: int, generic: bool, pb: bool)
    requires a <= a' && b <= b' && c <= c'
    ensures TokenContribution(a, b, c, fuzzy, fuzzyMax, generic, pb)
         <= TokenContribution(a', b', c', fuzzy, fuzzyMax, generic, pb)
  {
  }

  /** `xs.filter(t => p(t)).length` */
  function CountIn(xs: seq<string>, ys: seq<string>): (n: nat)
    ensures n <= |xs|
  {
    if |xs| == 0 then 0 else (if xs[0] in ys then 1 else 0) + CountIn(xs[1..], ys)
  }

  function CountInHost(xs: seq<string>, host: string): (n: nat)
    ensures n <= |xs|
  {
    if |xs| == 0 then 0 else (if Contains(host, xs[0]) then 1 else 0) + CountInHost(xs[1..], host)
  }

  // ---------------------------------------------------------------------------
  // The fuzzy near-miss loop

  /** The fuzzy loop of `scoreItem`: each brand token missing from the page earns 2 points
      when its nearest page token (both longer than two characters) is one edit away and
      the token has at least 4 characters, or 1 point when two edits away and it has at
      least 6 characters. */
  method FuzzyBonus(brandTokens: seq<string>, combined: seq<string>) returns (f: int)
    ensures 0 <= f <= 2 * |brandTokens|
    ensures f > 0 ==> exists i :: 0 <= i < |brandTokens| && brandTokens[i] !in combined && |brandTokens[i]| >= 4
    ensures f > 0 ==> exists j :: 0 <= j < |combined| && |combined[j]| > 2
  {
    f := 0;
    var k := 0;
    while k < |brandTokens|
      invariant 0 <= k <= |brandTokens|
      invariant 0 <= f <= 2 * k
      invariant f > 0 ==> exists i :: 0 <= i < k && brandTokens[i] !in combined && |brandTokens[i]| >= 4
      invariant f > 0 ==> exists j :: 0 <= j < |combined| && |combined[j]| > 2
    {
      var bt := brandTokens[k];
      if bt !in combined {
        var best: Option<int> := None;
        var j := 0;
        while j < |combined|
          invariant 0 <= j <= |combined|
          invariant best.Some? ==> exists j' :: 0 <= j' < |combined| && |combined[j']| > 2
        {
          var ct := combined[j];
          if |ct| > 2 && |bt| > 2 {
            var md := Fuzzy.DlDistance(bt, ct, 2);
            if best.None? || md < best.value {
              best := Some(md);
            }
            if best == Some(0) {
              break;
            }
          }
          j := j + 1;
        }
        if |bt| >= 4 && best == Some(1) {
          f := f + 2;
        } else if |bt| >= 6 && best == Some(2) {
          f := f + 1;
        }
      }
      k := k + 1;
    }
  }

  // ---------------------------------------------------------------------------
  // scoreItem

  /** Everything `scoreItem` observes about a hit before it adds anything up: the tests of
      title, snippet, path and host against the golden record. */
  datatype Signals = Signals(
    sourceType: Queries.SourceType,
    auHost: bool, auSignalHost: bool,
    brandTokens: seq<string>, pageTokens: seq<string>,
    inTitle: nat, inPath: nat, inHost: nat,
    exactTitle: bool, exactContent: bool, bigramHit: bool, genericBrand: bool,
    cityInTitle: bool, cityInContent: bool, cityInPath: bool, nsw: bool,
    postcodeInTitle: bool, postcodeInContent: bool,
    addressHit: bool, streetHit: bool, streetPostcodeHit: bool,
    empireBrand: bool, empireHost: bool,
    negHost: bool, usMention: bool,
    exact: bool, bigram: bool, contact: bool, geo: bool,
    wrongLocation: bool, occupationOnly: bool, jobBoard: bool,
    webGenericWeak: bool,
    facebook: bool, fbLowValue: bool, fbShortPath: bool)

  /** The observations of `scoreItem` on hit `h` for golden record `g`. */
  function Observe(known: Queries.KnownHosts, g: Golden, h: Hit): Signals
  {
    var titleT, contentT, pathT := Tokenise(h.title), Tokenise(h.content), PathTokens(h);
    var t, c := Lower(h.title), Lower(h.content);
    var bts := BrandTokens(g);
    var phrase := BrandPhrase(g);
    var cityGuess, city, pc := CityGuess(g), Lower(CityGuess(g)), PostcodeOf(g);
    var addressLower := Lower(g.address);
    var street := Lower(Queries.FirstLine(g.address));
    var streetIn := street != "" && (Contains(t, street) || Contains(c, street));
    var pcIn := pc != "" && (Contains(h.title, pc) || Contains(h.content, pc));
    var p := Lower(h.url.path);
    Signals(
      h.sourceType,
      IsAuHost(h.host), h.host in known.directories || h.host in known.social,
      bts, Dedup(titleT + pathT + contentT),
      CountIn(bts, titleT), CountIn(bts, pathT), CountInHost(bts, h.host),
      phrase != "" && Contains(t, phrase), phrase != "" && Contains(c, phrase),
      exists bg :: (bg in Bigrams(bts) && (Contains(t, bg) || Contains(c, bg) || Contains(Join(pathT, " "), bg))),
      forall w :: w in bts ==> w in GenericWords,
      cityGuess != "" && Contains(t, city), cityGuess != "" && Contains(c, city),
      cityGuess != "" && city in pathT,
      HasWord(t, "NSW") || HasWord(c, "NSW"),
      pc != "" && Contains(h.title, pc), pc != "" && Contains(h.content, pc),
      addressLower != "" && (Contains(t, addressLower) || Contains(c, addressLower)),
      streetIn, streetIn && pcIn,
      ("empire" in bts && "hair" in bts) || ("empire" in bts && "beauty" in bts),
      Contains(h.host, "empire") && (Contains(h.host, "hair") || Contains(h.host, "beauty")),
      exists n :: n in NegHosts && EndsWith(h.host, n),
      UsMention(c),
      HasExact(g, h), HasBigram(g, h), HasContact(g, h), HasGeo(g, h),
      WrongLocation(g, h), OccupationOnly(g, h), Queries.IsJobBoard(h.host),
      (exists w :: w in bts && w in GenericWords) && CountIn(bts, CombinedTokens(h)) <= 1,
      IsFacebookHost(h.host), FacebookLowValue(p),
      |Filter(Split(p, '/'), Fuzzy.NonEmpty)| == 1 || StartsWith(p, "/pages/"))
  }

  /** None of the four strong support signals holds (`strongSupportCount === 0`). */
  predicate Unsupported(s: Signals) { !s.exact && !s.bigram && !s.contact && !s.geo }

  /** Host class weighting and the Australian host signals. */
  method HostClassScore(s: Signals) returns (score: int)
    ensures 0 <= score <= 22
  {
    score := 0;
    if s.sourceType == Queries.PlacesSource {
      score := score + 12;
    } else if s.sourceType == Queries.DirectorySource || s.sourceType == Queries.SocialSource {
      score := score + 10;
    }
    if s.auHost {
      score := score + 8;
    }
    if s.auSignalHost {
      score := score + 2;
    }
  }

  /** Name matching: the exact phrase, a bigram, and the capped token contribution. */
  method NameScore(cfg: Queries.Config, s: Signals) returns (score: int)
    ensures score <= 40
    ensures |s.brandTokens| == 0 ==> score == 0
  {
    score := 0;
    if |s.brandTokens| > 0 {
      var fuzzy := FuzzyBonus(s.brandTokens, s.pageTokens);
      if s.exactTitle {
        score := score + 12;
      }
      if s.exactContent {
        score := score + 6;
      }
      if s.bigramHit {
        score := score + 6;
      }
      score := score + TokenContribution(s.inTitle, s.inPath, s.inHost, fuzzy, cfg.fuzzyMaxBonus,
                                         s.genericBrand, s.exactTitle || s.exactContent || s.bigramHit);
    }
  }

  /** Geo matching: the city, the state code NSW and the postcode. */
  method GeoScore(s: Signals) returns (score: int)
    ensures 0 <= score <= 31
  {
    score := 0;
    if s.cityInTitle {
      score := score + 6;
    }
    if s.cityInContent {
      score := score + 6;
    }
    if s.cityInPath {
      score := score + 4;
    }
    if s.nsw {
      score := score + 5;
    }
    if s.postcodeInTitle {
      score := score + 5;
    }
    if s.postcodeInContent {
      score := score + 5;
    }
  }

  /** Address, street, phone and host-name relevance. */
  method EvidenceScore(s: Signals) returns (score: int)
    ensures 0 <= score <= 58
  {
    score := 0;
    if s.addressHit {
      score := score + 20;
    }
    if s.streetHit {
      score := score + 10;
    }
    if s.streetPostcodeHit {
      score := score + 8;
    }
    if s.contact {
      score := score + 12;
    }
    if s.empireBrand {
      if s.empireHost {
        score := score + 8;
      }
    } else {
      score := score + Min(6, s.inHost * 2);
    }
  }

  /** The penalties: a known-irrelevant host, a US mention, a brand with no strong support. */
  method Penalize(s: Signals, score0: int) returns (score: int)
    ensures score <= score0
    ensures score0 - 38 <= score
  {
    score := score0;
    if s.negHost {
      score := score - 20;
    }
    if s.usMention {
      score := score - 10;
    }
    if |s.brandTokens| > 0 && Unsupported(s) {
      score := score - 8;
    }
  }

  /** The guards: each one that applies takes its penalty and caps the score. */
  method Guard(s: Signals, score0: int) returns (score: int)
    ensures score <= score0
    ensures s.wrongLocation ==> score <= 24
    ensures s.occupationOnly ==> score <= 22
    ensures s.jobBoard && Unsupported(s) ==> score <= 20
    ensures s.sourceType == Queries.WebSource && Unsupported(s) ==> score <= 20
  {
    score := score0;
    if s.wrongLocation {
      score := Min(score - 12, 24);
    }
    if s.occupationOnly {
      score := Min(score - 10, 22);
    }
    if s.jobBoard && Unsupported(s) {
      score := Min(score - 10, 20);
    }
    if s.sourceType == Queries.WebSource && Unsupported(s) {
      if s.webGenericWeak {
        score := score - 6;
      }
      score := Min(score, 20);
    }
  }

  /** The Facebook heuristics: low-value paths and hits with no geo signal are cut down;
      a likely business page gains two points. */
  method FacebookAdjust(s: Signals, score0: int) returns (score: int)
    ensures !s.facebook ==> score == score0
    ensures score <= score0 + 2
    ensures s.facebook && !s.geo ==> score <= 24 && score <= score0 - 4
    ensures s.facebook && s.fbLowValue && Unsupported(s) ==> score <= 12
  {
    score := score0;
    if s.facebook {
      if s.fbLowValue && Unsupported(s) {
        score := Min(score - 12, 18);
      }
      if !s.geo {
        score := Min(score - 6, 22);
      }
      if !s.fbLowValue && s.fbShortPath {
        score := score + 2;
      }
    }
  }

  /** `scoreItem(item)` on the observations of one hit: the bonuses in source order, the
      penalties, then the guards that cap the running score. */
  method ScoreItem(cfg: Queries.Config, s: Signals) returns (r: Scored)
    ensures r == Scored(r.score, s.exact, s.bigram, s.contact, s.geo, s.wrongLocation,
                        s.occupationOnly, s.jobBoard)
    ensures r.score <= 153
    ensures s.jobBoard && Unsupported(s) ==> r.score <= 20
    ensures s.sourceType == Queries.WebSource && Unsupported(s) ==> r.score <= 20
    ensures s.wrongLocation && !s.facebook ==> r.score <= 24
    ensures s.occupationOnly && !s.facebook ==> r.score <= 22
    ensures s.facebook && !s.geo ==> r.score <= 24
    ensures s.facebook && s.fbLowValue && Unsupported(s) ==> r.score <= 12
  {
    var host := HostClassScore(s);
    var name := NameScore(cfg, s);
    var geo := GeoScore(s);
    var evidence := EvidenceScore(s);
    var score := Penalize(s, host + name + geo + evidence);
    score := Guard(s, score);
    score := FacebookAdjust(s, score);
    r := Scored(score, s.exact, s.bigram, s.contact, s.geo, s.wrongLocation, s.occupationOnly, s.jobBoard);
  }

  /** A group, reel, post or profile path of Facebook (lower-cased). */
  predicate FacebookLowValue(p: string)
  {
    || Contains(p, "/groups/")
    || Contains(p, "/reel/") || Contains(p, "/reels/") || Contains(p, "/watch/")
    || Contains(p, "/post/") || Contains(p, "/posts/") || Contains(p, "/permalink/")
    || Contains(p, "/story.php")
    || Contains(p, "/people/") || Contains(p, "/profile.php")
  }

  /** Scores one hit: its observations, then the rules. */
  method ScoreHit(known: Queries.KnownHosts, cfg: Queries.Config, g: Golden, h: Hit) returns (r: Scored)
    ensures r.jobBoard && NoSupport(r) ==> r.score <= 20
    ensures h.sourceType == Queries.WebSource && NoSupport(r) ==> r.score <= 20
    ensures r.wrongLocation && !IsFacebookHost(h.host) ==> r.score <= 24
    ensures r.occupationOnly && !IsFacebookHost(h.host) ==> r.score <= 22
  {
    var s := Observe(known, g, h);
    assert s.sourceType == h.sourceType && s.facebook == IsFacebookHost(h.host);
    r := ScoreItem(cfg, s);
  }

}
