/** Search-query synthesis, host classification, the selection tunables and the website
    key of the discovery route (src/app/api/audit/discovery/urls/route.ts). */
module Queries {
  import opened Strings
  import Fuzzy
  import Address
  import Directories
  import Web

  // ---------------------------------------------------------------------------
  // classifyHost

  /** The `source_type` a search hit is given. */
  datatype SourceType = SocialSource | DirectorySource | PlacesSource | WebSource

  /** `matchDomain(h, d)`: `h` is `d` or a sub-domain of it. */
  predicate MatchDomain(h: string, d: string)
  {
    h == d || EndsWith(h, "." + d)
  }

  /** `ds.some(d => matchDomain(h, d))` */
  function MatchesAny(h: string, ds: seq<string>): (b: bool)
    ensures b <==> exists i :: 0 <= i < |ds| && MatchDomain(h, ds[i])
  {
    if |ds| == 0 then false
    else MatchDomain(h, ds[0]) || MatchesAny(h, ds[1..])
  }

  /** `/google\.[^/]*\/maps/i` matches `host` with "google." at `i` and "/maps" at `j`. */
  predicate GoogleMapsAt(host: string, i: nat, j: nat)
  {
    && i + 7 <= j && j + 5 <= |host|
    && (forall k :: 0 <= k < 7 ==> Address.UpperAscii(host[i + k]) == "GOOGLE."[k])
    && (forall k :: i + 7 <= k < j ==> host[k] != '/')
    && (forall k :: 0 <= k < 5 ==> Address.UpperAscii(host[j + k]) == "/MAPS"[k])
  }

  predicate GoogleMapsPattern(host: string)
  {
    exists i: nat, j: nat :: i < |host| && j < |host| && GoogleMapsAt(host, i, j)
  }

  /** `KNOWN_MAPS`, `KNOWN_SOCIAL` and `KNOWN_DIRECTORIES`. The route binds them to the
      registry's derived lists (`Registry`); the operations take them as a value so that
      their proofs do not depend on the table's contents. */
  datatype KnownHosts = KnownHosts(maps: seq<string>, social: seq<string>, directories: seq<string>)

  /** The lists the route uses: `AU_MAPS_PLACES_HOSTS`, `AU_SOCIAL_HOSTS`, `AU_DIRECTORY_HOSTS`. */
  function Registry(): KnownHosts
  {
    KnownHosts(Directories.AuMapsPlacesHosts, Directories.AuSocialHosts, Directories.AuDirectoryHosts)
  }

  /** `classifyHost(host)`: maps providers (or the Google Maps pattern) first, then social
      networks, then listing directories, each with a dot-boundary domain match. */
  function ClassifyHost(known: KnownHosts, host: string): (r: SourceType)
    ensures r == PlacesSource <==>
      (exists i :: 0 <= i < |known.maps| && MatchDomain(host, known.maps[i])) || GoogleMapsPattern(host)
    ensures r == SocialSource <==>
      r != PlacesSource && exists i :: 0 <= i < |known.social| && MatchDomain(host, known.social[i])
    ensures r == DirectorySource <==>
      && r != PlacesSource && r != SocialSource
      && exists i :: 0 <= i < |known.directories| && MatchDomain(host, known.directories[i])
  {
    if MatchesAny(host, known.maps) || GoogleMapsPattern(host) then PlacesSource
    else if MatchesAny(host, known.social) then SocialSource
    else if MatchesAny(host, known.directories) then DirectorySource
    else WebSource
  }

  /** A domain match is the domain itself or the domain preceded by a dot. */
  lemma MatchDomainDotBoundary(h: string, d: string)
    requires MatchDomain(h, d)
    ensures EndsWith(h, d)
    ensures h == d || (|h| > |d| && h[|h| - |d| - 1] == '.')
  {
    if h != d {
      assert h[|h| - |d|..] == ("." + d)[1..];
    }
  }

  /** Unlike the plain `endsWith` of the scrape and report routes, "fox.com" is not a
      domain match for "x.com". */
  lemma FoxIsNotUnderX()
    ensures EndsWith("fox.com", "x.com") && !MatchDomain("fox.com", "x.com")
  {
    assert "fox.com"[2..] == "x.com";
    assert "fox.com"[1..] != ".x.com" by { assert "fox.com"[1] != '.'; }
  }

  /** A host name holds no '/', so only the listed maps domains make it a places host. */
  lemma GoogleMapsNeedsSlash(host: string)
    requires forall k :: 0 <= k < |host| ==> host[k] != '/'
    ensures !GoogleMapsPattern(host)
  {
    forall i: nat, j: nat
      ensures !GoogleMapsAt(host, i, j)
    {
      NoGoogleMapsAt(host, i, j);
    }
  }

  lemma NoGoogleMapsAt(host: string, i: nat, j: nat)
    requires forall k :: 0 <= k < |host| ==> host[k] != '/'
    ensures !GoogleMapsAt(host, i, j)
  {
    if j + 5 <= |host| {
      assert host[j] != '/';
      assert Address.UpperAscii(host[j + 0]) != "/MAPS"[0];
    }
  }

  /** `JOB_BOARD_HOSTS` */
  const JobBoardHosts: seq<string> :=
    ["healthcarelink.com.au", "seek.com.au", "indeed.com.au", "jora.com", "careerone.com.au",
     "glassdoor.com.au"]

  /** `isJobBoard(host)` */
  function IsJobBoard(host: string): (b: bool)
    ensures b <==> exists i :: 0 <= i < |JobBoardHosts| && MatchDomain(host, JobBoardHosts[i])
  {
    MatchesAny(host, JobBoardHosts)
  }

  /** A sub-domain of a job board is a job board. */
  lemma JobBoardSubdomain()
    ensures IsJobBoard("au.indeed.com.au")
  {
    var h, d := "au.indeed.com.au", JobBoardHosts[2];
    assert d == "indeed.com.au";
    assert h[|h| - |"." + d|..] == "." + d;
    assert MatchDomain(h, d);
  }

  /** `h` is neither `d` nor a sub-domain of it when the character before the would-be
      suffix is not a dot (or there is no room for the dot). */
  lemma NotSubdomain(h: string, d: string)
    requires h != d
    requires |d| + 1 <= |h| ==> h[|h| - |d| - 1] != '.'
    ensures !MatchDomain(h, d)
  {
    if |d| + 1 <= |h| {
      assert h[|h| - |d| - 1..][0] == h[|h| - |d| - 1];
    }
  }

  /** A host that merely ends in a job board's name is not a job board. */
  lemma JobBoardDotBoundary()
    ensures !IsJobBoard("myseek.com.au")
  {
    var h := "myseek.com.au";
    assert h[0] == 'm' && h[1] == 'y' && h[4] == 'e';
    NotSubdomain(h, JobBoardHosts[0]);
    NotSubdomain(h, JobBoardHosts[1]);
    NotSubdomain(h, JobBoardHosts[2]);
    NotSubdomain(h, JobBoardHosts[3]);
    NotSubdomain(h, JobBoardHosts[4]);
    NotSubdomain(h, JobBoardHosts[5]);
  }

  // ---------------------------------------------------------------------------
  // Tunables: parseHostOverrides, minScoreFor, capFor

  /** The environment-derived tunables of scoring and selection. */
  datatype Config = Config(
    fuzzyMaxBonus: int,
    minSocial: int, minDirectory: int, minPlaces: int, minWeb: int,
    capSocial: int, capDirectory: int, capPlaces: int, capWeb: int,
    hostCapOverrides: map<string, int>)

  /** The tunables when no environment variable is set. */
  const DefaultConfig: Config := Config(6, 16, 16, 16, 16, 4, 4, 4, 4, map[])

  /** `minScoreFor(t)` */
  function MinScoreFor(cfg: Config, t: SourceType): (r: int)
    ensures t == SocialSource ==> r == cfg.minSocial
    ensures t == DirectorySource ==> r == cfg.minDirectory
    ensures t == PlacesSource ==> r == cfg.minPlaces
    ensures t == WebSource ==> r == cfg.minWeb
  {
    match t
    case SocialSource => cfg.minSocial
    case DirectorySource => cfg.minDirectory
    case PlacesSource => cfg.minPlaces
    case WebSource => cfg.minWeb
  }

  /** `capFor(host, t)`: a per-host override wins over the per-type cap. */
  function CapFor(cfg: Config, host: string, t: SourceType): (r: int)
    ensures host in cfg.hostCapOverrides ==> r == cfg.hostCapOverrides[host]
    ensures host !in cfg.hostCapOverrides && t == SocialSource ==> r == cfg.capSocial
    ensures host !in cfg.hostCapOverrides && t == DirectorySource ==> r == cfg.capDirectory
    ensures host !in cfg.hostCapOverrides && t == PlacesSource ==> r == cfg.capPlaces
    ensures host !in cfg.hostCapOverrides && t == WebSource ==> r == cfg.capWeb
  {
    if host in cfg.hostCapOverrides then cfg.hostCapOverrides[host]
    else match t
      case SocialSource => cfg.capSocial
      case DirectorySource => cfg.capDirectory
      case PlacesSource => cfg.capPlaces
      case WebSource => cfg.capWeb
  }

  /** With no environment set, every type needs 16 points and keeps 4 hits per host. */
  lemma DefaultTunables(host: string, t: SourceType)
    ensures MinScoreFor(DefaultConfig, t) == 16
    ensures CapFor(DefaultConfig, host, t) == 4
    ensures DefaultConfig.fuzzyMaxBonus == 6
  {
  }

  /** A separator of an override entry: `[=:\s]`. */
  predicate IsOverrideSep(c: char) { c == '=' || c == ':' || IsSpace(c) }

  /** `part.split(/[=:\s]/)`: never empty, keeps empty pieces. */
  function SplitSeps(s: string): (r: seq<string>)
    ensures |r| >= 1
    ensures forall i, k :: 0 <= i < |r| && 0 <= k < |r[i]| ==> !IsOverrideSep(r[i][k])
  {
    if |s| == 0 then [""]
    else
      var rest := SplitSeps(s[1..]);
      if IsOverrideSep(s[0]) then [""] + rest else [[s[0]] + rest[0]] + rest[1..]
  }

  /** The longest prefix of ASCII digits. */
  function DigitPrefix(s: string): (r: string)
    ensures r <= s
    ensures forall i :: 0 <= i < |r| ==> IsDigit(r[i])
    ensures |r| < |s| ==> !IsDigit(s[|r|])
  {
    if |s| == 0 || !IsDigit(s[0]) then "" else [s[0]] + DigitPrefix(s[1..])
  }

  /** The value of a string of decimal digits. */
  function DecimalValue(ds: string): (n: int)
    requires forall i :: 0 <= i < |ds| ==> IsDigit(ds[i])
    ensures n >= 0
  {
    if |ds| == 0 then 0
    else
      assert IsDigit(ds[|ds| - 1]);
      10 * DecimalValue(ds[..|ds| - 1]) + (ds[|ds| - 1] as int - '0' as int)
  }

  /** `parseInt(s, 10)` on a trimmed string: an optional sign and the digits that follow
      it; `None` (NaN) when there is no digit. */
  function ParseInt(s: string): (r: Option<int>)
    ensures r.Some? ==> exists k :: 0 <= k < |s| && IsDigit(s[k])
  {
    var neg := |s| > 0 && s[0] == '-';
    var body := if |s| > 0 && (s[0] == '-' || s[0] == '+') then s[1..] else s;
    var ds := DigitPrefix(body);
    if ds == "" then None
    else
      assert IsDigit(body[0]);
      Some(if neg then 0 - DecimalValue(ds) else DecimalValue(ds))
  }

  /** A string of digits is its own digit prefix. */
  lemma {:induction false} DigitPrefixOfDigits(s: string)
    requires forall i :: 0 <= i < |s| ==> IsDigit(s[i])
    ensures DigitPrefix(s) == s
  {
    if |s| > 0 {
      DigitPrefixOfDigits(s[1..]);
    }
  }

  /** `parseInt` reads a string of digits as its value. */
  lemma ParseIntDigits(ds: string)
    requires |ds| > 0 && forall i :: 0 <= i < |ds| ==> IsDigit(ds[i])
    ensures ParseInt(ds) == Some(DecimalValue(ds))
  {
    DigitPrefixOfDigits(ds);
    assert ds[0] != '-' && ds[0] != '+' by { assert IsDigit(ds[0]); }
    assert |DigitPrefix(ds)| > 0;
  }

  /** A leading minus sign negates what `parseInt` reads from an unsigned rest. */
  lemma ParseIntMinus(body: string, v: int)
    requires |body| > 0 ==> body[0] != '-' && body[0] != '+'
    requires ParseInt(body) == Some(v)
    ensures ParseInt("-" + body) == Some(0 - v)
  {
    var s := "-" + body;
    assert s[1..] == body;
  }

  /** `parseInt` reads a minus sign and a string of digits as the negated value. */
  lemma ParseIntNegative(ds: string)
    requires |ds| > 0 && forall i :: 0 <= i < |ds| ==> IsDigit(ds[i])
    ensures ParseInt("-" + ds).Some? && ParseInt("-" + ds).value == 0 - DecimalValue(ds)
  {
    var v := DecimalValue(ds);
    ParseIntDigits(ds);
    assert ds[0] != '-' && ds[0] != '+' by { assert IsDigit(ds[0]); }
    ParseIntMinus(ds, v);
  }

  /** The decimal value of `String(n)` is `n`. */
  lemma {:induction false} DecimalValueOfNatToString(n: nat)
    ensures DecimalValue(NatToString(n)) == n
    decreases n
  {
    var s := NatToString(n);
    if n >= 10 {
      assert s[..|s| - 1] == NatToString(n / 10);
      DecimalValueOfNatToString(n / 10);
    }
  }

  /** `parseInt(String(n), 10)` is `n`: the fallback defaults of the tunables read back as
      the numbers they were written from. */
  lemma ParseIntOfString(n: nat)
    ensures ParseInt(NatToString(n)) == Some(n)
  {
    ParseIntDigits(NatToString(n));
    DecimalValueOfNatToString(n);
  }

  /** One usable override entry: the host and its cap. */
  datatype Override = Override(host: string, cap: int)

  /** The key and the parsed count of one override entry, when both are usable. */
  function OverrideEntry(part: string): (r: Option<Override>)
    ensures r.Some? ==> r.value.host != "" && forall k :: 0 <= k < |r.value.host| ==> !IsOverrideSep(r.value.host[k])
  {
    var pieces := SplitSeps(part);
    var key := pieces[0];
    var n := ParseInt(Trim(if |pieces| >= 2 then pieces[1] else ""));
    if key != "" && n.Some? then
      assert Trim(key) == key by { TrimNoSpace(key); }
      Some(Override(Trim(key), n.value))
    else None
  }

  /** Folds the parsed entries in order, so that a later entry for the same host wins. */
  function OverridesFrom(entries: seq<Option<Override>>): map<string, int>
  {
    if |entries| == 0 then map[]
    else
      var prev := OverridesFrom(entries[..|entries| - 1]);
      match entries[|entries| - 1]
      case None => prev
      case Some(e) => prev[e.host := e.cap]
  }

  function ParseEntries(parts: seq<string>): (r: seq<Option<Override>>)
    ensures |r| == |parts| && forall i :: 0 <= i < |parts| ==> r[i] == OverrideEntry(parts[i])
  {
    if |parts| == 0 then [] else [OverrideEntry(parts[0])] + ParseEntries(parts[1..])
  }

  /** `parseHostOverrides(s)`: "host=n" entries separated by commas. */
  function ParseHostOverrides(s: string): map<string, int>
  {
    OverridesFrom(ParseEntries(Filter(TrimAll(Split(s, ',')), Fuzzy.NonEmpty)))
  }

  function TrimAll(xs: seq<string>): (r: seq<string>)
    ensures |r| == |xs| && forall i :: 0 <= i < |xs| ==> r[i] == Trim(xs[i])
  {
    if |xs| == 0 then [] else [Trim(xs[0])] + TrimAll(xs[1..])
  }

  /** Every override comes from a usable entry of the setting. */
  lemma {:induction false} OverridesFromEntries(entries: seq<Option<Override>>)
    ensures forall h :: h in OverridesFrom(entries) ==>
      exists i :: 0 <= i < |entries| && entries[i] == Some(Override(h, OverridesFrom(entries)[h]))
  {
    if |entries| > 0 {
      var init := entries[..|entries| - 1];
      var last := |entries| - 1;
      var m := OverridesFrom(entries);
      OverridesFromEntries(init);
      forall h | h in m
        ensures exists i :: 0 <= i < |entries| && entries[i] == Some(Override(h, m[h]))
      {
        if entries[last].Some? && entries[last].value.host == h {
          assert entries[last] == Some(Override(h, m[h]));
        } else {
          assert h in OverridesFrom(init) && m[h] == OverridesFrom(init)[h];
          var i :| 0 <= i < |init| && init[i] == Some(Override(h, OverridesFrom(init)[h]));
          assert entries[i] == init[i];
        }
      }
    }
  }

  /** Every usable entry's host is overridden. */
  lemma {:induction false} OverridesCoverEntries(entries: seq<Option<Override>>)
    ensures forall i :: 0 <= i < |entries| && entries[i].Some? ==>
      entries[i].value.host in OverridesFrom(entries)
  {
    if |entries| > 0 {
      var init := entries[..|entries| - 1];
      OverridesCoverEntries(init);
      assert forall i :: 0 <= i < |init| ==> init[i] == entries[i];
    }
  }

  /** The last usable entry for a host decides its cap. */
  lemma {:induction false} OverridesLastWins(entries: seq<Option<Override>>, i: nat)
    requires i < |entries| && entries[i].Some?
    requires forall k :: i < k < |entries| && entries[k].Some? ==>
      entries[k].value.host != entries[i].value.host
    ensures entries[i].value.host in OverridesFrom(entries)
    ensures OverridesFrom(entries)[entries[i].value.host] == entries[i].value.cap
  {
    if i < |entries| - 1 {
      var init := entries[..|entries| - 1];
      assert init[i] == entries[i];
      OverridesLastWins(init, i);
    }
  }

  /** An unset or blank setting overrides nothing. */
  lemma NoOverridesWhenBlank(s: string)
    requires forall k :: 0 <= k < |s| ==> IsSpace(s[k])
    ensures ParseHostOverrides(s) == map[]
  {
    var pieces := Split(s, ',');
    assert forall i :: 0 <= i < |pieces| ==> Trim(pieces[i]) == "" by {
      forall i | 0 <= i < |pieces|
        ensures Trim(pieces[i]) == ""
      {
        SplitPiecesAreSpace(s, i);
      }
    }
    var trimmed := TrimAll(pieces);
    FilterNone(trimmed, Fuzzy.NonEmpty);
    assert ParseEntries(Filter(trimmed, Fuzzy.NonEmpty)) == [];
  }

  lemma {:induction false} FilterNone<T(!new)>(xs: seq<T>, f: T -> bool)
    requires forall i :: 0 <= i < |xs| ==> !f(xs[i])
    ensures Filter(xs, f) == []
  {
    if |xs| > 0 {
      FilterNone(xs[1..], f);
    }
  }

  lemma {:induction false} SplitPiecesAreSpace(s: string, i: nat)
    requires forall k :: 0 <= k < |s| ==> IsSpace(s[k])
    requires i < |Split(s, ',')|
    ensures Trim(Split(s, ',')[i]) == ""
  {
    AllSpaceTrim(Split(s, ',')[i]) by {
      SplitOfSpaces(s);
    }
  }

  lemma {:induction false} SplitOfSpaces(s: string)
    requires forall k :: 0 <= k < |s| ==> IsSpace(s[k])
    ensures forall i, k :: 0 <= i < |Split(s, ',')| && 0 <= k < |Split(s, ',')[i]| ==>
      IsSpace(Split(s, ',')[i][k])
  {
    if |s| > 0 {
      SplitOfSpaces(s[1..]);
    }
  }

  lemma AllSpaceTrim(t: string)
    requires forall k :: 0 <= k < |t| ==> IsSpace(t[k])
    ensures Trim(t) == ""
  {
  }

  // ---------------------------------------------------------------------------
  // websiteNormalized

  /** The recorded website as the exclusion key, or `None` when there is no website or it
      does not parse. */
  function WebsiteNormalized(parse: Web.UrlParser, website: string): (r: Option<string>)
    ensures r.Some? ==> EndsWith(r.value, "/")
    ensures r.Some? <==> website != "" && parse(website).Some?
  {
    if website == "" then None
    else match parse(website)
      case None => None
      case Some(u) => Some(Web.SlashKey(u))
  }

  /** The key ignores the query and the fragment of the URL. */
  lemma SlashKeyIgnoresQueryAndFragment(u: Web.Url, q: string, f: string)
    ensures Web.SlashKey(u.(query := q, fragment := f)) == Web.SlashKey(u)
  {
  }

  /** A site root is keyed the same with or without its trailing slash. */
  lemma SlashKeyRoot(u: Web.Url)
    requires u.path == "" || u.path == "/"
    ensures Web.SlashKey(u.(path := "")) == Web.SlashKey(u.(path := "/"))
  {
  }

  // ---------------------------------------------------------------------------
  // buildQueries

  /** The golden-record fields query synthesis reads; an absent field is "". */
  datatype QueryInput = QueryInput(name: string, address: string, phone: string, cityGuess: string)

  function Quote(s: string): string { "\"" + s + "\"" }

  /** `[x]` when `c` holds, else nothing: one conditional `q.push(x)`. */
  function When(c: bool, x: string): (r: seq<string>)
    ensures c ==> r == [x]
    ensures !c ==> r == []
  {
    if c then [x] else []
  }

  /** `s.replace(/[’']/g, '')` */
  function StripApostrophes(s: string): (r: string)
    ensures |r| <= |s|
    ensures |s| == 0 ==> r == ""
  {
    if |s| == 0 then ""
    else (if s[0] == '\'' || s[0] == '’' then "" else [s[0]]) + StripApostrophes(s[1..])
  }

  /** The apostrophe-less name, when it is non-empty and differs from the name. */
  predicate HasNoAposVariant(inp: QueryInput)
  {
    var n := StripApostrophes(inp.name);
    n != "" && n != inp.name
  }

  /** `address.split(',')[0]?.trim()` */
  function FirstLine(address: string): string
  {
    Trim(Split(address, ',')[0])
  }

  function OptText(o: Option<string>): string
  {
    match o
    case Some(v) => v
    case None => ""
  }

  /** The queries on the name, pushed before the per-host loops. */
  function NameQueries(inp: QueryInput): (r: seq<string>)
    ensures inp.name == "" ==> r == []
    ensures inp.name != "" && Digits(inp.phone) != "" ==> |r| > 0 && r[0] == Quote(inp.name) + " " + Digits(inp.phone)
    ensures inp.name != "" && inp.cityGuess != "" ==> Quote(inp.name) + " " + inp.cityGuess in r
  {
    var name, city, phone := inp.name, inp.cityGuess, Digits(inp.phone);
    var state := OptText(Address.StateFromAddress(inp.address));
    var noApos := StripApostrophes(name);
    When(name != "" && phone != "", Quote(name) + " " + phone) + NameQueriesAfterPhone(inp)
  }

  function NameQueriesAfterPhone(inp: QueryInput): (r: seq<string>)
    ensures inp.name == "" ==> r == []
  {
    var name, city := inp.name, inp.cityGuess;
    var state := OptText(Address.StateFromAddress(inp.address));
    var noApos := StripApostrophes(name);
    var named := name != "";
    When(named && inp.address != "", Quote(name) + " " + inp.address)
    + When(named && city != "", Quote(name) + " " + city)
    + When(named && city != "" && state != "", Quote(name) + " " + city + " " + state)
    + When(named && city != "", name + " " + city + " site:.au")
    + When(named && state != "", name + " " + state + " site:.au")
    + When(HasNoAposVariant(inp), Quote(noApos))
    + When(HasNoAposVariant(inp) && city != "", Quote(noApos) + " " + city)
    + When(HasNoAposVariant(inp) && state != "", noApos + " " + state + " site:.au")
  }

  /** The queries on the first two name variants that differ from the normalised name. */
  function VariantQueries(inp: QueryInput): (r: seq<string>)
    ensures Fuzzy.NameVariants(inp.name) == [] ==> r == []
    ensures |r| <= 2
  {
    var vs := Take(Fuzzy.NameVariants(inp.name), 2);
    var base := Fuzzy.NormalizeSimple(inp.name);
    if |vs| == 0 then []
    else
      var first := When(vs[0] != base, if inp.cityGuess != "" then Quote(vs[0]) + " " + inp.cityGuess else Quote(vs[0]));
      if |vs| == 1 then first
      else first + When(vs[1] != base, if inp.cityGuess != "" then Quote(vs[1]) + " " + inp.cityGuess else Quote(vs[1]))
  }

  /** The phone-only and address-only broad queries. */
  function ContactQueries(inp: QueryInput): (r: seq<string>)
    ensures Digits(inp.phone) == "" && inp.address == "" ==> r == []
    ensures Digits(inp.phone) != "" ==> |r| >= 2 && r[0] == Digits(inp.phone) && r[1] == Digits(inp.phone) + " site:.au"
    ensures inp.address != "" ==> Quote(inp.address) in r
  {
    var phone := PhoneQueries(Digits(inp.phone));
    var address := AddressQueries(inp);
    assert inp.address != "" ==> address[0] in phone + address;
    phone + address
  }

  /** The two phone-only queries, when there are digits. */
  function PhoneQueries(phone: string): (r: seq<string>)
    ensures phone == "" ==> r == []
    ensures phone != "" ==> r == [phone, phone + " site:.au"]
  {
    When(phone != "", phone) + When(phone != "", phone + " site:.au")
  }

  /** The address-only queries: the whole address, then its first line with the city,
      state and postcode. */
  function AddressQueries(inp: QueryInput): (r: seq<string>)
    ensures inp.address == "" ==> r == []
    ensures inp.address != "" ==> |r| > 0 && r[0] == Quote(inp.address)
  {
    var address, city := inp.address, inp.cityGuess;
    var state := OptText(Address.StateFromAddress(address));
    var postcode := OptText(Address.PostcodeFromAddress(address));
    var line := FirstLine(address);
    var hasLine := address != "" && line != "";
    When(address != "", Quote(address))
    + When(address != "" && city != "", Quote(address) + " " + city)
    + When(address != "" && postcode != "", Quote(address) + " " + postcode)
    + When(hasLine && city != "" && state != "", Quote(line) + " " + city + " " + state)
    + When(hasLine && city != "", Quote(line) + " " + city)
    + When(hasLine && postcode != "", Quote(line) + " " + postcode)
  }

  /** The queries pushed before the per-host loops, in push order. */
  function LeadQueries(inp: QueryInput): seq<string>
  {
    NameQueries(inp) + VariantQueries(inp) + ContactQueries(inp)
  }

  /** The queries pushed for one social host `d`, in push order: on the name, on the
      apostrophe-less name, on the first name variant, then on the phone and address. */
  function SocialSiteQueries(inp: QueryInput, d: string): (r: seq<string>)
    ensures inp.name == "" && inp.address == "" && Digits(inp.phone) == "" ==> r == []
    ensures inp.name != "" ==> "site:" + d + " " + Quote(inp.name) in r
    ensures Scoped(r, "site:" + d + " ")
  {
    var site := "site:" + d + " ";
    var named, unquoted := SiteNameQueries(inp, site), SiteAposQueries(inp, site);
    var variant, contact := SiteVariantQueries(inp, site), SiteContactQueries(inp, site);
    ScopedAppend(named, unquoted, site);
    ScopedAppend(named + unquoted, variant, site);
    ScopedAppend(named + unquoted + variant, contact, site);
    named + unquoted + variant + contact
  }

  /** Every query of `qs` starts with `site`. */
  predicate Scoped(qs: seq<string>, site: string)
  {
    forall k :: 0 <= k < |qs| ==> site <= qs[k]
  }

  lemma ScopedAppend(a: seq<string>, b: seq<string>, site: string)
    requires Scoped(a, site) && Scoped(b, site)
    ensures Scoped(a + b, site)
  {
    forall k | 0 <= k < |a + b|
      ensures site <= (a + b)[k]
    {
      if k >= |a| { assert (a + b)[k] == b[k - |a|]; }
    }
  }

  lemma WhenScoped(c: bool, site: string, x: string)
    ensures Scoped(When(c, site + x), site)
  {
  }

  /** The site queries on the quoted name, with the city and alone. */
  function SiteNameQueries(inp: QueryInput, site: string): (r: seq<string>)
    ensures Scoped(r, site)
    ensures inp.name == "" ==> r == []
    ensures inp.name != "" ==> site + Quote(inp.name) in r
  {
    WhenScoped(inp.name != "" && inp.cityGuess != "", site, Quote(inp.name) + " " + inp.cityGuess);
    WhenScoped(inp.name != "", site, Quote(inp.name));
    ScopedAppend(When(inp.name != "" && inp.cityGuess != "", site + (Quote(inp.name) + " " + inp.cityGuess)),
      When(inp.name != "", site + Quote(inp.name)), site);
    When(inp.name != "" && inp.cityGuess != "", site + (Quote(inp.name) + " " + inp.cityGuess))
    + When(inp.name != "", site + Quote(inp.name))
  }

  /** The site queries on the apostrophe-less name, with the city and alone. */
  function SiteAposQueries(inp: QueryInput, site: string): (r: seq<string>)
    ensures Scoped(r, site)
    ensures inp.name == "" ==> r == []
  {
    var noApos := StripApostrophes(inp.name);
    WhenScoped(HasNoAposVariant(inp) && inp.cityGuess != "", site, Quote(noApos) + " " + inp.cityGuess);
    WhenScoped(HasNoAposVariant(inp), site, Quote(noApos));
    ScopedAppend(When(HasNoAposVariant(inp) && inp.cityGuess != "", site + (Quote(noApos) + " " + inp.cityGuess)),
      When(HasNoAposVariant(inp), site + Quote(noApos)), site);
    When(HasNoAposVariant(inp) && inp.cityGuess != "", site + (Quote(noApos) + " " + inp.cityGuess))
    + When(HasNoAposVariant(inp), site + Quote(noApos))
  }

  /** The site queries on the first name variant, with the city and alone. */
  function SiteVariantQueries(inp: QueryInput, site: string): (r: seq<string>)
    ensures Scoped(r, site)
    ensures inp.name == "" ==> r == []
  {
    var vs := Take(Fuzzy.NameVariants(inp.name), 1);
    if |vs| == 1 && vs[0] != "" then
      WhenScoped(inp.cityGuess != "", site, Quote(vs[0]) + " " + inp.cityGuess);
      WhenScoped(true, site, Quote(vs[0]));
      ScopedAppend(When(inp.cityGuess != "", site + (Quote(vs[0]) + " " + inp.cityGuess)), When(true, site + Quote(vs[0])), site);
      When(inp.cityGuess != "", site + (Quote(vs[0]) + " " + inp.cityGuess)) + When(true, site + Quote(vs[0]))
    else []
  }

  /** The site queries on the phone digits and on the first address line. */
  function SiteContactQueries(inp: QueryInput, site: string): (r: seq<string>)
    ensures Scoped(r, site)
    ensures inp.address == "" && Digits(inp.phone) == "" ==> r == []
  {
    var line, phone := FirstLine(inp.address), Digits(inp.phone);
    WhenScoped(phone != "", site, phone);
    WhenScoped(inp.address != "" && line != "", site, Quote(line));
    ScopedAppend(When(phone != "", site + phone), When(inp.address != "" && line != "", site + Quote(line)), site);
    When(phone != "", site + phone)
    + When(inp.address != "" && line != "", site + Quote(line))
  }

  /** The queries pushed for one listing-directory host `d`. */
  function DirectorySiteQueries(inp: QueryInput, d: string): (r: seq<string>)
    ensures inp.name == "" && inp.address == "" && Digits(inp.phone) == "" ==> r == []
    ensures |r| <= 4
    ensures Scoped(r, "site:" + d + " ")
    ensures inp.name != "" ==> "site:" + d + " " + Quote(inp.name) in r
    ensures Digits(inp.phone) != "" ==> "site:" + d + " " + Digits(inp.phone) in r
  {
    var phone, site := Digits(inp.phone), "site:" + d + " ";
    var named := SiteNameQueries(inp, site);
    WhenScoped(phone != "", site, phone);
    WhenScoped(inp.address != "", site, Quote(inp.address));
    ScopedAppend(named, When(phone != "", site + phone), site);
    ScopedAppend(named + When(phone != "", site + phone), When(inp.address != "", site + Quote(inp.address)), site);
    named + When(phone != "", site + phone) + When(inp.address != "", site + Quote(inp.address))
  }

  function SocialQueriesFor(inp: QueryInput): string -> seq<string>
  {
    d => SocialSiteQueries(inp, d)
  }

  function DirectoryQueriesFor(inp: QueryInput): string -> seq<string>
  {
    d => DirectorySiteQueries(inp, d)
  }

  /** Every query pushed, in push order, before de-duplication. */
  function Candidates(known: KnownHosts, inp: QueryInput): seq<string>
  {
    LeadQueries(inp)
    + FlatMap(known.social, SocialQueriesFor(inp))
    + FlatMap(known.directories, DirectoryQueriesFor(inp))
  }

  lemma {:induction false} FlatMapSnoc<T(!new), U(!new)>(xs: seq<T>, i: nat, f: T -> seq<U>)
    requires i < |xs|
    ensures FlatMap(xs[..i + 1], f) == FlatMap(xs[..i], f) + f(xs[i])
    decreases i
  {
    if i > 0 {
      assert xs[..i + 1][1..] == xs[1..][..i];
      assert xs[..i][1..] == xs[1..][..i - 1];
      FlatMapSnoc(xs[1..], i - 1, f);
    }
  }

  lemma {:induction false} FlatMapEmpty<T(!new), U(!new)>(xs: seq<T>, f: T -> seq<U>)
    requires forall x :: x in xs ==> f(x) == []
    ensures FlatMap(xs, f) == []
  {
    if |xs| > 0 {
      assert xs[0] in xs;
      assert forall x :: x in xs[1..] ==> x in xs;
      FlatMapEmpty(xs[1..], f);
    }
  }

  /** One `for (const d of hosts)` loop of `buildQueries`: pushes the queries of every host
      in turn. */
  method PushPerHost(q0: seq<string>, hosts: seq<string>, queriesFor: string -> seq<string>)
    returns (q: seq<string>)
    ensures q == q0 + FlatMap(hosts, queriesFor)
  {
    q := q0;
    var i := 0;
    while i < |hosts|
      invariant 0 <= i <= |hosts|
      invariant q == q0 + FlatMap(hosts[..i], queriesFor)
    {
      FlatMapSnoc(hosts, i, queriesFor);
      q := q + queriesFor(hosts[i]);
      i := i + 1;
    }
    assert hosts[..i] == hosts;
  }

  /** `buildQueries(input)`: pushes the lead queries, then the per-host queries of every
      social host and every listing directory, and returns them de-duplicated. */
  method BuildQueries(known: KnownHosts, inp: QueryInput) returns (r: seq<string>)
    ensures r == Dedup(Candidates(known, inp))
    ensures Distinct(r)
    ensures forall x :: x in r <==> x in Candidates(known, inp)
    ensures inp.name == "" && inp.address == "" && Digits(inp.phone) == "" ==> r == []
    ensures inp.name != "" && Digits(inp.phone) != "" ==>
      |r| > 0 && r[0] == Quote(inp.name) + " " + Digits(inp.phone)
  {
    var q := LeadQueries(inp);
    q := PushPerHost(q, known.social, SocialQueriesFor(inp));
    q := PushPerHost(q, known.directories, DirectoryQueriesFor(inp));
    r := Dedup(q);
    if inp.name == "" && inp.address == "" && Digits(inp.phone) == "" {
      NoQueriesWithoutRecord(known, inp);
    }
    if inp.name != "" && Digits(inp.phone) != "" {
      PhoneQueryFirst(known, inp);
      DedupHead(q);
    }
  }

  /** With a name and a phone, the quoted name with the phone digits is pushed first. */
  lemma PhoneQueryFirst(known: KnownHosts, inp: QueryInput)
    requires inp.name != "" && Digits(inp.phone) != ""
    ensures |Candidates(known, inp)| > 0
    ensures Candidates(known, inp)[0] == Quote(inp.name) + " " + Digits(inp.phone)
  {
    var first := Quote(inp.name) + " " + Digits(inp.phone);
    assert NameQueries(inp)[0] == first;
    assert LeadQueries(inp)[0] == first;
  }

  /** With no name, address or phone digits there is nothing to search for. */
  lemma NoQueriesWithoutRecord(known: KnownHosts, inp: QueryInput)
    requires inp.name == "" && inp.address == "" && Digits(inp.phone) == ""
    ensures Candidates(known, inp) == []
  {
    assert Fuzzy.NormalizeSimple("") == "";
    assert VariantQueries(inp) == [];
    FlatMapEmpty(known.social, SocialQueriesFor(inp));
    FlatMapEmpty(known.directories, DirectoryQueriesFor(inp));
  }
}
