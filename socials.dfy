/** The social-link update of src/app/api/audit/socials/route.ts: which platform a URL
    belongs to, and the set-if-absent / replace / conflict rule on the stored
    `socials` object. The scrape route shares `detectSocialKey`'s host test. */
module Socials {
  import opened Strings
  import opened Web

  /** `isHttpUrl(u)`: a non-empty string that parses with protocol `http:` or `https:`. */
  function IsHttpUrl(parse: UrlParser, u: string): (b: bool)
    ensures u == "" || parse(u).None? ==> !b
    ensures parse(u).Some? && parse(u).value.scheme !in {"http:", "https:"} ==> !b
    ensures b ==> parse(u).value.scheme == "http:" || parse(u).value.scheme == "https:"
  {
    u != "" && parse(u).Some? && (parse(u).value.scheme == "http:" || parse(u).value.scheme == "https:")
  }

  /** The platform keys, in the order `detectSocialKey` tests them. */
  const SocialKeys: seq<string> := ["facebook", "instagram", "linkedin", "x", "youtube", "tiktok"]

  /** The host substrings that identify the platform `SocialKeys[i]`. */
  function Markers(key: string): seq<string>
  {
    match key
    case "facebook" => ["facebook.com"]
    case "instagram" => ["instagram.com"]
    case "linkedin" => ["linkedin.com"]
    case "x" => ["x.com", "twitter.com"]
    case "youtube" => ["youtube.com", "youtu.be"]
    case "tiktok" => ["tiktok.com"]
    case _ => []
  }

  predicate MentionsPlatform(host: string, key: string)
  {
    exists m :: m in Markers(key) && Contains(host, m)
  }

  /** The platform test written out key by key. */
  lemma MentionsByKey(host: string)
    ensures MentionsPlatform(host, "facebook") <==> Contains(host, "facebook.com")
    ensures MentionsPlatform(host, "instagram") <==> Contains(host, "instagram.com")
    ensures MentionsPlatform(host, "linkedin") <==> Contains(host, "linkedin.com")
    ensures MentionsPlatform(host, "x") <==> Contains(host, "x.com") || Contains(host, "twitter.com")
    ensures MentionsPlatform(host, "youtube") <==> Contains(host, "youtube.com") || Contains(host, "youtu.be")
    ensures MentionsPlatform(host, "tiktok") <==> Contains(host, "tiktok.com")
  {
    assert Markers("facebook") == ["facebook.com"];
    assert Markers("instagram") == ["instagram.com"];
    assert Markers("linkedin") == ["linkedin.com"];
    assert Markers("x") == ["x.com", "twitter.com"];
    assert Markers("youtube") == ["youtube.com", "youtu.be"];
    assert Markers("tiktok") == ["tiktok.com"];
  }

  /** The first platform of `keys` whose markers the host contains. */
  function FirstMentioned(host: string, keys: seq<string>): Option<string>
  {
    if |keys| == 0 then None
    else if MentionsPlatform(host, keys[0]) then Some(keys[0])
    else FirstMentioned(host, keys[1..])
  }

  /** The platform of a host name (without `www.`): the first of facebook, instagram,
      linkedin, x/twitter, youtube/youtu.be and tiktok whose marker it contains. */
  function SocialKeyOf(host: string): Option<string>
  {
    FirstMentioned(host, SocialKeys)
  }

  /** The search finds a platform the host mentions, none before it in `keys` is
      mentioned, and nothing is found exactly when no platform is mentioned. */
  lemma {:induction false} FirstMentionedSpec(host: string, keys: seq<string>)
    requires forall i, j :: 0 <= i < j < |keys| ==> keys[i] != keys[j]
    ensures var r := FirstMentioned(host, keys);
      && (r.Some? ==> r.value in keys && MentionsPlatform(host, r.value))
      && (r.Some? ==> forall i :: 0 <= i < |keys| && keys[i] == r.value ==>
            forall j :: 0 <= j < i ==> !MentionsPlatform(host, keys[j]))
      && (r.None? <==> forall k :: k in keys ==> !MentionsPlatform(host, k))
  {
    if |keys| > 0 {
      var tail := keys[1..];
      FirstMentionedSpec(host, tail);
      var r := FirstMentioned(host, keys);
      if !MentionsPlatform(host, keys[0]) {
        assert r == FirstMentioned(host, tail);
        assert forall k :: k in keys <==> k == keys[0] || k in tail;
        if r.Some? {
          forall i, j | 0 <= i < |keys| && keys[i] == r.value && 0 <= j < i
            ensures !MentionsPlatform(host, keys[j])
          {
            if j > 0 {
              assert tail[i - 1] == keys[i] && tail[j - 1] == keys[j];
            }
          }
        }
      }
    }
  }

  /** The platforms of `SocialKeys` are distinct. */
  lemma SocialKeysDistinct()
    ensures forall i, j :: 0 <= i < j < |SocialKeys| ==> SocialKeys[i] != SocialKeys[j]
  {
  }

  /** The platform found is one the host mentions, no platform before it in
      `SocialKeys` is mentioned, and none is found exactly when no platform is mentioned. */
  lemma SocialKeyOfSpec(host: string)
    ensures var r := SocialKeyOf(host);
      && (r.Some? ==> r.value in SocialKeys && MentionsPlatform(host, r.value))
      && (r.Some? ==> forall i :: 0 <= i < |SocialKeys| && SocialKeys[i] == r.value ==>
            forall j :: 0 <= j < i ==> !MentionsPlatform(host, SocialKeys[j]))
      && (r.None? <==> forall k :: k in SocialKeys ==> !MentionsPlatform(host, k))
  {
    SocialKeysDistinct();
    FirstMentionedSpec(host, SocialKeys);
  }

  /** `detectSocialKey`'s chain of `includes` tests, in its own order. */
  lemma SocialKeyOfChain(host: string)
    ensures SocialKeyOf(host) ==
      if Contains(host, "facebook.com") then Some("facebook")
      else if Contains(host, "instagram.com") then Some("instagram")
      else if Contains(host, "linkedin.com") then Some("linkedin")
      else if Contains(host, "x.com") || Contains(host, "twitter.com") then Some("x")
      else if Contains(host, "youtube.com") || Contains(host, "youtu.be") then Some("youtube")
      else if Contains(host, "tiktok.com") then Some("tiktok")
      else None
  {
    MentionsByKey(host);
    var t5 := ["tiktok"];
    var t4 := ["youtube"] + t5;
    var t3 := ["x"] + t4;
    var t2 := ["linkedin"] + t3;
    var t1 := ["instagram"] + t2;
    assert SocialKeys == ["facebook"] + t1;
    assert FirstMentioned(host, t5) == if MentionsPlatform(host, "tiktok") then Some("tiktok") else FirstMentioned(host, []);
    assert FirstMentioned(host, t4) == if MentionsPlatform(host, "youtube") then Some("youtube") else FirstMentioned(host, t5);
    assert FirstMentioned(host, t3) == if MentionsPlatform(host, "x") then Some("x") else FirstMentioned(host, t4);
    assert FirstMentioned(host, t2) == if MentionsPlatform(host, "linkedin") then Some("linkedin") else FirstMentioned(host, t3);
    assert FirstMentioned(host, t1) == if MentionsPlatform(host, "instagram") then Some("instagram") else FirstMentioned(host, t2);
  }

  /** `detectSocialKey(u)` on a parsed URL: the platform, and the URL with its query
      and fragment dropped. */
  function DetectSocialKey(u: Url): (Option<string>, string)
  {
    (SocialKeyOf(StripWww(u.hostname)), PathKey(u))
  }

  /** The request body fields the handler reads; "" is a missing field. */
  datatype SetRequest = SetRequest(businessId: string, auditId: string, url: string, key: string, replace: bool)

  /** The `social_set` snapshot row written for an audit: the key, its previous and new
      values, and the time of the change. */
  datatype SocialSetRow = SocialSetRow(businessId: string, auditId: string, source: string,
                                       key: string, prev: Option<Json>, next: Json, at: string)

  /** The answer, and for an update the snapshot row inserted when an audit is named. */
  datatype SetResponse =
    | Rejected(status: int, error: string)
    | Conflict(key: string, socials: map<string, Json>)
    | Updated(socials: map<string, Json>, key: string, prev: Option<Json>, next: Json, snapshot: Option<SocialSetRow>)

  /** `providedKey || detectedKey`, "" when there is neither. */
  function ChosenKey(parse: UrlParser, req: SetRequest): string
    requires IsHttpUrl(parse, req.url)
  {
    var detected := DetectSocialKey(parse(req.url).value).0;
    if req.key != "" then req.key else if detected.Some? then detected.value else ""
  }

  /** `socials[key] || null` */
  function PrevValue(socials: map<string, Json>, key: string): Option<Json>
  {
    if key in socials && !Falsy(socials[key]) then Some(socials[key]) else None
  }

  /** The write of `socials` back to the profile: a failed update is a 500 with the
      client's message; otherwise the update answer, with the snapshot row when an
      audit is named. */
  function Written(req: SetRequest, socials: map<string, Json>, key: string, prev: Option<Json>,
                   updateError: Option<string>, at: string): (r: SetResponse)
    requires key in socials
  {
    if updateError.Some? then Rejected(500, updateError.value)
    else
      var snapshot := if req.auditId != "" then Some(SocialSetRow(req.businessId, req.auditId, "manual", key, prev, socials[key], at)) else None;
      Updated(socials, key, prev, socials[key], snapshot)
  }

  /** The handler: validate, choose the key, load the profile, then set, replace or
      refuse, and write back. `profile` is the answer of the profile lookup,
      `updateError` the error of the update and `at` the time of the change. */
  function SetSocial(parse: UrlParser, req: SetRequest, profile: SingleRow<Json>, updateError: Option<string>,
                     at: string): (r: SetResponse)
    ensures req.businessId == "" || !IsHttpUrl(parse, req.url) ==> r == Rejected(400, "Missing businessId or invalid url")
    ensures req.businessId != "" && IsHttpUrl(parse, req.url) && ChosenKey(parse, req) != "" && RowMissing(profile) ==>
      r == Rejected(404, NotFoundMessage(profile))
    ensures r.Rejected? && r.status == 500 ==> updateError == Some(r.error)
    ensures r.Updated? ==>
      !RowMissing(profile) && updateError.None? && r.socials.Keys == Spread(profile.row.value).Keys + {r.key}
    ensures r.Updated? ==>
      !RowMissing(profile) && forall k :: k in r.socials && k != r.key ==> r.socials[k] == Spread(profile.row.value)[k]
    ensures r.Updated? ==> r.key in r.socials && r.next == r.socials[r.key]
    ensures r.Updated? ==> (r.snapshot.Some? <==> req.auditId != "")
    ensures r.Updated? && r.snapshot.Some? ==>
      r.snapshot.value == SocialSetRow(req.businessId, req.auditId, "manual", r.key, r.prev, r.next, at)
    ensures r.Conflict? ==> !RowMissing(profile) && r.socials == Spread(profile.row.value)
  {
    if req.businessId == "" || !IsHttpUrl(parse, req.url) then Rejected(400, "Missing businessId or invalid url")
    else
      var normalized := DetectSocialKey(parse(req.url).value).1;
      var key := ChosenKey(parse, req);
      if key == "" then Rejected(400, "Unsupported social URL")
      else if RowMissing(profile) then Rejected(404, NotFoundMessage(profile))
      else
        var socials := Spread(profile.row.value);
        var prev := PrevValue(socials, key);
        if req.replace || prev.None? then Written(req, socials[key := JStr(normalized)], key, prev, updateError, at)
        else if prev.value != JStr(normalized) then Conflict(key, socials)
        else Written(req, socials, key, prev, updateError, at)
  }

  /** Which key the handler writes: the caller's key when given, otherwise the detected
      platform; with neither the request is refused. */
  lemma KeyChoice(parse: UrlParser, req: SetRequest, profile: SingleRow<Json>, updateError: Option<string>, at: string)
    requires req.businessId != "" && IsHttpUrl(parse, req.url) && !RowMissing(profile)
    ensures var r := SetSocial(parse, req, profile, updateError, at);
      var detected := DetectSocialKey(parse(req.url).value).0;
      && (req.key != "" || detected.Some? ==>
            r.Updated? || r.Conflict? || (updateError.Some? && r == Rejected(500, updateError.value)))
      && (req.key != "" && !r.Rejected? ==> r.key == req.key)
      && (req.key == "" && detected.Some? && !r.Rejected? ==> r.key == detected.value)
      && (req.key == "" && detected.None? ==> r == Rejected(400, "Unsupported social URL"))
  {
    SocialKeyOfSpec(StripWww(parse(req.url).value.hostname));
    var r := SetSocial(parse, req, profile, updateError, at);
    var key := ChosenKey(parse, req);
    if key != "" {
      var normalized := DetectSocialKey(parse(req.url).value).1;
      var socials := Spread(profile.row.value);
      var prev := PrevValue(socials, key);
      if req.replace || prev.None? {
        assert r == Written(req, socials[key := JStr(normalized)], key, prev, updateError, at);
      } else if prev.value != JStr(normalized) {
        assert r == Conflict(key, socials);
      } else {
        assert r == Written(req, socials, key, prev, updateError, at);
      }
    }
  }

  /** The set/replace/conflict rule: with `replace`, or with no previous value, the key
      is set to the normalised URL; a different previous value without `replace` is a
      conflict that writes nothing; the same value again leaves `socials` unchanged; a
      failed write is a 500. */
  lemma SetRule(parse: UrlParser, req: SetRequest, profile: SingleRow<Json>, updateError: Option<string>, at: string)
    requires req.businessId != "" && IsHttpUrl(parse, req.url) && ChosenKey(parse, req) != "" && !RowMissing(profile)
    ensures var r := SetSocial(parse, req, profile, updateError, at);
      var normalized := PathKey(parse(req.url).value);
      var socials := Spread(profile.row.value);
      var key := ChosenKey(parse, req);
      var prev := PrevValue(socials, key);
      && (req.replace || prev.None? ==>
            (updateError.Some? ==> r == Rejected(500, updateError.value)) &&
            (updateError.None? ==>
               r.Updated? && r.key == key && r.prev == prev &&
               r.socials == socials[key := JStr(normalized)] && r.next == JStr(normalized)))
      && (!req.replace && prev.Some? && prev.value != JStr(normalized) ==> r == Conflict(key, socials))
      && (!req.replace && prev == Some(JStr(normalized)) ==>
            (updateError.Some? ==> r == Rejected(500, updateError.value)) &&
            (updateError.None? ==> r.Updated? && r.socials == socials))
  {
  }

  /** Setting the same URL twice gives the same `socials` as setting it once. */
  lemma SetTwiceIsSetOnce(parse: UrlParser, req: SetRequest, stored: Json, at: string)
    requires SetSocial(parse, req, SingleRow(Some(stored), None), None, at).Updated?
    ensures var once := SetSocial(parse, req, SingleRow(Some(stored), None), None, at);
      var twice := SetSocial(parse, req, SingleRow(Some(JObj(once.socials)), None), None, at);
      twice.Updated? && twice.socials == once.socials
  {
    var first := SingleRow(Some(stored), None);
    var once := SetSocial(parse, req, first, None, at);
    var normalized := PathKey(parse(req.url).value);
    var key := ChosenKey(parse, req);
    SetRule(parse, req, first, None, at);
    var socials := Spread(stored);
    var prev := PrevValue(socials, key);
    var second := SingleRow(Some(JObj(once.socials)), None);
    assert Spread(second.row.value) == once.socials;
    SetRule(parse, req, second, None, at);
    var twice := SetSocial(parse, req, second, None, at);
    if req.replace || prev.None? {
      assert once.socials == socials[key := JStr(normalized)];
      assert once.socials[key := JStr(normalized)] == once.socials;
    } else {
      assert once.socials == socials;
      assert PrevValue(once.socials, key) == prev;
    }
  }
}
