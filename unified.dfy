/** The shared business helpers: the local `slugify`, the unique-slug business insert,
    memberships, the lead-to-business link, and the business profile row. The database
    is a value of four tables; a `Store` holds it and its methods change it as the
    helpers do. Row ids are positions in their table. */
module Unified {
  import opened Strings
  import opened Web
  import Fuzzy

  // ---------------------------------------------------------------------------
  // slugify

  /** The characters a slug is made of: `[a-z0-9-]`. */
  predicate SlugChar(c: char) { IsLowerAlnum(c) || c == '-' }

  predicate NoDoubleHyphen(s: string)
  {
    forall i :: 0 <= i < |s| - 1 ==> !(s[i] == '-' && s[i + 1] == '-')
  }

  predicate IsSlug(s: string)
  {
    (forall i :: 0 <= i < |s| ==> SlugChar(s[i])) && NoDoubleHyphen(s)
  }

  /** The characters `replace(/[^a-z0-9\s-]/g, '')` keeps. */
  predicate ScrubChar(c: char) { IsLowerAlnum(c) || IsSpace(c) || c == '-' }

  /** `replace(/\s+/g, '-')`: every run of whitespace becomes one hyphen. */
  function SpacesToHyphens(s: string): (r: string)
    ensures (forall i :: 0 <= i < |s| ==> ScrubChar(s[i])) ==> forall i :: 0 <= i < |r| ==> SlugChar(r[i])
    decreases |s|
  {
    if |s| == 0 then ""
    else if IsSpace(s[0]) then "-" + SpacesToHyphens(s[LeadingSpaces(s)..])
    else [s[0]] + SpacesToHyphens(s[1..])
  }

  /** `s` without the hyphens it starts with. */
  function DropHyphens(s: string): (r: string)
    ensures |r| <= |s| && r == s[|s| - |r|..]
    ensures |r| > 0 ==> r[0] != '-'
  {
    if |s| > 0 && s[0] == '-' then DropHyphens(s[1..]) else s
  }

  /** `replace(/-+/g, '-')`: every run of hyphens becomes one. */
  function SqueezeHyphens(s: string): (r: string)
    ensures NoDoubleHyphen(r)
    ensures |s| > 0 ==> |r| > 0 && (r[0] == '-' <==> s[0] == '-')
    ensures |s| == 0 ==> r == ""
    ensures (forall i :: 0 <= i < |s| ==> SlugChar(s[i])) ==> forall i :: 0 <= i < |r| ==> SlugChar(r[i])
    decreases |s|
  {
    if |s| == 0 then ""
    else if s[0] == '-' then "-" + SqueezeHyphens(DropHyphens(s[1..]))
    else [s[0]] + SqueezeHyphens(s[1..])
  }

  /** Trimming scrubbed text leaves scrubbed text. */
  lemma TrimScrubbed(s: string)
    requires forall i :: 0 <= i < |s| ==> ScrubChar(s[i])
    ensures forall i :: 0 <= i < |Trim(s)| ==> ScrubChar(Trim(s)[i])
  {
    var k := TrimIsSlice(s);
    forall i | 0 <= i < |Trim(s)|
      ensures ScrubChar(Trim(s)[i])
    {
      assert Trim(s)[i] == s[k + i];
    }
  }

  /** The characters of `s` that `replace(/[^a-z0-9\s-]/g, '')` keeps. */
  function Scrubbed(s: string): (r: string)
    ensures forall i :: 0 <= i < |r| ==> ScrubChar(r[i])
  {
    var r := Filter(s, ScrubChar);
    assert forall i :: 0 <= i < |r| ==> r[i] in r;
    r
  }

  /** The whitespace and hyphen runs of scrubbed text made single hyphens. */
  function Hyphenated(s: string): (r: string)
    ensures (forall i :: 0 <= i < |s| ==> ScrubChar(s[i])) ==> IsSlug(r)
  {
    SqueezeHyphens(SpacesToHyphens(s))
  }

  lemma TakeSlug(s: string, n: nat)
    requires IsSlug(s)
    ensures IsSlug(Take(s, n))
  {
    var t := Take(s, n);
    assert forall i :: 0 <= i < |t| ==> t[i] == s[i];
  }

  /** The first steps of `slugify`: lower case, marks dropped, only `[a-z0-9\s-]` kept,
      trimmed. */
  function Cleaned(input: string): (r: string)
    ensures forall i :: 0 <= i < |r| ==> ScrubChar(r[i])
  {
    var scrubbed := Scrubbed(Fuzzy.StripDiacritics(Lower(input)));
    TrimScrubbed(scrubbed);
    Trim(scrubbed)
  }

  /** `slugify` of unified.ts: the cleaned text with whitespace runs and hyphen runs made
      single hyphens, cut to 50 characters, and `client` when nothing is left. */
  function Slugify(input: string): (r: string)
    ensures r != "" && |r| <= 50 && IsSlug(r)
  {
    var c := Cleaned(if input == "" then "client" else input);
    var h := Hyphenated(c);
    TakeSlug(h, 50);
    var s := Take(h, 50);
    if s == "" then ClientIsSlug(); "client" else s
  }

  lemma ClientIsSlug()
    ensures IsSlug("client")
  {
    var s := "client";
    assert forall i :: 0 <= i < |s| ==> IsLowerAlnum(s[i]);
  }

  /** A slug of at most 50 characters is its own `slugify`. */
  lemma SlugifyFixedPoint(s: string)
    requires IsSlug(s) && 0 < |s| <= 50
    ensures Slugify(s) == s
  {
    CleanedOfSlug(s);
    SpacesToHyphensOfSlug(s);
    SqueezeHyphensOfSlug(s);
    assert Take(s, 50) == s;
  }

  lemma CleanedOfSlug(s: string)
    requires forall i :: 0 <= i < |s| ==> SlugChar(s[i])
    ensures Cleaned(s) == s
  {
    LowerOfSlug(s);
    var lowered := Lower(s);
    StripDiacriticsOfSlug(s);
    var plain := Fuzzy.StripDiacritics(lowered);
    ScrubbedOfSlug(s);
    var scrubbed := Scrubbed(plain);
    assert scrubbed == s;
    TrimOfSlug(s);
  }

  lemma TrimOfSlug(s: string)
    requires forall i :: 0 <= i < |s| ==> SlugChar(s[i])
    ensures Trim(s) == s
  {
    TrimNoSpace(s);
  }

  lemma LowerOfSlug(s: string)
    requires forall i :: 0 <= i < |s| ==> SlugChar(s[i])
    ensures Lower(s) == s
  {
  }

  lemma {:induction false} StripDiacriticsOfSlug(s: string)
    requires forall i :: 0 <= i < |s| ==> SlugChar(s[i])
    ensures Fuzzy.StripDiacritics(s) == s
  {
    if |s| > 0 {
      StripDiacriticsOfSlug(s[1..]);
    }
  }

  lemma {:induction false} FilterScrubOfSlug(s: string)
    requires forall i :: 0 <= i < |s| ==> SlugChar(s[i])
    ensures Filter(s, ScrubChar) == s
  {
    if |s| > 0 {
      FilterScrubOfSlug(s[1..]);
    }
  }

  lemma ScrubbedOfSlug(s: string)
    requires forall i :: 0 <= i < |s| ==> SlugChar(s[i])
    ensures Scrubbed(s) == s
  {
    FilterScrubOfSlug(s);
  }

  lemma {:induction false} SpacesToHyphensOfSlug(s: string)
    requires forall i :: 0 <= i < |s| ==> SlugChar(s[i])
    ensures SpacesToHyphens(s) == s
  {
    if |s| > 0 {
      SpacesToHyphensOfSlug(s[1..]);
    }
  }

  lemma {:induction false} SqueezeHyphensOfSlug(s: string)
    requires NoDoubleHyphen(s)
    ensures SqueezeHyphens(s) == s
  {
    if |s| > 0 {
      if s[0] == '-' && |s| > 1 {
        assert s[1] != '-';
      }
      SqueezeHyphensOfSlug(s[1..]);
    }
  }

  // ---------------------------------------------------------------------------
  // The tables

  datatype Business = Business(name: string, slug: string, ownerId: Option<string>, isPublic: bool)

  /** The columns of a lead the helpers read; `goldenName` is `golden_record.name`,
      empty when missing. */
  datatype Lead = Lead(ownerId: Option<string>, ambassadorId: Option<string>,
                       businessId: Option<nat>, goldenName: string)

  /** A `business_profiles` row: its business and its other columns. */
  datatype Profile = Profile(businessId: nat, fields: map<string, Json>)

  datatype Db = Db(businesses: seq<Business>, leads: map<string, Lead>,
                   memberships: set<(string, nat)>, profiles: seq<Profile>)

  /** A database error: its SQLSTATE code and its message. */
  datatype DbError = DbError(code: string, message: string)

  datatype Result<T> = Success(value: T) | Failure(error: string)

  function SlugsOf(bs: seq<Business>): set<string>
  {
    set i | 0 <= i < |bs| :: bs[i].slug
  }

  /** The unique index on `businesses.slug`. */
  predicate SlugsDistinct(bs: seq<Business>)
  {
    forall i, j :: 0 <= i < j < |bs| ==> bs[i].slug != bs[j].slug
  }

  function ProfileIndices(ps: seq<Profile>, businessId: nat): (r: seq<nat>)
    ensures forall k :: 0 <= k < |r| ==> r[k] < |ps| && ps[r[k]].businessId == businessId
    ensures forall i :: 0 <= i < |ps| && ps[i].businessId == businessId ==> i in r
  {
    if |ps| == 0 then []
    else
      var r := ProfileIndices(ps[..|ps| - 1], businessId);
      if ps[|ps| - 1].businessId == businessId then r + [|ps| - 1] else r
  }

  /** At most one profile row per business. */
  predicate OneProfileEach(ps: seq<Profile>)
  {
    forall i, j :: 0 <= i < j < |ps| ==> ps[i].businessId != ps[j].businessId
  }

  predicate Valid(db: Db)
  {
    SlugsDistinct(db.businesses) && OneProfileEach(db.profiles)
  }

  // ---------------------------------------------------------------------------
  // createBusinessWithUniqueSlug

  const SlugAttempts: nat := 50
  const SlugsExhausted: string := "Could not create unique business slug"

  /** The slug of attempt `attempt`: `base`, then `base-1`, `base-2`, .... */
  function Candidate(base: string, attempt: nat): string
  {
    if attempt == 0 then base else base + "-" + NatToString(attempt)
  }

  /** The first attempt from `from` on, below 50, whose slug is not taken. */
  function FirstFree(base: string, taken: set<string>, from: nat): (r: Option<nat>)
    requires from <= SlugAttempts
    ensures r.Some? ==> from <= r.value < SlugAttempts && Candidate(base, r.value) !in taken
    ensures r.Some? ==> forall a :: from <= a < r.value ==> Candidate(base, a) in taken
    ensures r.None? ==> forall a :: from <= a < SlugAttempts ==> Candidate(base, a) in taken
    decreases SlugAttempts - from
  {
    if from == SlugAttempts then None
    else if Candidate(base, from) !in taken then Some(from)
    else FirstFree(base, taken, from + 1)
  }

  /** One attempt of the loop: a free slug is the answer, a taken one defers to the next. */
  lemma FirstFreeStep(base: string, taken: set<string>, attempt: nat)
    requires attempt < SlugAttempts
    ensures Candidate(base, attempt) !in taken ==> FirstFree(base, taken, attempt) == Some(attempt)
    ensures Candidate(base, attempt) in taken ==> FirstFree(base, taken, attempt) == FirstFree(base, taken, attempt + 1)
  {
  }

  /** The effect of `createBusinessWithUniqueSlug(name, ownerId)`: the first free slug of
      `slugify(name || 'client')` gets a new public business row, unless all 50 are
      taken or the insert fails (`insertError`). */
  function CreateOf(db: Db, name: string, ownerId: Option<string>, insertError: Option<string>): (Result<nat>, Db)
  {
    var base := Slugify(if name == "" then "client" else name);
    match FirstFree(base, SlugsOf(db.businesses), 0)
    case None => (Failure(SlugsExhausted), db)
    case Some(a) =>
      if insertError.Some? then (Failure(insertError.value), db)
      else (Success(|db.businesses|), db.(businesses := db.businesses + [Business(name, Candidate(base, a), ownerId, true)]))
  }

  /** It succeeds exactly when the insert succeeds and one of the 50 candidates is free;
      it fails with the exhaustion message when all 50 are taken; a failure changes
      nothing. */
  lemma CreateOutcome(db: Db, name: string, ownerId: Option<string>, insertError: Option<string>)
    ensures var (r, db1) := CreateOf(db, name, ownerId, insertError);
            var base := Slugify(if name == "" then "client" else name);
            && (r.Success? <==> insertError.None? && exists a :: 0 <= a < SlugAttempts && Candidate(base, a) !in SlugsOf(db.businesses))
            && ((forall a :: 0 <= a < SlugAttempts ==> Candidate(base, a) in SlugsOf(db.businesses)) ==> r == Failure(SlugsExhausted))
            && (r.Failure? ==> db1 == db)
  {
    var base := Slugify(if name == "" then "client" else name);
    var f := FirstFree(base, SlugsOf(db.businesses), 0);
    if f.Some? {
      assert Candidate(base, f.value) !in SlugsOf(db.businesses);
    }
  }

  /** On success the new row, at the end of the table, is the only change; its slug is
      the first free candidate, so it was not taken before and the slugs stay
      distinct. */
  lemma CreateSuccess(db: Db, name: string, ownerId: Option<string>, insertError: Option<string>)
    requires SlugsDistinct(db.businesses)
    requires CreateOf(db, name, ownerId, insertError).0.Success?
    ensures var (r, db1) := CreateOf(db, name, ownerId, insertError);
            var base := Slugify(if name == "" then "client" else name);
            && db1.leads == db.leads && db1.memberships == db.memberships && db1.profiles == db.profiles
            && SlugsDistinct(db1.businesses)
            && r.value == |db.businesses| && |db1.businesses| == |db.businesses| + 1
            && db1.businesses[..r.value] == db.businesses
            && db1.businesses[r.value].slug !in SlugsOf(db.businesses)
            && db1.businesses[r.value] == Business(name, db1.businesses[r.value].slug, ownerId, true)
            && exists a :: 0 <= a < SlugAttempts && db1.businesses[r.value].slug == Candidate(base, a)
                 && forall b :: 0 <= b < a ==> Candidate(base, b) in SlugsOf(db.businesses)
  {
    var base := Slugify(if name == "" then "client" else name);
    var f := FirstFree(base, SlugsOf(db.businesses), 0);
    var row := Business(name, Candidate(base, f.value), ownerId, true);
    var bs := db.businesses + [row];
    assert CreateOf(db, name, ownerId, insertError).1.businesses == bs;
    forall i, j | 0 <= i < j < |bs|
      ensures bs[i].slug != bs[j].slug
    {
      if j == |db.businesses| {
        assert bs[i].slug in SlugsOf(db.businesses);
      }
    }
    assert bs[..|db.businesses|] == db.businesses;
  }

  // ---------------------------------------------------------------------------
  // ensureMembership

  /** The effect of `ensureMembership`: an absent (user, business) pair is inserted; a
      unique violation (`23505`) means the pair is there and is not an error; any
      other insert error is thrown. */
  function MembershipOf(db: Db, businessId: nat, userId: string, insertError: Option<DbError>): (r: (Option<string>, Db))
    ensures r.0.None? <==> (userId, businessId) in r.1.memberships
    ensures r.1.memberships == db.memberships || r.1.memberships == db.memberships + {(userId, businessId)}
    ensures r.1.businesses == db.businesses && r.1.leads == db.leads && r.1.profiles == db.profiles
  {
    if (userId, businessId) in db.memberships then (None, db)
    else if insertError.Some? && insertError.value.code != "23505" then (Some(insertError.value.message), db)
    else (None, db.(memberships := db.memberships + {(userId, businessId)}))
  }

  /** Calling `ensureMembership` again after it succeeded changes nothing and cannot fail. */
  lemma MembershipIdempotent(db: Db, businessId: nat, userId: string, e1: Option<DbError>, e2: Option<DbError>)
    requires MembershipOf(db, businessId, userId, e1).0.None?
    ensures var db1 := MembershipOf(db, businessId, userId, e1).1;
            MembershipOf(db1, businessId, userId, e2) == (None, db1)
  {
  }

  // ---------------------------------------------------------------------------
  // ensureBusiness

  datatype Ensured = Ensured(businessId: nat, ownerId: Option<string>)

  /** `lead.owner_id ?? lead.ambassador_id ?? null` */
  function OwnerOf(lead: Lead): (r: Option<string>)
    ensures r.Some? ==> r == lead.ownerId || (lead.ownerId.None? && r == lead.ambassadorId)
    ensures r.None? <==> lead.ownerId.None? && lead.ambassadorId.None?
  {
    if lead.ownerId.Some? then lead.ownerId else lead.ambassadorId
  }

  /** `update businesses set owner_id = ownerId where id = businessId and owner_id is null`,
      run only for a non-empty owner. */
  function FillOwner(db: Db, businessId: nat, ownerId: Option<string>): (r: Db)
    ensures r.leads == db.leads && r.memberships == db.memberships && r.profiles == db.profiles
    ensures |r.businesses| == |db.businesses|
    ensures forall i :: 0 <= i < |db.businesses| && i != businessId ==> r.businesses[i] == db.businesses[i]
    ensures forall i :: 0 <= i < |db.businesses| ==> r.businesses[i].slug == db.businesses[i].slug
    ensures businessId < |db.businesses| ==>
              r.businesses[businessId].ownerId ==
                if db.businesses[businessId].ownerId.None? && ownerId.Some? && ownerId.value != "" then ownerId
                else db.businesses[businessId].ownerId
  {
    if ownerId.Some? && ownerId.value != "" && businessId < |db.businesses| && db.businesses[businessId].ownerId.None? then
      db.(businesses := db.businesses[businessId := db.businesses[businessId].(ownerId := ownerId)])
    else db
  }

  /** The effect of `ensureBusiness`. With a lead id (`""` stands for none): a missing lead
      is "Lead not found"; a lead without a business gets one named after its golden
      record (or the fallback, or `Client`) and is linked to it; the business's empty
      owner is then filled from the lead. Without a lead id, a business is created for
      the fallback name and owner. */
  function EnsureBusinessOf(db: Db, leadId: string, nameFallback: string, ownerIdFallback: Option<string>,
                            insertError: Option<string>): (Result<Ensured>, Db)
  {
    if leadId != "" then
      if leadId !in db.leads then (Failure("Lead not found"), db)
      else
        var lead := db.leads[leadId];
        var ownerId := OwnerOf(lead);
        if lead.businessId.None? then
          var name := if lead.goldenName != "" then lead.goldenName else if nameFallback != "" then nameFallback else "Client";
          var (c, db1) := CreateOf(db, name, ownerId, insertError);
          if c.Failure? then (Failure(c.error), db1)
          else
            var db2 := db1.(leads := db1.leads[leadId := lead.(businessId := Some(c.value))]);
            (Success(Ensured(c.value, ownerId)), FillOwner(db2, c.value, ownerId))
        else (Success(Ensured(lead.businessId.value, ownerId)), FillOwner(db, lead.businessId.value, ownerId))
    else
      var (c, db1) := CreateOf(db, if nameFallback != "" then nameFallback else "Client", ownerIdFallback, insertError);
      if c.Failure? then (Failure(c.error), db1) else (Success(Ensured(c.value, ownerIdFallback)), db1)
  }

  /** For a lead: the owner is `owner_id ?? ambassador_id ?? null`; a lead that has a
      business keeps it and no business is created; a lead without one is linked to the
      one new business, which belongs to that owner. */
  lemma EnsureBusinessForLead(db: Db, leadId: string, nameFallback: string, ownerIdFallback: Option<string>,
                              insertError: Option<string>)
    requires leadId != "" && leadId in db.leads
    ensures var lead := db.leads[leadId];
            var (r, db1) := EnsureBusinessOf(db, leadId, nameFallback, ownerIdFallback, insertError);
            && (r.Success? ==> r.value.ownerId == OwnerOf(lead))
            && (lead.businessId.Some? ==>
                  r == Success(Ensured(lead.businessId.value, OwnerOf(lead))) && |db1.businesses| == |db.businesses|
                  && db1.leads == db.leads)
            && (lead.businessId.None? && r.Success? ==>
                  |db1.businesses| == |db.businesses| + 1 && r.value.businessId == |db.businesses|
                  && db1.leads == db.leads[leadId := lead.(businessId := Some(r.value.businessId))]
                  && db1.businesses[r.value.businessId].ownerId == OwnerOf(lead))
            && (r.Failure? ==> db1 == db)
  {
    var lead := db.leads[leadId];
    if lead.businessId.None? {
      var name := if lead.goldenName != "" then lead.goldenName else if nameFallback != "" then nameFallback else "Client";
      var (c, db1) := CreateOf(db, name, OwnerOf(lead), insertError);
      CreateOutcome(db, name, OwnerOf(lead), insertError);
    }
  }

  /** Every outcome of `ensureBusiness` keeps the slugs distinct and the profile table
      as it was. */
  lemma EnsureBusinessValid(db: Db, leadId: string, nameFallback: string, ownerIdFallback: Option<string>,
                            insertError: Option<string>)
    requires Valid(db)
    ensures var db1 := EnsureBusinessOf(db, leadId, nameFallback, ownerIdFallback, insertError).1;
            Valid(db1) && db1.profiles == db.profiles && db1.memberships == db.memberships
  {
    if leadId != "" && leadId in db.leads {
      var lead := db.leads[leadId];
      var ownerId := OwnerOf(lead);
      if lead.businessId.Some? {
        FillOwnerKeepsSlugs(db, lead.businessId.value, ownerId);
      } else {
        var name := if lead.goldenName != "" then lead.goldenName else if nameFallback != "" then nameFallback else "Client";
        CreateKeepsValid(db, name, ownerId, insertError);
        var (c, db1) := CreateOf(db, name, ownerId, insertError);
        if c.Success? {
          FillOwnerKeepsSlugs(db1.(leads := db1.leads[leadId := lead.(businessId := Some(c.value))]), c.value, ownerId);
        }
      }
    } else if leadId == "" {
      CreateKeepsValid(db, if nameFallback != "" then nameFallback else "Client", ownerIdFallback, insertError);
    }
  }

  /** Creating a business, whatever the outcome, keeps the table valid and touches no
      other table. */
  lemma CreateKeepsValid(db: Db, name: string, ownerId: Option<string>, insertError: Option<string>)
    requires Valid(db)
    ensures var db1 := CreateOf(db, name, ownerId, insertError).1;
            Valid(db1) && db1.leads == db.leads && db1.profiles == db.profiles && db1.memberships == db.memberships
  {
    if CreateOf(db, name, ownerId, insertError).0.Success? {
      CreateSuccess(db, name, ownerId, insertError);
    } else {
      CreateOutcome(db, name, ownerId, insertError);
    }
  }

  lemma FillOwnerKeepsSlugs(db: Db, businessId: nat, ownerId: Option<string>)
    requires SlugsDistinct(db.businesses)
    ensures SlugsDistinct(FillOwner(db, businessId, ownerId).businesses)
  {
    var bs := FillOwner(db, businessId, ownerId).businesses;
    forall i, j | 0 <= i < j < |bs|
      ensures bs[i].slug != bs[j].slug
    {
      assert bs[i].slug == db.businesses[i].slug && bs[j].slug == db.businesses[j].slug;
    }
  }

  // ---------------------------------------------------------------------------
  // upsertBusinessProfile

  /** `{ ...patch, business_id }` without its `business_id` column, which the row holds
      apart. */
  function Columns(patch: map<string, Json>): map<string, Json>
  {
    patch - {"business_id"}
  }

  /** The effect of `upsertBusinessProfile`: `maybeSingle` finds the business's row when
      there is exactly one, which is then updated with the patch; otherwise one row is
      inserted. A write error (`writeError`) is thrown. The result is the row's id. */
  function UpsertProfileOf(db: Db, businessId: nat, patch: map<string, Json>, writeError: Option<string>): (Result<nat>, Db)
  {
    var found := ProfileIndices(db.profiles, businessId);
    if writeError.Some? then (Failure(writeError.value), db)
    else if |found| == 1 then
      var i := found[0];
      (Success(i), db.(profiles := db.profiles[i := Profile(businessId, db.profiles[i].fields + Columns(patch))]))
    else (Success(|db.profiles|), db.(profiles := db.profiles + [Profile(businessId, Columns(patch))]))
  }

  /** In a valid table: an existing profile is updated in place and none is added;
      otherwise exactly one row is added; either way the business then has exactly one
      profile, holding the patch's columns, and the table stays valid. */
  lemma UpsertProfileSpec(db: Db, businessId: nat, patch: map<string, Json>)
    requires Valid(db)
    ensures var (r, db1) := UpsertProfileOf(db, businessId, patch, None);
            && Valid(db1) && db1.businesses == db.businesses && db1.leads == db.leads
            && r.Success? && r.value < |db1.profiles| && db1.profiles[r.value].businessId == businessId
            && (forall k :: k in Columns(patch) ==> k in db1.profiles[r.value].fields && db1.profiles[r.value].fields[k] == patch[k])
            && ((exists i :: 0 <= i < |db.profiles| && db.profiles[i].businessId == businessId) ==>
                  |db1.profiles| == |db.profiles| && db1.profiles[r.value].fields == db.profiles[r.value].fields + Columns(patch))
            && ((forall i :: 0 <= i < |db.profiles| ==> db.profiles[i].businessId != businessId) ==>
                  db1.profiles == db.profiles + [Profile(businessId, Columns(patch))])
            && (forall i :: 0 <= i < |db.profiles| && i != r.value ==> db1.profiles[i] == db.profiles[i])
  {
    if exists i :: 0 <= i < |db.profiles| && db.profiles[i].businessId == businessId {
      var i :| 0 <= i < |db.profiles| && db.profiles[i].businessId == businessId;
      UpsertUpdates(db, businessId, patch, i);
    } else {
      UpsertInserts(db, businessId, patch);
    }
  }

  /** The update branch: the business's one profile, at `i`, takes the patch. */
  lemma UpsertUpdates(db: Db, businessId: nat, patch: map<string, Json>, i: nat)
    requires Valid(db) && i < |db.profiles| && db.profiles[i].businessId == businessId
    ensures var ps := db.profiles[i := Profile(businessId, db.profiles[i].fields + Columns(patch))];
            && UpsertProfileOf(db, businessId, patch, None).0 == Success(i)
            && UpsertProfileOf(db, businessId, patch, None).1 == db.(profiles := ps)
            && OneProfileEach(ps)
  {
    ProfileIndicesOne(db.profiles, businessId, i);
  }

  /** The insert branch: a business without a profile gets one new row at the end. */
  lemma UpsertInserts(db: Db, businessId: nat, patch: map<string, Json>)
    requires Valid(db) && forall i :: 0 <= i < |db.profiles| ==> db.profiles[i].businessId != businessId
    ensures var ps := db.profiles + [Profile(businessId, Columns(patch))];
            && UpsertProfileOf(db, businessId, patch, None).0 == Success(|db.profiles|)
            && UpsertProfileOf(db, businessId, patch, None).1 == db.(profiles := ps)
            && OneProfileEach(ps)
  {
    ProfileIndicesNone(db.profiles, businessId);
    var ps := db.profiles + [Profile(businessId, Columns(patch))];
    forall i, j | 0 <= i < j < |ps|
      ensures ps[i].businessId != ps[j].businessId
    {
    }
  }

  lemma {:induction false} ProfileIndicesOne(ps: seq<Profile>, businessId: nat, i: nat)
    requires OneProfileEach(ps) && i < |ps| && ps[i].businessId == businessId
    ensures ProfileIndices(ps, businessId) == [i]
  {
    var init := ps[..|ps| - 1];
    if i == |ps| - 1 {
      ProfileIndicesNone(init, businessId);
    } else {
      ProfileIndicesOne(init, businessId, i);
    }
  }

  lemma {:induction false} ProfileIndicesNone(ps: seq<Profile>, businessId: nat)
    requires forall i :: 0 <= i < |ps| ==> ps[i].businessId != businessId
    ensures ProfileIndices(ps, businessId) == []
  {
    if |ps| > 0 {
      ProfileIndicesNone(ps[..|ps| - 1], businessId);
    }
  }

  // ---------------------------------------------------------------------------
  // findBusinessIdByProfileKeys

  /** The profile column `key` holds the text `value`. */
  predicate HasKey(p: Profile, key: string, value: string)
  {
    key in p.fields && p.fields[key] == JStr(value)
  }

  /** The profile matches `place_cid.eq.<placeCid>` or `google_place_id.eq.<googlePlaceId>`,
      each filter present only for a non-empty key. */
  predicate MatchesKeys(p: Profile, placeCid: string, googlePlaceId: string)
  {
    (placeCid != "" && HasKey(p, "place_cid", placeCid)) || (googlePlaceId != "" && HasKey(p, "google_place_id", googlePlaceId))
  }

  function FirstMatch(ps: seq<Profile>, placeCid: string, googlePlaceId: string): (r: Option<nat>)
    ensures r.Some? ==> r.value < |ps| && MatchesKeys(ps[r.value], placeCid, googlePlaceId)
    ensures r.None? ==> forall i :: 0 <= i < |ps| ==> !MatchesKeys(ps[i], placeCid, googlePlaceId)
  {
    if |ps| == 0 then None
    else if MatchesKeys(ps[0], placeCid, googlePlaceId) then Some(0)
    else match FirstMatch(ps[1..], placeCid, googlePlaceId)
      case None => None
      case Some(i) => Some(i + 1)
  }

  /** `findBusinessIdByProfileKeys`: no key gives null without a query; a failed query
      (`queryFailed`) gives null; otherwise the business of a profile matching either
      key, or null when none does. */
  function FindBusinessIdByProfileKeys(db: Db, placeCid: string, googlePlaceId: string, queryFailed: bool): (r: Option<nat>)
    ensures placeCid == "" && googlePlaceId == "" ==> r.None?
    ensures queryFailed ==> r.None?
    ensures r.Some? ==> exists i :: 0 <= i < |db.profiles| && db.profiles[i].businessId == r.value
                                     && MatchesKeys(db.profiles[i], placeCid, googlePlaceId)
    ensures r.None? && !queryFailed ==> forall i :: 0 <= i < |db.profiles| ==> !MatchesKeys(db.profiles[i], placeCid, googlePlaceId)
  {
    if placeCid == "" && googlePlaceId == "" then None
    else if queryFailed then None
    else match FirstMatch(db.profiles, placeCid, googlePlaceId)
      case None => None
      case Some(i) => Some(db.profiles[i].businessId)
  }

  // ---------------------------------------------------------------------------
  // The store

  /** The database the helpers read and write. */
  class Store {
    var businesses: seq<Business>
    var leads: map<string, Lead>
    var memberships: set<(string, nat)>
    var profiles: seq<Profile>

    function State(): Db
      reads this
    {
      Db(businesses, leads, memberships, profiles)
    }

    constructor (db: Db)
      ensures State() == db
    {
      businesses := db.businesses;
      leads := db.leads;
      memberships := db.memberships;
      profiles := db.profiles;
    }

    /** `createBusinessWithUniqueSlug`: looks up `base`, `base-1`, ... in turn and inserts
        at the first free slug. */
    method CreateBusinessWithUniqueSlug(name: string, ownerId: Option<string>, insertError: Option<string>)
      returns (r: Result<nat>)
      modifies this
      ensures (r, State()) == CreateOf(old(State()), name, ownerId, insertError)
    {
      ghost var db := State();
      var base := Slugify(if name == "" then "client" else name);
      var taken := SlugsOf(businesses);
      var attempt := 0;
      while attempt < SlugAttempts
        invariant 0 <= attempt <= SlugAttempts
        invariant State() == db
        invariant FirstFree(base, taken, 0) == FirstFree(base, taken, attempt)
      {
        var slug := Candidate(base, attempt);
        FirstFreeStep(base, taken, attempt);
        if slug !in taken {
          if insertError.Some? {
            r := Failure(insertError.value);
            assert (r, db) == CreateOf(db, name, ownerId, insertError);
            return;
          }
          r := Success(|businesses|);
          businesses := businesses + [Business(name, slug, ownerId, true)];
          assert State() == db.(businesses := db.businesses + [Business(name, slug, ownerId, true)]);
          return;
        }
        attempt := attempt + 1;
      }
      r := Failure(SlugsExhausted);
      assert (r, db) == CreateOf(db, name, ownerId, insertError);
    }

    /** `ensureMembership`: looks the pair up, then inserts it. */
    method EnsureMembership(businessId: nat, userId: string, insertError: Option<DbError>) returns (error: Option<string>)
      modifies this
      ensures (error, State()) == MembershipOf(old(State()), businessId, userId, insertError)
    {
      if (userId, businessId) in memberships {
        return None;
      }
      if insertError.Some? && insertError.value.code != "23505" {
        return Some(insertError.value.message);
      }
      memberships := memberships + {(userId, businessId)};
      return None;
    }

    /** `ensureBusiness` */
    method EnsureBusiness(leadId: string, nameFallback: string, ownerIdFallback: Option<string>, insertError: Option<string>)
      returns (r: Result<Ensured>)
      modifies this
      ensures (r, State()) == EnsureBusinessOf(old(State()), leadId, nameFallback, ownerIdFallback, insertError)
    {
      if leadId != "" {
        if leadId !in leads {
          return Failure("Lead not found");
        }
        var lead := leads[leadId];
        var ownerId := OwnerOf(lead);
        if lead.businessId.None? {
          var name := if lead.goldenName != "" then lead.goldenName else if nameFallback != "" then nameFallback else "Client";
          var c := CreateBusinessWithUniqueSlug(name, ownerId, insertError);
          if c.Failure? {
            return Failure(c.error);
          }
          leads := leads[leadId := lead.(businessId := Some(c.value))];
          FillEmptyOwner(c.value, ownerId);
          return Success(Ensured(c.value, ownerId));
        }
        FillEmptyOwner(lead.businessId.value, ownerId);
        return Success(Ensured(lead.businessId.value, ownerId));
      }
      var c := CreateBusinessWithUniqueSlug(if nameFallback != "" then nameFallback else "Client", ownerIdFallback, insertError);
      if c.Failure? {
        return Failure(c.error);
      }
      return Success(Ensured(c.value, ownerIdFallback));
    }

    /** The owner update of `ensureBusiness`, which only fills an empty owner. */
    method FillEmptyOwner(businessId: nat, ownerId: Option<string>)
      modifies this
      ensures State() == FillOwner(old(State()), businessId, ownerId)
    {
      if ownerId.Some? && ownerId.value != "" && businessId < |businesses| && businesses[businessId].ownerId.None? {
        businesses := businesses[businessId := businesses[businessId].(ownerId := ownerId)];
      }
    }

    /** `upsertBusinessProfile`: looks the business's profile up, then updates or inserts. */
    method UpsertBusinessProfile(businessId: nat, patch: map<string, Json>, writeError: Option<string>)
      returns (r: Result<nat>)
      modifies this
      ensures (r, State()) == UpsertProfileOf(old(State()), businessId, patch, writeError)
    {
      var found := ProfileIndices(profiles, businessId);
      if writeError.Some? {
        return Failure(writeError.value);
      }
      if |found| == 1 {
        var i := found[0];
        profiles := profiles[i := Profile(businessId, profiles[i].fields + Columns(patch))];
        return Success(i);
      }
      r := Success(|profiles|);
      profiles := profiles + [Profile(businessId, Columns(patch))];
    }
  }
}
