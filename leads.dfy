/** The ambassador server actions on leads: their local `slugify`, the access and role
    guards, lead creation, the golden-record merge, owner assignment, and the business
    insert that retries on slug conflicts. The signed-in user and the rows the actions
    read are inputs; a database answer is a parameter. */
module Leads {
  import opened Strings
  import Unified

  // ---------------------------------------------------------------------------
  // slugify

  /** `s` without the characters outside `[a-z0-9]` it starts with. */
  function DropNonAlnum(s: string): (r: string)
    ensures |r| <= |s| && r == s[|s| - |r|..]
    ensures |r| > 0 ==> IsLowerAlnum(r[0])
  {
    if |s| > 0 && !IsLowerAlnum(s[0]) then DropNonAlnum(s[1..]) else s
  }

  /** `replace(/[^a-z0-9]+/g, '-')`: every run of other characters becomes one hyphen. */
  function HyphenateRuns(s: string): (r: string)
    ensures forall i :: 0 <= i < |r| ==> Unified.SlugChar(r[i])
    ensures Unified.NoDoubleHyphen(r)
    ensures |s| > 0 ==> |r| > 0 && (r[0] == '-' <==> !IsLowerAlnum(s[0]))
    ensures |s| == 0 ==> r == ""
    decreases |s|
  {
    if |s| == 0 then ""
    else if IsLowerAlnum(s[0]) then [s[0]] + HyphenateRuns(s[1..])
    else "-" + HyphenateRuns(DropNonAlnum(s[1..]))
  }

  /** `replace(/(^-|-$)/g, '')`: one leading and one trailing hyphen removed. */
  function StripEdgeHyphens(s: string): (r: string)
    ensures Unified.IsSlug(s) ==> Unified.IsSlug(r) && (|r| > 0 ==> r[0] != '-' && r[|r| - 1] != '-')
  {
    var a := if |s| > 0 && s[0] == '-' then s[1..] else s;
    assert Unified.IsSlug(s) && |s| > 1 && s[0] == '-' ==> s[1] != '-';
    if |a| > 0 && a[|a| - 1] == '-' then a[..|a| - 1] else a
  }

  /** `slugify` of the actions: lower case, runs outside `[a-z0-9]` made single hyphens,
      the hyphen at either end dropped, cut to 60 characters. */
  function Slugify(input: string): (r: string)
    ensures |r| <= 60 && Unified.IsSlug(r)
    ensures |r| > 0 ==> r[0] != '-'
  {
    var s := StripEdgeHyphens(HyphenateRuns(Lower(input)));
    Unified.TakeSlug(s, 60);
    Take(s, 60)
  }

  /** A slug of at most 60 characters that neither starts nor ends with a hyphen is its
      own `slugify`. */
  lemma SlugifyFixedPoint(s: string)
    requires Unified.IsSlug(s) && |s| <= 60
    requires |s| > 0 ==> s[0] != '-' && s[|s| - 1] != '-'
    ensures Slugify(s) == s
  {
    assert Lower(s) == s by {
      forall i | 0 <= i < |s|
        ensures Lower(s)[i] == s[i]
      {
        assert Unified.SlugChar(s[i]);
      }
    }
    HyphenateRunsOfSlug(s);
    assert StripEdgeHyphens(s) == s;
  }

  lemma {:induction false} HyphenateRunsOfSlug(s: string)
    requires Unified.IsSlug(s)
    ensures HyphenateRuns(s) == s
  {
    if |s| > 0 {
      if s[0] == '-' && |s| > 1 {
        assert s[1] != '-';
        assert DropNonAlnum(s[1..]) == s[1..];
      }
      HyphenateRunsOfSlug(s[1..]);
    }
  }

  // ---------------------------------------------------------------------------
  // The actor and the access rule

  /** The signed-in user and the `role` of their profile (`None` for a missing profile
      or role). */
  datatype Actor = Actor(userId: string, role: Option<string>)

  /** The columns of a lead the guards read. */
  datatype LeadRow = LeadRow(ownerId: Option<string>, ambassadorId: Option<string>, status: string,
                             golden: Option<GoldenRecord>)

  datatype Result<T> = Success(value: T) | Failure(error: string)

  predicate IsDev(role: Option<string>) { role == Some("dev") }

  /** `ensureLeadAccess`: the lead must exist, and a non-dev must own it. */
  function LeadAccess(leads: map<string, LeadRow>, leadId: string, userId: string, role: Option<string>): (r: Result<LeadRow>)
    ensures r.Success? <==> leadId in leads && (IsDev(role) || leads[leadId].ownerId == Some(userId))
    ensures r.Success? ==> r.value == leads[leadId]
    ensures leadId !in leads ==> r == Failure("Lead not found")
    ensures leadId in leads && !IsDev(role) && leads[leadId].ownerId != Some(userId) ==> r == Failure("Forbidden")
  {
    if leadId !in leads then Failure("Lead not found")
    else if !IsDev(role) && leads[leadId].ownerId != Some(userId) then Failure("Forbidden")
    else Success(leads[leadId])
  }

  /** The guards of `convertLead` before the conversion itself: a lead id, a signed-in
      user with access, and for a non-dev a lead that is `paid` or `agreed`. */
  function ConvertGuard(leadId: string, actor: Option<Actor>, leads: map<string, LeadRow>): (r: Result<LeadRow>)
  {
    if leadId == "" then Failure("lead_id required")
    else if actor.None? then Failure("Not authenticated")
    else
      match LeadAccess(leads, leadId, actor.value.userId, actor.value.role)
      case Failure(e) => Failure(e)
      case Success(lead) =>
        if !IsDev(actor.value.role) && lead.status != "paid" && lead.status != "agreed" then
          Failure("Lead must be agreed or paid to convert")
        else Success(lead)
  }

  /** A conversion goes ahead exactly for a dev, or for the lead's owner once the lead is
      `paid` or `agreed`. */
  lemma ConvertAllowed(leadId: string, actor: Option<Actor>, leads: map<string, LeadRow>)
    ensures ConvertGuard(leadId, actor, leads).Success? <==>
              leadId != "" && actor.Some? && leadId in leads
              && (IsDev(actor.value.role)
                  || (leads[leadId].ownerId == Some(actor.value.userId)
                      && (leads[leadId].status == "paid" || leads[leadId].status == "agreed")))
  {
  }

  // ---------------------------------------------------------------------------
  // The golden record

  datatype SocialLinks = SocialLinks(facebook: Option<string>, instagram: Option<string>, twitter: Option<string>,
                                     youtube: Option<string>, linkedin: Option<string>, tiktok: Option<string>)

  /** A lead's `golden_record`; `None` is null. */
  datatype GoldenRecord = GoldenRecord(name: Option<string>, industry: Option<string>, address: Option<string>,
                                       phones: seq<string>, emails: seq<string>, website: Option<string>,
                                       contactName: Option<string>, contactPosition: Option<string>,
                                       socials: SocialLinks)

  /** The form fields the lead forms post, each `String(formData.get(k) || '')`. */
  datatype LeadForm = LeadForm(leadId: string, name: string, industry: string, address: string, phone: string,
                               email: string, website: string, facebook: string, instagram: string,
                               twitter: string, youtube: string, linkedin: string, tiktok: string,
                               contactName: string, contactPosition: string)

  /** The trimmed form, as both actions read it. */
  function Trimmed(f: LeadForm): LeadForm
  {
    LeadForm(f.leadId, Trim(f.name), Trim(f.industry), Trim(f.address), Trim(f.phone), Trim(f.email),
             Trim(f.website), Trim(f.facebook), Trim(f.instagram), Trim(f.twitter), Trim(f.youtube),
             Trim(f.linkedin), Trim(f.tiktok), Trim(f.contactName), Trim(f.contactPosition))
  }

  /** `x || null` */
  function NonEmpty(x: string): (r: Option<string>)
    ensures r.Some? <==> x != ""
    ensures r.Some? ==> r.value == x
  {
    if x != "" then Some(x) else None
  }

  /** `x || prev || null` */
  function OrPrevious(x: string, prev: Option<string>): (r: Option<string>)
    ensures x != "" ==> r == Some(x)
    ensures x == "" && prev.Some? && prev.value != "" ==> r == prev
    ensures r.None? <==> x == "" && (prev.None? || prev.value == "")
  {
    if x != "" then Some(x) else if prev.Some? && prev.value != "" then prev else None
  }

  /** `(x ? [x] : prev ?? []).slice(0, 3)` */
  function OneOrPrevious(x: string, prev: seq<string>): (r: seq<string>)
    ensures |r| <= 3
    ensures x != "" ==> r == [x]
    ensures x == "" ==> r <= prev && |r| == Min(|prev|, 3)
  {
    Take(if x != "" then [x] else prev, 3)
  }

  /** The golden record `createLead` stores. */
  function NewGolden(f: LeadForm): GoldenRecord
  {
    GoldenRecord(Some(f.name), NonEmpty(f.industry), Some(f.address), [f.phone], [f.email], NonEmpty(f.website),
                 NonEmpty(f.contactName), NonEmpty(f.contactPosition),
                 SocialLinks(NonEmpty(f.facebook), NonEmpty(f.instagram), NonEmpty(f.twitter),
                             NonEmpty(f.youtube), NonEmpty(f.linkedin), NonEmpty(f.tiktok)))
  }

  /** The lead row `createLead` inserts. */
  datatype NewLead = NewLead(slug: string, ownerId: string, ambassadorId: string, golden: GoldenRecord, source: string)

  /** `createLead` up to its insert: the required fields, then a signed-in ambassador or
      dev, then the row. */
  function CreateLeadOf(form: LeadForm, actor: Option<Actor>): (r: Result<NewLead>)
  {
    var f := Trimmed(form);
    if f.name == "" || f.address == "" || f.phone == "" || f.email == "" then Failure("Missing required fields")
    else if actor.None? then Failure("Not authenticated")
    else if actor.value.role != Some("ambassador") && actor.value.role != Some("dev") then Failure("Forbidden")
    else Success(NewLead(Slugify(f.name), actor.value.userId, actor.value.userId, NewGolden(f), "manual"))
  }

  /** A lead is created exactly when name, address, phone and email are non-empty after
      trimming and the user is an ambassador or a dev; the missing fields are reported
      before the user is looked at. The new lead belongs to that user, and its golden
      record holds the one phone and the one email. */
  lemma CreateLeadSpec(form: LeadForm, actor: Option<Actor>)
    ensures var r := CreateLeadOf(form, actor);
            var f := Trimmed(form);
            && (r.Success? <==>
                  f.name != "" && f.address != "" && f.phone != "" && f.email != ""
                  && actor.Some? && (actor.value.role == Some("ambassador") || actor.value.role == Some("dev")))
            && ((f.name == "" || f.address == "" || f.phone == "" || f.email == "") ==> r == Failure("Missing required fields"))
            && (r.Success? ==>
                  && r.value.ownerId == actor.value.userId && r.value.ambassadorId == actor.value.userId
                  && r.value.golden.phones == [f.phone] && r.value.golden.emails == [f.email]
                  && r.value.golden.name == Some(f.name) && r.value.golden.address == Some(f.address)
                  && Unified.IsSlug(r.value.slug) && |r.value.slug| <= 60)
  {
  }

  /** The golden record `updateLeadGoldenRecord` writes: each new non-empty field, else the
      previous one, else null; phones and emails a new value or the previous list, at
      most three; the industry only from the form. */
  function MergeGolden(f: LeadForm, prev: Option<GoldenRecord>): GoldenRecord
  {
    var p := if prev.Some? then prev.value
             else GoldenRecord(None, None, None, [], [], None, None, None, SocialLinks(None, None, None, None, None, None));
    GoldenRecord(OrPrevious(f.name, p.name), NonEmpty(f.industry), OrPrevious(f.address, p.address),
                 OneOrPrevious(f.phone, p.phones), OneOrPrevious(f.email, p.emails),
                 OrPrevious(f.website, p.website), OrPrevious(f.contactName, p.contactName),
                 OrPrevious(f.contactPosition, p.contactPosition),
                 SocialLinks(OrPrevious(f.facebook, p.socials.facebook), OrPrevious(f.instagram, p.socials.instagram),
                             OrPrevious(f.twitter, p.socials.twitter), OrPrevious(f.youtube, p.socials.youtube),
                             OrPrevious(f.linkedin, p.socials.linkedin), OrPrevious(f.tiktok, p.socials.tiktok)))
  }

  /** The merge keeps at most three phones and emails, never carries the industry over,
      and takes a field from the previous record only when the form leaves it empty. */
  lemma MergeGoldenSpec(f: LeadForm, prev: GoldenRecord)
    ensures var g := MergeGolden(f, Some(prev));
            && |g.phones| <= 3 && |g.emails| <= 3
            && g.industry == NonEmpty(f.industry)
            && (f.name != "" ==> g.name == Some(f.name))
            && (f.name == "" ==> g.name == if prev.name == Some("") then None else prev.name)
            && (f.phone == "" ==> g.phones == Take(prev.phones, 3))
            && (f.email != "" ==> g.emails == [f.email])
            && (f.website == "" && prev.website.Some? && prev.website.value != "" ==> g.website == prev.website)
            && (f.facebook == "" ==> g.socials.facebook == if prev.socials.facebook == Some("") then None else prev.socials.facebook)
  {
  }

  /** Merging an all-empty form into a record with non-empty fields and at most three
      phones and emails gives the record back, except the industry, which is dropped. */
  lemma MergeEmptyForm(leadId: string, prev: GoldenRecord)
    requires |prev.phones| <= 3 && |prev.emails| <= 3
    requires prev.name != Some("") && prev.address != Some("") && prev.website != Some("")
    requires prev.contactName != Some("") && prev.contactPosition != Some("")
    requires var s := prev.socials;
             s.facebook != Some("") && s.instagram != Some("") && s.twitter != Some("")
             && s.youtube != Some("") && s.linkedin != Some("") && s.tiktok != Some("")
    ensures MergeGolden(LeadForm(leadId, "", "", "", "", "", "", "", "", "", "", "", "", "", ""), Some(prev))
            == prev.(industry := None)
  {
  }

  /** `updateLeadGoldenRecord` up to its write: the lead id, a signed-in user with access,
      then the merged record for that lead. */
  function UpdateGoldenOf(form: LeadForm, actor: Option<Actor>, leads: map<string, LeadRow>): (r: Result<GoldenRecord>)
    ensures r.Success? ==> form.leadId in leads && actor.Some?
                           && r.value == MergeGolden(Trimmed(form), leads[form.leadId].golden)
    ensures r.Success? <==> (form.leadId != "" && actor.Some? && form.leadId in leads
                             && (IsDev(actor.value.role) || leads[form.leadId].ownerId == Some(actor.value.userId)))
  {
    if form.leadId == "" then Failure("lead_id required")
    else if actor.None? then Failure("Not authenticated")
    else
      match LeadAccess(leads, form.leadId, actor.value.userId, actor.value.role)
      case Failure(e) => Failure(e)
      case Success(lead) => Success(MergeGolden(Trimmed(form), lead.golden))
  }

  // ---------------------------------------------------------------------------
  // assignLeadOwner

  /** `assignLeadOwner`: only a dev may assign, both ids are required, and the assignee's
      profile role must be `dev` or `ambassador` (`roles` maps a profile id to its role);
      the lead's owner and ambassador both become the assignee. An update error
      (`updateError`) is thrown; an unknown lead id updates nothing. */
  function AssignOwnerOf(actor: Option<Actor>, leadId: string, assigneeId: string, roles: map<string, Option<string>>,
                         leads: map<string, LeadRow>, updateError: Option<string>): (r: Result<map<string, LeadRow>>)
  {
    if actor.None? then Failure("Not authenticated")
    else if !IsDev(actor.value.role) then Failure("Dev only")
    else if leadId == "" || assigneeId == "" then Failure("lead_id and assignee_id required")
    else if assigneeId !in roles || (roles[assigneeId] != Some("dev") && roles[assigneeId] != Some("ambassador")) then
      Failure("Assignee must be dev or ambassador")
    else if updateError.Some? then Failure(updateError.value)
    else if leadId !in leads then Success(leads)
    else Success(leads[leadId := leads[leadId].(ownerId := Some(assigneeId), ambassadorId := Some(assigneeId))])
  }

  /** An assignment succeeds only for a dev and an assignee whose role is dev or
      ambassador; it then changes the owner of that lead alone. */
  lemma AssignOwnerSpec(actor: Option<Actor>, leadId: string, assigneeId: string, roles: map<string, Option<string>>,
                        leads: map<string, LeadRow>, updateError: Option<string>)
    ensures var r := AssignOwnerOf(actor, leadId, assigneeId, roles, leads, updateError);
            && (r.Success? <==> actor.Some? && IsDev(actor.value.role) && leadId != "" && assigneeId != ""
                                && assigneeId in roles
                                && (roles[assigneeId] == Some("dev") || roles[assigneeId] == Some("ambassador"))
                                && updateError.None?)
            && (r.Success? ==>
                  && r.value.Keys == leads.Keys
                  && (forall k :: k in leads && k != leadId ==> r.value[k] == leads[k])
                  && (leadId in leads ==> r.value[leadId] == leads[leadId].(ownerId := Some(assigneeId), ambassadorId := Some(assigneeId))))
  {
  }

  // ---------------------------------------------------------------------------
  // createBusinessWithUniqueSlug

  /** The database's answer to one business insert: a row (its `id` may be empty), or an
      error with its SQLSTATE code. */
  datatype InsertReply = Row(id: string) | Rejected(code: string, message: string)

  /** The answer the database gives to inserting a business with a given slug. */
  type Insert = string -> InsertReply

  const InsertAttempts: nat := 20
  const NoUniqueSlug: string := "Could not create business with a unique slug"

  /** The slug of attempt `i`: `base`, then `base-2`, `base-3`, ..., `base-20`. */
  function Candidate(base: string, i: nat): string
  {
    if i == 0 then base else base + "-" + NatToString(i + 1)
  }

  /** An answer after which the loop tries the next slug: a unique violation, or a row
      without an id. */
  predicate Retry(a: InsertReply)
  {
    (a.Row? && a.id == "") || (a.Rejected? && a.code == "23505")
  }

  /** What an answer that is not retried makes of the call: its id, or its error. */
  function Outcome(a: InsertReply): Result<string>
  {
    match a
    case Row(id) => Success(id)
    case Rejected(_, message) => Failure(message)
  }

  /** The outcome of attempts `i` to 19. */
  function AttemptFrom(insert: Insert, base: string, i: nat): Result<string>
    requires i <= InsertAttempts
    decreases InsertAttempts - i
  {
    if i == InsertAttempts then Failure(NoUniqueSlug)
    else
      var a := insert(Candidate(base, i));
      if Retry(a) then AttemptFrom(insert, base, i + 1) else Outcome(a)
  }

  /** The first attempt from `i` on that is not retried decides the outcome. */
  lemma {:induction false} AttemptDecided(insert: Insert, base: string, i: nat, k: nat)
    requires i <= k < InsertAttempts
    requires !Retry(insert(Candidate(base, k)))
    requires forall j :: i <= j < k ==> Retry(insert(Candidate(base, j)))
    ensures AttemptFrom(insert, base, i) == Outcome(insert(Candidate(base, k)))
    decreases k - i
  {
    if i < k {
      AttemptDecided(insert, base, i + 1, k);
    }
  }

  /** When every attempt from `i` on is retried, the call fails with the "unique slug"
      error. */
  lemma {:induction false} AttemptExhausted(insert: Insert, base: string, i: nat)
    requires i <= InsertAttempts
    requires forall j :: i <= j < InsertAttempts ==> Retry(insert(Candidate(base, j)))
    ensures AttemptFrom(insert, base, i) == Failure(NoUniqueSlug)
    decreases InsertAttempts - i
  {
    if i < InsertAttempts {
      AttemptExhausted(insert, base, i + 1);
    }
  }

  /** An id comes back only from a non-empty row answered to one of the candidates, all
      earlier ones having been retried. */
  lemma {:induction false} AttemptSuccess(insert: Insert, base: string, i: nat)
    requires i <= InsertAttempts
    requires AttemptFrom(insert, base, i).Success?
    ensures var id := AttemptFrom(insert, base, i).value;
            id != "" && exists k :: i <= k < InsertAttempts && insert(Candidate(base, k)) == Row(id)
                                   && forall j :: i <= j < k ==> Retry(insert(Candidate(base, j)))
    decreases InsertAttempts - i
  {
    var a := insert(Candidate(base, i));
    if Retry(a) {
      AttemptSuccess(insert, base, i + 1);
      var id := AttemptFrom(insert, base, i).value;
      var k :| i + 1 <= k < InsertAttempts && insert(Candidate(base, k)) == Row(id)
               && forall j :: i + 1 <= j < k ==> Retry(insert(Candidate(base, j)));
      assert forall j :: i <= j < k ==> Retry(insert(Candidate(base, j)));
    } else {
      assert insert(Candidate(base, i)) == Row(AttemptFrom(insert, base, i).value);
    }
  }

  /** A businesses table whose unique index on `slug` rejects the slugs in `taken`, and
      which otherwise returns the new row `newId`. */
  function TableInsert(taken: set<string>, newId: string): Insert
  {
    slug => if slug in taken then Rejected("23505", "duplicate key value violates unique constraint") else Row(newId)
  }

  /** Against such a table the retry gets the new row as soon as one of the remaining
      candidates is free, and the "unique slug" error when all of them are taken. */
  lemma {:induction false} AttemptAgainstTable(taken: set<string>, newId: string, base: string, i: nat)
    requires newId != "" && i <= InsertAttempts
    ensures AttemptFrom(TableInsert(taken, newId), base, i)
            == if exists k :: i <= k < InsertAttempts && Candidate(base, k) !in taken then Success(newId)
               else Failure(NoUniqueSlug)
    decreases InsertAttempts - i
  {
    if i < InsertAttempts {
      AttemptAgainstTable(taken, newId, base, i + 1);
      if Candidate(base, i) in taken {
        if exists k :: i <= k < InsertAttempts && Candidate(base, k) !in taken {
          var k :| i <= k < InsertAttempts && Candidate(base, k) !in taken;
          assert i + 1 <= k;
        }
      }
    }
  }

  /** `createBusinessWithUniqueSlug` of the actions: inserts `base`, `base-2`, ... until a
      row comes back, moving on only after a unique violation. */
  method CreateBusinessWithUniqueSlug(insert: Insert, name: string) returns (r: Result<string>)
    ensures r == AttemptFrom(insert, Slugify(if name == "" then "client" else name), 0)
  {
    var base := Slugify(if name == "" then "client" else name);
    for i := 0 to InsertAttempts
      invariant AttemptFrom(insert, base, 0) == AttemptFrom(insert, base, i)
    {
      var a := insert(Candidate(base, i));
      assert AttemptFrom(insert, base, i) == if Retry(a) then AttemptFrom(insert, base, i + 1) else Outcome(a);
      if a.Row? && a.id != "" {
        return Success(a.id);
      }
      if a.Rejected? && a.code == "23505" {
        continue;
      }
      if a.Rejected? {
        return Failure(a.message);
      }
    }
    return Failure(NoUniqueSlug);
  }

  /** Two attempts never try the same slug. */
  lemma CandidatesDistinct(base: string, i: nat, j: nat)
    requires i < j
    ensures Candidate(base, i) != Candidate(base, j)
  {
    var ci := Candidate(base, i);
    var cj := Candidate(base, j);
    if i == 0 {
      assert |cj| > |ci|;
    } else {
      NatToStringInjective(i + 1, j + 1);
      assert ci[|base| + 1..] == NatToString(i + 1);
      assert cj[|base| + 1..] == NatToString(j + 1);
    }
  }
}
