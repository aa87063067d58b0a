/** The name/address/phone (NAP) match scorer of the scrape route
    (src/app/api/audit/discovery/scrape/route.ts): Australian phone normalisation,
    token sets, the overlap ratio and `scoreMatch`. A missing (`null`) field is the
    empty string throughout. */
module NapMatch {
  import opened Strings

  // ---------------------------------------------------------------------------
  // normalizePhoneAU

  /** `normalizePhoneAU(input)`: keep the digits, then rewrite the country or trunk
      prefix to `+61`; service numbers (`1…`, eight digits or more) stay bare. */
  function NormalizePhoneAU(input: string): (r: Option<string>)
  {
    var d := Digits(input);
    if d == "" then None
    else if StartsWith(d, "61") then Some("+61" + d[2..])
    else if StartsWith(d, "0") then Some("+61" + d[1..])
    else if StartsWith(d, "1") && |d| >= 8 then Some(d)
    else if StartsWith(d, "4") && |d| == 9 then Some("+61" + d)
    else Some("+" + d)
  }

  predicate AllDigits(s: string)
  {
    forall i :: 0 <= i < |s| ==> IsDigit(s[i])
  }

  /** The two shapes a normalised phone takes: `+` and digits, or a bare service number. */
  predicate PhoneShape(p: string)
  {
    || (|p| >= 2 && p[0] == '+' && AllDigits(p[1..]))
    || (|p| >= 8 && p[0] == '1' && AllDigits(p))
  }

  /** There is a number exactly when the input holds a digit; the result has one of the
      two shapes, and its digits are the input's with a trunk `0` read as `61`, or with
      `61` put in front of a bare nine-digit mobile. */
  lemma NormalizePhoneShape(input: string)
    ensures NormalizePhoneAU(input).None? <==> Digits(input) == ""
    ensures NormalizePhoneAU(input).Some? ==> PhoneShape(NormalizePhoneAU(input).value)
    ensures NormalizePhoneAU(input).Some? ==>
      var d, r := Digits(input), NormalizePhoneAU(input).value;
      || Digits(r) == d
      || (d[0] == '0' && Digits(r) == "61" + d[1..])
      || (d[0] == '4' && |d| == 9 && Digits(r) == "61" + d)
  {
    var d := Digits(input);
    if d != "" {
      DigitsOfDigits(d);
      var y := PlusArgument(d);
      PlusDigits(y);
    }
  }

  /** The digits after the `+` of a number that gets one. */
  function PlusArgument(d: string): (y: string)
    requires d != "" && AllDigits(d)
    ensures AllDigits(y) && |y| >= 1
    ensures !(StartsWith(d, "1") && |d| >= 8) ==> NormalizePhoneAU(d) == Some("+" + y)
  {
    DigitsOfDigits(d);
    if StartsWith(d, "61") then
      assert "+61" + d[2..] == "+" + ("61" + d[2..]);
      "61" + d[2..]
    else if StartsWith(d, "0") then
      assert "+61" + d[1..] == "+" + ("61" + d[1..]);
      "61" + d[1..]
    else if StartsWith(d, "4") && |d| == 9 then
      assert "+61" + d == "+" + ("61" + d);
      "61" + d
    else d
  }

  /** The digits of `"+" + y` for a digit string `y`, and its shape. */
  lemma PlusDigits(y: string)
    requires AllDigits(y)
    ensures Digits("+" + y) == y
    ensures |y| >= 1 ==> PhoneShape("+" + y)
  {
    var s := "+" + y;
    assert s[0] == '+' && s[1..] == y;
    DigitsOfDigits(y);
  }

  /** Normalising a normalised number changes nothing. */
  lemma {:induction false} NormalizePhoneIdempotent(input: string)
    requires NormalizePhoneAU(input).Some?
    ensures NormalizePhoneAU(NormalizePhoneAU(input).value) == NormalizePhoneAU(input)
  {
    var d := Digits(input);
    DigitsOfDigits(d);
    assert NormalizePhoneAU(d) == NormalizePhoneAU(input);
    if !(StartsWith(d, "1") && |d| >= 8) {
      var y := PlusArgument(d);
      PlusDigits(y);
      assert StartsWith(d, "61") ==> y == d;
      assert StartsWith(d, "0") ==> y == "61" + d[1..] && StartsWith(y, "61") && y[2..] == d[1..];
      assert StartsWith(d, "4") && |d| == 9 ==> y == "61" + d && StartsWith(y, "61") && y[2..] == d;
    }
  }

  // ---------------------------------------------------------------------------
  // tokenSet and overlapRatio

  /** `.replace(/[^a-z0-9\s]/g, ' ')` */
  function ScrubToken(s: string): (r: string)
    ensures |r| == |s|
    ensures forall i :: 0 <= i < |r| ==> IsLowerAlnum(r[i]) || IsSpace(r[i])
  {
    seq(|s|, i requires 0 <= i < |s| => if IsLowerAlnum(s[i]) || IsSpace(s[i]) then s[i] else ' ')
  }

  predicate IsToken(t: string)
  {
    t != "" && forall k :: 0 <= k < |t| ==> IsLowerAlnum(t[k])
  }

  /** `tokenSet(s)`: the set of lower-case alphanumeric words of `s`. */
  function TokenSet(s: string): (r: set<string>)
    ensures forall t :: t in r ==> IsToken(t)
    ensures s == "" ==> r == {}
  {
    var scrubbed := ScrubToken(Lower(s));
    var ws := Words(scrubbed);
    assert forall i, k :: 0 <= i < |ws| && 0 <= k < |ws[i]| ==> IsLowerAlnum(ws[i][k]) by {
      forall i, k | 0 <= i < |ws| && 0 <= k < |ws[i]|
        ensures IsLowerAlnum(ws[i][k])
      {
        WordsChars(scrubbed, i, k);
      }
    }
    set w | w in ws
  }

  /** Every character of a word of `s` is a character of `s` that is not a space. */
  lemma {:induction false} WordsChars(s: string, i: nat, k: nat)
    requires i < |Words(s)| && k < |Words(s)[i]|
    ensures exists j :: 0 <= j < |s| && s[j] == Words(s)[i][k] && !IsSpace(s[j])
    decreases |s|
  {
    if IsSpace(s[0]) {
      WordsChars(s[1..], i, k);
      var j :| 0 <= j < |s[1..]| && s[1..][j] == Words(s[1..])[i][k] && !IsSpace(s[1..][j]);
      assert s[j + 1] == s[1..][j];
    } else {
      var w := Run(s);
      if i == 0 {
        assert s[k] == w[k];
      } else {
        WordsChars(s[|w|..], i - 1, k);
        var j :| 0 <= j < |s[|w|..]| && s[|w|..][j] == Words(s[|w|..])[i - 1][k] && !IsSpace(s[|w|..][j]);
        assert s[j + |w|] == s[|w|..][j];
      }
    }
  }

  /** An overlap ratio `num / den` with `den > 0`, kept exact. */
  datatype Ratio = Ratio(num: nat, den: nat)

  /** `overlapRatio(a, b)`: shared tokens over the size of the smaller set; 0 when either
      set is empty. */
  function OverlapOf(a: set<string>, b: set<string>): Ratio
  {
    if |a| == 0 || |b| == 0 then Ratio(0, 1) else Ratio(|a * b|, Min(|a|, |b|))
  }

  /** `ratio >= 0.6` */
  predicate AtLeastSixTenths(r: Ratio) { 5 * r.num >= 3 * r.den }

  /** The loop of `overlapRatio` that counts the tokens of `a` found in `b`. */
  method OverlapRatio(a: set<string>, b: set<string>) returns (r: Ratio)
    ensures r == OverlapOf(a, b)
  {
    if |a| == 0 || |b| == 0 {
      return Ratio(0, 1);
    }
    var inter := 0;
    var rest := a;
    while rest != {}
      invariant rest <= a
      invariant inter == |(a - rest) * b|
      decreases |rest|
    {
      var t :| t in rest;
      CountStep(a, b, rest, t);
      if t in b {
        inter := inter + 1;
      }
      rest := rest - {t};
    }
    assert a - rest == a;
    var denom := Min(|a|, |b|);
    r := Ratio(inter, denom);
  }

  lemma CountStep(a: set<string>, b: set<string>, rest: set<string>, t: string)
    requires rest <= a && t in rest
    ensures |(a - (rest - {t})) * b| == |(a - rest) * b| + (if t in b then 1 else 0)
  {
    var before := (a - rest) * b;
    var after := (a - (rest - {t})) * b;
    if t in b {
      assert after == before + {t};
      assert t !in before;
    } else {
      assert after == before;
    }
  }

  /** The ratio is a fraction in [0, 1], 0 when either set is empty. */
  lemma OverlapBounds(a: set<string>, b: set<string>)
    ensures OverlapOf(a, b).den > 0
    ensures OverlapOf(a, b).num <= OverlapOf(a, b).den
    ensures (|a| == 0 || |b| == 0) ==> OverlapOf(a, b).num == 0
  {
    if |a| > 0 && |b| > 0 {
      SubsetCard(a * b, a);
      SubsetCard(a * b, b);
    }
  }

  lemma SubsetCard(x: set<string>, y: set<string>)
    requires x <= y
    ensures |x| <= |y|
  {
    assert y == x + (y - x);
  }

  /** The ratio does not depend on the order of its arguments. */
  lemma OverlapSymmetric(a: set<string>, b: set<string>)
    ensures OverlapOf(a, b) == OverlapOf(b, a)
  {
    assert a * b == b * a;
  }

  /** A non-empty set overlaps itself completely. */
  lemma OverlapSelf(a: set<string>)
    requires |a| > 0
    ensures OverlapOf(a, a).num == OverlapOf(a, a).den
    ensures AtLeastSixTenths(OverlapOf(a, a))
  {
    assert a * a == a;
  }

  // ---------------------------------------------------------------------------
  // scoreMatch

  /** The three NAP fields; "" is a missing field. */
  datatype Nap = Nap(name: string, address: string, phone: string)

  /** `mismatch.phone`: the two normalised phones. */
  datatype PhonePair = PhonePair(golden: Option<string>, observed: Option<string>)

  /** `mismatch.address` / `mismatch.name`: the partial overlap and the raw values. */
  datatype OverlapNote = OverlapNote(overlap: Ratio, golden: string, observed: string)

  datatype Mismatch = Mismatch(phone: Option<PhonePair>, address: Option<OverlapNote>, name: Option<OverlapNote>)

  datatype Flags = Flags(phone: bool, address: bool, name: bool)

  datatype MatchResult = MatchResult(score: int, mismatch: Mismatch, flags: Flags)

  /** Two normalised phones agree when equal or when either ends with the other. */
  predicate PhonesAgree(g: Option<string>, o: Option<string>)
  {
    g.Some? && o.Some? && (g.value == o.value || EndsWith(g.value, o.value) || EndsWith(o.value, g.value))
  }

  /** The points each decision is worth: 60 for the phone, 30 for the address, 10 for
      the name. */
  function Points(f: Flags): int
  {
    (if f.phone then 60 else 0) + (if f.address then 30 else 0) + (if f.name then 10 else 0)
  }

  /** The outcome of `scoreMatch` as one value: each field's decision, the points, and a
      note for every field that is present but does not match. */
  function MatchOf(golden: Nap, obs: Nap): MatchResult
  {
    var g, o := NormalizePhoneAU(golden.phone), NormalizePhoneAU(obs.phone);
    var ao := OverlapOf(TokenSet(golden.address), TokenSet(obs.address));
    var no := OverlapOf(TokenSet(golden.name), TokenSet(obs.name));
    var flags := Flags(PhonesAgree(g, o), AtLeastSixTenths(ao), AtLeastSixTenths(no));
    var mismatch := Mismatch(
      if (g.Some? && o.Some? && !flags.phone) || g.Some? != o.Some? then Some(PhonePair(g, o)) else None,
      if !flags.address && ao.num > 0 then Some(OverlapNote(ao, golden.address, obs.address)) else None,
      if !flags.name && no.num > 0 then Some(OverlapNote(no, golden.name, obs.name)) else None);
    MatchResult(Points(flags), mismatch, flags)
  }

  /** `scoreMatch({ golden, obs })`: phone, then address, then name, each adding its
      points or noting the mismatch. */
  method ScoreMatch(golden: Nap, obs: Nap) returns (m: MatchResult)
    ensures m == MatchOf(golden, obs)
  {
    var score := 0;
    var mismatch := Mismatch(None, None, None);

    var gPhone := NormalizePhoneAU(golden.phone);
    var oPhone := NormalizePhoneAU(obs.phone);
    var phoneMatch := false;
    if gPhone.Some? && oPhone.Some? {
      if gPhone.value == oPhone.value || EndsWith(gPhone.value, oPhone.value) || EndsWith(oPhone.value, gPhone.value) {
        score := score + 60;
        phoneMatch := true;
      } else {
        mismatch := mismatch.(phone := Some(PhonePair(gPhone, oPhone)));
      }
    } else if gPhone.Some? || oPhone.Some? {
      mismatch := mismatch.(phone := Some(PhonePair(gPhone, oPhone)));
    }

    var addrOverlap := OverlapRatio(TokenSet(golden.address), TokenSet(obs.address));
    var addressMatch := AtLeastSixTenths(addrOverlap);
    if addressMatch {
      score := score + 30;
    } else if addrOverlap.num > 0 {
      mismatch := mismatch.(address := Some(OverlapNote(addrOverlap, golden.address, obs.address)));
    }

    var nameOverlap := OverlapRatio(TokenSet(golden.name), TokenSet(obs.name));
    var nameMatch := AtLeastSixTenths(nameOverlap);
    if nameMatch {
      score := score + 10;
    } else if nameOverlap.num > 0 {
      mismatch := mismatch.(name := Some(OverlapNote(nameOverlap, golden.name, obs.name)));
    }

    m := MatchResult(score, mismatch, Flags(phoneMatch, addressMatch, nameMatch));
    assert m.flags == MatchOf(golden, obs).flags;
    assert m.score == Points(m.flags);
    assert m.mismatch == MatchOf(golden, obs).mismatch;
  }

  /** A note and a match exclude each other; a note records a partial overlap (above 0,
      below 0.6); a field missing on the golden side is neither matched nor noted; a
      phone present on one side only is noted. */
  lemma MatchNotes(golden: Nap, obs: Nap)
    ensures var m := MatchOf(golden, obs);
      && (m.flags.address ==> m.mismatch.address.None?)
      && (m.flags.name ==> m.mismatch.name.None?)
      && (m.flags.phone ==> m.mismatch.phone.None?)
      && (m.mismatch.address.Some? ==> 0 < m.mismatch.address.value.overlap.num && !AtLeastSixTenths(m.mismatch.address.value.overlap))
      && (m.mismatch.name.Some? ==> 0 < m.mismatch.name.value.overlap.num && !AtLeastSixTenths(m.mismatch.name.value.overlap))
      && (golden.address == "" ==> !m.flags.address && m.mismatch.address.None?)
      && (golden.name == "" ==> !m.flags.name && m.mismatch.name.None?)
      && (Digits(golden.phone) == "" && Digits(obs.phone) == "" ==> !m.flags.phone && m.mismatch.phone.None?)
      && ((Digits(golden.phone) == "") != (Digits(obs.phone) == "") ==>
            !m.flags.phone && m.mismatch.phone == Some(PhonePair(NormalizePhoneAU(golden.phone), NormalizePhoneAU(obs.phone))))
  {
    NormalizePhoneShape(golden.phone);
    NormalizePhoneShape(obs.phone);
  }

  /** The score is a sum of a subset of {60, 30, 10}: it lies in [0, 100], and is 100
      exactly when all three fields match. */
  lemma PointsRange(f: Flags)
    ensures 0 <= Points(f) <= 100
    ensures Points(f) == 100 <==> f.phone && f.address && f.name
    ensures Points(f) >= 60 <==> f.phone
    ensures Points(f) % 10 == 0
  {
  }

  /** Identical non-empty records match on every field and score 100. */
  lemma SameRecordScoresFull(r: Nap)
    requires Digits(r.phone) != "" && TokenSet(r.address) != {} && TokenSet(r.name) != {}
    ensures PhonesAgree(NormalizePhoneAU(r.phone), NormalizePhoneAU(r.phone))
    ensures AtLeastSixTenths(OverlapOf(TokenSet(r.address), TokenSet(r.address)))
    ensures AtLeastSixTenths(OverlapOf(TokenSet(r.name), TokenSet(r.name)))
  {
    NormalizePhoneShape(r.phone);
    OverlapSelf(TokenSet(r.address));
    OverlapSelf(TokenSet(r.name));
  }
}
