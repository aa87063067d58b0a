/** The fuzzy text helpers of the discovery route (src/app/api/audit/discovery/urls/route.ts):
    `normalizeSimple`, `generateNameVariants` and the bounded Damerau-Levenshtein distance. */
module Fuzzy {
  import opened Strings

  // ---------------------------------------------------------------------------
  // normalizeSimple

  /** `normalize('NFD').replace(/[̀-ͯ]/g, '')` on one character: combining marks
      are dropped and the Latin-1 letters that decompose lose their accent. */
  function StripChar(c: char): (r: string)
    ensures |r| <= 1
    ensures IsLowerAlnum(c) || IsSpace(c) || c == '&' || c == '-' ==> r == [c]
    ensures |r| == 1 && !('\U{C0}' <= c <= '\U{FF}') ==> r[0] == c
  {
    if '\U{300}' <= c <= '\U{36F}' then ""
    else if '\U{C0}' <= c <= '\U{C5}' then "A"
    else if c == '\U{C7}' then "C"
    else if '\U{C8}' <= c <= '\U{CB}' then "E"
    else if '\U{CC}' <= c <= '\U{CF}' then "I"
    else if c == '\U{D1}' then "N"
    else if '\U{D2}' <= c <= '\U{D6}' then "O"
    else if '\U{D9}' <= c <= '\U{DC}' then "U"
    else if c == '\U{DD}' then "Y"
    else if '\U{E0}' <= c <= '\U{E5}' then "a"
    else if c == '\U{E7}' then "c"
    else if '\U{E8}' <= c <= '\U{EB}' then "e"
    else if '\U{EC}' <= c <= '\U{EF}' then "i"
    else if c == '\U{F1}' then "n"
    else if '\U{F2}' <= c <= '\U{F6}' then "o"
    else if '\U{F9}' <= c <= '\U{FC}' then "u"
    else if c == '\U{FD}' || c == '\U{FF}' then "y"
    else [c]
  }

  /** `stripDiacritics` */
  function StripDiacritics(s: string): string
  {
    if |s| == 0 then "" else StripChar(s[0]) + StripDiacritics(s[1..])
  }

  /** The characters `normalizeSimple` keeps before collapsing whitespace: `[a-z0-9\s&-]`. */
  predicate Kept(c: char) { IsLowerAlnum(c) || IsSpace(c) || c == '&' || c == '-' }

  /** The characters a normalised string is made of: `[a-z0-9 &-]`. */
  predicate NormalChar(c: char) { IsLowerAlnum(c) || c == ' ' || c == '&' || c == '-' }

  /** `.replace(/[^a-z0-9\s&-]/g, ' ')` */
  function Scrub(s: string): (r: string)
    ensures |r| == |s|
    ensures forall i :: 0 <= i < |r| ==> Kept(r[i])
  {
    seq(|s|, i requires 0 <= i < |s| => if Kept(s[i]) then s[i] else ' ')
  }

  /** `.replace(/\s+/g, ' ')`: every maximal run of whitespace becomes one space. */
  function Collapse(s: string): (r: string)
    ensures |r| > 0 <==> |s| > 0
    ensures |r| > 0 ==> (r[0] == ' ' <==> IsSpace(s[0]))
    ensures |r| > 0 && !IsSpace(s[0]) ==> r[0] == s[0]
    decreases |s|
  {
    if |s| == 0 then ""
    else if IsSpace(s[0]) then " " + Collapse(TrimStart(s[1..]))
    else [s[0]] + Collapse(s[1..])
  }

  /** The shape of every result of `normalizeSimple`. */
  predicate IsNormal(t: string)
  {
    && (forall i :: 0 <= i < |t| ==> NormalChar(t[i]))
    && (|t| > 0 ==> t[0] != ' ' && t[|t| - 1] != ' ')
    && (forall i :: 0 <= i < |t| - 1 ==> !(t[i] == ' ' && t[i + 1] == ' '))
  }

  /** `normalizeSimple(s)`: lower-case, strip accents, turn every other character outside
      `[a-z0-9\s&-]` into a space, collapse whitespace and trim. */
  function NormalizeSimple(s: string): string
  {
    Trim(Collapse(Scrub(StripDiacritics(Lower(s)))))
  }

  lemma {:induction false} CollapseShape(s: string)
    requires forall i :: 0 <= i < |s| ==> Kept(s[i])
    ensures forall i :: 0 <= i < |Collapse(s)| ==> NormalChar(Collapse(s)[i])
    ensures forall i :: 0 <= i < |Collapse(s)| - 1 ==> !(Collapse(s)[i] == ' ' && Collapse(s)[i + 1] == ' ')
    decreases |s|
  {
    if |s| > 0 {
      if IsSpace(s[0]) {
        var t := TrimStart(s[1..]);
        CollapseShape(t);
        assert |t| > 0 ==> !IsSpace(t[0]);
      } else {
        CollapseShape(s[1..]);
      }
    }
  }

  lemma TrimKeepsShape(c: string)
    requires forall i :: 0 <= i < |c| ==> NormalChar(c[i])
    requires forall i :: 0 <= i < |c| - 1 ==> !(c[i] == ' ' && c[i + 1] == ' ')
    ensures IsNormal(Trim(c))
  {
    var k := TrimIsSlice(c);
    var t := Trim(c);
    assert forall i :: 0 <= i < |t| ==> t[i] == c[k + i];
  }

  /** Every result of `normalizeSimple` uses only `[a-z0-9 &-]`, with no leading,
      trailing or doubled space. */
  lemma NormalizeSimpleIsNormal(s: string)
    ensures IsNormal(NormalizeSimple(s))
  {
    var sc := Scrub(StripDiacritics(Lower(s)));
    CollapseShape(sc);
    TrimKeepsShape(Collapse(sc));
  }

  lemma NormalCharNotSpace(c: char)
    requires NormalChar(c) && c != ' '
    ensures !IsSpace(c)
  {
  }

  lemma {:induction false} StripDiacriticsNormal(t: string)
    requires forall i :: 0 <= i < |t| ==> NormalChar(t[i])
    ensures StripDiacritics(t) == t
  {
    if |t| > 0 {
      StripDiacriticsNormal(t[1..]);
      assert StripChar(t[0]) == [t[0]];
      assert t == [t[0]] + t[1..];
    }
  }

  lemma LowerNormal(t: string)
    requires forall i :: 0 <= i < |t| ==> NormalChar(t[i])
    ensures Lower(t) == t
  {
    assert forall i :: 0 <= i < |t| ==> LowerChar(t[i]) == t[i];
  }

  lemma ScrubNormal(t: string)
    requires forall i :: 0 <= i < |t| ==> NormalChar(t[i])
    ensures Scrub(t) == t
  {
    assert forall i :: 0 <= i < |t| ==> Kept(t[i]);
  }

  lemma {:induction false} CollapseNormal(t: string)
    requires forall i :: 0 <= i < |t| ==> NormalChar(t[i])
    requires |t| > 0 ==> t[0] != ' '
    requires forall i :: 0 <= i < |t| - 1 ==> !(t[i] == ' ' && t[i + 1] == ' ')
    ensures Collapse(t) == t
    decreases |t|
  {
    if |t| > 0 {
      NormalCharNotSpace(t[0]);
      var rest := t[1..];
      if |rest| > 0 && rest[0] == ' ' {
        var after := t[2..];
        if |after| > 0 {
          NormalCharNotSpace(after[0]);
        }
        assert TrimStart(after) == after;
        CollapseNormal(after);
        assert Collapse(rest) == " " + after;
        assert t == [t[0]] + rest;
      } else {
        CollapseNormal(rest);
        assert t == [t[0]] + rest;
      }
    }
  }

  /** A normalised string is a fixed point of `normalizeSimple`. */
  lemma NormalIsFixedPoint(t: string)
    requires IsNormal(t)
    ensures NormalizeSimple(t) == t
  {
    LowerNormal(t);
    StripDiacriticsNormal(t);
    ScrubNormal(t);
    CollapseNormal(t);
    if |t| > 0 {
      NormalCharNotSpace(t[0]);
      NormalCharNotSpace(t[|t| - 1]);
    }
    TrimNoSpace(t);
  }

  /** Applying `normalizeSimple` twice equals applying it once. */
  lemma NormalizeSimpleIdempotent(s: string)
    ensures NormalizeSimple(NormalizeSimple(s)) == NormalizeSimple(s)
  {
    NormalizeSimpleIsNormal(s);
    NormalIsFixedPoint(NormalizeSimple(s));
  }

  // ---------------------------------------------------------------------------
  // generateNameVariants

  // `.replace(/\s*&\s*/g, ' and ')`
  function AmpToAnd(s: string): (r: string)
    ensures |s| > 0 ==> |r| > 0
    decreases |s|
  {
    if |s| == 0 then ""
    else
      var t := TrimStart(s);
      if |t| > 0 && t[0] == '&' then " and " + AmpToAnd(TrimStart(t[1..]))
      else [s[0]] + AmpToAnd(s[1..])
  }

  /** `.replace(/-/g, ' ')` */
  function HyphensToSpaces(s: string): (r: string)
    ensures |r| == |s|
  {
    seq(|s|, i requires 0 <= i < |s| => if s[i] == '-' then ' ' else s[i])
  }

  /** `.replace(/\s+/g, '')` */
  function RemoveSpaces(s: string): (r: string)
    ensures forall i :: 0 <= i < |r| ==> !IsSpace(r[i])
    ensures (exists i :: 0 <= i < |s| && !IsSpace(s[i])) ==> |r| > 0
  {
    if |s| == 0 then ""
    else (if IsSpace(s[0]) then "" else [s[0]]) + RemoveSpaces(s[1..])
  }

  /** `generateNameVariants(name)` */
  function NameVariants(name: string): seq<string>
  {
    var base := NormalizeSimple(name);
    if base == "" then []
    else Filter(Dedup([base, AmpToAnd(base), HyphensToSpaces(base), RemoveSpaces(base)]),
                NonEmpty)
  }

  predicate NonEmpty(v: string) { v != "" }

  /** No name gives variants when its normal form is empty; otherwise the normal form
      comes first, and the variants are at most four, distinct and non-empty. */
  lemma NameVariantsShape(name: string)
    ensures NormalizeSimple(name) == "" ==> NameVariants(name) == []
    ensures NormalizeSimple(name) != "" ==>
      var r := NameVariants(name);
      && 0 < |r| <= 4 && r[0] == NormalizeSimple(name)
      && Distinct(r)
      && (forall i :: 0 <= i < |r| ==> r[i] != "")
  {
    var base := NormalizeSimple(name);
    if base != "" {
      var raw := [base, AmpToAnd(base), HyphensToSpaces(base), RemoveSpaces(base)];
      DedupHead(raw);
      var dd := Dedup(raw);
      FilterDistinct(dd, NonEmpty);
      FilterHead(dd, NonEmpty);
      var r := Filter(dd, NonEmpty);
      assert forall i :: 0 <= i < |r| ==> r[i] in r;
    }
  }

  lemma {:induction false} FilterDistinct(xs: seq<string>, f: string -> bool)
    requires Distinct(xs)
    ensures Distinct(Filter(xs, f))
  {
    if |xs| > 0 {
      FilterDistinct(xs[1..], f);
      assert xs[0] !in xs[1..];
    }
  }

  lemma FilterHead(xs: seq<string>, f: string -> bool)
    requires |xs| > 0 && f(xs[0])
    ensures |Filter(xs, f)| > 0 && Filter(xs, f)[0] == xs[0]
  {
  }

  // ---------------------------------------------------------------------------
  // dlDistance

  function Abs(x: int): nat { if x < 0 then -x else x }

  /** One row of the table, `d[i + 1, 2..]`, from the rows above it and the last rows
      `da` at which each character of `a` was seen. */
  method FillRow(a: string, b: string, da: map<char, int>, d: array2<int>, i: int)
    requires d.Length0 == |a| + 2 && d.Length1 == |b| + 2 && 1 <= i <= |a|
    requires forall c :: c in da ==> 1 <= da[c] < i
    requires forall x, y :: 0 <= x < d.Length0 && 0 <= y < d.Length1 ==> d[x, y] >= 0
    requires forall x, y :: 1 <= x < d.Length0 && 1 <= y < d.Length1 && (x <= i || y == 1) ==>
               d[x, y] <= Max(x - 1, y - 1)
    modifies d
    ensures forall x, y :: 0 <= x < d.Length0 && 0 <= y < d.Length1 ==> d[x, y] >= 0
    ensures forall x, y :: 1 <= x < d.Length0 && 1 <= y < d.Length1 && (x <= i + 1 || y == 1) ==>
              d[x, y] <= Max(x - 1, y - 1)
  {
    var db := 0;
    var j := 1;
    while j <= |b|
      invariant 1 <= j <= |b| + 1
      invariant 0 <= db < j
      invariant forall x, y :: 0 <= x < d.Length0 && 0 <= y < d.Length1 ==> d[x, y] >= 0
      invariant forall x, y :: 1 <= x < d.Length0 && 1 <= y < d.Length1 && (x <= i || y == 1 || (x == i + 1 && y <= j)) ==>
                  d[x, y] <= Max(x - 1, y - 1)
    {
      var i1 := if b[j - 1] in da then da[b[j - 1]] else 0;
      var j1 := db;
      var cost := 1;
      if a[i - 1] == b[j - 1] { cost := 0; db := j; }
      var v := Min(Min(d[i, j] + cost, d[i + 1, j] + 1),
                   Min(d[i, j + 1] + 1, d[i1, j1] + (i - i1 - 1) + 1 + (j - j1 - 1)));
      d[i + 1, j + 1] := v;
      j := j + 1;
    }
  }

  /** `dlDistance(a, b, maxDist)`: Damerau-Levenshtein distance over a (|a|+2)x(|b|+2)
      table with the last row at which each character was seen, abandoning with
      `maxDist + 1` as soon as a whole row exceeds `maxDist`. */
  method DlDistance(a: string, b: string, maxDist: nat) returns (r: int)
    ensures a == b ==> r == 0
    ensures a != b && Abs(|a| - |b|) > maxDist ==> r == maxDist + 1
    ensures a != b && Abs(|a| - |b|) <= maxDist && (|a| == 0 || |b| == 0) ==> r == Max(|a|, |b|)
    ensures r >= 0
    ensures r <= Max(|a|, |b|) || r == maxDist + 1
  {
    if a == b { return 0; }
    var la, lb := |a|, |b|;
    if Abs(la - lb) > maxDist { return maxDist + 1; }
    if la == 0 || lb == 0 { return Max(la, lb); }
    var inf := la + lb;
    var da: map<char, int> := map[];
    var d := new int[la + 2, lb + 2]((_, _) => 0);
    d[0, 0] := inf;
    for i := 0 to la + 1
      invariant forall x, y :: 0 <= x < la + 2 && 0 <= y < lb + 2 ==> d[x, y] >= 0
      invariant forall x :: 1 <= x <= i ==> d[x, 1] == x - 1
    {
      d[i + 1, 1] := i;
      d[i + 1, 0] := inf;
    }
    for j := 0 to lb + 1
      invariant forall x, y :: 0 <= x < la + 2 && 0 <= y < lb + 2 ==> d[x, y] >= 0
      invariant forall x :: 2 <= x <= la + 1 ==> d[x, 1] == x - 1
      invariant forall y :: 1 <= y <= j ==> d[1, y] == y - 1
    {
      d[1, j + 1] := j;
      d[0, j + 1] := inf;
    }
    var i := 1;
    while i <= la
      invariant 1 <= i <= la + 1
      invariant forall c :: c in da ==> 1 <= da[c] < i
      invariant forall x, y :: 0 <= x < la + 2 && 0 <= y < lb + 2 ==> d[x, y] >= 0
      invariant forall x, y :: 1 <= x < la + 2 && 1 <= y < lb + 2 && (x <= i || y == 1) ==>
                  d[x, y] <= Max(x - 1, y - 1)
    {
      FillRow(a, b, da, d, i);
      da := da[a[i - 1] := i];
      // early exit band check: the smallest entry of the row just filled
      var m := d[i + 1, 1];
      var k := 2;
      while k <= lb + 1
        invariant 2 <= k <= lb + 2
      {
        if d[i + 1, k] < m { m := d[i + 1, k]; }
        k := k + 1;
      }
      if m > maxDist { return maxDist + 1; }
      i := i + 1;
    }
    r := d[la + 1, lb + 1];
  }
}
