/** The Australian address helpers `cityFromAddress`, `stateFromAddress` and
    `postcodeFromAddress`. The discovery route and the directory probes carry identical
    copies; both use the definitions here. */
module Address {
  import opened Strings

  /** The alternatives of `/\b(ACT|NSW|NT|QLD|SA|TAS|VIC|WA)\b/i`, in the order tried. */
  const StateCodes: seq<string> := ["ACT", "NSW", "NT", "QLD", "SA", "TAS", "VIC", "WA"]

  /** Case-insensitive comparison without the `u` flag folds only ASCII letters. */
  function UpperAscii(c: char): char
  {
    if IsLowerAlpha(c) then (c as int - 32) as char else c
  }

  /** `\b` just before a word character at `p`. */
  predicate BoundaryBefore(s: string, p: nat)
    requires p <= |s|
  {
    p == 0 || !IsWordChar(s[p - 1])
  }

  /** `\b` just after a word character ending at `e`. */
  predicate BoundaryAfter(s: string, e: nat)
    requires e <= |s|
  {
    e == |s| || !IsWordChar(s[e])
  }

  /** The state pattern matches `code` at position `p` of `s`. */
  predicate CodeAt(s: string, p: nat, code: string)
  {
    && p + |code| <= |s|
    && BoundaryBefore(s, p)
    && (forall k :: 0 <= k < |code| ==> UpperAscii(s[p + k]) == code[k])
    && BoundaryAfter(s, p + |code|)
  }

  /** The first alternative among `codes` that matches at `p`. */
  function FirstCodeAt(s: string, p: nat, codes: seq<string>): (r: Option<string>)
    ensures r.Some? ==> r.value in codes && CodeAt(s, p, r.value)
    ensures r.None? ==> forall c :: c in codes ==> !CodeAt(s, p, c)
  {
    if |codes| == 0 then None
    else if CodeAt(s, p, codes[0]) then Some(codes[0])
    else FirstCodeAt(s, p, codes[1..])
  }

  /** The leftmost match of one of `codes` at or after `p`. */
  function StateFrom(s: string, p: nat, codes: seq<string>): (r: Option<string>)
    requires p <= |s|
    ensures r.Some? ==> r.value in codes
    ensures r.Some? ==>
      exists q: nat :: p <= q <= |s| && CodeAt(s, q, r.value) &&
        (forall q': nat, c :: p <= q' < q && c in codes ==> !CodeAt(s, q', c))
    ensures r.None? ==> forall q: nat, c :: p <= q && c in codes ==> !CodeAt(s, q, c)
    decreases |s| - p
  {
    match FirstCodeAt(s, p, codes)
    case Some(c) => Some(c)
    case None => if p == |s| then None else StateFrom(s, p + 1, codes)
  }

  /** `stateFromAddress(address)`: the upper-cased code of the leftmost state match. */
  function StateFromAddress(address: string): (r: Option<string>)
    ensures r.Some? ==> r.value in StateCodes && exists q: nat :: CodeAt(address, q, r.value)
    ensures r.None? ==> forall q: nat, c :: c in StateCodes ==> !CodeAt(address, q, c)
  {
    StateFrom(address, 0, StateCodes)
  }

  /** `/\b(\d{4})\b/` matches at position `p` of `s`. */
  predicate PostcodeAt(s: string, p: nat)
  {
    && p + 4 <= |s|
    && BoundaryBefore(s, p)
    && (forall k :: p <= k < p + 4 ==> IsDigit(s[k]))
    && BoundaryAfter(s, p + 4)
  }

  function PostcodeFrom(s: string, p: nat): (r: Option<string>)
    requires p <= |s|
    ensures r.Some? ==>
      exists q: nat :: p <= q && PostcodeAt(s, q) && r.value == s[q..q + 4] &&
        (forall q': nat :: p <= q' < q ==> !PostcodeAt(s, q'))
    ensures r.None? ==> forall q: nat :: p <= q ==> !PostcodeAt(s, q)
    decreases |s| - p
  {
    if PostcodeAt(s, p) then Some(s[p..p + 4])
    else if p == |s| then None
    else PostcodeFrom(s, p + 1)
  }

  /** `postcodeFromAddress(address)`: the leftmost four-digit token. */
  function PostcodeFromAddress(address: string): (r: Option<string>)
    ensures r.Some? ==> |r.value| == 4 && forall k :: 0 <= k < 4 ==> IsDigit(r.value[k])
    ensures r.Some? ==> exists q: nat :: PostcodeAt(address, q) && r.value == address[q..q + 4]
    ensures r.None? ==> forall q: nat :: !PostcodeAt(address, q)
  {
    PostcodeFrom(address, 0)
  }

  /** `.map(f).filter(Boolean)` over strings. */
  function MapNonEmpty(xs: seq<string>, f: string -> string): seq<string>
  {
    if |xs| == 0 then [] else (if f(xs[0]) != "" then [f(xs[0])] else []) + MapNonEmpty(xs[1..], f)
  }

  /** The filter distributes over concatenation. */
  lemma {:induction false} MapNonEmptyAppend(a: seq<string>, b: seq<string>, f: string -> string)
    ensures MapNonEmpty(a + b, f) == MapNonEmpty(a, f) + MapNonEmpty(b, f)
  {
    if |a| == 0 {
      assert a + b == b;
    } else {
      var head := if f(a[0]) != "" then [f(a[0])] else [];
      assert (a + b)[1..] == a[1..] + b;
      assert (a + b)[0] == a[0];
      MapNonEmptyAppend(a[1..], b, f);
      calc {
        MapNonEmpty(a + b, f);
        head + MapNonEmpty(a[1..] + b, f);
        head + (MapNonEmpty(a[1..], f) + MapNonEmpty(b, f));
        (head + MapNonEmpty(a[1..], f)) + MapNonEmpty(b, f);
      }
    }
  }

  /** Every kept string is the non-empty image of an input, and nothing is kept exactly
      when every image is empty. */
  lemma {:induction false} MapNonEmptySound(xs: seq<string>, f: string -> string)
    ensures var r := MapNonEmpty(xs, f);
      && (forall i :: 0 <= i < |r| ==> r[i] != "" && exists x :: x in xs && r[i] == f(x))
      && (|r| == 0 <==> forall x :: x in xs ==> f(x) == "")
  {
    if |xs| > 0 {
      MapNonEmptySound(xs[1..], f);
      assert forall x :: x in xs <==> x == xs[0] || x in xs[1..];
    }
  }

  /** Which input a kept string is the image of. */
  lemma {:induction false} MapNonEmptyWitness(xs: seq<string>, f: string -> string, i: nat)
    returns (k: nat)
    requires i < |MapNonEmpty(xs, f)|
    ensures k < |xs| && MapNonEmpty(xs, f)[i] == f(xs[k]) && f(xs[k]) != ""
  {
    if f(xs[0]) != "" && i == 0 {
      k := 0;
    } else {
      var j := if f(xs[0]) != "" then i - 1 else i;
      var k' := MapNonEmptyWitness(xs[1..], f, j);
      k := k' + 1;
    }
  }

  /** Nothing is kept only when every image is empty. */
  lemma {:induction false} MapNonEmptyNone(xs: seq<string>, f: string -> string)
    requires |MapNonEmpty(xs, f)| == 0
    ensures forall x :: x in xs ==> f(x) == ""
  {
    if |xs| > 0 {
      MapNonEmptyNone(xs[1..], f);
      assert forall x :: x in xs ==> x == xs[0] || x in xs[1..];
    }
  }

  /** The `n`-th (from 0) input with a non-empty image lands at position `n`. */
  lemma MapNonEmptyInOrder(xs: seq<string>, f: string -> string, j: nat)
    requires j < |xs| && f(xs[j]) != ""
    ensures |MapNonEmpty(xs[..j], f)| < |MapNonEmpty(xs, f)|
    ensures MapNonEmpty(xs, f)[|MapNonEmpty(xs[..j], f)|] == f(xs[j])
  {
    var pre, post := xs[..j], xs[j + 1..];
    assert xs == pre + ([xs[j]] + post);
    MapNonEmptyAppend(pre, [xs[j]] + post, f);
    MapNonEmptyAppend([xs[j]], post, f);
    assert [xs[j]][1..] == [];
  }

  /** `.map(s => s.trim()).filter(Boolean)` over the comma pieces. */
  function NonEmptyTrimmed(pieces: seq<string>): seq<string>
  {
    MapNonEmpty(pieces, Trim)
  }

  /** Every kept piece is a non-empty trimmed piece, and nothing is kept exactly when every
      piece is blank. */
  lemma NonEmptyTrimmedSpec(pieces: seq<string>)
    ensures var r := NonEmptyTrimmed(pieces);
      && (forall i :: 0 <= i < |r| ==> r[i] != "" && exists piece :: piece in pieces && r[i] == Trim(piece))
      && (|r| == 0 <==> forall piece :: piece in pieces ==> Trim(piece) == "")
  {
    MapNonEmptySound(pieces, Trim);
  }

  /** The number of non-blank pieces before position `j`. */
  function NonBlankBefore(pieces: seq<string>, j: nat): nat
    requires j <= |pieces|
  {
    |NonEmptyTrimmed(pieces[..j])|
  }

  /** Position `j` holds the `n`-th (from 0) piece that is not blank once trimmed. */
  predicate NthNonBlank(pieces: seq<string>, j: int, n: nat)
  {
    0 <= j < |pieces| && Trim(pieces[j]) != "" && NonBlankBefore(pieces, j) == n
  }

  /** The trimmed filter keeps every non-blank piece, in input order, and nothing else:
      the `n`-th non-blank piece lands at position `n`. */
  lemma NonEmptyTrimmedInOrder(pieces: seq<string>)
    ensures |NonEmptyTrimmed(pieces)| == NonBlankBefore(pieces, |pieces|)
    ensures forall j, n: nat :: NthNonBlank(pieces, j, n) ==>
      n < |NonEmptyTrimmed(pieces)| && NonEmptyTrimmed(pieces)[n] == Trim(pieces[j])
  {
    assert pieces[..|pieces|] == pieces;
    forall j, n: nat | NthNonBlank(pieces, j, n)
      ensures n < |NonEmptyTrimmed(pieces)| && NonEmptyTrimmed(pieces)[n] == Trim(pieces[j])
    {
      MapNonEmptyInOrder(pieces, Trim, j);
    }
  }

  /** The city rule: the second non-blank comma piece, trimmed; the only one when there is
      just one; none when every piece is blank. */
  ghost predicate IsCityGuess(address: string, city: Option<string>)
  {
    var pieces := Split(address, ',');
    && (forall j :: NthNonBlank(pieces, j, 1) ==> city == Some(Trim(pieces[j])))
    && (NonBlankBefore(pieces, |pieces|) == 1 ==>
          forall j :: NthNonBlank(pieces, j, 0) ==> city == Some(Trim(pieces[j])))
    && (city.None? <==> NonBlankBefore(pieces, |pieces|) == 0)
  }

  /** `cityFromAddress(address)`: the second non-empty comma segment, or the first when
      there is only one. */
  function CityFromAddress(address: string): Option<string>
  {
    var parts := NonEmptyTrimmed(Split(address, ','));
    if |parts| >= 2 then Some(parts[1])
    else if |parts| == 1 then Some(parts[0])
    else None
  }

  /** The city guess follows the city rule. */
  lemma CityRule(address: string)
    ensures IsCityGuess(address, CityFromAddress(address))
  {
    NonEmptyTrimmedInOrder(Split(address, ','));
  }

  /** A city guess is a non-empty, trimmed comma segment of the address; there is none
      exactly when every segment is blank. */
  lemma CityIsSegment(address: string)
    ensures var r := CityFromAddress(address);
      && (r.Some? ==> r.value != "" && !IsSpace(r.value[0]) && !IsSpace(r.value[|r.value| - 1]))
      && (r.Some? ==> forall k :: 0 <= k < |r.value| ==> r.value[k] != ',')
      && (r.Some? ==> exists piece :: piece in Split(address, ',') && r.value == Trim(piece))
      && (r.None? <==> forall piece :: piece in Split(address, ',') ==> Trim(piece) == "")
  {
    if CityFromAddress(address).Some? {
      var piece := CityPiece(address);
    } else {
      MapNonEmptyNone(Split(address, ','), Trim);
    }
  }

  /** The comma piece a city guess is trimmed from. */
  lemma CityPiece(address: string) returns (piece: string)
    requires CityFromAddress(address).Some?
    ensures piece in Split(address, ',') && Trim(piece) != ""
    ensures CityFromAddress(address).value == Trim(piece)
    ensures forall k :: 0 <= k < |Trim(piece)| ==> Trim(piece)[k] != ','
  {
    var pieces := Split(address, ',');
    var parts := NonEmptyTrimmed(pieces);
    var i := if |parts| >= 2 then 1 else 0;
    var k := MapNonEmptyWitness(pieces, Trim, i);
    piece := pieces[k];
    NoCommaInTrim(piece);
  }

  lemma NoCommaInTrim(piece: string)
    requires forall k :: 0 <= k < |piece| ==> piece[k] != ','
    ensures forall k :: 0 <= k < |Trim(piece)| ==> Trim(piece)[k] != ','
  {
    var k := TrimIsSlice(piece);
    assert forall j :: 0 <= j < |Trim(piece)| ==> Trim(piece)[j] == piece[k + j];
  }
}
