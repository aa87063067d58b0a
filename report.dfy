/** The audit report of src/app/api/audit/report/route.ts: observations are attached to
    registry platforms by host suffix, each platform takes the status of its best row,
    and the weighted contributions give an overall score out of 100. */
module Report {
  import opened Strings
  import opened Web
  import Directories
  import NapMatch

  // ---------------------------------------------------------------------------
  // statusFromScore

  datatype Status = Green | Orange | Red

  /** `statusFromScore(score)`: green from 85, orange from 40, red below 40 or for a
      score that is not a number (`None`). */
  function StatusFromScore(score: Option<int>): (s: Status)
    ensures s == Green <==> score.Some? && score.value >= 85
    ensures s == Orange <==> score.Some? && 40 <= score.value < 85
    ensures s == Red <==> score.None? || score.value < 40
  {
    match score
    case None => Red
    case Some(n) => if n >= 85 then Green else if n >= 40 then Orange else Red
  }

  /** The order of the statuses: red, orange, green. */
  function Rank(s: Status): nat
  {
    match s
    case Red => 0
    case Orange => 1
    case Green => 2
  }

  /** A higher score never gives a worse status. */
  lemma StatusMonotone(a: int, b: int)
    requires a <= b
    ensures Rank(StatusFromScore(Some(a))) <= Rank(StatusFromScore(Some(b)))
  {
  }

  // ---------------------------------------------------------------------------
  // Platforms

  /** A `nap_observations` row as the report reads it; a `null` or absent `source_url`
      is "", a `match_score` that is not a number is `None`. */
  datatype ObsRow = ObsRow(sourceUrl: string, sourceType: string, matchScore: Option<int>, mismatch: Json)

  /** One row of a platform in the report. */
  datatype ReportRow = ReportRow(url: string, sourceType: string, score: Option<int>, status: Status, mismatch: Json)

  datatype Platform = Platform(key: string, name: string, category: Directories.Category, weight: int,
                               rows: seq<ReportRow>)

  /** Whether the registry entry is seeded as a platform: every social, directory,
      review and leads entry, and the maps entries when `includeMaps` is set. */
  predicate Seeds(includeMaps: bool, d: Directories.DirectoryDef)
  {
    || d.category == Directories.Social || d.category == Directories.Directory
    || d.category == Directories.Review || d.category == Directories.Leads
    || (includeMaps && d.category == Directories.Maps)
  }

  function SeedsWith(includeMaps: bool): Directories.DirectoryDef -> bool
  {
    d => Seeds(includeMaps, d)
  }

  /** The registry entries `table` has pairwise distinct keys. */
  predicate KeysUnique(table: seq<Directories.DirectoryDef>)
  {
    forall i, j :: 0 <= i < j < |table| ==> table[i].key != table[j].key
  }

  /** The seeded entries of the registry `table`, in registry order. */
  function Seeded(table: seq<Directories.DirectoryDef>, includeMaps: bool): (r: seq<Directories.DirectoryDef>)
    ensures forall d :: d in r <==> d in table && Seeds(includeMaps, d)
  {
    var r := Filter(table, SeedsWith(includeMaps));
    FilterComplete(table, SeedsWith(includeMaps));
    r
  }

  lemma {:induction false} FilterComplete<T(!new)>(xs: seq<T>, f: T -> bool)
    ensures forall x :: x in xs && f(x) ==> x in Filter(xs, f)
  {
    if |xs| > 0 {
      FilterComplete(xs[1..], f);
      assert forall x :: x in xs ==> x == xs[0] || x in xs[1..];
    }
  }

  /** `findDirectoryByHost` over the registry `table`; on the registry itself this is
      `Directories.FindDirectoryByHost`. */
  function FindByHost(table: seq<Directories.DirectoryDef>, host: string): (r: Option<Directories.DirectoryDef>)
    ensures r.Some? ==> r.value in table
  {
    match Directories.FindIndexFrom(table, host, 0)
    case Some(i) => Some(table[i])
    case None => None
  }

  lemma FindByHostOnRegistry(host: string)
    ensures FindByHost(Directories.AuDirectories, host) == Directories.FindDirectoryByHost(host)
  {
  }

  /** The platform a row is attached to: the first registry entry whose host suffix-
      matches the row's host, unless it is a maps entry and maps are not included. */
  function TargetOf(table: seq<Directories.DirectoryDef>, parse: UrlParser, includeMaps: bool, o: ObsRow): Option<Directories.DirectoryDef>
  {
    if o.sourceUrl == "" then None
    else match HostOf(parse, o.sourceUrl)
      case None => None
      case Some(h) =>
        if h == "" then None
        else match FindByHost(table, h)
          case None => None
          case Some(d) => if !includeMaps && d.category == Directories.Maps then None else Some(d)
  }

  /** An attached row always lands on a seeded platform. */
  lemma TargetIsSeeded(table: seq<Directories.DirectoryDef>, parse: UrlParser, includeMaps: bool, o: ObsRow)
    requires TargetOf(table, parse, includeMaps, o).Some?
    ensures TargetOf(table, parse, includeMaps, o).value in Seeded(table, includeMaps)
  {
  }

  function RowOf(o: ObsRow): ReportRow
  {
    ReportRow(o.sourceUrl, o.sourceType, o.matchScore, StatusFromScore(o.matchScore), o.mismatch)
  }

  /** The rows attached to the platform `key`, in observation order. */
  function RowsFor(table: seq<Directories.DirectoryDef>, parse: UrlParser, includeMaps: bool, obs: seq<ObsRow>, key: string): seq<ReportRow>
  {
    if |obs| == 0 then []
    else
      var pre := RowsFor(table, parse, includeMaps, obs[..|obs| - 1], key);
      var o := obs[|obs| - 1];
      var t := TargetOf(table, parse, includeMaps, o);
      if t.Some? && t.value.key == key then pre + [RowOf(o)] else pre
  }

  function PlatformOf(d: Directories.DirectoryDef, rows: seq<ReportRow>): Platform
  {
    Platform(d.key, d.name, d.category, Directories.WeightOrDefault(d), rows)
  }

  /** `Array.from(byKey.values())`: one platform per seeded entry, in registry order,
      each with the rows attached to it. */
  function PlatformsOf(table: seq<Directories.DirectoryDef>, parse: UrlParser, includeMaps: bool, obs: seq<ObsRow>): (r: seq<Platform>)
    ensures |r| == |Seeded(table, includeMaps)|
  {
    var s := Seeded(table, includeMaps);
    seq(|s|, i requires 0 <= i < |s| => PlatformOf(s[i], RowsFor(table, parse, includeMaps, obs, s[i].key)))
  }

  /** Each row of a platform comes from an observation attached to it, and each attached
      observation's row is among its platform's rows. */
  lemma {:induction false} RowsForSpec(table: seq<Directories.DirectoryDef>, parse: UrlParser, includeMaps: bool, obs: seq<ObsRow>, key: string)
    ensures forall r :: r in RowsFor(table, parse, includeMaps, obs, key) ==>
      exists o :: o in obs && TargetOf(table, parse, includeMaps, o).Some? && TargetOf(table, parse, includeMaps, o).value.key == key && r == RowOf(o)
    ensures forall o :: o in obs && TargetOf(table, parse, includeMaps, o).Some? && TargetOf(table, parse, includeMaps, o).value.key == key ==>
      RowOf(o) in RowsFor(table, parse, includeMaps, obs, key)
  {
    if |obs| > 0 {
      var pre := obs[..|obs| - 1];
      RowsForSpec(table, parse, includeMaps, pre, key);
      assert obs == pre + [obs[|obs| - 1]];
    }
  }

  /** Every seeded registry entry is a platform, even with no rows; maps entries only
      with `includeMaps`. */
  lemma SeededPlatforms(table: seq<Directories.DirectoryDef>, parse: UrlParser, includeMaps: bool, obs: seq<ObsRow>)
    requires KeysUnique(table)
    ensures forall i :: 0 <= i < |table| ==>
      ((exists p :: p in PlatformsOf(table, parse, includeMaps, obs) && p.key == table[i].key) <==>
        includeMaps || table[i].category != Directories.Maps)
  {
    var ps := PlatformsOf(table, parse, includeMaps, obs);
    var s := Seeded(table, includeMaps);
    forall i | 0 <= i < |table|
      ensures (exists p :: p in ps && p.key == table[i].key) <==> includeMaps || table[i].category != Directories.Maps
    {
      if includeMaps || table[i].category != Directories.Maps {
        assert table[i] in s;
        var j :| 0 <= j < |s| && s[j] == table[i];
        assert ps[j] in ps && ps[j].key == table[i].key;
      }
      if p :| p in ps && p.key == table[i].key {
        var j :| 0 <= j < |ps| && ps[j] == p;
        assert s[j] in table;
        var k :| 0 <= k < |table| && table[k] == s[j];
        assert k == i;
      }
    }
  }

  /** The seeded entries have pairwise distinct keys. */
  lemma SeededKeysDistinct(table: seq<Directories.DirectoryDef>, includeMaps: bool)
    requires KeysUnique(table)
    ensures KeysUnique(Seeded(table, includeMaps))
  {
    FilterKeysDistinct(table, SeedsWith(includeMaps));
  }

  lemma {:induction false} FilterKeysDistinct(xs: seq<Directories.DirectoryDef>, f: Directories.DirectoryDef -> bool)
    requires KeysUnique(xs)
    ensures KeysUnique(Filter(xs, f))
  {
    if |xs| > 0 {
      var tail := xs[1..];
      FilterKeysDistinct(tail, f);
      var rt := Filter(tail, f);
      if f(xs[0]) {
        var r := Filter(xs, f);
        assert r == [xs[0]] + rt;
        forall j | 0 < j < |r|
          ensures r[0].key != r[j].key
        {
          assert r[j] == rt[j - 1] && rt[j - 1] in tail;
          var k :| 0 <= k < |tail| && tail[k] == rt[j - 1];
          assert xs[k + 1] == tail[k];
        }
      }
    }
  }

  // ---------------------------------------------------------------------------
  // Building the platforms

  /** The seeding loop: `byKey` maps each seeded key to its empty platform, and `order`
      is the insertion order of the keys. */
  method SeedPlatforms(table: seq<Directories.DirectoryDef>, includeMaps: bool) returns (byKey: map<string, Platform>, order: seq<string>)
    requires KeysUnique(table)
    ensures |order| == |Seeded(table, includeMaps)|
    ensures forall j :: 0 <= j < |order| ==> order[j] == Seeded(table, includeMaps)[j].key
    ensures forall j :: 0 <= j < |order| ==> order[j] in byKey && byKey[order[j]] == PlatformOf(Seeded(table, includeMaps)[j], [])
  {
    var s := Seeded(table, includeMaps);
    SeededKeysDistinct(table, includeMaps);
    byKey := map[];
    order := [];
    for j := 0 to |s|
      invariant |order| == j
      invariant forall k :: 0 <= k < j ==> order[k] == s[k].key
      invariant forall k :: 0 <= k < j ==> order[k] in byKey && byKey[order[k]] == PlatformOf(s[k], [])
    {
      byKey := byKey[s[j].key := PlatformOf(s[j], [])];
      order := order + [s[j].key];
    }
  }

  lemma RowsForSnoc(table: seq<Directories.DirectoryDef>, parse: UrlParser, includeMaps: bool, obs: seq<ObsRow>, m: nat, key: string)
    requires m < |obs|
    ensures RowsFor(table, parse, includeMaps, obs[..m + 1], key) ==
      var t := TargetOf(table, parse, includeMaps, obs[m]);
      RowsFor(table, parse, includeMaps, obs[..m], key) + (if t.Some? && t.value.key == key then [RowOf(obs[m])] else [])
  {
    assert obs[..m + 1][..m] == obs[..m];
  }

  /** `byKey` after the rows of `obs[..m]` are attached. */
  ghost predicate Attached(table: seq<Directories.DirectoryDef>, parse: UrlParser, includeMaps: bool, obs: seq<ObsRow>, m: nat,
                           byKey: map<string, Platform>, order: seq<string>)
    requires m <= |obs|
  {
    var s := Seeded(table, includeMaps);
    && |order| == |s|
    && (forall j :: 0 <= j < |order| ==> order[j] == s[j].key)
    && (forall j :: 0 <= j < |order| ==>
          order[j] in byKey && byKey[order[j]] == PlatformOf(s[j], RowsFor(table, parse, includeMaps, obs[..m], s[j].key)))
  }

  /** One step of the attachment loop. */
  lemma AttachStep(table: seq<Directories.DirectoryDef>, parse: UrlParser, includeMaps: bool, obs: seq<ObsRow>, m: nat,
                   byKey: map<string, Platform>, order: seq<string>)
    requires KeysUnique(table)
    requires m < |obs| && Attached(table, parse, includeMaps, obs, m, byKey, order)
    requires TargetOf(table, parse, includeMaps, obs[m]).Some?
    ensures var d := TargetOf(table, parse, includeMaps, obs[m]).value;
      && d.key in byKey
      && var plat := byKey[d.key];
      Attached(table, parse, includeMaps, obs, m + 1, byKey[d.key := plat.(rows := plat.rows + [RowOf(obs[m])])], order)
  {
    var s := Seeded(table, includeMaps);
    var d := TargetOf(table, parse, includeMaps, obs[m]).value;
    TargetIsSeeded(table, parse, includeMaps, obs[m]);
    SeededKeysDistinct(table, includeMaps);
    var j0 :| 0 <= j0 < |s| && s[j0] == d;
    assert order[j0] == d.key;
    forall j | 0 <= j < |order|
      ensures RowsFor(table, parse, includeMaps, obs[..m + 1], s[j].key) ==
        RowsFor(table, parse, includeMaps, obs[..m], s[j].key) + (if j == j0 then [RowOf(obs[m])] else [])
    {
      RowsForSnoc(table, parse, includeMaps, obs, m, s[j].key);
    }
  }

  /** An unattached row changes nothing. */
  lemma SkipStep(table: seq<Directories.DirectoryDef>, parse: UrlParser, includeMaps: bool, obs: seq<ObsRow>, m: nat,
                 byKey: map<string, Platform>, order: seq<string>)
    requires m < |obs| && Attached(table, parse, includeMaps, obs, m, byKey, order)
    requires TargetOf(table, parse, includeMaps, obs[m]).None?
    ensures Attached(table, parse, includeMaps, obs, m + 1, byKey, order)
  {
    var s := Seeded(table, includeMaps);
    forall j | 0 <= j < |order|
      ensures RowsFor(table, parse, includeMaps, obs[..m + 1], s[j].key) == RowsFor(table, parse, includeMaps, obs[..m], s[j].key)
    {
      RowsForSnoc(table, parse, includeMaps, obs, m, s[j].key);
    }
  }

  /** Seeding, then the attachment loop over the observations, then the values in
      insertion order. */
  method BuildPlatforms(table: seq<Directories.DirectoryDef>, parse: UrlParser, includeMaps: bool, obs: seq<ObsRow>) returns (platforms: seq<Platform>)
    requires KeysUnique(table)
    ensures platforms == PlatformsOf(table, parse, includeMaps, obs)
  {
    var byKey, order := SeedPlatforms(table, includeMaps);
    assert obs[..0] == [];
    for m := 0 to |obs|
      invariant Attached(table, parse, includeMaps, obs, m, byKey, order)
    {
      var o := obs[m];
      var dir := TargetOf(table, parse, includeMaps, o);
      if dir.None? {
        SkipStep(table, parse, includeMaps, obs, m, byKey, order);
        continue;
      }
      AttachStep(table, parse, includeMaps, obs, m, byKey, order);
      var plat := byKey[dir.value.key];
      byKey := byKey[dir.value.key := plat.(rows := plat.rows + [RowOf(o)])];
    }
    assert obs[..|obs|] == obs;
    platforms := seq(|order|, j requires 0 <= j < |order| && order[j] in byKey => byKey[order[j]]);
  }

  // ---------------------------------------------------------------------------
  // Best row, contributions and the overall score

  /** The best row so far: its status and its score, -1 before any. */
  datatype Best = Best(status: Status, score: int)

  /** The best-row loop: a row wins when its score is a number strictly above the best
      so far, so an earlier row keeps a tie. */
  function BestOf(rows: seq<ReportRow>): Best
  {
    if |rows| == 0 then Best(Red, -1)
    else
      var b := BestOf(rows[..|rows| - 1]);
      var r := rows[|rows| - 1];
      if r.score.Some? && r.score.value > b.score then Best(r.status, r.score.value) else b
  }

  /** With no numeric score above -1 the status is red; otherwise the best row is the
      first row with the highest numeric score. */
  lemma {:induction false} BestIsFirstMax(rows: seq<ReportRow>)
    ensures var b := BestOf(rows);
      && b.score >= -1
      && (forall i :: 0 <= i < |rows| && rows[i].score.Some? ==> rows[i].score.value <= b.score)
      && (b.score == -1 ==> b.status == Red || exists i :: 0 <= i < |rows| && rows[i].score == Some(-1))
      && (b.score > -1 ==>
            exists i :: 0 <= i < |rows| && rows[i].score == Some(b.score) && b.status == rows[i].status
                        && forall k :: 0 <= k < i && rows[k].score.Some? ==> rows[k].score.value < b.score)
  {
    if |rows| > 0 {
      var pre := rows[..|rows| - 1];
      BestIsFirstMax(pre);
      assert forall i :: 0 <= i < |pre| ==> rows[i] == pre[i];
    }
  }

  /** The loop over one platform's rows. */
  method BestStatus(rows: seq<ReportRow>) returns (bestStatus: Status)
    ensures bestStatus == BestOf(rows).status
  {
    bestStatus := Red;
    var bestScore := -1;
    for i := 0 to |rows|
      invariant BestOf(rows[..i]) == Best(bestStatus, bestScore)
    {
      assert rows[..i + 1][..i] == rows[..i];
      var r := rows[i];
      if r.score.Some? && r.score.value > bestScore {
        bestScore := r.score.value;
        bestStatus := r.status;
      }
    }
    assert rows[..|rows|] == rows;
  }

  /** A platform's contribution in half-weights: the whole weight (two halves) for green,
      half of it for orange, nothing for red. */
  function ContributionHalves(status: Status, weight: int): int
  {
    match status
    case Green => 2 * weight
    case Orange => weight
    case Red => 0
  }

  /** One entry of `platforms` in the report; the contribution is in half-weights. */
  datatype PlatformSummary = PlatformSummary(key: string, name: string, category: Directories.Category,
                                             weight: int, status: Status, contributionHalves: int,
                                             urls: seq<ReportRow>)

  function Summary(p: Platform): PlatformSummary
  {
    var s := BestOf(p.rows).status;
    PlatformSummary(p.key, p.name, p.category, p.weight, s, ContributionHalves(s, p.weight), p.rows)
  }

  function SumWeights(ps: seq<Platform>): int
  {
    if |ps| == 0 then 0 else SumWeights(ps[..|ps| - 1]) + ps[|ps| - 1].weight
  }

  function SumHalves(ps: seq<Platform>): int
  {
    if |ps| == 0 then 0
    else
      var p := ps[|ps| - 1];
      SumHalves(ps[..|ps| - 1]) + ContributionHalves(BestOf(p.rows).status, p.weight)
  }

  /** `platforms.reduce((s, p) => s + (p.weight || 0), 0) || 1` */
  function TotalWeight(ps: seq<Platform>): int
  {
    if SumWeights(ps) == 0 then 1 else SumWeights(ps)
  }

  /** `Math.round(num / den)`: the integer nearest to the quotient, halves rounded up. */
  function RoundedRatio(num: int, den: int): (r: int)
    requires den != 0
    ensures den > 0 ==> 2 * den * r <= 2 * num + den < 2 * den * (r + 1)
  {
    if den > 0 then (2 * num + den) / (2 * den) else (-2 * num - den) / (-2 * den)
  }

  /** `Math.round((obtained / totalWeight) * 100)`, with `obtained` in half-weights. */
  function OverallScore(ps: seq<Platform>): int
  {
    RoundedRatio(100 * SumHalves(ps), 2 * TotalWeight(ps))
  }

  /** The scoring part of the report: the summaries, `totalWeight`, `obtained` (in
      half-weights) and the overall score. */
  datatype Scoring = Scoring(platforms: seq<PlatformSummary>, totalWeight: int, obtainedHalves: int, overallScore: int)

  function ScoringOf(ps: seq<Platform>): Scoring
  {
    Scoring(seq(|ps|, i requires 0 <= i < |ps| => Summary(ps[i])), TotalWeight(ps), SumHalves(ps), OverallScore(ps))
  }

  /** The `platforms.map(…)` with its running `obtained`, and the two sums around it. */
  method Summarise(ps: seq<Platform>) returns (sc: Scoring)
    ensures sc == ScoringOf(ps)
  {
    var total := TotalWeightOf(ps);
    var summaries, obtained := SummariseRows(ps);
    var overallScore := RoundedRatio(100 * obtained, 2 * total);
    sc := Scoring(summaries, total, obtained, overallScore);
    assert sc.platforms == ScoringOf(ps).platforms;
  }

  /** The `reduce` over the weights, with `|| 1`. */
  method TotalWeightOf(ps: seq<Platform>) returns (total: int)
    ensures total == TotalWeight(ps)
  {
    total := 0;
    for i := 0 to |ps|
      invariant total == SumWeights(ps[..i])
    {
      assert ps[..i + 1][..i] == ps[..i];
      total := total + ps[i].weight;
    }
    assert ps[..|ps|] == ps;
    if total == 0 {
      total := 1;
    }
  }

  /** The `map` over the platforms, adding each contribution to `obtained`. */
  method SummariseRows(ps: seq<Platform>) returns (summaries: seq<PlatformSummary>, obtained: int)
    ensures obtained == SumHalves(ps)
    ensures |summaries| == |ps| && forall k :: 0 <= k < |ps| ==> summaries[k] == Summary(ps[k])
  {
    obtained := 0;
    summaries := [];
    for i := 0 to |ps|
      invariant obtained == SumHalves(ps[..i])
      invariant |summaries| == i && forall k :: 0 <= k < i ==> summaries[k] == Summary(ps[k])
    {
      assert ps[..i + 1][..i] == ps[..i];
      var p := ps[i];
      var bestStatus := BestStatus(p.rows);
      var contribution := ContributionHalves(bestStatus, p.weight);
      obtained := obtained + contribution;
      summaries := summaries + [PlatformSummary(p.key, p.name, p.category, p.weight, bestStatus, contribution, p.rows)];
    }
    assert ps[..|ps|] == ps;
  }

  /** With positive weights the obtained halves lie between 0 and twice the weight sum. */
  lemma {:induction false} HalvesBounded(ps: seq<Platform>)
    requires forall i :: 0 <= i < |ps| ==> ps[i].weight > 0
    ensures 0 <= SumHalves(ps) <= 2 * SumWeights(ps)
    ensures |ps| > 0 ==> SumWeights(ps) > 0
  {
    if |ps| > 0 {
      HalvesBounded(ps[..|ps| - 1]);
    }
  }

  lemma MulLe(x: int, y: int, z: int)
    requires x >= 0 && y <= z
    ensures x * y <= x * z
  {
  }

  /** `Math.round(100 * a / b)` for `0 <= a <= b` lies in [0, 100]. */
  lemma RoundedPercent(a: int, b: int)
    requires b > 0 && 0 <= a <= b
    ensures 0 <= RoundedRatio(100 * a, b) <= 100
  {
    var r := RoundedRatio(100 * a, b);
    assert 2 * b * r <= 200 * a + b < 2 * b * (r + 1);
    if r > 100 {
      MulLe(2 * b, 101, r);
    }
    if r < 0 {
      MulLe(2 * b, r + 1, 0);
    }
  }

  /** With positive weights the overall score lies in [0, 100]. */
  lemma OverallInRange(ps: seq<Platform>)
    requires forall i :: 0 <= i < |ps| ==> ps[i].weight > 0
    ensures 0 <= OverallScore(ps) <= 100
  {
    HalvesBounded(ps);
    RoundedPercent(SumHalves(ps), 2 * TotalWeight(ps));
  }

  predicate PositiveWeights(table: seq<Directories.DirectoryDef>)
  {
    forall i :: 0 <= i < |table| ==> table[i].weight.Some? && table[i].weight.value > 0
  }

  /** The registry has distinct keys and positive weights. */
  lemma RegistryShape()
    ensures KeysUnique(Directories.AuDirectories) && PositiveWeights(Directories.AuDirectories)
  {
    Directories.KeysDistinct();
    Directories.WeightsInRange();
  }

  /** Every platform built from a registry with positive weights has a positive weight,
      so the overall score lies in [0, 100]. */
  lemma ReportScoreInRange(table: seq<Directories.DirectoryDef>, parse: UrlParser, includeMaps: bool, obs: seq<ObsRow>)
    requires PositiveWeights(table)
    ensures 0 <= OverallScore(PlatformsOf(table, parse, includeMaps, obs)) <= 100
  {
    var ps := PlatformsOf(table, parse, includeMaps, obs);
    var s := Seeded(table, includeMaps);
    forall i | 0 <= i < |ps|
      ensures ps[i].weight > 0
    {
      assert s[i] in table;
    }
    OverallInRange(ps);
  }

  // ---------------------------------------------------------------------------
  // The handler

  /** The request fields the report reads; "" is a missing id. */
  datatype ReportRequest = ReportRequest(businessId: string, auditId: string, includeMaps: bool)

  datatype ReportResponse =
    | Rejected(status: int, error: string)
    | Ok(golden: NapMatch.Nap, scoring: Scoring)

  /** The response: 400 without both ids, 404 with the lookup's message when the business
      profile lookup fails or finds nothing, 500 when the observations cannot be read, and
      otherwise the report over the observations. `profile` is the answer of the golden
      record lookup, `observations` the rows of the audit or the database error. */
  function ReportOf(table: seq<Directories.DirectoryDef>, parse: UrlParser, req: ReportRequest,
                    profile: SingleRow<NapMatch.Nap>, observations: Result<seq<ObsRow>>): ReportResponse
  {
    if req.businessId == "" || req.auditId == "" then Rejected(400, "Missing businessId or auditId")
    else if RowMissing(profile) then Rejected(404, NotFoundMessage(profile))
    else if observations.Failure? then Rejected(500, observations.error)
    else Ok(profile.row.value, ScoringOf(PlatformsOf(table, parse, req.includeMaps, observations.value)))
  }

  datatype Result<T> = Success(value: T) | Failure(error: string)

  /** The handler as it runs: validation, the platform build, then the scoring. `table`
      is the registry (`RegistryShape` shows it meets both requirements). */
  method HandleReport(table: seq<Directories.DirectoryDef>, parse: UrlParser, req: ReportRequest,
                      profile: SingleRow<NapMatch.Nap>, observations: Result<seq<ObsRow>>) returns (resp: ReportResponse)
    requires KeysUnique(table) && PositiveWeights(table)
    ensures resp == ReportOf(table, parse, req, profile, observations)
    ensures req.businessId != "" && req.auditId != "" && RowMissing(profile) ==>
      resp.Rejected? && resp.status == 404 &&
      (profile.error.Some? && profile.error.value != "" ==> resp.error == profile.error.value)
    ensures resp.Ok? ==> profile.error.None? && profile.row == Some(resp.golden) && 0 <= resp.scoring.overallScore <= 100
  {
    if req.businessId == "" || req.auditId == "" {
      return Rejected(400, "Missing businessId or auditId");
    }
    if RowMissing(profile) {
      return Rejected(404, NotFoundMessage(profile));
    }
    if observations.Failure? {
      return Rejected(500, observations.error);
    }
    var platforms := BuildPlatforms(table, parse, req.includeMaps, observations.value);
    var scoring := Summarise(platforms);
    ReportScoreInRange(table, parse, req.includeMaps, observations.value);
    resp := Ok(profile.row.value, scoring);
  }
}
