/** The registry of Australian directories, maps providers and social networks
    (src/lib/discovery/au_directories.ts), its three derived host lists, and the
    first-match lookup by host suffix the scrape and report routes share. */
module Directories {
  import opened Strings

  datatype Category = Directory | Review | Leads | Maps | Social

  /** One registry entry; `weight` is optional in the source's type. */
  datatype DirectoryDef = DirectoryDef(key: string, name: string, hosts: seq<string>,
                                       category: Category, weight: Option<int>)

  /** `AU_DIRECTORIES`, in declaration order. */
  const AuDirectories: seq<DirectoryDef> := [
    DirectoryDef("google_business_profile", "Google Business Profile", ["google.com", "google.com.au"], Maps, Some(10)),
    DirectoryDef("apple_maps", "Apple Maps", ["maps.apple.com", "apple.com"], Maps, Some(8)),
    DirectoryDef("bing_places", "Bing Places", ["bing.com", "bingplaces.com"], Maps, Some(7)),
    DirectoryDef("yellow_pages", "Yellow Pages Australia", ["yellowpages.com.au"], Directory, Some(6)),
    DirectoryDef("white_pages", "White Pages Australia", ["whitepages.com.au"], Directory, Some(5)),
    DirectoryDef("true_local", "True Local", ["truelocal.com.au"], Directory, Some(5)),
    DirectoryDef("localsearch", "Localsearch", ["localsearch.com.au"], Directory, Some(5)),
    DirectoryDef("yelp", "Yelp Australia", ["yelp.com.au", "yelp.com"], Review, Some(5)),
    DirectoryDef("womo", "Word of Mouth (WOMO)", ["womo.com.au"], Review, Some(5)),
    DirectoryDef("oneflare", "Oneflare", ["oneflare.com.au"], Leads, Some(4)),
    DirectoryDef("hotfrog", "Hotfrog", ["hotfrog.com.au"], Directory, Some(4)),
    DirectoryDef("purelocal", "PureLocal", ["purelocal.com.au"], Directory, Some(3)),
    DirectoryDef("startlocal", "StartLocal", ["startlocal.com.au"], Directory, Some(3)),
    DirectoryDef("aussieweb", "AussieWeb", ["aussieweb.com.au"], Directory, Some(3)),
    DirectoryDef("dlook", "dLook", ["dlook.com.au"], Directory, Some(3)),
    DirectoryDef("businesslistings", "BusinessListings.net.au", ["businesslistings.net.au"], Directory, Some(3)),
    DirectoryDef("brownbook", "Brownbook", ["brownbook.net"], Directory, Some(2)),
    DirectoryDef("infobel", "Infobel", ["infobel.com"], Directory, Some(2)),
    DirectoryDef("pinkpages", "Pink Pages", ["pinkpages.com.au"], Directory, Some(2)),
    DirectoryDef("abd", "Australian Business Directory", ["australianbusinessdirectory.com.au"], Directory, Some(2)),
    DirectoryDef("whereis", "Whereis", ["whereis.com"], Maps, Some(1)),
    DirectoryDef("mapquest", "MapQuest", ["mapquest.com"], Maps, Some(1)),
    DirectoryDef("tomtom", "TomTom", ["tomtom.com"], Maps, Some(1)),
    DirectoryDef("here", "HERE", ["here.com"], Maps, Some(1)),
    DirectoryDef("facebook", "Facebook", ["facebook.com"], Social, Some(4)),
    DirectoryDef("instagram", "Instagram", ["instagram.com"], Social, Some(3)),
    DirectoryDef("linkedin", "LinkedIn", ["linkedin.com"], Social, Some(3)),
    DirectoryDef("x", "X (Twitter)", ["x.com", "twitter.com"], Social, Some(2)),
    DirectoryDef("youtube", "YouTube", ["youtube.com", "youtu.be"], Social, Some(2)),
    DirectoryDef("tiktok", "TikTok", ["tiktok.com"], Social, Some(2)),
    DirectoryDef("foursquare", "Foursquare", ["foursquare.com"], Social, Some(2)),
    DirectoryDef("nextdoor", "Nextdoor", ["nextdoor.com"], Social, Some(2))
  ]

  /** `d.weight || 3` */
  function WeightOrDefault(d: DirectoryDef): int
  {
    if d.weight.None? || d.weight.value == 0 then 3 else d.weight.value
  }

  predicate IsListing(c: Category) { c == Directory || c == Review || c == Leads }
  predicate IsSocial(c: Category) { c == Social }
  predicate IsMaps(c: Category) { c == Maps }

  function HostsOf(d: DirectoryDef): seq<string> { d.hosts }

  /** `Array.from(new Set(table.filter(d => p(d.category)).flatMap(d => d.hosts)))` */
  function HostsWhere(table: seq<DirectoryDef>, p: Category -> bool): seq<string>
  {
    Dedup(FlatMap(Filter(table, (d: DirectoryDef) => p(d.category)), HostsOf))
  }

  /** `AU_DIRECTORY_HOSTS`, `AU_SOCIAL_HOSTS` and `AU_MAPS_PLACES_HOSTS`. */
  const AuDirectoryHosts: seq<string> := HostsWhere(AuDirectories, IsListing)
  const AuSocialHosts: seq<string> := HostsWhere(AuDirectories, IsSocial)
  const AuMapsPlacesHosts: seq<string> := HostsWhere(AuDirectories, IsMaps)

  /** A derived list holds each host of a matching entry exactly once, and nothing else. */
  lemma HostsWhereIsDedupUnion(table: seq<DirectoryDef>, p: Category -> bool)
    ensures Distinct(HostsWhere(table, p))
    ensures forall h :: h in HostsWhere(table, p) <==>
      exists i :: 0 <= i < |table| && p(table[i].category) && h in table[i].hosts
  {
    var picked := Filter(table, (d: DirectoryDef) => p(d.category));
    forall h
      ensures h in HostsWhere(table, p) <==>
        exists i :: 0 <= i < |table| && p(table[i].category) && h in table[i].hosts
    {
      if h in HostsWhere(table, p) {
        assert h in FlatMap(picked, HostsOf);
        var d :| d in picked && h in HostsOf(d);
        var i :| 0 <= i < |table| && table[i] == d;
      }
      if exists i :: 0 <= i < |table| && p(table[i].category) && h in table[i].hosts {
        var i :| 0 <= i < |table| && p(table[i].category) && h in table[i].hosts;
        assert table[i] in picked;
        assert h in FlatMap(picked, HostsOf);
      }
    }
  }

  /** Every entry carries a weight between 1 and 10. */
  lemma WeightsInRange()
    ensures forall i :: 0 <= i < |AuDirectories| ==>
      AuDirectories[i].weight.Some? && 1 <= AuDirectories[i].weight.value <= 10
  {
    var t := AuDirectories;
    assert forall i :: 0 <= i < 16 ==> t[i].weight.Some? && 1 <= t[i].weight.value <= 10;
    assert forall i :: 16 <= i < 32 ==> t[i].weight.Some? && 1 <= t[i].weight.value <= 10;
  }

  /** The keys of the registry are pairwise distinct. */
  lemma KeysDistinct()
    ensures forall i, j :: 0 <= i < j < |AuDirectories| ==> AuDirectories[i].key != AuDirectories[j].key
  {
    KeysDistinctRows0To3();
    KeysDistinctRows4To7();
    KeysDistinctRows8To11();
    KeysDistinctRows12To15();
    KeysDistinctRows16To31();
  }

  lemma KeysDistinctRows0To3()
    ensures forall i, j :: 0 <= i < 4 && i < j < |AuDirectories| ==> AuDirectories[i].key != AuDirectories[j].key
  {
  }

  lemma KeysDistinctRows4To7()
    ensures forall i, j :: 4 <= i < 8 && i < j < |AuDirectories| ==> AuDirectories[i].key != AuDirectories[j].key
  {
  }

  lemma KeysDistinctRows8To11()
    ensures forall i, j :: 8 <= i < 12 && i < j < |AuDirectories| ==> AuDirectories[i].key != AuDirectories[j].key
  {
  }

  lemma KeysDistinctRows12To15()
    ensures forall i, j :: 12 <= i < 16 && i < j < |AuDirectories| ==> AuDirectories[i].key != AuDirectories[j].key
  {
  }

  lemma KeysDistinctRows16To31()
    ensures forall i, j :: 16 <= i < j < |AuDirectories| ==> AuDirectories[i].key != AuDirectories[j].key
  {
  }

  /** Where each category sits in the table: listings (directory, review, leads) at 3-19. */
  lemma ListingLayout()
    ensures |AuDirectories| == 32
    ensures forall i :: 0 <= i < 32 ==> (IsListing(AuDirectories[i].category) <==> 3 <= i < 20)
  {
    var t := AuDirectories;
    assert forall i :: 0 <= i < 16 ==> (IsListing(t[i].category) <==> 3 <= i < 20);
    assert forall i :: 16 <= i < 32 ==> (IsListing(t[i].category) <==> 3 <= i < 20);
  }

  /** Socials at 24-31. */
  lemma SocialLayout()
    ensures |AuDirectories| == 32
    ensures forall i :: 0 <= i < 32 ==> (IsSocial(AuDirectories[i].category) <==> 24 <= i)
  {
    var t := AuDirectories;
    assert forall i :: 0 <= i < 16 ==> (IsSocial(t[i].category) <==> 24 <= i);
    assert forall i :: 16 <= i < 32 ==> (IsSocial(t[i].category) <==> 24 <= i);
  }

  /** Maps providers at 0-2 and 20-23. */
  lemma MapsLayout()
    ensures |AuDirectories| == 32
    ensures forall i :: 0 <= i < 32 ==> (IsMaps(AuDirectories[i].category) <==> i < 3 || 20 <= i < 24)
  {
    var t := AuDirectories;
    assert forall i :: 0 <= i < 16 ==> (IsMaps(t[i].category) <==> i < 3 || 20 <= i < 24);
    assert forall i :: 16 <= i < 32 ==> (IsMaps(t[i].category) <==> i < 3 || 20 <= i < 24);
  }

  /** No host string of entry `i` of `table` is a host string of its entry `j`. */
  predicate HostsDisjoint(table: seq<DirectoryDef>, i: nat, j: nat)
    requires i < |table| && j < |table|
  {
    forall a, b :: 0 <= a < |table[i].hosts| && 0 <= b < |table[j].hosts| ==>
      table[i].hosts[a] != table[j].hosts[b]
  }

  lemma ListingVsSocial()
    ensures forall i, j :: 3 <= i < 20 && 24 <= j < 32 ==> HostsDisjoint(AuDirectories, i, j)
  {
  }

  lemma ListingVsMapsLow()
    ensures forall i, j :: 3 <= i < 20 && 0 <= j < 3 ==> HostsDisjoint(AuDirectories, i, j)
  {
  }

  lemma ListingVsMapsHigh()
    ensures forall i, j :: 3 <= i < 20 && 20 <= j < 24 ==> HostsDisjoint(AuDirectories, i, j)
  {
  }

  lemma SocialVsMapsLow()
    ensures forall i, j :: 24 <= i < 32 && 0 <= j < 3 ==> HostsDisjoint(AuDirectories, i, j)
  {
  }

  lemma SocialVsMapsHigh()
    ensures forall i, j :: 24 <= i < 32 && 20 <= j < 24 ==> HostsDisjoint(AuDirectories, i, j)
  {
  }

  /** Two derived lists share no host when no entry of the one category shares a host
      string with an entry of the other. */
  lemma DisjointLists(table: seq<DirectoryDef>, p: Category -> bool, q: Category -> bool)
    requires forall i, j ::
      0 <= i < |table| && 0 <= j < |table| && p(table[i].category) && q(table[j].category) ==>
        HostsDisjoint(table, i, j)
    ensures forall h :: !(h in HostsWhere(table, p) && h in HostsWhere(table, q))
  {
    HostsWhereIsDedupUnion(table, p);
    HostsWhereIsDedupUnion(table, q);
  }

  /** No directory host is a social host. */
  lemma DirectoryAndSocialHostsDisjoint()
    ensures forall h :: !(h in AuDirectoryHosts && h in AuSocialHosts)
  {
    ListingLayout();
    SocialLayout();
    ListingVsSocial();
    DisjointLists(AuDirectories, IsListing, IsSocial);
  }

  /** No directory host is a maps host. */
  lemma DirectoryAndMapsHostsDisjoint()
    ensures forall h :: !(h in AuDirectoryHosts && h in AuMapsPlacesHosts)
  {
    ListingLayout();
    MapsLayout();
    ListingVsMapsLow();
    ListingVsMapsHigh();
    DisjointLists(AuDirectories, IsListing, IsMaps);
  }

  /** No social host is a maps host. */
  lemma SocialAndMapsHostsDisjoint()
    ensures forall h :: !(h in AuSocialHosts && h in AuMapsPlacesHosts)
  {
    SocialLayout();
    MapsLayout();
    SocialVsMapsLow();
    SocialVsMapsHigh();
    DisjointLists(AuDirectories, IsSocial, IsMaps);
  }

  // ---------------------------------------------------------------------------
  // findDirectoryByHost (scrape and report routes)

  /** Some host string of `d` is a plain suffix of `host` (`host.endsWith(h)`, with no
      dot boundary). */
  predicate SuffixMatches(d: DirectoryDef, host: string)
  {
    exists h :: h in d.hosts && EndsWith(host, h)
  }

  /** The index of the first entry at or after `i` whose hosts suffix-match `host`. */
  function FindIndexFrom(table: seq<DirectoryDef>, host: string, i: nat): (r: Option<nat>)
    requires i <= |table|
    ensures r.Some? ==> i <= r.value < |table| && SuffixMatches(table[r.value], host)
    ensures r.Some? ==> forall k :: i <= k < r.value ==> !SuffixMatches(table[k], host)
    ensures r.None? ==> forall k :: i <= k < |table| ==> !SuffixMatches(table[k], host)
    decreases |table| - i
  {
    if i == |table| then None
    else if SuffixMatches(table[i], host) then Some(i)
    else FindIndexFrom(table, host, i + 1)
  }

  /** `findDirectoryByHost(host)`: the first registry entry one of whose hosts ends `host`. */
  function FindDirectoryByHost(host: string): (r: Option<DirectoryDef>)
    ensures r.Some? ==>
      exists i :: 0 <= i < |AuDirectories| && r.value == AuDirectories[i] &&
        SuffixMatches(AuDirectories[i], host) &&
        (forall k :: 0 <= k < i ==> !SuffixMatches(AuDirectories[k], host))
    ensures r.None? ==> forall k :: 0 <= k < |AuDirectories| ==> !SuffixMatches(AuDirectories[k], host)
  {
    match FindIndexFrom(AuDirectories, host, 0)
    case Some(i) => Some(AuDirectories[i])
    case None => None
  }

  /** The match has no dot boundary: "fox.com" is attributed to X because it ends
      in "x.com". */
  lemma PlainSuffixAttributesFoxToX(host: string)
    requires host == "fox.com"
    ensures FindDirectoryByHost(host).Some? && FindDirectoryByHost(host).value.key == "x"
  {
    assert SuffixMatches(AuDirectories[27], host) by {
      assert "x.com" in AuDirectories[27].hosts && EndsWith(host, "x.com");
    }
    FoxUnmatchedRows0To8(host);
    FoxUnmatchedRows9To17(host);
    FoxUnmatchedRows18To26(host);
  }

  lemma FoxUnmatchedRows0To8(host: string)
    requires host == "fox.com"
    ensures forall k :: 0 <= k < 9 ==> !SuffixMatches(AuDirectories[k], host)
  {
  }

  lemma FoxUnmatchedRows9To17(host: string)
    requires host == "fox.com"
    ensures forall k :: 9 <= k < 18 ==> !SuffixMatches(AuDirectories[k], host)
  {
  }

  lemma FoxUnmatchedRows18To26(host: string)
    requires host == "fox.com"
    ensures forall k :: 18 <= k < 27 ==> !SuffixMatches(AuDirectories[k], host)
  {
  }
}
