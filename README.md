# pageone-core in Dafny

A model of the audit and lead-handling core of pageone, a web application that audits how well
an Australian business is represented online. The model covers these parts:

- **Discovery.** Search queries are synthesised from a business's golden record (name, address,
  phone). Each search hit is scored for relevance (`scoreItem`). The hits of all queries are
  aggregated per URL key, boosted, filtered by per-type thresholds, sorted and capped per host.
- **Scrape.** Each target page gets an observation and a NAP (name, address, phone) match score.
  The rows are buffered and flushed in batches of eight. The latest social post time is kept per
  platform. Listing opportunities are derived from the directory registry.
- **Report.** Observations are attached to the platforms seeded from the directory registry. Each
  platform takes the status of its best row, and the platforms' weights give one overall score.
- **Directory registry and probes.** A registry of Australian directories, with the three host
  lists derived from it, and site-restricted directory probes with a per-host limit.
- **Website crawl.** Post-processing of a crawled page: meta tags, phones, JSON-LD blocks and the
  split of social links into platform slots. The crawled socials are then merged into the stored
  ones.
- **Socials route.** The set / replace / conflict rule for one social link.
- **Ambassador actions.** Lead slugs, access and role guards, creating a lead, merging its golden
  record, assigning an owner, and creating a business with retries over slug candidates.
- **Unified store helpers.** Slugs, unique-slug business creation, memberships, ensuring a lead
  has a business, profile upserts, and profile lookup by place keys.
- **Middleware.** The redirect decision by sign-in state, profile status and path.

Each source file with loops or in-place updates is modelled by a method proved against a
specification function of the inputs. The method ensures `r == F(...)`, and the properties are
lemmas about `F`. The store of `unified.ts` is a class `Unified.Store`: its methods change the
tables and state their effect as `(r, State()) == XOf(old(State()), ...)` over a value `Db`.
The scrape loop's buffer is the class `Scrape.ScrapeRun`. Pure source functions are functions
with contracts.

The outside world is a set of parameters:

- The URL parser (`Web.UrlParser`), the JSON parser (`JsonParser`), the search backends, fetched
  pages and database answers are inputs.
- Regular-expression extraction over HTML is an input list of matches.
- The simpler patterns are written out concretely: `\b` word boundaries, the state codes, the
  four-digit postcode, `/\.au$/`, `google.[^/]*/maps`, and HTML comment stripping.

JavaScript truthiness is modelled as follows:

- The empty string stands for a falsy string.
- `Option` distinguishes `??` (null only) from `||` (any falsy value).

Floating-point ratios are exact integer comparisons:

- An overlap of at least 0.6 is `5*num >= 3*den`.
- The 0.5 aggregation scale and `Math.round` are `(b+1)/2`, rounding a half up.
- The report counts half-weights, so an orange platform contributes one half-weight per unit of
  weight.

Some behaviour is modelled as written even though it may surprise a reader:

- **A `null` JSON-LD item aborts the extraction.** A JSON-LD block that parses to a `null` item,
  such as `[null]`, makes `item['@type']` throw a TypeError. In the crawl route this aborts the
  whole request with status 500. In the scrape route it makes that page a failed observation.
  `JsonLd.SelectBusinessesIsFilter` and `Crawl.CollectJsonLdSpec` state both outcomes.
- **Domain matching differs between routes.** The discovery route matches domains at a dot
  boundary. The scrape and report routes use a plain `endsWith`, so "fox.com" is attributed to
  the X entry (`Directories.PlainSuffixAttributesFoxToX`, `Queries.FoxIsNotUnderX`).
- **The lead slug can be empty.** The lead `slugify` of `actions.ts` can return an empty slug,
  for example for "!!!". The `unified.ts` `slugify` falls back to `client` instead.

## Model

Paths are relative to the repository root.

| member | source | states |
|---|---|---|
| Fuzzy.StripChar | src/app/api/audit/discovery/urls/route.ts:45-47 | Stripping diacritics keeps every character of `[a-z0-9\s&-]` as it is and yields at most one character per input character |
| Fuzzy.Scrub | src/app/api/audit/discovery/urls/route.ts:49 | The replacement keeps the length and leaves only characters of `[a-z0-9\s&-]` |
| Fuzzy.Collapse | src/app/api/audit/discovery/urls/route.ts:49 | Collapsing whitespace keeps a string non-empty exactly when it was, and starts with a space exactly when the input starts with whitespace |
| Fuzzy.NormalizeSimpleIsNormal | src/app/api/audit/discovery/urls/route.ts:48-50 | Every result of `normalizeSimple` uses only `[a-z0-9 &-]`, with no leading, trailing or doubled space |
| Fuzzy.NormalIsFixedPoint | src/app/api/audit/discovery/urls/route.ts:48-50 | A string already in normal form is left unchanged by `normalizeSimple` |
| Fuzzy.NormalizeSimpleIdempotent | src/app/api/audit/discovery/urls/route.ts:48-50 | Applying `normalizeSimple` twice equals applying it once |
| Fuzzy.AmpToAnd | src/app/api/audit/discovery/urls/route.ts:57 | Replacing `&` by ` and ` never empties a non-empty name |
| Fuzzy.HyphensToSpaces | src/app/api/audit/discovery/urls/route.ts:59 | Turning hyphens into spaces keeps the length |
| Fuzzy.RemoveSpaces | src/app/api/audit/discovery/urls/route.ts:61 | The space-free variant holds no whitespace and is non-empty whenever the input has a non-space character |
| Fuzzy.NameVariantsShape | src/app/api/audit/discovery/urls/route.ts:51-64 | No variants when the normalised name is empty; otherwise the normalised name comes first, and there are at most four variants, pairwise distinct and non-empty |
| Fuzzy.DlDistance | src/app/api/audit/discovery/urls/route.ts:66-97 | Returns 0 for equal strings; `maxDist+1` when the length gap exceeds `maxDist`; the other length when one string is empty; never negative; at most the longer length unless it is `maxDist+1` |
| Address.FirstCodeAt | src/app/api/audit/discovery/urls/route.ts:184 | The first state alternative that matches at a position, or none of them matches there |
| Address.StateFrom | src/app/api/audit/discovery/urls/route.ts:184 | The leftmost match of the alternatives at or after a position: an alternative matching there, with no alternative matching at any earlier position; none means no alternative matches anywhere after the position |
| Address.StateFromAddress | src/app/api/audit/discovery/urls/route.ts:182-186 | The state is one of the eight upper-cased codes and matches in the address at a word boundary; none means no code matches anywhere |
| Address.PostcodeFrom | src/app/api/audit/discovery/urls/route.ts:190 | The leftmost four-digit token at or after a position, or there is none |
| Address.PostcodeFromAddress | src/app/api/audit/discovery/urls/route.ts:188-192 | The postcode is four digits taken from a bounded four-digit token of the address; none means the address has no such token |
| Address.NonEmptyTrimmedSpec | src/app/api/audit/discovery/urls/route.ts:177 | Every kept piece is a non-empty trimmed comma piece, and nothing is kept exactly when every piece is blank |
| Address.NonEmptyTrimmedInOrder | src/app/api/audit/discovery/urls/route.ts:177 | The filter keeps every non-blank trimmed piece and nothing else, in input order: the n-th non-blank piece lands at position n |
| Address.CityIsSegment | src/app/api/audit/discovery/urls/route.ts:174-180 | A city guess is a non-empty, trimmed, comma-free segment of the address; there is none exactly when every segment is blank |
| Address.CityRule | src/app/api/audit/discovery/urls/route.ts:174-180 | The city is the second non-blank comma piece trimmed; with exactly one non-blank piece it is that piece; it is none exactly when every piece is blank |
| Directories.HostsWhereIsDedupUnion | src/lib/discovery/au_directories.ts:52-63 | A derived host list is duplicate-free and holds exactly the hosts of the entries of its categories |
| Directories.WeightsInRange | src/lib/discovery/au_directories.ts:12-50 | Every registry entry has a weight between 1 and 10 |
| Directories.KeysDistinct | src/lib/discovery/au_directories.ts:12-50 | The registry keys are pairwise distinct |
| Directories.ListingLayout | src/lib/discovery/au_directories.ts:12-50 | The registry has 32 entries, and the directory, review and leads entries are those at positions 3-19 |
| Directories.SocialLayout | src/lib/discovery/au_directories.ts:41-49 | The social entries are those at positions 24-31 |
| Directories.MapsLayout | src/lib/discovery/au_directories.ts:12-50 | The maps entries are those at positions 0-2 and 20-23 |
| Directories.DisjointLists | src/lib/discovery/au_directories.ts:52-63 | Two derived lists share no host when no entry of the one category shares a host string with an entry of the other |
| Directories.DirectoryAndSocialHostsDisjoint | src/lib/discovery/au_directories.ts:52-59 | No directory host is a social host |
| Directories.DirectoryAndMapsHostsDisjoint | src/lib/discovery/au_directories.ts:52-63 | No directory host is a maps host |
| Directories.SocialAndMapsHostsDisjoint | src/lib/discovery/au_directories.ts:57-63 | No social host is a maps host |
| Directories.FindIndexFrom | src/app/api/audit/discovery/scrape/route.ts:52-57 | The first entry at or after a position one of whose hosts ends the host name, or no such entry |
| Directories.FindDirectoryByHost | src/app/api/audit/discovery/scrape/route.ts:52-57 | Returns the first registry entry one of whose hosts is a suffix of the host name; none means no entry matches |
| Directories.PlainSuffixAttributesFoxToX | src/app/api/audit/report/route.ts:6-11 | With a plain suffix test, "fox.com" is attributed to the X entry |
| Queries.MatchesAny | src/app/api/audit/discovery/urls/route.ts:37-40 | True exactly when the host is one of the domains or a sub-domain of one |
| Queries.ClassifyHost | src/app/api/audit/discovery/urls/route.ts:36-42 | Places when a maps domain matches or the Google Maps pattern does; otherwise social when a social domain matches; otherwise directory when a directory domain matches; otherwise web |
| Queries.MatchDomainDotBoundary | src/app/api/audit/discovery/urls/route.ts:37 | A domain match is the domain itself or the domain preceded by a dot |
| Queries.FoxIsNotUnderX | src/app/api/audit/discovery/urls/route.ts:37 | "fox.com" ends with "x.com" but is not a domain match for it |
| Queries.GoogleMapsNeedsSlash | src/app/api/audit/discovery/urls/route.ts:38 | A host name without '/' never matches the Google Maps pattern |
| Queries.IsJobBoard | src/app/api/audit/discovery/urls/route.ts:299 | A host is a job board exactly when it equals a listed job-board domain or is a dot-bounded sub-domain of one |
| Queries.JobBoardSubdomain | src/app/api/audit/discovery/urls/route.ts:299 | A sub-domain of indeed.com.au (au.indeed.com.au) is a job board |
| Queries.NotSubdomain | src/app/api/audit/discovery/urls/route.ts:299 | A host matches a domain neither exactly nor as a sub-domain when it differs from it and has no dot just before the would-be suffix |
| Queries.JobBoardDotBoundary | src/app/api/audit/discovery/urls/route.ts:299 | myseek.com.au is not a job board, although it ends with seek.com.au |
| Queries.MinScoreFor | src/app/api/audit/discovery/urls/route.ts:268-273 | Social, directory, places and web hits get their own threshold setting |
| Queries.CapFor | src/app/api/audit/discovery/urls/route.ts:274-281 | A per-host override wins; otherwise social, directory, places and web hits get their own cap setting |
| Queries.DefaultTunables | src/app/api/audit/discovery/urls/route.ts:242-254 | With nothing set, every type needs 16 points and keeps 4 hits per host, and the fuzzy bonus cap is 6 |
| Queries.SplitSeps | src/app/api/audit/discovery/urls/route.ts:260 | Splitting on `[=:\s]` gives at least one piece, and no piece contains a separator |
| Queries.DigitPrefix | src/app/api/audit/discovery/urls/route.ts:261 | The longest prefix of ASCII digits |
| Queries.ParseInt | src/app/api/audit/discovery/urls/route.ts:261 | `parseInt` yields a number only when the text holds a digit |
| Queries.ParseIntDigits | src/app/api/audit/discovery/urls/route.ts:261 | `parseInt` reads a string of digits as its decimal value |
| Queries.ParseIntMinus | src/app/api/audit/discovery/urls/route.ts:261 | A leading minus sign negates the value `parseInt` reads from an unsigned rest |
| Queries.ParseIntNegative | src/app/api/audit/discovery/urls/route.ts:261 | `parseInt` reads a minus sign and digits as the negated decimal value |
| Queries.ParseIntOfString | src/app/api/audit/discovery/urls/route.ts:245-254 | `parseInt(String(n), 10)` gives back `n`, so the fallback defaults read back as written |
| Queries.OverrideEntry | src/app/api/audit/discovery/urls/route.ts:260-262 | A usable entry has a non-empty host without separators |
| Queries.OverridesFromEntries | src/app/api/audit/discovery/urls/route.ts:256-265 | Every override comes from a usable `host=n` entry |
| Queries.OverridesCoverEntries | src/app/api/audit/discovery/urls/route.ts:256-265 | Every usable entry's host is overridden |
| Queries.OverridesLastWins | src/app/api/audit/discovery/urls/route.ts:259-263 | The last usable entry for a host decides its cap |
| Queries.NoOverridesWhenBlank | src/app/api/audit/discovery/urls/route.ts:258-259 | An unset or blank setting overrides nothing |
| Queries.WebsiteNormalized | src/app/api/audit/discovery/urls/route.ts:501-510 | The exclusion key exists exactly when the website is set and parses, and it ends with '/' |
| Queries.SlashKeyIgnoresQueryAndFragment | src/app/api/audit/discovery/urls/route.ts:505-509 | The website key does not depend on the query or the fragment |
| Queries.SlashKeyRoot | src/app/api/audit/discovery/urls/route.ts:508-509 | A site root gets the same key with or without a trailing slash |
| Queries.StripApostrophes | src/app/api/audit/discovery/urls/route.ts:102 | Removing apostrophes never lengthens the name |
| Queries.NameQueries | src/app/api/audit/discovery/urls/route.ts:107-117 | Without a name no name query is pushed; with a name and phone digits the quoted name and the digits come first; with a name and a city the quoted name and the city are pushed |
| Queries.VariantQueries | src/app/api/audit/discovery/urls/route.ts:119-125 | At most two variant queries, and none without name variants |
| Queries.AddressQueries | src/app/api/audit/discovery/urls/route.ts:132-142 | Without an address nothing is pushed; with one the quoted address comes first |
| Queries.ContactQueries | src/app/api/audit/discovery/urls/route.ts:126-142 | Without phone digits and address nothing is pushed; phone digits give the bare digits then the digits with `site:.au` first; an address gives the quoted address |
| Queries.SocialSiteQueries | src/app/api/audit/discovery/urls/route.ts:143-162 | Every query for a social host starts with `site:<host> `; a name gives the quoted-name site query; nothing is pushed when name, address and phone are all absent |
| Queries.SiteNameQueries | src/app/api/audit/discovery/urls/route.ts:144-145 | The quoted-name site queries start with the site prefix, and a name gives the quoted-name query |
| Queries.SiteAposQueries | src/app/api/audit/discovery/urls/route.ts:146-149 | The apostrophe-less site queries start with the site prefix and need a name |
| Queries.SiteVariantQueries | src/app/api/audit/discovery/urls/route.ts:151-156 | The variant site queries start with the site prefix and need a name |
| Queries.SiteContactQueries | src/app/api/audit/discovery/urls/route.ts:157-161 | The phone and first-line site queries start with the site prefix and need a phone or an address |
| Queries.DirectorySiteQueries | src/app/api/audit/discovery/urls/route.ts:163-168 | At most four queries, each starting with `site:<host> `; a name and phone digits each give their site query; nothing without name, address and phone |
| Queries.PushPerHost | src/app/api/audit/discovery/urls/route.ts:143-168 | A per-host loop appends every host's queries in host order |
| Queries.BuildQueries | src/app/api/audit/discovery/urls/route.ts:99-172 | The queries are the pushed candidates, de-duplicated in first-occurrence order: pairwise distinct, the same set, empty when name, address and phone are all absent, and led by the quoted name with the phone digits when both exist |
| Queries.PhoneQueryFirst | src/app/api/audit/discovery/urls/route.ts:107 | With a name and phone digits, the first candidate is the quoted name followed by the digits |
| Queries.NoQueriesWithoutRecord | src/app/api/audit/discovery/urls/route.ts:99-172 | With no name, address or phone digits nothing is pushed |
| Relevance.TokenScrub | src/app/api/audit/discovery/urls/route.ts:297 | The replacement keeps the length |
| Relevance.Tokenise | src/app/api/audit/discovery/urls/route.ts:297 | Every token has at least two characters |
| Relevance.BrandTokens | src/app/api/audit/discovery/urls/route.ts:284 | Every brand token is non-empty |
| Relevance.Bigrams | src/app/api/audit/discovery/urls/route.ts:286 | No bigrams for at most one token; otherwise one fewer than the tokens, each joining neighbouring tokens with a space |
| Relevance.LocalPhone | src/app/api/audit/discovery/urls/route.ts:388 | Removing a leading `61` from the phone digits, and nothing else |
| Relevance.CappedFuzzy | src/app/api/audit/discovery/urls/route.ts:352 | The fuzzy score is capped at `FUZZY_NAME_MAX_BONUS` and is either the raw score or the cap |
| Relevance.TokenContribution | src/app/api/audit/discovery/urls/route.ts:334-368 | The token contribution is at most 16, at most 10 for a generic brand with a phrase or bigram hit and at most 4 without one, and never above title×4 + path×2 + host×2 + the fuzzy cap |
| Relevance.TokenContributionMonotone | src/app/api/audit/discovery/urls/route.ts:334-368 | More title, path or host hits never lower the token contribution |
| Relevance.CountIn | src/app/api/audit/discovery/urls/route.ts:325-326 | A filtered count never exceeds the number of brand tokens |
| Relevance.FuzzyBonus | src/app/api/audit/discovery/urls/route.ts:337-351 | The fuzzy bonus lies between 0 and 2 per brand token, and is positive only when some brand token of at least 4 characters is missing from the page tokens and some page token is longer than 2 characters |
| Relevance.HostClassScore | src/app/api/audit/discovery/urls/route.ts:314-321 | The host-class and Australian host bonuses add between 0 and 22 |
| Relevance.NameScore | src/app/api/audit/discovery/urls/route.ts:323-369 | Name matching adds at most 40, and nothing without brand tokens |
| Relevance.GeoScore | src/app/api/audit/discovery/urls/route.ts:371-380 | Geo matching adds between 0 and 31 |
| Relevance.EvidenceScore | src/app/api/audit/discovery/urls/route.ts:382-396 | Address, street, phone and host relevance add between 0 and 58 |
| Relevance.Penalize | src/app/api/audit/discovery/urls/route.ts:398-409 | The penalties never raise the score and take away at most 38 |
| Relevance.Guard | src/app/api/audit/discovery/urls/route.ts:418-463 | The guards never raise the score; a wrong location caps it at 24, an occupation-only hit at 22, and an unsupported job-board or web hit at 20 |
| Relevance.FacebookAdjust | src/app/api/audit/discovery/urls/route.ts:465-490 | Non-Facebook hits are untouched; a Facebook hit gains at most 2, without geo support ends at most 24 and 4 lower, and an unsupported low-value path ends at most 12 |
| Relevance.ScoreItem | src/app/api/audit/discovery/urls/route.ts:303-493 | The final score is at most 153. An unsupported job-board or web hit ends at most 20. A wrong-location or occupation-only hit off Facebook ends at most 24 or 22. A Facebook hit without geo ends at most 24, and an unsupported low-value Facebook path at most 12. The returned flags are the observed signals |
| Relevance.ScoreHit | src/app/api/audit/discovery/urls/route.ts:303-493 | For a scored search hit, the job-board, web, wrong-location and occupation-only caps hold on the flags that `scoreItem` returns |
| Aggregate.TallyOf | src/app/api/audit/discovery/urls/route.ts:695-716 | Every result is counted once: kept, own website or bad URL |
| Aggregate.AcceptancesCounted | src/app/api/audit/discovery/urls/route.ts:695-716 | The accepted results are as many as the kept count |
| Aggregate.AcceptancesSound | src/app/api/audit/discovery/urls/route.ts:695-713 | Each acceptance is the accepted result at its position, and the ranks ascend |
| Aggregate.AcceptancesComplete | src/app/api/audit/discovery/urls/route.ts:695-713 | Every accepted result has an acceptance with rank equal to its 1-based position |
| Aggregate.Ingest | src/app/api/audit/discovery/urls/route.ts:690-716 | The loop's counters are the tally, and its items are the scored accepted results in order |
| Aggregate.ScoreResult | src/app/api/audit/discovery/urls/route.ts:707-712 | An accepted result becomes the item classified by its host and scored by `scoreItem` |
| Aggregate.Find | src/app/api/audit/discovery/urls/route.ts:812 | The lookup finds the entry with the key, or finds no entry and no entry has the key |
| Aggregate.AggregateItems | src/app/api/audit/discovery/urls/route.ts:797-821 | The aggregation loop computes the fold of the items |
| Aggregate.FindAgg | src/app/api/audit/discovery/urls/route.ts:812 | The scan over the entries returns the index the lookup rule gives, the length when no entry has the key |
| Aggregate.FoldSummarises | src/app/api/audit/discovery/urls/route.ts:797-821 | One entry per distinct key (social: scheme, host and path; others: scheme and host). Each entry's sample is an item with its key and the best score, its rank is the best rank (999 when missing), and `hits` counts the items with its key |
| Aggregate.DupBoost | src/app/api/audit/discovery/urls/route.ts:824 | The duplicate boost lies in [0, 6] |
| Aggregate.RankBoost | src/app/api/audit/discovery/urls/route.ts:825 | The rank boost lies in [0, 6] |
| Aggregate.FinalScore | src/app/api/audit/discovery/urls/route.ts:826-827 | The final score is the best score plus at most 12: unchanged below 30, plus both boosts from 40, and plus half the boosts (rounded) in between |
| Aggregate.FinalScoreMonotone | src/app/api/audit/discovery/urls/route.ts:824-827 | A better score, more hits or a better rank never lower the final score |
| Aggregate.FinalizeAll | src/app/api/audit/discovery/urls/route.ts:822-829 | One finalised item per entry, in entry order |
| Aggregate.SortDesc | src/app/api/audit/discovery/urls/route.ts:841 | The sort is a permutation of its input |
| Aggregate.SortDescSorted | src/app/api/audit/discovery/urls/route.ts:841 | The sorted items descend by score |
| Aggregate.SortDescStable | src/app/api/audit/discovery/urls/route.ts:841 | The sort is stable: the items of any one score keep their order |
| Aggregate.Capped | src/app/api/audit/discovery/urls/route.ts:843-853 | The cap loop keeps at most its input |
| Aggregate.CapPerHost | src/app/api/audit/discovery/urls/route.ts:843-853 | The loop keeps the capped items, and kept plus `capDropped` equals the input size |
| Aggregate.CappedPerHost | src/app/api/audit/discovery/urls/route.ts:843-853 | A host keeps the smaller of its item count and its cap (negative caps keep nothing) |
| Aggregate.CappedWithinCap | src/app/api/audit/discovery/urls/route.ts:843-853 | When each host has one source type, every kept item's host keeps at most its cap |
| Aggregate.CappedSorted | src/app/api/audit/discovery/urls/route.ts:841-853 | Capping keeps a descending order and keeps only input items |
| Aggregate.Select | src/app/api/audit/discovery/urls/route.ts:831-853 | The selection is threshold, then sort, then cap. It descends by score, keeps only items meeting their threshold, and kept plus `capDropped` equals the number above the threshold |
| Aggregate.AggregateAndSelect | src/app/api/audit/discovery/urls/route.ts:797-853 | The selected URLs descend by score, each meets its threshold and is the finalised form of one aggregated entry; when each host has one source type no host keeps more than its cap |
| NapMatch.NormalizePhoneShape | src/app/api/audit/discovery/scrape/route.ts:59-68 | No result exactly when the input has no digit. A result is `+` and digits or a bare service number of 8+ digits starting with 1. Its digits are the input digits, or `61` in place of a leading 0, or `61` before a nine-digit mobile |
| NapMatch.PlusArgument | src/app/api/audit/discovery/scrape/route.ts:62-67 | Any digit string that is not a service number normalises to `+` followed by digits |
| NapMatch.NormalizePhoneIdempotent | src/app/api/audit/discovery/scrape/route.ts:59-68 | Normalising a normalised phone changes nothing |
| NapMatch.ScrubToken | src/app/api/audit/discovery/scrape/route.ts:71 | The replacement keeps the length and leaves only lower-case alphanumerics and whitespace |
| NapMatch.TokenSet | src/app/api/audit/discovery/scrape/route.ts:70-73 | Every token is a non-empty run of lower-case alphanumerics; the empty string has none |
| NapMatch.OverlapRatio | src/app/api/audit/discovery/scrape/route.ts:75-81 | The counting loop computes shared tokens over the smaller set's size |
| NapMatch.OverlapBounds | src/app/api/audit/discovery/scrape/route.ts:75-81 | The overlap lies in [0, 1] and is 0 when either set is empty |
| NapMatch.OverlapSymmetric | src/app/api/audit/discovery/scrape/route.ts:75-81 | The overlap does not depend on the argument order |
| NapMatch.OverlapSelf | src/app/api/audit/discovery/scrape/route.ts:75-81 | A non-empty set overlaps itself fully, so it passes the 0.6 threshold |
| NapMatch.ScoreMatch | src/app/api/audit/discovery/scrape/route.ts:83-113 | The method computes the match outcome: phone, then address, then name |
| NapMatch.MatchNotes | src/app/api/audit/discovery/scrape/route.ts:90-109 | A matched field carries no note. Address and name notes appear only for an overlap strictly between 0 and 0.6. Missing golden fields neither match nor get a note. A phone present on one side only is noted with both normalised values |
| NapMatch.PointsRange | src/app/api/audit/discovery/scrape/route.ts:83-113 | The score is a multiple of 10 in [0, 100]. It is 100 exactly when all three fields match, and at least 60 exactly when the phone matches |
| NapMatch.SameRecordScoresFull | src/app/api/audit/discovery/scrape/route.ts:83-113 | A record with a phone, an address and a name matches itself on all three fields |
| Scrape.EndsWithAny | src/app/api/audit/discovery/scrape/route.ts:47-49 | True exactly when some listed host ends the host name |
| Scrape.ClassifyHost | src/app/api/audit/discovery/scrape/route.ts:46-51 | Places, then social, then directory, each by a plain suffix test, otherwise web |
| Scrape.DomainMatchIsSuffix | src/app/api/audit/discovery/scrape/route.ts:47-49 | Every dot-boundary domain match is also a plain suffix match |
| Scrape.PlacesAgree | src/app/api/audit/discovery/scrape/route.ts:46-47 | A host that discovery classifies as places is also places for the scrape |
| Scrape.StringUrls | src/app/api/audit/discovery/scrape/route.ts:228 | The discovered URLs are exactly the string `url` fields, at most one per entry |
| Scrape.SocialLinks | src/app/api/audit/discovery/scrape/route.ts:233-238 | At most one link per stored social value |
| Scrape.KeptSpec | src/app/api/audit/discovery/scrape/route.ts:253-262 | Only admitted candidates are kept, with pairwise distinct keys, and every admitted candidate's key is kept |
| Scrape.TargetsBounded | src/app/api/audit/discovery/scrape/route.ts:211-262 | At most 80 targets, all parseable candidates with distinct keys, and the recorded website appears only when it was ticked explicitly |
| Scrape.CollectExplicit | src/app/api/audit/discovery/scrape/route.ts:213-216 | The loop collects the normalised keys of the request's parseable URLs |
| Scrape.PushSocialLinks | src/app/api/audit/discovery/scrape/route.ts:233-238 | The loop appends the stored social links in order |
| Scrape.FilterTargets | src/app/api/audit/discovery/scrape/route.ts:253-261 | The filter with its `seen` set keeps exactly the kept candidates |
| Scrape.FilterOne | src/app/api/audit/discovery/scrape/route.ts:255-260 | One candidate's test takes the kept list and its `seen` keys from a prefix to the prefix one candidate longer |
| Scrape.SelectTargets | src/app/api/audit/discovery/scrape/route.ts:211-262 | The targets are the first 80 kept candidates: the request's URLs (or the discovered ones when asked and none are given), then the social links |
| Scrape.FirstFive | src/app/api/audit/discovery/scrape/route.ts:162-164 | At most five distinct input values, led by the first one |
| Scrape.TitleName | src/app/api/audit/discovery/scrape/route.ts:125 | The title name, when present, is the non-empty trimmed title |
| Scrape.BusinessNames | src/app/api/audit/discovery/scrape/route.ts:157-158 | Every name is the string `name` of a business item |
| Scrape.AddressOf | src/app/api/audit/discovery/scrape/route.ts:150-153 | A formatted address is never empty |
| Scrape.BusinessAddresses | src/app/api/audit/discovery/scrape/route.ts:148-155 | Every collected address is non-empty, at most one per item |
| Scrape.ParsedScripts | src/app/api/audit/discovery/scrape/route.ts:129-130 | Only the first five scripts are parsed |
| Scrape.ExtractSpec | src/app/api/audit/discovery/scrape/route.ts:123-166 | The extraction throws exactly when a parsed JSON-LD item is `null`. Otherwise names, addresses and phones are at most five, distinct, addresses non-empty, phones come from `tel:` links or phone matches with a `tel:` link first, and a title gives at least one name |
| Scrape.CollectNamesAndAddresses | src/app/api/audit/discovery/scrape/route.ts:148-158 | The two loops collect the business names and addresses |
| Scrape.ExtractFromHtml | src/app/api/audit/discovery/scrape/route.ts:123-166 | The method computes the extraction, with the `null`-item failure |
| Scrape.UtimesMillis | src/app/api/audit/discovery/scrape/route.ts:23-28 | Each `data-utime` becomes milliseconds |
| Scrape.MaxOf | src/app/api/audit/discovery/scrape/route.ts:29-31 | The latest time is a candidate and at least every candidate; there is none exactly when there are no candidates |
| Scrape.ObservationSpec | src/app/api/audit/discovery/scrape/route.ts:278-333 | Each target gets an observation of its URL and type. A failure scores 0 with an empty NAP, no post time and a non-empty error. A match scores its points in [0, 100]. Only social pages carry a post time. A fetched page fails exactly when extraction throws |
| Scrape.Rows | src/app/api/audit/discovery/scrape/route.ts:303-329 | One row per observation, in order |
| Scrape.LatestPostsKeys | src/app/api/audit/discovery/scrape/route.ts:293-301 | `socialsLast` has entries for exactly the platforms observed with a post time |
| Scrape.LatestPostsBound | src/app/api/audit/discovery/scrape/route.ts:297-300 | Each platform's entry is at least every post time observed for it |
| Scrape.LatestPostsAttained | src/app/api/audit/discovery/scrape/route.ts:297-300 | Each platform's entry is one of the post times observed for it |
| Scrape.ScrapeRun.constructor | src/app/api/audit/discovery/scrape/route.ts:265-268 | A run starts with no observations, rows or post times |
| Scrape.ScrapeRun.FlushBuffer | src/app/api/audit/discovery/scrape/route.ts:269-274 | The buffered rows are appended to the inserted rows and the buffer is emptied |
| Scrape.ScrapeRun.Push | src/app/api/audit/discovery/scrape/route.ts:293-332 | One observation is appended and its post time recorded; its row is buffered, and at the eighth row the buffer is flushed; the run stays valid |
| Scrape.Observe | src/app/api/audit/discovery/scrape/route.ts:279-333 | The method computes the target's observation |
| Scrape.ObservationsOf | src/app/api/audit/discovery/scrape/route.ts:278-335 | Exactly one observation per target, in target order |
| Scrape.ScrapeAll | src/app/api/audit/discovery/scrape/route.ts:265-342 | After the loop and the final flush, every observation's row is inserted in order, the buffer is empty, and `socialsLast` holds the latest post per platform |
| Scrape.ScrapeOne | src/app/api/audit/discovery/scrape/route.ts:279-332 | Scraping one target extends the observations to the next prefix of targets, keeps the run valid and keeps `socialsLast` the latest post per platform |
| Scrape.StrongDirectoryKeys | src/app/api/audit/discovery/scrape/route.ts:345-352 | The loop collects the directories some observation matched with a score of 85 or more |
| Scrape.OpportunitiesFrom | src/app/api/audit/discovery/scrape/route.ts:356-362 | At most one opportunity per registry entry |
| Scrape.OpportunitiesSpec | src/app/api/audit/discovery/scrape/route.ts:356-362 | One opportunity per listing entry without a strong match, with priority `max(1, 11 - weight)`, and no other |
| Scrape.OpportunitiesDistinct | src/app/api/audit/discovery/scrape/route.ts:356-362 | With distinct registry keys, no directory gets two opportunities |
| Scrape.RegistryOpportunities | src/app/api/audit/discovery/scrape/route.ts:344-362 | On the registry, every directory, review and leads entry without a strong match gets exactly one opportunity, and priorities lie in [1, 10] |
| Scrape.ListingOpportunities | src/app/api/audit/discovery/scrape/route.ts:354-362 | The loop builds the opportunities of the registry |
| Scrape.OpportunitiesOf | src/app/api/audit/discovery/scrape/route.ts:356-362 | The loop over a directory table yields one opportunity per directory without a strong match, in table order |
| Scrape.InsertOpportunities | src/app/api/audit/discovery/scrape/route.ts:364-377 | An opportunity is inserted only when its audit has none for that directory yet, each such directory gets one, and no directory is inserted twice |
| Report.StatusFromScore | src/app/api/audit/report/route.ts:13-18 | Green from 85, orange for 40-84, red below 40 or for a missing score |
| Report.StatusMonotone | src/app/api/audit/report/route.ts:13-18 | A higher score never gives a worse status |
| Report.Seeded | src/app/api/audit/report/route.ts:48-53 | The seeded entries are exactly the registry entries that are seeded |
| Report.FindByHost | src/app/api/audit/report/route.ts:6-11 | A found entry is a registry entry |
| Report.FindByHostOnRegistry | src/app/api/audit/report/route.ts:6-11 | The report's lookup is the registry's `findDirectoryByHost` |
| Report.TargetIsSeeded | src/app/api/audit/report/route.ts:55-64 | An attached row always lands on a seeded platform |
| Report.PlatformsOf | src/app/api/audit/report/route.ts:47-68 | One platform per seeded entry |
| Report.RowsForSpec | src/app/api/audit/report/route.ts:55-65 | A platform's rows are exactly the rows of the observations attached to it |
| Report.SeededPlatforms | src/app/api/audit/report/route.ts:47-53 | Every registry entry is a platform, even with no rows; maps entries only with `includeMaps` |
| Report.SeededKeysDistinct | src/app/api/audit/report/route.ts:47-53 | The seeded platforms have distinct keys |
| Report.SeedPlatforms | src/app/api/audit/report/route.ts:47-53 | The seeding loop maps each seeded key to its empty platform, in registry order |
| Report.BuildPlatforms | src/app/api/audit/report/route.ts:45-68 | Seeding, attachment and the values in insertion order give the platforms |
| Report.BestIsFirstMax | src/app/api/audit/report/route.ts:75-82 | The best score bounds every numeric row. Above -1 it is the first row with the highest score and gives that row's status. With no numeric row the status is red |
| Report.BestStatus | src/app/api/audit/report/route.ts:75-82 | The loop computes the best row's status |
| Report.RoundedRatio | src/app/api/audit/report/route.ts:101 | `Math.round` of a quotient is the nearest integer, halves rounded up |
| Report.Summarise | src/app/api/audit/report/route.ts:69-101 | The map with its running `obtained` computes the scoring |
| Report.TotalWeightOf | src/app/api/audit/report/route.ts:69 | The running sum equals the total weight of the platforms |
| Report.SummariseRows | src/app/api/audit/report/route.ts:73-97 | Each platform gets its summary and `obtained` ends as the sum of the contributions |
| Report.HalvesBounded | src/app/api/audit/report/route.ts:84-88 | With positive weights, the obtained half-weights lie between 0 and twice the weight sum |
| Report.RoundedPercent | src/app/api/audit/report/route.ts:101 | The rounded percentage of a fraction in [0, 1] lies in [0, 100] |
| Report.OverallInRange | src/app/api/audit/report/route.ts:69-101 | With positive weights the overall score lies in [0, 100] |
| Report.RegistryShape | src/lib/discovery/au_directories.ts:12-50 | The registry has distinct keys and positive weights |
| Report.ReportScoreInRange | src/app/api/audit/report/route.ts:47-101 | The overall score of a report built from the registry lies in [0, 100] |
| Report.HandleReport | src/app/api/audit/report/route.ts:20-120 | The handler rejects a request without business or audit with a 400. A failed or empty profile lookup is a 404 carrying the lookup's own message, or "Business not found" when it has none. A failed observation query is a 500 with its error. Otherwise it reports the stored golden record and an overall score in [0, 100] |
| Probes.PerHost | src/lib/discovery/probes_au.ts:43 | The limit is `limitPerHost`, 2 when missing, clamped to [1, 3] |
| Probes.LocationOf | src/lib/discovery/probes_au.ts:8-23 | The state is one of the eight codes, the postcode has four characters, and the city follows the city rule (second non-blank comma piece, else the only one, else none) |
| Probes.LocationWords | src/lib/discovery/probes_au.ts:51-53 | At most two words: the city first when there is one, then the state, or the postcode when there is no state |
| Probes.QueryShape | src/lib/discovery/probes_au.ts:47-54 | The query is `site:<host> "<name>"` followed by the location words, single-spaced |
| Probes.ProbeKeyDropsQuery | src/lib/discovery/probes_au.ts:74-78 | The normalised URL ignores the query and the fragment and starts with scheme and host |
| Probes.AcceptedSpec | src/lib/discovery/probes_au.ts:69-81 | An accepted entry has a string link that parses, its URL is the normalised link, and its host (without `www.`) ends with the probed host |
| Probes.BlockBounded | src/lib/discovery/probes_au.ts:67-84 | A host's block holds at most `perHost` results with pairwise distinct URLs |
| Probes.BlockSound | src/lib/discovery/probes_au.ts:67-84 | Every result is an accepted entry of the answer, on the probed host |
| Probes.BlockComplete | src/lib/discovery/probes_au.ts:67-84 | While the block is not full, no accepted URL is missing from it |
| Probes.BlockFull | src/lib/discovery/probes_au.ts:82 | Once the block is full, the remaining entries change nothing |
| Probes.ScanOrganic | src/lib/discovery/probes_au.ts:66-84 | The inner loop with its `seen` set and `break` computes the block |
| Probes.HostBlocks | src/lib/discovery/probes_au.ts:46-88 | One block per probed host |
| Probes.HostBlockSpec | src/lib/discovery/probes_au.ts:66-83 | Each host's block has at most the per-host limit of distinct URLs, every result on that host |
| Probes.DirectoryProbesSpec | src/lib/discovery/probes_au.ts:33-90 | No results without an API key or a name; at most five hosts times the limit; every result comes from its host's block and lies on that host |
| Probes.FailureIsolated | src/lib/discovery/probes_au.ts:56-87 | A failing host contributes nothing and the other hosts' blocks are unchanged |
| Probes.ProbeHost | src/lib/discovery/probes_au.ts:47-87 | One pass of the host loop computes that host's results |
| Probes.RunDirectoryProbes | src/lib/discovery/probes_au.ts:33-90 | The method computes the probe results |
| Probes.ProbeAll | src/lib/discovery/probes_au.ts:46-88 | The loop over hosts appends every host's block in order |
| Crawl.Uniq | src/app/api/audit/website/crawl/route.ts:14-16 | Distinct, no longer than the input, and holding exactly the non-empty input values |
| Strings.Take | src/app/api/audit/website/crawl/route.ts:18 | `take(arr, n)` is the prefix of length n or the length of `arr`, whichever is smaller |
| Crawl.UniqJson | src/app/api/audit/website/crawl/route.ts:14-16 | Distinct, and holding exactly the truthy input values |
| Crawl.UniqKeepsFirstOrder | src/app/api/audit/website/crawl/route.ts:14-16 | `uniq` keeps the values in the order they first occur |
| Crawl.CloseFrom | src/app/api/audit/website/crawl/route.ts:35 | The first `-->` at or after a position |
| Crawl.StripComments | src/app/api/audit/website/crawl/route.ts:35 | Removing comments never lengthens the text |
| Crawl.StripCommentsNoComment | src/app/api/audit/website/crawl/route.ts:35 | A text without `<!--` is unchanged |
| Crawl.StripLeadingComment | src/app/api/audit/website/crawl/route.ts:35 | A leading comment is removed up to its first `-->` |
| Crawl.TryParseJson | src/app/api/audit/website/crawl/route.ts:29-41 | A direct parse wins; the result is null exactly when both the direct parse and the parse after stripping comments fail |
| Crawl.TryParseJsonNoComment | src/app/api/audit/website/crawl/route.ts:29-41 | Without comments the retry parses the trimmed text |
| Crawl.SlotFills | src/app/api/audit/website/crawl/route.ts:47-56 | A chosen slot is one of facebook, instagram, x, linkedin, youtube and tiktok; the host carries that platform's marker and the slot is still empty |
| Crawl.SlotFirst | src/app/api/audit/website/crawl/route.ts:47-56 | No platform tried earlier in that order could have taken the URL |
| Crawl.SlotNone | src/app/api/audit/website/crawl/route.ts:47-56 | The URL goes to `other` exactly when no platform's marker matches an empty slot |
| Crawl.SplitSound | src/app/api/audit/website/crawl/route.ts:43-61 | Every slot holds an input URL that parses and names that platform; every URL in `other` parses |
| Crawl.SplitComplete | src/app/api/audit/website/crawl/route.ts:43-61 | Every parseable input URL ends up in a slot or in `other` |
| Crawl.SplitStable | src/app/api/audit/website/crawl/route.ts:50-56 | A filled slot keeps its URL to the end |
| Crawl.FirstFillWins | src/app/api/audit/website/crawl/route.ts:50-56 | The URL that fills an empty slot is the one it holds at the end |
| Crawl.FacebookIsFirst | src/app/api/audit/website/crawl/route.ts:43-61 | The facebook slot holds the first parseable URL whose host contains `facebook.com` |
| Crawl.NormalizeSocials | src/app/api/audit/website/crawl/route.ts:43-61 | The loop computes the split into slots and `other` |
| Crawl.Capped | src/app/api/audit/website/crawl/route.ts:63-82 | A capped match is the prefix of the match whose length is the cap or the whole length, whichever is smaller; no match stays no match |
| Crawl.ExtractMeta | src/app/api/audit/website/crawl/route.ts:63-82 | The title is the trimmed title cut at exactly 500 characters when longer; the description and each Open Graph field are cut at 1000 |
| Crawl.ExtractPhones | src/app/api/audit/website/crawl/route.ts:91-100 | At most 20 distinct non-empty phones from the `tel:` links and the pattern matches, all of them when there are at most 20 |
| Crawl.Snippets | src/app/api/audit/website/crawl/route.ts:104 | The first five scripts (or all when fewer), each the prefix of its trimmed text cut at exactly 16000 characters when longer |
| Crawl.ParsedBlocks | src/app/api/audit/website/crawl/route.ts:106-107 | One parse result per snippet |
| Crawl.CollectJsonLdSpec | src/app/api/audit/website/crawl/route.ts:102-123 | Throws exactly when an item is `null`; otherwise at most 5 snippets of at most 16000 characters, `parsed` a prefix of at most 10 items, `localBusiness` the first 5 business items, and distinct `sameAs` |
| Crawl.MalformedSkipped | src/app/api/audit/website/crawl/route.ts:106-111 | A snippet that does not parse adds nothing; every item comes from a parsed snippet |
| Crawl.ScanItems | src/app/api/audit/website/crawl/route.ts:114-121 | The item loop selects the business items and collects every `sameAs` entry |
| Crawl.CollectJsonLd | src/app/api/audit/website/crawl/route.ts:102-123 | The method computes the JSON-LD collection |
| Crawl.NamesOf | src/app/api/audit/website/crawl/route.ts:175 | Names are non-empty, at most one per item |
| Crawl.AddressHintsOf | src/app/api/audit/website/crawl/route.ts:176-182 | Hints come from object addresses, and a formatted address is never empty |
| Crawl.CollectHints | src/app/api/audit/website/crawl/route.ts:172-183 | The loop collects the names and address hints |
| Crawl.AnchorUrls | src/app/api/audit/website/crawl/route.ts:162-164 | The first 200 absolute http(s) anchors in page order: a prefix of the filtered anchors of length min(200, count), holding every absolute anchor when there are at most 200 |
| Crawl.SocialsAll | src/app/api/audit/website/crawl/route.ts:167 | The social candidates are distinct and truthy |
| Crawl.OwnSocials | src/app/api/audit/website/crawl/route.ts:188-207 | The crawl's socials are the platform slots, with `other` only when it is non-empty |
| Crawl.SnapshotCaps | src/app/api/audit/website/crawl/route.ts:185-201 | The snapshot respects every cap: title 500, description 1000, 20 distinct phones, 10 distinct names, 10 addresses, 5 snippets, 10 parsed, 5 business items, distinct `sameAs`, and only platform keys or `other` in socials |
| Crawl.MergeSocials | src/app/api/audit/website/crawl/route.ts:205-219 | The merge keeps every key of the spread stored column (an array's items under "0", "1" and so on) and adds the crawl's keys, and the crawl's value wins where both have one |
| Crawl.CrawlSpec | src/app/api/audit/website/crawl/route.ts:125-239 | A missing business or non-http(s) URL is a 400. A rejection writes nothing. The snapshot is saved exactly when every step succeeds. The update sets the website and the merged socials |
| Crawl.BuildSnapshot | src/app/api/audit/website/crawl/route.ts:156-201 | The method computes the snapshot |
| Crawl.HandleCrawl | src/app/api/audit/website/crawl/route.ts:125-239 | The method computes the handler's outcome |
| JsonLd.SpreadSound | src/app/api/audit/website/crawl/route.ts:106-111 | Every item comes from one parsed block: the block or one of its elements |
| JsonLd.SpreadComplete | src/app/api/audit/website/crawl/route.ts:106-111 | Nothing a truthy block holds is lost |
| JsonLd.SpreadParsed | src/app/api/audit/website/crawl/route.ts:106-111 | The loop computes the spread of the blocks |
| JsonLd.SelectBusinessesIsFilter | src/app/api/audit/website/crawl/route.ts:114-118 | The selection throws exactly when an item is `null`, and otherwise keeps the business items in order |
| JsonLd.SelectBusinessItems | src/app/api/audit/discovery/scrape/route.ts:136-140 | The loop computes the selection |
| JsonLd.NullStays | src/app/api/audit/website/crawl/route.ts:114-118 | Once the selection has thrown it stays thrown |
| JsonLd.AddressParts | src/app/api/audit/website/crawl/route.ts:178-179 | At most one part per address field |
| JsonLd.FormattedAddressEmpty | src/app/api/audit/website/crawl/route.ts:178-180 | An address with none of the five fields formats as the empty string |
| Socials.SocialKeyOfSpec | src/app/api/audit/socials/route.ts:16-22 | The platform is the first of facebook, instagram, linkedin, x/twitter, youtube/youtu.be and tiktok whose marker the host contains; none means no marker matches |
| Socials.SocialKeyOfChain | src/app/api/audit/socials/route.ts:16-22 | The first-match search agrees with the route's chain of `includes` tests for every host |
| Socials.FirstMentionedSpec | src/app/api/audit/socials/route.ts:16-22 | Over distinct keys the search returns a mentioned key that no earlier key beats, and none exactly when no key is mentioned |
| Web.Spread | src/app/api/audit/socials/route.ts:49 | `{ ...v }` of a stored object column: its own fields; of an array: its items under their decimal indices, with no other key; anything else gives `{}` |
| Strings.NatToStringInjective | src/app/api/audit/socials/route.ts:49 | `String(n)` is injective, so distinct array indices spread to distinct keys |
| Socials.SetSocial | src/app/api/audit/socials/route.ts:25-80 | A missing business or non-http(s) URL is a 400. A failed or empty profile lookup is a 404 with the lookup's message. A failed update is a 500 with its message. An update keeps every other key of the spread stored socials and only adds the chosen key, and it records a manual `social_set` snapshot row with key, previous and new value exactly when an audit is named. A conflict returns the stored socials untouched |
| Socials.IsHttpUrl | src/app/api/audit/socials/route.ts:7-10 | An empty or unparseable URL is rejected, and so is one whose protocol is neither http: nor https:; an accepted URL has one of the two |
| Socials.KeyChoice | src/app/api/audit/socials/route.ts:33-37 | A caller's key wins over the detected one; with neither the request is a 400; with either the answer is an update, a conflict or the update's 500 |
| Socials.SetRule | src/app/api/audit/socials/route.ts:49-63 | With `replace` or no previous value the key gets the normalised URL. A different previous value without `replace` is a conflict that writes nothing. The same value again changes nothing. Any write that fails is a 500 with the update's message |
| Socials.SetTwiceIsSetOnce | src/app/api/audit/socials/route.ts:49-57 | Setting the same URL twice gives the same socials as setting it once |
| Unified.SpacesToHyphens | src/lib/business/unified.ts:9 | Runs of spaces become hyphens, so a scrubbed text becomes slug characters |
| Unified.DropHyphens | src/lib/business/unified.ts:11 | Dropping leading hyphens leaves a suffix that does not start with a hyphen |
| Unified.SqueezeHyphens | src/lib/business/unified.ts:10 | No doubled hyphen is left, and slug characters stay slug characters |
| Unified.Scrubbed | src/lib/business/unified.ts:8 | Only `[a-z0-9 -]` remains |
| Unified.Hyphenated | src/lib/business/unified.ts:9-10 | A scrubbed text becomes a slug |
| Unified.TakeSlug | src/lib/business/unified.ts:12 | Cutting a slug keeps it a slug |
| Unified.Slugify | src/lib/business/unified.ts:4-13 | The slug is never empty (it falls back to `client`), is at most 50 characters, uses only `[a-z0-9-]`, and has no `--` |
| Unified.SlugifyFixedPoint | src/lib/business/unified.ts:4-13 | A non-empty slug of at most 50 characters is its own slug |
| Unified.ProfileIndices | src/lib/business/unified.ts:110-115 | The indices are exactly the profiles of the business |
| Unified.FirstFree | src/lib/business/unified.ts:20-40 | The first candidate from a given attempt that is not taken, or all of them are taken |
| Unified.CreateOutcome | src/lib/business/unified.ts:15-41 | Creation succeeds exactly when the insert succeeds and some of `base`, `base-1` … `base-49` is free. It fails with the slug error when all 50 are taken. A failure changes nothing |
| Unified.CreateSuccess | src/lib/business/unified.ts:15-41 | On success the new public business is appended with the first free candidate as its slug, the slugs stay distinct, and the other tables are unchanged |
| Unified.MembershipOf | src/lib/business/unified.ts:43-60 | No error exactly when the pair ends up present; memberships are unchanged or gain exactly the pair; other tables are unchanged |
| Unified.MembershipIdempotent | src/lib/business/unified.ts:43-60 | After a successful call, calling again succeeds and changes nothing |
| Unified.OwnerOf | src/lib/business/unified.ts:74 | The owner is `owner_id`, else `ambassador_id`, else none |
| Unified.FillOwner | src/lib/business/unified.ts:83-85 | Only that business changes: its owner is set when it has none and one is given |
| Unified.EnsureBusinessForLead | src/lib/business/unified.ts:62-91 | The owner is `owner_id ?? ambassador_id`. A lead with a business gets no new one. A lead without one is linked to the new business with that owner. A failure changes nothing |
| Unified.EnsureBusinessValid | src/lib/business/unified.ts:62-91 | Ensuring a business keeps the store valid and leaves profiles and memberships alone |
| Unified.CreateKeepsValid | src/lib/business/unified.ts:77-79 | Creating the business keeps the store valid and leaves leads, profiles and memberships alone |
| Unified.FillOwnerKeepsSlugs | src/lib/business/unified.ts:83-85 | Filling an owner keeps the slugs distinct |
| Unified.UpsertProfileSpec | src/lib/business/unified.ts:105-130 | An existing profile gets the patch's columns merged in; otherwise exactly one profile is appended. Other profiles and tables are unchanged, and the store stays valid |
| Unified.FirstMatch | src/lib/business/unified.ts:141-146 | The first profile matching either key, or none matches |
| Unified.FindBusinessIdByProfileKeys | src/lib/business/unified.ts:132-148 | No result without keys or when the query fails. A result is the business of a matching profile. No result after a successful query means no profile matches |
| Unified.Store.constructor | src/lib/business/unified.ts:15-148 | The store starts with the given tables |
| Unified.Store.CreateBusinessWithUniqueSlug | src/lib/business/unified.ts:15-41 | The `while` loop over attempts creates the business as the creation rule says |
| Unified.Store.EnsureMembership | src/lib/business/unified.ts:43-60 | The check-then-insert updates the memberships as the membership rule says |
| Unified.Store.EnsureBusiness | src/lib/business/unified.ts:62-91 | Linking a lead to a business updates the tables as the ensure rule says |
| Unified.Store.FillEmptyOwner | src/lib/business/unified.ts:81-83 | The owner is written only onto the business whose owner is still empty |
| Unified.Store.UpsertBusinessProfile | src/lib/business/unified.ts:105-130 | The update-or-insert changes the profiles as the upsert rule says |
| Leads.DropNonAlnum | src/app/dashboard/ambassador/actions.ts:146 | Leading non-alphanumerics are dropped, leaving a suffix that starts with an alphanumeric |
| Leads.HyphenateRuns | src/app/dashboard/ambassador/actions.ts:146 | Each run of other characters becomes one hyphen: only `[a-z0-9-]`, no `--`, and a leading hyphen exactly when the input starts with a non-alphanumeric |
| Leads.StripEdgeHyphens | src/app/dashboard/ambassador/actions.ts:146 | Removing edge hyphens keeps a slug a slug with no hyphen at either end |
| Leads.Slugify | src/app/dashboard/ambassador/actions.ts:145-147 | The slug uses only `[a-z0-9-]`, has no `--`, no leading hyphen, and at most 60 characters |
| Leads.SlugifyFixedPoint | src/app/dashboard/ambassador/actions.ts:145-147 | A slug of at most 60 characters without edge hyphens is its own slug |
| Leads.LeadAccess | src/app/dashboard/ambassador/actions.ts:20-30 | Access is granted exactly to a dev or the lead's owner; a missing lead is "Lead not found" and anyone else is "Forbidden" |
| Leads.ConvertAllowed | src/app/dashboard/ambassador/actions.ts:386-400 | Conversion passes the guard exactly for a signed-in dev, or for the owner of a lead that is paid or agreed |
| Leads.NonEmpty | src/app/dashboard/ambassador/actions.ts:431 | A value is kept exactly when it is non-empty |
| Leads.OrPrevious | src/app/dashboard/ambassador/actions.ts:481-498 | The new non-empty value, else the previous non-empty value, else null |
| Leads.OneOrPrevious | src/app/dashboard/ambassador/actions.ts:484-485 | The new value alone, else the previous list cut at three |
| Leads.CreateLeadSpec | src/app/dashboard/ambassador/actions.ts:403-456 | A lead is created exactly when the trimmed name, address, phone and email are non-empty and the caller is an ambassador or dev. Missing fields give "Missing required fields". The caller owns the lead, and the golden record and slug follow the form |
| Leads.MergeGoldenSpec | src/app/dashboard/ambassador/actions.ts:481-498 | The merge takes each new non-empty value or the previous one, never carries the industry over, and keeps at most three phones and emails |
| Leads.MergeEmptyForm | src/app/dashboard/ambassador/actions.ts:481-498 | An empty form keeps the previous record, except that the industry is cleared |
| Leads.UpdateGoldenOf | src/app/dashboard/ambassador/actions.ts:459-507 | The update succeeds exactly for a dev or the owner of an existing lead, and then stores the merged record |
| Leads.AssignOwnerSpec | src/app/dashboard/ambassador/actions.ts:271-295 | Assignment succeeds exactly for a dev caller, given ids, an assignee who is dev or ambassador, and no update error. It then sets both owner and ambassador of that lead and leaves the other leads alone |
| Leads.AttemptDecided | src/app/dashboard/ambassador/actions.ts:303-317 | The first attempt that is not a 23505 retry decides the outcome |
| Leads.AttemptExhausted | src/app/dashboard/ambassador/actions.ts:303-317 | When all 20 attempts must retry, creation fails with the slug error |
| Leads.AttemptSuccess | src/app/dashboard/ambassador/actions.ts:303-317 | A success returns the id of the first insert that did not retry |
| Leads.AttemptAgainstTable | src/app/dashboard/ambassador/actions.ts:298-318 | Against a table of taken slugs, creation succeeds exactly when one of `base`, `base-2` … `base-20` is free |
| Leads.CreateBusinessWithUniqueSlug | src/app/dashboard/ambassador/actions.ts:298-318 | The retry loop computes the attempt sequence over the slug of the name (or `client`) |
| Leads.CandidatesDistinct | src/app/dashboard/ambassador/actions.ts:303-305 | The 20 candidates are pairwise different |
| Middleware.StatusOf | middleware.ts:27-38 | A missing status or a failed lookup counts as `pending` |
| Middleware.Handle | middleware.ts:61-63 | Only `/` and `/dashboard/...` reach the middleware; other paths pass |
| Middleware.SignedOutDashboard | middleware.ts:41-43 | A visitor who is not signed in is sent from the dashboard to `/` |
| Middleware.SignedInRoot | middleware.ts:47-51 | A signed-in user at `/` goes to `/dashboard` if approved, `/denied` if denied, `/pending` otherwise |
| Middleware.SignedInDashboard | middleware.ts:52-55 | On the dashboard, a user goes to `/denied` exactly when denied, to `/pending` exactly when neither denied nor approved, and passes exactly when approved |
| Middleware.MissingStatusIsPending | middleware.ts:27-38 | A failed lookup and a missing status route like `pending` |
| Middleware.OtherwisePass | middleware.ts:58 | Everything else passes |
| Middleware.SignedOutIgnoresStatus | middleware.ts:41-58 | The status matters only to a signed-in user |
| Middleware.RedirectSettles | middleware.ts:41-63 | Following a redirect leads to a page the middleware passes, so it never redirects twice in a row |

## Left out

- Network I/O is not modelled: fetches, timeouts, abort controllers, search backends, the worker and the rate-limit sleeps. Their answers are parameters.
- Server-sent event streaming of discovery progress is not modelled, and neither are the parallel Serper enrichment tasks. Every candidate is taken to be appended before aggregation.
- The database is not modelled beyond what a rule depends on. Supabase answers are parameters. `unified.ts` runs over an abstract table value in which ids are row positions.
- `revalidatePath` and `redirect` calls, and the clock (`new Date().toISOString()` for `capturedAt` and `generatedAt`), are left out.
- Regular-expression extraction over HTML (`extractBetween`, anchors, `<time>` and meta tags, phone patterns) is not modelled. The lists of matches are inputs.
- `JSON.parse`, `new URL` and `Date.parse` are uninterpreted parameters.
- `String.normalize` is approximated. `toLowerCase` covers ASCII and the Latin-1 capitals. NFD followed by mark stripping is a Latin-1 table, the slug of `unified.ts` reads its NFKD through the same table (see Unified.Slugify below), and case-insensitive matching folds ASCII only.
- A non-integer or NaN `limitPerHost` is not modelled: the limit is an optional integer.
- Request fields of other JSON types are not modelled. Body fields are strings, and the empty string stands for a missing or falsy field.
- JavaScript object identity in `new Set(...)` over JSON values is modelled as value equality.
- String lengths count characters, not UTF-16 code units. The caps of `slice` (500, 1000 and 16000 in the crawl, 60 and 50 in the slugs) therefore cut a text with characters outside the Basic Multilingual Plane at a different place than the source.
- JSON numbers are integers only (`JNum`). Fractional and non-finite numbers in request bodies, stored columns and parsed JSON-LD are not modelled.
- Unified.Slugify: `normalize('NFKD')` goes through the canonical Latin-1 table, so the compatibility decompositions are missing. These are ª and º (to a and o), ¹ ² ³ (to digits), ¼ ½ ¾ (to two digits once the fraction slash is scrubbed), and ¨ ´ ¯ ¸ (to a space plus a mark, so a hyphen in the slug). For example, "Level³" gives "level" where the source gives "level3", and "a¨b" gives "ab" where the source gives "a-b".
- Scrape.SelectTargets: URLs carry no user information. The source keys targets by `toString()`, which keeps `user:pass@`, while the website key is built without it. A target such as `https://u@acme.com/` next to the website `https://acme.com` is therefore kept by the source even when the website is not ticked, and two targets that differ only in user information stay apart. The model skips the first and merges the second.
- Socials.SetSocial: `socials[key]` in the source also reads members a plain object inherits. A key such as "constructor" or "toString" that the stored socials lack reads there as a truthy function, so without `replace` the source answers 409. The model sees no previous value and sets the key: keys are own fields only.
- Queries.ParseInt: the parsed value is an unbounded integer. `parseInt` yields a floating-point number that loses precision above 2^53 and becomes Infinity past about 309 digits, and `Number.isFinite` then rejects that override; the model accepts it.
- Fuzzy.DlDistance: the contract states the early exits and the bounds from the cited candidate properties, not that the value is the Damerau-Levenshtein distance.
- Scrape.ScrapeAll: insert failures of the row flushes are not modelled. Every flush succeeds, so the 500 reply on a failed final flush and a second failure observation for a URL whose flush fails are left out.
- Scrape.InsertOpportunities: the contract covers which opportunities are inserted, not insert errors, which the route ignores.
- buildFacebookQueries (src/app/api/audit/discovery/urls/route.ts:19-34) is not modelled. It feeds only the Facebook enrichment path that runs in parallel with the main search.
- The scrape snapshot insert and the merge of `socials_last` into `golden_profile` are left out. They are single writes of values the model computes.
- Unified.CreateOutcome: a failure by slug exhaustion is stated one way only. An insert error whose message equals the exhaustion text is indistinguishable from it.
- Unified.FindBusinessIdByProfileKeys: the key filter is read as plain equality. PostgREST `.or` filter syntax inside a key is not modelled, and a match is the first in table order rather than an unspecified row.
- Unified.MembershipOf: a 23505 error is taken to mean the pair exists, since concurrent inserts are not modelled.
- setGoldenProfile and getProfileBasics (src/lib/business/unified.ts:93-103, 150+) are single reads and writes with no rule of their own, so they are not modelled.
- convertLeadCore is not modelled beyond its guard. Its body is a sequence of store calls, modelled by `Unified.Store`, plus an agreement timestamp from the clock.
- createAgreement, createPayment, nukeLeadsAndClients and seedDemoLeads (src/app/dashboard/ambassador/actions.ts) are not modelled. They are Stripe calls, data wipes and development fixtures.
- Leads.UpdateGoldenOf: a `golden_record.name` that is not a string is not modelled. The previous record is a typed value.
- Leads.CreateLeadSpec: the insert error path of `createLead` is not modelled. The insert is taken to succeed.
