/** The JSON-LD post-processing that the scrape route
    (src/app/api/audit/discovery/scrape/route.ts) and the crawl route
    (src/app/api/audit/website/crawl/route.ts) share: spreading parsed blocks into one
    list of items, picking the LocalBusiness/Organization items, and formatting a
    postal address. Both routes carry identical copies of this code. */
module JsonLd {
  import opened Strings
  import opened Web

  /** `String(v)` for a JSON value; an array joins its elements with commas, `null`
      elements reading as empty. */
  function JsText(j: Json): string
    decreases j
  {
    match j
    case JNull => "null"
    case JBool(b) => if b then "true" else "false"
    case JNum(n) => IntToString(n)
    case JStr(s) => s
    case JArr(items) => Join(seq(|items|, i requires 0 <= i < |items| => if items[i].JNull? then "" else JsText(items[i])), ",")
    case JObj(_) => "[object Object]"
  }

  /** Case folding of a regular expression with the `i` flag and no `u` flag: ASCII only. */
  function FoldAscii(s: string): (r: string)
    ensures |r| == |s|
  {
    seq(|s|, i requires 0 <= i < |s| => if IsUpperAlpha(s[i]) then (s[i] as int + 32) as char else s[i])
  }

  /** `/LocalBusiness|Organization/i.test(t)` */
  predicate MentionsBusiness(t: Json)
  {
    var s := FoldAscii(JsText(t));
    Contains(s, "localbusiness") || Contains(s, "organization")
  }

  /** `item[name]` on a value that is not `null`: only objects have fields. */
  function Field(item: Json, name: string): Option<Json>
  {
    if item.JObj? && name in item.fields then Some(item.fields[name]) else None
  }

  /** `Array.isArray(item['@type']) ? item['@type'] : [item['@type']].filter(Boolean)` */
  function TypesOf(item: Json): seq<Json>
  {
    match Field(item, "@type")
    case None => []
    case Some(t) => if t.JArr? then t.items else if Falsy(t) then [] else [t]
  }

  predicate AnyMentionsBusiness(ts: seq<Json>)
  {
    exists i :: 0 <= i < |ts| && MentionsBusiness(ts[i])
  }

  /** An item whose `@type` names a LocalBusiness or an Organization. */
  predicate IsBusiness(item: Json)
  {
    AnyMentionsBusiness(TypesOf(item))
  }

  // ---------------------------------------------------------------------------
  // Spreading the parsed blocks

  /** The items the push loop collects from the parse results, in order: falsy or
      unparsable blocks are skipped, an array contributes its elements, anything else
      itself. */
  function Spread(blocks: seq<Option<Json>>): (items: seq<Json>)
  {
    if |blocks| == 0 then []
    else
      var pre := Spread(blocks[..|blocks| - 1]);
      var b := blocks[|blocks| - 1];
      if b.None? || Falsy(b.value) then pre
      else if b.value.JArr? then pre + b.value.items
      else pre + [b.value]
  }

  /** What one block contributes. */
  function Contribution(b: Option<Json>): seq<Json>
  {
    if b.None? || Falsy(b.value) then [] else if b.value.JArr? then b.value.items else [b.value]
  }

  /** Every collected item comes from one block: it is that block or an element of it. */
  lemma {:induction false} SpreadSound(blocks: seq<Option<Json>>)
    ensures forall x :: x in Spread(blocks) ==> exists k :: 0 <= k < |blocks| && x in Contribution(blocks[k])
  {
    if |blocks| > 0 {
      var pre := blocks[..|blocks| - 1];
      SpreadSound(pre);
      forall x | x in Spread(blocks)
        ensures exists k :: 0 <= k < |blocks| && x in Contribution(blocks[k])
      {
        if x in Spread(pre) {
          var k :| 0 <= k < |pre| && x in Contribution(pre[k]);
          assert blocks[k] == pre[k];
        } else {
          assert x in Contribution(blocks[|blocks| - 1]);
        }
      }
    }
  }

  /** Nothing a usable block holds is lost. */
  lemma {:induction false} SpreadComplete(blocks: seq<Option<Json>>)
    ensures forall k, x :: 0 <= k < |blocks| && x in Contribution(blocks[k]) ==> x in Spread(blocks)
  {
    if |blocks| > 0 {
      var pre := blocks[..|blocks| - 1];
      SpreadComplete(pre);
      forall k, x | 0 <= k < |blocks| && x in Contribution(blocks[k])
        ensures x in Spread(blocks)
      {
        if k < |pre| {
          assert pre[k] == blocks[k];
        }
      }
    }
  }

  /** The loop `for (const s of scripts) { const obj = …; if (!obj) continue; … push … }`
      over the parse results. */
  method SpreadParsed(blocks: seq<Option<Json>>) returns (items: seq<Json>)
    ensures items == Spread(blocks)
  {
    items := [];
    for i := 0 to |blocks|
      invariant items == Spread(blocks[..i])
    {
      assert blocks[..i + 1][..i] == blocks[..i];
      var obj := blocks[i];
      if obj.None? || Falsy(obj.value) {
        continue;
      }
      if obj.value.JArr? {
        items := items + obj.value.items;
      } else {
        items := items + [obj.value];
      }
    }
    assert blocks[..|blocks|] == blocks;
  }

  // ---------------------------------------------------------------------------
  // Selecting LocalBusiness items

  /** The message of the TypeError that `item['@type']` raises on a `null` item. */
  const NullItemError: string := "Cannot read properties of null (reading '@type')"

  /** The business-selection loop: `None` when it reaches a `null` item, whose
      `item['@type']` throws a TypeError; otherwise the business items in order. */
  function SelectBusinesses(items: seq<Json>): (r: Option<seq<Json>>)
  {
    if |items| == 0 then Some([])
    else
      var pre := SelectBusinesses(items[..|items| - 1]);
      var it := items[|items| - 1];
      if pre.None? || it.JNull? then None
      else if IsBusiness(it) then Some(pre.value + [it])
      else pre
  }

  /** The selection throws exactly when some item is `null`, and otherwise keeps the
      business items in their order. */
  lemma {:induction false} SelectBusinessesIsFilter(items: seq<Json>)
    ensures SelectBusinesses(items).None? <==> JNull in items
    ensures SelectBusinesses(items).Some? ==> SelectBusinesses(items).value == Filter(items, IsBusiness)
  {
    if |items| > 0 {
      var pre := items[..|items| - 1];
      var it := items[|items| - 1];
      SelectBusinessesIsFilter(pre);
      assert items == pre + [it];
      assert JNull in items <==> JNull in pre || it.JNull?;
      FilterSnoc(pre, it, IsBusiness);
    }
  }

  lemma {:induction false} FilterSnoc<T(!new)>(xs: seq<T>, x: T, f: T -> bool)
    ensures Filter(xs + [x], f) == Filter(xs, f) + (if f(x) then [x] else [])
  {
    if |xs| == 0 {
      assert [x][1..] == [];
    } else {
      assert (xs + [x])[1..] == xs[1..] + [x];
      FilterSnoc(xs[1..], x, f);
    }
  }

  /** The loop over the items that pushes each business item. */
  method SelectBusinessItems(items: seq<Json>) returns (r: Option<seq<Json>>)
    ensures r == SelectBusinesses(items)
  {
    var lbs := [];
    for i := 0 to |items|
      invariant SelectBusinesses(items[..i]) == Some(lbs)
    {
      assert items[..i + 1][..i] == items[..i];
      var item := items[i];
      if item.JNull? {
        NullStays(items, i + 1);
        return None;
      }
      if IsBusiness(item) {
        lbs := lbs + [item];
      }
    }
    assert items[..|items|] == items;
    r := Some(lbs);
  }

  /** Once the selection has thrown, it stays thrown. */
  lemma {:induction false} NullStays(items: seq<Json>, k: nat)
    requires k <= |items| && SelectBusinesses(items[..k]).None?
    ensures SelectBusinesses(items).None?
    decreases |items| - k
  {
    if k < |items| {
      assert items[..k + 1][..k] == items[..k];
      NullStays(items, k + 1);
    } else {
      assert items[..k] == items;
    }
  }

  // ---------------------------------------------------------------------------
  // Addresses

  /** `addr && typeof addr === 'object'` */
  predicate IsObject(j: Json)
  {
    j.JObj? || j.JArr?
  }

  /** The address fields in the order they are joined. */
  const AddressFields: seq<string> := ["streetAddress", "addressLocality", "addressRegion", "postalCode", "addressCountry"]

  /** The truthy address parts as text. */
  function AddressParts(addr: Json, names: seq<string>): (r: seq<string>)
    ensures |r| <= |names|
  {
    if |names| == 0 then []
    else
      var v := Field(addr, names[0]);
      (if v.Some? && !Falsy(v.value) then [JsText(v.value)] else []) + AddressParts(addr, names[1..])
  }

  /** `[street, locality, region, postalCode, country].filter(Boolean).join(', ')` */
  function FormattedAddress(addr: Json): string
  {
    Join(AddressParts(addr, AddressFields), ", ")
  }

  /** An address with none of the five fields formats as the empty string. */
  lemma FormattedAddressEmpty(addr: Json)
    requires forall n :: n in AddressFields ==> Field(addr, n).None? || Falsy(Field(addr, n).value)
    ensures FormattedAddress(addr) == ""
  {
    assert AddressParts(addr, AddressFields[4..]) == [];
    assert AddressParts(addr, AddressFields[3..]) == [];
    assert AddressParts(addr, AddressFields[2..]) == [];
    assert AddressParts(addr, AddressFields[1..]) == [];
  }
}
