/** Turning the elements of an Overpass API reply into points of interest:
    which elements are kept, where their coordinates come from, the defaults
    of their fields, and the category their OpenStreetMap tags give them. */
module FetchOsm {
  import opened Wrappers

  type Tags = map<string, string>

  /** `tags.get(key)`. */
  function Get(tags: Tags, key: string): Option<string>
  {
    if key in tags then Some(tags[key]) else None
  }

  /** `tags.get(key, default)`. */
  function GetOr(tags: Tags, key: string, default: string): string
  {
    if key in tags then tags[key] else default
  }

  // ------------------------------------------------------------ categories

  /** The labels `determine_category` can return. */
  predicate IsCategory(c: string)
  {
    || c == "restaurant" || c == "cafe" || c == "museum" || c == "hotel"
    || c == "attraction" || c == "religious_site" || c == "park" || c == "historic_site"
    || c == "nightclub" || c == "bar" || c == "clothing_store" || c == "shopping_mall"
    || c == "shop" || c == "other"
  }

  /** `determine_category`: the first matching rule, in this order, decides. */
  function DetermineCategory(tags: Tags): (c: string)
    ensures IsCategory(c)
  {
    var amenity := Get(tags, "amenity");
    var tourism := Get(tags, "tourism");
    var shop := Get(tags, "shop");
    if amenity == Some("restaurant") then "restaurant"
    else if amenity == Some("cafe") then "cafe"
    else if tourism == Some("museum") then "museum"
    else if tourism == Some("hotel") then "hotel"
    else if tourism == Some("attraction") then "attraction"
    else if amenity == Some("place_of_worship") then "religious_site"
    else if Get(tags, "leisure") == Some("park") then "park"
    else if "historic" in tags then "historic_site"
    else if amenity == Some("nightclub") then "nightclub"
    else if amenity == Some("bar") || amenity == Some("pub") then "bar"
    else if shop == Some("clothes") || shop == Some("fashion") || shop == Some("shoes") then "clothing_store"
    else if shop == Some("mall") || shop == Some("department_store") then "shopping_mall"
    else if shop.Some? && shop.value != "" then "shop"
    else "other"
  }

  /** A condition on the tags, as the rules of `determine_category` test them. */
  datatype Condition =
    | OneOf(key: string, values: seq<string>)   // the tag is present with one of these values
    | Present(key: string)                     // the tag is present
    | NonEmpty(key: string)                    // the tag is present and not empty

  predicate Holds(cond: Condition, tags: Tags)
  {
    match cond
    case OneOf(key, values) => key in tags && tags[key] in values
    case Present(key) => key in tags
    case NonEmpty(key) => key in tags && tags[key] != ""
  }

  datatype Rule = Rule(cond: Condition, category: string)

  /** The rules of `determine_category` as a table, in priority order. */
  const Rules: seq<Rule> := LeadingRules + TrailingRules

  /** The rules up to and including `leisure=park`. */
  const LeadingRules: seq<Rule> := [
    Rule(OneOf("amenity", ["restaurant"]), "restaurant"),
    Rule(OneOf("amenity", ["cafe"]), "cafe"),
    Rule(OneOf("tourism", ["museum"]), "museum"),
    Rule(OneOf("tourism", ["hotel"]), "hotel"),
    Rule(OneOf("tourism", ["attraction"]), "attraction"),
    Rule(OneOf("amenity", ["place_of_worship"]), "religious_site"),
    Rule(OneOf("leisure", ["park"]), "park")
  ]

  /** The rules from `historic` on. */
  const TrailingRules: seq<Rule> := [
    Rule(Present("historic"), "historic_site"),
    Rule(OneOf("amenity", ["nightclub"]), "nightclub"),
    Rule(OneOf("amenity", ["bar", "pub"]), "bar"),
    Rule(OneOf("shop", ["clothes", "fashion", "shoes"]), "clothing_store"),
    Rule(OneOf("shop", ["mall", "department_store"]), "shopping_mall"),
    Rule(NonEmpty("shop"), "shop")
  ]

  /** The category of the first rule that holds, `otherwise` when none does. */
  function FirstMatch(rules: seq<Rule>, tags: Tags, otherwise: string): string
  {
    if rules == [] then otherwise
    else if Holds(rules[0].cond, tags) then rules[0].category
    else FirstMatch(rules[1..], tags, otherwise)
  }

  /** Matching against two tables in a row is matching against the first with
      the second's verdict as the fallback. */
  lemma {:induction false} FirstMatchAppend(a: seq<Rule>, b: seq<Rule>, tags: Tags, otherwise: string)
    ensures FirstMatch(a + b, tags, otherwise) == FirstMatch(a, tags, FirstMatch(b, tags, otherwise))
  {
    if a != [] {
      assert (a + b)[0] == a[0] && (a + b)[1..] == a[1..] + b;
      FirstMatchAppend(a[1..], b, tags, otherwise);
    } else {
      assert a + b == b;
    }
  }

  /** The rule that decides is the first one that holds. */
  lemma {:induction false} FirstMatchWins(rules: seq<Rule>, tags: Tags, otherwise: string, k: nat)
    requires k < |rules| && Holds(rules[k].cond, tags)
    requires forall j :: 0 <= j < k ==> !Holds(rules[j].cond, tags)
    ensures FirstMatch(rules, tags, otherwise) == rules[k].category
  {
    if k > 0 {
      assert !Holds(rules[0].cond, tags);
      FirstMatchWins(rules[1..], tags, otherwise, k - 1);
    }
  }

  /** No rule holds: the fallback label is returned. */
  lemma {:induction false} FirstMatchNone(rules: seq<Rule>, tags: Tags, otherwise: string)
    requires forall j :: 0 <= j < |rules| ==> !Holds(rules[j].cond, tags)
    ensures FirstMatch(rules, tags, otherwise) == otherwise
  {
    if rules != [] {
      FirstMatchNone(rules[1..], tags, otherwise);
    }
  }

  /** The if-chain and the rule table agree on every tag set. */
  lemma DetermineCategoryIsFirstMatch(tags: Tags)
    ensures DetermineCategory(tags) == FirstMatch(Rules, tags, "other")
  {
    FirstMatchAppend(LeadingRules, TrailingRules, tags, "other");
    var trailing := FirstMatch(TrailingRules, tags, "other");
    LeadingRulesMatch(tags, trailing);
    TrailingRulesMatch(tags);
  }

  lemma LeadingRulesMatch(tags: Tags, otherwise: string)
    ensures var amenity := Get(tags, "amenity");
      var tourism := Get(tags, "tourism");
      FirstMatch(LeadingRules, tags, otherwise) ==
        if amenity == Some("restaurant") then "restaurant"
        else if amenity == Some("cafe") then "cafe"
        else if tourism == Some("museum") then "museum"
        else if tourism == Some("hotel") then "hotel"
        else if tourism == Some("attraction") then "attraction"
        else if amenity == Some("place_of_worship") then "religious_site"
        else if Get(tags, "leisure") == Some("park") then "park"
        else otherwise
  {
    var amenity := Get(tags, "amenity");
    var tourism := Get(tags, "tourism");
    var k: nat :=
      if amenity == Some("restaurant") then 0
      else if amenity == Some("cafe") then 1
      else if tourism == Some("museum") then 2
      else if tourism == Some("hotel") then 3
      else if tourism == Some("attraction") then 4
      else if amenity == Some("place_of_worship") then 5
      else if Get(tags, "leisure") == Some("park") then 6
      else 7;
    if k < 7 {
      FirstMatchWins(LeadingRules, tags, otherwise, k);
    } else {
      FirstMatchNone(LeadingRules, tags, otherwise);
    }
  }

  lemma TrailingRulesMatch(tags: Tags)
    ensures var amenity := Get(tags, "amenity");
      var shop := Get(tags, "shop");
      FirstMatch(TrailingRules, tags, "other") ==
        if "historic" in tags then "historic_site"
        else if amenity == Some("nightclub") then "nightclub"
        else if amenity == Some("bar") || amenity == Some("pub") then "bar"
        else if shop == Some("clothes") || shop == Some("fashion") || shop == Some("shoes") then "clothing_store"
        else if shop == Some("mall") || shop == Some("department_store") then "shopping_mall"
        else if shop.Some? && shop.value != "" then "shop"
        else "other"
  {
    var amenity := Get(tags, "amenity");
    var shop := Get(tags, "shop");
    var k: nat :=
      if "historic" in tags then 0
      else if amenity == Some("nightclub") then 1
      else if amenity == Some("bar") || amenity == Some("pub") then 2
      else if shop == Some("clothes") || shop == Some("fashion") || shop == Some("shoes") then 3
      else if shop == Some("mall") || shop == Some("department_store") then 4
      else if shop.Some? && shop.value != "" then 5
      else 6;
    if k < 6 {
      FirstMatchWins(TrailingRules, tags, "other", k);
    } else {
      FirstMatchNone(TrailingRules, tags, "other");
    }
  }

  /** An amenity tag decides before a tourism tag: a restaurant that is also
      tagged as a museum is a restaurant. */
  lemma RestaurantBeforeMuseum(tags: Tags)
    requires Get(tags, "amenity") == Some("restaurant") && Get(tags, "tourism") == Some("museum")
    ensures DetermineCategory(tags) == "restaurant"
  {
  }

  /** Any `historic` tag, whatever its value, decides before the bar rule. */
  lemma HistoricBeforeBar(tags: Tags)
    requires "historic" in tags && Get(tags, "amenity") == Some("pub")
    requires Get(tags, "tourism") == None && Get(tags, "leisure") == None
    ensures DetermineCategory(tags) == "historic_site"
  {
  }

  /** An empty `shop` tag is not a shop: it never gives a shop category,
      and the tags classify exactly as they would without it. */
  lemma EmptyShopIsNoShop(tags: Tags)
    requires Get(tags, "shop") == Some("")
    ensures DetermineCategory(tags) !in {"shop", "clothing_store", "shopping_mall"}
    ensures DetermineCategory(tags) == DetermineCategory(tags - {"shop"})
  {
    var rest := tags - {"shop"};
    assert Get(rest, "amenity") == Get(tags, "amenity");
    assert Get(rest, "tourism") == Get(tags, "tourism");
    assert Get(rest, "leisure") == Get(tags, "leisure");
    assert ("historic" in rest) == ("historic" in tags);
    assert Get(rest, "shop") == None;
    var amenity := Get(tags, "amenity");
    var tourism := Get(tags, "tourism");
    if !(|| amenity == Some("restaurant") || amenity == Some("cafe") || amenity == Some("place_of_worship")
         || amenity == Some("nightclub") || amenity == Some("bar") || amenity == Some("pub")
         || tourism == Some("museum") || tourism == Some("hotel") || tourism == Some("attraction")
         || Get(tags, "leisure") == Some("park") || "historic" in tags)
    {
      assert DetermineCategory(tags) == "other";
      assert DetermineCategory(rest) == "other";
    }
  }

  // ------------------------------------------------------------ elements

  /** The `center` of a way or relation. */
  datatype Center = Center(lat: Option<real>, lon: Option<real>)

  /** One element of the reply; absent fields are `None`. */
  datatype Element = Element(
    id: int,
    kind: string,
    lat: Option<real>,
    lon: Option<real>,
    center: Option<Center>,
    tags: Option<Tags>)

  datatype Address = Address(street: string, housenumber: string, city: string, postcode: string)
  datatype Contact = Contact(phone: string, website: string, email: string)

  /** A point of interest as the fetcher records it. */
  datatype Poi = Poi(
    id: int,
    name: string,
    nameEn: string,
    category: string,
    lat: real,
    lon: real,
    address: Address,
    contact: Contact,
    openingHours: string,
    cuisine: string,
    description: string,
    wikipedia: string,
    wikidata: string)

  const DefaultCity: string := "Częstochowa"

  /** The coordinates read for an element: a node's own, otherwise its center's. */
  function Coordinates(e: Element): (Option<real>, Option<real>)
  {
    if e.kind == "node" then (e.lat, e.lon)
    else if e.center.Some? then (e.center.value.lat, e.center.value.lon)
    else (None, None)
  }

  /** A coordinate is usable when present and not zero (Python's `not lat`). */
  predicate Usable(x: Option<real>)
  {
    x.Some? && x.value != 0.0
  }

  /** The POI an element yields: none without a name or usable coordinates. */
  function PoiOf(e: Element): (p: Option<Poi>)
    ensures p.Some? <==> "name" in e.tags.GetOr(map[])
                         && Usable(Coordinates(e).0) && Usable(Coordinates(e).1)
    ensures p.Some? ==> var tags := e.tags.value;
      && p.value.id == e.id
      && p.value.name == tags["name"]
      && p.value.nameEn == (if "name:en" in tags then tags["name:en"] else tags["name"])
      && p.value.category == DetermineCategory(tags)
      && p.value.lat == Coordinates(e).0.value && p.value.lon == Coordinates(e).1.value
      && p.value.lat != 0.0 && p.value.lon != 0.0
      && p.value.address.city == (if "addr:city" in tags then tags["addr:city"] else DefaultCity)
  {
    var tags := e.tags.GetOr(map[]);
    if "name" !in tags then None
    else
      var (lat, lon) := Coordinates(e);
      if !Usable(lat) || !Usable(lon) then None
      else
        var name := GetOr(tags, "name", "Unknown");
        Some(Poi(
          e.id,
          name,
          GetOr(tags, "name:en", name),
          DetermineCategory(tags),
          lat.value,
          lon.value,
          Address(GetOr(tags, "addr:street", ""), GetOr(tags, "addr:housenumber", ""),
                  GetOr(tags, "addr:city", DefaultCity), GetOr(tags, "addr:postcode", "")),
          Contact(GetOr(tags, "phone", ""), GetOr(tags, "website", ""), GetOr(tags, "email", "")),
          GetOr(tags, "opening_hours", ""),
          GetOr(tags, "cuisine", ""),
          GetOr(tags, "description", ""),
          GetOr(tags, "wikipedia", ""),
          GetOr(tags, "wikidata", "")))
  }

  /** The POIs of a list of elements, in element order. */
  function Pois(elements: seq<Element>): (pois: seq<Poi>)
    ensures |pois| <= |elements|
  {
    if elements == [] then []
    else
      var last := elements[|elements| - 1];
      Pois(elements[..|elements| - 1]) + (if PoiOf(last).Some? then [PoiOf(last).value] else [])
  }

  /** Extraction commutes with concatenation: the POIs keep the element order. */
  lemma {:induction false} PoisConcat(a: seq<Element>, b: seq<Element>)
    ensures Pois(a + b) == Pois(a) + Pois(b)
    decreases |b|
  {
    if b == [] {
      assert a + b == a;
    } else {
      var b' := b[..|b| - 1];
      assert (a + b)[..|a + b| - 1] == a + b';
      PoisConcat(a, b');
    }
  }

  /** No element is skipped exactly when each of them yields a POI. */
  lemma {:induction false} PoisKeepAll(elements: seq<Element>)
    ensures |Pois(elements)| == |elements| <==> forall k :: 0 <= k < |elements| ==> PoiOf(elements[k]).Some?
  {
    if elements != [] {
      var init := elements[..|elements| - 1];
      var last := elements[|elements| - 1];
      PoisKeepAll(init);
      assert forall k :: 0 <= k < |init| ==> init[k] == elements[k];
      if PoiOf(last).Some? {
        assert |Pois(elements)| == |Pois(init)| + 1;
      } else {
        assert |Pois(elements)| == |Pois(init)| <= |init|;
      }
    }
  }

  /** Every extracted POI comes from some element and has a valid category
      and non-zero coordinates. */
  lemma {:induction false} PoisWellFormed(elements: seq<Element>)
    ensures forall p :: p in Pois(elements) ==>
      IsCategory(p.category) && p.lat != 0.0 && p.lon != 0.0
      && exists k :: 0 <= k < |elements| && PoiOf(elements[k]) == Some(p)
  {
    if elements != [] {
      var init := elements[..|elements| - 1];
      PoisWellFormed(init);
      forall p | p in Pois(elements)
        ensures IsCategory(p.category) && p.lat != 0.0 && p.lon != 0.0
        ensures exists k :: 0 <= k < |elements| && PoiOf(elements[k]) == Some(p)
      {
        if p in Pois(init) {
          var k :| 0 <= k < |init| && PoiOf(init[k]) == Some(p);
          assert elements[k] == init[k];
        } else {
          assert PoiOf(elements[|elements| - 1]) == Some(p);
        }
      }
    }
  }

  /** The reply of the Overpass API: a failed request, or the decoded body
      (a missing `elements` list reads as empty). */
  datatype OverpassReply = OverpassFailed | OverpassData(elements: seq<Element>)

  /** `fetch_osm_data` after the request: a failure yields no POIs; otherwise
      each element is kept or skipped in turn. */
  method FetchOsmData(reply: OverpassReply) returns (pois: seq<Poi>)
    ensures reply.OverpassFailed? ==> pois == []
    ensures reply.OverpassData? ==> pois == Pois(reply.elements)
  {
    if reply.OverpassFailed? {
      return [];
    }
    var elements := reply.elements;
    pois := [];
    for i := 0 to |elements|
      invariant pois == Pois(elements[..i])
    {
      assert elements[..i + 1][..i] == elements[..i];
      var element := elements[i];
      var tags := element.tags.GetOr(map[]);
      if "name" !in tags {
        continue;
      }
      var lat, lon;
      if element.kind == "node" {
        lat, lon := element.lat, element.lon;
      } else {
        var center := element.center.GetOr(Center(None, None));
        lat, lon := center.lat, center.lon;
      }
      if lat.None? || lat.value == 0.0 || lon.None? || lon.value == 0.0 {
        continue;
      }
      var poi := PoiOf(element);
      pois := pois + [poi.value];
    }
    assert elements[..|elements|] == elements;
  }
}
