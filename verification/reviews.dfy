/** Sample reviews and the document text of a point of interest: reviews are
    drawn from per-category templates with a rating variation and a random
    date, and the document text describes the POI in sentences for
    embedding. Every random choice is an explicit `Draw`. */
module Reviews {
  import opened Wrappers
  import opened Text
  import opened Stats
  import FetchOsm

  /** A group of review texts sharing a base rating. */
  datatype TemplateGroup = TemplateGroup(rating: int, reviews: seq<string>)

  const CuisinePlaceholder: string := "{cuisine}"

  /** The only template with a placeholder, and its text around it. */
  const CuisineTemplate: string := CuisineBefore + CuisinePlaceholder + CuisineAfter
  const CuisineBefore: string := "Amazing food! The "
  const CuisineAfter: string := CuisineDishes + CuisineStaff
  const CuisineDishes: string := " dishes were authentic and delicious."
  const CuisineStaff: string := " Staff was very friendly."

  /** The templates of each category that has its own. */
  const ReviewTemplates: map<string, seq<TemplateGroup>> := map[
    "restaurant" := RestaurantTemplates,
    "cafe" := CafeTemplates,
    "museum" := MuseumTemplates,
    "hotel" := HotelTemplates,
    "religious_site" := ReligiousSiteTemplates,
    "attraction" := AttractionTemplates,
    "park" := ParkTemplates,
    "historic_site" := HistoricSiteTemplates,
    "nightclub" := NightclubTemplates,
    "bar" := BarTemplates,
    "clothing_store" := ClothingStoreTemplates,
    "shopping_mall" := ShoppingMallTemplates
  ]

  const RestaurantTemplates: seq<TemplateGroup> := [
    TemplateGroup(5, [
        CuisineTemplate,
        "One of the best restaurants in Częstochowa. The atmosphere is cozy and the menu is excellent.",
        "Had a wonderful dinner here. The pierogi were the best I've ever had!"]),
    TemplateGroup(4, [
        "Good food and nice atmosphere. Service was a bit slow but overall a pleasant experience.",
        "Enjoyed our meal here. The portions are generous and prices are reasonable.",
        "Solid restaurant with tasty Polish cuisine. Would recommend for tourists."]),
    TemplateGroup(3, [
        "Average food, nothing special but not bad either. Decent prices.",
        "The location is convenient but the food could be better. Okay for a quick meal."])]

  const CafeTemplates: seq<TemplateGroup> := [
    TemplateGroup(5, [
        "Perfect spot for coffee! Great ambiance and the best espresso in town.",
        "Love this cafe! Cozy atmosphere, friendly staff, and delicious pastries.",
        "My favorite coffee place in Częstochowa. The cakes are homemade and amazing."]),
    TemplateGroup(4, [
        "Nice cafe with good coffee. A pleasant place to relax or work on your laptop.",
        "Good selection of teas and coffees. The decor is charming."]),
    TemplateGroup(3, [
        "Decent coffee but nothing extraordinary. Good location though."])]

  const MuseumTemplates: seq<TemplateGroup> := [
    TemplateGroup(5, [
        "Fascinating museum! Rich collection and very informative exhibits.",
        "A must-visit when in Częstochowa. The displays are well-organized and educational.",
        "Excellent museum with knowledgeable guides. Spent hours here!"]),
    TemplateGroup(4, [
        "Interesting collection. Some exhibits could use more English translations.",
        "Good museum with a lot of history. Worth visiting if you're interested in the region."])]

  const HotelTemplates: seq<TemplateGroup> := [
    TemplateGroup(5, [
        "Excellent hotel! Clean rooms, comfortable beds, and fantastic breakfast.",
        "Perfect stay! Staff went above and beyond to make our visit memorable.",
        "Best hotel in Częstochowa. Great location and top-notch service."]),
    TemplateGroup(4, [
        "Very good hotel. Rooms are spacious and clean. Good breakfast buffet.",
        "Pleasant stay. The hotel is conveniently located near the main attractions."]),
    TemplateGroup(3, [
        "Decent hotel for the price. Basic but clean rooms. Breakfast could be better."])]

  const ReligiousSiteTemplates: seq<TemplateGroup> := [
    TemplateGroup(5, [
        "A truly spiritual experience. The architecture is breathtaking.",
        "One of the most important religious sites in Poland. Very moving visit.",
        "Beautiful and peaceful place. A must-see in Częstochowa."]),
    TemplateGroup(4, [
        "Impressive religious site with deep historical significance.",
        "Very beautiful architecture and atmosphere. Worth the visit."])]

  const AttractionTemplates: seq<TemplateGroup> := [
    TemplateGroup(5, [
        "Amazing attraction! Great for families and tourists alike.",
        "One of the highlights of our trip to Częstochowa!"]),
    TemplateGroup(4, [
        "Nice attraction to visit. Good for a few hours of exploration."])]

  const ParkTemplates: seq<TemplateGroup> := [
    TemplateGroup(5, [
        "Beautiful park! Perfect for a relaxing walk or picnic.",
        "Lovely green space in the city. Well-maintained paths and nice playgrounds."]),
    TemplateGroup(4, [
        "Nice park for jogging or walking. Some areas could use more benches."])]

  const HistoricSiteTemplates: seq<TemplateGroup> := [
    TemplateGroup(5, [
        "Fascinating piece of history! The preservation is excellent.",
        "A window into the past. Very interesting historical site."]),
    TemplateGroup(4, [
        "Interesting historic site. Would benefit from more information boards."])]

  const NightclubTemplates: seq<TemplateGroup> := [
    TemplateGroup(5, [
        "Best club in Częstochowa! Great music and amazing atmosphere.",
        "Fantastic night out! The DJ was incredible and drinks were reasonably priced."]),
    TemplateGroup(4, [
        "Good club with nice music. Can get crowded on weekends.",
        "Fun place for dancing. Drinks are a bit pricey but worth it."]),
    TemplateGroup(3, [
        "Average club. Music was okay but not great. Decent for a night out."])]

  const BarTemplates: seq<TemplateGroup> := [
    TemplateGroup(5, [
        "Awesome bar! Great selection of drinks and friendly bartenders.",
        "My favorite spot for drinks in Częstochowa. Cozy atmosphere!"]),
    TemplateGroup(4, [
        "Nice bar with good beer selection. Pleasant atmosphere for an evening drink.",
        "Good place to hang out with friends. Reasonable prices."])]

  const ClothingStoreTemplates: seq<TemplateGroup> := [
    TemplateGroup(5, [
        "Great selection of clothes! Found exactly what I was looking for.",
        "Excellent store with trendy fashion. Staff was very helpful."]),
    TemplateGroup(4, [
        "Nice clothing store. Good variety and reasonable prices.",
        "Good selection of dresses and casual wear. Worth checking out."]),
    TemplateGroup(3, [
        "Average selection but prices are fair. Good for basics."])]

  const ShoppingMallTemplates: seq<TemplateGroup> := [
    TemplateGroup(5, [
        "Great shopping mall! Has everything you need under one roof.",
        "Excellent mall with many shops, restaurants, and entertainment."]),
    TemplateGroup(4, [
        "Nice mall with good variety of stores. Clean and well-maintained.",
        "Good place for shopping. Has a nice food court too."])]

  /** The templates of every category without its own. */
  const DefaultTemplates: seq<TemplateGroup> := [
    TemplateGroup(5, [
        "Excellent place! Highly recommended for visitors to Częstochowa.",
        "Great experience! Worth visiting."]),
    TemplateGroup(4, [
        "Good place to visit. Enjoyed our time here."])]

  /** `REVIEW_TEMPLATES.get(category, DEFAULT_TEMPLATES)`. */
  function TemplatesFor(category: string): seq<TemplateGroup>
  {
    if category in ReviewTemplates then ReviewTemplates[category] else DefaultTemplates
  }

  // ------------------------------------------------------------ one review

  /** The random choices behind one review: the template group, the rating
      variation (one of -1, 0, 0, 0, 1), the text in the group, and the year
      digit, month and day of the date. */
  datatype Draw = Draw(group: nat, variation: int, text: nat, year: nat, month: nat, day: nat)

  predicate ValidDraw(d: Draw, templates: seq<TemplateGroup>)
  {
    && d.group < |templates| && d.text < |templates[d.group].reviews|
    && -1 <= d.variation <= 1
    && 3 <= d.year <= 5 && 1 <= d.month <= 12 && 1 <= d.day <= 28
  }

  /** Template groups to draw from: at least one, each with a base rating
      from 3 to 5 and at least one text. */
  predicate Drawable(groups: seq<TemplateGroup>)
  {
    groups != [] && forall k :: 0 <= k < |groups| ==> 3 <= groups[k].rating <= 5 && groups[k].reviews != []
  }

  /** The first half of the template lists can be drawn from. */
  lemma FirstTemplatesDrawable()
    ensures Drawable(RestaurantTemplates)
      && Drawable(CafeTemplates)
      && Drawable(MuseumTemplates)
      && Drawable(HotelTemplates)
      && Drawable(ReligiousSiteTemplates)
      && Drawable(AttractionTemplates)
  {
  }

  /** The rest of the template lists can be drawn from. */
  lemma LastTemplatesDrawable()
    ensures Drawable(ParkTemplates)
      && Drawable(HistoricSiteTemplates)
      && Drawable(NightclubTemplates)
      && Drawable(BarTemplates)
      && Drawable(ClothingStoreTemplates)
      && Drawable(ShoppingMallTemplates)
      && Drawable(DefaultTemplates)
  {
  }

  /** Every category's templates can be drawn from. */
  lemma TemplatesWellFormed(category: string)
    ensures Drawable(TemplatesFor(category))
  {
    FirstTemplatesDrawable();
    LastTemplatesDrawable();
  }

  /** A valid draw exists for every category, so every POI can get reviews. */
  lemma SomeDraw(category: string) returns (d: Draw)
    ensures ValidDraw(d, TemplatesFor(category))
  {
    TemplatesWellFormed(category);
    d := Draw(0, 0, 0, 3, 1, 1);
  }

  datatype Review = Review(rating: int, text: string, date: string)

  datatype ReviewData = ReviewData(reviews: seq<Review>, averageRating: real, totalReviews: nat)

  /** `max(1, min(5, r))`. */
  function ClampRating(r: int): (c: int)
    ensures 1 <= c <= 5
    ensures 1 <= r <= 5 ==> c == r
    ensures r < 1 ==> c == 1
    ensures r > 5 ==> c == 5
  {
    if r < 1 then 1 else if r > 5 then 5 else r
  }

  /** The cuisine named in a review: the first of the `;`-separated list,
      "Polish" when the POI has none. */
  function CuisineName(cuisine: string): (n: string)
    ensures ';' !in n
    ensures cuisine == "" ==> n == "Polish"
    ensures cuisine != "" ==> n <= cuisine && (|n| < |cuisine| ==> cuisine[|n|] == ';')
  {
    BeforeFirst(if cuisine == "" then "Polish" else cuisine, ';')
  }

  /** A template with its placeholder filled in. */
  function FillTemplate(text: string, cuisine: string): (r: string)
    ensures !Contains(text, CuisinePlaceholder) ==> r == text
  {
    if Contains(text, CuisinePlaceholder) then Replace(text, CuisinePlaceholder, CuisineName(cuisine))
    else text
  }

  /** The cuisine template names the POI's cuisine in place of the placeholder. */
  lemma CuisineTemplateFilled(cuisine: string)
    ensures FillTemplate(CuisineTemplate, cuisine) == CuisineBefore + CuisineName(cuisine) + CuisineAfter
  {
    ContainsMiddle(CuisineBefore, CuisinePlaceholder, CuisineAfter);
    assert '{' !in CuisineBefore;
    assert '{' !in CuisineDishes && '{' !in CuisineStaff;
    ReplaceFirst(CuisineBefore, CuisineAfter, CuisinePlaceholder, CuisineName(cuisine));
    NoFirstCharNoContains(CuisineAfter, CuisinePlaceholder);
    ReplaceAbsent(CuisineAfter, CuisinePlaceholder, CuisineName(cuisine));
  }

  /** A month or day with two digits (`:02d`). */
  function Pad2(n: nat): (s: string)
    requires n < 100
    ensures |s| == 2 && IsDigit(s[0]) && IsDigit(s[1])
    ensures DigitValue(s[0]) * 10 + DigitValue(s[1]) == n
  {
    if n < 10 then
      assert NatToString(n) == [DigitChar(n)];
      "0" + NatToString(n)
    else
      assert NatToString(n) == NatToString(n / 10) + [DigitChar(n % 10)];
      assert NatToString(n / 10) == [DigitChar(n / 10)];
      NatToString(n)
  }

  lemma ParsePad2(n: nat)
    requires n < 100
    ensures ParseNat(Pad2(n)) == n
  {
    var s := Pad2(n);
    if n < 10 {
      assert s[..1] == "0" && s[..1][..0] == "";
      assert ParseNat(s[..1]) == 0;
    } else {
      ParseNatToString(n);
    }
  }

  /** The date of a review: `202Y-MM-DD`. */
  function Date(year: nat, month: nat, day: nat): string
    requires year < 10 && month < 100 && day < 100
  {
    "202" + NatToString(year) + "-" + Pad2(month) + "-" + Pad2(day)
  }

  /** A date has ten characters, dashes at positions 4 and 7, and its
      fields read back as the drawn year digit, month and day. */
  lemma DateFields(year: nat, month: nat, day: nat)
    requires year < 10 && month < 100 && day < 100
    ensures var s := Date(year, month, day);
      && |s| == 10 && s[..3] == "202" && s[4] == '-' && s[7] == '-'
      && ParseNat(s[3..4]) == year && ParseNat(s[5..7]) == month && ParseNat(s[8..10]) == day
  {
    var s := Date(year, month, day);
    assert s[3..4] == NatToString(year);
    assert s[5..7] == Pad2(month);
    assert s[8..10] == Pad2(day);
    ParseNatToString(year);
    ParsePad2(month);
    ParsePad2(day);
  }

  /** The review a draw produces. */
  function ReviewFrom(d: Draw, templates: seq<TemplateGroup>, cuisine: string): (r: Review)
    requires ValidDraw(d, templates)
    ensures 1 <= r.rating <= 5
    ensures r.rating == ClampRating(templates[d.group].rating + d.variation)
    ensures r.text == FillTemplate(templates[d.group].reviews[d.text], cuisine)
    ensures |r.date| == 10
  {
    DateFields(d.year, d.month, d.day);
    var group := templates[d.group];
    Review(ClampRating(group.rating + d.variation),
           FillTemplate(group.reviews[d.text], cuisine),
           Date(d.year, d.month, d.day))
  }

  // ------------------------------------------------------------ all reviews

  predicate RatingsInRange(reviews: seq<Review>)
  {
    forall k :: 0 <= k < |reviews| ==> 1 <= reviews[k].rating <= 5
  }

  /** The ratings of the reviews, as the values averaged. */
  function Ratings(reviews: seq<Review>): (rs: seq<real>)
    ensures |rs| == |reviews|
    ensures forall k :: 0 <= k < |rs| ==> rs[k] == reviews[k].rating as real
  {
    seq(|reviews|, k requires 0 <= k < |reviews| => reviews[k].rating as real)
  }

  /** The average rating: the mean of the ratings, 0 for no reviews. */
  function AverageRating(reviews: seq<Review>): (m: real)
    requires RatingsInRange(reviews)
    ensures reviews == [] ==> m == 0.0
    ensures reviews != [] ==> 1.0 <= m <= 5.0 && m * |reviews| as real == Total(Ratings(reviews))
  {
    if reviews == [] then 0.0
    else
      MeanBounds(Ratings(reviews), 1.0, 5.0);
      Mean(Ratings(reviews))
  }

  /** The loop of `generate_reviews_for_poi` over the given templates: one
      review per draw, their count, and their mean rating. */
  method DrawReviews(templates: seq<TemplateGroup>, cuisine: string, draws: seq<Draw>)
    returns (data: ReviewData)
    requires forall k :: 0 <= k < |draws| ==> ValidDraw(draws[k], templates)
    ensures |data.reviews| == |draws| && data.totalReviews == |draws|
    ensures forall k :: 0 <= k < |draws| ==> data.reviews[k] == ReviewFrom(draws[k], templates, cuisine)
    ensures RatingsInRange(data.reviews)
    ensures data.averageRating == AverageRating(data.reviews)
  {
    var reviews: seq<Review> := [];
    for i := 0 to |draws|
      invariant |reviews| == i
      invariant forall k :: 0 <= k < i ==> reviews[k] == ReviewFrom(draws[k], templates, cuisine)
      invariant RatingsInRange(reviews)
    {
      var d := draws[i];
      var group := templates[d.group];
      var rating := ClampRating(group.rating + d.variation);
      var text := group.reviews[d.text];
      if Contains(text, CuisinePlaceholder) {
        var name := if cuisine == "" then "Polish" else cuisine;
        text := Replace(text, CuisinePlaceholder, BeforeFirst(name, ';'));
      }
      assert text == FillTemplate(group.reviews[d.text], cuisine);
      var review := Review(rating, text, Date(d.year, d.month, d.day));
      assert review == ReviewFrom(d, templates, cuisine);
      reviews := reviews + [review];
    }
    var average := if |reviews| > 0 then Mean(Ratings(reviews)) else 0.0;
    data := ReviewData(reviews, average, |reviews|);
  }

  /** `generate_reviews_for_poi`: one to four reviews drawn from the POI's
      category templates; the mean of their ratings lies between 1 and 5. */
  method GenerateReviewsForPoi(poi: FetchOsm.Poi, draws: seq<Draw>) returns (data: ReviewData)
    requires 1 <= |draws| <= 4
    requires forall k :: 0 <= k < |draws| ==> ValidDraw(draws[k], TemplatesFor(poi.category))
    ensures |data.reviews| == |draws| && data.totalReviews == |draws|
    ensures forall k :: 0 <= k < |draws| ==>
      data.reviews[k] == ReviewFrom(draws[k], TemplatesFor(poi.category), poi.cuisine)
    ensures RatingsInRange(data.reviews)
    ensures data.averageRating == AverageRating(data.reviews)
    ensures 1.0 <= data.averageRating <= 5.0
  {
    data := DrawReviews(TemplatesFor(poi.category), poi.cuisine, draws);
  }

  // ------------------------------------------------------------ document text

  /** The opening sentence: name, category (underscores as spaces) and city. */
  function Header(poi: FetchOsm.Poi): (h: string)
    ensures poi.name <= h && h != ""
  {
    poi.name + " is a " + ReplaceChar(poi.category, '_', " ") + " in Częstochowa, Poland."
  }

  /** A sentence that is present only when its condition holds. */
  function When(cond: bool, sentence: string): (s: seq<string>)
    ensures |s| == (if cond then 1 else 0)
    ensures cond ==> s[0] == sentence
  {
    if cond then [sentence] else []
  }

  /** The street and, when there is one, the house number. */
  function AddressText(a: FetchOsm.Address): string
  {
    if a.housenumber != "" then a.street + " " + a.housenumber else a.street
  }

  /** The cuisine list with `;` as ", " and `_` as a space. */
  function CuisineText(cuisine: string): (c: string)
    ensures ';' !in c && '_' !in c
  {
    ReplaceChar(ReplaceChar(cuisine, ';', ", "), '_', " ")
  }

  function ReviewLine(r: Review): string
  {
    "Review (" + IntToString(r.rating) + "/5): \"" + r.text + "\""
  }

  /** The rating summary and the first two reviews, when there are reviews;
      `showRating` is Python's rendering of the average. */
  function ReviewParts(reviewData: Option<ReviewData>, showRating: real -> string): (ps: seq<string>)
    ensures reviewData.None? || reviewData.value.reviews == [] ==> ps == []
    ensures reviewData.Some? && reviewData.value.reviews != [] ==>
      var rs := reviewData.value.reviews;
      var shown := if |rs| < 2 then |rs| else 2;
      && |ps| == 1 + shown
      && ps[0] == "Average rating: " + showRating(reviewData.value.averageRating) + "/5 based on "
                  + NatToString(reviewData.value.totalReviews) + " reviews."
      && forall k :: 0 <= k < shown ==> ps[1 + k] == ReviewLine(rs[k])
  {
    if reviewData.None? || reviewData.value.reviews == [] then []
    else
      var rd := reviewData.value;
      var shown := if |rd.reviews| < 2 then rd.reviews else rd.reviews[..2];
      ["Average rating: " + showRating(rd.averageRating) + "/5 based on " + NatToString(rd.totalReviews) + " reviews."]
      + seq(|shown|, k requires 0 <= k < |shown| => ReviewLine(shown[k]))
  }

  function AlsoKnownAs(poi: FetchOsm.Poi): seq<string>
  {
    When(poi.nameEn != "" && poi.nameEn != poi.name, "It is also known as " + poi.nameEn + ".")
  }

  function Located(poi: FetchOsm.Poi): seq<string>
  {
    When(poi.address.street != "", "It is located at " + AddressText(poi.address) + ".")
  }

  function Hours(poi: FetchOsm.Poi): seq<string>
  {
    When(poi.openingHours != "", "Opening hours: " + poi.openingHours + ".")
  }

  function Cuisine(poi: FetchOsm.Poi): seq<string>
  {
    When(poi.cuisine != "", "The cuisine type is " + CuisineText(poi.cuisine) + ".")
  }

  function Contacts(poi: FetchOsm.Poi): seq<string>
  {
    When(poi.contact.website != "", "Website: " + poi.contact.website)
    + When(poi.contact.phone != "", "Phone: " + poi.contact.phone)
  }

  /** The sentences of the document text, in order. */
  function DocumentParts(poi: FetchOsm.Poi, reviewData: Option<ReviewData>, showRating: real -> string): seq<string>
  {
    [Header(poi)] + AlsoKnownAs(poi) + Located(poi) + Hours(poi) + Cuisine(poi)
    + When(poi.description != "", poi.description) + Contacts(poi)
    + ReviewParts(reviewData, showRating)
  }

  /** `create_document_text`: the sentences joined by single spaces. */
  method CreateDocumentText(poi: FetchOsm.Poi, reviewData: Option<ReviewData>, showRating: real -> string)
    returns (text: string)
    ensures text == Join(DocumentParts(poi, reviewData, showRating), " ")
  {
    var parts := Describe(poi);
    parts := AppendDetails(parts, poi);
    parts := AppendReviewSummary(parts, reviewData, showRating);
    text := Join(parts, " ");
  }

  /** The opening sentences of `create_document_text`: header, English name,
      address and opening hours. */
  method Describe(poi: FetchOsm.Poi) returns (parts: seq<string>)
    ensures parts == [Header(poi)] + AlsoKnownAs(poi) + Located(poi) + Hours(poi)
  {
    parts := [Header(poi)];
    ghost var before := parts;
    if poi.nameEn != "" && poi.nameEn != poi.name {
      parts := parts + ["It is also known as " + poi.nameEn + "."];
    }
    assert parts == before + AlsoKnownAs(poi);
    before := parts;
    if poi.address.street != "" {
      var addressStr := poi.address.street;
      if poi.address.housenumber != "" {
        addressStr := addressStr + " " + poi.address.housenumber;
      }
      parts := parts + ["It is located at " + addressStr + "."];
    }
    assert parts == before + Located(poi);
    before := parts;
    if poi.openingHours != "" {
      parts := parts + ["Opening hours: " + poi.openingHours + "."];
    }
    assert parts == before + Hours(poi);
  }

  /** The middle sentences of `create_document_text`: cuisine, description,
      website and phone. */
  method AppendDetails(parts: seq<string>, poi: FetchOsm.Poi) returns (out: seq<string>)
    ensures out == parts + Cuisine(poi) + When(poi.description != "", poi.description) + Contacts(poi)
  {
    out := parts;
    if poi.cuisine != "" {
      var cuisines := ReplaceChar(ReplaceChar(poi.cuisine, ';', ", "), '_', " ");
      out := out + ["The cuisine type is " + cuisines + "."];
    }
    assert out == parts + Cuisine(poi);
    ghost var before := out;
    if poi.description != "" {
      out := out + [poi.description];
    }
    assert out == before + When(poi.description != "", poi.description);
    before := out;
    if poi.contact.website != "" {
      out := out + ["Website: " + poi.contact.website];
    }
    if poi.contact.phone != "" {
      out := out + ["Phone: " + poi.contact.phone];
    }
    assert out == before + Contacts(poi);
  }

  /** The review part of `create_document_text`: the rating summary and the
      first two reviews, when there are reviews. */
  method AppendReviewSummary(parts: seq<string>, reviewData: Option<ReviewData>, showRating: real -> string)
    returns (out: seq<string>)
    ensures out == parts + ReviewParts(reviewData, showRating)
  {
    out := parts;
    if reviewData.Some? && reviewData.value.reviews != [] {
      var rd := reviewData.value;
      out := out + ["Average rating: " + showRating(rd.averageRating) + "/5 based on "
                    + NatToString(rd.totalReviews) + " reviews."];
      var sample := if |rd.reviews| < 2 then rd.reviews else rd.reviews[..2];
      for k := 0 to |sample|
        invariant out == parts + ReviewParts(reviewData, showRating)[..1 + k]
      {
        out := out + [ReviewLine(sample[k])];
      }
      assert ReviewParts(reviewData, showRating)[..1 + |sample|] == ReviewParts(reviewData, showRating);
    }
  }

  /** The document text opens with the header, so it names the POI and is
      never empty: every enriched POI has a document to index. */
  lemma DocumentStartsWithHeader(poi: FetchOsm.Poi, reviewData: Option<ReviewData>, showRating: real -> string)
    ensures var text := Join(DocumentParts(poi, reviewData, showRating), " ");
      Header(poi) <= text && poi.name <= text && text != ""
  {
    JoinStartsWithFirst(DocumentParts(poi, reviewData, showRating), " ");
  }
}
