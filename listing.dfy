/** The clothing catalogue: the mapping of the category-1 product list to
    `ClothingItem`s in fend_mm7/src/pages/listing/mockApiService.tsx, the
    hook's loading / error state, and the grouping and section visibility
    of fend_mm7/src/pages/listing/Clothing.tsx. The request is not part of
    this model; `encodeURIComponent` is a parameter. */
module Listing {
  import opened Text

  /** The fields of an API product record the mapping reads;
      `categoryName` is None when `category?.name` is undefined. */
  datatype ApiItem = ApiItem(id: int, title: string, price: real, images: seq<string>, categoryName: Option<string>)

  datatype ClothingItem = ClothingItem(
    id: string, name: string, price: real, imageUrl: string,
    categoryName: string, category: string)

  const NewArrivals := "new_arrivals"
  const Casual := "casual"
  const NewArrivalCount: nat := 4
  const UnknownCategory := "unknown"
  const PlaceholderHost := "placehold.co"
  const PlaceholderPath := "/600x400/e2e8f0/64748b?text="
  const PlaceholderPrefix := "https://" + PlaceholderHost + PlaceholderPath
  const FetchFailedMessage := "Failed to fetch clothing items"

  /** The first image when it already is a placeholder, otherwise a
      placeholder labelled with the first ten characters of the title. */
  function ImageUrl(images: seq<string>, title: string, encode: string -> string): string
  {
    if |images| > 0 && Contains(images[0], PlaceholderHost) then images[0]
    else PlaceholderPrefix + encode(Take(title, 10))
  }

  /** Every card image is served by the placeholder host: a kept image
      mentions it by the guard, a built one by its prefix. */
  lemma ImageUrlIsPlaceholder(images: seq<string>, title: string, encode: string -> string)
    ensures Contains(ImageUrl(images, title, encode), PlaceholderHost)
    ensures |images| > 0 && Contains(images[0], PlaceholderHost) ==> ImageUrl(images, title, encode) == images[0]
  {
    var r := ImageUrl(images, title, encode);
    if !(|images| > 0 && Contains(images[0], PlaceholderHost)) {
      var e := encode(Take(title, 10));
      assert r == "https://" + PlaceholderHost + (PlaceholderPath + e);
      OccursBetween("https://", PlaceholderHost, PlaceholderPath + e);
      ContainsIff(r, PlaceholderHost);
    }
  }

  lemma OccursBetween(a: string, pat: string, b: string)
    ensures OccursAt(a + pat + b, pat, |a|)
  {
    var s := a + pat + b;
    assert s[|a|..|a| + |pat|] == pat;
  }

  /** The first four items are new arrivals, all later ones casual. */
  function CategoryAt(index: nat): (r: string)
    ensures r == NewArrivals || r == Casual
  {
    if index < NewArrivalCount then NewArrivals else Casual
  }

  /** The `.map((item, index) => ...)` callback. */
  function ToClothingItem(item: ApiItem, index: nat, encode: string -> string): (r: ClothingItem)
    ensures ReadInt(r.id) == Some(item.id)
    ensures r.name == item.title && r.price == item.price
    ensures r.imageUrl == ImageUrl(item.images, item.title, encode)
    ensures item.categoryName.Some? && item.categoryName.value != "" ==> r.categoryName == item.categoryName.value
    ensures item.categoryName.None? || item.categoryName.value == "" ==> r.categoryName == UnknownCategory
    ensures r.category == NewArrivals <==> index < 4
    ensures r.category == Casual <==> index >= 4
  {
    IntToStringRoundTrip(item.id);
    var categoryName := if item.categoryName.Some? && item.categoryName.value != "" then item.categoryName.value else UnknownCategory;
    ClothingItem(IntToString(item.id), item.title, item.price, ImageUrl(item.images, item.title, encode),
                 categoryName, CategoryAt(index))
  }

  function MapItems(items: seq<ApiItem>, encode: string -> string): (r: seq<ClothingItem>)
    ensures |r| == |items|
    ensures forall i :: 0 <= i < |items| ==> r[i] == ToClothingItem(items[i], i, encode)
  {
    seq(|items|, i requires 0 <= i < |items| => ToClothingItem(items[i], i, encode))
  }

  /** `getItemsByCategory`: the items of one category, in their order. */
  function ItemsByCategory(items: seq<ClothingItem>, category: string): (r: seq<ClothingItem>)
    ensures |r| <= |items|
    ensures forall k :: 0 <= k < |r| ==> r[k].category == category
  {
    if items == [] then []
    else if items[0].category == category then [items[0]] + ItemsByCategory(items[1..], category)
    else ItemsByCategory(items[1..], category)
  }

  /** Exactly the items of the category are kept. */
  lemma {:induction false} ItemsByCategoryMembers(items: seq<ClothingItem>, category: string)
    ensures forall x :: x in ItemsByCategory(items, category) <==> x in items && x.category == category
  {
    if items != [] {
      ItemsByCategoryMembers(items[1..], category);
      assert items == [items[0]] + items[1..];
    }
  }

  lemma {:induction false} ItemsByCategoryConcat(a: seq<ClothingItem>, b: seq<ClothingItem>, category: string)
    ensures ItemsByCategory(a + b, category) == ItemsByCategory(a, category) + ItemsByCategory(b, category)
  {
    if a == [] {
      assert a + b == b;
    } else {
      assert (a + b)[1..] == a[1..] + b;
      ItemsByCategoryConcat(a[1..], b, category);
    }
  }

  lemma {:induction false} ItemsByCategoryAll(items: seq<ClothingItem>, category: string)
    requires forall k :: 0 <= k < |items| ==> items[k].category == category
    ensures ItemsByCategory(items, category) == items
  {
    if items != [] {
      ItemsByCategoryAll(items[1..], category);
      assert items == [items[0]] + items[1..];
    }
  }

  lemma {:induction false} ItemsByCategoryNone(items: seq<ClothingItem>, category: string)
    requires forall k :: 0 <= k < |items| ==> items[k].category != category
    ensures ItemsByCategory(items, category) == []
  {
    if items != [] {
      ItemsByCategoryNone(items[1..], category);
    }
  }

  /** The two sections split the mapped list: the new arrivals are its first
      (at most) four items, the casual items all the rest, both in order. */
  lemma CategoriesPartition(items: seq<ApiItem>, encode: string -> string)
    ensures var all := MapItems(items, encode);
            var cut := if |items| < 4 then |items| else 4;
            ItemsByCategory(all, NewArrivals) == all[..cut] && ItemsByCategory(all, Casual) == all[cut..]
  {
    var all := MapItems(items, encode);
    assert forall k :: 0 <= k < |all| ==> all[k].category == CategoryAt(k);
    PartitionByIndex(all);
  }

  /** The same split for any list whose categories follow the index rule. */
  lemma PartitionByIndex(all: seq<ClothingItem>)
    requires forall k :: 0 <= k < |all| ==> all[k].category == CategoryAt(k)
    ensures var cut := if |all| < 4 then |all| else 4;
            ItemsByCategory(all, NewArrivals) == all[..cut] && ItemsByCategory(all, Casual) == all[cut..]
  {
    var cut := if |all| < 4 then |all| else 4;
    PrefixCategory(all, cut, NewArrivals);
    SuffixCategory(all, cut, Casual);
    SplitAt(all, cut);
  }

  lemma SplitAt(all: seq<ClothingItem>, cut: nat)
    requires cut <= |all|
    requires forall k :: 0 <= k < cut ==> all[..cut][k].category == NewArrivals
    requires forall k :: 0 <= k < |all| - cut ==> all[cut..][k].category == Casual
    ensures ItemsByCategory(all, NewArrivals) == all[..cut] && ItemsByCategory(all, Casual) == all[cut..]
  {
    assert all == all[..cut] + all[cut..];
    SplitByCategory(all[..cut], all[cut..]);
  }

  lemma PrefixCategory(all: seq<ClothingItem>, cut: nat, category: string)
    requires cut <= |all|
    requires forall k :: 0 <= k < cut ==> all[k].category == category
    ensures forall k :: 0 <= k < cut ==> all[..cut][k].category == category
  {
  }

  lemma SuffixCategory(all: seq<ClothingItem>, cut: nat, category: string)
    requires cut <= |all|
    requires forall k :: cut <= k < |all| ==> all[k].category == category
    ensures forall k :: 0 <= k < |all| - cut ==> all[cut..][k].category == category
  {
    forall k | 0 <= k < |all| - cut
      ensures all[cut..][k].category == category
    {
      assert all[cut..][k] == all[cut + k];
    }
  }

  /** Filtering a run of new arrivals followed by a run of casual items
      returns the two runs. */
  lemma SplitByCategory(front: seq<ClothingItem>, back: seq<ClothingItem>)
    requires forall k :: 0 <= k < |front| ==> front[k].category == NewArrivals
    requires forall k :: 0 <= k < |back| ==> back[k].category == Casual
    ensures ItemsByCategory(front + back, NewArrivals) == front
    ensures ItemsByCategory(front + back, Casual) == back
  {
    assert NewArrivals != Casual by { assert |NewArrivals| != |Casual|; }
    ItemsByCategoryConcat(front, back, NewArrivals);
    ItemsByCategoryConcat(front, back, Casual);
    ItemsByCategoryAll(front, NewArrivals);
    ItemsByCategoryNone(front, Casual);
    ItemsByCategoryAll(back, Casual);
    ItemsByCategoryNone(back, NewArrivals);
  }

  /** The hook's state: the mapped items, whether loading, the error. */
  datatype ListingState = ListingState(data: seq<ClothingItem>, loading: bool, error: Option<string>)

  const InitialListing := ListingState([], true, None)

  datatype Response = Fetched(items: seq<ApiItem>) | FetchFailed

  /** The effect's end: the mapped list on success, the error otherwise;
      loading ends either way. */
  function FinishListing(s: ListingState, response: Response, encode: string -> string): (r: ListingState)
    ensures !r.loading
    ensures response.Fetched? ==> r.data == MapItems(response.items, encode) && r.error == s.error
    ensures response.FetchFailed? ==> r.data == s.data && r.error == Some(FetchFailedMessage)
  {
    match response
    case Fetched(items) => s.(data := MapItems(items, encode), loading := false)
    case FetchFailed => s.(error := Some(FetchFailedMessage), loading := false)
  }

  /** What the catalogue renders above the style section. */
  datatype Catalogue = LoadingText | ErrorText(message: string)
                     | Sections(showNewArrivals: bool, showMiddleDivider: bool, showCasual: bool, showBottomDivider: bool)

  function CatalogueFor(s: ListingState): (r: Catalogue)
    ensures r == LoadingText <==> s.loading
    ensures r.ErrorText? <==> !s.loading && s.error.Some?
    ensures r.ErrorText? ==> r.message == s.error.value
    ensures r.Sections? ==>
              var newArrivals := ItemsByCategory(s.data, NewArrivals);
              var casual := ItemsByCategory(s.data, Casual);
              && (r.showNewArrivals <==> |newArrivals| > 0)
              && (r.showCasual <==> |casual| > 0)
              && (r.showMiddleDivider <==> |newArrivals| > 0 && |casual| > 0)
              && (r.showBottomDivider <==> |newArrivals| > 0 || |casual| > 0)
  {
    if s.loading then LoadingText
    else if s.error.Some? then ErrorText(s.error.value)
    else
      var newArrivals := ItemsByCategory(s.data, NewArrivals);
      var casual := ItemsByCategory(s.data, Casual);
      Sections(|newArrivals| > 0, |newArrivals| > 0 && |casual| > 0, |casual| > 0,
               |newArrivals| > 0 || |casual| > 0)
  }

  /** After a successful first fetch of `n` items the new-arrivals section
      shows when there is an item, the casual section and the middle divider
      when there are more than four. */
  lemma FirstFetchSections(items: seq<ApiItem>, encode: string -> string)
    ensures var c := CatalogueFor(FinishListing(InitialListing, Fetched(items), encode));
            c.Sections?
            && (c.showNewArrivals <==> |items| > 0)
            && (c.showCasual <==> |items| > 4)
            && (c.showMiddleDivider <==> |items| > 4)
            && (c.showBottomDivider <==> |items| > 0)
  {
    CategoriesPartition(items, encode);
  }
}
