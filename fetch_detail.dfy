/** The product-detail hook of fend_mm7/src/pages/products/fetchProductDetail.tsx:
    the mapping from the store API's product record to the detail shape,
    and how one fetch moves the hook's `data` / `loading` / `error` state.
    The request itself is not part of this model: its outcome is an input. */
module FetchDetail {
  import opened Text

  /** The fields of the API record the mapping reads. `images` and
      `categoryName` are None when the record lacks them (`category?.name`
      is None also when `category` itself is missing). */
  datatype ApiProduct = ApiProduct(
    id: int, title: string, price: real, images: Option<seq<string>>,
    categoryName: Option<string>, description: string)

  datatype ProductDetail = ProductDetail(
    id: string, name: string, price: real, images: seq<string>,
    categoryName: string, description: string)

  const UnknownCategory := "Unknown"
  const FetchFailedMessage := "Failed to fetch product details"

  /** `x || fallback` on an optional string: a missing or empty name gives
      the fallback. */
  function NameOr(name: Option<string>, fallback: string): (r: string)
    ensures name.Some? && name.value != "" ==> r == name.value
    ensures name.None? || name.value == "" ==> r == fallback
  {
    if name.Some? && name.value != "" then name.value else fallback
  }

  function MapDetail(item: ApiProduct): (r: ProductDetail)
    ensures ReadInt(r.id) == Some(item.id)
    ensures r.name == item.title && r.price == item.price && r.description == item.description
    ensures r.images == item.images.GetOr([])
    ensures r.categoryName == NameOr(item.categoryName, UnknownCategory)
    ensures r.categoryName != ""
  {
    IntToStringRoundTrip(item.id);
    ProductDetail(IntToString(item.id), item.title, item.price, item.images.GetOr([]),
                  NameOr(item.categoryName, UnknownCategory), item.description)
  }

  /** Distinct API ids give distinct detail ids. */
  lemma MapDetailIdsDistinct(a: ApiProduct, b: ApiProduct)
    ensures MapDetail(a).id == MapDetail(b).id <==> a.id == b.id
  {
    IntToStringInjective(a.id, b.id);
  }

  /** What the request gave: the record, or a failure. */
  datatype Response = Fetched(item: ApiProduct) | FetchFailed

  datatype HookState = HookState(data: Option<ProductDetail>, loading: bool, error: Option<string>)

  /** `data` null, `loading` true, `error` null on mount. */
  const Initial := HookState(None, true, None)

  /** The effect's start: loading is raised, nothing else changes. */
  function StartFetch(s: HookState): (r: HookState)
    ensures r.loading && r.data == s.data && r.error == s.error
  {
    s.(loading := true)
  }

  /** The effect's end: a fetched record becomes `data`, a failure sets
      `error`; the other field keeps its value and loading always ends. */
  function FinishFetch(s: HookState, response: Response): (r: HookState)
    ensures !r.loading
    ensures response.Fetched? ==> r.data == Some(MapDetail(response.item)) && r.error == s.error
    ensures response.FetchFailed? ==> r.data == s.data && r.error == Some(FetchFailedMessage)
  {
    match response
    case Fetched(item) => s.(data := Some(MapDetail(item)), loading := false)
    case FetchFailed => s.(error := Some(FetchFailedMessage), loading := false)
  }

  /** After the first fetch exactly one of data and error is set. */
  lemma FirstFetchOutcome(response: Response)
    ensures var r := FinishFetch(StartFetch(Initial), response);
            !r.loading && (r.data.Some? <==> r.error.None?) && (r.data.Some? <==> response.Fetched?)
  {
  }
}
