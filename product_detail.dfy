/** The product page of fend_mm7/src/pages/products/ProductDetail.tsx: the
    quantity counter, the size / colour / image selection, which screen the
    hook's state selects, the image fallback and thumbnails, and the
    add-to-cart payload. The cart reducer that receives the payload is not
    part of this model. */
module ProductDetail {
  import opened Text
  import opened FetchDetail

  const Sizes: seq<string> := ["Small", "Medium", "Large", "X-Large"]
  const Colors: seq<string> := ["olive", "teal", "navy"]
  const InitialSize := "Small"
  const InitialColor := "olive"
  const NoImagePlaceholder := "https://placehold.co/400x500?text=No+Image"
  const ThumbnailCount: nat := 3
  const AddedToCartMessage := "Product added to cart"

  /** `setQuantity(prev => prev + 1)` */
  function Incremented(q: int): int { q + 1 }

  /** `if (quantity > 1) setQuantity(prev => prev - 1)` */
  function Decremented(q: int): int { if q > 1 then q - 1 else q }

  /** The counter never leaves the positive range, and the two buttons undo
      each other except at the floor of 1. */
  lemma CounterSteps(q: int)
    requires q >= 1
    ensures Incremented(q) >= 1 && Decremented(q) >= 1
    ensures Decremented(Incremented(q)) == q
    ensures q > 1 ==> Incremented(Decremented(q)) == q
    ensures Decremented(q) == q <==> q == 1
  {
  }

  /** The list the page shows: the product's images, or one placeholder
      when there are none. */
  function DisplayImages(images: seq<string>): (r: seq<string>)
    ensures |r| >= 1
    ensures images != [] ==> r == images
    ensures images == [] ==> r == [NoImagePlaceholder]
  {
    if |images| > 0 then images else [NoImagePlaceholder]
  }

  /** `images.slice(0, 3)` */
  function Thumbnails(images: seq<string>): (r: seq<string>)
  {
    Take(DisplayImages(images), ThumbnailCount)
  }

  lemma ThumbnailsShape(images: seq<string>)
    ensures 1 <= |Thumbnails(images)| <= 3
    ensures |Thumbnails(images)| == if |images| < 3 then (if images == [] then 1 else |images|) else 3
    ensures Thumbnails(images) == DisplayImages(images)[..|Thumbnails(images)|]
  {
  }

  /** `images[selectedImageIndex]`, None where JavaScript gives undefined. */
  function MainImage(images: seq<string>, selectedImageIndex: int): (r: Option<string>)
    ensures r.Some? <==> 0 <= selectedImageIndex < |DisplayImages(images)|
  {
    var shown := DisplayImages(images);
    if 0 <= selectedImageIndex < |shown| then Some(shown[selectedImageIndex]) else None
  }

  /** Clicking a thumbnail shows that same image as the main image. */
  lemma ThumbnailSelectsMainImage(images: seq<string>, index: nat)
    requires index < |Thumbnails(images)|
    ensures MainImage(images, index) == Some(Thumbnails(images)[index])
  {
    ThumbnailsShape(images);
  }

  /** What the component renders for the hook's state, checked in order. */
  datatype Screen = LoadingScreen | ErrorScreen | NotFoundScreen | ProductScreen(product: ProductDetail)

  function ScreenFor(s: HookState): (r: Screen)
    ensures r == LoadingScreen <==> s.loading
    ensures r == ErrorScreen <==> !s.loading && s.error.Some?
    ensures r == NotFoundScreen <==> !s.loading && s.error.None? && s.data.None?
    ensures r.ProductScreen? <==> !s.loading && s.error.None? && s.data.Some?
    ensures r.ProductScreen? ==> r.product == s.data.value
  {
    if s.loading then LoadingScreen
    else if s.error.Some? then ErrorScreen
    else if s.data.None? then NotFoundScreen
    else ProductScreen(s.data.value)
  }

  /** The first fetch shows the product when it succeeds and the error
      screen when it fails. */
  lemma FirstFetchScreen(response: Response)
    ensures var s := FinishFetch(StartFetch(Initial), response);
            (response.Fetched? ==> ScreenFor(s) == ProductScreen(MapDetail(response.item)))
            && (response.FetchFailed? ==> ScreenFor(s) == ErrorScreen)
  {
  }

  /** The object handed to `addToCart`; `image` is the raw first image,
      None (undefined) when the product has none. */
  datatype CartPayload = CartPayload(
    id: string, title: string, price: real, color: string, quantity: int,
    image: Option<string>, size: string)

  function PayloadFor(data: ProductDetail, color: string, quantity: int, size: string): (r: CartPayload)
    ensures r.id == data.id && r.title == data.name && r.price == data.price
    ensures r.color == color && r.quantity == quantity && r.size == size
    ensures r.image.Some? <==> data.images != []
    ensures r.image.Some? ==> r.image.value == data.images[0]
  {
    CartPayload(data.id, data.name, data.price, color, quantity,
                if |data.images| > 0 then Some(data.images[0]) else None, size)
  }

  class ProductDetailView {
    var quantity: int
    var selectedSize: string
    var selectedColor: string
    var selectedImageIndex: int
    var toast: Option<string>

    predicate Valid()
      reads this
    {
      quantity >= 1 && selectedImageIndex >= 0
    }

    constructor ()
      ensures Valid()
      ensures quantity == 1 && selectedSize == InitialSize && selectedColor == InitialColor
      ensures selectedImageIndex == 0 && toast == None
    {
      quantity := 1;
      selectedSize := InitialSize;
      selectedColor := InitialColor;
      selectedImageIndex := 0;
      toast := None;
    }

    method IncrementQuantity()
      requires Valid()
      modifies this`quantity
      ensures Valid() && quantity == Incremented(old(quantity))
    {
      quantity := quantity + 1;
    }

    method DecrementQuantity()
      requires Valid()
      modifies this`quantity
      ensures Valid() && quantity == Decremented(old(quantity))
    {
      if quantity > 1 {
        quantity := quantity - 1;
      }
    }

    method SelectSize(size: string)
      modifies this`selectedSize
      ensures selectedSize == size
    {
      selectedSize := size;
    }

    method SelectColor(color: string)
      modifies this`selectedColor
      ensures selectedColor == color
    {
      selectedColor := color;
    }

    /** Clicking the thumbnail at `index`. */
    method SelectImage(index: nat)
      requires Valid()
      modifies this`selectedImageIndex
      ensures Valid() && selectedImageIndex == index
    {
      selectedImageIndex := index;
    }

    /** `handleAddToCart`: with product data, hands the payload for the
        current choices to the cart and shows a toast; without, does nothing. */
    method HandleAddToCart(data: Option<ProductDetail>) returns (dispatched: Option<CartPayload>)
      modifies this`toast
      ensures data.None? ==> dispatched == None && toast == old(toast)
      ensures data.Some? ==> dispatched == Some(PayloadFor(data.value, selectedColor, quantity, selectedSize))
                             && toast == Some(AddedToCartMessage)
    {
      if data.None? {
        return None;
      }
      var d := data.value;
      var image := if |d.images| > 0 then Some(d.images[0]) else None;
      dispatched := Some(CartPayload(d.id, d.name, d.price, selectedColor, quantity, image, selectedSize));
      toast := Some(AddedToCartMessage);
    }
  }

  /** A payload built from the view always carries a positive quantity. */
  lemma PayloadQuantityPositive(view: ProductDetailView, data: ProductDetail)
    requires view.Valid()
    ensures PayloadFor(data, view.selectedColor, view.quantity, view.selectedSize).quantity >= 1
  {
  }
}
