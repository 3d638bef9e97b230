/** The admin product table of fend_mm5/src/pages/ProductList.tsx:
    pagination arithmetic, newest-first ordering of a fetched page, and the
    derived cells (short description, image source). The HTTP requests are
    not part of this model: their responses are inputs. */
module ProductList {
  import opened Text

  /** `limit`, the page size. */
  const Limit: nat := 10

  /** A product as the API returns it; `creationAt` is a timestamp in
      milliseconds, None when the field is missing. */
  datatype Product = Product(
    id: int, title: string, description: string, price: real,
    images: seq<string>, creationAt: Option<int>)

  // ---------------------------------------------------------------------
  // Pagination

  /** `offset = (page - 1) * limit` */
  function Offset(page: int): (r: int)
    ensures page >= 1 ==> r >= 0 && r % Limit == 0 && r / Limit == page - 1
  {
    (page - 1) * Limit
  }

  /** Page 1 starts at the first product and each page starts one page
      size after the previous one. */
  lemma OffsetSteps(page: int)
    ensures Offset(1) == 0
    ensures Offset(page + 1) == Offset(page) + Limit
  {
  }

  /** `Math.ceil(totalProducts / limit)` */
  function TotalPages(total: nat): (r: nat)
    ensures r * Limit >= total
    ensures r == 0 || (r - 1) * Limit < total
  {
    (total + Limit - 1) / Limit
  }

  /** The page buttons: `Array.from({ length: totalPages }, (_, i) => i + 1)`. */
  function PageNumbers(n: nat): (r: seq<int>)
    ensures |r| == n
    ensures forall p :: p in r <==> 1 <= p <= n
    ensures forall i, j :: 0 <= i < j < |r| ==> r[i] < r[j]
  {
    var r := seq(n, i => i + 1);
    assert forall p :: 1 <= p <= n ==> p in r by {
      forall p | 1 <= p <= n ensures p in r { assert r[p - 1] == p; }
    }
    r
  }

  /** The pagination bar is rendered only for more than one page of products. */
  predicate ShowPagination(total: nat) {
    total > Limit
  }

  lemma ShowPaginationIff(total: nat)
    ensures ShowPagination(total) <==> TotalPages(total) >= 2
  {
  }

  // ---------------------------------------------------------------------
  // Newest-first ordering

  /** `new Date(p.creationAt || 0).getTime()` */
  function Timestamp(p: Product): (r: int)
    ensures p.creationAt.Some? ==> r == p.creationAt.value
    ensures p.creationAt.None? ==> r == 0
  {
    p.creationAt.GetOr(0)
  }

  predicate NewestFirst(s: seq<Product>) {
    forall i, j :: 0 <= i < j < |s| ==> Timestamp(s[i]) >= Timestamp(s[j])
  }

  /** The products with timestamp `t`, in order. */
  function WithTimestamp(s: seq<Product>, t: int): seq<Product> {
    if s == [] then []
    else (if Timestamp(s[0]) == t then [s[0]] else []) + WithTimestamp(s[1..], t)
  }

  /** Puts `x` into a newest-first list ahead of every product that is not
      newer than it. */
  function Insert(x: Product, s: seq<Product>): seq<Product>
  {
    if s == [] || Timestamp(x) >= Timestamp(s[0]) then [x] + s
    else [s[0]] + Insert(x, s[1..])
  }

  /** `productsResponse.data.sort((a, b) => time(b) - time(a))`, as the
      stable sort the language prescribes. */
  function SortNewestFirst(s: seq<Product>): seq<Product>
  {
    if s == [] then [] else Insert(s[0], SortNewestFirst(s[1..]))
  }

  predicate NotNewerThan(s: seq<Product>, bound: int) {
    forall k :: 0 <= k < |s| ==> Timestamp(s[k]) <= bound
  }

  lemma {:induction false} InsertBounded(x: Product, s: seq<Product>, bound: int)
    requires Timestamp(x) <= bound && NotNewerThan(s, bound)
    ensures NotNewerThan(Insert(x, s), bound)
  {
    if s != [] && Timestamp(x) < Timestamp(s[0]) {
      assert NotNewerThan(s[1..], bound) by {
        forall k | 0 <= k < |s| - 1 ensures Timestamp(s[1..][k]) <= bound { assert s[1..][k] == s[k + 1]; }
      }
      InsertBounded(x, s[1..], bound);
    }
  }

  lemma TailNewestFirst(s: seq<Product>)
    requires s != [] && NewestFirst(s)
    ensures NewestFirst(s[1..])
  {
    var tail := s[1..];
    forall i, j | 0 <= i < j < |tail| ensures Timestamp(tail[i]) >= Timestamp(tail[j]) {
      assert tail[i] == s[i + 1] && tail[j] == s[j + 1];
    }
  }

  lemma {:induction false} InsertSorted(x: Product, s: seq<Product>)
    requires NewestFirst(s)
    ensures NewestFirst(Insert(x, s))
  {
    if s != [] && Timestamp(x) < Timestamp(s[0]) {
      var tail := s[1..];
      TailNewestFirst(s);
      InsertSorted(x, tail);
      assert NotNewerThan(tail, Timestamp(s[0])) by {
        forall k | 0 <= k < |tail| ensures Timestamp(tail[k]) <= Timestamp(s[0]) { assert tail[k] == s[k + 1]; }
      }
      InsertBounded(x, tail, Timestamp(s[0]));
      var r := Insert(x, s);
      assert r == [s[0]] + Insert(x, tail);
      forall i, j | 0 <= i < j < |r| ensures Timestamp(r[i]) >= Timestamp(r[j]) {
        if i > 0 {
          assert r[i] == Insert(x, tail)[i - 1] && r[j] == Insert(x, tail)[j - 1];
        } else {
          assert r[j] == Insert(x, tail)[j - 1];
        }
      }
    }
  }

  lemma {:induction false} InsertMultiset(x: Product, s: seq<Product>)
    ensures multiset(Insert(x, s)) == multiset(s) + multiset{x}
  {
    if s != [] && Timestamp(x) < Timestamp(s[0]) {
      InsertMultiset(x, s[1..]);
      assert s == [s[0]] + s[1..];
    }
  }

  lemma WithTimestampCons(a: Product, s: seq<Product>, t: int)
    ensures WithTimestamp([a] + s, t) == (if Timestamp(a) == t then [a] else []) + WithTimestamp(s, t)
  {
    assert ([a] + s)[1..] == s;
  }

  lemma {:induction false} InsertWithTimestamp(x: Product, s: seq<Product>, t: int)
    ensures WithTimestamp(Insert(x, s), t) == (if Timestamp(x) == t then [x] else []) + WithTimestamp(s, t)
  {
    if s == [] || Timestamp(x) >= Timestamp(s[0]) {
      WithTimestampCons(x, s, t);
    } else {
      var tail := s[1..];
      InsertWithTimestamp(x, tail, t);
      WithTimestampCons(s[0], Insert(x, tail), t);
      WithTimestampCons(s[0], tail, t);
      assert s == [s[0]] + tail;
    }
  }

  /** The sorted list is newest first. */
  lemma {:induction false} SortIsNewestFirst(s: seq<Product>)
    ensures NewestFirst(SortNewestFirst(s))
  {
    if s != [] {
      SortIsNewestFirst(s[1..]);
      InsertSorted(s[0], SortNewestFirst(s[1..]));
    }
  }

  /** Sorting is a permutation. */
  lemma {:induction false} SortIsPermutation(s: seq<Product>)
    ensures multiset(SortNewestFirst(s)) == multiset(s)
  {
    if s != [] {
      SortIsPermutation(s[1..]);
      InsertMultiset(s[0], SortNewestFirst(s[1..]));
      assert s == [s[0]] + s[1..];
    }
  }

  /** Sorting is stable: products created at the same time keep their
      relative order. */
  lemma {:induction false} SortIsStable(s: seq<Product>, t: int)
    ensures WithTimestamp(SortNewestFirst(s), t) == WithTimestamp(s, t)
  {
    if s != [] {
      SortIsStable(s[1..], t);
      InsertWithTimestamp(s[0], SortNewestFirst(s[1..]), t);
    }
  }

  /** Sorting keeps every product and the number of products. */
  lemma SortKeepsProducts(s: seq<Product>)
    ensures |SortNewestFirst(s)| == |s|
    ensures forall p :: p in SortNewestFirst(s) <==> p in s
  {
    var r := SortNewestFirst(s);
    SortIsPermutation(s);
    assert |multiset(r)| == |multiset(s)|;
    forall p ensures p in r <==> p in s {
      assert p in r <==> p in multiset(r);
      assert p in s <==> p in multiset(s);
    }
  }

  // ---------------------------------------------------------------------
  // Derived cells

  const PlaceholderThumb := "https://placehold.co/48x48"
  const RemoteFilesPrefix := "https://api.escuelajs.co/api/v1/files/"
  const ProxiedFilesPrefix := "/files/"

  /** The description cell: `description.split(".")[0]`. */
  function ShortDescription(p: Product): (r: string)
    ensures |r| <= |p.description| && r == p.description[..|r|] && '.' !in r
    ensures |r| < |p.description| ==> p.description[|r|] == '.'
  {
    BeforeFirst(p.description, '.')
  }

  /** The image cell's `src`: the first image with the remote files prefix
      rewritten to the proxied path, or the placeholder when there is no
      first image or the result is empty. */
  function ImageSrc(images: seq<string>): (r: string)
    ensures r != ""
    ensures |images| == 0 ==> r == PlaceholderThumb
  {
    if |images| == 0 then PlaceholderThumb
    else
      var replaced := ReplaceFirst(images[0], RemoteFilesPrefix, ProxiedFilesPrefix);
      if replaced == "" then PlaceholderThumb else replaced
  }

  /** An image under the remote files path is shown through the proxy path. */
  lemma ImageSrcRewritesRemote(images: seq<string>, rest: string)
    requires |images| > 0 && images[0] == RemoteFilesPrefix + rest
    ensures ImageSrc(images) == ProxiedFilesPrefix + rest
  {
    ReplaceFirstAtStart(RemoteFilesPrefix, rest, ProxiedFilesPrefix);
  }

  /** Any other non-empty first image is used unchanged. */
  lemma ImageSrcKeepsOther(images: seq<string>)
    requires |images| > 0 && images[0] != "" && !Contains(images[0], RemoteFilesPrefix)
    ensures ImageSrc(images) == images[0]
  {
  }

  /** An empty first image falls back to the placeholder. */
  lemma ImageSrcEmptyFirst(images: seq<string>)
    requires |images| > 0 && images[0] == ""
    ensures ImageSrc(images) == PlaceholderThumb
  {
  }

  // ---------------------------------------------------------------------
  // The page state

  class ProductListPage {
    var page: int
    var products: seq<Product>
    var totalProducts: nat

    /** `page` starts from the URL's `page` parameter (parsed elsewhere). */
    constructor (initialPage: int)
      ensures page == initialPage && products == [] && totalProducts == 0
    {
      page := initialPage;
      products := [];
      totalProducts := 0;
    }

    /** `updatePage(newPage)`: pages below 1 are ignored. */
    method UpdatePage(newPage: int)
      modifies this`page
      ensures page == if newPage < 1 then old(page) else newPage
    {
      if newPage < 1 {
        return;
      }
      page := newPage;
    }

    /** The "Previous" button, disabled on page 1. */
    method GoPrevious()
      modifies this`page
      ensures old(page) == 1 || old(page) - 1 < 1 ==> page == old(page)
      ensures old(page) > 1 ==> page == old(page) - 1
    {
      if page != 1 {
        UpdatePage(page - 1);
      }
    }

    /** The "Next" button, disabled on the last page. */
    method GoNext()
      modifies this`page
      ensures old(page) == TotalPages(totalProducts) || old(page) + 1 < 1 ==> page == old(page)
      ensures old(page) != TotalPages(totalProducts) && old(page) >= 0 ==> page == old(page) + 1
    {
      if page != TotalPages(totalProducts) {
        UpdatePage(page + 1);
      }
    }

    /** The end of `fetchProducts`: the requested page, newest first, and
        the size of the full list. */
    method ReceiveProducts(pageResponse: seq<Product>, allCount: nat)
      modifies this`products, this`totalProducts
      ensures products == SortNewestFirst(pageResponse) && totalProducts == allCount
    {
      products := SortNewestFirst(pageResponse);
      totalProducts := allCount;
    }
  }
}
