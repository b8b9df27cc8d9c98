/**
 * The product listing (`Products.jsx`): a gender filter over the whole catalog, four sort
 * orders applied to a copy, and pages of ten products.
 */
module Catalog {
  import opened Wrappers
  import opened Seqs
  import opened Sorting
  import opened Records
  import opened CartContext
  import App

  const AllGenders := "All"
  const PriceLowHigh := "priceLowHigh"
  const PriceHighLow := "priceHighLow"
  const NameAZ := "nameAZ"
  const NameZA := "nameZA"
  const ItemsPerPage: nat := 10

  /** `String.prototype.localeCompare(a, b) <= 0`, a total preorder on names supplied by the platform. */
  type NameOrder = (string, string) -> bool

  // ---------------------------------------------------------------- filter

  function HasGender(gender: string): Product -> bool {
    (p: Product) => p.gender == gender
  }

  /** `gender === "All" ? [...products] : products.filter((p) => p.gender === gender)`. */
  function GenderFilter(products: seq<Product>, gender: string): (r: seq<Product>)
    ensures gender == AllGenders ==> r == products
    ensures gender != AllGenders ==> forall p :: p in r <==> p in products && p.gender == gender
    ensures gender != AllGenders ==> forall p :: multiset(r)[p] == if p.gender == gender then multiset(products)[p] else 0
  {
    if gender == AllGenders then products
    else
      FilterCount(products, HasGender(gender));
      Filter(products, HasGender(gender))
  }

  /** The filtered list keeps the catalog order: the filter of a catalog split in two is the two filters joined. */
  lemma GenderFilterKeepsOrder(a: seq<Product>, b: seq<Product>, gender: string)
    ensures GenderFilter(a + b, gender) == GenderFilter(a, gender) + GenderFilter(b, gender)
  {
    if gender != AllGenders {
      FilterAppend(a, b, HasGender(gender));
    }
  }

  // ---------------------------------------------------------------- sort

  /** `(a, b) => a.price - b.price`. */
  predicate PriceAscending(a: Product, b: Product) { a.price <= b.price }

  /** `(a, b) => b.price - a.price`. */
  predicate PriceDescending(a: Product, b: Product) { a.price >= b.price }

  /** `(a, b) => a.name.localeCompare(b.name)`. */
  function ByName(nameLe: NameOrder): (Product, Product) -> bool {
    (a: Product, b: Product) => nameLe(a.name, b.name)
  }

  /** `(a, b) => b.name.localeCompare(a.name)`. */
  function ByNameReversed(nameLe: NameOrder): (Product, Product) -> bool {
    (a: Product, b: Product) => nameLe(b.name, a.name)
  }

  lemma NameOrdersArePreorders(nameLe: NameOrder)
    requires TotalPreorder(nameLe)
    ensures TotalPreorder(ByName(nameLe)) && TotalPreorder(ByNameReversed(nameLe))
  {
    forall a: Product, b: Product ensures ByName(nameLe)(a, b) || ByName(nameLe)(b, a) {
      assert nameLe(a.name, b.name) || nameLe(b.name, a.name);
    }
    forall a: Product, b: Product, c: Product | ByName(nameLe)(a, b) && ByName(nameLe)(b, c)
      ensures ByName(nameLe)(a, c)
    {
      assert nameLe(a.name, b.name) && nameLe(b.name, c.name);
    }
    forall a: Product, b: Product ensures ByNameReversed(nameLe)(a, b) || ByNameReversed(nameLe)(b, a) {
      assert nameLe(a.name, b.name) || nameLe(b.name, a.name);
    }
    forall a: Product, b: Product, c: Product | ByNameReversed(nameLe)(a, b) && ByNameReversed(nameLe)(b, c)
      ensures ByNameReversed(nameLe)(a, c)
    {
      assert nameLe(c.name, b.name) && nameLe(b.name, a.name);
    }
  }

  /** The order a sort option promises; an empty or unknown option promises nothing. */
  predicate SortedFor(option: string, s: seq<Product>, nameLe: NameOrder) {
    if option == PriceLowHigh then Sorted(s, PriceAscending)
    else if option == PriceHighLow then Sorted(s, PriceDescending)
    else if option == NameAZ then Sorted(s, ByName(nameLe))
    else if option == NameZA then Sorted(s, ByNameReversed(nameLe))
    else true
  }

  predicate KnownOption(option: string) {
    option in {PriceLowHigh, PriceHighLow, NameAZ, NameZA}
  }

  /** `sortProducts`: a sorted permutation of a copy of `items`; an unknown option returns the copy as it is. */
  method SortProducts(items: seq<Product>, option: string, nameLe: NameOrder) returns (sorted: seq<Product>)
    requires TotalPreorder(nameLe)
    ensures multiset(sorted) == multiset(items)
    ensures SortedFor(option, sorted, nameLe)
    ensures !KnownOption(option) ==> sorted == items
  {
    NameOrdersArePreorders(nameLe);
    if option == PriceLowHigh {
      sorted := SortedCopy(items, PriceAscending);
    } else if option == PriceHighLow {
      sorted := SortedCopy(items, PriceDescending);
    } else if option == NameAZ {
      sorted := SortedCopy(items, ByName(nameLe));
    } else if option == NameZA {
      sorted := SortedCopy(items, ByNameReversed(nameLe));
    } else {
      sorted := items;
    }
  }

  /** Low-to-high leaves the cheapest product first and the dearest last. */
  lemma PriceLowHighEnds(s: seq<Product>, nameLe: NameOrder)
    requires SortedFor(PriceLowHigh, s, nameLe) && s != []
    ensures forall p :: p in s ==> s[0].price <= p.price <= s[|s| - 1].price
  {
    forall p | p in s ensures s[0].price <= p.price <= s[|s| - 1].price {
      var i :| 0 <= i < |s| && s[i] == p;
      if 0 < i { assert PriceAscending(s[0], s[i]); }
      if i < |s| - 1 { assert PriceAscending(s[i], s[|s| - 1]); }
    }
  }

  // ---------------------------------------------------------------- pagination

  /** `Math.ceil(n / itemsPerPage)`. */
  function TotalPages(n: nat): (pages: nat)
    ensures pages * ItemsPerPage >= n
    ensures pages == 0 || (pages - 1) * ItemsPerPage < n
    ensures pages == 0 <==> n == 0
  {
    (n + ItemsPerPage - 1) / ItemsPerPage
  }

  /** `filtered.slice((page - 1) * 10, page * 10)`: JavaScript clamps both ends to the length. */
  function PageItems(s: seq<Product>, page: nat): (r: seq<Product>)
    requires page >= 1
    ensures |r| <= ItemsPerPage
    ensures |r| == if (page - 1) * ItemsPerPage >= |s| then 0 else Min(ItemsPerPage, |s| - (page - 1) * ItemsPerPage)
    ensures forall j :: 0 <= j < |r| ==> r[j] == s[(page - 1) * ItemsPerPage + j]
  {
    var first := Min((page - 1) * ItemsPerPage, |s|);
    var last := Min(page * ItemsPerPage, |s|);
    s[first..last]
  }

  /** Every product of the list is on exactly one page among 1..TotalPages, at its offset on that page. */
  lemma EachItemOnOnePage(s: seq<Product>, i: nat)
    requires i < |s|
    ensures var page := i / ItemsPerPage + 1;
      1 <= page <= TotalPages(|s|) && PageItems(s, page)[i % ItemsPerPage] == s[i]
    ensures forall page :: 1 <= page && (page - 1) * ItemsPerPage <= i < page * ItemsPerPage ==>
      page == i / ItemsPerPage + 1
  {
  }

  /** Pages 1..k joined. */
  function Pages(s: seq<Product>, k: nat): seq<Product> {
    if k == 0 then [] else Pages(s, k - 1) + PageItems(s, k)
  }

  lemma {:induction false} PagesArePrefix(s: seq<Product>, k: nat)
    ensures Pages(s, k) == s[..Min(k * ItemsPerPage, |s|)]
  {
    if k > 0 {
      PagesArePrefix(s, k - 1);
      var a, b := Min((k - 1) * ItemsPerPage, |s|), Min(k * ItemsPerPage, |s|);
      assert s[..a] + s[a..b] == s[..b];
    }
  }

  /** The pages 1..TotalPages, joined, are the whole list, in order. */
  lemma PagesCoverList(s: seq<Product>)
    ensures Pages(s, TotalPages(|s|)) == s
  {
    PagesArePrefix(s, TotalPages(|s|));
  }

  predicate PrevDisabled(page: nat) { page == 1 }
  predicate NextDisabled(page: nat, n: nat) { page == TotalPages(n) }

  /** An empty list has no pages, so the Next button stays enabled on page 1. */
  lemma NextEnabledOnEmptyList()
    ensures !NextDisabled(1, 0) && PageItems([], 1) == []
  {
  }

  // ---------------------------------------------------------------- the page

  class ProductsPage {
    const nameLe: NameOrder
    /** `JSON.parse(localStorage.getItem("loggedInUser"))` at render time. */
    const user: Option<User>
    var products: seq<Product>
    var filteredProducts: seq<Product>
    var genderFilter: string
    var currentPage: nat
    var sortBy: string

    ghost predicate Valid()
      reads this
    {
      currentPage >= 1 && TotalPreorder(nameLe)
    }

    constructor(nameLe: NameOrder, user: Option<User>)
      requires TotalPreorder(nameLe)
      ensures Valid()
      ensures this.nameLe == nameLe && this.user == user
      ensures products == [] && filteredProducts == [] && genderFilter == AllGenders && currentPage == 1 && sortBy == ""
    {
      this.nameLe, this.user := nameLe, user;
      products, filteredProducts, genderFilter, currentPage, sortBy := [], [], AllGenders, 1, "";
    }

    /** `fetchProducts`: on success both lists become the catalog. */
    method Load(fetched: bool, catalog: seq<Product>)
      modifies this
      ensures fetched ==> products == catalog && filteredProducts == catalog
      ensures !fetched ==> products == old(products) && filteredProducts == old(filteredProducts)
      ensures genderFilter == old(genderFilter) && currentPage == old(currentPage) && sortBy == old(sortBy)
    {
      if fetched {
        products, filteredProducts := catalog, catalog;
      }
    }

    /** `handleFilter`: back to page 1, the whole catalog filtered afresh, sorted by the active option. */
    method HandleFilter(gender: string)
      requires Valid()
      modifies this
      ensures Valid()
      ensures genderFilter == gender && currentPage == 1
      ensures multiset(filteredProducts) == multiset(GenderFilter(products, gender))
      ensures SortedFor(sortBy, filteredProducts, nameLe)
      ensures !KnownOption(sortBy) ==> filteredProducts == GenderFilter(products, gender)
      ensures products == old(products) && sortBy == old(sortBy)
    {
      genderFilter, currentPage := gender, 1;
      var updated := GenderFilter(products, gender);
      if sortBy != "" {
        updated := SortProducts(updated, sortBy, nameLe);
      }
      filteredProducts := updated;
    }

    /** `handleSortChange`: the list currently shown is sorted, not the whole catalog; the page stays. */
    method HandleSortChange(option: string)
      requires Valid()
      modifies this
      ensures Valid()
      ensures sortBy == option
      ensures multiset(filteredProducts) == multiset(old(filteredProducts))
      ensures SortedFor(option, filteredProducts, nameLe)
      ensures !KnownOption(option) ==> filteredProducts == old(filteredProducts)
      ensures products == old(products) && genderFilter == old(genderFilter) && currentPage == old(currentPage)
    {
      sortBy := option;
      filteredProducts := SortProducts(filteredProducts, option, nameLe);
    }

    function CurrentItems(): seq<Product>
      requires Valid()
      reads this
    {
      PageItems(filteredProducts, currentPage)
    }

    /** The Prev button: disabled on page 1. */
    method Prev()
      requires Valid()
      modifies this
      ensures Valid()
      ensures currentPage == if PrevDisabled(old(currentPage)) then old(currentPage) else old(currentPage) - 1
      ensures products == old(products) && filteredProducts == old(filteredProducts)
      ensures genderFilter == old(genderFilter) && sortBy == old(sortBy)
    {
      if !PrevDisabled(currentPage) {
        currentPage := currentPage - 1;
      }
    }

    /** The Next button: disabled only on the page numbered `totalPages`. */
    method Next()
      requires Valid()
      modifies this
      ensures Valid()
      ensures currentPage == if NextDisabled(old(currentPage), |filteredProducts|) then old(currentPage) else old(currentPage) + 1
      ensures products == old(products) && filteredProducts == old(filteredProducts)
      ensures genderFilter == old(genderFilter) && sortBy == old(sortBy)
    {
      if !NextDisabled(currentPage, |filteredProducts|) {
        currentPage := currentPage + 1;
      }
    }

    /** A numbered page button; the buttons run from 1 to `totalPages`. */
    method GoToPage(num: nat)
      requires Valid() && 1 <= num <= TotalPages(|filteredProducts|)
      modifies this
      ensures Valid() && currentPage == num
      ensures products == old(products) && filteredProducts == old(filteredProducts)
      ensures genderFilter == old(genderFilter) && sortBy == old(sortBy)
    {
      currentPage := num;
    }

    /**
     * The "Add to Cart" button: without a logged-in user it only sends the browser to the login
     * page; otherwise the product goes to the shared cart and the browser to the cart page.
     */
    method HandleAddToCart(store: CartStore, product: Product, ok: bool) returns (goTo: string)
      requires store.Valid()
      modifies store
      ensures store.Valid()
      ensures user.None? ==> goTo == App.LoginPath && store.cart == old(store.cart) && store.remoteCart == old(store.remoteCart)
      ensures user.Some? ==> goTo == App.CartPath && store.AddedToCart(old(store.cart), old(store.remoteCart), product, ok)
      ensures store.wishlist == old(store.wishlist) && store.remoteWishlist == old(store.remoteWishlist)
    {
      if user.None? {
        return App.LoginPath;
      }
      store.AddToCart(product, ok);
      goTo := App.CartPath;
    }

    /**
     * `handleAddToWishlist`: without a logged-in user it sends the browser to the login page; when
     * the wishlist already holds the product's id it does nothing; otherwise the product goes to
     * the shared wishlist.
     */
    method HandleAddToWishlist(store: CartStore, product: Product, ok: bool) returns (goTo: Option<string>)
      requires store.Valid()
      modifies store
      ensures store.Valid()
      ensures goTo.Some? <==> user.None?
      ensures goTo.Some? ==> goTo.value == App.LoginPath
      ensures user.None? || WishHasId(old(store.wishlist), product.id) ==>
        store.wishlist == old(store.wishlist) && store.remoteWishlist == old(store.remoteWishlist)
      ensures user.Some? && !WishHasId(old(store.wishlist), product.id) ==>
        store.AddedToWishlist(old(store.wishlist), old(store.remoteWishlist), product, ok)
      ensures store.cart == old(store.cart) && store.remoteCart == old(store.remoteCart)
    {
      if user.None? {
        return Some(App.LoginPath);
      }
      goTo := None;
      if WishHasId(store.wishlist, product.id) {
        return;
      }
      store.AddToWishlist(product, ok);
    }
  }
}
