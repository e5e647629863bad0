/**
 * The store page (`/store`): the category and search filter over the
 * product catalogue, the featured strip, and the add-to-cart button.
 *
 * The catalogue is a parameter (its entries are static data). The page's
 * `addedToCartId` and toast state are fields of a class; the cart
 * context's `addToCart`, whose code is not part of this model, is recorded
 * as a log of the products handed to it.
 */
module StorePage {

  import opened Js
  import opened Catalogue

  datatype Product = Product(
    id: int,
    title: string,
    description: string,
    category: string,
    price: real,
    rating: real,
    image: string,
    productType: string)

  /** `matchesCategory && matchesSearch` for one product. */
  predicate ProductMatches(selectedCategory: string, searchTerm: string, p: Product) {
    Selects(selectedCategory, "all", p.category) && AnyFieldMatches([p.title, p.description], searchTerm)
  }

  /** `filteredProducts`. */
  function FilteredProducts(products: seq<Product>, selectedCategory: string, searchTerm: string)
    : (r: seq<Product>)
    ensures forall p :: p in r <==> p in products && ProductMatches(selectedCategory, searchTerm, p)
    ensures forall p :: multiset(r)[p] == if ProductMatches(selectedCategory, searchTerm, p) then multiset(products)[p] else 0
    ensures IsSubsequence(r, products)
    ensures forall i :: 0 <= i < |r| ==> selectedCategory == "all" || r[i].category == selectedCategory
  {
    FilterIsSubsequence(p => ProductMatches(selectedCategory, searchTerm, p), products);
    Filter(p => ProductMatches(selectedCategory, searchTerm, p), products)
  }

  /** With the "all" category and an empty search the whole catalogue is listed, in order. */
  lemma DefaultListsEverything(products: seq<Product>)
    ensures FilteredProducts(products, "all", "") == products
  {
    forall i | 0 <= i < |products| ensures ProductMatches("all", "", products[i]) {
      EmptyQueryMatches([products[i].title, products[i].description]);
    }
    FilterKeepsAll(p => ProductMatches("all", "", p), products);
  }

  /** A search for a product's exact title always finds it, in any category selection that admits it. */
  lemma TitleSearchFindsProduct(products: seq<Product>, p: Product, selectedCategory: string)
    requires p in products && Selects(selectedCategory, "all", p.category)
    ensures p in FilteredProducts(products, selectedCategory, p.title)
  {
    FieldMatchesItself(p.title);
  }

  /** The featured strip's threshold: 4.8 and above on the five-star scale. */
  predicate HighlyRated(p: Product) {
    p.rating >= 4.8
  }

  /** `featuredProducts`: the first three products rated at least 4.8, in catalogue order. */
  function FeaturedProducts(products: seq<Product>): (r: seq<Product>)
    ensures |r| <= 3
    ensures forall i :: 0 <= i < |r| ==> r[i].rating >= 4.8 && r[i] in products
    ensures IsSubsequence(r, products)
    ensures |r| == if |Filter(HighlyRated, products)| <= 3 then |Filter(HighlyRated, products)| else 3
    ensures r == Filter(HighlyRated, products)[..|r|]
  {
    var top := Filter(HighlyRated, products);
    var r := Take(top, 3);
    FilterIsSubsequence(HighlyRated, products);
    PrefixIsSubsequence(top, products, |r|);
    assert forall i :: 0 <= i < |r| ==> r[i] == top[i] && top[i] in top;
    r
  }

  /** What `addToCart` receives. */
  datatype CartProduct = CartProduct(id: int, title: string, price: real, image: string, productType: string)

  const MsgFreeDownload := "Free download started!"

  function AddedMessage(title: string): string {
    title + " added to cart!"
  }

  class Store {
    var addedToCartId: Option<int>
    var toastMessage: string
    var showToast: bool
    /** Every product handed to the cart context's `addToCart`, in order. */
    var cartAdds: seq<CartProduct>

    /** Nothing free ever reaches the cart, and the highlighted card is always one that was added. */
    predicate Valid()
      reads this
    {
      && (forall i :: 0 <= i < |cartAdds| ==> cartAdds[i].price != 0.0)
      && (addedToCartId.Some? ==> exists i :: 0 <= i < |cartAdds| && cartAdds[i].id == addedToCartId.value)
    }

    constructor ()
      ensures Valid()
      ensures addedToCartId.None? && toastMessage == "" && !showToast && cartAdds == []
    {
      addedToCartId := None;
      toastMessage := "";
      showToast := false;
      cartAdds := [];
    }

    /** `handleAddToCart(product)`: a free product starts a download; any other goes to the cart. */
    method HandleAddToCart(product: Product)
      requires Valid()
      modifies this
      ensures Valid()
      ensures showToast
      ensures product.price == 0.0 ==>
        toastMessage == MsgFreeDownload && cartAdds == old(cartAdds) && addedToCartId == old(addedToCartId)
      ensures product.price != 0.0 ==>
        && cartAdds == old(cartAdds) + [CartProduct(product.id, product.title, product.price, product.image, product.productType)]
        && addedToCartId == Some(product.id)
        && toastMessage == AddedMessage(product.title)
    {
      if product.price == 0.0 {
        toastMessage := MsgFreeDownload;
        showToast := true;
        return;
      }
      cartAdds := cartAdds + [CartProduct(product.id, product.title, product.price, product.image, product.productType)];
      addedToCartId := Some(product.id);
      toastMessage := AddedMessage(product.title);
      showToast := true;
      assert cartAdds[|cartAdds| - 1].id == product.id;
    }
  }

  /** Clicking a free product and then a paid one adds only the paid one. */
  method FreeThenPaid(free: Product, paid: Product) returns (store: Store)
    requires free.price == 0.0 && paid.price != 0.0
    ensures |store.cartAdds| == 1 && store.cartAdds[0].id == paid.id
    ensures store.addedToCartId == Some(paid.id) && store.toastMessage == AddedMessage(paid.title)
  {
    store := new Store();
    store.HandleAddToCart(free);
    store.HandleAddToCart(paid);
  }
}
