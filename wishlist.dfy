/** The wishlist page: the `wishlistItems` state field, the `removeFromWishlist`
    handler that replaces it, and the empty-list message. */
module WishlistPage {
  import opened Seqs

  datatype WishlistItem = WishlistItem(id: int, name: string, price: int, image: string)

  /** The list `removeFromWishlist(id)` produces: `items.filter(item => item.id !== id)`. */
  function WithoutId(items: seq<WishlistItem>, id: int): seq<WishlistItem>
  {
    Filter(items, (item: WishlistItem) => item.id != id)
  }

  /** Removal drops every item with the id and keeps the others, unchanged and in order;
      the list never grows. */
  lemma RemoveKeepsOthers(items: seq<WishlistItem>, id: int, x: WishlistItem)
    ensures |WithoutId(items, id)| <= |items|
    ensures IsSubsequence(WithoutId(items, id), items)
    ensures forall i :: 0 <= i < |WithoutId(items, id)| ==> WithoutId(items, id)[i].id != id
    ensures multiset(WithoutId(items, id))[x] == if x.id != id then multiset(items)[x] else 0
  {
    FilterIsSubsequence(items, (item: WishlistItem) => item.id != id);
    FilterCount(items, (item: WishlistItem) => item.id != id, x);
  }

  /** Removing the same id twice is removing it once. */
  lemma RemoveIdempotent(items: seq<WishlistItem>, id: int)
    ensures WithoutId(WithoutId(items, id), id) == WithoutId(items, id)
  {
    FilterIdempotent(items, (item: WishlistItem) => item.id != id);
  }

  /** An id no item has leaves the list as it is. */
  lemma RemoveAbsentId(items: seq<WishlistItem>, id: int)
    requires forall i :: 0 <= i < |items| ==> items[i].id != id
    ensures WithoutId(items, id) == items
  {
    FilterKeepsAll(items, (item: WishlistItem) => item.id != id);
  }

  /** The four demonstration items `wishlistItems` starts with. */
  const InitialItems: seq<WishlistItem> := [
    WishlistItem(1, "Handwoven Basket", 7999, "/api/placeholder/200/200"),
    WishlistItem(2, "Ceramic Plant Pot", 4599, "/api/placeholder/200/200"),
    WishlistItem(3, "Macrame Wall Hanging", 12999, "/api/placeholder/200/200"),
    WishlistItem(4, "Decorative Cushion Cover", 3499, "/api/placeholder/200/200")
  ]

  /** The page's `wishlistItems` state. */
  class Wishlist {
    var items: seq<WishlistItem>

    /** The four demonstration items the page starts with. */
    constructor ()
      ensures items == InitialItems
      ensures |items| == 4 && !ShowsEmptyMessage()
    {
      items := InitialItems;
    }

    /** `removeFromWishlist(id)` */
    method RemoveFromWishlist(id: int)
      modifies this
      ensures items == WithoutId(old(items), id)
    {
      items := WithoutId(items, id);
    }

    /** `wishlistItems.length === 0`: the "Your wishlist is empty" block is shown. */
    predicate ShowsEmptyMessage()
      reads this
    {
      |items| == 0
    }
  }

  /** The empty message appears after removing an id exactly when every item had that id. */
  lemma EmptyAfterRemoval(items: seq<WishlistItem>, id: int)
    ensures WithoutId(items, id) == [] <==> forall i :: 0 <= i < |items| ==> items[i].id == id
  {
    var r := WithoutId(items, id);
    if r != [] {
      assert r[0] in items;
    }
  }
}
