/** The catalogue page: the sample products, the `selectedCategory` state field the
    category selector sets, and `filterProducts`. Prices are in cents. */
module ProductPage {
  import opened Seqs

  datatype Product = Product(id: int, name: string, price: int, category: string, subCategory: string)

  /** `productData` */
  const ProductData: seq<Product> := [
    Product(1, "Product 1", 1000, "Jewelry", "Earrings"),
    Product(2, "Product 2", 1500, "Jewelry", "Necklaces"),
    Product(3, "Product 3", 2000, "Jewelry", "Rings"),
    Product(4, "Product 4", 1200, "Gift Items", "Gift Hamper"),
    Product(5, "Product 5", 1800, "Gift Items", "Upcycled Decor"),
    Product(6, "Product 6", 2500, "Keepsakes", "Memory Books"),
    Product(7, "Product 7", 800, "Keepsakes", "Customized Keychains"),
    Product(8, "Product 8", 3000, "Keepsakes", "Personalized Photo Frames")
  ]

  predicate InSelection(product: Product, selected: string)
  {
    product.category == selected || product.subCategory == selected
  }

  /** `filterProducts` over `products` for the selection `selected`. */
  function FilterProducts(products: seq<Product>, selected: string): seq<Product>
  {
    if selected == "All" then products
    else Filter(products, (p: Product) => InSelection(p, selected))
  }

  /** "All" shows the whole list as it is. */
  lemma AllShowsEverything(products: seq<Product>)
    ensures FilterProducts(products, "All") == products
  {
  }

  /** Any other selection keeps the list's order and shows exactly the products whose
      category or subcategory is the selection, each as often as listed. */
  lemma FilterProductsExact(products: seq<Product>, selected: string, x: Product)
    requires selected != "All"
    ensures IsSubsequence(FilterProducts(products, selected), products)
    ensures multiset(FilterProducts(products, selected))[x] ==
      if x.category == selected || x.subCategory == selected then multiset(products)[x] else 0
  {
    FilterIsSubsequence(products, (p: Product) => InSelection(p, selected));
    FilterCount(products, (p: Product) => InSelection(p, selected), x);
  }

  /** A selection that no product has as category or subcategory shows nothing. */
  lemma NoMatchShowsNothing(products: seq<Product>, selected: string)
    requires selected != "All"
    requires forall i :: 0 <= i < |products| ==> !InSelection(products[i], selected)
    ensures FilterProducts(products, selected) == []
  {
    FilterKeepsNone(products, (p: Product) => InSelection(p, selected));
  }

  /** The "Bracelets" button of the selector shows an empty grid: no sample product has
      that subcategory. */
  lemma BraceletsShowNothing()
    ensures FilterProducts(ProductData, "Bracelets") == []
  {
    NoMatchShowsNothing(ProductData, "Bracelets");
  }

  /** The "Jewelry" tile shows the first three sample products. */
  lemma JewelryShowsFirstThree()
    ensures FilterProducts(ProductData, "Jewelry") == ProductData[..3]
  {
    var p := (q: Product) => InSelection(q, "Jewelry");
    assert ProductData == ProductData[..3] + ProductData[3..];
    assert forall i :: 0 <= i < 3 ==> p(ProductData[..3][i]);
    FilterKeepsAll(ProductData[..3], p);
    NoMatchShowsNothing(ProductData[3..], "Jewelry");
    FilterAppend(ProductData[..3], ProductData[3..], p);
  }

  /** The page's `selectedCategory` state. */
  class Catalogue {
    var selectedCategory: string

    constructor ()
      ensures selectedCategory == "All"
      ensures Visible() == ProductData
    {
      selectedCategory := "All";
    }

    /** The grid for the current selection. */
    function Visible(): seq<Product>
      reads this
    {
      FilterProducts(ProductData, selectedCategory)
    }

    /** The `onCategoryChange` callback. */
    method OnCategoryChange(category: string)
      modifies this
      ensures selectedCategory == category
      ensures Visible() == FilterProducts(ProductData, category)
    {
      selectedCategory := category;
    }
  }
}
