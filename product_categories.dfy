/** The category selector above the catalogue: three tiles that toggle `activeCategory`,
    the subcategory buttons of the active tile, and the values each click hands to the
    `onCategoryChange` callback, kept here as the sequence of values emitted so far. */
module ProductCategories {
  import opened Seqs

  datatype Category = Category(name: string, subcategories: seq<string>)

  /** `categories` */
  const Categories: seq<Category> := [
    Category("Jewelry", ["Necklaces", "Bracelets", "Earrings", "Rings"]),
    Category("Gift Items", ["Reusable Bags", "Upcycled Decor", "Gift Hamper"]),
    Category("Keepsakes", ["Personalized Photo Frames", "Customized Keychains", "Engraved Wooden Plaques", "Memory Books"])
  ]

  /** `categoryName || "All"`: null and the empty string are falsy. */
  function Emitted(categoryName: Option<string>): (r: string)
    ensures r == "All" <==> categoryName == None || categoryName == Some("") || categoryName == Some("All")
    ensures r != "All" ==> categoryName == Some(r)
  {
    if categoryName == None || categoryName.value == "" then "All" else categoryName.value
  }

  /** What a click on tile `name` passes to `handleCategoryClick`. */
  function TileClickTarget(active: Option<string>, name: string): Option<string>
  {
    if active == Some(name) then None else Some(name)
  }

  /** Clicking the active tile clears the selection and emits "All"; clicking any other
      tile makes it the active one and emits its name. */
  lemma TileClickOutcome(active: Option<string>, i: int)
    requires 0 <= i < |Categories|
    ensures active == Some(Categories[i].name) ==>
      TileClickTarget(active, Categories[i].name) == None && Emitted(TileClickTarget(active, Categories[i].name)) == "All"
    ensures active != Some(Categories[i].name) ==>
      TileClickTarget(active, Categories[i].name) == Some(Categories[i].name)
      && Emitted(TileClickTarget(active, Categories[i].name)) == Categories[i].name
  {
  }

  /** Two clicks on the same tile from no selection come back to no selection, the second
      one emitting "All". */
  lemma DoubleClickRestores(i: int)
    requires 0 <= i < |Categories|
    ensures TileClickTarget(TileClickTarget(None, Categories[i].name), Categories[i].name) == None
    ensures Emitted(TileClickTarget(TileClickTarget(None, Categories[i].name), Categories[i].name)) == "All"
  {
  }

  /** Position of the first category called `name`, or `|cats|` when there is none. */
  function FindCategory(cats: seq<Category>, name: string): (k: nat)
    ensures k <= |cats|
    ensures k < |cats| ==> cats[k].name == name
    ensures forall j :: 0 <= j < k ==> cats[j].name != name
  {
    if cats == [] then 0 else if cats[0].name == name then 0 else 1 + FindCategory(cats[1..], name)
  }

  /** The subcategory buttons: none unless a tile is active, otherwise the subcategories of
      the category `find` returns for it. */
  function ShownSubcategories(active: Option<string>): seq<string>
  {
    if active == None || active.value == "" then []
    else
      var k := FindCategory(Categories, active.value);
      if k < |Categories| then Categories[k].subcategories else []
  }

  /** With tile `i` active its own subcategories are listed; with none active, nothing. */
  lemma ShownSubcategoriesExact(i: int)
    requires 0 <= i < |Categories|
    ensures ShownSubcategories(Some(Categories[i].name)) == Categories[i].subcategories
    ensures ShownSubcategories(None) == []
  {
    var k := FindCategory(Categories, Categories[i].name);
    assert k == i;
  }

  /** The selector's state, with the values handed to `onCategoryChange` so far. */
  class CategorySelector {
    var activeCategory: Option<string>
    var emitted: seq<string>

    constructor ()
      ensures activeCategory == None && emitted == []
    {
      activeCategory := None;
      emitted := [];
    }

    /** `handleCategoryClick(categoryName)` */
    method HandleCategoryClick(categoryName: Option<string>)
      modifies this
      ensures activeCategory == categoryName
      ensures emitted == old(emitted) + [Emitted(categoryName)]
    {
      var selectedCategory := if categoryName == None || categoryName.value == "" then "All" else categoryName.value;
      activeCategory := categoryName;
      emitted := emitted + [selectedCategory];
    }

    /** A click on tile `i`. */
    method ClickTile(i: int)
      requires 0 <= i < |Categories|
      modifies this
      ensures activeCategory == TileClickTarget(old(activeCategory), Categories[i].name)
      ensures emitted == old(emitted) + [Emitted(activeCategory)]
    {
      var name := Categories[i].name;
      HandleCategoryClick(if activeCategory == Some(name) then None else Some(name));
    }

    /** A click on one of the listed subcategory buttons. */
    method ClickSubcategory(subcategory: string)
      requires subcategory in ShownSubcategories(activeCategory)
      modifies this
      ensures activeCategory == old(activeCategory)
      ensures emitted == old(emitted) + [subcategory]
    {
      emitted := emitted + [subcategory];
    }
  }
}
