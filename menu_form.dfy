/**
 * The admin form for a menu item (component `MenuItemForm`).
 *
 * Besides plain text fields it keeps the list of restaurants the item is
 * sold in (a checkbox per restaurant toggles its id; the empty list means
 * "all restaurants") and derives the subcategory choices from the selected
 * category.
 */
module MenuForm {
  import opened Wrappers
  import Seqs

  // ---------------------------------------------------------------------------
  // Restaurant checkboxes

  /** `ids.filter(x => x !== id)`: every occurrence of `id` dropped. */
  function Without(ids: seq<string>, id: string): (r: seq<string>)
    ensures id !in r
    ensures forall x :: x != id ==> (x in r <==> x in ids)
  {
    Seqs.Filter(ids, (x: string) => x != id)
  }

  /** Removal keeps the other ids in their original order: it works piecewise on any split. */
  lemma WithoutKeepsOrder(a: seq<string>, b: seq<string>, id: string)
    ensures Without(a + b, id) == Without(a, id) + Without(b, id)
  {
    Seqs.FilterAppend(a, b, (x: string) => x != id);
  }

  /** Removing an id that is not there changes nothing. */
  lemma WithoutAbsent(ids: seq<string>, id: string)
    requires id !in ids
    ensures Without(ids, id) == ids
  {
    Seqs.FilterKeepsAll(ids, (x: string) => x != id);
  }

  /**
   * `handleRestaurantSelect`: a selected id is removed (all its occurrences),
   * any other id is appended. Only the toggled id changes membership.
   */
  function Toggle(selected: seq<string>, id: string): (r: seq<string>)
    ensures id in r <==> id !in selected
    ensures forall x :: x != id ==> (x in r <==> x in selected)
    ensures id !in selected ==> |r| == |selected| + 1 && r[..|selected|] == selected && r[|selected|] == id
    ensures id in selected ==> r == Without(selected, id)
  {
    if id in selected then Without(selected, id) else selected + [id]
  }

  /** Toggling an unselected id twice gives back the original list. */
  lemma ToggleTwice(selected: seq<string>, id: string)
    requires id !in selected
    ensures Toggle(Toggle(selected, id), id) == selected
  {
    WithoutKeepsOrder(selected, [id], id);
    WithoutAbsent(selected, id);
    assert Without([id], id) == [];
  }

  /** Toggling never introduces a duplicate into a duplicate-free list. */
  lemma ToggleKeepsDistinct(selected: seq<string>, id: string)
    requires Seqs.Distinct(selected)
    ensures Seqs.Distinct(Toggle(selected, id))
  {
    if id in selected {
      Seqs.FilterDistinct(selected, (x: string) => x != id);
    }
  }

  /** The "All Restaurants" box is ticked exactly when no restaurant's own box is. */
  predicate AllRestaurantsChecked(selected: seq<string>): (r: bool)
    ensures r <==> forall id :: id !in selected
  {
    if |selected| == 0 then true
    else
      // the first selected id is a ticked box
      assert selected[0] in selected;
      false
  }

  // ---------------------------------------------------------------------------
  // Categories

  datatype SubCategory = SubCategory(id: string, name: string)

  /** A category as the categories endpoint returns it; `subcategories` may be missing. */
  datatype Category = Category(id: string, name: string, subcategories: Option<seq<SubCategory>>)

  /** `categories.find(c => c._id === id)`. */
  function FindCategory(categories: seq<Category>, id: string): (r: Option<Category>)
    ensures r.Some? ==> r.value in categories && r.value.id == id
    ensures r.None? <==> forall k :: 0 <= k < |categories| ==> categories[k].id != id
    ensures r.Some? ==> exists i :: 0 <= i < |categories| && categories[i] == r.value
                                    && forall k :: 0 <= k < i ==> categories[k].id != id
  {
    Seqs.Find(categories, (c: Category) => c.id == id)
  }

  /**
   * The subcategory choices: those of the first category whose id is the
   * selected one, when it has any; otherwise none.
   */
  function DeriveSubCategories(category: string, categories: seq<Category>): (r: seq<SubCategory>)
    ensures category == "" ==> r == []
    ensures r != [] ==> exists i :: 0 <= i < |categories| && categories[i].id == category
                                    && categories[i].subcategories == Some(r)
  {
    if category != "" then
      match FindCategory(categories, category)
      case Some(selectedCategory) =>
        if selectedCategory.subcategories.Some? then selectedCategory.subcategories.value else []
      case None => []
    else []
  }

  /** With a category selected, the first category carrying its id decides; an unknown id gives none. */
  lemma DeriveSubCategoriesFirstMatch(category: string, categories: seq<Category>)
    requires category != ""
    ensures (forall k :: 0 <= k < |categories| ==> categories[k].id != category) ==>
              DeriveSubCategories(category, categories) == []
    ensures forall i :: 0 <= i < |categories| && categories[i].id == category
                        && (forall k :: 0 <= k < i ==> categories[k].id != category) ==>
              DeriveSubCategories(category, categories) == categories[i].subcategories.GetOr([])
  {
  }

  // ---------------------------------------------------------------------------
  // The form

  datatype PriceProp = PriceProp(name: string, price: string)

  /** A stored menu item being edited ("" and [] stand for missing fields). */
  datatype MenuItem = MenuItem(image: string, name: string, description: string, basePrice: string,
                               sizes: seq<PriceProp>, category: string, subcategory: string,
                               extraIngredientsPrices: seq<PriceProp>, restaurants: seq<string>)

  /** A new item: every field missing. */
  const NoItem: MenuItem := MenuItem("", "", "", "", [], "", "", [], [])

  /** What the form hands to `onSubmit`. */
  datatype Submission = Submission(image: string, name: string, description: string, basePrice: string,
                                   sizes: seq<PriceProp>, extraIngredientsPrices: seq<PriceProp>,
                                   category: string, subcategory: string, restaurants: seq<string>)

  class MenuItemForm {
    /** `menuItem?.subcategory || ""`, which every recomputation restores. */
    const editedSubcategory: string

    var image: string
    var name: string
    var description: string
    var basePrice: string
    var sizes: seq<PriceProp>
    var extraIngredientsPrices: seq<PriceProp>
    var category: string
    var subCategory: string
    var categories: seq<Category>
    var subCategories: seq<SubCategory>
    var selectedRestaurants: seq<string>

    /** The form starts from the edited item, or empty; the mount-time recomputation finds no categories yet. */
    constructor (menuItem: Option<MenuItem>)
      ensures var item := menuItem.GetOr(NoItem);
              && image == item.image && name == item.name && description == item.description
              && basePrice == item.basePrice && sizes == item.sizes
              && extraIngredientsPrices == item.extraIngredientsPrices
      ensures editedSubcategory == (if menuItem.Some? then menuItem.value.subcategory else "")
      ensures category == (if menuItem.Some? then menuItem.value.category else "")
      ensures selectedRestaurants == (if menuItem.Some? then menuItem.value.restaurants else [])
      ensures subCategory == editedSubcategory && categories == [] && subCategories == []
    {
      var item := menuItem.GetOr(NoItem);
      editedSubcategory := item.subcategory;
      image := item.image;
      name := item.name;
      description := item.description;
      basePrice := item.basePrice;
      sizes := item.sizes;
      extraIngredientsPrices := item.extraIngredientsPrices;
      category := item.category;
      subCategory := item.subcategory;
      categories := [];
      selectedRestaurants := item.restaurants;
      subCategories := [];
    }

    /** The effect on `category` and `categories`. */
    method RecomputeSubCategories()
      modifies this`subCategories, this`subCategory
      ensures subCategories == DeriveSubCategories(category, categories)
      ensures subCategory == editedSubcategory
    {
      if category != "" {
        var selectedCategory := FindCategory(categories, category);
        if selectedCategory.Some? && selectedCategory.value.subcategories.Some? {
          subCategories := selectedCategory.value.subcategories.value;
        } else {
          subCategories := [];
        }
      } else {
        subCategories := [];
      }
      subCategory := editedSubcategory;
    }

    /** The categories arrived from the endpoint. */
    method CategoriesLoaded(data: seq<Category>)
      modifies this`categories, this`subCategories, this`subCategory
      ensures categories == data
      ensures subCategories == DeriveSubCategories(category, data) && subCategory == editedSubcategory
    {
      categories := data;
      RecomputeSubCategories();
    }

    /** A category was picked; a different one re-derives the choices and resets the subcategory. */
    method SelectCategory(value: string)
      modifies this`category, this`subCategories, this`subCategory
      ensures category == value
      ensures value == old(category) ==> subCategories == old(subCategories) && subCategory == old(subCategory)
      ensures value != old(category) ==>
                subCategories == DeriveSubCategories(value, categories) && subCategory == editedSubcategory
    {
      if value != category {
        category := value;
        RecomputeSubCategories();
      }
    }

    /** A subcategory was picked. */
    method SelectSubCategory(value: string)
      modifies this`subCategory
      ensures subCategory == value
    {
      subCategory := value;
    }

    /** A restaurant checkbox. */
    method HandleRestaurantSelect(restaurantId: string)
      modifies this`selectedRestaurants
      ensures selectedRestaurants == Toggle(old(selectedRestaurants), restaurantId)
    {
      if restaurantId in selectedRestaurants {
        selectedRestaurants := Without(selectedRestaurants, restaurantId);
      } else {
        selectedRestaurants := selectedRestaurants + [restaurantId];
      }
    }

    /** The "All Restaurants" box: back to the empty list, which it then shows ticked. */
    method SelectAllRestaurants()
      modifies this`selectedRestaurants
      ensures selectedRestaurants == [] && AllRestaurantsChecked(selectedRestaurants)
    {
      selectedRestaurants := [];
    }

    /** The record passed to `onSubmit`. */
    function Submit(): (r: Submission)
      reads this
    {
      Submission(image, name, description, basePrice, sizes, extraIngredientsPrices,
                 category, subCategory, selectedRestaurants)
    }
  }
}
