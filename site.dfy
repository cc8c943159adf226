/**
 * Facts that hold across components: the restaurant picker, the checkout
 * address table and the header agree on the three restaurants, and a menu
 * item saved from the new-item page reaches the store in the expected shape.
 */
module Site {
  import opened Wrappers
  import Seqs
  import Selector
  import Checkout
  import Header
  import MenuForm
  import MenuItemsRoute

  /** Every restaurant the picker offers has a pickup address at checkout. */
  lemma EveryPickableRestaurantHasAddress(i: nat)
    requires i < |Selector.Restaurants|
    ensures Checkout.GetRestaurantAddress(Some(Selector.Restaurants[i].id)).Some?
  {
    var id := Selector.Restaurants[i].id;
    if i == 0 {
      assert id == "tolvsrød";
    } else if i == 1 {
      assert id == "sentrum";
    } else {
      assert id == "teie";
    }
    Checkout.ToLowerKeepsLower(id);
    Checkout.RestaurantAddressKeys(id);
  }

  /**
   * Choosing a restaurant leads to a restaurant page of the header: shown,
   * and transparent exactly while the page is not scrolled.
   */
  lemma PickedRestaurantPageHasHeader(i: nat, isScrolled: bool)
    requires i < |Selector.Restaurants|
    ensures Header.IsRestaurantPage(Selector.PathFor(Selector.Restaurants[i].id))
    ensures !Header.ShouldHideHeader(Selector.PathFor(Selector.Restaurants[i].id))
    ensures Header.IsTransparent(Selector.PathFor(Selector.Restaurants[i].id), isScrolled) <==> !isScrolled
  {
    Selector.TablePaths();
    Header.PublicPagesShown();
  }

  function EncodePrice(p: MenuForm.PriceProp): MenuItemsRoute.Json {
    MenuItemsRoute.JObj(map["name" := MenuItemsRoute.JStr(p.name), "price" := MenuItemsRoute.JStr(p.price)])
  }

  function EncodeString(s: string): MenuItemsRoute.Json {
    MenuItemsRoute.JStr(s)
  }

  /** `JSON.stringify({ ...formData })` of the form's submission, as the endpoint parses it. */
  function EncodeSubmission(s: MenuForm.Submission): (r: MenuItemsRoute.Body)
    ensures r.Keys == {"image", "name", "description", "basePrice", "sizes", "extraIngredientsPrices",
                       "category", "subcategory", "restaurants"}
    ensures r["category"] == MenuItemsRoute.JStr(s.category)
    ensures r["subcategory"] == MenuItemsRoute.JStr(s.subcategory)
    ensures r["restaurants"].JArr? && |r["restaurants"].items| == |s.restaurants|
    ensures forall i :: 0 <= i < |s.restaurants| ==> r["restaurants"].items[i] == MenuItemsRoute.JStr(s.restaurants[i])
  {
    map[
      "image" := MenuItemsRoute.JStr(s.image),
      "name" := MenuItemsRoute.JStr(s.name),
      "description" := MenuItemsRoute.JStr(s.description),
      "basePrice" := MenuItemsRoute.JStr(s.basePrice),
      "sizes" := MenuItemsRoute.JArr(Seqs.Map(s.sizes, EncodePrice)),
      "extraIngredientsPrices" := MenuItemsRoute.JArr(Seqs.Map(s.extraIngredientsPrices, EncodePrice)),
      "category" := MenuItemsRoute.JStr(s.category),
      "subcategory" := MenuItemsRoute.JStr(s.subcategory),
      "restaurants" := MenuItemsRoute.JArr(Seqs.Map(s.restaurants, EncodeString))
    ]
  }

  /**
   * A new item posted from the form is created with its category and
   * subcategory exactly when they were chosen, converted; its restaurant
   * list arrives as the form held it, and "all restaurants" (the empty list)
   * stays empty.
   */
  lemma NewItemReachesStore(form: MenuForm.Submission, convert: MenuItemsRoute.Json -> MenuItemsRoute.Json)
    ensures var d := MenuItemsRoute.PostData(EncodeSubmission(form), convert);
            && ("category" in d <==> form.category != "")
            && (form.category != "" ==> d["category"] == convert(MenuItemsRoute.JStr(form.category)))
            && ("subcategory" in d <==> form.subcategory != "")
            && (form.subcategory != "" ==> d["subcategory"] == convert(MenuItemsRoute.JStr(form.subcategory)))
            && d["restaurants"] == EncodeSubmission(form)["restaurants"]
            && (MenuForm.AllRestaurantsChecked(form.restaurants) ==> d["restaurants"] == MenuItemsRoute.JArr([]))
  {
  }

  /** Updating with the form's body converts every selected restaurant id, in order, when none is empty. */
  lemma UpdatedItemRestaurants(form: MenuForm.Submission, convert: MenuItemsRoute.Json -> MenuItemsRoute.Json)
    requires forall i :: 0 <= i < |form.restaurants| ==> form.restaurants[i] != ""
    ensures var d := MenuItemsRoute.PutData(EncodeSubmission(form), convert);
            && d["restaurants"].JArr?
            && |d["restaurants"].items| == |form.restaurants|
            && forall i :: 0 <= i < |form.restaurants| ==>
                 d["restaurants"].items[i] == convert(MenuItemsRoute.JStr(form.restaurants[i]))
  {
    var ids := EncodeSubmission(form)["restaurants"].items;
    MenuItemsRoute.ConvertRestaurantIdsNoEmpty(ids, convert);
  }
}
