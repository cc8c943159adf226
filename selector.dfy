/**
 * The restaurant picker in the header (component `RestaurantSelector`).
 *
 * A fixed table of three restaurants; the shared selection (held by the
 * restaurant context), the restaurant shown on the button and whether the
 * picker dialog is open. Choosing a restaurant stores its id, shows it,
 * closes the dialog and navigates to the restaurant's page.
 */
module Selector {
  import opened Wrappers
  import Seqs

  datatype Restaurant = Restaurant(id: string, name: string, address: string, postalCode: string,
                                   phone: string, mapUrl: string)

  /** The restaurants offered in the picker, in display order. */
  const Restaurants: seq<Restaurant> := [
    Restaurant("tolvsrød", "TOLVSRØD", "Tolvsrød Torg 2", "3150 Tolvsrød", "+4748866907", "/tolvsrød.png"),
    Restaurant("sentrum", "SENTRUM", "Nedre Langgate 20", "3126 Tønsberg", "+4748866906", "/sentrum.png"),
    Restaurant("teie", "TEIE", "Smidsrødveien 1", "3120 Nøtterøy", "+4748866908", "/teie.png")
  ]

  /** No two restaurants in the table share an id. */
  lemma IdsDistinct()
    ensures forall i, j :: 0 <= i < j < |Restaurants| ==> Restaurants[i].id != Restaurants[j].id
  {
  }

  /** `restaurants.find(r => r.id === id)`. */
  function FindRestaurant(id: string): (r: Option<Restaurant>)
    ensures r.Some? ==> r.value in Restaurants && r.value.id == id
    ensures r.None? ==> forall k :: 0 <= k < |Restaurants| ==> Restaurants[k].id != id
  {
    Seqs.Find(Restaurants, (r: Restaurant) => r.id == id)
  }

  /** Looking up the id of a table entry finds that very entry. */
  lemma FindTableEntry(i: nat)
    requires i < |Restaurants|
    ensures FindRestaurant(Restaurants[i].id) == Some(Restaurants[i])
  {
    IdsDistinct();
  }

  /** The page a restaurant id navigates to; the one id with a non-ASCII letter gets an ASCII path. */
  function PathFor(id: string): (path: string)
    ensures |path| > 0 && path[0] == '/'
    ensures id != "tolvsrød" ==> path[1..] == id
  {
    "/" + (if id == "tolvsrød" then "tolvsrod" else id)
  }

  /** Every table entry navigates to its own ASCII page. */
  lemma TablePaths()
    ensures PathFor(Restaurants[0].id) == "/tolvsrod"
    ensures PathFor(Restaurants[1].id) == "/sentrum"
    ensures PathFor(Restaurants[2].id) == "/teie"
    ensures forall i, j :: 0 <= i < j < |Restaurants| ==> PathFor(Restaurants[i].id) != PathFor(Restaurants[j].id)
  {
  }

  class RestaurantSelector {
    /** The context's `selectedRestaurant` (`None` is `null`). */
    var selectedRestaurant: Option<string>
    /** The context has read its stored selection. */
    var isInitialized: bool
    var currentRestaurant: Option<Restaurant>
    var showPopup: bool

    constructor (selected: Option<string>, isInitialized: bool)
      ensures selectedRestaurant == selected && this.isInitialized == isInitialized
      ensures currentRestaurant.None? && !showPopup
    {
      selectedRestaurant := selected;
      this.isInitialized := isInitialized;
      currentRestaurant := None;
      showPopup := false;
    }

    /**
     * The effect on `isInitialized` and `selectedRestaurant`: once the context
     * is ready, no selection (`null` or "") opens the dialog, and a selection
     * shows the table entry with that id (none if the id is unknown).
     */
    method SyncWithSelection()
      modifies this
      ensures selectedRestaurant == old(selectedRestaurant) && isInitialized == old(isInitialized)
      ensures !isInitialized ==> currentRestaurant == old(currentRestaurant) && showPopup == old(showPopup)
      ensures isInitialized && (selectedRestaurant.None? || selectedRestaurant.value == "") ==>
                showPopup && currentRestaurant == old(currentRestaurant)
      ensures isInitialized && selectedRestaurant.Some? && selectedRestaurant.value != "" ==>
                currentRestaurant == FindRestaurant(selectedRestaurant.value) && showPopup == old(showPopup)
    {
      if isInitialized {
        if selectedRestaurant.None? || selectedRestaurant.value == "" {
          showPopup := true;
        } else {
          currentRestaurant := FindRestaurant(selectedRestaurant.value);
        }
      }
    }

    /**
     * `handleSelectRestaurant`: store the id, show the restaurant, close the
     * dialog and return the page to navigate to. The effect that follows the
     * new selection finds the same restaurant again.
     */
    method HandleSelectRestaurant(restaurant: Restaurant) returns (path: string)
      requires restaurant in Restaurants
      modifies this
      ensures selectedRestaurant == Some(restaurant.id)
      ensures currentRestaurant == Some(restaurant)
      ensures !showPopup && isInitialized == old(isInitialized)
      ensures path == PathFor(restaurant.id)
      ensures FindRestaurant(restaurant.id) == currentRestaurant
    {
      selectedRestaurant := Some(restaurant.id);
      currentRestaurant := Some(restaurant);
      showPopup := false;
      var restaurantPath := if restaurant.id == "tolvsrød" then "tolvsrod" else restaurant.id;
      path := "/" + restaurantPath;
      ghost var i :| 0 <= i < |Restaurants| && Restaurants[i] == restaurant;
      FindTableEntry(i);
    }

    /** The selector button: open or close the dialog, nothing else. */
    method TogglePopup()
      modifies this
      ensures showPopup == !old(showPopup)
      ensures selectedRestaurant == old(selectedRestaurant) && currentRestaurant == old(currentRestaurant)
      ensures isInitialized == old(isInitialized)
    {
      showPopup := !showPopup;
    }

    /** The dialog's own open/close request. */
    method SetPopupOpen(open: bool)
      modifies this
      ensures showPopup == open
      ensures selectedRestaurant == old(selectedRestaurant) && currentRestaurant == old(currentRestaurant)
      ensures isInitialized == old(isInitialized)
    {
      showPopup := open;
    }
  }
}
