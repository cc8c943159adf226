/**
 * The admin page that lists, creates, edits and deletes restaurants
 * (component `ManageRestaurantsPage`).
 *
 * One form serves both creating and editing; `isEditing` and
 * `editingRestaurantId` say which. The server's answers are inputs: a save
 * either returns the stored record or fails, a delete either succeeds or
 * fails, and the list on screen changes only on success.
 */
module RestaurantsAdmin {
  import opened Wrappers
  import Seqs

  /** A stored restaurant as the endpoint returns it. */
  datatype Restaurant = Restaurant(id: string, name: string, location: string, openingTimes: string)

  /** The three inputs of the form. */
  datatype RestaurantForm = RestaurantForm(name: string, openingTimes: string, location: string)

  /** The `name` attribute of each input. */
  datatype FormField = Name | Location | OpeningTimes

  const EmptyForm: RestaurantForm := RestaurantForm("", "", "")

  /** `{ ...prev, [name]: value }`: only the named input changes. */
  function WithField(form: RestaurantForm, field: FormField, value: string): (r: RestaurantForm)
    ensures field == Name ==> r.name == value && r.location == form.location && r.openingTimes == form.openingTimes
    ensures field == Location ==> r.location == value && r.name == form.name && r.openingTimes == form.openingTimes
    ensures field == OpeningTimes ==> r.openingTimes == value && r.name == form.name && r.location == form.location
  {
    match field
    case Name => form.(name := value)
    case Location => form.(location := value)
    case OpeningTimes => form.(openingTimes := value)
  }

  /** `list.map(r => r._id === id ? saved : r)`: every entry with the id replaced, the rest untouched. */
  function ReplaceById(list: seq<Restaurant>, id: string, saved: Restaurant): (r: seq<Restaurant>)
    ensures |r| == |list|
    ensures forall i :: 0 <= i < |list| ==> r[i] == if list[i].id == id then saved else list[i]
  {
    Seqs.Map(list, (x: Restaurant) => if x.id == id then saved else x)
  }

  /** `list.filter(r => r._id !== id)`. */
  function RemoveById(list: seq<Restaurant>, id: string): (r: seq<Restaurant>)
    ensures forall i :: 0 <= i < |r| ==> r[i].id != id && r[i] in list
    ensures forall i :: 0 <= i < |list| && list[i].id != id ==> list[i] in r
  {
    Seqs.Filter(list, (x: Restaurant) => x.id != id)
  }

  /** Removal keeps the remaining restaurants in order: it works piecewise on any split. */
  lemma RemoveByIdKeepsOrder(a: seq<Restaurant>, b: seq<Restaurant>, id: string)
    ensures RemoveById(a + b, id) == RemoveById(a, id) + RemoveById(b, id)
  {
    Seqs.FilterAppend(a, b, (x: Restaurant) => x.id != id);
  }

  /** Deleting an id that is not listed leaves the list as it is. */
  lemma RemoveByIdAbsent(list: seq<Restaurant>, id: string)
    requires forall i :: 0 <= i < |list| ==> list[i].id != id
    ensures RemoveById(list, id) == list
  {
    Seqs.FilterKeepsAll(list, (x: Restaurant) => x.id != id);
  }

  /** Replacing an id that is not listed leaves the list as it is. */
  lemma ReplaceByIdAbsent(list: seq<Restaurant>, id: string, saved: Restaurant)
    requires forall i :: 0 <= i < |list| ==> list[i].id != id
    ensures ReplaceById(list, id, saved) == list
  {
  }

  /** The request a save sends. */
  datatype SaveRequest = SaveRequest(verb: string, url: string)

  /**
   * A save in flight: the edit mode, edited id and list as they were when it
   * was submitted, and the request sent.
   */
  datatype PendingSave = PendingSave(isEditing: bool, editingId: Option<string>,
                                     listAtSubmit: seq<Restaurant>, request: SaveRequest)

  /** An edit in flight has a target. */
  predicate PendingValid(p: PendingSave) {
    p.isEditing ==> p.editingId.Some?
  }

  /** A delete in flight: the id and the list as it was when the delete was clicked. */
  datatype PendingDelete = PendingDelete(id: string, listAtRequest: seq<Restaurant>)

  /**
   * Two deletes started from the same list and both answered: the second
   * answer filters the list it captured, so the entry the first one removed
   * is on screen again, although a sequential filter would have removed both.
   */
  lemma OverlappingDeletesRestoreFirst(list: seq<Restaurant>, id1: string, id2: string, i: nat)
    requires i < |list| && list[i].id == id1 && id1 != id2
    ensures list[i] in RemoveById(list, id2)
    ensures list[i] !in RemoveById(RemoveById(list, id1), id2)
  {
  }

  /** The server's answer to a save. */
  datatype SaveOutcome = Saved(record: Restaurant) | SaveFailed

  class ManageRestaurantsPage {
    var restaurants: seq<Restaurant>
    var newRestaurant: RestaurantForm
    var isEditing: bool
    var editingRestaurantId: Option<string>

    /** Editing always has a target: a PUT never goes to `/api/restaurants/null`. */
    ghost predicate Valid()
      reads this
    {
      isEditing ==> editingRestaurantId.Some?
    }

    constructor ()
      ensures Valid()
      ensures restaurants == [] && newRestaurant == EmptyForm && !isEditing && editingRestaurantId.None?
    {
      restaurants := [];
      newRestaurant := EmptyForm;
      isEditing := false;
      editingRestaurantId := None;
    }

    /** The list arrived from the endpoint. */
    method RestaurantsLoaded(data: seq<Restaurant>)
      requires Valid()
      modifies this`restaurants
      ensures Valid() && restaurants == data
    {
      restaurants := data;
    }

    /** `handleInputChange`. */
    method HandleInputChange(field: FormField, value: string)
      requires Valid()
      modifies this`newRestaurant
      ensures Valid() && newRestaurant == WithField(old(newRestaurant), field, value)
    {
      newRestaurant := WithField(newRestaurant, field, value);
    }

    /** Where a save goes: PUT to the edited restaurant, or POST to the collection. */
    function Request(): (r: SaveRequest)
      requires Valid()
      reads this
      ensures r.verb == "PUT" <==> isEditing
      ensures r.verb == "POST" <==> !isEditing
      ensures isEditing ==> r.url == "/api/restaurants/" + editingRestaurantId.value
      ensures !isEditing ==> r.url == "/api/restaurants"
    {
      if isEditing then SaveRequest("PUT", "/api/restaurants/" + editingRestaurantId.value)
      else SaveRequest("POST", "/api/restaurants")
    }

    /**
     * `handleSubmit` up to the request: nothing changes yet; the request and
     * the values the answer handler will use are captured now.
     */
    method Submit() returns (pending: PendingSave)
      requires Valid()
      ensures pending == PendingSave(isEditing, editingRestaurantId, restaurants, Request())
      ensures PendingValid(pending)
    {
      pending := PendingSave(isEditing, editingRestaurantId, restaurants, Request());
    }

    /**
     * `handleSubmit` once the server has answered. An edit replaces the
     * entries with the captured id in the list as it is now (a functional
     * update); a creation appends to the list captured at submission. Then
     * the form empties and edit mode ends, while `editingRestaurantId` is
     * left as it is. On failure nothing changes.
     */
    method SubmitAnswered(pending: PendingSave, outcome: SaveOutcome)
      requires Valid() && PendingValid(pending)
      modifies this`restaurants, this`newRestaurant, this`isEditing
      ensures Valid()
      ensures outcome.SaveFailed? ==>
                restaurants == old(restaurants) && newRestaurant == old(newRestaurant) && isEditing == old(isEditing)
      ensures outcome.Saved? && pending.isEditing ==>
                restaurants == ReplaceById(old(restaurants), pending.editingId.value, outcome.record)
      ensures outcome.Saved? && !pending.isEditing ==> restaurants == pending.listAtSubmit + [outcome.record]
      ensures outcome.Saved? ==> newRestaurant == EmptyForm && !isEditing
    {
      if outcome.Saved? {
        var savedRestaurant := outcome.record;
        if pending.isEditing {
          restaurants := ReplaceById(restaurants, pending.editingId.value, savedRestaurant);
        } else {
          restaurants := pending.listAtSubmit + [savedRestaurant];
        }
        newRestaurant := EmptyForm;
        isEditing := false;
      }
    }

    /** `handleDelete` up to the request: the list it will filter is the one on screen now. */
    method Delete(id: string) returns (pending: PendingDelete)
      ensures pending == PendingDelete(id, restaurants)
    {
      pending := PendingDelete(id, restaurants);
    }

    /** `handleDelete` once the server has answered: the captured list without the id, or no change. */
    method DeleteAnswered(pending: PendingDelete, ok: bool)
      requires Valid()
      modifies this`restaurants
      ensures Valid()
      ensures ok ==> restaurants == RemoveById(pending.listAtRequest, pending.id)
      ensures !ok ==> restaurants == old(restaurants)
    {
      if ok {
        restaurants := RemoveById(pending.listAtRequest, pending.id);
      }
    }

    /** `handleEdit`: load the restaurant into the form and enter edit mode for its id. */
    method HandleEdit(restaurant: Restaurant)
      requires Valid()
      modifies this
      ensures Valid()
      ensures newRestaurant == RestaurantForm(restaurant.name, restaurant.openingTimes, restaurant.location)
      ensures isEditing && editingRestaurantId == Some(restaurant.id)
      ensures restaurants == old(restaurants)
    {
      newRestaurant := RestaurantForm(restaurant.name, restaurant.openingTimes, restaurant.location);
      isEditing := true;
      editingRestaurantId := Some(restaurant.id);
    }

    /** `handleCancelEdit`: empty form, not editing, no id. */
    method HandleCancelEdit()
      requires Valid()
      modifies this
      ensures Valid()
      ensures newRestaurant == EmptyForm && !isEditing && editingRestaurantId.None?
      ensures restaurants == old(restaurants)
    {
      newRestaurant := EmptyForm;
      isEditing := false;
      editingRestaurantId := None;
    }
  }
}
