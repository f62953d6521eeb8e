/**
 * The client's booking form state (a zustand store): `bookingData`, a partial update that is
 * spread over it, and a reset back to the initial form.
 */
module BookingStore {
  /** A JavaScript value held in the form; `Undefined` is a key set to `undefined`. */
  datatype Value = Text(s: string) | Number(n: real) | Null | Undefined | List(items: seq<Value>)

  /** `initialBookingState`. */
  const Initial: map<string, Value> := map[
    "name" := Text(""), "email" := Text(""), "phone" := Text(""), "country" := Text(""),
    "code" := Text(""), "selectedDate" := Null, "endDate" := Null, "message" := Text(""),
    "packageId" := Undefined, "price" := Number(0.0), "adults" := Number(1.0),
    "children" := Number(0.0), "addons" := List([])]

  /** `{ ...state, ...data }`: every key of either, the update's value winning. */
  function Spread(state: map<string, Value>, data: map<string, Value>): (r: map<string, Value>)
    ensures r.Keys == state.Keys + data.Keys
    ensures forall k :: k in data ==> r[k] == data[k]
    ensures forall k :: k in state && k !in data ==> r[k] == state[k]
  {
    state + data
  }

  class Store {
    var bookingData: map<string, Value>

    /** Every field of the initial form is always there (an update only adds or replaces keys). */
    predicate Valid()
      reads this
    {
      Initial.Keys <= bookingData.Keys
    }

    constructor ()
      ensures Valid() && bookingData == Initial
    {
      bookingData := Initial;
    }

    /** `setBookingData(data)`. */
    method SetBookingData(data: map<string, Value>)
      requires Valid()
      modifies this
      ensures Valid()
      ensures bookingData == Spread(old(bookingData), data)
    {
      bookingData := Spread(bookingData, data);
    }

    /** `resetBookingData()`. */
    method ResetBookingData()
      modifies this
      ensures Valid() && bookingData == Initial
    {
      bookingData := Initial;
    }
  }

  /** An empty update leaves the form as it was. */
  lemma EmptyUpdateKeepsState(state: map<string, Value>)
    ensures Spread(state, map[]) == state
  {
  }

  /** Applying the same update twice is applying it once. */
  lemma UpdateIsIdempotent(state: map<string, Value>, data: map<string, Value>)
    ensures Spread(Spread(state, data), data) == Spread(state, data)
  {
  }

  /** Two updates in a row are one update with the later values winning. */
  lemma UpdatesCompose(state: map<string, Value>, first: map<string, Value>, second: map<string, Value>)
    ensures Spread(Spread(state, first), second) == Spread(state, Spread(first, second))
  {
  }

  /** An update naming every field of the previous state replaces it entirely. */
  lemma FullUpdateReplaces(state: map<string, Value>, data: map<string, Value>)
    requires state.Keys <= data.Keys
    ensures Spread(state, data) == data
  {
  }

  /** The form after `setBookingData` has been called with each update in turn. */
  function Applied(state: map<string, Value>, updates: seq<map<string, Value>>): map<string, Value>
    decreases |updates|
  {
    if updates == [] then state
    else Spread(Applied(state, updates[..|updates| - 1]), updates[|updates| - 1])
  }

  /** Updates never remove a field: every key of the starting form is still there. */
  lemma {:induction false} AppliedKeepsKeys(state: map<string, Value>, updates: seq<map<string, Value>>)
    ensures state.Keys <= Applied(state, updates).Keys
    decreases |updates|
  {
    if updates != [] {
      AppliedKeepsKeys(state, updates[..|updates| - 1]);
    }
  }

  /**
   * Whatever updates came before, the form held all of them spread over the initial form, and a
   * reset yields the form a newly created store starts from.
   */
  method ResetAfterUpdates(updates: seq<map<string, Value>>) returns (before: map<string, Value>, data: map<string, Value>)
    ensures before == Applied(Initial, updates) && Initial.Keys <= before.Keys
    ensures data == Initial
  {
    var store := new Store();
    var i := 0;
    while i < |updates|
      invariant 0 <= i <= |updates| && store.Valid()
      invariant store.bookingData == Applied(Initial, updates[..i])
    {
      store.SetBookingData(updates[i]);
      assert updates[..i + 1][..i] == updates[..i];
      i := i + 1;
    }
    assert updates[..i] == updates;
    before := store.bookingData;
    store.ResetBookingData();
    data := store.bookingData;
  }
}
