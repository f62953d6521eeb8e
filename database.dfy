/**
 * The MongoDB database behind the mongoose models: one map per collection from the lower-case
 * ObjectId string to the stored document, the connection state (`readyState === 1`), and the
 * two query shapes the handlers use, `find(filter)` and `find(filter).sort({ createdAt: -1 })`.
 */
module Database {
  import opened Wrappers
  import opened Text
  import opened Mongo
  import BookingModel
  import HotelModel
  import UserModel
  import StoreModel
  import LeadModel

  /** An id as the database stores it: 24 lower-case hex digits. */
  predicate StoredId(k: Id) {
    IsObjectId(k) && Lower(k) == k
  }

  class Db {
    var connected: bool
    var bookings: map<Id, BookingModel.Booking>
    var hotels: map<Id, HotelModel.Hotel>
    var users: map<Id, UserModel.User>
    var stores: map<Id, StoreModel.Store>
    var leads: map<Id, LeadModel.Lead>

    /** Every document is filed under its own id; store slugs are unique; user e-mails are unique. */
    predicate Valid()
      reads this
    {
      && BookingsFiled(bookings) && HotelsFiled(hotels) && UsersFiled(users) && StoresFiled(stores) && LeadsFiled(leads)
      && SlugsUnique(stores) && EmailsUnique(users)
    }

    constructor (connected: bool)
      ensures this.connected == connected
      ensures bookings == map[] && hotels == map[] && users == map[] && stores == map[] && leads == map[]
      ensures Valid()
    {
      this.connected := connected;
      bookings := map[];
      hotels := map[];
      users := map[];
      stores := map[];
      leads := map[];
    }

    /** `save` of a booking document: inserted, or replacing the one with its id. */
    method PutBooking(b: BookingModel.Booking)
      requires Valid() && StoredId(b.id)
      modifies this
      ensures Valid() && bookings == old(bookings)[b.id := b]
      ensures connected == old(connected) && hotels == old(hotels) && users == old(users)
      ensures stores == old(stores) && leads == old(leads)
    {
      bookings := bookings[b.id := b];
    }

    /** `deleteOne` on the bookings. */
    method DropBooking(k: Id)
      requires Valid()
      modifies this
      ensures Valid() && bookings == old(bookings) - {k}
      ensures connected == old(connected) && hotels == old(hotels) && users == old(users)
      ensures stores == old(stores) && leads == old(leads)
    {
      bookings := bookings - {k};
    }

    /** `save` of a hotel document: inserted, or replacing the one with its id. */
    method PutHotel(h: HotelModel.Hotel)
      requires Valid() && StoredId(h.id)
      modifies this
      ensures Valid() && hotels == old(hotels)[h.id := h]
      ensures connected == old(connected) && bookings == old(bookings) && users == old(users)
      ensures stores == old(stores) && leads == old(leads)
    {
      hotels := hotels[h.id := h];
    }

    /** `findByIdAndDelete` on the hotels. */
    method DropHotel(k: Id)
      requires Valid()
      modifies this
      ensures Valid() && hotels == old(hotels) - {k}
      ensures connected == old(connected) && bookings == old(bookings) && users == old(users)
      ensures stores == old(stores) && leads == old(leads)
    {
      hotels := hotels - {k};
    }

    /** `save` of a lead document. */
    method PutLead(l: LeadModel.Lead)
      requires Valid() && StoredId(l.id)
      modifies this
      ensures Valid() && leads == old(leads)[l.id := l]
      ensures connected == old(connected) && bookings == old(bookings) && hotels == old(hotels)
      ensures users == old(users) && stores == old(stores)
    {
      leads := leads[l.id := l];
    }

    /** `save` of a user document: inserted, or replacing the one with its id. */
    method PutUser(u: UserModel.User)
      requires Valid() && StoredId(u.id)
      requires forall k :: k in users && k != u.id ==> users[k].email != u.email
      modifies this
      ensures Valid() && users == old(users)[u.id := u]
      ensures connected == old(connected) && bookings == old(bookings) && hotels == old(hotels)
      ensures stores == old(stores) && leads == old(leads)
    {
      var after := users[u.id := u];
      forall j, j' | j in after && j' in after && j != j' ensures after[j].email != after[j'].email {
        if j == u.id {
          assert users[j'].email != u.email;
        } else if j' == u.id {
          assert users[j].email != u.email;
        }
      }
      users := after;
    }

    /** `save` of a store document: inserted, or replacing the one with its id. */
    method PutStore(s: StoreModel.Store)
      requires Valid() && StoredId(s.id)
      requires forall k :: k in stores && k != s.id ==> stores[k].slug != s.slug
      modifies this
      ensures Valid() && stores == old(stores)[s.id := s]
      ensures connected == old(connected) && bookings == old(bookings) && hotels == old(hotels)
      ensures users == old(users) && leads == old(leads)
    {
      var after := stores[s.id := s];
      forall j, j' | j in after && j' in after && j != j' ensures after[j].slug != after[j'].slug {
        if j == s.id {
          assert stores[j'].slug != s.slug;
        } else if j' == s.id {
          assert stores[j].slug != s.slug;
        }
      }
      stores := after;
    }
  }

  predicate BookingsFiled(m: map<Id, BookingModel.Booking>) {
    forall k :: k in m ==> StoredId(k) && m[k].id == k
  }

  predicate HotelsFiled(m: map<Id, HotelModel.Hotel>) {
    forall k :: k in m ==> StoredId(k) && m[k].id == k
  }

  predicate UsersFiled(m: map<Id, UserModel.User>) {
    forall k :: k in m ==> StoredId(k) && m[k].id == k
  }

  predicate StoresFiled(m: map<Id, StoreModel.Store>) {
    forall k :: k in m ==> StoredId(k) && m[k].id == k
  }

  predicate LeadsFiled(m: map<Id, LeadModel.Lead>) {
    forall k :: k in m ==> StoredId(k) && m[k].id == k
  }

  predicate SlugsUnique(m: map<Id, StoreModel.Store>) {
    forall k, k' :: k in m && k' in m && k != k' ==> m[k].slug != m[k'].slug
  }

  predicate EmailsUnique(m: map<Id, UserModel.User>) {
    forall k, k' :: k in m && k' in m && k != k' ==> m[k].email != m[k'].email
  }

  /** Deleting a document just inserted under a fresh id gives back the collection as it was. */
  lemma PutThenDrop<T>(m: map<Id, T>, k: Id, v: T)
    requires k !in m
    ensures m[k := v] - {k} == m
  {
    assert (m[k := v] - {k}).Keys == m.Keys;
  }

  /** Distinct ids, every one of them a key of `m`. */
  ghost predicate Distinct(ids: seq<Id>) {
    forall i, j :: 0 <= i < j < |ids| ==> ids[i] != ids[j]
  }

  /** `ids` lists exactly the documents of `m` the filter keeps. */
  ghost predicate Selects<T>(m: map<Id, T>, keep: T -> bool, ids: seq<Id>) {
    Distinct(ids) && forall k :: k in ids <==> k in m && keep(m[k])
  }

  /** Newest first by `createdAt`. */
  ghost predicate NewestFirst<T>(m: map<Id, T>, createdAt: T -> int, ids: seq<Id>)
    requires AllIn(m, ids)
  {
    forall i, j :: 0 <= i < j < |ids| ==> createdAt(m[ids[i]]) >= createdAt(m[ids[j]])
  }

  /** `find(filter)`: the matching documents, in an order the database chooses. */
  method Select<T>(m: map<Id, T>, keep: T -> bool) returns (ids: seq<Id>)
    ensures Selects(m, keep, ids)
  {
    var rest := m.Keys;
    ids := [];
    while rest != {}
      invariant rest <= m.Keys
      invariant Distinct(ids)
      invariant forall k :: k in ids <==> k in m && keep(m[k]) && k !in rest
      decreases |rest|
    {
      var k :| k in rest;
      rest := rest - {k};
      if keep(m[k]) {
        ids := ids + [k];
      }
    }
  }

  /** `findOne(filter)`: some document the filter keeps, or none when it keeps none. */
  method FindOne<T>(m: map<Id, T>, keep: T -> bool) returns (k: Option<Id>)
    ensures k.Some? ==> k.value in m && keep(m[k.value])
    ensures k.None? ==> forall j :: j in m ==> !keep(m[j])
  {
    var ids := Select(m, keep);
    if ids == [] {
      return None;
    }
    assert ids[0] in ids;
    k := Some(ids[0]);
  }

  ghost predicate AllIn<T>(m: map<Id, T>, ids: seq<Id>) {
    forall i :: 0 <= i < |ids| ==> ids[i] in m
  }

  /** Inserts `k` into a newest-first list, after every document at least as new. */
  method Insert<T>(m: map<Id, T>, createdAt: T -> int, ids: seq<Id>, k: Id) returns (r: seq<Id>, p: nat)
    requires k in m && AllIn(m, ids)
    requires NewestFirst(m, createdAt, ids)
    ensures p <= |ids| && r == ids[..p] + [k] + ids[p..]
    ensures AllIn(m, r) && NewestFirst(m, createdAt, r)
  {
    var c := createdAt(m[k]);
    var i := 0;
    while i < |ids| && createdAt(m[ids[i]]) >= c
      invariant 0 <= i <= |ids|
      invariant forall j :: 0 <= j < i ==> createdAt(m[ids[j]]) >= c
    {
      i := i + 1;
    }
    r, p := ids[..i] + [k] + ids[i..], i;
    assert forall b :: 0 <= b < i ==> r[b] == ids[b];
    assert r[i] == k;
    assert forall b :: i < b < |r| ==> r[b] == ids[b - 1];
    forall a, b | 0 <= a < b < |r|
      ensures createdAt(m[r[a]]) >= createdAt(m[r[b]])
    {
      if b > i && a == i {
        assert createdAt(m[ids[i]]) < c;
        assert createdAt(m[ids[i]]) >= createdAt(m[ids[b - 1]]) || b - 1 == i;
      }
    }
  }

  /** Inserting a new id into a list of distinct ids keeps them distinct and adds just that id. */
  lemma InsertedDistinct(ids: seq<Id>, k: Id, p: nat)
    requires Distinct(ids) && k !in ids && p <= |ids|
    ensures Distinct(ids[..p] + [k] + ids[p..])
    ensures forall x :: x in ids[..p] + [k] + ids[p..] <==> x in ids || x == k
  {
    var r := ids[..p] + [k] + ids[p..];
    InsertedAt(ids, k, p);
    forall x ensures x in r <==> x in ids || x == k {
      if x in r {
        var i :| 0 <= i < |r| && r[i] == x;
        if i < p {
          assert x == ids[i];
        } else if i > p {
          assert x == ids[i - 1];
        }
      }
      if x in ids {
        var i :| 0 <= i < |ids| && ids[i] == x;
        if i < p {
          assert r[i] == x;
        } else {
          assert r[i + 1] == x;
        }
      }
      if x == k {
        assert r[p] == k;
      }
    }
    forall a, b | 0 <= a < b < |r| ensures r[a] != r[b] {
      if a != p && b != p {
        var ia := if a < p then a else a - 1;
        var ib := if b < p then b else b - 1;
        assert r[a] == ids[ia] && r[b] == ids[ib] && ia < ib;
      }
    }
  }

  /** Where each element of `ids[..p] + [k] + ids[p..]` comes from. */
  lemma InsertedAt(ids: seq<Id>, k: Id, p: nat)
    requires p <= |ids|
    ensures var r := ids[..p] + [k] + ids[p..];
            && |r| == |ids| + 1 && r[p] == k
            && (forall i :: 0 <= i < p ==> r[i] == ids[i])
            && (forall i :: p < i < |r| ==> r[i] == ids[i - 1])
  {
  }

  /** `find(filter).sort({ createdAt: -1 })`: the matching documents, newest first (ties in any order). */
  method Newest<T>(m: map<Id, T>, keep: T -> bool, createdAt: T -> int) returns (ids: seq<Id>)
    ensures Selects(m, keep, ids)
    ensures AllIn(m, ids)
    ensures NewestFirst(m, createdAt, ids)
  {
    var rest := m.Keys;
    ids := [];
    while rest != {}
      invariant rest <= m.Keys
      invariant AllIn(m, ids)
      invariant Distinct(ids)
      invariant forall k :: k in ids <==> k in m && keep(m[k]) && k !in rest
      invariant NewestFirst(m, createdAt, ids)
      decreases |rest|
    {
      var k :| k in rest;
      rest := rest - {k};
      if keep(m[k]) {
        var longer, p := Insert(m, createdAt, ids, k);
        InsertedDistinct(ids, k, p);
        ids := longer;
      }
    }
  }

  /** A list of distinct ids has as many elements as the set of its elements. */
  lemma {:induction false} DistinctCount(ids: seq<Id>)
    requires Distinct(ids)
    ensures |set x | x in ids| == |ids|
  {
    if ids != [] {
      var rest := ids[1..];
      assert Distinct(rest) by {
        forall i, j | 0 <= i < j < |rest| ensures rest[i] != rest[j] {
          assert rest[i] == ids[i + 1] && rest[j] == ids[j + 1];
        }
      }
      DistinctCount(rest);
      assert ids[0] !in rest by {
        forall i | 0 <= i < |rest| ensures rest[i] != ids[0] {
          assert rest[i] == ids[i + 1];
        }
      }
      assert (set x | x in ids) == (set x | x in rest) + {ids[0]} by {
        assert ids == [ids[0]] + rest;
      }
    }
  }

  /** `countDocuments(filter)`: the number of documents the filter keeps is the length of a selection. */
  lemma SelectionCount<T>(m: map<Id, T>, keep: T -> bool, ids: seq<Id>, selected: set<Id>)
    requires Selects(m, keep, ids)
    requires forall k :: k in selected <==> k in m && keep(m[k])
    ensures |ids| == |selected|
  {
    DistinctCount(ids);
    assert (set x | x in ids) == selected;
  }

  /** The documents behind a list of ids. */
  function Docs<T>(m: map<Id, T>, ids: seq<Id>): (r: seq<T>)
    requires forall i :: 0 <= i < |ids| ==> ids[i] in m
    ensures |r| == |ids| && forall i :: 0 <= i < |ids| ==> r[i] == m[ids[i]]
  {
    seq(|ids|, i requires 0 <= i < |ids| => m[ids[i]])
  }

  /** `.limit(n)` on a query: at most n documents; a negative n gives at most -n (a single batch); 0 gives all. */
  function Take<T>(xs: seq<T>, n: int): (r: seq<T>)
    ensures n != 0 ==> |r| == Min(|xs|, Abs(n))
    ensures n == 0 ==> r == xs
    ensures r == xs[..|r|]
  {
    var k := if n == 0 then |xs| else Min(|xs|, Abs(n));
    xs[..k]
  }

  /** `.skip(s).limit(n)` after sorting. */
  function Window<T>(xs: seq<T>, skip: nat, n: int): (r: seq<T>)
    ensures skip >= |xs| ==> r == []
    ensures skip < |xs| ==> r == Take(xs[skip..], n)
  {
    if skip >= |xs| then [] else Take(xs[skip..], n)
  }

  function Min(a: int, b: int): int {
    if a <= b then a else b
  }

  function Abs(n: int): nat {
    if n < 0 then -n else n
  }

  /**
   * The documents a sorted, paged query returns: the `.skip(skip).limit(n)` window, read from `m`,
   * of an ordering of every document the filter keeps, greatest `order` first (ties in any order).
   */
  ghost predicate PageOf<T>(m: map<Id, T>, keep: T -> bool, order: T -> int, skip: nat, n: int, docs: seq<T>) {
    exists ids ::
      && Selects(m, keep, ids) && AllIn(m, ids) && NewestFirst(m, order, ids)
      && AllIn(m, Window(ids, skip, n)) && docs == Docs(m, Window(ids, skip, n))
  }

  /** The order of a query without `sort`: every document ties, so the database picks the order. */
  function Unordered<T>(x: T): int {
    0
  }

  /**
   * What a page holds: exactly as many documents as the window leaves of the matches, each stored
   * and kept, in order; on a first page, no match left out comes before a kept one.
   */
  lemma PageFacts<T>(m: map<Id, T>, keep: T -> bool, order: T -> int, skip: nat, n: int, docs: seq<T>, selected: set<Id>)
    requires PageOf(m, keep, order, skip, n, docs) && n != 0
    requires forall k :: k in selected <==> k in m && keep(m[k])
    ensures |docs| == if |selected| <= skip then 0 else Min(|selected| - skip, Abs(n))
    ensures forall i :: 0 <= i < |docs| ==> docs[i] in m.Values && keep(docs[i])
    ensures forall i, j :: 0 <= i < j < |docs| ==> order(docs[i]) >= order(docs[j])
    ensures skip == 0 ==>
              forall k :: k in selected && m[k] !in docs ==> forall i :: 0 <= i < |docs| ==> order(docs[i]) >= order(m[k])
    ensures skip == 0 && |docs| < Abs(n) ==> forall k :: k in selected ==> m[k] in docs
  {
    var ids :|
      && Selects(m, keep, ids) && AllIn(m, ids) && NewestFirst(m, order, ids)
      && AllIn(m, Window(ids, skip, n)) && docs == Docs(m, Window(ids, skip, n));
    SelectionCount(m, keep, ids, selected);
    WindowShift(ids, skip, n);
    WindowKept(m, keep, ids, skip, n);
    WindowOrdered(m, order, ids, skip, n);
    if skip == 0 {
      FirstWindowLeavesOlder(m, order, ids, n, selected);
      if |docs| < Abs(n) {
        forall k | k in selected ensures m[k] in docs {
          var j :| 0 <= j < |ids| && ids[j] == k;
          assert docs[j] == m[k];
        }
      }
    }
  }

  /** Every document of a window over a selection is stored and kept. */
  lemma WindowKept<T>(m: map<Id, T>, keep: T -> bool, ids: seq<Id>, skip: nat, n: int)
    requires Selects(m, keep, ids) && AllIn(m, Window(ids, skip, n))
    ensures var docs := Docs(m, Window(ids, skip, n));
            forall i :: 0 <= i < |docs| ==> docs[i] in m.Values && keep(docs[i])
  {
    var docs := Docs(m, Window(ids, skip, n));
    WindowShift(ids, skip, n);
    forall i | 0 <= i < |docs| ensures docs[i] in m.Values && keep(docs[i]) {
      var k := ids[skip + i];
      assert docs[i] == m[k] && k in ids;
    }
  }

  /** A window over an ordered list is ordered. */
  lemma WindowOrdered<T>(m: map<Id, T>, order: T -> int, ids: seq<Id>, skip: nat, n: int)
    requires AllIn(m, ids) && NewestFirst(m, order, ids) && AllIn(m, Window(ids, skip, n))
    ensures var docs := Docs(m, Window(ids, skip, n));
            forall i, j :: 0 <= i < j < |docs| ==> order(docs[i]) >= order(docs[j])
  {
    var docs := Docs(m, Window(ids, skip, n));
    WindowShift(ids, skip, n);
    forall i, j | 0 <= i < j < |docs| ensures order(docs[i]) >= order(docs[j]) {
      assert docs[i] == m[ids[skip + i]] && docs[j] == m[ids[skip + j]];
    }
  }

  /** Whatever the first window of an ordered selection leaves out comes after all it keeps. */
  lemma FirstWindowLeavesOlder<T>(m: map<Id, T>, order: T -> int, ids: seq<Id>, n: int, selected: set<Id>)
    requires AllIn(m, ids) && NewestFirst(m, order, ids) && AllIn(m, Window(ids, 0, n))
    requires forall k :: k in selected ==> k in ids
    ensures var docs := Docs(m, Window(ids, 0, n));
            forall k :: k in selected && m[k] !in docs ==> forall i :: 0 <= i < |docs| ==> order(docs[i]) >= order(m[k])
  {
    var w := Window(ids, 0, n);
    var docs := Docs(m, w);
    WindowShift(ids, 0, n);
    forall k | k in selected && m[k] !in docs ensures forall i :: 0 <= i < |docs| ==> order(docs[i]) >= order(m[k]) {
      var j :| 0 <= j < |ids| && ids[j] == k;
      assert j >= |w|;
      forall i | 0 <= i < |docs| ensures order(docs[i]) >= order(m[k]) {
        assert docs[i] == m[ids[i]];
      }
    }
  }

  /** The window starts `skip` places in and holds what the limit leaves of the rest. */
  lemma WindowShift<T>(xs: seq<T>, skip: nat, n: int)
    ensures var w := Window(xs, skip, n);
            && |w| == (if |xs| <= skip then 0 else if n == 0 then |xs| - skip else Min(|xs| - skip, Abs(n)))
            && forall i :: 0 <= i < |w| ==> skip + i < |xs| && w[i] == xs[skip + i]
  {
  }

  /** When distinct keys hold distinct documents, a page repeats no document. */
  lemma PageDistinct<T>(m: map<Id, T>, keep: T -> bool, order: T -> int, skip: nat, n: int, docs: seq<T>)
    requires PageOf(m, keep, order, skip, n, docs)
    requires forall k, k' :: k in m && k' in m && k != k' ==> m[k] != m[k']
    ensures forall i, j :: 0 <= i < j < |docs| ==> docs[i] != docs[j]
  {
    var ids :|
      && Selects(m, keep, ids) && AllIn(m, ids) && NewestFirst(m, order, ids)
      && AllIn(m, Window(ids, skip, n)) && docs == Docs(m, Window(ids, skip, n));
    var w := Window(ids, skip, n);
    forall i, j | 0 <= i < j < |docs| ensures docs[i] != docs[j] {
      assert w[i] == ids[skip + i] && w[j] == ids[skip + j];
    }
  }
}
