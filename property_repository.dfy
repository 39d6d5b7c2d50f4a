/** InMemoryPropertyRepository: three seeded owners whose property lists are
    edited in place, and one counter that hands out property ids. Owners are
    never added or removed here; only their lists change. */
module PropertyStore {
  import opened Domain
  import opened Seqs

  function PropertyFirst(): Property {
    Property(1, FLAT, "Prague", "Heroev Street 24", 70, 3, 500000.0,
             Date(2020, 4, 10), Date(2012, 1, 9), GOOD)
  }

  function PropertySecond(): Property {
    Property(2, HOUSE, "Prague", "Boris Niemcov Street 220", 150, 5, 750000.0,
             Date(2020, 4, 10), Date(2012, 1, 9), GOOD)
  }

  function PropertyThird(): Property {
    Property(3, OFFICE, "Prague", "Evropska 6", 300, 10, 1000000.0,
             Date(2023, 4, 10), Date(2023, 1, 9), GOOD)
  }

  /** The seeded owners 1, 2 and 3, each holding one property. */
  function SeedOwners(): seq<Owner> {
    [ Owner(1, "John", "Smith", 30, SINGLE, false, "johnsmith@gmail.com", "+456987123",
            Date(1994, 8, 9), 0.0, Some([PropertyFirst()])),
      Owner(2, "Linda", "Johnson", 31, MARRIED, true, "lindajohnson@gmail.com", "+789456147",
            Date(1993, 7, 17), 0.0, Some([PropertySecond()])),
      Owner(3, "Dan", "Kravets", 30, SINGLE, false, "DDD_JDK@gmail.com", "+784578457",
            Date(1994, 1, 31), 0.0, Some([PropertyThird()])) ]
  }

  /** The value the counter starts from, and is reset to by clear. */
  const INITIAL_COUNTER: int := 3

  /** The owner's property list; every owner of this store has one. */
  function Props(o: Owner): seq<Property> {
    if o.properties.Some? then o.properties.value else []
  }

  /** Every owner has a (non-null) property list. */
  ghost predicate ListsPresent(owners: seq<Owner>) {
    forall a :: 0 <= a < |owners| ==> owners[a].properties.Some?
  }

  /** The property ids of one list. */
  ghost function ListIds(props: seq<Property>): set<int> {
    set i | 0 <= i < |props| :: props[i].id
  }

  /** Property ids are unique across the whole store and none is above
      `bound`, so bound + 1 is free: within a list ids are distinct, and the
      id sets of two owners are disjoint. */
  ghost predicate IdsUnique(owners: seq<Owner>, bound: int) {
    && ListsPresent(owners)
    && (forall a :: 0 <= a < |owners| ==> DistinctKeys(Props(owners[a]), PropertyId))
    && (forall a :: 0 <= a < |owners| ==> forall x :: x in ListIds(Props(owners[a])) ==> x <= bound)
    && (forall a, b :: 0 <= a < |owners| && 0 <= b < |owners| && a != b ==>
          ListIds(Props(owners[a])) !! ListIds(Props(owners[b])))
  }

  /** The store after `p` is appended to the list of the first owner with
      that id; every other owner is unchanged. */
  function Appended(owners: seq<Owner>, ownerId: int, p: Property): (r: seq<Owner>)
    requires HasKey(owners, OwnerId, ownerId)
    ensures |r| == |owners|
    ensures var k := FirstIndex(owners, OwnerId, ownerId);
      && r[k] == owners[k].(properties := Some(Props(owners[k]) + [p]))
      && forall a :: 0 <= a < |r| && a != k ==> r[a] == owners[a]
  {
    var k := FirstIndex(owners, OwnerId, ownerId);
    owners[k := owners[k].(properties := Some(Props(owners[k]) + [p]))]
  }

  /** The fields update copies onto the stored property. */
  function EditFields(current: Property, incoming: Property): Property {
    current.(numberOfRooms := incoming.numberOfRooms, cost := incoming.cost,
             dateOfBecomingOwner := incoming.dateOfBecomingOwner)
  }

  /** The store after the first property with that id, in the list of the
      first owner with that id, takes the edited fields. */
  function Edited(owners: seq<Owner>, ownerId: int, propertyId: int, incoming: Property): (r: seq<Owner>)
    requires HasKey(owners, OwnerId, ownerId)
    requires HasKey(Props(owners[FirstIndex(owners, OwnerId, ownerId)]), PropertyId, propertyId)
  {
    var k := FirstIndex(owners, OwnerId, ownerId);
    var props := Props(owners[k]);
    var j := FirstIndex(props, PropertyId, propertyId);
    owners[k := owners[k].(properties := Some(props[j := EditFields(props[j], incoming)]))]
  }

  /** The store after every property with that id leaves the list of the
      first owner with that id. */
  function Removed(owners: seq<Owner>, ownerId: int, propertyId: int): (r: seq<Owner>)
    requires HasKey(owners, OwnerId, ownerId)
  {
    var k := FirstIndex(owners, OwnerId, ownerId);
    owners[k := owners[k].(properties := Some(FilterKey(Props(owners[k]), PropertyId, propertyId, false)))]
  }

  /** update changes one property of one owner, and only its number of
      rooms, cost and date of becoming owner: every list keeps its length
      and order, and every property keeps its id, type, address and size. */
  lemma {:induction false} EditedChangesOnlyThreeFields(owners: seq<Owner>, ownerId: int, propertyId: int, incoming: Property)
    requires ListsPresent(owners)
    requires HasKey(owners, OwnerId, ownerId)
    requires HasKey(Props(owners[FirstIndex(owners, OwnerId, ownerId)]), PropertyId, propertyId)
    ensures var r := Edited(owners, ownerId, propertyId, incoming);
      var k := FirstIndex(owners, OwnerId, ownerId);
      var j := FirstIndex(Props(owners[k]), PropertyId, propertyId);
      && |r| == |owners| && ListsPresent(r)
      && (forall a :: 0 <= a < |r| && a != k ==> r[a] == owners[a])
      && r[k] == owners[k].(properties := r[k].properties)
      && |Props(r[k])| == |Props(owners[k])|
      && (forall i :: 0 <= i < |Props(r[k])| && i != j ==> Props(r[k])[i] == Props(owners[k])[i])
      && Props(r[k])[j].id == propertyId
      && Props(r[k])[j] == Props(owners[k])[j].(numberOfRooms := incoming.numberOfRooms,
           cost := incoming.cost, dateOfBecomingOwner := incoming.dateOfBecomingOwner)
  {
  }

  lemma {:induction false} IdsUniqueWeaken(owners: seq<Owner>, bound: int, bound': int)
    requires IdsUnique(owners, bound) && bound <= bound'
    ensures IdsUnique(owners, bound')
  {
  }

  /** Giving one owner a list of distinct ids, all drawn from its old list,
      keeps ids unique. */
  lemma {:induction false} ReplacedListKeepsUnique(owners: seq<Owner>, k: int, q: seq<Property>, bound: int)
    requires IdsUnique(owners, bound) && 0 <= k < |owners|
    requires DistinctKeys(q, PropertyId) && ListIds(q) <= ListIds(Props(owners[k]))
    ensures IdsUnique(owners[k := owners[k].(properties := Some(q))], bound)
  {
    var r := owners[k := owners[k].(properties := Some(q))];
    assert Props(r[k]) == q;
    forall a | 0 <= a < |r| ensures ListIds(Props(r[a])) <= ListIds(Props(owners[a])) {
    }
  }

  /** Editing one property without touching its id keeps the list's ids. */
  lemma {:induction false} EditKeepsListIds(props: seq<Property>, j: int, e: Property)
    requires 0 <= j < |props| && e.id == props[j].id
    requires DistinctKeys(props, PropertyId)
    ensures ListIds(props[j := e]) == ListIds(props)
    ensures DistinctKeys(props[j := e], PropertyId)
  {
    var q := props[j := e];
    forall i, m | 0 <= i < m < |q| ensures PropertyId(q[i]) != PropertyId(q[m]) {
      assert q[i].id == props[i].id && q[m].id == props[m].id;
    }
    assert forall i :: 0 <= i < |q| ==> q[i].id == props[i].id;
  }

  /** Editing fields other than the id keeps the ids unique. */
  lemma {:induction false} EditedKeepsIdsUnique(owners: seq<Owner>, ownerId: int, propertyId: int, incoming: Property, bound: int)
    requires IdsUnique(owners, bound)
    requires HasKey(owners, OwnerId, ownerId)
    requires HasKey(Props(owners[FirstIndex(owners, OwnerId, ownerId)]), PropertyId, propertyId)
    ensures IdsUnique(Edited(owners, ownerId, propertyId, incoming), bound)
  {
    var k := FirstIndex(owners, OwnerId, ownerId);
    var props := Props(owners[k]);
    var j := FirstIndex(props, PropertyId, propertyId);
    EditKeepsListIds(props, j, EditFields(props[j], incoming));
    ReplacedListKeepsUnique(owners, k, props[j := EditFields(props[j], incoming)], bound);
  }

  /** Dropping properties keeps a subset of the ids. */
  lemma {:induction false} FilterKeyListIds(props: seq<Property>, propertyId: int)
    ensures ListIds(FilterKey(props, PropertyId, propertyId, false)) <= ListIds(props)
  {
    var q := FilterKey(props, PropertyId, propertyId, false);
    forall x | x in ListIds(q) ensures x in ListIds(props) {
      var i :| 0 <= i < |q| && q[i].id == x;
      assert q[i] in props;
      var m :| 0 <= m < |props| && props[m] == q[i];
    }
  }

  /** Removing properties keeps the ids unique. */
  lemma {:induction false} RemovedKeepsIdsUnique(owners: seq<Owner>, ownerId: int, propertyId: int, bound: int)
    requires IdsUnique(owners, bound)
    requires HasKey(owners, OwnerId, ownerId)
    ensures IdsUnique(Removed(owners, ownerId, propertyId), bound)
  {
    var k := FirstIndex(owners, OwnerId, ownerId);
    var props := Props(owners[k]);
    FilterKeyKeepsDistinct(props, PropertyId, propertyId, false);
    FilterKeyListIds(props, propertyId);
    ReplacedListKeepsUnique(owners, k, FilterKey(props, PropertyId, propertyId, false), bound);
  }

  /** Appending a property adds its id to the list's ids. */
  lemma {:induction false} AppendListIds(props: seq<Property>, p: Property)
    ensures ListIds(props + [p]) == ListIds(props) + {p.id}
  {
    var q := props + [p];
    assert forall i :: 0 <= i < |props| ==> q[i] == props[i];
    assert q[|props|] == p;
  }

  /** Giving one owner a list of distinct ids drawn from its old list and
      the fresh id bound + 1 keeps ids unique below the next bound. */
  lemma {:induction false} GrownListKeepsUnique(owners: seq<Owner>, k: int, q: seq<Property>, bound: int)
    requires IdsUnique(owners, bound) && 0 <= k < |owners|
    requires DistinctKeys(q, PropertyId) && ListIds(q) <= ListIds(Props(owners[k])) + {bound + 1}
    ensures IdsUnique(owners[k := owners[k].(properties := Some(q))], bound + 1)
  {
    var r := owners[k := owners[k].(properties := Some(q))];
    assert Props(r[k]) == q;
    forall a, b | 0 <= a < |r| && 0 <= b < |r| && a != b
      ensures ListIds(Props(r[a])) !! ListIds(Props(r[b]))
    {
      assert ListIds(Props(owners[a])) !! ListIds(Props(owners[b]));
      if a == k {
        assert bound + 1 !in ListIds(Props(owners[b]));
      } else if b == k {
        assert bound + 1 !in ListIds(Props(owners[a]));
      }
    }
  }

  /** A property whose id is above every id of a list of distinct ids can
      join it. */
  lemma {:induction false} AppendFreshDistinct(props: seq<Property>, p: Property, bound: int)
    requires DistinctKeys(props, PropertyId)
    requires forall x :: x in ListIds(props) ==> x <= bound
    requires p.id == bound + 1
    ensures DistinctKeys(props + [p], PropertyId)
  {
    var q := props + [p];
    forall i, j | 0 <= i < j < |q| ensures PropertyId(q[i]) != PropertyId(q[j]) {
      if j < |props| {
        assert PropertyId(props[i]) != PropertyId(props[j]);
      } else {
        assert props[i].id in ListIds(props);
      }
    }
  }

  /** A property numbered one past the bound can join any list without
      clashing: the intended numbering, where the counter is advanced before
      it is read. */
  lemma {:induction false} AppendedFreshKeepsIdsUnique(owners: seq<Owner>, ownerId: int, p: Property, bound: int)
    requires IdsUnique(owners, bound)
    requires HasKey(owners, OwnerId, ownerId)
    ensures IdsUnique(Appended(owners, ownerId, p.(id := bound + 1)), bound + 1)
  {
    var k := FirstIndex(owners, OwnerId, ownerId);
    var q := p.(id := bound + 1);
    var props := Props(owners[k]);
    AppendListIds(props, q);
    AppendFreshDistinct(props, q, bound);
    GrownListKeepsUnique(owners, k, props + [q], bound);
  }

  lemma {:induction false} ListIdsSingleton(p: Property)
    ensures ListIds([p]) == {p.id}
  {
    assert [p][0].id == p.id;
  }

  /** A store where every owner holds one property, with pairwise distinct
      ids none above the bound, has unique ids. */
  lemma {:induction false} SingletonsUnique(owners: seq<Owner>, bound: int)
    requires ListsPresent(owners)
    requires forall a :: 0 <= a < |owners| ==> |Props(owners[a])| == 1 && Props(owners[a])[0].id <= bound
    requires forall a, b :: 0 <= a < b < |owners| ==> Props(owners[a])[0].id != Props(owners[b])[0].id
    ensures IdsUnique(owners, bound)
  {
    forall a | 0 <= a < |owners| ensures ListIds(Props(owners[a])) == {Props(owners[a])[0].id} {
      assert Props(owners[a]) == [Props(owners[a])[0]];
      ListIdsSingleton(Props(owners[a])[0]);
    }
  }

  /** The seeded store: one property per owner, ids 1, 2 and 3. */
  lemma {:induction false} SeedIdsUnique()
    ensures IdsUnique(SeedOwners(), INITIAL_COUNTER)
  {
    var s := SeedOwners();
    assert Props(s[0])[0].id == 1 && Props(s[1])[0].id == 2 && Props(s[2])[0].id == 3;
    SingletonsUnique(s, INITIAL_COUNTER);
  }

  /** As written, the counter starts at 3 while the seeded OFFICE already
      has id 3: the id the first save hands out is taken, so saving a
      property for owner 3 leaves two properties with id 3 in one list. */
  lemma {:induction false} FirstSaveDuplicatesSeededId(p: Property)
    ensures IdsUnique(SeedOwners(), INITIAL_COUNTER)
    ensures HasKey(SeedOwners(), OwnerId, 3)
    ensures var r := Appended(SeedOwners(), 3, p.(id := INITIAL_COUNTER));
      |Props(r[2])| == 2 && Props(r[2])[0].id == Props(r[2])[1].id
      && !IdsUnique(r, INITIAL_COUNTER + 1)
  {
    SeedIdsUnique();
    var s := SeedOwners();
    assert OwnerId(s[2]) == 3;
    assert FirstIndex(s, OwnerId, 3) == 2 by {
      assert OwnerId(s[0]) != 3 && OwnerId(s[1]) != 3;
    }
    var r := Appended(s, 3, p.(id := INITIAL_COUNTER));
    assert Props(r[2]) == [PropertyThird(), p.(id := INITIAL_COUNTER)];
    assert PropertyId(Props(r[2])[0]) == PropertyId(Props(r[2])[1]);
  }

  /** remove, once the owner is found at index k: the store takes the
      filtered list at k, every list stays present, ids stay unique, and the
      list shrinks exactly when the id was in it. */
  lemma {:induction false} RemoveAt(owners: seq<Owner>, k: int, ownerId: int, propertyId: int, bound: int)
    requires ListsPresent(owners) && 0 <= k < |owners| && owners[k].id == ownerId
    requires FirstIndex(owners, OwnerId, ownerId) == k
    ensures var props := Props(owners[k]);
      var kept := FilterKey(props, PropertyId, propertyId, false);
      && Removed(owners, ownerId, propertyId) == owners[k := owners[k].(properties := Some(kept))]
      && ListsPresent(Removed(owners, ownerId, propertyId))
      && (|kept| != |props| <==> HasKey(props, PropertyId, propertyId))
      && (IdsUnique(owners, bound) ==> IdsUnique(Removed(owners, ownerId, propertyId), bound))
  {
    var props := Props(owners[k]);
    if HasKey(props, PropertyId, propertyId) {
      DropPresentKey(props, PropertyId, propertyId);
    } else {
      DropAbsentKey(props, PropertyId, propertyId);
    }
    if IdsUnique(owners, bound) {
      RemovedKeepsIdsUnique(owners, ownerId, propertyId, bound);
    }
  }

  /** update, once the owner is found at k and the property at j: the store
      takes the edited list at k, every list stays present and ids stay
      unique. */
  lemma {:induction false} EditAt(owners: seq<Owner>, k: int, j: int, ownerId: int, propertyId: int,
                                  incoming: Property, bound: int)
    requires ListsPresent(owners) && 0 <= k < |owners| && owners[k].id == ownerId
    requires FirstIndex(owners, OwnerId, ownerId) == k
    requires 0 <= j < |Props(owners[k])| && FirstIndex(Props(owners[k]), PropertyId, propertyId) == j
    ensures var props := Props(owners[k]);
      && Edited(owners, ownerId, propertyId, incoming) ==
           owners[k := owners[k].(properties := Some(props[j := EditFields(props[j], incoming)]))]
      && ListsPresent(Edited(owners, ownerId, propertyId, incoming))
      && (IdsUnique(owners, bound) ==> IdsUnique(Edited(owners, ownerId, propertyId, incoming), bound))
  {
    if IdsUnique(owners, bound) {
      EditedKeepsIdsUnique(owners, ownerId, propertyId, incoming, bound);
    }
  }

  /** save, once the owner is found at k: appending keeps every list
      present, and a property numbered one past the bound keeps ids unique. */
  lemma {:induction false} AppendAt(owners: seq<Owner>, k: int, ownerId: int, p: Property, bound: int)
    requires ListsPresent(owners) && 0 <= k < |owners| && owners[k].id == ownerId
    requires FirstIndex(owners, OwnerId, ownerId) == k
    ensures ListsPresent(Appended(owners, ownerId, p))
    ensures IdsUnique(owners, bound) ==> IdsUnique(Appended(owners, ownerId, p.(id := bound + 1)), bound + 1)
  {
    if IdsUnique(owners, bound) {
      AppendedFreshKeepsIdsUnique(owners, ownerId, p, bound);
    }
  }

  class InMemoryPropertyRepository {
    var owners: seq<Owner>
    var counter: int

    /** Every owner of this store has a property list: the seeds do, and the
        store only ever gives them lists. */
    ghost predicate Valid()
      reads this
    {
      ListsPresent(owners)
    }

    constructor()
      ensures Valid() && owners == SeedOwners() && counter == INITIAL_COUNTER
    {
      owners := SeedOwners();
      counter := INITIAL_COUNTER;
    }

    /** The list of the first owner with that id, or NoSuchOwner. */
    method GetAllProperties(ownerId: int) returns (r: Result<seq<Property>>)
      ensures HasKey(owners, OwnerId, ownerId) ==>
        r == Ok(Props(owners[FirstIndex(owners, OwnerId, ownerId)]))
      ensures !HasKey(owners, OwnerId, ownerId) ==> r == Err(NoSuchOwner)
    {
      for i := 0 to |owners|
        invariant forall j :: 0 <= j < i ==> owners[j].id != ownerId
      {
        if owners[i].id == ownerId {
          assert FirstIndex(owners, OwnerId, ownerId) == i;
          return Ok(Props(owners[i]));
        }
      }
      r := Err(NoSuchOwner);
    }

    /** The property takes id `counter`, the counter moves on, and only then
        is the owner looked up: an unknown owner raises NoSuchOwner with the
        counter already advanced. */
    method Save(ownerId: int, property: Property) returns (r: Result<bool>)
      requires Valid()
      modifies this
      ensures Valid()
      ensures counter == old(counter) + 1
      ensures HasKey(old(owners), OwnerId, ownerId) ==>
        r == Ok(true) && owners == Appended(old(owners), ownerId, property.(id := old(counter)))
      ensures !HasKey(old(owners), OwnerId, ownerId) ==>
        r == Err(NoSuchOwner) && owners == old(owners)
    {
      var id := counter;
      counter := counter + 1;
      var p := property.(id := id);
      for i := 0 to |owners|
        invariant owners == old(owners)
        invariant forall j :: 0 <= j < i ==> owners[j].id != ownerId
      {
        if owners[i].id == ownerId {
          assert FirstIndex(owners, OwnerId, ownerId) == i;
          owners := owners[i := owners[i].(properties := Some(Props(owners[i]) + [p]))];
          return Ok(true);
        }
      }
      r := Err(NoSuchOwner);
    }

    /** Save with the counter advanced before it is read (++counter): the
        new id is above every id in the store, so ids stay unique. */
    method SaveFresh(ownerId: int, property: Property) returns (r: Result<bool>)
      requires Valid()
      modifies this
      ensures Valid()
      ensures counter == old(counter) + 1
      ensures HasKey(old(owners), OwnerId, ownerId) ==>
        r == Ok(true) && owners == Appended(old(owners), ownerId, property.(id := counter))
      ensures !HasKey(old(owners), OwnerId, ownerId) ==>
        r == Err(NoSuchOwner) && owners == old(owners)
      ensures old(IdsUnique(owners, counter)) ==> IdsUnique(owners, counter)
    {
      counter := counter + 1;
      var p := property.(id := counter);
      var k := 0;
      while k < |owners| && owners[k].id != ownerId
        invariant 0 <= k <= |owners|
        invariant forall j :: 0 <= j < k ==> owners[j].id != ownerId
      {
        k := k + 1;
      }
      if k == |owners| {
        if IdsUnique(owners, old(counter)) {
          IdsUniqueWeaken(owners, old(counter), counter);
        }
        return Err(NoSuchOwner);
      }
      assert FirstIndex(owners, OwnerId, ownerId) == k;
      AppendAt(owners, k, ownerId, property, counter - 1);
      owners := Appended(owners, ownerId, p);
      r := Ok(true);
    }

    /** NoSuchOwner for an unknown owner, PropertyNotFound for an unknown
        property; otherwise the first matching property takes the new number
        of rooms, cost and date of becoming owner, and true is returned. */
    method Update(ownerId: int, propertyId: int, property: Property) returns (r: Result<bool>)
      requires Valid()
      modifies this`owners
      ensures Valid()
      ensures !HasKey(old(owners), OwnerId, ownerId) ==>
        r == Err(NoSuchOwner) && owners == old(owners)
      ensures HasKey(old(owners), OwnerId, ownerId) &&
              !HasKey(Props(old(owners)[FirstIndex(old(owners), OwnerId, ownerId)]), PropertyId, propertyId) ==>
        r == Err(PropertyNotFound) && owners == old(owners)
      ensures HasKey(old(owners), OwnerId, ownerId) &&
              HasKey(Props(old(owners)[FirstIndex(old(owners), OwnerId, ownerId)]), PropertyId, propertyId) ==>
        r == Ok(true) && owners == Edited(old(owners), ownerId, propertyId, property)
      ensures old(IdsUnique(owners, counter)) ==> IdsUnique(owners, counter)
    {
      var k := 0;
      while k < |owners| && owners[k].id != ownerId
        invariant 0 <= k <= |owners|
        invariant forall j :: 0 <= j < k ==> owners[j].id != ownerId
      {
        k := k + 1;
      }
      if k == |owners| {
        return Err(NoSuchOwner);
      }
      assert FirstIndex(owners, OwnerId, ownerId) == k;
      var props := Props(owners[k]);
      var j := 0;
      while j < |props| && props[j].id != propertyId
        invariant 0 <= j <= |props|
        invariant forall m :: 0 <= m < j ==> props[m].id != propertyId
      {
        j := j + 1;
      }
      if j == |props| {
        return Err(PropertyNotFound);
      }
      assert FirstIndex(props, PropertyId, propertyId) == j;
      EditAt(owners, k, j, ownerId, propertyId, property, counter);
      owners := owners[k := owners[k].(properties := Some(props[j := EditFields(props[j], property)]))];
      r := Ok(true);
    }

    /** Every property with that id leaves the owner's list; true iff one
        did. An unknown owner raises NoSuchOwner. */
    method Remove(ownerId: int, propertyId: int) returns (r: Result<bool>)
      requires Valid()
      modifies this`owners
      ensures Valid()
      ensures !HasKey(old(owners), OwnerId, ownerId) ==>
        r == Err(NoSuchOwner) && owners == old(owners)
      ensures HasKey(old(owners), OwnerId, ownerId) ==>
        && r == Ok(HasKey(Props(old(owners)[FirstIndex(old(owners), OwnerId, ownerId)]), PropertyId, propertyId))
        && owners == Removed(old(owners), ownerId, propertyId)
      ensures old(IdsUnique(owners, counter)) ==> IdsUnique(owners, counter)
    {
      for i := 0 to |owners|
        invariant owners == old(owners)
        invariant forall j :: 0 <= j < i ==> owners[j].id != ownerId
      {
        if owners[i].id == ownerId {
          assert FirstIndex(owners, OwnerId, ownerId) == i;
          RemoveAt(owners, i, ownerId, propertyId, counter);
          var props := Props(owners[i]);
          var kept := FilterKey(props, PropertyId, propertyId, false);
          owners := owners[i := owners[i].(properties := Some(kept))];
          return Ok(|kept| != |props|);
        }
      }
      r := Err(NoSuchOwner);
    }

    /** The counter goes back to 3 and every owner back to its one seeded
        property. */
    method Clear()
      modifies this
      ensures Valid() && owners == SeedOwners() && counter == INITIAL_COUNTER
    {
      counter := INITIAL_COUNTER;
      owners := SeedOwners();
    }
  }
}
