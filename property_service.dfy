/** PropertyService: checks an owner's request against the owner store and
    hands the work to a property repository. The property repository is an
    interface whose implementations are not part of this model, so each
    operation returns the call it makes on it (whose boolean answer the
    service passes back unchanged). The owner store is the wired
    InMemoryOwnerRealization; the service changes the stored owner through
    the reference findById hands out, and the model writes those changes
    back into the store. */
module PropertyServiceModel {
  import opened Domain
  import opened Seqs
  import opened OwnerStores
  import opened OwnerServiceModel

  /** A call on the PropertyRepository interface. */
  datatype PropertyCall =
    | FindAll(ownerId: int)
    | Save(owner: Owner, property: Property)
    | UpdateList(ownerId: int, properties: seq<Property>)

  /** getAll: the owner must exist. */
  function GetAllOutcome(found: Option<Owner>, ownerId: int): (r: Result<PropertyCall>)
    ensures r.Err? <==> found.None?
    ensures r.Err? ==> r.error == NoSuchOwner
    ensures r.Ok? ==> r.value == FindAll(ownerId)
  {
    if found.None? then Err(NoSuchOwner) else Ok(FindAll(ownerId))
  }

  /** add: a null property is refused before the owner is looked up; a null
      property list is replaced by an empty one before the save. */
  function AddOutcome(property: Option<Property>, found: Option<Owner>): Result<PropertyCall> {
    if property.None? then Err(PropertyNotFound)
    else if found.None? then Err(NoSuchOwner)
    else if found.value.properties.None? then Ok(Save(found.value.(properties := Some([])), property.value))
    else Ok(Save(found.value, property.value))
  }

  /** The four fields update copies onto the stored property. */
  function EditedProperty(current: Property, incoming: Property): Property {
    current.(city := incoming.city, address := incoming.address,
             numberOfRooms := incoming.numberOfRooms, propertyCondition := incoming.propertyCondition)
  }

  /** The list update hands to the repository: every property with another
      id, then the edited first match. */
  function WrittenList(props: seq<Property>, propertyId: int, incoming: Property): seq<Property>
    requires HasKey(props, PropertyId, propertyId)
  {
    var j := FirstIndex(props, PropertyId, propertyId);
    FilterKey(props, PropertyId, propertyId, false) + [EditedProperty(props[j], incoming)]
  }

  /** update: null property, then a missing owner, then a null list (the
      stream over it throws), then no property with that id. */
  function UpdateOutcome(property: Option<Property>, found: Option<Owner>, ownerId: int, propertyId: int)
    : Result<PropertyCall>
  {
    if property.None? then Err(PropertyNotFound)
    else if found.None? then Err(NoSuchOwner)
    else if found.value.properties.None? then Err(NullPointer)
    else if !HasKey(found.value.properties.value, PropertyId, propertyId) then Err(PropertyNotFound)
    else Ok(UpdateList(ownerId, WrittenList(found.value.properties.value, propertyId, property.value)))
  }

  /** remove: a missing owner, then a null list, then a filter that drops
      nothing. */
  function RemoveOutcome(found: Option<Owner>, ownerId: int, propertyId: int): Result<PropertyCall> {
    if found.None? then Err(NoSuchOwner)
    else if found.value.properties.None? then Err(NullPointer)
    else
      var filtered := FilterKey(found.value.properties.value, PropertyId, propertyId, false);
      if |filtered| == |found.value.properties.value| then Err(PropertyNotFound)
      else Ok(UpdateList(ownerId, filtered))
  }

  /** The store after add gives a stored owner without a list an empty one. */
  function WithEmptyList(owners: seq<Owner>, ownerId: int): seq<Owner>
    requires HasKey(owners, OwnerId, ownerId)
  {
    var k := FirstIndex(owners, OwnerId, ownerId);
    if owners[k].properties.None? then owners[k := owners[k].(properties := Some([]))] else owners
  }

  /** The store after update has edited the stored property in place. */
  function EditedInStore(owners: seq<Owner>, ownerId: int, propertyId: int, incoming: Property): seq<Owner>
    requires HasKey(owners, OwnerId, ownerId)
    requires Lookup(owners, ownerId).value.properties.Some?
    requires HasKey(Lookup(owners, ownerId).value.properties.value, PropertyId, propertyId)
  {
    var k := FirstIndex(owners, OwnerId, ownerId);
    var props := owners[k].properties.value;
    var j := FirstIndex(props, PropertyId, propertyId);
    owners[k := owners[k].(properties := Some(props[j := EditedProperty(props[j], incoming)]))]
  }

  // ---------------------------------------------------------------------
  // Properties of the outcomes

  /** add saves exactly when the property is present and the owner exists,
      and the saved owner always has a list, the stored one if it had one. */
  lemma {:induction false} AddOutcomeCases(property: Option<Property>, found: Option<Owner>)
    ensures AddOutcome(property, found).Ok? <==> property.Some? && found.Some?
    ensures property.None? ==> AddOutcome(property, found) == Err(PropertyNotFound)
    ensures property.Some? && found.None? ==> AddOutcome(property, found) == Err(NoSuchOwner)
    ensures AddOutcome(property, found).Ok? ==>
      var call := AddOutcome(property, found).value;
      && call.Save? && call.property == property.value
      && call.owner.properties.Some?
      && call.owner.id == found.value.id
      && (found.value.properties.Some? ==> call.owner == found.value)
  {
  }

  /** remove reports PropertyNotFound exactly when no property has the id;
      otherwise it writes the list without it. While ids are distinct that
      list is the old one with exactly the matching property taken out. */
  lemma {:induction false} RemoveOutcomeExact(owner: Owner, ownerId: int, propertyId: int)
    requires owner.properties.Some?
    ensures var props := owner.properties.value;
      && ((RemoveOutcome(Some(owner), ownerId, propertyId) == Err(PropertyNotFound)) <==>
            !HasKey(props, PropertyId, propertyId))
      && (HasKey(props, PropertyId, propertyId) ==>
            RemoveOutcome(Some(owner), ownerId, propertyId)
              == Ok(UpdateList(ownerId, FilterKey(props, PropertyId, propertyId, false))))
      && (HasKey(props, PropertyId, propertyId) && DistinctKeys(props, PropertyId) ==>
            var j := FirstIndex(props, PropertyId, propertyId);
            FilterKey(props, PropertyId, propertyId, false) == props[..j] + props[j + 1..])
  {
    var props := owner.properties.value;
    if HasKey(props, PropertyId, propertyId) {
      DropPresentKey(props, PropertyId, propertyId);
      if DistinctKeys(props, PropertyId) {
        DropUniqueKey(props, PropertyId, propertyId);
      }
    } else {
      DropAbsentKey(props, PropertyId, propertyId);
    }
  }

  /** The edit touches the four editable fields only: the id, type, area,
      cost and dates that the tax depends on or that identify it stay. */
  lemma {:induction false} EditedPropertyKeeps(current: Property, incoming: Property)
    ensures var e := EditedProperty(current, incoming);
      && e.id == current.id && e.propertyType == current.propertyType && e.square == current.square
      && e.cost == current.cost && e.dateOfBecomingOwner == current.dateOfBecomingOwner
      && e.dateOfBuilding == current.dateOfBuilding
      && e.city == incoming.city && e.address == incoming.address
      && e.numberOfRooms == incoming.numberOfRooms && e.propertyCondition == incoming.propertyCondition
  {
  }

  lemma {:induction false} SinglePropertyTax(p: Property, rates: seq<TaxRate>)
    requires |rates| == TAXES_RATE_NUMBER
    ensures BaseTax([p], rates) == PropertyTax(p, rates)
  {
    assert [p][..0] == [];
  }

  /** Taking one property out of a list lowers the base tax by its tax. */
  lemma {:induction false} BaseTaxWithout(props: seq<Property>, j: int, rates: seq<TaxRate>)
    requires |rates| == TAXES_RATE_NUMBER
    requires 0 <= j < |props|
    ensures BaseTax(props, rates) == BaseTax(props[..j] + props[j + 1..], rates) + PropertyTax(props[j], rates)
  {
    var before, p, after := props[..j], props[j], props[j + 1..];
    assert props == before + ([p] + after);
    BaseTaxAppend(before, [p] + after, rates);
    BaseTaxAppend([p], after, rates);
    SinglePropertyTax(p, rates);
    BaseTaxAppend(before, after, rates);
  }

  /** Appending a property with the same type and area as `p` adds p's tax. */
  lemma {:induction false} SnocSameTax(rest: seq<Property>, p: Property, e: Property, rates: seq<TaxRate>)
    requires |rates| == TAXES_RATE_NUMBER
    requires e.square == p.square && e.propertyType == p.propertyType
    ensures BaseTax(rest + [e], rates) == BaseTax(rest, rates) + PropertyTax(p, rates)
  {
    assert (rest + [e])[..|rest|] == rest;
  }

  /** While property ids are distinct, the list update writes has the same
      length and the same base tax as the owner's list: the edited property
      moves to the end, and nothing the tax depends on changes. */
  lemma {:induction false} WrittenListKeepsBaseTax(props: seq<Property>, propertyId: int, incoming: Property, rates: seq<TaxRate>)
    requires |rates| == TAXES_RATE_NUMBER
    requires DistinctKeys(props, PropertyId)
    requires HasKey(props, PropertyId, propertyId)
    ensures |WrittenList(props, propertyId, incoming)| == |props|
    ensures BaseTax(WrittenList(props, propertyId, incoming), rates) == BaseTax(props, rates)
  {
    var j := FirstIndex(props, PropertyId, propertyId);
    DropUniqueKey(props, PropertyId, propertyId);
    var rest := props[..j] + props[j + 1..];
    var e := EditedProperty(props[j], incoming);
    assert FilterKey(props, PropertyId, propertyId, false) == rest;
    assert WrittenList(props, propertyId, incoming) == FilterKey(props, PropertyId, propertyId, false) + [e];
    SnocSameTax(rest, props[j], e, rates);
    BaseTaxWithout(props, j, rates);
  }

  /** The in-place edit keeps the store invariant: no owner or property id
      changes, and every other owner is untouched. */
  lemma {:induction false} EditedInStoreKeepsInvariant(owners: seq<Owner>, oc: int, pc: int,
                                     ownerId: int, propertyId: int, incoming: Property)
    requires StoreInvariant(owners, oc, pc)
    requires HasKey(owners, OwnerId, ownerId)
    requires Lookup(owners, ownerId).value.properties.Some?
    requires HasKey(Lookup(owners, ownerId).value.properties.value, PropertyId, propertyId)
    ensures StoreInvariant(EditedInStore(owners, ownerId, propertyId, incoming), oc, pc)
    ensures var r := EditedInStore(owners, ownerId, propertyId, incoming);
      && |r| == |owners|
      && forall i :: 0 <= i < |r| ==>
           r[i].id == owners[i].id && (i != FirstIndex(owners, OwnerId, ownerId) ==> r[i] == owners[i])
  {
  }

  /** update, once the owner is found at k and the property at j: the
      outcome names the written list, and the store takes the edited
      property at j of owner k, keeping its invariant. */
  lemma {:induction false} UpdateAt(owners: seq<Owner>, oc: int, pc: int, k: int, j: int,
                                    ownerId: int, propertyId: int, incoming: Property)
    requires 0 <= k < |owners| && FirstIndex(owners, OwnerId, ownerId) == k
    requires owners[k].properties.Some?
    requires var props := owners[k].properties.value;
      0 <= j < |props| && FirstIndex(props, PropertyId, propertyId) == j
    ensures HasKey(owners, OwnerId, ownerId) && Lookup(owners, ownerId) == Some(owners[k])
    ensures HasKey(owners[k].properties.value, PropertyId, propertyId)
    ensures var props := owners[k].properties.value;
      && UpdateOutcome(Some(incoming), Some(owners[k]), ownerId, propertyId) ==
           Ok(UpdateList(ownerId, FilterKey(props, PropertyId, propertyId, false) + [EditedProperty(props[j], incoming)]))
      && EditedInStore(owners, ownerId, propertyId, incoming) ==
           owners[k := owners[k].(properties := Some(props[j := EditedProperty(props[j], incoming)]))]
    ensures StoreInvariant(owners, oc, pc) ==>
      StoreInvariant(EditedInStore(owners, ownerId, propertyId, incoming), oc, pc)
  {
    if StoreInvariant(owners, oc, pc) {
      EditedInStoreKeepsInvariant(owners, oc, pc, ownerId, propertyId, incoming);
    }
  }

  class PropertyService {
    const ownerRepository: InMemoryOwnerRealization

    constructor(ownerRepository: InMemoryOwnerRealization)
      ensures this.ownerRepository == ownerRepository
    {
      this.ownerRepository := ownerRepository;
    }

    method GetAll(ownerId: int) returns (r: Result<PropertyCall>)
      ensures r == GetAllOutcome(Lookup(ownerRepository.allOwners, ownerId), ownerId)
    {
      var owner := ownerRepository.FindById(ownerId);
      if owner.None? {
        return Err(NoSuchOwner);
      }
      r := Ok(FindAll(ownerId));
    }

    method Add(ownerId: int, property: Option<Property>) returns (r: Result<PropertyCall>)
      modifies ownerRepository`allOwners
      ensures r == AddOutcome(property, Lookup(old(ownerRepository.allOwners), ownerId))
      ensures r.Ok? ==> ownerRepository.allOwners == WithEmptyList(old(ownerRepository.allOwners), ownerId)
      ensures r.Err? ==> ownerRepository.allOwners == old(ownerRepository.allOwners)
      ensures old(ownerRepository.Valid()) ==> ownerRepository.allOwners == old(ownerRepository.allOwners)
    {
      if property.None? {
        return Err(PropertyNotFound);
      }
      var owner := ownerRepository.FindById(ownerId);
      if owner.None? {
        return Err(NoSuchOwner);
      }
      var stored := owner.value;
      if stored.properties.None? {
        // setProperties on the stored owner findById returned
        stored := stored.(properties := Some([]));
        var k := FirstIndex(ownerRepository.allOwners, OwnerId, ownerId);
        ownerRepository.allOwners := ownerRepository.allOwners[k := stored];
      }
      r := Ok(Save(stored, property.value));
    }

    method Update(ownerId: int, propertyId: int, property: Option<Property>) returns (r: Result<PropertyCall>)
      modifies ownerRepository`allOwners
      ensures var found := Lookup(old(ownerRepository.allOwners), ownerId);
        r == UpdateOutcome(property, found, ownerId, propertyId)
      ensures r.Ok? ==>
        ownerRepository.allOwners == EditedInStore(old(ownerRepository.allOwners), ownerId, propertyId, property.value)
      ensures r.Err? ==> ownerRepository.allOwners == old(ownerRepository.allOwners)
      ensures old(ownerRepository.Valid()) ==> ownerRepository.Valid()
    {
      if property.None? {
        return Err(PropertyNotFound);
      }
      var owner := ownerRepository.FindById(ownerId);
      if owner.None? {
        return Err(NoSuchOwner);
      }
      if owner.value.properties.None? {
        return Err(NullPointer);
      }
      var props := owner.value.properties.value;
      var j := 0;
      while j < |props| && props[j].id != propertyId
        invariant 0 <= j <= |props|
        invariant forall m :: 0 <= m < j ==> props[m].id != propertyId
      {
        j := j + 1;
      }
      if j == |props| {
        return Err(PropertyNotFound);
      }
      assert FirstIndex(props, PropertyId, propertyId) == j;
      var propertyToUpdate := props[j].(city := property.value.city, address := property.value.address,
        numberOfRooms := property.value.numberOfRooms, propertyCondition := property.value.propertyCondition);
      // the edit lands on the stored property findById exposed
      var k := FirstIndex(ownerRepository.allOwners, OwnerId, ownerId);
      UpdateAt(ownerRepository.allOwners, ownerRepository.ownerCounter, ownerRepository.propertyCounter,
        k, j, ownerId, propertyId, property.value);
      ownerRepository.allOwners := ownerRepository.allOwners[k := owner.value.(properties := Some(props[j := propertyToUpdate]))];
      var allProperties := FilterKey(props, PropertyId, propertyId, false) + [propertyToUpdate];
      r := Ok(UpdateList(ownerId, allProperties));
    }

    method Remove(ownerId: int, propertyId: int) returns (r: Result<PropertyCall>)
      ensures r == RemoveOutcome(Lookup(ownerRepository.allOwners, ownerId), ownerId, propertyId)
    {
      var owner := ownerRepository.FindById(ownerId);
      if owner.None? {
        return Err(NoSuchOwner);
      }
      if owner.value.properties.None? {
        return Err(NullPointer);
      }
      var filtered := FilterKey(owner.value.properties.value, PropertyId, propertyId, false);
      if |filtered| == |owner.value.properties.value| {
        return Err(PropertyNotFound);
      }
      r := Ok(UpdateList(ownerId, filtered));
    }
  }
}
