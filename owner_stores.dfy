/** The two in-memory owner stores: InMemoryOwnerRepository, which throws
    when an owner is missing, and InMemoryOwnerRealization (the variant the
    application wires), which returns null or false instead. Both keep the
    owners in a list and hand out ids from two counters: one for owners and
    one for properties. */
module OwnerStores {
  import opened Domain
  import opened Seqs

  /** The first stored owner with that id, if any. */
  function Lookup(owners: seq<Owner>, id: int): (r: Option<Owner>)
    ensures r.Some? <==> HasKey(owners, OwnerId, id)
    ensures r.Some? ==> r.value.id == id && r.value in owners
  {
    var k := FirstIndex(owners, OwnerId, id);
    if k < |owners| then Some(owners[k]) else None
  }

  /** The owners whose debt is strictly positive, in stored order. */
  function Debtors(owners: seq<Owner>): (r: seq<Owner>)
    ensures forall i :: 0 <= i < |r| ==> r[i] in owners && IsDebtor(r[i])
    ensures forall i :: 0 <= i < |owners| && IsDebtor(owners[i]) ==> owners[i] in r
  {
    Filter(owners, IsDebtor)
  }

  /** What update copies onto the stored owner: every field except id, age
      and birthday, with the property list already renumbered. */
  function Overwrite(current: Owner, incoming: Owner, props: seq<Property>): Owner {
    current.(firstName := incoming.firstName, lastName := incoming.lastName,
             familyStatus := incoming.familyStatus, hasChildren := incoming.hasChildren,
             email := incoming.email, phoneNumber := incoming.phoneNumber,
             taxesDebt := incoming.taxesDebt, properties := Some(props))
  }

  /** The owner list after update(id, incoming) with renumbered list `props`:
      the first owner with that id is overwritten; without one, nothing changes. */
  function UpdatedOwners(owners: seq<Owner>, id: int, incoming: Owner, props: seq<Property>): (r: seq<Owner>)
    ensures |r| == |owners|
    ensures forall i :: 0 <= i < |r| ==> r[i].id == owners[i].id
  {
    var k := FirstIndex(owners, OwnerId, id);
    if k < |owners| then owners[k := Overwrite(owners[k], incoming, props)] else owners
  }

  /** Every property id is below the next one to hand out. */
  predicate PropertyIdsBelow(props: seq<Property>, bound: int) {
    forall j :: 0 <= j < |props| ==> props[j].id < bound
  }

  /** What both stores maintain: owner ids are distinct and below
      ownerCounter; every stored owner has a property list (save and update
      throw on a null one), and its property ids are below propertyCounter. */
  ghost predicate StoreInvariant(owners: seq<Owner>, ownerCounter: int, propertyCounter: int) {
    && DistinctKeys(owners, OwnerId)
    && forall i :: 0 <= i < |owners| ==>
         && owners[i].id < ownerCounter
         && owners[i].properties.Some?
         && PropertyIdsBelow(owners[i].properties.value, propertyCounter)
  }

  /** Removing owners keeps the store invariant. */
  lemma {:induction false} RemoveKeepsInvariant(owners: seq<Owner>, id: int, oc: int, pc: int)
    requires StoreInvariant(owners, oc, pc)
    ensures StoreInvariant(FilterKey(owners, OwnerId, id, false), oc, pc)
  {
    FilterKeyKeepsDistinct(owners, OwnerId, id, false);
    var r := FilterKey(owners, OwnerId, id, false);
    forall i | 0 <= i < |r|
      ensures r[i].id < oc && r[i].properties.Some? && PropertyIdsBelow(r[i].properties.value, pc)
    {
      var m :| 0 <= m < |owners| && owners[m] == r[i];
    }
  }

  /** A freshly numbered list starting at the counter keeps the invariant
      once the counter has moved past it. */
  lemma {:induction false} NumberedBelow(props: seq<Property>, start: int)
    ensures PropertyIdsBelow(Numbered(props, start), start + |props|)
  {
  }

  lemma {:induction false} PropertyIdsBelowMonotone(props: seq<Property>, a: int, b: int)
    requires PropertyIdsBelow(props, a) && a <= b
    ensures PropertyIdsBelow(props, b)
  {
  }

  /** Moving the property counter forward keeps the store invariant. */
  lemma {:induction false} RaisedCounterKeepsInvariant(owners: seq<Owner>, oc: int, pc: int, pc': int)
    requires StoreInvariant(owners, oc, pc) && pc <= pc'
    ensures StoreInvariant(owners, oc, pc')
  {
    forall i | 0 <= i < |owners|
      ensures PropertyIdsBelow(owners[i].properties.value, pc')
    {
      PropertyIdsBelowMonotone(owners[i].properties.value, pc, pc');
    }
  }

  /** Overwriting an owner with a list whose ids are below the counter keeps
      the store invariant: ids do not change. */
  lemma {:induction false} UpdatedKeepsInvariant(owners: seq<Owner>, id: int, incoming: Owner, props: seq<Property>, oc: int, pc: int)
    requires StoreInvariant(owners, oc, pc) && PropertyIdsBelow(props, pc)
    ensures StoreInvariant(UpdatedOwners(owners, id, incoming, props), oc, pc)
  {
    var r := UpdatedOwners(owners, id, incoming, props);
    forall i, j | 0 <= i < j < |r| ensures OwnerId(r[i]) != OwnerId(r[j]) {
      assert OwnerId(owners[i]) != OwnerId(owners[j]);
    }
  }

  class InMemoryOwnerRealization {
    var allOwners: seq<Owner>
    var ownerCounter: int
    var propertyCounter: int
    /** Every update(id, owner) call made on this store, in order. */
    ghost var updateCalls: seq<(int, Owner)>

    ghost predicate Valid()
      reads this
    {
      StoreInvariant(allOwners, ownerCounter, propertyCounter)
    }

    constructor()
      ensures Valid()
      ensures allOwners == [] && ownerCounter == 1 && propertyCounter == 1 && updateCalls == []
    {
      allOwners := [];
      ownerCounter := 1;
      propertyCounter := 1;
      updateCalls := [];
    }

    method GetAllOwners() returns (r: seq<Owner>)
      ensures r == allOwners
    {
      r := allOwners;
    }

    /** The first owner with that id, or null. */
    method FindById(id: int) returns (r: Option<Owner>)
      ensures r == Lookup(allOwners, id)
    {
      for i := 0 to |allOwners|
        invariant forall j :: 0 <= j < i ==> allOwners[j].id != id
      {
        if allOwners[i].id == id {
          assert FirstIndex(allOwners, OwnerId, id) == i;
          return Some(allOwners[i]);
        }
      }
      r := None;
    }

    /** The owners with a positive debt, in stored order. */
    method FindDebtors() returns (debtors: seq<Owner>)
      ensures debtors == Debtors(allOwners)
    {
      debtors := [];
      for i := 0 to |allOwners|
        invariant debtors == Filter(allOwners[..i], IsDebtor)
      {
        FilterSnoc(allOwners, i, IsDebtor);
        if allOwners[i].taxesDebt > 0.0 {
          debtors := debtors + [allOwners[i]];
        }
      }
      assert allOwners[..|allOwners|] == allOwners;
    }

    /** Gives the properties the next ids of propertyCounter, in list order. */
    method NumberProperties(props: seq<Property>) returns (numbered: seq<Property>)
      modifies this`propertyCounter
      ensures propertyCounter == old(propertyCounter) + |props|
      ensures numbered == Numbered(props, old(propertyCounter))
    {
      numbered := [];
      for j := 0 to |props|
        invariant propertyCounter == old(propertyCounter) + j
        invariant numbered == Numbered(props[..j], old(propertyCounter))
      {
        numbered := numbered + [props[j].(id := propertyCounter)];
        propertyCounter := propertyCounter + 1;
      }
      assert props[..|props|] == props;
    }

    /** The owner gets id ownerCounter, its properties the next property ids,
        and is appended. A null property list throws after the owner id has
        been taken. */
    method Save(owner: Owner) returns (r: Result<bool>)
      requires Valid()
      modifies this
      ensures Valid()
      ensures ownerCounter == old(ownerCounter) + 1 && updateCalls == old(updateCalls)
      ensures owner.properties.None? ==>
        r == Err(NullPointer) && allOwners == old(allOwners) && propertyCounter == old(propertyCounter)
      ensures owner.properties.Some? ==>
        && r == Ok(true)
        && propertyCounter == old(propertyCounter) + |owner.properties.value|
        && allOwners == old(allOwners) + [owner.(id := old(ownerCounter),
             properties := Some(Numbered(owner.properties.value, old(propertyCounter))))]
    {
      var id := ownerCounter;
      ownerCounter := ownerCounter + 1;
      if owner.properties.None? {
        return Err(NullPointer);
      }
      var numbered := NumberProperties(owner.properties.value);
      NumberedBelow(owner.properties.value, old(propertyCounter));
      RaisedCounterKeepsInvariant(allOwners, ownerCounter, old(propertyCounter), propertyCounter);
      allOwners := allOwners + [owner.(id := id, properties := Some(numbered))];
      r := Ok(true);
    }

    /** The incoming owner's properties are renumbered first; then the first
        stored owner with that id takes every field but id, age and
        birthday, and true is returned. Without such an owner the answer is
        false, though propertyCounter has moved on. */
    method Update(id: int, owner: Owner) returns (r: Result<bool>)
      requires Valid()
      modifies this
      ensures Valid()
      ensures ownerCounter == old(ownerCounter)
      ensures updateCalls == old(updateCalls) + [(id, owner)]
      ensures owner.properties.None? ==>
        r == Err(NullPointer) && allOwners == old(allOwners) && propertyCounter == old(propertyCounter)
      ensures owner.properties.Some? ==>
        && propertyCounter == old(propertyCounter) + |owner.properties.value|
        && r == Ok(HasKey(old(allOwners), OwnerId, id))
        && allOwners == UpdatedOwners(old(allOwners), id, owner,
             Numbered(owner.properties.value, old(propertyCounter)))
    {
      updateCalls := updateCalls + [(id, owner)];
      if owner.properties.None? {
        return Err(NullPointer);
      }
      var numbered := NumberProperties(owner.properties.value);
      NumberedBelow(owner.properties.value, old(propertyCounter));
      RaisedCounterKeepsInvariant(allOwners, ownerCounter, old(propertyCounter), propertyCounter);
      UpdatedKeepsInvariant(allOwners, id, owner, numbered, ownerCounter, propertyCounter);
      for i := 0 to |allOwners|
        invariant forall j :: 0 <= j < i ==> allOwners[j].id != id
      {
        if allOwners[i].id == id {
          assert FirstIndex(allOwners, OwnerId, id) == i;
          allOwners := allOwners[i := Overwrite(allOwners[i], owner, numbered)];
          return Ok(true);
        }
      }
      r := Ok(false);
    }

    /** Removes every owner with that id; true iff one was removed. */
    method Remove(id: int) returns (removed: bool)
      requires Valid()
      modifies this`allOwners
      ensures Valid()
      ensures removed == HasKey(old(allOwners), OwnerId, id)
      ensures allOwners == FilterKey(old(allOwners), OwnerId, id, false)
    {
      RemoveKeepsInvariant(allOwners, id, ownerCounter, propertyCounter);
      var kept := FilterKey(allOwners, OwnerId, id, false);
      if HasKey(allOwners, OwnerId, id) {
        DropPresentKey(allOwners, OwnerId, id);
      } else {
        DropAbsentKey(allOwners, OwnerId, id);
      }
      removed := |kept| != |allOwners|;
      allOwners := kept;
    }
  }

  class InMemoryOwnerRepository {
    var allOwners: seq<Owner>
    var ownerCounter: int
    var propertyCounter: int

    ghost predicate Valid()
      reads this
    {
      StoreInvariant(allOwners, ownerCounter, propertyCounter)
    }

    constructor()
      ensures Valid()
      ensures allOwners == [] && ownerCounter == 1 && propertyCounter == 1
    {
      allOwners := [];
      ownerCounter := 1;
      propertyCounter := 1;
    }

    method FindAll() returns (r: seq<Owner>)
      ensures r == allOwners
    {
      r := allOwners;
    }

    /** The first owner with that id, or NoSuchOwner. */
    method FindById(id: int) returns (r: Result<Owner>)
      ensures HasKey(allOwners, OwnerId, id) ==> r == Ok(Lookup(allOwners, id).value)
      ensures !HasKey(allOwners, OwnerId, id) ==> r == Err(NoSuchOwner)
    {
      for i := 0 to |allOwners|
        invariant forall j :: 0 <= j < i ==> allOwners[j].id != id
      {
        if allOwners[i].id == id {
          assert FirstIndex(allOwners, OwnerId, id) == i;
          return Ok(allOwners[i]);
        }
      }
      r := Err(NoSuchOwner);
    }

    /** The owners with a positive debt, in stored order. */
    method FindDebtors() returns (debtors: seq<Owner>)
      ensures debtors == Debtors(allOwners)
    {
      debtors := [];
      for i := 0 to |allOwners|
        invariant debtors == Filter(allOwners[..i], IsDebtor)
      {
        FilterSnoc(allOwners, i, IsDebtor);
        if allOwners[i].taxesDebt > 0.0 {
          debtors := debtors + [allOwners[i]];
        }
      }
      assert allOwners[..|allOwners|] == allOwners;
    }

    /** Gives the properties the next ids of propertyCounter, in list order. */
    method NumberProperties(props: seq<Property>) returns (numbered: seq<Property>)
      modifies this`propertyCounter
      ensures propertyCounter == old(propertyCounter) + |props|
      ensures numbered == Numbered(props, old(propertyCounter))
    {
      numbered := [];
      for j := 0 to |props|
        invariant propertyCounter == old(propertyCounter) + j
        invariant numbered == Numbered(props[..j], old(propertyCounter))
      {
        numbered := numbered + [props[j].(id := propertyCounter)];
        propertyCounter := propertyCounter + 1;
      }
      assert props[..|props|] == props;
    }

    /** As in the other store: id from ownerCounter, property ids from
        propertyCounter, appended; a null list throws after the id is taken. */
    method Save(owner: Owner) returns (r: Result<bool>)
      requires Valid()
      modifies this
      ensures Valid()
      ensures ownerCounter == old(ownerCounter) + 1
      ensures owner.properties.None? ==>
        r == Err(NullPointer) && allOwners == old(allOwners) && propertyCounter == old(propertyCounter)
      ensures owner.properties.Some? ==>
        && r == Ok(true)
        && propertyCounter == old(propertyCounter) + |owner.properties.value|
        && allOwners == old(allOwners) + [owner.(id := old(ownerCounter),
             properties := Some(Numbered(owner.properties.value, old(propertyCounter))))]
    {
      var id := ownerCounter;
      ownerCounter := ownerCounter + 1;
      if owner.properties.None? {
        return Err(NullPointer);
      }
      var numbered := NumberProperties(owner.properties.value);
      NumberedBelow(owner.properties.value, old(propertyCounter));
      RaisedCounterKeepsInvariant(allOwners, ownerCounter, old(propertyCounter), propertyCounter);
      allOwners := allOwners + [owner.(id := id, properties := Some(numbered))];
      r := Ok(true);
    }

    /** Renumbers the incoming properties, then overwrites the first owner
        with that id (all fields but id, age and birthday); a missing id
        raises UpdateOwnerFailed after propertyCounter has moved on. */
    method Update(id: int, owner: Owner) returns (r: Result<bool>)
      requires Valid()
      modifies this
      ensures Valid()
      ensures ownerCounter == old(ownerCounter)
      ensures owner.properties.None? ==>
        r == Err(NullPointer) && allOwners == old(allOwners) && propertyCounter == old(propertyCounter)
      ensures owner.properties.Some? ==>
        && propertyCounter == old(propertyCounter) + |owner.properties.value|
        && r == (if HasKey(old(allOwners), OwnerId, id) then Ok(true) else Err(UpdateOwnerFailed))
        && allOwners == UpdatedOwners(old(allOwners), id, owner,
             Numbered(owner.properties.value, old(propertyCounter)))
    {
      if owner.properties.None? {
        return Err(NullPointer);
      }
      var numbered := NumberProperties(owner.properties.value);
      NumberedBelow(owner.properties.value, old(propertyCounter));
      RaisedCounterKeepsInvariant(allOwners, ownerCounter, old(propertyCounter), propertyCounter);
      UpdatedKeepsInvariant(allOwners, id, owner, numbered, ownerCounter, propertyCounter);
      for i := 0 to |allOwners|
        invariant forall j :: 0 <= j < i ==> allOwners[j].id != id
      {
        if allOwners[i].id == id {
          assert FirstIndex(allOwners, OwnerId, id) == i;
          allOwners := allOwners[i := Overwrite(allOwners[i], owner, numbered)];
          return Ok(true);
        }
      }
      r := Err(UpdateOwnerFailed);
    }

    /** Removes every owner with that id; true iff one was removed. */
    method Remove(id: int) returns (removed: bool)
      requires Valid()
      modifies this`allOwners
      ensures Valid()
      ensures removed == HasKey(old(allOwners), OwnerId, id)
      ensures allOwners == FilterKey(old(allOwners), OwnerId, id, false)
    {
      RemoveKeepsInvariant(allOwners, id, ownerCounter, propertyCounter);
      var kept := FilterKey(allOwners, OwnerId, id, false);
      if HasKey(allOwners, OwnerId, id) {
        DropPresentKey(allOwners, OwnerId, id);
      } else {
        DropAbsentKey(allOwners, OwnerId, id);
      }
      removed := |kept| != |allOwners|;
      allOwners := kept;
    }
  }
}
