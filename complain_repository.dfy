/** InMemoryComplainRepository. The complaint list and the id counter are
    static fields, so every instance of the repository works on one shared
    store; here that store is an object of its own, ComplainStatics, which
    every repository instance refers to. */
module ComplainStore {
  import opened Domain
  import opened Seqs

  /** The static state of the repository class. */
  class ComplainStatics {
    var complains: seq<Complain>
    var counter: int

    /** Class initialisation: an empty list and counter 1. */
    constructor()
      ensures complains == [] && counter == 1
    {
      complains := [];
      counter := 1;
    }
  }

  /** Complaint ids are distinct and below the counter, so the next id is
      free. */
  ghost predicate StoreInvariant(complains: seq<Complain>, counter: int) {
    && DistinctKeys(complains, ComplainId)
    && forall i :: 0 <= i < |complains| ==> complains[i].id < counter
  }

  /** The list after the first complaint with that id takes the text,
      subject and user id of `c`, keeping its own id. */
  function Overwritten(complains: seq<Complain>, id: int, c: Complain): (r: seq<Complain>)
    requires HasKey(complains, ComplainId, id)
  {
    var k := FirstIndex(complains, ComplainId, id);
    complains[k := complains[k].(text := c.text, subject := c.subject, userId := c.userId)]
  }

  /** The list without its first complaint with that id. */
  function WithoutFirst(complains: seq<Complain>, id: int): (r: seq<Complain>)
    requires HasKey(complains, ComplainId, id)
  {
    var k := FirstIndex(complains, ComplainId, id);
    complains[..k] + complains[k + 1..]
  }

  /** update keeps the length, the order and every id, and touches no other
      complaint. */
  lemma {:induction false} OverwrittenKeepsIds(complains: seq<Complain>, id: int, c: Complain)
    requires HasKey(complains, ComplainId, id)
    ensures var r := Overwritten(complains, id, c);
      var k := FirstIndex(complains, ComplainId, id);
      && |r| == |complains|
      && (forall i :: 0 <= i < |r| ==> r[i].id == complains[i].id)
      && (forall i :: 0 <= i < |r| && i != k ==> r[i] == complains[i])
      && r[k] == Complain(id, c.subject, c.text, c.userId)
  {
  }

  /** While ids are distinct, removing the first complaint with an id
      removes every complaint with it. */
  lemma {:induction false} WithoutFirstIsWithoutAll(complains: seq<Complain>, id: int)
    requires DistinctKeys(complains, ComplainId)
    requires HasKey(complains, ComplainId, id)
    ensures WithoutFirst(complains, id) == FilterKey(complains, ComplainId, id, false)
    ensures |WithoutFirst(complains, id)| == |complains| - 1
  {
    DropUniqueKey(complains, ComplainId, id);
  }

  /** Removing a complaint keeps the store invariant. */
  lemma {:induction false} WithoutFirstKeepsInvariant(complains: seq<Complain>, counter: int, id: int)
    requires StoreInvariant(complains, counter)
    requires HasKey(complains, ComplainId, id)
    ensures StoreInvariant(WithoutFirst(complains, id), counter)
  {
    WithoutFirstIsWithoutAll(complains, id);
    FilterKeyKeepsDistinct(complains, ComplainId, id, false);
    var r := WithoutFirst(complains, id);
    forall i | 0 <= i < |r| ensures r[i].id < counter {
      var m :| 0 <= m < |complains| && complains[m] == r[i];
    }
  }

  class InMemoryComplainRepository {
    const statics: ComplainStatics

    ghost predicate Valid()
      reads statics
    {
      StoreInvariant(statics.complains, statics.counter)
    }

    constructor(statics: ComplainStatics)
      ensures this.statics == statics
    {
      this.statics := statics;
    }

    method FindAll() returns (r: seq<Complain>)
      ensures r == statics.complains
    {
      r := statics.complains;
    }

    /** The complaints of that user, in stored order. */
    method FindByUserId(userId: int) returns (r: seq<Complain>)
      ensures r == FilterKey(statics.complains, ComplainUserId, userId, true)
      ensures forall i :: 0 <= i < |r| ==> r[i] in statics.complains && r[i].userId == userId
      ensures forall i :: 0 <= i < |statics.complains| && statics.complains[i].userId == userId ==>
        statics.complains[i] in r
    {
      r := FilterKey(statics.complains, ComplainUserId, userId, true);
    }

    /** The complaint takes id `counter`, the counter moves on, and the
        complaint is appended; the answer is true. */
    method Save(complain: Complain) returns (saved: bool)
      requires Valid()
      modifies statics
      ensures Valid()
      ensures saved
      ensures statics.counter == old(statics.counter) + 1
      ensures statics.complains == old(statics.complains) + [complain.(id := old(statics.counter))]
    {
      var id := statics.counter;
      statics.counter := statics.counter + 1;
      statics.complains := statics.complains + [complain.(id := id)];
      saved := true;
    }

    /** The first complaint with that id takes the text, subject and user
        id of `complain`; without one the answer is false and nothing
        changes. */
    method Update(id: int, complain: Complain) returns (updated: bool)
      requires Valid()
      modifies statics`complains
      ensures Valid()
      ensures updated == HasKey(old(statics.complains), ComplainId, id)
      ensures updated ==> statics.complains == Overwritten(old(statics.complains), id, complain)
      ensures !updated ==> statics.complains == old(statics.complains)
    {
      for i := 0 to |statics.complains|
        invariant statics.complains == old(statics.complains)
        invariant forall j :: 0 <= j < i ==> statics.complains[j].id != id
      {
        if statics.complains[i].id == id {
          assert FirstIndex(statics.complains, ComplainId, id) == i;
          OverwrittenKeepsIds(statics.complains, id, complain);
          var current := statics.complains[i];
          statics.complains := statics.complains[i := current.(text := complain.text,
            subject := complain.subject, userId := complain.userId)];
          return true;
        }
      }
      updated := false;
    }

    /** The first complaint with that id leaves the list; without one the
        answer is false and nothing changes. */
    method Remove(id: int) returns (removed: bool)
      requires Valid()
      modifies statics`complains
      ensures Valid()
      ensures removed == HasKey(old(statics.complains), ComplainId, id)
      ensures removed ==> statics.complains == WithoutFirst(old(statics.complains), id)
      ensures !removed ==> statics.complains == old(statics.complains)
    {
      for i := 0 to |statics.complains|
        invariant statics.complains == old(statics.complains)
        invariant forall j :: 0 <= j < i ==> statics.complains[j].id != id
      {
        if statics.complains[i].id == id {
          assert FirstIndex(statics.complains, ComplainId, id) == i;
          WithoutFirstKeepsInvariant(statics.complains, statics.counter, id);
          statics.complains := statics.complains[..i] + statics.complains[i + 1..];
          return true;
        }
      }
      removed := false;
    }
  }

  /** Two repository instances over the same static state: a complaint
      saved through one is seen by the other. */
  method SharedBetweenInstances(statics: ComplainStatics, c: Complain) returns (seen: seq<Complain>)
    requires StoreInvariant(statics.complains, statics.counter)
    modifies statics
    ensures seen == old(statics.complains) + [c.(id := old(statics.counter))]
  {
    var first := new InMemoryComplainRepository(statics);
    var second := new InMemoryComplainRepository(statics);
    var saved := first.Save(c);
    seen := second.FindAll();
  }
}
