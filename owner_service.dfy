/** OwnerService: the tax obligation of an owner (base tax over the
    properties, reduced by a household leeway), the periodic compounding of
    debts, and the guarded owner operations. The service reads owners through
    the in-memory owner store and rates through the in-memory rate table. */
module OwnerServiceModel {
  import opened Domain
  import opened Seqs
  import opened Money
  import opened TaxRates
  import opened OwnerStores

  /** The size the rate table must have: one entry per property type. */
  const TAXES_RATE_NUMBER: nat := 3

  /** The rate is picked by position: 0 for FLAT, 1 for HOUSE, 2 for any
      other type. */
  function RateIndex(t: PropertyType): (i: nat)
    ensures i < TAXES_RATE_NUMBER
    ensures i == 0 <==> t == FLAT
    ensures i == 1 <==> t == HOUSE
  {
    match t
    case FLAT => 0
    case HOUSE => 1
    case OFFICE => 2
  }

  /** square × rate of the property's type. */
  function PropertyTax(p: Property, rates: seq<TaxRate>): real
    requires |rates| == TAXES_RATE_NUMBER
  {
    p.square as real * rates[RateIndex(p.propertyType)].tax
  }

  /** The sum of the property taxes, added up in list order. */
  function BaseTax(props: seq<Property>, rates: seq<TaxRate>): real
    requires |rates| == TAXES_RATE_NUMBER
  {
    if props == [] then 0.0
    else BaseTax(props[..|props| - 1], rates) + PropertyTax(props[|props| - 1], rates)
  }

  /** The base tax of two lists together is the sum of their base taxes. */
  lemma {:induction false} BaseTaxAppend(a: seq<Property>, b: seq<Property>, rates: seq<TaxRate>)
    requires |rates| == TAXES_RATE_NUMBER
    ensures BaseTax(a + b, rates) == BaseTax(a, rates) + BaseTax(b, rates)
  {
    if b == [] {
      assert a + b == a;
    } else {
      assert (a + b)[..|a + b| - 1] == a + b[..|b| - 1];
      assert (a + b)[|a + b| - 1] == b[|b| - 1];
      BaseTaxAppend(a, b[..|b| - 1], rates);
    }
  }

  /** Every area and every rate is non-negative. */
  ghost predicate NonNegativeInputs(props: seq<Property>, rates: seq<TaxRate>) {
    (forall j :: 0 <= j < |props| ==> props[j].square >= 0) &&
    (forall i :: 0 <= i < |rates| ==> rates[i].tax >= 0.0)
  }

  lemma {:induction false} BaseTaxNonNegative(props: seq<Property>, rates: seq<TaxRate>)
    requires |rates| == TAXES_RATE_NUMBER && NonNegativeInputs(props, rates)
    ensures BaseTax(props, rates) >= 0.0
  {
    if props != [] {
      var last := props[|props| - 1];
      assert last.square as real * rates[RateIndex(last.propertyType)].tax >= 0.0;
      BaseTaxNonNegative(props[..|props| - 1], rates);
    }
  }

  /** The household leeway: 0.3 off for a single parent, 0.1 off for any
      other parent, and a further 0.1 off when married. */
  function Leeway(hasChildren: bool, status: FamilyStatus): (l: real)
    ensures l in {1.0, 0.9, 0.8, 0.7}
  {
    1.0
    - (if hasChildren then (if status == SINGLE then 0.3 else 0.1) else 0.0)
    - (if status == MARRIED then 0.1 else 0.0)
  }

  /** The households: single 1, married 0.9, married parent 0.8, single
      parent 0.7; any other status takes the non-SINGLE branch only, 0.9
      with children and 1 without. */
  lemma {:induction false} LeewayCases(hasChildren: bool, status: FamilyStatus)
    ensures Leeway(hasChildren, status) == 1.0 <==> !hasChildren && status != MARRIED
    ensures Leeway(hasChildren, status) == 0.9 <==>
      (!hasChildren && status == MARRIED) || (hasChildren && status.Unlisted?)
    ensures Leeway(hasChildren, status) == 0.8 <==> hasChildren && status == MARRIED
    ensures Leeway(hasChildren, status) == 0.7 <==> hasChildren && status == SINGLE
  {
  }

  /** countTaxObligation of the owner found by id (None: no such owner)
      against the rate table. The checks come in this order: a missing owner,
      a null property list, a table of the wrong size. */
  function TaxObligation(owner: Option<Owner>, rates: seq<TaxRate>): Result<real> {
    if owner.None? then Err(NoSuchOwner)
    else if owner.value.properties.None? then Err(PropertyNotFound)
    else if |rates| != TAXES_RATE_NUMBER then Err(InvalidTaxRateNumber)
    else Ok(BaseTax(owner.value.properties.value, rates)
            * Leeway(owner.value.hasChildren, owner.value.familyStatus))
  }

  /** The obligation is the product of the two parts computed apart. */
  lemma {:induction false} ObligationOfParts(o: Owner, rates: seq<TaxRate>, base: real, leeway: real)
    requires o.properties.Some? && |rates| == TAXES_RATE_NUMBER
    requires base == BaseTax(o.properties.value, rates)
    requires leeway == Leeway(o.hasChildren, o.familyStatus)
    ensures TaxObligation(Some(o), rates) == Ok(base * leeway)
  {
    assert TaxObligation(Some(o), rates) ==
      Ok(BaseTax(o.properties.value, rates) * Leeway(o.hasChildren, o.familyStatus));
  }

  /** The error precedence: a missing owner wins over everything, a null
      property list over a bad table, and a bad table over any owner data. */
  lemma {:induction false} TaxObligationErrors(owner: Option<Owner>, rates: seq<TaxRate>)
    ensures owner.None? ==> TaxObligation(owner, rates) == Err(NoSuchOwner)
    ensures owner.Some? && owner.value.properties.None? ==>
      TaxObligation(owner, rates) == Err(PropertyNotFound)
    ensures owner.Some? && owner.value.properties.Some? && |rates| != TAXES_RATE_NUMBER ==>
      TaxObligation(owner, rates) == Err(InvalidTaxRateNumber)
    ensures TaxObligation(owner, rates).Ok? <==>
      owner.Some? && owner.value.properties.Some? && |rates| == TAXES_RATE_NUMBER
  {
  }

  /** An empty (not null) portfolio owes nothing. */
  lemma {:induction false} EmptyPortfolioOwesNothing(o: Owner, rates: seq<TaxRate>)
    requires o.properties == Some([]) && |rates| == TAXES_RATE_NUMBER
    ensures TaxObligation(Some(o), rates) == Ok(0.0)
  {
  }

  /** Whenever the base tax is not negative, the obligation lies between 70%
      of the base tax and the base tax. */
  lemma {:induction false} TaxObligationBounds(o: Owner, rates: seq<TaxRate>)
    requires o.properties.Some? && |rates| == TAXES_RATE_NUMBER
    requires BaseTax(o.properties.value, rates) >= 0.0
    ensures var base := BaseTax(o.properties.value, rates);
      TaxObligation(Some(o), rates).Ok? &&
      0.7 * base <= TaxObligation(Some(o), rates).value <= base
  {
    var base := BaseTax(o.properties.value, rates);
    var l := Leeway(o.hasChildren, o.familyStatus);
    assert 0.7 <= l <= 1.0;
    assert 0.7 * base <= l * base <= base;
  }

  /** In particular the bounds hold when no area and no rate is negative. */
  lemma {:induction false} TaxObligationBoundsNonNegative(o: Owner, rates: seq<TaxRate>)
    requires o.properties.Some? && |rates| == TAXES_RATE_NUMBER
    requires NonNegativeInputs(o.properties.value, rates)
    ensures var base := BaseTax(o.properties.value, rates);
      TaxObligation(Some(o), rates).Ok? &&
      0.7 * base <= TaxObligation(Some(o), rates).value <= base
  {
    BaseTaxNonNegative(o.properties.value, rates);
    TaxObligationBounds(o, rates);
  }

  /** On a table in canonical order the positional pick of countBaseTax is
      the entry of the property's own type. */
  lemma {:induction false} PositionalRateIsOwnRate(rates: seq<TaxRate>, t: PropertyType)
    requires Types(rates) == CanonicalTypes
    ensures |rates| == TAXES_RATE_NUMBER
    ensures FirstIndex(rates, RateType, t) == RateIndex(t)
    ensures rates[RateIndex(t)].propertyType == t
  {
    assert |Types(rates)| == 3;
    assert rates[0].propertyType == FLAT && rates[1].propertyType == HOUSE && rates[2].propertyType == OFFICE;
  }

  function SeedFlat(): Property {
    Property(1, FLAT, "Prague", "Heroev Street 24", 70, 3, 500000.0,
             Date(2020, 4, 10), Date(2012, 1, 9), GOOD)
  }

  function OwnerWith(props: seq<Property>, hasChildren: bool, status: FamilyStatus): Owner {
    Owner(1, "John", "Smith", 30, status, hasChildren, "johnsmith@gmail.com", "+456987123",
          Date(1994, 8, 9), 0.0, Some(props))
  }

  /** With the seeded rates and one FLAT of 70: 420 for a single owner,
      378.0 married, 336.0 married with children, 294.0 single with children;
      a FLAT of 70, a HOUSE of 200 and an OFFICE of 100 make 3320. */
  lemma {:induction false} TaxObligationExamples()
    ensures TaxObligation(Some(OwnerWith([SeedFlat()], false, SINGLE)), DefaultRates()) == Ok(420.0)
    ensures TaxObligation(Some(OwnerWith([SeedFlat()], false, MARRIED)), DefaultRates()) == Ok(378.0)
    ensures TaxObligation(Some(OwnerWith([SeedFlat()], true, MARRIED)), DefaultRates()) == Ok(336.0)
    ensures TaxObligation(Some(OwnerWith([SeedFlat()], true, SINGLE)), DefaultRates()) == Ok(294.0)
    ensures var house := SeedFlat().(propertyType := HOUSE, square := 200);
      var office := SeedFlat().(propertyType := OFFICE, square := 100);
      TaxObligation(Some(OwnerWith([SeedFlat(), house, office], false, SINGLE)), DefaultRates()) == Ok(3320.0)
  {
    var house := SeedFlat().(propertyType := HOUSE, square := 200);
    var office := SeedFlat().(propertyType := OFFICE, square := 100);
    var three := [SeedFlat(), house, office];
    assert [SeedFlat()][..0] == [];
    assert BaseTax([SeedFlat()], DefaultRates()) == 420.0;
    assert [SeedFlat(), house][..1] == [SeedFlat()];
    assert BaseTax([SeedFlat(), house], DefaultRates()) == 420.0 + 1600.0;
    assert three[..2] == [SeedFlat(), house];
    assert BaseTax(three, DefaultRates()) == 2020.0 + 1300.0;
  }

  /** The owner with its debt compounded once: the argument recountDebtForDebtors
      hands to update. */
  function Recounted(d: Owner): Owner
    requires IsDebtor(d)
  {
    d.(taxesDebt := Recount(d.taxesDebt))
  }

  /** The update calls recountDebtForDebtors makes for the debtor list, in
      order: one per owner whose debt is positive. */
  function RecountCalls(debtors: seq<Owner>): seq<(int, Owner)> {
    if debtors == [] then []
    else
      var last := debtors[|debtors| - 1];
      RecountCalls(debtors[..|debtors| - 1]) + (if IsDebtor(last) then [(last.id, Recounted(last))] else [])
  }

  lemma {:induction false} RecountCallsSnoc(s: seq<Owner>, d: Owner)
    requires IsDebtor(d)
    ensures RecountCalls(s + [d]) == RecountCalls(s) + [(d.id, Recounted(d))]
  {
    assert (s + [d])[..|s|] == s;
  }

  /** For a list of debtors there is exactly one call per debtor, in order,
      carrying the debtor with only its debt changed. */
  lemma {:induction false} RecountCallsPerDebtor(debtors: seq<Owner>)
    requires forall i :: 0 <= i < |debtors| ==> IsDebtor(debtors[i])
    ensures |RecountCalls(debtors)| == |debtors|
    ensures forall i :: 0 <= i < |debtors| ==>
      RecountCalls(debtors)[i] == (debtors[i].id, Recounted(debtors[i]))
  {
    if debtors != [] {
      RecountCallsPerDebtor(debtors[..|debtors| - 1]);
    }
  }

  /** How many properties the owners hold between them (a null list holds
      none). */
  function TotalProps(s: seq<Owner>): (n: nat)
    ensures s == [] ==> n == 0
  {
    if s == [] then 0
    else
      var last := s[|s| - 1];
      TotalProps(s[..|s| - 1]) + (if last.properties.Some? then |last.properties.value| else 0)
  }

  lemma {:induction false} TotalPropsSnoc(s: seq<Owner>, i: nat)
    requires i < |s| && s[i].properties.Some?
    ensures TotalProps(s[..i + 1]) == TotalProps(s[..i]) + |s[i].properties.value|
  {
    assert s[..i + 1][..i] == s[..i];
  }

  lemma {:induction false} TotalPropsAppendOne(s: seq<Owner>, o: Owner)
    ensures TotalProps(s + [o]) == TotalProps(s) + (if o.properties.Some? then |o.properties.value| else 0)
  {
    assert (s + [o])[..|s|] == s;
  }

  /** How many properties the debtors among the owners hold between them. */
  function DebtorProps(s: seq<Owner>): (n: nat)
    ensures s == [] ==> n == 0
  {
    if s == [] then 0
    else
      var last := s[|s| - 1];
      DebtorProps(s[..|s| - 1]) +
        (if IsDebtor(last) && last.properties.Some? then |last.properties.value| else 0)
  }

  /** The debtors' properties are those of the debtor list. */
  lemma {:induction false} DebtorPropsOfDebtors(s: seq<Owner>)
    ensures DebtorProps(s) == TotalProps(Debtors(s))
  {
    if s != [] {
      var n := |s| - 1;
      var front, last := s[..n], s[n];
      DebtorPropsOfDebtors(front);
      assert DebtorProps(s) ==
        DebtorProps(front) + (if IsDebtor(last) && last.properties.Some? then |last.properties.value| else 0);
      assert Debtors(s) == Debtors(front) + (if IsDebtor(last) then [last] else []) by {
        FilterSnoc(s, n, IsDebtor);
        assert s[..n + 1] == s;
      }
      if IsDebtor(last) {
        TotalPropsAppendOne(Debtors(front), last);
      } else {
        assert Debtors(front) + [] == Debtors(front);
      }
    }
  }

  /** The first property id update hands out to the debtor stored at
      position k, when the cycle starts at property counter pc: every debtor
      stored before it has already drawn one id per property. */
  ghost function RecountStart(before: seq<Owner>, k: nat, pc: int): int
    requires k <= |before|
  {
    pc + DebtorProps(before[..k])
  }

  /** What one recalculation cycle does to a stored owner: a debtor's debt is
      compounded and its properties are renumbered from `start` (update
      renumbers them); every other field, and every non-debtor, is left as
      it was. */
  ghost predicate RecountedOwner(before: Owner, after: Owner, start: int) {
    if IsDebtor(before) then
      && before.properties.Some?
      && after == before.(taxesDebt := Recount(before.taxesDebt),
                          properties := Some(Numbered(before.properties.value, start)))
    else after == before
  }

  /** The state of the store part-way through a cycle that started at
      property counter pc: the owners whose ids are in `done` have been
      recounted, the others are untouched. */
  ghost predicate RecountProgress(before: seq<Owner>, cur: seq<Owner>, done: set<int>, pc: int) {
    && |cur| == |before|
    && (forall k :: 0 <= k < |before| ==> cur[k].id == before[k].id)
    && (forall k :: 0 <= k < |before| && before[k].id in done ==>
          RecountedOwner(before[k], cur[k], RecountStart(before, k, pc)))
    && (forall k :: 0 <= k < |before| && before[k].id !in done ==> cur[k] == before[k])
  }

  /** One update call of the cycle recounts exactly the debtor it names. */
  lemma {:induction false} RecountProgressStep(before: seq<Owner>, cur: seq<Owner>, done: set<int>, k: nat,
                                               pc0: int, pc: int)
    requires RecountProgress(before, cur, done, pc0) && DistinctKeys(before, OwnerId)
    requires k < |before| && IsDebtor(before[k]) && before[k].id !in done
    requires before[k].properties.Some? && pc == RecountStart(before, k, pc0)
    ensures RecountProgress(before,
      UpdatedOwners(cur, before[k].id, Recounted(before[k]), Numbered(before[k].properties.value, pc)),
      done + {before[k].id}, pc0)
  {
    var d := before[k];
    var f := FirstIndex(cur, OwnerId, d.id);
    assert cur[k].id == d.id;
    assert f <= k;
    assert OwnerId(before[f]) == OwnerId(before[k]);
    assert f == k;
    var numbered := Numbered(d.properties.value, pc);
    var after := UpdatedOwners(cur, d.id, Recounted(d), numbered);
    assert after == cur[k := Overwrite(d, Recounted(d), numbered)];
    assert RecountedOwner(d, after[k], pc);
    forall m | 0 <= m < |before| && m != k
      ensures before[m].id != d.id
    {
      assert OwnerId(before[m]) != OwnerId(before[k]);
    }
  }

  /** The ids of a list of owners. */
  ghost function Ids(s: seq<Owner>): set<int> {
    set j | 0 <= j < |s| :: s[j].id
  }

  /** In a list with distinct ids, the i-th id is not among the ids before it. */
  lemma {:induction false} DistinctNotYetDone(s: seq<Owner>, i: nat)
    requires DistinctKeys(s, OwnerId) && i < |s|
    ensures s[i].id !in Ids(s[..i])
    ensures Ids(s[..i + 1]) == Ids(s[..i]) + {s[i].id}
  {
    forall j | 0 <= j < i ensures s[..i][j].id != s[i].id {
      assert OwnerId(s[j]) != OwnerId(s[i]);
    }
    assert s[..i + 1] == s[..i] + [s[i]];
  }

  /** The i-th debtor is stored at a position k after exactly the debtors
      before it in the debtor list, so its properties are numbered on from
      theirs. */
  lemma {:induction false} DebtorStart(before: seq<Owner>, i: nat) returns (k: nat)
    requires i < |Debtors(before)|
    requires forall j :: 0 <= j < |before| ==> before[j].properties.Some?
    ensures k < |before| && before[k] == Debtors(before)[i] && before[k].properties.Some?
    ensures DebtorProps(before[..k]) == TotalProps(Debtors(before)[..i])
    ensures TotalProps(Debtors(before)[..i + 1]) == TotalProps(Debtors(before)[..i]) + |before[k].properties.value|
  {
    k := FilterPosition(before, IsDebtor, i);
    DebtorPropsOfDebtors(before[..k]);
    TotalPropsSnoc(Debtors(before), i);
  }

  /** The bookkeeping of one turn of the recount loop: the i-th debtor's id
      is new and its call extends the log. */
  lemma {:induction false} RecountLoopStep(calls: seq<(int, Owner)>, ds: seq<Owner>, i: nat)
    requires DistinctKeys(ds, OwnerId) && i < |ds| && IsDebtor(ds[i])
    ensures ds[i].id !in Ids(ds[..i]) && Ids(ds[..i + 1]) == Ids(ds[..i]) + {ds[i].id}
    ensures calls + RecountCalls(ds[..i + 1]) == (calls + RecountCalls(ds[..i])) + [(ds[i].id, Recounted(ds[i]))]
  {
    var d := ds[i];
    DistinctNotYetDone(ds, i);
    assert ds[..i + 1] == ds[..i] + [d];
    RecountCallsSnoc(ds[..i], d);
    assert (calls + RecountCalls(ds[..i])) + [(d.id, Recounted(d))] ==
      calls + (RecountCalls(ds[..i]) + [(d.id, Recounted(d))]);
  }

  /** Once every debtor's id is done, every owner has been recounted. */
  lemma {:induction false} RecountProgressComplete(before: seq<Owner>, cur: seq<Owner>, done: set<int>, pc: int)
    requires DistinctKeys(before, OwnerId)
    requires done == Ids(Debtors(before))
    requires RecountProgress(before, cur, done, pc)
    ensures |cur| == |before|
    ensures forall k :: 0 <= k < |before| ==> RecountedOwner(before[k], cur[k], RecountStart(before, k, pc))
  {
    var ds := Debtors(before);
    forall k | 0 <= k < |before| ensures RecountedOwner(before[k], cur[k], RecountStart(before, k, pc)) {
      if IsDebtor(before[k]) {
        assert before[k] in ds;
        var j :| 0 <= j < |ds| && ds[j] == before[k];
        assert before[k].id in done;
      } else {
        forall j | 0 <= j < |ds| ensures ds[j].id != before[k].id {
          var m :| 0 <= m < |before| && before[m] == ds[j];
          if m != k {
            assert OwnerId(before[m]) != OwnerId(before[k]);
          }
        }
      }
    }
  }

  lemma {:induction false} DebtorsDistinct(s: seq<Owner>)
    requires DistinctKeys(s, OwnerId)
    ensures DistinctKeys(Filter(s, IsDebtor), OwnerId)
  {
    if s != [] {
      assert DistinctKeys(s[1..], OwnerId) by {
        forall i, j | 0 <= i < j < |s[1..]| ensures OwnerId(s[1..][i]) != OwnerId(s[1..][j]) {
          assert s[1..][i] == s[i + 1] && s[1..][j] == s[j + 1];
        }
      }
      DebtorsDistinct(s[1..]);
      var rest := Filter(s[1..], IsDebtor);
      forall j | 0 <= j < |rest| ensures rest[j].id != s[0].id {
        var m :| 0 <= m < |s[1..]| && s[1..][m] == rest[j];
        assert s[m + 1] == rest[j];
      }
    }
  }

  class OwnerService {
    const ownerRepository: InMemoryOwnerRealization
    const taxRateRepository: InMemoryTaxRateRealization

    constructor(owners: InMemoryOwnerRealization, rates: InMemoryTaxRateRealization)
      ensures ownerRepository == owners && taxRateRepository == rates
    {
      ownerRepository := owners;
      taxRateRepository := rates;
    }

    method GetAllOwners() returns (r: seq<Owner>)
      ensures r == ownerRepository.allOwners
    {
      r := ownerRepository.GetAllOwners();
    }

    /** The owner with that id, or NoSuchOwner. */
    method GetOwnerById(id: int) returns (r: Result<Owner>)
      ensures HasKey(ownerRepository.allOwners, OwnerId, id) ==>
        r.Ok? && r.value.id == id && r.value == Lookup(ownerRepository.allOwners, id).value
      ensures !HasKey(ownerRepository.allOwners, OwnerId, id) ==> r == Err(NoSuchOwner)
    {
      var owner := ownerRepository.FindById(id);
      if owner.None? {
        return Err(NoSuchOwner);
      }
      owner := ownerRepository.FindById(id);
      r := Ok(owner.value);
    }

    method FindDebtors() returns (r: seq<Owner>)
      ensures r == Debtors(ownerRepository.allOwners)
    {
      r := ownerRepository.FindDebtors();
    }

    /** The base tax of the owner's properties, or PropertyNotFound for a
        null list, or InvalidTaxRateNumber for a table that is not of size 3. */
    method CountBaseTax(owner: Owner) returns (r: Result<real>)
      ensures owner.properties.None? ==> r == Err(PropertyNotFound)
      ensures owner.properties.Some? && |taxRateRepository.taxRates| != TAXES_RATE_NUMBER ==>
        r == Err(InvalidTaxRateNumber)
      ensures owner.properties.Some? && |taxRateRepository.taxRates| == TAXES_RATE_NUMBER ==>
        r == Ok(BaseTax(owner.properties.value, taxRateRepository.taxRates))
    {
      if owner.properties.None? {
        return Err(PropertyNotFound);
      }
      var properties := owner.properties.value;
      var taxRates := taxRateRepository.GetAll();
      if |taxRates| != TAXES_RATE_NUMBER {
        return Err(InvalidTaxRateNumber);
      }
      var flatTax, houseTax, officeTax := taxRates[0].tax, taxRates[1].tax, taxRates[2].tax;
      var baseTax := 0.0;
      for i := 0 to |properties|
        invariant baseTax == BaseTax(properties[..i], taxRates)
      {
        var property := properties[i];
        var square := property.square as real;
        if property.propertyType == FLAT {
          baseTax := baseTax + square * flatTax;
        } else if property.propertyType == HOUSE {
          baseTax := baseTax + square * houseTax;
        } else {
          baseTax := baseTax + square * officeTax;
        }
        assert properties[..i + 1][..i] == properties[..i];
      }
      assert properties[..|properties|] == properties;
      r := Ok(baseTax);
    }

    /** The household leeway, lowered step by step from 1. */
    method CountLeeway(owner: Owner) returns (leeway: real)
      ensures leeway == Leeway(owner.hasChildren, owner.familyStatus)
    {
      leeway := 1.0;
      if owner.hasChildren {
        if owner.familyStatus == SINGLE {
          leeway := leeway - 0.3;
        } else {
          leeway := leeway - 0.1;
        }
      }
      if owner.familyStatus == MARRIED {
        leeway := leeway - 0.1;
      }
    }

    /** The tax obligation of the owner with that id: the base tax times the
        household leeway, or the first error that applies. */
    method CountTaxObligation(id: int) returns (r: Result<real>)
      ensures r == TaxObligation(Lookup(ownerRepository.allOwners, id), taxRateRepository.taxRates)
    {
      var owner := ownerRepository.FindById(id);
      if owner.None? {
        return Err(NoSuchOwner);
      }
      var taxObligation := CountBaseTax(owner.value);
      if taxObligation.Err? {
        return Err(taxObligation.error);
      }
      var leeway := CountLeeway(owner.value);
      ObligationOfParts(owner.value, taxRateRepository.taxRates, taxObligation.value, leeway);
      r := Ok(taxObligation.value * leeway);
    }

    /** One step of the cycle: the debtor's debt is compounded and the
        debtor is written back through update, which renumbers its
        properties from the current property counter. */
    method RecountDebtor(debtor: Owner)
      requires ownerRepository.Valid()
      requires IsDebtor(debtor) && debtor.properties.Some?
      modifies ownerRepository
      ensures ownerRepository.Valid()
      ensures ownerRepository.ownerCounter == old(ownerRepository.ownerCounter)
      ensures ownerRepository.propertyCounter == old(ownerRepository.propertyCounter) + |debtor.properties.value|
      ensures ownerRepository.updateCalls == old(ownerRepository.updateCalls) + [(debtor.id, Recounted(debtor))]
      ensures ownerRepository.allOwners == UpdatedOwners(old(ownerRepository.allOwners), debtor.id, Recounted(debtor),
                                                          Numbered(debtor.properties.value, old(ownerRepository.propertyCounter)))
    {
      var updatedDebtor := debtor.(taxesDebt := RoundHalfUp1(debtor.taxesDebt * 1.05));
      assert updatedDebtor == Recounted(debtor);
      var ok := ownerRepository.Update(updatedDebtor.id, updatedDebtor);
    }

    /** Every debtor's debt is compounded (× 1.05, half-up to one decimal)
        and written back through one update call per debtor, in list order.
        Nothing else about the owners changes, except that update renumbers
        each debtor's properties, continuing the property counter from one
        debtor to the next. */
    method RecountDebtForDebtors()
      requires ownerRepository.Valid()
      modifies ownerRepository
      ensures ownerRepository.Valid()
      ensures ownerRepository.ownerCounter == old(ownerRepository.ownerCounter)
      ensures ownerRepository.propertyCounter ==
        old(ownerRepository.propertyCounter) + DebtorProps(old(ownerRepository.allOwners))
      ensures ownerRepository.updateCalls ==
        old(ownerRepository.updateCalls) + RecountCalls(Debtors(old(ownerRepository.allOwners)))
      ensures |ownerRepository.allOwners| == |old(ownerRepository.allOwners)|
      ensures forall k :: 0 <= k < |ownerRepository.allOwners| ==>
        RecountedOwner(old(ownerRepository.allOwners)[k], ownerRepository.allOwners[k],
                       RecountStart(old(ownerRepository.allOwners), k, old(ownerRepository.propertyCounter)))
    {
      ghost var before := ownerRepository.allOwners;
      ghost var pc0 := ownerRepository.propertyCounter;
      var allDebtors := ownerRepository.FindDebtors();
      DebtorsDistinct(before);
      assert forall j :: 0 <= j < |before| ==> before[j].properties.Some?;
      ghost var done: set<int> := {};
      for i := 0 to |allDebtors|
        invariant ownerRepository.Valid()
        invariant ownerRepository.ownerCounter == old(ownerRepository.ownerCounter)
        invariant ownerRepository.propertyCounter == pc0 + TotalProps(allDebtors[..i])
        invariant ownerRepository.updateCalls ==
          old(ownerRepository.updateCalls) + RecountCalls(allDebtors[..i])
        invariant done == Ids(allDebtors[..i])
        invariant RecountProgress(before, ownerRepository.allOwners, done, pc0)
      {
        var debtor := allDebtors[i];
        ghost var k := DebtorStart(before, i);
        RecountLoopStep(old(ownerRepository.updateCalls), allDebtors, i);
        if debtor.taxesDebt > 0.0 {
          RecountProgressStep(before, ownerRepository.allOwners, done, k, pc0, ownerRepository.propertyCounter);
          RecountDebtor(debtor);
        }
        done := done + {debtor.id};
      }
      assert allDebtors[..|allDebtors|] == allDebtors;
      DebtorPropsOfDebtors(before);
      RecountProgressComplete(before, ownerRepository.allOwners, done, pc0);
    }

    /** A null owner raises NoSuchOwner; otherwise the store saves it. */
    method AddNewOwner(owner: Option<Owner>) returns (r: Result<bool>)
      requires ownerRepository.Valid()
      modifies ownerRepository
      ensures ownerRepository.Valid()
      ensures owner.None? ==> r == Err(NoSuchOwner) && unchanged(ownerRepository)
      ensures owner.Some? ==>
        && ownerRepository.ownerCounter == old(ownerRepository.ownerCounter) + 1
        && ownerRepository.updateCalls == old(ownerRepository.updateCalls)
      ensures owner.Some? && owner.value.properties.Some? ==>
        && r == Ok(true)
        && ownerRepository.propertyCounter ==
             old(ownerRepository.propertyCounter) + |owner.value.properties.value|
        && ownerRepository.allOwners == old(ownerRepository.allOwners) +
             [owner.value.(id := old(ownerRepository.ownerCounter),
                           properties := Some(Numbered(owner.value.properties.value,
                                                        old(ownerRepository.propertyCounter))))]
      ensures owner.Some? && owner.value.properties.None? ==>
        && r == Err(NullPointer)
        && ownerRepository.allOwners == old(ownerRepository.allOwners)
        && ownerRepository.propertyCounter == old(ownerRepository.propertyCounter)
    {
      if owner.None? {
        return Err(NoSuchOwner);
      }
      r := ownerRepository.Save(owner.value);
    }

    /** A null owner raises UpdateOwnerFailed before the lookup; an unknown
        id raises NoSuchOwner; otherwise the store's update decides. */
    method UpdateInfo(id: int, ownerToUpdate: Option<Owner>) returns (r: Result<bool>)
      requires ownerRepository.Valid()
      modifies ownerRepository
      ensures ownerRepository.Valid()
      ensures ownerToUpdate.None? ==> r == Err(UpdateOwnerFailed) && unchanged(ownerRepository)
      ensures ownerToUpdate.Some? && !HasKey(old(ownerRepository.allOwners), OwnerId, id) ==>
        r == Err(NoSuchOwner) && unchanged(ownerRepository)
      ensures ownerToUpdate.Some? && HasKey(old(ownerRepository.allOwners), OwnerId, id) ==>
        && ownerRepository.updateCalls == old(ownerRepository.updateCalls) + [(id, ownerToUpdate.value)]
        && ownerRepository.ownerCounter == old(ownerRepository.ownerCounter)
      ensures ownerToUpdate.Some? && ownerToUpdate.value.properties.None? &&
              HasKey(old(ownerRepository.allOwners), OwnerId, id) ==>
        && r == Err(NullPointer) && ownerRepository.allOwners == old(ownerRepository.allOwners)
        && ownerRepository.propertyCounter == old(ownerRepository.propertyCounter)
      ensures ownerToUpdate.Some? && ownerToUpdate.value.properties.Some? &&
              HasKey(old(ownerRepository.allOwners), OwnerId, id) ==>
        && r == Ok(true)
        && ownerRepository.propertyCounter ==
             old(ownerRepository.propertyCounter) + |ownerToUpdate.value.properties.value|
        && ownerRepository.allOwners == UpdatedOwners(old(ownerRepository.allOwners), id, ownerToUpdate.value,
             Numbered(ownerToUpdate.value.properties.value, old(ownerRepository.propertyCounter)))
    {
      if ownerToUpdate.None? {
        return Err(UpdateOwnerFailed);
      }
      var owner := ownerRepository.FindById(id);
      if owner.None? {
        return Err(NoSuchOwner);
      }
      r := ownerRepository.Update(id, ownerToUpdate.value);
    }

    /** Removes the owner with that id; only the owner list changes. */
    method RemoveOwner(id: int) returns (removed: bool)
      requires ownerRepository.Valid()
      modifies ownerRepository
      ensures ownerRepository.Valid()
      ensures removed == HasKey(old(ownerRepository.allOwners), OwnerId, id)
      ensures ownerRepository.allOwners == FilterKey(old(ownerRepository.allOwners), OwnerId, id, false)
      ensures ownerRepository.ownerCounter == old(ownerRepository.ownerCounter)
      ensures ownerRepository.propertyCounter == old(ownerRepository.propertyCounter)
      ensures ownerRepository.updateCalls == old(ownerRepository.updateCalls)
    {
      removed := ownerRepository.Remove(id);
    }
  }
}
