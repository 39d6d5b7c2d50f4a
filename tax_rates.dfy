/** The two in-memory rate tables: InMemoryTaxRateRepository, whose
    changeTax updates the first entry of a type and throws on an unknown
    type, and InMemoryTaxRateRealization (the variant the application wires),
    whose changeTax updates every entry of the type and ignores unknown ones. */
module TaxRates {
  import opened Domain
  import opened Seqs

  /** The table both stores are seeded with: FLAT 6, HOUSE 8, OFFICE 13. */
  function DefaultRates(): seq<TaxRate> {
    [TaxRate(1, FLAT, 6.0), TaxRate(2, HOUSE, 8.0), TaxRate(3, OFFICE, 13.0)]
  }

  /** The property type of each entry, in table order. */
  function Types(rates: seq<TaxRate>): (r: seq<PropertyType>)
    ensures |r| == |rates|
    ensures forall i :: 0 <= i < |r| ==> r[i] == rates[i].propertyType
  {
    seq(|rates|, i requires 0 <= i < |rates| => rates[i].propertyType)
  }

  /** The order the service's positional lookup assumes. */
  const CanonicalTypes: seq<PropertyType> := [FLAT, HOUSE, OFFICE]

  /** The table after the first entry of type t gets rate `rate`. */
  function SetFirstRate(rates: seq<TaxRate>, t: PropertyType, rate: real): (r: seq<TaxRate>)
    requires HasKey(rates, RateType, t)
    ensures |r| == |rates| && Types(r) == Types(rates)
    ensures var k := FirstIndex(rates, RateType, t);
      r[k] == rates[k].(tax := rate) &&
      forall i :: 0 <= i < |r| && i != k ==> r[i] == rates[i]
  {
    var k := FirstIndex(rates, RateType, t);
    rates[k := rates[k].(tax := rate)]
  }

  /** The table after every entry of type t gets rate `rate`. */
  function SetAllRates(rates: seq<TaxRate>, t: PropertyType, rate: real): (r: seq<TaxRate>)
    ensures |r| == |rates| && Types(r) == Types(rates)
    ensures forall i :: 0 <= i < |r| && rates[i].propertyType != t ==> r[i] == rates[i]
    ensures forall i :: 0 <= i < |r| && rates[i].propertyType == t ==>
      r[i].tax == rate && r[i].id == rates[i].id
  {
    seq(|rates|, i requires 0 <= i < |rates| =>
      if rates[i].propertyType == t then rates[i].(tax := rate) else rates[i])
  }

  /** Changing a type the table does not hold leaves the table as it is. */
  lemma {:induction false} SetAllRatesAbsent(rates: seq<TaxRate>, t: PropertyType, rate: real)
    requires !HasKey(rates, RateType, t)
    ensures SetAllRates(rates, t, rate) == rates
  {
  }

  /** When every type occurs at most once (as in the seeded table) the two
      variants of changeTax agree. */
  lemma {:induction false} SetAllIsSetFirstWhenUnique(rates: seq<TaxRate>, t: PropertyType, rate: real)
    requires DistinctKeys(rates, RateType)
    requires HasKey(rates, RateType, t)
    ensures SetAllRates(rates, t, rate) == SetFirstRate(rates, t, rate)
  {
    var k := FirstIndex(rates, RateType, t);
    forall i | 0 <= i < |rates|
      ensures SetAllRates(rates, t, rate)[i] == SetFirstRate(rates, t, rate)[i]
    {
      if i != k {
        assert RateType(rates[i]) != RateType(rates[k]);
      }
    }
  }

  /** The seeded table has one entry per type, in canonical order. */
  lemma {:induction false} DefaultRatesCanonical()
    ensures Types(DefaultRates()) == CanonicalTypes
    ensures DistinctKeys(DefaultRates(), RateType)
  {
    assert Types(DefaultRates()) == [FLAT, HOUSE, OFFICE];
  }

  class InMemoryTaxRateRepository {
    var taxRates: seq<TaxRate>

    /** The seeded order; changeTax keeps the type of every entry, so the
        table never leaves it. */
    ghost predicate Valid()
      reads this
    {
      Types(taxRates) == CanonicalTypes
    }

    constructor()
      ensures Valid() && taxRates == DefaultRates()
    {
      taxRates := DefaultRates();
      DefaultRatesCanonical();
    }

    method GetAll() returns (r: seq<TaxRate>)
      ensures r == taxRates
    {
      r := taxRates;
    }

    /** The first entry of type t gets the new rate; an unknown type raises
        PropertyTypeDoesNotExist and changes nothing. */
    method ChangeTax(t: PropertyType, rate: real) returns (r: Result<bool>)
      modifies this
      ensures Types(taxRates) == Types(old(taxRates))
      ensures HasKey(old(taxRates), RateType, t) ==>
        r == Ok(true) && taxRates == SetFirstRate(old(taxRates), t, rate)
      ensures !HasKey(old(taxRates), RateType, t) ==>
        r == Err(PropertyTypeDoesNotExist) && taxRates == old(taxRates)
    {
      var i := 0;
      while i < |taxRates|
        invariant 0 <= i <= |taxRates|
        invariant taxRates == old(taxRates)
        invariant forall j :: 0 <= j < i ==> taxRates[j].propertyType != t
      {
        if taxRates[i].propertyType == t {
          assert FirstIndex(taxRates, RateType, t) == i;
          taxRates := taxRates[i := taxRates[i].(tax := rate)];
          return Ok(true);
        }
        i := i + 1;
      }
      r := Err(PropertyTypeDoesNotExist);
    }
  }

  class InMemoryTaxRateRealization {
    var taxRates: seq<TaxRate>

    /** The seeded order; changeTax keeps the type of every entry, so the
        table never leaves it. */
    ghost predicate Valid()
      reads this
    {
      Types(taxRates) == CanonicalTypes
    }

    constructor()
      ensures Valid() && taxRates == DefaultRates()
    {
      taxRates := DefaultRates();
      DefaultRatesCanonical();
    }

    method GetAll() returns (r: seq<TaxRate>)
      ensures r == taxRates
    {
      r := taxRates;
    }

    /** Every entry of type t takes the tax of `taxRate`; there is no early
        exit, and an unknown type is a silent no-op. */
    method ChangeTax(t: PropertyType, taxRate: TaxRate)
      modifies this
      ensures Types(taxRates) == Types(old(taxRates))
      ensures taxRates == SetAllRates(old(taxRates), t, taxRate.tax)
    {
      var i := 0;
      while i < |taxRates|
        invariant 0 <= i <= |taxRates| == |old(taxRates)|
        invariant forall j :: 0 <= j < i ==> taxRates[j] == SetAllRates(old(taxRates), t, taxRate.tax)[j]
        invariant forall j :: i <= j < |taxRates| ==> taxRates[j] == old(taxRates)[j]
      {
        if taxRates[i].propertyType == t {
          taxRates := taxRates[i := taxRates[i].(tax := taxRate.tax)];
        }
        i := i + 1;
      }
    }
  }
}
