/** Entities of the property register, as values.
    Owner (model/owner/Owner.java), Property (model/property/Property.java),
    TaxRate (model/TaxRate.java) and Complain (model/Complain.java), plus the
    exception kinds the services and repositories raise. */
module Domain {

  datatype Option<+T> = None | Some(value: T)

  /** The exception classes the core throws; NullPointer stands for the
      NullPointerException a null property list causes. */
  datatype Error =
    | NoSuchOwner
    | PropertyNotFound
    | InvalidTaxRateNumber
    | UpdateOwnerFailed
    | NoDebtorsInDebtorList
    | DontHaveTaxDebts
    | PropertyTypeDoesNotExist
    | NullPointer

  /** A value, or the exception thrown instead of returning it. */
  datatype Result<+T> = Ok(value: T) | Err(error: Error)

  datatype PropertyType = FLAT | HOUSE | OFFICE

  /** The name of an enum constant: never empty. */
  type ConstantName = s: string | |s| >= 1 witness "A"

  /** SINGLE and MARRIED are the constants the code names; Unlisted stands
      for any further constant the enum may declare, with its name. */
  datatype FamilyStatus = SINGLE | MARRIED | Unlisted(name: ConstantName)

  datatype PropertyCondition = GOOD | MEDIUM | BAD_REPAIR

  datatype Date = Date(year: int, month: int, day: int)

  datatype Property = Property(
    id: int,
    propertyType: PropertyType,
    city: string,
    address: string,
    square: int,
    numberOfRooms: int,
    cost: real,
    dateOfBecomingOwner: Date,
    dateOfBuilding: Date,
    propertyCondition: PropertyCondition)

  /** `properties` is None when the Java list is null (absent), which is not
      the same as an empty list. */
  datatype Owner = Owner(
    id: int,
    firstName: string,
    lastName: string,
    age: int,
    familyStatus: FamilyStatus,
    hasChildren: bool,
    email: string,
    phoneNumber: string,
    birthday: Date,
    taxesDebt: real,
    properties: Option<seq<Property>>)

  /** The rate is an exact decimal (currency per unit of area). */
  datatype TaxRate = TaxRate(id: int, propertyType: PropertyType, tax: real)

  datatype Complain = Complain(id: int, subject: string, text: string, userId: int)

  // Key functions, passed to the generic searches of module Seqs.
  function OwnerId(o: Owner): int { o.id }
  function PropertyId(p: Property): int { p.id }
  function RateType(t: TaxRate): PropertyType { t.propertyType }
  function ComplainId(c: Complain): int { c.id }
  function ComplainUserId(c: Complain): int { c.userId }

  /** An owner is a debtor when the debt is strictly positive. */
  predicate IsDebtor(o: Owner) { o.taxesDebt > 0.0 }

  /** Gives `props` the ids start, start + 1, ... in list order, as the loops
      `property.setId(counter++)` of the owner stores do. */
  function Numbered(props: seq<Property>, start: int): (r: seq<Property>)
    ensures |r| == |props|
    ensures forall j :: 0 <= j < |r| ==> r[j] == props[j].(id := start + j)
  {
    seq(|props|, j requires 0 <= j < |props| => props[j].(id := start + j))
  }
}
