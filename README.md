# Property register core, modelled in Dafny

This project models the core of a property register service. The register keeps
owners, the properties they hold, the tax rate of each property type and user
complaints. On top of those stores it offers these services:

- **OwnerService** computes an owner's tax obligation: the base tax, times a
  household leeway. It also compounds every debtor's debt once per cycle (× 1.05,
  rounded half-up to one decimal) and guards the add and update requests.
- **DebtorNotificationService** builds the e-mail events sent to debtors.
- **PropertyService** checks property requests against the owner store and hands
  them on to a property repository.

The stores are the in-memory repositories:

- the two owner stores, `InMemoryOwnerRepository` and `InMemoryOwnerRealization`;
- the seeded `InMemoryPropertyRepository`;
- the two tax-rate tables, `InMemoryTaxRateRepository` and `InMemoryTaxRateRealization`;
- `InMemoryComplainRepository`.

How the model is built:

- Entities (`Owner`, `Property`, `TaxRate`, `Complain`) are datatypes, and a null
  reference is an `Option`.
- An exception is the `Err` case of a `Result`, one constructor per exception class.
  `NullPointer` stands for the NullPointerException a null property list causes.
- `BigDecimal` values are exact Dafny `real`s. `setScale(1, HALF_UP)` is rounding to
  the nearest tenth, ties away from zero.
- Every store is a class whose list is a `seq` field, with its id counters as
  fields. Each method states the new list, and the store invariants (distinct ids,
  ids below the counter, unique property ids) are proved to be kept.
- The services are classes wired to the stores the application configures
  (`config/AppConfig.java`). OwnerService talks to `InMemoryOwnerRealization` and
  `InMemoryTaxRateRealization`; the rate service in between only forwards `getAll`.
- The e-mail sender is a log of the events handed to it.

Modules, one per file:

- `Domain`: entities and errors.
- `Seqs`: first match, filtering, distinct keys.
- `Money`: rounding and the debt recount.
- `TaxRates`
- `OwnerStores`
- `OwnerServiceModel`
- `PropertyStore`
- `ComplainStore`
- `DebtorNotification`
- `PropertyServiceModel`

## Model

| member | source | states |
|---|---|---|
| Domain.Numbered | src/main/java/com/tvo/propertyregister/repository/inmemory/InMemoryOwnerRealization.java:50-52 | the properties get ids start, start+1, … in list order; nothing else about them changes |
| Money.RoundHalfUp1 | src/main/java/com/tvo/propertyregister/service/OwnerService.java:54 | the result has one decimal and lies within half a tenth of x, a tie going away from zero; the sign is kept |
| Money.RoundHalfUp1Unique | src/main/java/com/tvo/propertyregister/service/OwnerService.java:54 | for x ≥ 0, the one-decimal value in (x − 0.05, x + 0.05] is exactly the rounding of x |
| Money.Recount | src/main/java/com/tvo/propertyregister/service/OwnerService.java:53-54 | the recounted debt has one decimal, is non-negative and lies within 0.05 of debt × 1.05 |
| Money.RecountNeverDecreases | src/main/java/com/tvo/propertyregister/service/OwnerService.java:51-55 | a positive debt with one decimal never shrinks, so a debtor stays a debtor |
| Money.SmallDebtVanishes | src/main/java/com/tvo/propertyregister/service/OwnerService.java:51-55 | a positive debt below 1/21 is rounded to 0 |
| Money.RecountExamples | src/main/java/com/tvo/propertyregister/service/OwnerService.java:53-54 | 10000 becomes 10500.0 and then 11025.0; 20000 becomes 21000.0 |
| TaxRates.SetFirstRate | src/main/java/com/tvo/propertyregister/repository/inmemory/InMemoryTaxRateRepository.java:24-30 | only the first entry of the type takes the new rate; every type keeps its place |
| TaxRates.SetAllRates | src/main/java/com/tvo/propertyregister/repository/inmemory/InMemoryTaxRateRealization.java:23-29 | every entry of the type takes the rate and keeps its id; entries of other types are untouched |
| TaxRates.SetAllRatesAbsent | src/main/java/com/tvo/propertyregister/repository/inmemory/InMemoryTaxRateRealization.java:23-29 | a type the table lacks changes nothing |
| TaxRates.SetAllIsSetFirstWhenUnique | src/main/java/com/tvo/propertyregister/repository/inmemory/InMemoryTaxRateRepository.java:24-30 | with one entry per type, the two changeTax variants give the same table |
| TaxRates.DefaultRatesCanonical | src/main/java/com/tvo/propertyregister/repository/inmemory/InMemoryTaxRateRepository.java:13-16 | the seeded table lists FLAT, HOUSE, OFFICE once each, in that order |
| TaxRates.InMemoryTaxRateRepository.constructor | src/main/java/com/tvo/propertyregister/repository/inmemory/InMemoryTaxRateRepository.java:13-16 | the table starts as FLAT 6, HOUSE 8, OFFICE 13, in canonical order |
| TaxRates.InMemoryTaxRateRepository.GetAll | src/main/java/com/tvo/propertyregister/repository/inmemory/InMemoryTaxRateRepository.java:18-21 | returns the table |
| TaxRates.InMemoryTaxRateRepository.ChangeTax | src/main/java/com/tvo/propertyregister/repository/inmemory/InMemoryTaxRateRepository.java:23-33 | a known type: Ok(true) and the first entry changes; an unknown type: PropertyTypeDoesNotExist and no change |
| TaxRates.InMemoryTaxRateRealization.constructor | src/main/java/com/tvo/propertyregister/repository/inmemory/InMemoryTaxRateRealization.java:12-15 | the table starts as FLAT 6, HOUSE 8, OFFICE 13 |
| TaxRates.InMemoryTaxRateRealization.GetAll | src/main/java/com/tvo/propertyregister/repository/inmemory/InMemoryTaxRateRealization.java:17-20 | returns the table |
| TaxRates.InMemoryTaxRateRealization.ChangeTax | src/main/java/com/tvo/propertyregister/repository/inmemory/InMemoryTaxRateRealization.java:22-29 | every entry of the type takes the rate (no early exit), types are kept, and an unknown type is a silent no-op |
| OwnerStores.Lookup | src/main/java/com/tvo/propertyregister/repository/inmemory/InMemoryOwnerRealization.java:23-31 | finds an owner iff one with that id is stored; the one found has that id and is stored |
| OwnerStores.Debtors | src/main/java/com/tvo/propertyregister/repository/inmemory/InMemoryOwnerRealization.java:33-44 | exactly the stored owners with a positive debt |
| OwnerStores.UpdatedOwners | src/main/java/com/tvo/propertyregister/repository/inmemory/InMemoryOwnerRealization.java:63-76 | the overwrite keeps the number and the ids of the owners |
| OwnerStores.RemoveKeepsInvariant | src/main/java/com/tvo/propertyregister/repository/inmemory/InMemoryOwnerRealization.java:79-82 | removing owners keeps ids distinct and below the counters |
| OwnerStores.NumberedBelow | src/main/java/com/tvo/propertyregister/repository/inmemory/InMemoryOwnerRealization.java:50-52 | freshly numbered ids lie below the advanced property counter |
| OwnerStores.RaisedCounterKeepsInvariant | src/main/java/com/tvo/propertyregister/repository/inmemory/InMemoryOwnerRealization.java:50-52 | advancing the property counter keeps every stored id below it |
| OwnerStores.UpdatedKeepsInvariant | src/main/java/com/tvo/propertyregister/repository/inmemory/InMemoryOwnerRealization.java:63-76 | overwriting an owner with a freshly numbered list keeps owner ids distinct and every id below its counter |
| OwnerStores.InMemoryOwnerRealization.constructor | src/main/java/com/tvo/propertyregister/repository/inmemory/InMemoryOwnerRealization.java:13-15 | an empty store with both counters at 1 |
| OwnerStores.InMemoryOwnerRealization.GetAllOwners | src/main/java/com/tvo/propertyregister/repository/inmemory/InMemoryOwnerRealization.java:17-20 | returns the stored owners |
| OwnerStores.InMemoryOwnerRealization.FindById | src/main/java/com/tvo/propertyregister/repository/inmemory/InMemoryOwnerRealization.java:22-31 | the first owner with that id, or null |
| OwnerStores.InMemoryOwnerRealization.FindDebtors | src/main/java/com/tvo/propertyregister/repository/inmemory/InMemoryOwnerRealization.java:33-44 | the owners with a positive debt, in stored order |
| OwnerStores.InMemoryOwnerRealization.NumberProperties | src/main/java/com/tvo/propertyregister/repository/inmemory/InMemoryOwnerRealization.java:59-61 | the properties take the next ids of the counter, which moves on by their number |
| OwnerStores.InMemoryOwnerRealization.Save | src/main/java/com/tvo/propertyregister/repository/inmemory/InMemoryOwnerRealization.java:46-55 | the owner gets the next owner id and its properties fresh ids, and it is appended; a null list fails after the owner id is taken; the invariant is kept |
| OwnerStores.InMemoryOwnerRealization.Update | src/main/java/com/tvo/propertyregister/repository/inmemory/InMemoryOwnerRealization.java:57-77 | the incoming properties are renumbered first; the first owner with the id takes every field but id, age and birthday; the answer is whether one existed |
| OwnerStores.InMemoryOwnerRealization.Remove | src/main/java/com/tvo/propertyregister/repository/inmemory/InMemoryOwnerRealization.java:79-82 | every owner with the id goes; true iff one existed; the invariant is kept |
| OwnerStores.InMemoryOwnerRepository.constructor | src/main/java/com/tvo/propertyregister/repository/inmemory/InMemoryOwnerRepository.java:15-17 | an empty store with both counters at 1 |
| OwnerStores.InMemoryOwnerRepository.FindAll | src/main/java/com/tvo/propertyregister/repository/inmemory/InMemoryOwnerRepository.java:19-22 | returns the stored owners |
| OwnerStores.InMemoryOwnerRepository.FindById | src/main/java/com/tvo/propertyregister/repository/inmemory/InMemoryOwnerRepository.java:24-33 | the first owner with that id, or NoSuchOwner |
| OwnerStores.InMemoryOwnerRepository.FindDebtors | src/main/java/com/tvo/propertyregister/repository/inmemory/InMemoryOwnerRepository.java:35-46 | the owners with a positive debt, in stored order |
| OwnerStores.InMemoryOwnerRepository.NumberProperties | src/main/java/com/tvo/propertyregister/repository/inmemory/InMemoryOwnerRepository.java:52-54 | the properties take the next ids of the counter |
| OwnerStores.InMemoryOwnerRepository.Save | src/main/java/com/tvo/propertyregister/repository/inmemory/InMemoryOwnerRepository.java:48-57 | the same as the other store's save |
| OwnerStores.InMemoryOwnerRepository.Update | src/main/java/com/tvo/propertyregister/repository/inmemory/InMemoryOwnerRepository.java:59-81 | as the other store, but a missing owner raises UpdateOwnerFailed (after the renumbering) |
| OwnerStores.InMemoryOwnerRepository.Remove | src/main/java/com/tvo/propertyregister/repository/inmemory/InMemoryOwnerRepository.java:83-86 | every owner with the id goes; true iff one existed |
| OwnerServiceModel.RateIndex | src/main/java/com/tvo/propertyregister/service/OwnerService.java:120-134 | FLAT uses rate 0, HOUSE rate 1 and OFFICE rate 2 |
| OwnerServiceModel.BaseTaxAppend | src/main/java/com/tvo/propertyregister/service/OwnerService.java:124-137 | the base tax of two lists together is the sum of their base taxes |
| OwnerServiceModel.BaseTaxNonNegative | src/main/java/com/tvo/propertyregister/service/OwnerService.java:124-137 | with non-negative areas and rates, the base tax is non-negative |
| OwnerServiceModel.Leeway | src/main/java/com/tvo/propertyregister/service/OwnerService.java:92-104 | the leeway is one of 1, 0.9, 0.8, 0.7 |
| OwnerServiceModel.LeewayCases | src/main/java/com/tvo/propertyregister/service/OwnerService.java:92-104 | single 1, married 0.9, married parent 0.8, single parent 0.7, each iff that household; any other status takes only the non-SINGLE branch: 0.9 with children, 1 without |
| OwnerServiceModel.TaxObligationErrors | src/main/java/com/tvo/propertyregister/service/OwnerService.java:85-118 | errors in order: no owner, then a null property list, then a table not of size 3; otherwise a value |
| OwnerServiceModel.EmptyPortfolioOwesNothing | src/main/java/com/tvo/propertyregister/service/OwnerService.java:106-137 | an empty (not null) property list owes 0 |
| OwnerServiceModel.TaxObligationBounds | src/main/java/com/tvo/propertyregister/service/OwnerService.java:92-106 | whenever the base tax is not negative, the obligation lies between 70% of the base tax and the base tax |
| OwnerServiceModel.TaxObligationBoundsNonNegative | src/main/java/com/tvo/propertyregister/service/OwnerService.java:92-106 | in particular those bounds hold when no area and no rate is negative |
| OwnerServiceModel.PositionalRateIsOwnRate | src/main/java/com/tvo/propertyregister/service/OwnerService.java:120-122 | on a table in canonical order, the positional pick is the entry of the property's own type |
| OwnerServiceModel.TaxObligationExamples | src/main/java/com/tvo/propertyregister/service/OwnerService.java:85-137 | with the seeded rates: a FLAT of 70 gives 420, 378, 336, 294 for the four households; FLAT 70, HOUSE 200 and OFFICE 100 give 3320 |
| OwnerServiceModel.RecountCallsPerDebtor | src/main/java/com/tvo/propertyregister/service/OwnerService.java:50-57 | one update call per debtor, in order, carrying the debtor with only its debt recounted |
| OwnerServiceModel.RecountProgressStep | src/main/java/com/tvo/propertyregister/service/OwnerService.java:57 | one update call, made when the property counter stands at the debtor's start, recounts exactly the debtor it names, numbering its properties from there, and leaves every other owner alone |
| OwnerServiceModel.DebtorPropsOfDebtors | src/main/java/com/tvo/propertyregister/repository/inmemory/InMemoryOwnerRealization.java:33-44 | the properties held by the debtors of a list are those of its debtor list |
| OwnerServiceModel.DebtorStart | src/main/java/com/tvo/propertyregister/service/OwnerService.java:50-57 | the i-th debtor is stored after exactly the debtors before it in the debtor list, so update numbers its properties on from theirs |
| OwnerServiceModel.RecountLoopStep | src/main/java/com/tvo/propertyregister/service/OwnerService.java:50-57 | the i-th debtor's id is not among those handled so far, and its call extends the log by one |
| OwnerServiceModel.RecountProgressComplete | src/main/java/com/tvo/propertyregister/service/OwnerService.java:47-58 | once every debtor is done, every debtor is recounted with its properties numbered from its start, and every other owner is untouched |
| OwnerServiceModel.DebtorsDistinct | src/main/java/com/tvo/propertyregister/repository/inmemory/InMemoryOwnerRealization.java:33-44 | the debtor list of a store with distinct ids has distinct ids |
| OwnerServiceModel.OwnerService.constructor | src/main/java/com/tvo/propertyregister/service/OwnerService.java:27-28 | the service uses the stores it is given |
| OwnerServiceModel.OwnerService.GetAllOwners | src/main/java/com/tvo/propertyregister/service/OwnerService.java:30-32 | returns the stored owners |
| OwnerServiceModel.OwnerService.GetOwnerById | src/main/java/com/tvo/propertyregister/service/OwnerService.java:34-41 | the stored owner with that id, or NoSuchOwner |
| OwnerServiceModel.OwnerService.FindDebtors | src/main/java/com/tvo/propertyregister/service/OwnerService.java:43-45 | the owners with a positive debt |
| OwnerServiceModel.OwnerService.CountBaseTax | src/main/java/com/tvo/propertyregister/service/OwnerService.java:109-138 | PropertyNotFound for a null list, InvalidTaxRateNumber for a table not of size 3, otherwise the sum of area × the rate at the type's position in the table, which is the type's own rate on a table in canonical order (PositionalRateIsOwnRate) |
| OwnerServiceModel.OwnerService.CountTaxObligation | src/main/java/com/tvo/propertyregister/service/OwnerService.java:85-107 | the obligation of the stored owner: base tax × leeway, or the first error that applies |
| OwnerServiceModel.OwnerService.CountLeeway | src/main/java/com/tvo/propertyregister/service/OwnerService.java:92-104 | the leeway the subtraction steps reach is the household leeway Leeway, whose four values LeewayCases states |
| OwnerServiceModel.OwnerService.RecountDebtor | src/main/java/com/tvo/propertyregister/service/OwnerService.java:51-57 | a debtor's debt is compounded and handed to one update call; the owner counter stays, the property counter moves on by the debtor's list length, and the store holds what update makes of the recounted debtor, its properties numbered from the old property counter |
| OwnerServiceModel.OwnerService.RecountDebtForDebtors | src/main/java/com/tvo/propertyregister/service/OwnerService.java:47-58 | one update call per debtor in order; the owner counter stays and the property counter moves on by the number of properties the debtors hold; afterwards every debtor's debt is recounted and its properties renumbered, continuing from the debtors before it, with nothing else changed, and every other owner is untouched |
| OwnerServiceModel.OwnerService.AddNewOwner | src/main/java/com/tvo/propertyregister/service/OwnerService.java:60-66 | a null owner raises NoSuchOwner with no change; otherwise the store's save: the owner id is taken in every case; a null property list then raises NullPointer with the owners and the property counter unchanged; otherwise the owner is appended with the next ids and the property counter moves on by the list length |
| OwnerServiceModel.OwnerService.UpdateInfo | src/main/java/com/tvo/propertyregister/service/OwnerService.java:68-79 | a null owner raises UpdateOwnerFailed, then an unknown id raises NoSuchOwner, both with no change; otherwise exactly one update call, which keeps the owner counter, fails with NullPointer for a null property list (owners and property counter unchanged) and otherwise overwrites the owner, moving the property counter on by the list length |
| OwnerServiceModel.OwnerService.RemoveOwner | src/main/java/com/tvo/propertyregister/service/OwnerService.java:81-83 | every owner with the id goes; true iff one existed; both counters and the update log are unchanged |
| PropertyStore.Appended | src/main/java/com/tvo/propertyregister/repository/inmemory/InMemoryPropertyRepository.java:74-78 | only the first owner with the id gains the property, at the end of its list |
| PropertyStore.EditedChangesOnlyThreeFields | src/main/java/com/tvo/propertyregister/repository/inmemory/InMemoryPropertyRepository.java:83-98 | update changes one property of one owner, and only its rooms, cost and ownership date |
| PropertyStore.EditedKeepsIdsUnique | src/main/java/com/tvo/propertyregister/repository/inmemory/InMemoryPropertyRepository.java:83-98 | update keeps property ids unique |
| PropertyStore.RemovedKeepsIdsUnique | src/main/java/com/tvo/propertyregister/repository/inmemory/InMemoryPropertyRepository.java:103-110 | remove keeps property ids unique |
| PropertyStore.AppendedFreshKeepsIdsUnique | src/main/java/com/tvo/propertyregister/repository/inmemory/InMemoryPropertyRepository.java:57-80 | a property numbered one past every id can join any list and ids stay unique |
| PropertyStore.FirstSaveDuplicatesSeededId | src/main/java/com/tvo/propertyregister/repository/inmemory/InMemoryPropertyRepository.java:30-80 | the seeds are unique, but the first save hands out id 3, which the seeded OFFICE holds: owner 3 ends up with two properties with id 3 |
| PropertyStore.SeedIdsUnique | src/main/java/com/tvo/propertyregister/repository/inmemory/InMemoryPropertyRepository.java:19-57 | the three seeded properties carry distinct ids none above 3, the counter's start |
| PropertyStore.ReplacedListKeepsUnique | src/main/java/com/tvo/propertyregister/repository/inmemory/InMemoryPropertyRepository.java:82-110 | giving one owner a list of distinct ids, all taken from its old list, keeps property ids unique across the store |
| PropertyStore.EditKeepsListIds | src/main/java/com/tvo/propertyregister/repository/inmemory/InMemoryPropertyRepository.java:94-96 | editing rooms, cost and date of one property keeps the list's set of ids and their distinctness |
| PropertyStore.FilterKeyListIds | src/main/java/com/tvo/propertyregister/repository/inmemory/InMemoryPropertyRepository.java:106 | removeIf leaves a subset of the list's ids |
| PropertyStore.AppendFreshDistinct | src/main/java/com/tvo/propertyregister/repository/inmemory/InMemoryPropertyRepository.java:70-80 | a property numbered above every id of a list of distinct ids can join it and ids stay distinct |
| PropertyStore.GrownListKeepsUnique | src/main/java/com/tvo/propertyregister/repository/inmemory/InMemoryPropertyRepository.java:70-80 | a list that gains only the fresh id one past the bound keeps ids unique, with the bound moved on by one |
| PropertyStore.AppendAt | src/main/java/com/tvo/propertyregister/repository/inmemory/InMemoryPropertyRepository.java:74-76 | appending to the owner found keeps every list present, and a property numbered one past the bound keeps ids unique |
| PropertyStore.EditAt | src/main/java/com/tvo/propertyregister/repository/inmemory/InMemoryPropertyRepository.java:83-98 | once owner and property are found, the store equals the edited one, every list is present, and unique ids stay unique |
| PropertyStore.RemoveAt | src/main/java/com/tvo/propertyregister/repository/inmemory/InMemoryPropertyRepository.java:104-107 | once the owner is found, the list shrinks exactly when a property had the id, and unique ids stay unique |
| PropertyStore.InMemoryPropertyRepository.constructor | src/main/java/com/tvo/propertyregister/repository/inmemory/InMemoryPropertyRepository.java:19-57 | the three seeded owners with one property each, and the counter at 3 |
| PropertyStore.InMemoryPropertyRepository.GetAllProperties | src/main/java/com/tvo/propertyregister/repository/inmemory/InMemoryPropertyRepository.java:59-68 | the list of the owner with the id, or NoSuchOwner |
| PropertyStore.InMemoryPropertyRepository.Save | src/main/java/com/tvo/propertyregister/repository/inmemory/InMemoryPropertyRepository.java:70-80 | the property takes id counter and the counter moves on before the lookup; a known owner gets the property appended, an unknown one raises NoSuchOwner with the counter still advanced |
| PropertyStore.InMemoryPropertyRepository.SaveFresh | src/main/java/com/tvo/propertyregister/repository/inmemory/InMemoryPropertyRepository.java:70-80 | save with the counter advanced before it is read: the same outcomes, and unique ids stay unique |
| PropertyStore.InMemoryPropertyRepository.Update | src/main/java/com/tvo/propertyregister/repository/inmemory/InMemoryPropertyRepository.java:82-99 | NoSuchOwner, then PropertyNotFound, both with no change; otherwise the first match takes rooms, cost and ownership date; unique ids stay unique |
| PropertyStore.InMemoryPropertyRepository.Remove | src/main/java/com/tvo/propertyregister/repository/inmemory/InMemoryPropertyRepository.java:102-110 | every property with the id leaves the owner's list, true iff one did; an unknown owner raises NoSuchOwner |
| PropertyStore.InMemoryPropertyRepository.Clear | src/main/java/com/tvo/propertyregister/repository/inmemory/InMemoryPropertyRepository.java:112-118 | the counter goes back to 3 and every owner back to its one seeded property |
| ComplainStore.ComplainStatics.constructor | src/main/java/com/tvo/propertyregister/repository/inmemory/InMemoryComplainRepository.java:11-12 | the shared state starts with no complaints and the counter at 1 |
| ComplainStore.OverwrittenKeepsIds | src/main/java/com/tvo/propertyregister/repository/inmemory/InMemoryComplainRepository.java:33-44 | update keeps length, order and ids, and changes only the first match's subject, text and user |
| ComplainStore.WithoutFirstIsWithoutAll | src/main/java/com/tvo/propertyregister/repository/inmemory/InMemoryComplainRepository.java:47-56 | with distinct ids, removing the first match removes every match, one complaint in all |
| ComplainStore.WithoutFirstKeepsInvariant | src/main/java/com/tvo/propertyregister/repository/inmemory/InMemoryComplainRepository.java:47-56 | remove keeps ids distinct and below the counter |
| ComplainStore.InMemoryComplainRepository.constructor | src/main/java/com/tvo/propertyregister/repository/inmemory/InMemoryComplainRepository.java:9-12 | every instance works on the one shared state |
| ComplainStore.InMemoryComplainRepository.FindAll | src/main/java/com/tvo/propertyregister/repository/inmemory/InMemoryComplainRepository.java:14-17 | returns the shared list |
| ComplainStore.InMemoryComplainRepository.FindByUserId | src/main/java/com/tvo/propertyregister/repository/inmemory/InMemoryComplainRepository.java:19-24 | exactly the user's complaints, in stored order |
| ComplainStore.InMemoryComplainRepository.Save | src/main/java/com/tvo/propertyregister/repository/inmemory/InMemoryComplainRepository.java:26-30 | the complaint takes id counter, the counter moves on, the complaint is appended, and the answer is true |
| ComplainStore.InMemoryComplainRepository.Update | src/main/java/com/tvo/propertyregister/repository/inmemory/InMemoryComplainRepository.java:32-44 | true iff the id exists, and then the first match takes subject, text and user; otherwise nothing changes |
| ComplainStore.InMemoryComplainRepository.Remove | src/main/java/com/tvo/propertyregister/repository/inmemory/InMemoryComplainRepository.java:46-56 | true iff the id exists, and then the first match leaves; otherwise nothing changes |
| ComplainStore.SharedBetweenInstances | src/main/java/com/tvo/propertyregister/repository/inmemory/InMemoryComplainRepository.java:11-12 | a complaint saved through one instance is seen by another |
| DebtorNotification.EmailSender.constructor | src/main/java/com/tvo/propertyregister/service/DebtorNotificationService.java:24 | nothing sent yet |
| DebtorNotification.EmailSender.Send | src/main/java/com/tvo/propertyregister/service/DebtorNotificationService.java:46 | the event is appended to what was sent |
| DebtorNotification.DecimalString | src/main/java/com/tvo/propertyregister/service/DebtorNotificationService.java:29 | the count as decimal digits, without a leading zero |
| DebtorNotification.DecimalStringRoundTrip | src/main/java/com/tvo/propertyregister/service/DebtorNotificationService.java:29 | the rendered count reads back as the count |
| DebtorNotification.TitleCaseRoundTrip | src/main/java/com/tvo/propertyregister/service/DebtorNotificationService.java:62 | the first letter is kept, the rest lowered, and upper-casing gives back the enum name |
| DebtorNotification.StatusNamesInTitleCase | src/main/java/com/tvo/propertyregister/service/DebtorNotificationService.java:62 | SINGLE becomes "Single" and MARRIED becomes "Married" |
| DebtorNotification.BulkEventsPerDebtor | src/main/java/com/tvo/propertyregister/service/DebtorNotificationService.java:28-47 | one event per debtor, to its address, with exactly four parameters: that debtor's names and debt, and the same count (the batch size) in every event |
| DebtorNotification.SingleEventRendering | src/main/java/com/tvo/propertyregister/service/DebtorNotificationService.java:61-71 | hasChildren renders as "Yes" or "No"; the family status renders as "Single" or "Married", and any other constant as its name in title case |
| DebtorNotification.RefillGivesBulkParams | src/main/java/com/tvo/propertyregister/service/DebtorNotificationService.java:35-38 | whichever debtor filled the shared map before, putting a debtor's names and debt into it leaves exactly that debtor's four bulk parameters |
| DebtorNotification.DebtorNotificationService.constructor | src/main/java/com/tvo/propertyregister/service/DebtorNotificationService.java:23-24 | the service uses the owner service and sender it is given |
| DebtorNotification.DebtorNotificationService.NotifyAllDebtors | src/main/java/com/tvo/propertyregister/service/DebtorNotificationService.java:26-50 | no debtors: NoDebtorsInDebtorList and nothing sent; otherwise true and exactly the bulk events, in debtor order |
| DebtorNotification.DebtorNotificationService.NotifyDebtorById | src/main/java/com/tvo/propertyregister/service/DebtorNotificationService.java:52-78 | NoSuchOwner, then DontHaveTaxDebts for a debt ≤ 0, both with nothing sent; otherwise true and exactly one single-debtor event |
| PropertyServiceModel.GetAllOutcome | src/main/java/com/tvo/propertyregister/service/PropertyService.java:25-32 | NoSuchOwner iff the owner is missing; otherwise findAll of that owner |
| PropertyServiceModel.AddOutcomeCases | src/main/java/com/tvo/propertyregister/service/PropertyService.java:34-49 | a save happens iff the property is present and the owner exists; a null property wins over a missing owner; the saved owner always has a list, its own if it had one |
| PropertyServiceModel.RemoveOutcomeExact | src/main/java/com/tvo/propertyregister/service/PropertyService.java:80-95 | PropertyNotFound iff no property has the id; otherwise the list without it, and with distinct ids exactly one property is taken out |
| PropertyServiceModel.EditedPropertyKeeps | src/main/java/com/tvo/propertyregister/service/PropertyService.java:66-69 | the edit changes only city, address, rooms and condition |
| PropertyServiceModel.BaseTaxWithout | src/main/java/com/tvo/propertyregister/service/OwnerService.java:124-137 | taking one property out lowers the base tax by exactly its tax |
| PropertyServiceModel.WrittenListKeepsBaseTax | src/main/java/com/tvo/propertyregister/service/PropertyService.java:61-77 | with distinct ids, the list update writes has the same length and the same base tax as before |
| PropertyServiceModel.EditedInStoreKeepsInvariant | src/main/java/com/tvo/propertyregister/service/PropertyService.java:61-69 | the in-place edit of the stored property keeps the owner store invariant and touches no other owner |
| PropertyServiceModel.UpdateAt | src/main/java/com/tvo/propertyregister/service/PropertyService.java:56-77 | once owner and property are found, update hands on the list without the id plus the edited property, the store holds the edit in place, and the owner store invariant is kept |
| PropertyServiceModel.PropertyService.constructor | src/main/java/com/tvo/propertyregister/service/PropertyService.java:22-23 | the service uses the owner store it is given |
| PropertyServiceModel.PropertyService.GetAll | src/main/java/com/tvo/propertyregister/service/PropertyService.java:25-32 | NoSuchOwner for an unknown owner; otherwise findAll |
| PropertyServiceModel.PropertyService.Add | src/main/java/com/tvo/propertyregister/service/PropertyService.java:34-49 | PropertyNotFound, then NoSuchOwner; otherwise a stored owner without a list gets an empty one, and the save is handed the owner and the property |
| PropertyServiceModel.PropertyService.Update | src/main/java/com/tvo/propertyregister/service/PropertyService.java:51-78 | PropertyNotFound, NoSuchOwner, NullPointer, then PropertyNotFound; otherwise the stored property is edited in place, and the list without the id plus the edited property is handed on; the owner store invariant is kept |
| PropertyServiceModel.PropertyService.Remove | src/main/java/com/tvo/propertyregister/service/PropertyService.java:80-95 | NoSuchOwner, NullPointer, then PropertyNotFound when the filter drops nothing; otherwise the filtered list is handed on |

## Left out

- Object aliasing. The stores hold references, and callers can change stored objects
  behind a store's back; the model treats entities as values. The model does write back
  the two in-place changes PropertyService makes through the owner it looked up.
- notifyAllDebtors shares one HashMap across all the events it sends. The model records
  each event with the map's contents at the moment it is sent, so a sender that reads
  the map later is not modelled.
- clear() reuses the seeded Property objects, which earlier updates may have changed.
  The model restores the seeds as first built.
- The owner and property stores keep their id counters in static fields but their lists
  per instance. The model makes the counters fields of each instance, and the constructors
  model the first instance built after the class is loaded (owner and property counters
  at 1; the property store's counter at 3). A later instance would continue the counters
  where the earlier ones left them, which the model does not capture. Of these stores the
  application wires only `InMemoryOwnerRealization` (`config/AppConfig.java`, lines 17-35).
  The complaint store's static list and counter are a shared `ComplainStatics` object
  instead, because its instances share the list as well.
- DebtorNotification.LowerCase and DebtorNotification.TitleCase lower ASCII letters only,
  as Java's `toLowerCase()` does in the root or an English locale. The source calls
  `toLowerCase()` with the JVM's default locale, which can render otherwise: under a Turkish
  locale MARRIED becomes "Marrıed" with a dotless ı.
- Java `int` overflow of the id counters is not modelled; ids are unbounded integers.
- BigDecimal scale and `toString` are not modelled. The debt parameter of an e-mail is
  kept as the number it renders (`Amount`), not as the string.
- Persistence, messaging and scheduling are not modelled: MongoDB repositories,
  `InternalEmailSender` and its queue, the scheduled recount job, and controllers.
- `InMemoryPropertyRealization` is not part of this model. It is the property repository
  the application wires.
- The `PropertyRepository` interface PropertyService calls (`findAll`, `save(owner,
  property)`, `update(ownerId, list)`) has no implementation among the modelled files.
  Each PropertyService operation therefore returns the call it makes, and the caller
  gets that call's boolean answer.
- `InMemoryPropertyRepository` implements a different signature of that interface
  (`getAllProperties`, `save(ownerId, property)`, …). It is modelled as a store of its own.
- The tax-rate service between OwnerService and the rate table is not part of this
  model; OwnerService reads `InMemoryTaxRateRealization.getAll` directly.
- `model/owner/FamilyStatus.java` is not part of this model. The modelled code names only
  SINGLE and MARRIED. Any further constant is `Unlisted(name)`: it takes the non-SINGLE,
  non-MARRIED branches of the leeway (0.9 with children, 1 without) and renders by its name.
  A null family status is not modelled.
- `model/dto/EmailEventDto.java` is not part of this model. An event is the three
  values the service passes: address, type and parameter map.
- `InMemoryOwnerRealization` reads the debt through `getTaxesDept`/`setTaxesDept`.
  The model takes these as the same `taxesDebt` field.
- `InMemoryOwnerRepository.countAllDebts` returns null and is not modelled.
- Null arguments other than the owner and property that the services check (null
  strings, dates, a null `TaxRate`) are not modelled.

## Findings

| source | as written | input that shows it | evidently intended | confidence | as-written member | corrected member |
|---|---|---|---|---|---|---|
| src/main/java/com/tvo/propertyregister/repository/inmemory/InMemoryPropertyRepository.java:57-72 | the counter starts at 3 and `save` hands out `counter++`, the value before the increment | a fresh store; `save(3, p)` gives `p` id 3, which the seeded OFFICE of owner 3 already holds, so owner 3 lists two properties with id 3 | the next id is one past every id in use (`++counter`), so property ids stay unique | not executed | PropertyStore.FirstSaveDuplicatesSeededId | PropertyStore.InMemoryPropertyRepository.SaveFresh |
