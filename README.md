# Courier delivery domain: storage places and grid locations

A Dafny model of two domain types of a courier-delivery application.

- `SharedKernel` (`Location.dfy`) models `Location`. It is an immutable coordinate on a 10 x 10 grid. Its public constructor rejects any coordinate outside `[1, 10]`, checking x before y. Equality compares the components `(X, Y)`. `GetDistance` is the Manhattan distance.
- `CourierAggregate` (`StoragePlace.dfy`) models `StoragePlace`. It is a courier's cargo slot with a fixed name, a fixed capacity and an optional order id. It is a class whose `Store` and `Clear` methods update the order id in place. `CanStore` is a read-only query. `Create` is the validating factory.
- `Primitives` (`Primitives.dfy`) holds the library types these are written against: an option, a result, a 128-bit `Guid` whose all-zero value is `Guid.Empty`, and the error kinds (`ValueIsRequired`, `ValueIsInvalid`, `CannotStoreOrderInThisStoragePlace`, `OrderNotStoredInThisPlace`).

`Id`, `Name` and `Volume` are `const` fields: they are set once by the constructor and can never be reassigned, as in the source, where they are assigned only while the object is built.

`Location` values are built with the datatype constructor. The locations the constructor of `Location.cs` can produce form the subset type `GridLocation`, and this is the type of `NewLocation`'s success value and of `GetRandomLocation`'s result.

The class invariant `StoragePlace.Valid()` says the following. The id is not empty. The name is not empty. The capacity is positive. An occupied slot holds a non-empty order id. The ghost field `StoredVolume` records the volume that `Store` confirmed, and while the slot is occupied that volume is positive and strictly below the capacity. `Store` and `Clear` preserve the invariant, so it holds after any sequence of calls on a slot made by `Create`.

The model follows the code in the following places:

- The constructor of `Location` raises `ArgumentOutOfRangeException`, naming the coordinate (`Location.cs:23-24`). It is modelled as a `Failure(ArgumentOutOfRange("x" | "y"))` value. A revision that returns a `ValueIsInvalid` result is not the code modelled here.
- `GetDistance` in the code has no check for an absent argument. The model has none either.
- `CanStore` admits an order only when the capacity strictly exceeds its volume (`StoragePlace.cs:39`). A slot of volume 10 therefore refuses an order of volume 10. This is kept exactly as written.
- `Create` labels the volume error with the field name `"name"` (`StoragePlace.cs:29`). The model keeps this label.
- The failure branch after `CanStore` in `Store` (`StoragePlace.cs:48`) cannot be reached, because the volume is already known to be positive there. The model proves this with `assert false` in that branch.

## Model

| member | source | states |
|---|---|---|
| `SharedKernel.NewLocation` | DeliveryApp.Core/Domain/Model/SharedKernel/Location.cs:21-28 | Construction succeeds iff 1 <= x <= 10 and 1 <= y <= 10. The result then has X == x and Y == y and is on the grid. An off-grid x faults naming "x". With x on the grid, an off-grid y faults naming "y". |
| `SharedKernel.Location.Equals` | DeliveryApp.Core/Domain/Model/SharedKernel/Location.cs:37-42 | Comparing the equality components `[X, Y]` holds iff both coordinates agree, which is iff the two values are the same location. |
| `SharedKernel.Abs` | DeliveryApp.Core/Domain/Model/SharedKernel/Location.cs:32 | `Math.Abs`: the result is non-negative and is either n or -n. |
| `SharedKernel.GetDistance` | DeliveryApp.Core/Domain/Model/SharedKernel/Location.cs:30-33 | The Manhattan distance is non-negative. It is zero iff the two locations are equal. |
| `SharedKernel.GetRandomLocation` | DeliveryApp.Core/Domain/Model/SharedKernel/Location.cs:35 | For any two draws of `Next(1, 11)`, which lie in [1, 11), the constructor succeeds and the location is on the grid with those coordinates. |
| `SharedKernel.DistanceSymmetric` | DeliveryApp.Core/Domain/Model/SharedKernel/Location.cs:32 | The distance from a to b equals the distance from b to a. |
| `SharedKernel.DistanceAtMostMax` | DeliveryApp.Core/Domain/Model/SharedKernel/Location.cs:8-33 | Between two grid locations the distance is at most 18, which is (10 - 1) + (10 - 1). |
| `SharedKernel.DistanceRange` | DeliveryApp.Core/Domain/Model/SharedKernel/Location.cs:8-33 | Every d in [0, 18] is the distance of some pair of grid locations, so the bound of DistanceAtMostMax is tight. |
| `SharedKernel.TestedCases` | Tests/DeliveryApp.UnitTests/Domain/Model/SharedKernel/LocationShould.cs:10-99 | The unit-test cases hold. The corners (1,1) and (10,10) are accepted. (0,0), (11,11), (11,5) and (5,11) are rejected. (2,2) equals (2,2) and (3,2) does not. The distances (2,2)-(5,5) and (5,5)-(2,2) are 6, and (2,2)-(2,2) is 0. |
| `CourierAggregate.StoragePlace.constructor` | DeliveryApp.Core/Domain/Model/CourierAggregate/StoragePlace.cs:18-24 | Given a non-empty id and name and a positive volume, the new slot satisfies the invariant, has that id, name and volume, and holds no order. |
| `CourierAggregate.StoragePlace.Create` | DeliveryApp.Core/Domain/Model/CourierAggregate/StoragePlace.cs:26-32 | Creation succeeds iff the name is non-empty and the volume is positive. An empty name gives `ValueIsRequired`, and is checked first. A non-positive volume gives `ValueIsInvalid`. On success the slot is new, satisfies the invariant, carries the fresh id, the name and the volume, and is empty. |
| `CourierAggregate.StoragePlace.IsOccupied` | DeliveryApp.Core/Domain/Model/CourierAggregate/StoragePlace.cs:69-72 | The slot is occupied iff an order id is present. |
| `CourierAggregate.StoragePlace.Equals` | DeliveryApp.Core/Domain/Model/CourierAggregate/StoragePlace.cs:7 | Entity equality holds iff the ids agree, so every slot equals itself and name and volume play no part. The base class's rule for transient (empty-id) entities is left out. |
| `CourierAggregate.StoragePlace.CanStore` | DeliveryApp.Core/Domain/Model/CourierAggregate/StoragePlace.cs:34-40 | The query fails, with `ValueIsRequired("volume")`, exactly when the volume is <= 0, whatever the state. Otherwise it answers true iff the slot is empty and Volume > volume (strictly). An occupied slot answers false for every positive volume. |
| `CourierAggregate.StoragePlace.Store` | DeliveryApp.Core/Domain/Model/CourierAggregate/StoragePlace.cs:42-58 | Store succeeds iff the id is not empty, the volume is positive, the slot is empty and Volume > volume. Equivalently, it succeeds iff the id is not empty and CanStore answered true beforehand. Errors come in order: an empty id gives `ValueIsRequired`, a non-positive volume gives `ValueIsInvalid`, and otherwise `CannotStoreOrderInThisStoragePlace`. Only success sets OrderId to the id; a failure leaves OrderId unchanged. The invariant is kept. |
| `CourierAggregate.StoragePlace.Clear` | DeliveryApp.Core/Domain/Model/CourierAggregate/StoragePlace.cs:60-67 | Clear succeeds iff the id is not empty and is exactly the order held. An empty id gives `ValueIsRequired`. An empty slot or a different held order gives `OrderNotStoredInThisPlace`. Success empties the slot; a failure leaves OrderId unchanged. The invariant is kept. |
| `CourierAggregate.CanStoreBoundary` | Tests/DeliveryApp.UnitTests/Domain/Model/CourierAggregate/StoragePlaceShould.cs:52-69 | A "Bag" of volume 10 accepts volumes 1, 5 and 9. By the strict boundary it refuses 10 and 11. |
| `CourierAggregate.StoreThenClear` | Tests/DeliveryApp.UnitTests/Domain/Model/CourierAggregate/StoragePlaceShould.cs:84-109 | Storing an order of volume 5 in an empty bag records its id. A second order is then refused with `CannotStoreOrderInThisStoragePlace`. Clearing a different id fails with `OrderNotStoredInThisPlace`. Clearing the held id empties the bag. |
| `CourierAggregate.SameParametersDistinctEntities` | Tests/DeliveryApp.UnitTests/Domain/Model/CourierAggregate/StoragePlaceShould.cs:71-82 | Two slots created with the same name and volume, and so with distinct generated ids, are not equal. |

## Left out

- `Guid.NewGuid()` (`StoragePlace.cs:20`) is replaced by a parameter `newId`. `Create` requires it to be non-empty, and callers that need distinct entities pass distinct ids.
- `Random.Shared` (`Location.cs:35`) is not modelled. `GetRandomLocation` takes the two drawn values as parameters, constrained only by the range `Next(1, 11)` promises. The model says nothing about uniformity.
- Null references cannot occur in the model. A `null` name (handled like `""` by `string.IsNullOrEmpty`) and a `null` location passed to `GetDistance` (a `NullReferenceException` in the code) are not represented.
- The `Entity<Guid>` and `ValueObject` base classes and the `Result`/`UnitResult` types belong to libraries that are not part of this model. Only equality by id and equality by components are modelled. Hash codes, equality operators and the library's treatment of transient (unsaved) entities are left out.
- The error codes and message texts of `Errors` (`StoragePlace.cs:76-89`) and of the general errors are left out. Only the error kind and its field label are modelled.
- The parameterless private constructors (`StoragePlace.cs:14-16`, `Location.cs:17-19`) exist for the object-relational mapper and are outside the domain contract.
- The tests `DerivedEntity` and `ConstructorShouldBePrivate` check type structure by reflection. They have no behavioural counterpart.
- C#'s 32-bit `int` is modelled as an unbounded integer. No volume is ever computed, and the distance arithmetic cannot overflow for coordinates on the grid.
- Concurrent callers are not modelled. The `CanStore` then `Store` pair is a check-then-act sequence that the owning aggregate must serialise.
