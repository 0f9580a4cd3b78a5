/** A courier's cargo slot: a named, fixed-capacity place that holds at most one order.
    It moves between Empty (no order id) and Occupied (an order id) through Store and Clear. */
module CourierAggregate {
  import opened Primitives

  class StoragePlace {
    const Id: Guid
    const Name: string
    const Volume: int
    var OrderId: Option<Guid>
    /** The volume of the order currently held, as confirmed by Store; it carries the
        history invariant that an order was admitted only below the capacity. */
    ghost var StoredVolume: int

    ghost predicate Valid()
      reads this
    {
      && Id != EmptyGuid
      && Name != ""
      && Volume > 0
      && (OrderId.Some? ==> OrderId.value != EmptyGuid && 0 < StoredVolume < Volume)
    }

    /** The private constructor; `id` stands for the value of `Guid.NewGuid()`. */
    constructor (name: string, volume: int, id: Guid)
      requires id != EmptyGuid && name != "" && volume > 0
      ensures Valid()
      ensures Id == id && Name == name && Volume == volume && OrderId == None
    {
      Id := id;
      Name := name;
      Volume := volume;
      OrderId := None;
      StoredVolume := 0;
    }

    /** The validating factory: the name is checked before the volume. `newId` is the
        fresh identifier the runtime would generate. */
    static method Create(name: string, volume: int, newId: Guid) returns (r: Result<StoragePlace, Error>)
      requires newId != EmptyGuid
      ensures r.Success? <==> name != "" && volume > 0
      ensures name == "" ==> r == Failure(ValueIsRequired("name"))
      ensures name != "" && volume <= 0 ==> r == Failure(ValueIsInvalid("name"))
      ensures r.Success? ==> fresh(r.value) && r.value.Valid()
      ensures r.Success? ==> r.value.Id == newId && r.value.Name == name && r.value.Volume == volume
      ensures r.Success? ==> r.value.OrderId == None
    {
      if name == "" {
        return Failure(ValueIsRequired("name"));
      }
      if volume <= 0 {
        return Failure(ValueIsInvalid("name"));
      }
      var place := new StoragePlace(name, volume, newId);
      return Success(place);
    }

    /** A slot is occupied exactly while it holds an order id. */
    predicate IsOccupied()
      reads this
      ensures IsOccupied() <==> OrderId != None
    {
      OrderId.Some?
    }

    /** Whether an order of the given volume fits: an occupied slot never does, an empty
        one only when its capacity strictly exceeds the volume. */
    function CanStore(volume: int): (r: Result<bool, Error>)
      reads this
      ensures r.Failure? <==> volume <= 0
      ensures r.Failure? ==> r.error == ValueIsRequired("volume")
      ensures r.Success? ==> (r.value <==> OrderId.None? && Volume > volume)
    {
      if volume <= 0 then Failure(ValueIsRequired("volume"))
      else if IsOccupied() then Success(false)
      else Success(Volume > volume)
    }

    /** Puts an order into the slot. The order id is checked first, then the volume, then
        capacity and occupancy; the slot changes only when every check passes. */
    method Store(orderId: Guid, volume: int) returns (r: Result<(), Error>)
      requires Valid()
      modifies this
      ensures Valid()
      ensures r.Success? <==>
                orderId != EmptyGuid && volume > 0 && old(OrderId).None? && Volume > volume
      ensures r.Success? <==> orderId != EmptyGuid && old(CanStore(volume)) == Success(true)
      ensures orderId == EmptyGuid ==> r == Failure(ValueIsRequired("orderId"))
      ensures orderId != EmptyGuid && volume <= 0 ==> r == Failure(ValueIsInvalid("volume"))
      ensures orderId != EmptyGuid && volume > 0 && r.Failure? ==>
                r == Failure(CannotStoreOrderInThisStoragePlace)
      ensures OrderId == if r.Success? then Some(orderId) else old(OrderId)
      ensures StoredVolume == if r.Success? then volume else old(StoredVolume)
    {
      if orderId == EmptyGuid {
        return Failure(ValueIsRequired("orderId"));
      }
      if volume <= 0 {
        return Failure(ValueIsInvalid("volume"));
      }
      var canStoreResult := CanStore(volume);
      if canStoreResult.Failure? {
        // CanStore fails only for a non-positive volume, which was rejected above.
        assert false;
        return Failure(ValueIsRequired("volume"));
      }
      var canStore := canStoreResult.value;
      if !canStore {
        return Failure(CannotStoreOrderInThisStoragePlace);
      }
      OrderId := Some(orderId);
      StoredVolume := volume;
      return Success(());
    }

    /** Takes an order out of the slot; only the order actually held can be cleared. */
    method Clear(orderId: Guid) returns (r: Result<(), Error>)
      requires Valid()
      modifies this
      ensures Valid()
      ensures r.Success? <==> orderId != EmptyGuid && old(OrderId) == Some(orderId)
      ensures orderId == EmptyGuid ==> r == Failure(ValueIsRequired("orderId"))
      ensures orderId != EmptyGuid && old(OrderId) != Some(orderId) ==>
                r == Failure(OrderNotStoredInThisPlace)
      ensures OrderId == if r.Success? then None else old(OrderId)
      ensures StoredVolume == old(StoredVolume)
    {
      if orderId == EmptyGuid {
        return Failure(ValueIsRequired("orderId"));
      }
      if OrderId != Some(orderId) {
        return Failure(OrderNotStoredInThisPlace);
      }
      OrderId := None;
      return Success(());
    }

    /** Entity equality: by identifier, not by name or volume. */
    predicate Equals(other: StoragePlace)
      reads this, other
      ensures Equals(other) <==> Id == other.Id
      ensures this == other ==> Equals(other)
    {
      Id == other.Id
    }
  }

  /** A "Bag" of volume 10 accepts volumes 1, 5 and 9 and refuses 10 and 11. */
  method CanStoreBoundary(newId: Guid) returns (accepted: seq<bool>, refused: seq<bool>)
    requires newId != EmptyGuid
    ensures accepted == [true, true, true]
    ensures refused == [false, false]
  {
    var created := StoragePlace.Create("Bag", 10, newId);
    var bag := created.value;
    accepted := [bag.CanStore(1).value, bag.CanStore(5).value, bag.CanStore(9).value];
    refused := [bag.CanStore(10).value, bag.CanStore(11).value];
  }

  /** Storing an order into an empty bag records it, a second order is refused while the
      first is held, a different id cannot clear it, and clearing the held id empties the
      bag again. */
  method StoreThenClear(newId: Guid, first: Guid, second: Guid)
    returns (stored: Option<Guid>, again: Result<(), Error>, wrongClear: Result<(), Error>, cleared: Option<Guid>)
    requires newId != EmptyGuid && first != EmptyGuid && second != EmptyGuid && first != second
    ensures stored == Some(first)
    ensures again == Failure(CannotStoreOrderInThisStoragePlace)
    ensures wrongClear == Failure(OrderNotStoredInThisPlace)
    ensures cleared == None
  {
    var created := StoragePlace.Create("Bag", 10, newId);
    var bag := created.value;
    var ok := bag.Store(first, 5);
    stored := bag.OrderId;
    again := bag.Store(second, 3);
    wrongClear := bag.Clear(second);
    var done := bag.Clear(first);
    cleared := bag.OrderId;
  }

  /** Two slots created with the same name and volume are different entities. */
  method SameParametersDistinctEntities(firstId: Guid, secondId: Guid) returns (equal: bool)
    requires firstId != EmptyGuid && secondId != EmptyGuid && firstId != secondId
    ensures !equal
  {
    var bag := StoragePlace.Create("Bag", 10, firstId);
    var bag2 := StoragePlace.Create("Bag", 10, secondId);
    equal := bag.value.Equals(bag2.value);
  }
}
