/** The buffers of src/polygon/models/buffer.py.

    BufferStore wraps a FIFO store of parts and BufferContainer wraps a
    numeric level. Both are bounded by the configured capacity, or
    unbounded when none is configured. A get or put that cannot complete
    yet would suspend the caller; here it completes only when it is
    enabled, and otherwise reports that it is blocked and changes nothing. */
module Buffer {
  import opened Common
  import opened Validators

  /** A part flowing through the line (src/polygon/models/part.py). */
  datatype Part = Part(config: PartConfig)

  /** What a single container get or put did. */
  datatype Status = Granted | Blocked | Failed(error: Error)

  class BufferStore {
    const config: BufferConfig
    const capacity: Capacity
    /** The held parts, oldest first. */
    var items: seq<Part>

    /** The store never holds more than its capacity. */
    ghost predicate Valid()
      reads this
    {
      capacity.Fits(|items|)
    }

    constructor (config: BufferConfig)
      requires ValidBufferConfig(config)
      ensures Valid()
      ensures this.config == config
      ensures capacity == CapacityOf(config.capacity)
      ensures items == []
    {
      this.config := config;
      capacity := CapacityOf(config.capacity);
      items := [];
    }

    /** A put is enabled while the store is below capacity. */
    predicate CanPut()
      reads this
    {
      capacity.Fits(|items| + 1)
    }

    /** A get is enabled while the store is non-empty. */
    predicate CanGet()
      reads this
    {
      items != []
    }

    /** `put_item`: appends `item` at the back when there is room. */
    method PutItem(item: Part) returns (done: bool)
      requires Valid()
      modifies this`items
      ensures Valid()
      ensures done == old(CanPut())
      ensures done ==> items == old(items) + [item]
      ensures !done ==> items == old(items)
    {
      done := CanPut();
      if done {
        items := items + [item];
      }
    }

    /** `get_item`: removes and returns the oldest item when there is one. */
    method GetItem() returns (item: Option<Part>)
      requires Valid()
      modifies this`items
      ensures Valid()
      ensures item.Some? == old(CanGet())
      ensures item.Some? ==> item.value == old(items)[0] && items == old(items)[1..]
      ensures item.None? ==> items == old(items)
    {
      if items == [] {
        item := None;
      } else {
        item := Some(items[0]);
        items := items[1..];
      }
    }

    /** `get_buffer_level`: the number of held items. */
    method GetBufferLevel() returns (level: nat)
      ensures level == |items|
    {
      level := |items|;
    }

    /** `get_items_list`: the held items in queue order, as a copy. */
    method GetItemsList() returns (list: seq<Part>)
      ensures list == items
    {
      list := items;
    }
  }

  /** The state a simpy Container starts in. */
  datatype ContainerState = ContainerState(capacity: Capacity, level: int)

  /** simpy's `Container(env, capacity, init)`: rejects a non-positive
      capacity, a negative initial level, and an initial level above the
      capacity, in that order. */
  function NewContainer(capacity: Capacity, init: int): (r: Result<ContainerState>)
    ensures r.Ok? <==> (capacity.Finite? ==> capacity.limit > 0) && 0 <= init && capacity.Fits(init)
    ensures r.Ok? ==> r.value == ContainerState(capacity, init)
    ensures r.Ok? ==> 0 <= r.value.level && r.value.capacity.Fits(r.value.level)
  {
    if capacity.Finite? && capacity.limit <= 0 then Err(InvalidCapacity)
    else if init < 0 then Err(NegativeInit)
    else if !capacity.Fits(init) then Err(InitAboveCapacity)
    else Ok(ContainerState(capacity, init))
  }

  /** buffer.py:82-83 as written: `simpy.Container(env, config.init, capacity)`
      passes the configured init in simpy's capacity position and the
      configured capacity (or infinity) in its init position. */
  function ContainerSetupAsWritten(config: BufferConfig): (r: Result<ContainerState>)
    ensures r.Ok? ==> r.value.capacity == Finite(config.init)
    ensures r.Ok? ==> config.capacity.Some? && r.value.level == config.capacity.value
  {
    match CapacityOf(config.capacity)
    case Unbounded =>
      // infinity is never < 0, and is > every finite capacity
      if config.init <= 0 then Err(InvalidCapacity) else Err(InitAboveCapacity)
    case Finite(c) => NewContainer(Finite(config.init), c)
  }

  /** The evident intent of buffer.py:82-83: a container bounded by the
      configured capacity that starts at the configured init. */
  function ContainerSetup(config: BufferConfig): (r: Result<ContainerState>)
    ensures ValidBufferConfig(config) ==>
              (r.Ok? <==> CapacityOf(config.capacity).Fits(config.init))
    ensures ValidBufferConfig(config) && r.Err? ==> r.error == InitAboveCapacity
    ensures r.Ok? ==> r.value == ContainerState(CapacityOf(config.capacity), config.init)
    ensures r.Ok? ==> 0 <= r.value.level && r.value.capacity.Fits(r.value.level)
  {
    NewContainer(CapacityOf(config.capacity), config.init)
  }

  /** As written, every configuration that keeps the default `init = 0` is
      rejected with simpy's capacity error, bounded or not. */
  lemma AsWrittenRejectsDefaultInit(config: BufferConfig)
    requires config.init == 0
    ensures ContainerSetupAsWritten(config) == Err(InvalidCapacity)
  {
  }

  /** A container of capacity 15 starting empty: the intended setup accepts
      it; the setup as written raises instead. */
  lemma AsWrittenRejectsCapacity15Init0()
    ensures ContainerSetupAsWritten(BufferConfig(1, "line", capacity := Some(15))).Err?
    ensures ContainerSetup(BufferConfig(1, "line", capacity := Some(15)))
            == Ok(ContainerState(Finite(15), 0))
  {
  }

  /** Whenever the setup as written succeeds, the configured init and
      capacity have traded places, so it agrees with the intended setup
      only when the two are equal. */
  lemma AsWrittenSwapsInitAndCapacity(config: BufferConfig)
    requires ContainerSetupAsWritten(config).Ok?
    ensures config.capacity.Some? && 0 < config.init
    ensures ContainerSetupAsWritten(config) == ContainerSetup(config)
            <==> config.capacity.value == config.init
  {
  }

  class BufferContainer {
    const config: BufferConfig
    const capacity: Capacity
    /** The amount currently held. */
    var level: int

    /** The level never drops below zero nor exceeds the capacity. */
    ghost predicate Valid()
      reads this
    {
      0 <= level && capacity.Fits(level)
    }

    constructor (config: BufferConfig, state: ContainerState)
      requires ContainerSetup(config) == Ok(state)
      ensures Valid()
      ensures this.config == config
      ensures capacity == CapacityOf(config.capacity) && level == config.init
    {
      this.config := config;
      capacity := state.capacity;
      level := state.level;
    }

    /** `BufferContainer(env, config)`: a container at level `init` bounded
        by the configured capacity, or the error simpy raises. */
    static method Create(config: BufferConfig) returns (r: Result<BufferContainer>)
      ensures r.Ok? <==> ContainerSetup(config).Ok?
      ensures r.Err? ==> r.error == ContainerSetup(config).error
      ensures r.Ok? ==> fresh(r.value) && r.value.Valid() && r.value.config == config
      ensures r.Ok? ==> r.value.capacity == CapacityOf(config.capacity)
      ensures r.Ok? ==> r.value.level == config.init
    {
      var setup := ContainerSetup(config);
      if setup.Err? {
        r := Err(setup.error);
      } else {
        var c := new BufferContainer(config, setup.value);
        r := Ok(c);
      }
    }

    /** `get_item(count=1)`: takes exactly `count` units at once when the
        level allows it; simpy rejects a non-positive amount. */
    method GetItem(count: int := 1) returns (s: Status)
      requires Valid()
      modifies this`level
      ensures Valid()
      ensures s.Failed? <==> count <= 0
      ensures s.Failed? ==> s.error == InvalidQuantity
      ensures count > 0 ==> (s == Granted <==> old(level) >= count)
      ensures s == Granted ==> level == old(level) - count
      ensures s != Granted ==> level == old(level)
    {
      if count <= 0 {
        s := Failed(InvalidQuantity);
      } else if level >= count {
        level := level - count;
        s := Granted;
      } else {
        s := Blocked;
      }
    }

    /** `put_item(count=1)`: adds exactly `count` units at once when they
        fit under the capacity; simpy rejects a non-positive amount. */
    method PutItem(count: int := 1) returns (s: Status)
      requires Valid()
      modifies this`level
      ensures Valid()
      ensures s.Failed? <==> count <= 0
      ensures s.Failed? ==> s.error == InvalidQuantity
      ensures count > 0 ==> (s == Granted <==> capacity.Fits(old(level) + count))
      ensures s == Granted ==> level == old(level) + count
      ensures s != Granted ==> level == old(level)
    {
      if count <= 0 {
        s := Failed(InvalidQuantity);
      } else if capacity.Fits(level + count) {
        level := level + count;
        s := Granted;
      } else {
        s := Blocked;
      }
    }

    /** `get_buffer_level`: the current level. */
    method GetBufferLevel() returns (n: int)
      ensures n == level
    {
      n := level;
    }
  }
}
