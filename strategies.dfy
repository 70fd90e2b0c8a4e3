/** The batch strategies of src/polygon/models/strategies.py.

    A strategy moves several items (a store) or an amount (a container)
    between a caller and a buffer. The store strategy does it with one
    single-item get or put after another, so a batch that runs into an
    empty or full store stops half-way: the items already moved stay moved
    and the batch is `Pending` with them. The container strategy does a
    single atomic container operation.

    Each operation is specified by a function of the buffer's old contents
    (StoreGetSpec, StorePutSpec, ContainerGetSpec, ContainerPutSpec); the
    methods are proved against those, and the lemmas state what the
    functions mean. */
module Strategies {
  import opened Common
  import opened Buffer

  /** Where a batch stands when the caller would next resume. */
  datatype Batch<T> =
    | Rejected(error: Error)   // raised before the buffer was touched
    | Complete(value: T)       // the whole batch went through
    | Pending(partial: T)      // blocked; `partial` already went through

  /** `batch_size: int = 1`. */
  const DefaultBatchSize: int := 1

  /** `if count is None: count = self.batch_size`. */
  function ResolveCount(count: Option<int>, batchSize: int): int {
    count.GetOr(batchSize)
  }

  function Min(a: int, b: int): int {
    if a <= b then a else b
  }

  // ---------------------------------------------------------------------
  // Store batch get

  /** The get loop from the point where `taken` have been removed: one get
      after another until `n` items are held or the store is empty.
      Returns the items held and what is left in the store. */
  function Gather<T>(q: seq<T>, taken: seq<T>, n: int): (r: (seq<T>, seq<T>))
    ensures r.0 + r.1 == taken + q  // nothing is lost and nothing reordered
    ensures |r.0| < n ==> r.1 == []  // the loop stops short only on an empty store
    ensures |taken| <= n ==> |r.0| <= n
    decreases |q|
  {
    if |taken| >= n || q == [] then (taken, q)
    else
      assert (taken + [q[0]]) + q[1..] == taken + q;
      Gather(q[1..], taken + [q[0]], n)
  }

  /** The gets take the oldest items of the store, as many as are wanted
      or as there are, and leave the rest in order. */
  lemma {:induction false} GatherTakesOldest<T>(q: seq<T>, taken: seq<T>, n: int)
    requires |taken| <= n
    ensures var k := Min(n - |taken|, |q|);
            Gather(q, taken, n) == (taken + q[..k], q[k..])
  {
    if |taken| >= n || q == [] {
      assert Gather(q, taken, n) == (taken, q);
      assert Min(n - |taken|, |q|) == 0;
      assert taken + q[..0] == taken && q[0..] == q;
    } else {
      GatherTakesOldest(q[1..], taken + [q[0]], n);
      var k := Min(n - |taken|, |q|);
      assert q[1..][..k - 1] == q[1..k];
      assert (taken + [q[0]]) + q[1..k] == taken + q[..k];
      assert q[1..][k - 1..] == q[k..];
    }
  }

  /** The batch from the point where `taken` have been removed. */
  function StoreGetOutcome<T>(q: seq<T>, taken: seq<T>, n: int): (r: (Batch<seq<T>>, seq<T>))
    ensures !r.0.Rejected?
    ensures r.0.Complete? ==> r.0.value + r.1 == taken + q
    ensures r.0.Pending? ==> r.0.partial == taken + q && r.1 == []
  {
    var (got, rest) := Gather(q, taken, n);
    (if |got| >= n then Complete(got) else Pending(got), rest)
  }

  /** `StoreBatchStrategies.get_buffer_items(buffer, count)` on a store
      holding `q`: the outcome and the store's new contents. */
  function StoreGetSpec<T>(q: seq<T>, count: Option<int>, batchSize: int): (r: (Batch<seq<T>>, seq<T>))
    ensures r.0.Rejected? <==> ResolveCount(count, batchSize) <= 0
    ensures r.0.Rejected? ==> r.0.error == InvalidQuantity && r.1 == q
    ensures r.0.Complete? ==> r.0.value + r.1 == q && |r.0.value| == ResolveCount(count, batchSize)
    ensures r.0.Pending? ==> r.0.partial == q && r.1 == []
  {
    var n := ResolveCount(count, batchSize);
    if n <= 0 then (Rejected(InvalidQuantity), q)
    else StoreGetOutcome(q, [], n)
  }

  /** A count that resolves to zero or less is rejected before any item is
      removed. */
  lemma StoreGetRejectsNonPositive<T>(q: seq<T>, count: Option<int>, batchSize: int)
    requires ResolveCount(count, batchSize) <= 0
    ensures StoreGetSpec(q, count, batchSize) == (Rejected(InvalidQuantity), q)
  {
  }

  /** A batch the store can serve returns exactly `count` items, the oldest
      ones in FIFO order, and the store loses exactly that prefix. */
  lemma StoreGetTakesPrefix<T>(q: seq<T>, count: Option<int>, batchSize: int)
    requires 0 < ResolveCount(count, batchSize) <= |q|
    ensures var n := ResolveCount(count, batchSize);
            StoreGetSpec(q, count, batchSize) == (Complete(q[..n]), q[n..])
            && |q[..n]| == n
  {
    var n := ResolveCount(count, batchSize);
    GatherTakesOldest(q, [], n);
    assert Min(n, |q|) == n && [] + q[..n] == q[..n];
    assert Gather(q, [], n) == (q[..n], q[n..]);
  }

  /** Partial drain: a batch asking for more than the store holds removes
      every item the store has and stays pending with them; nothing is
      put back. */
  lemma StoreGetDrainsPartially<T>(q: seq<T>, count: Option<int>, batchSize: int)
    requires |q| < ResolveCount(count, batchSize)
    ensures StoreGetSpec(q, count, batchSize) == (Pending(q), [])
  {
    var n := ResolveCount(count, batchSize);
    GatherTakesOldest(q, [], n);
    assert Min(n, |q|) == |q| && [] + q[..|q|] == q && q[|q|..] == [];
    assert Gather(q, [], n) == (q, []);
  }

  /** With the default batch size and no count, a batch get is a single
      get: it takes the oldest item. */
  lemma StoreGetDefaultIsSingle<T>(q: seq<T>)
    requires q != []
    ensures StoreGetSpec(q, None, DefaultBatchSize) == (Complete([q[0]]), q[1..])
  {
    StoreGetTakesPrefix(q, None, DefaultBatchSize);
    assert q[..1] == [q[0]];
  }

  /** A pending batch that resumes after more items arrived ends exactly as
      a batch started with all of them in the store: the items come back in
      arrival order, whichever side of the suspension they arrived on. */
  lemma StoreGetResumeMatchesWhole<T>(q1: seq<T>, q2: seq<T>, n: int)
    requires |q1| < n
    ensures StoreGetOutcome(q1, [], n) == (Pending(q1), [])
    ensures StoreGetOutcome(q2, q1, n) == StoreGetOutcome(q1 + q2, [], n)
  {
    GatherTakesOldest(q1, [], n);
    assert Min(n, |q1|) == |q1| && [] + q1[..|q1|] == q1 && q1[|q1|..] == [];
    assert Gather(q1, [], n) == (q1, []);
    GatherTakesOldest(q2, q1, n);
    GatherTakesOldest(q1 + q2, [], n);
    var k := Min(n, |q1| + |q2|);
    assert Min(n - |q1|, |q2|) == k - |q1|;
    assert [] + (q1 + q2)[..k] == q1 + q2[..k - |q1|];
    assert (q1 + q2)[k..] == q2[k - |q1|..];
    assert Gather(q2, q1, n) == Gather(q1 + q2, [], n);
  }

  // ---------------------------------------------------------------------
  // Store batch put

  /** `items: List[Part] | Part`. */
  datatype PutArg<T> = One(item: T) | Many(items: seq<T>)

  /** `if not isinstance(items, list): items = [items]`. */
  function AsList<T>(arg: PutArg<T>): (xs: seq<T>)
    ensures arg.One? ==> xs == [arg.item]
    ensures arg.Many? ==> xs == arg.items
  {
    match arg
    case One(x) => [x]
    case Many(xs) => xs
  }

  /** The put loop from index `i`: one put after another, in list order,
      until the list is done or the store is full. Returns how far the list
      got and the store's contents. */
  function Place<T>(cap: Capacity, q: seq<T>, xs: seq<T>, i: nat): (r: (nat, seq<T>))
    requires i <= |xs|
    ensures i <= r.0 <= |xs|
    ensures r.1 == q + xs[i..r.0]  // the items put, in list order, at the back
    ensures r.0 < |xs| ==> !cap.Fits(|r.1| + 1)  // it stops short only on a full store
    decreases |xs| - i
  {
    if i == |xs| || !cap.Fits(|q| + 1) then
      assert xs[i..i] == [];
      (i, q)
    else
      var r := Place(cap, q + [xs[i]], xs, i + 1);
      assert (q + [xs[i]]) + xs[i + 1..r.0] == q + xs[i..r.0];
      r
  }

  /** The puts append the next items of the list, in order, as many as the
      capacity accepts. */
  lemma {:induction false} PlaceAppendsInOrder<T>(cap: Capacity, q: seq<T>, xs: seq<T>, i: nat)
    requires i <= |xs|
    ensures var k := cap.Accepts(|q|, |xs| - i);
            Place(cap, q, xs, i) == (i + k, q + xs[i..i + k])
    decreases |xs| - i
  {
    if i == |xs| || !cap.Fits(|q| + 1) {
      assert Place(cap, q, xs, i) == (i, q);
      assert cap.Accepts(|q|, |xs| - i) == 0;
      assert q + xs[i..i] == q;
    } else {
      PlaceAppendsInOrder(cap, q + [xs[i]], xs, i + 1);
      var k := cap.Accepts(|q|, |xs| - i);
      assert cap.Accepts(|q| + 1, |xs| - (i + 1)) == k - 1;
      assert (q + [xs[i]]) + xs[i + 1..i + k] == q + xs[i..i + k];
    }
  }

  /** The batch from index `i` of the list. */
  function StorePutOutcome<T>(cap: Capacity, q: seq<T>, xs: seq<T>, i: nat): (r: (Batch<seq<T>>, seq<T>))
    requires i <= |xs|
    ensures !r.0.Rejected?
    ensures r.0.Complete? ==> r.0.value == xs && r.1 == q + xs[i..]
    ensures r.0.Pending? ==> i <= |r.0.partial| < |xs| && r.0.partial == xs[..|r.0.partial|]
    ensures r.0.Pending? ==> r.1 == q + xs[i..|r.0.partial|] && !cap.Fits(|r.1| + 1)
  {
    var (j, q') := Place(cap, q, xs, i);
    (if j == |xs| then Complete(xs) else Pending(xs[..j]), q')
  }

  /** `StoreBatchStrategies.put_buffer_items(items, buffer)` on a store
      holding `q`: the outcome and the store's new contents. */
  function StorePutSpec<T>(cap: Capacity, q: seq<T>, arg: PutArg<T>): (r: (Batch<seq<T>>, seq<T>))
    ensures !r.0.Rejected?
    ensures r.0.Complete? ==> r.1 == q + AsList(arg)
    ensures r.0.Pending? ==> |r.0.partial| < |AsList(arg)| && r.0.partial == AsList(arg)[..|r.0.partial|]
    ensures r.0.Pending? ==> r.1 == q + r.0.partial && !cap.Fits(|r.1| + 1)
  {
    var xs := AsList(arg);
    assert xs[0..] == xs;
    var r := StorePutOutcome(cap, q, xs, 0);
    assert r.0.Pending? ==> xs[0..|r.0.partial|] == r.0.partial;
    r
  }

  /** When the store has room for the whole list, the list becomes the
      store's new tail, in list order. */
  lemma StorePutAppendsList<T>(cap: Capacity, q: seq<T>, arg: PutArg<T>)
    requires cap.Accepts(|q|, |AsList(arg)|) == |AsList(arg)|
    ensures StorePutSpec(cap, q, arg) == (Complete(AsList(arg)), q + AsList(arg))
  {
    var xs := AsList(arg);
    PlaceAppendsInOrder(cap, q, xs, 0);
    assert xs[0..|xs|] == xs;
  }

  /** When it has not, the batch stays pending with the part of the list
      that fits appended and the store full. */
  lemma StorePutStopsWhenFull<T>(cap: Capacity, q: seq<T>, arg: PutArg<T>)
    requires cap.Accepts(|q|, |AsList(arg)|) < |AsList(arg)|
    ensures var k := cap.Accepts(|q|, |AsList(arg)|);
            StorePutSpec(cap, q, arg) == (Pending(AsList(arg)[..k]), q + AsList(arg)[..k])
            && !cap.Fits(|q| + k + 1)
  {
    var xs := AsList(arg);
    PlaceAppendsInOrder(cap, q, xs, 0);
    var k := cap.Accepts(|q|, |xs|);
    assert xs[0..k] == xs[..k];
  }

  /** An empty list changes nothing; a single item is one put. */
  lemma StorePutEmptyAndSingle<T>(cap: Capacity, q: seq<T>, x: T)
    ensures StorePutSpec(cap, q, Many([])) == (Complete([]), q)
    ensures StorePutSpec(cap, q, One(x))
            == if cap.Fits(|q| + 1) then (Complete([x]), q + [x]) else (Pending([]), q)
  {
    PlaceAppendsInOrder(cap, q, [x], 0);
    assert [x][0..1] == [x] && [x][0..0] == [] && [x][..0] == [];
  }

  /** A batch put never takes the store over its capacity. */
  lemma StorePutKeepsCapacity<T>(cap: Capacity, q: seq<T>, arg: PutArg<T>)
    requires cap.Fits(|q|)
    ensures cap.Fits(|StorePutSpec(cap, q, arg).1|)
  {
    PlaceAppendsInOrder(cap, q, AsList(arg), 0);
  }

  /** FIFO: parts put into a store that has room for them all come back, by
      a batch get of everything, behind what was already there and in the
      order they were put; the store ends empty. */
  lemma StorePutThenGetIsFifo<T>(cap: Capacity, q: seq<T>, xs: seq<T>, batchSize: int)
    requires cap.Accepts(|q|, |xs|) == |xs|
    requires q + xs != []
    ensures var q' := StorePutSpec(cap, q, Many(xs)).1;
            StoreGetSpec(q', Some(|q'|), batchSize) == (Complete(q + xs), [])
  {
    StorePutAppendsList(cap, q, Many(xs));
    var q' := q + xs;
    StoreGetTakesPrefix(q', Some(|q'|), batchSize);
    assert q'[..|q'|] == q' && q'[|q'|..] == [];
  }

  // ---------------------------------------------------------------------
  // Container batch get and put

  /** `quantity: int | float = 1`, or a list of quantities. */
  datatype Quantity = Amount(n: int) | Amounts(ns: seq<int>)

  /** Python's `sum`. */
  function Sum(ns: seq<int>): (r: int)
    ensures (forall i :: 0 <= i < |ns| ==> ns[i] >= 0) ==> r >= 0
  {
    if ns == [] then 0 else ns[0] + Sum(ns[1..])
  }

  /** The sum of a list splits over concatenation. */
  lemma {:induction false} SumAppend(a: seq<int>, b: seq<int>)
    ensures Sum(a + b) == Sum(a) + Sum(b)
  {
    if a == [] {
      assert a + b == b;
    } else {
      SumAppend(a[1..], b);
      assert (a + b)[1..] == a[1..] + b;
    }
  }

  /** A non-empty list of positive amounts sums to a positive amount. */
  lemma {:induction false} SumPositive(ns: seq<int>)
    requires forall i :: 0 <= i < |ns| ==> ns[i] > 0
    ensures ns != [] <==> Sum(ns) > 0
    ensures Sum(ns) >= |ns|
  {
    if ns != [] {
      SumPositive(ns[1..]);
    }
  }

  /** `if isinstance(quantity, list): quantity = sum(quantity)`. */
  function Total(q: Quantity): int {
    match q
    case Amount(n) => n
    case Amounts(ns) => Sum(ns)
  }

  /** `ContainerBatchStrategies.get_buffer_items(buffer, count)` on a
      container at `level`: the outcome and the new level. */
  function ContainerGetSpec(level: int, count: Option<int>, batchSize: int): (Batch<int>, int) {
    var n := ResolveCount(count, batchSize);
    if n <= 0 then (Rejected(InvalidQuantity), level)
    else if level >= n then (Complete(n), level - n)
    else (Pending(0), level)
  }

  /** `ContainerBatchStrategies.put_buffer_items(buffer, quantity)` on a
      container at `level`: the outcome and the new level. */
  function ContainerPutSpec(cap: Capacity, level: int, quantity: Quantity): (Batch<int>, int) {
    var n := Total(quantity);
    if n <= 0 then (Rejected(InvalidQuantity), level)
    else if cap.Fits(level + n) then (Complete(n), level + n)
    else (Pending(0), level)
  }

  /** A container get is all or nothing: it returns the resolved count and
      lowers the level by exactly that much, or leaves the level alone; the
      level stays within [0, capacity]. */
  lemma ContainerGetIsAtomic(cap: Capacity, level: int, count: Option<int>, batchSize: int)
    requires 0 <= level && cap.Fits(level)
    ensures var n := ResolveCount(count, batchSize);
            var (r, level') := ContainerGetSpec(level, count, batchSize);
            0 <= level' && cap.Fits(level')
            && (r.Rejected? <==> n <= 0)
            && (r.Complete? <==> 0 < n <= level)
            && (r.Complete? ==> r.value == n && level' == level - n)
            && (!r.Complete? ==> level' == level)
            && (r.Pending? ==> r.partial == 0)
  {
  }

  /** A container put is all or nothing: the level rises by exactly the
      resolved quantity or not at all, and stays within [0, capacity]. */
  lemma ContainerPutIsAtomic(cap: Capacity, level: int, quantity: Quantity)
    requires 0 <= level && cap.Fits(level)
    ensures var n := Total(quantity);
            var (r, level') := ContainerPutSpec(cap, level, quantity);
            0 <= level' && cap.Fits(level')
            && (r.Rejected? <==> n <= 0)
            && (r.Complete? <==> 0 < n && cap.Fits(level + n))
            && (r.Complete? ==> r.value == n && level' == level + n)
            && (!r.Complete? ==> level' == level)
            && (r.Pending? ==> r.partial == 0)
  {
  }

  /** A list of positive amounts is rejected only when it is empty
      (`sum([])` is 0); otherwise it is put as one amount, its sum. */
  lemma ContainerPutList(cap: Capacity, level: int, ns: seq<int>)
    requires forall i :: 0 <= i < |ns| ==> ns[i] > 0
    ensures ContainerPutSpec(cap, level, Amounts(ns)).0.Rejected? <==> ns == []
    ensures ns != [] ==> ContainerPutSpec(cap, level, Amounts(ns)) == ContainerPutSpec(cap, level, Amount(Sum(ns)))
  {
    SumPositive(ns);
  }

  // ---------------------------------------------------------------------
  // The strategy objects

  class StoreBatchStrategies {
    const batchSize: int

    constructor (batchSize: int := DefaultBatchSize)
      ensures this.batchSize == batchSize
    {
      this.batchSize := batchSize;
    }

    /** `get_buffer_items(buffer, count=None)`. */
    method GetBufferItems(buffer: BufferStore, count: Option<int> := None) returns (r: Batch<seq<Part>>)
      requires buffer.Valid()
      modifies buffer`items
      ensures buffer.Valid()
      ensures (r, buffer.items) == StoreGetSpec(old(buffer.items), count, batchSize)
    {
      var n := ResolveCount(count, batchSize);
      if n <= 0 {
        return Rejected(InvalidQuantity);
      }
      r := ResumeGetBufferItems(buffer, n, []);
    }

    /** The get loop of `get_buffer_items`, resumed with `count` resolved
        and `taken` already removed. */
    method ResumeGetBufferItems(buffer: BufferStore, count: int, taken: seq<Part>) returns (r: Batch<seq<Part>>)
      requires buffer.Valid()
      modifies buffer`items
      ensures buffer.Valid()
      ensures (r, buffer.items) == StoreGetOutcome(old(buffer.items), taken, count)
    {
      var items := taken;
      while |items| < count
        invariant buffer.Valid()
        invariant Gather(buffer.items, items, count) == Gather(old(buffer.items), taken, count)
        decreases count - |items|
      {
        var item := buffer.GetItem();
        if item.None? {
          break;
        }
        items := items + [item.value];
      }
      r := if |items| >= count then Complete(items) else Pending(items);
    }

    /** `put_buffer_items(items, buffer)`. */
    method PutBufferItems(items: PutArg<Part>, buffer: BufferStore) returns (r: Batch<seq<Part>>)
      requires buffer.Valid()
      modifies buffer`items
      ensures buffer.Valid()
      ensures (r, buffer.items) == StorePutSpec(buffer.capacity, old(buffer.items), items)
    {
      r := ResumePutBufferItems(AsList(items), 0, buffer);
    }

    /** The put loop of `put_buffer_items`, resumed at index `placed`. */
    method ResumePutBufferItems(items: seq<Part>, placed: nat, buffer: BufferStore) returns (r: Batch<seq<Part>>)
      requires placed <= |items|
      requires buffer.Valid()
      modifies buffer`items
      ensures buffer.Valid()
      ensures (r, buffer.items) == StorePutOutcome(buffer.capacity, old(buffer.items), items, placed)
    {
      var i := placed;
      while i < |items|
        invariant placed <= i <= |items|
        invariant buffer.Valid()
        invariant Place(buffer.capacity, buffer.items, items, i)
                  == Place(buffer.capacity, old(buffer.items), items, placed)
        decreases |items| - i
      {
        var done := buffer.PutItem(items[i]);
        if !done {
          break;
        }
        i := i + 1;
      }
      r := if i == |items| then Complete(items) else Pending(items[..i]);
    }
  }

  class ContainerBatchStrategies {
    const batchSize: int

    constructor (batchSize: int := DefaultBatchSize)
      ensures this.batchSize == batchSize
    {
      this.batchSize := batchSize;
    }

    /** `get_buffer_items(buffer, count=None)`: one container get of the
        resolved count; a buffer error is passed on unchanged. */
    method GetBufferItems(buffer: BufferContainer, count: Option<int> := None) returns (r: Batch<int>)
      requires buffer.Valid()
      modifies buffer`level
      ensures buffer.Valid()
      ensures (r, buffer.level) == ContainerGetSpec(old(buffer.level), count, batchSize)
    {
      var n := ResolveCount(count, batchSize);
      if n <= 0 {
        return Rejected(InvalidQuantity);
      }
      var s := buffer.GetItem(n);
      r := match s
        case Granted => Complete(n)
        case Blocked => Pending(0)
        case Failed(e) => Rejected(e);
    }

    /** `put_buffer_items(buffer, quantity=1)`: one container put of the
        quantity, or of the sum of a list; a buffer error is passed on
        unchanged. */
    method PutBufferItems(buffer: BufferContainer, quantity: Quantity := Amount(1)) returns (r: Batch<int>)
      requires buffer.Valid()
      modifies buffer`level
      ensures buffer.Valid()
      ensures (r, buffer.level) == ContainerPutSpec(buffer.capacity, old(buffer.level), quantity)
    {
      var n := Total(quantity);
      if n <= 0 {
        return Rejected(InvalidQuantity);
      }
      var s := buffer.PutItem(n);
      r := match s
        case Granted => Complete(n)
        case Blocked => Pending(0)
        case Failed(e) => Rejected(e);
    }
  }
}
