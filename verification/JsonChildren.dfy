/**
 The growable array that holds the children of a JSON node: a block of slots that is
 doubled when it is full, shifted on insert and erase, and whose logical capacity may
 be smaller than the block actually allocated.  It is proved to be a sequence.
 */
module JsonChildren {

  const FIRST_ALLOCATION: nat := 8
  const INDEX_LIMIT: nat := 0x1_0000_0000

  /** What callers can do to a list of children, with positions as indices. */
  datatype Op<T> =
    | PushBack(item: T)
    | PushFront(item: T)
    | Insert(pos: nat, item: T, reverse: bool)
    | InsertRange(pos: nat, items: seq<T>)
    | Erase(pos: nat)
    | EraseRange(pos: nat, number: nat)
    | Clear

  ghost predicate Legal<T>(s: seq<T>, op: Op<T>) {
    match op
    case PushBack(_) => true
    case PushFront(_) => true
    case Insert(pos, _, _) => pos <= |s|
    case InsertRange(pos, _) => pos <= |s|
    case Erase(pos) => pos < |s|
    case EraseRange(pos, number) => s != [] && pos + number <= |s|
    case Clear => true
  }

  /** The sequence operation each call stands for. */
  ghost function Apply<T>(s: seq<T>, op: Op<T>): seq<T>
    requires Legal(s, op)
  {
    match op
    case PushBack(item) => s + [item]
    case PushFront(item) => [item] + s
    case Insert(pos, item, _) => s[..pos] + [item] + s[pos..]
    case InsertRange(pos, items) => s[..pos] + items + s[pos..]
    case Erase(pos) => s[..pos] + s[pos + 1..]
    case EraseRange(pos, number) => s[..pos] + s[pos + number..]
    case Clear => []
  }

  ghost predicate LegalRun<T>(s: seq<T>, ops: seq<Op<T>>)
    decreases |ops|
  {
    ops == [] || (Legal(s, ops[0]) && LegalRun(Apply(s, ops[0]), ops[1..]))
  }

  ghost function ApplyRun<T>(s: seq<T>, ops: seq<Op<T>>): seq<T>
    requires LegalRun(s, ops)
    decreases |ops|
  {
    if ops == [] then s else ApplyRun(Apply(s, ops[0]), ops[1..])
  }

  /** A run is extended at its end: the replay loop below peels it from the front. */
  lemma {:induction false} RunExtends<T>(s: seq<T>, ops: seq<Op<T>>, op: Op<T>)
    requires LegalRun(s, ops + [op])
    ensures LegalRun(s, ops) && Legal(ApplyRun(s, ops), op)
    ensures ApplyRun(s, ops + [op]) == Apply(ApplyRun(s, ops), op)
    decreases |ops|
  {
    if ops == [] {
      assert ops + [op] == [op];
    } else {
      assert (ops + [op])[0] == ops[0] && (ops + [op])[1..] == ops[1..] + [op];
      RunExtends(Apply(s, ops[0]), ops[1..], op);
    }
  }

  lemma {:induction false} RunPrefix<T>(s: seq<T>, ops: seq<Op<T>>, k: nat)
    requires k <= |ops| && LegalRun(s, ops)
    ensures LegalRun(s, ops[..k])
    decreases |ops|
  {
    if k > 0 {
      assert ops[..k][0] == ops[0] && ops[..k][1..] == ops[1..][..k - 1];
      RunPrefix(Apply(s, ops[0]), ops[1..], k - 1);
    }
  }

  /** Erasing exactly what a range insert put in gives back the original list. */
  lemma {:induction false} InsertRangeThenErase<T>(s: seq<T>, pos: nat, items: seq<T>)
    requires pos <= |s| && s + items != []
    ensures Legal(Apply(s, InsertRange(pos, items)), EraseRange(pos, |items|))
    ensures Apply(Apply(s, InsertRange(pos, items)), EraseRange(pos, |items|)) == s
  {
    var grown := Apply(s, InsertRange(pos, items));
    assert grown[..pos] == s[..pos] && grown[pos + |items|..] == s[pos..];
    assert s[..pos] + s[pos..] == s;
  }

  /** Inserting a list is inserting its elements one by one, last first, at the same place. */
  lemma {:induction false} InsertRangeIsRepeatedInsert<T>(s: seq<T>, pos: nat, items: seq<T>)
    requires pos <= |s| && items != []
    ensures Apply(s, InsertRange(pos, items))
         == Apply(Apply(s, InsertRange(pos, items[1..])), Insert(pos, items[0], false))
  {
    var rest := Apply(s, InsertRange(pos, items[1..]));
    assert rest[..pos] == s[..pos] && rest[pos..] == items[1..] + s[pos..];
    assert items == [items[0]] + items[1..];
  }

  /** A shifted block with a gap filled in, slot by slot, is the inserted sequence. */
  lemma {:induction false} FilledGap<T>(was: seq<T>, pos: nat, items: seq<T>, now: seq<T>)
    requires pos <= |was| && |now| == |was| + |items|
    requires forall k :: 0 <= k < pos ==> now[k] == was[k]
    requires forall k :: 0 <= k < |items| ==> now[pos + k] == items[k]
    requires forall k :: pos <= k < |was| ==> now[k + |items|] == was[k]
    ensures now == was[..pos] + items + was[pos..]
  {
    forall k | 0 <= k < |now| ensures now[k] == (was[..pos] + items + was[pos..])[k] {
      if pos <= k < pos + |items| {
        assert now[pos + (k - pos)] == items[k - pos];
      } else if pos + |items| <= k {
        assert now[(k - |items|) + |items|] == was[k - |items|];
      }
    }
  }

  // ---------------------------------------------------------------- capacities

  /** The capacity after room for one more was made. */
  function Grown(size: nat, capacity: nat): nat {
    if size != capacity then capacity else if capacity == 0 then FIRST_ALLOCATION else 2 * capacity
  }

  /** A capacity doubled until it covers the need. */
  function Doubled(capacity: nat, need: nat): nat
    requires capacity > 0
    decreases need - capacity
  {
    if need <= capacity then capacity else Doubled(2 * capacity, need)
  }

  /** The capacity after room for `amount` more was made. */
  function Reserved(size: nat, capacity: nat, amount: nat): nat {
    if amount == 0 || size + amount < capacity then capacity
    else if capacity == 0 then (if amount > FIRST_ALLOCATION then amount else FIRST_ALLOCATION)
    else Doubled(capacity, size + amount)
  }

  /** The largest capacity that is reached by doubling and that 32 bits can hold. */
  function Top(capacity: nat): (r: nat)
    requires 0 < capacity < INDEX_LIMIT
    ensures capacity <= r && INDEX_LIMIT <= 2 * r < 2 * INDEX_LIMIT
    decreases INDEX_LIMIT - capacity
  {
    if 2 * capacity < INDEX_LIMIT then Top(2 * capacity) else capacity
  }

  lemma {:induction false} DoubledCovers(capacity: nat, need: nat)
    requires capacity > 0
    ensures Doubled(capacity, need) >= capacity && Doubled(capacity, need) >= need
    decreases need - capacity
  {
    if need > capacity {
      DoubledCovers(2 * capacity, need);
    }
  }

  lemma {:induction false} DoubledFitsExactly(capacity: nat, need: nat)
    requires 0 < capacity < INDEX_LIMIT
    ensures Doubled(capacity, need) < INDEX_LIMIT <==> need <= Top(capacity)
    decreases INDEX_LIMIT - capacity
  {
    if need > capacity {
      if 2 * capacity < INDEX_LIMIT {
        DoubledFitsExactly(2 * capacity, need);
      } else {
        DoubledCovers(2 * capacity, need);
      }
    }
  }

  /** Room for one more can be counted in 32 bits exactly when the list is not full at 2^31 or beyond. */
  lemma {:induction false} GrownFitsExactly(size: nat, capacity: nat)
    requires size <= capacity < INDEX_LIMIT
    ensures Grown(size, capacity) < INDEX_LIMIT <==> size < capacity || capacity < INDEX_LIMIT / 2
  {
  }

  /** Room for more can be counted in 32 bits exactly when the need is at most the largest capacity that doubling
      reaches; for a list without a block, when the amount is. */
  lemma {:induction false} ReservedFitsExactly(size: nat, capacity: nat, amount: nat)
    requires size <= capacity < INDEX_LIMIT
    ensures Reserved(size, capacity, amount) < INDEX_LIMIT <==>
            if capacity == 0 then amount < INDEX_LIMIT else size + amount <= Top(capacity)
  {
    if capacity > 0 {
      DoubledFitsExactly(capacity, size + amount);
    }
  }

  class Children<T(0)> {
    var arr: array?<T>
    var mysize: nat
    var mycapacity: nat

    /** size <= capacity <= allocation; nothing is allocated exactly when the capacity is 0. */
    ghost predicate Valid()
      reads this, arr
    {
      && (arr == null <==> mycapacity == 0)
      && mysize <= mycapacity
      && (arr != null ==> mycapacity <= arr.Length)
    }

    ghost function Contents(): (s: seq<T>)
      reads this, arr
      requires Valid()
      ensures |s| == mysize
    {
      if arr == null then [] else arr[..mysize]
    }

    constructor ()
      ensures Valid() && Contents() == []
    {
      arr, mysize, mycapacity := null, 0, 0;
    }

    /** realloc: a block of the wanted length that starts with what fits of the old one. */
    static method Realloc(a: array<T>, n: nat) returns (b: array<T>)
      ensures fresh(b) && b.Length == n
      ensures forall k :: 0 <= k < n && k < a.Length ==> b[k] == a[k]
    {
      b := new T[n];
      forall k | 0 <= k < n && k < a.Length {
        b[k] := a[k];
      }
    }

    /** memmove inside one block. */
    static method MemMove(a: array<T>, dst: nat, src: nat, n: nat)
      requires dst + n <= a.Length && src + n <= a.Length
      modifies a
      ensures forall k :: 0 <= k < a.Length ==>
                a[k] == if dst <= k < dst + n then old(a[src + (k - dst)]) else old(a[k])
    {
      forall k | 0 <= k < n {
        a[dst + k] := a[src + k];
      }
    }

    /** Makes room for one more element. */
    method Inc()
      requires Valid()
      modifies this
      ensures Valid() && Contents() == old(Contents()) && mysize < mycapacity
      ensures arr == old(arr) || fresh(arr)
      ensures mycapacity == Grown(mysize, old(mycapacity))
    {
      if mysize == mycapacity {
        if mycapacity == 0 {
          arr := new T[FIRST_ALLOCATION];
          mycapacity := FIRST_ALLOCATION;
        } else {
          mycapacity := 2 * mycapacity;
          arr := Realloc(arr, mycapacity);
        }
      }
    }

    /** Makes room for `amount` more. */
    method IncBy(amount: nat)
      requires Valid()
      modifies this
      ensures Valid() && Contents() == old(Contents()) && mysize + amount <= mycapacity
      ensures arr == old(arr) || fresh(arr)
      ensures amount == 0 ==> arr == old(arr)
      ensures mycapacity == Reserved(mysize, old(mycapacity), amount) >= old(mycapacity)
    {
      if amount == 0 {
        return;
      }
      if mysize + amount >= mycapacity {
        if mycapacity == 0 {
          var first := if amount > FIRST_ALLOCATION then amount else FIRST_ALLOCATION;
          arr := new T[first];
          mycapacity := first;
        } else {
          while mysize + amount > mycapacity
            invariant 0 < old(mycapacity) <= mycapacity
            invariant Doubled(mycapacity, mysize + amount) == Doubled(old(mycapacity), mysize + amount)
            invariant arr == old(arr) && mysize == old(mysize)
            decreases mysize + amount - mycapacity
          {
            mycapacity := 2 * mycapacity;
          }
          arr := Realloc(arr, mycapacity);
        }
      }
    }

    method PushBack(item: T)
      requires Valid()
      modifies this, arr
      ensures Valid() && (arr == old(arr) || fresh(arr))
      ensures Contents() == Apply(old(Contents()), Op.PushBack(item))
    {
      Inc();
      arr[mysize] := item;
      mysize := mysize + 1;
    }

    method PushFront(item: T)
      requires Valid()
      modifies this, arr
      ensures Valid() && (arr == old(arr) || fresh(arr))
      ensures Contents() == Apply(old(Contents()), Op.PushFront(item))
    {
      Inc();
      MemMove(arr, 1, 0, mysize);
      mysize := mysize + 1;
      arr[0] := item;
    }

    /** iteratorKeeper: the distance that is remembered, counted from the start or from the end. */
    function Remember(pos: nat, reverse: bool): (offset: nat)
      reads this
      requires pos <= mysize
      ensures offset <= mysize
    {
      if reverse then mysize - pos else pos
    }

    function Restore(offset: nat, reverse: bool): nat
      reads this
      requires offset <= mysize
    {
      if reverse then mysize - offset else offset
    }

    /** Moves the tail up and stores `items` in the gap. */
    method OpenAndFill(pos: nat, items: seq<T>)
      requires Valid() && arr != null && pos <= mysize && mysize + |items| <= mycapacity
      modifies arr, this`mysize
      ensures Valid() && Contents() == old(Contents())[..pos] + items + old(Contents())[pos..]
    {
      ghost var was := Contents();
      MemMove(arr, pos + |items|, pos, mysize - pos);
      assert forall k :: pos <= k < mysize ==> arr[k + |items|] == was[k] by {
        forall k | pos <= k < mysize ensures arr[k + |items|] == was[k] {
          assert arr[k + |items|] == old(arr[pos + ((k + |items|) - (pos + |items|))]);
        }
      }
      forall k | 0 <= k < |items| {
        arr[pos + k] := items[k];
      }
      mysize := mysize + |items|;
      FilledGap(was, pos, items, Contents());
    }

    /** The returned position is the tracked pointer, as an index into the possibly moved block. */
    method Insert(pos: nat, item: T, reverse: bool) returns (moved: nat)
      requires Valid() && pos <= mysize
      modifies this, arr
      ensures Valid() && (arr == old(arr) || fresh(arr))
      ensures Contents() == Apply(old(Contents()), Op.Insert(pos, item, reverse))
      ensures moved == pos && Contents()[moved] == item
    {
      var offset := Remember(pos, reverse);
      Inc();
      moved := Restore(offset, reverse);
      OpenAndFill(moved, [item]);
    }

    method InsertRange(pos: nat, items: seq<T>) returns (moved: nat)
      requires Valid() && pos <= mysize
      modifies this, arr
      ensures Valid() && (arr == old(arr) || fresh(arr))
      ensures Contents() == Apply(old(Contents()), Op.InsertRange(pos, items))
      ensures moved == pos
    {
      var offset := Remember(pos, false);
      IncBy(|items|);
      moved := Restore(offset, false);
      if arr != null {
        OpenAndFill(moved, items);
      }
    }

    /** Gives up spare capacity; the block itself is released only when nothing is left. */
    method Shrink()
      requires mysize <= mycapacity && (arr != null ==> mycapacity <= arr.Length)
      requires arr == null <==> mycapacity == 0
      modifies this
      ensures Valid() && Contents() == old(Contents()) && mycapacity == mysize
      ensures arr == null || arr == old(arr)
    {
      if mysize == 0 {
        arr := null;
      }
      mycapacity := mysize;
    }

    method Erase(pos: nat) returns (moved: nat)
      requires Valid() && pos < mysize
      modifies this, arr
      ensures Valid() && (arr == null || arr == old(arr)) && mycapacity == mysize
      ensures Contents() == Apply(old(Contents()), Op.Erase(pos))
      ensures moved == pos
    {
      MemMove(arr, pos, pos + 1, mysize - pos - 1);
      mysize := mysize - 1;
      var offset := Remember(pos, false);
      assert arr[..mysize] == Apply(old(Contents()), Op.Erase(pos));
      Shrink();
      moved := offset;
    }

    /** Erasing through a node: a position that is not before the end is refused, and the end is returned. */
    method EraseAt(pos: nat) returns (moved: nat)
      requires Valid()
      modifies this, arr
      ensures Valid() && (arr == null || arr == old(arr))
      ensures old(mysize) <= pos ==> Contents() == old(Contents()) && mycapacity == old(mycapacity)
      ensures pos < old(mysize) ==> Contents() == Apply(old(Contents()), Op.Erase(pos)) && mycapacity == mysize
      ensures moved == if pos < old(mysize) && mysize > 0 then pos else mysize
    {
      if pos >= mysize {
        return mysize;
      }
      moved := Erase(pos);
      if mysize == 0 {
        moved := mysize;
      }
    }

    method DoErase(pos: nat, number: nat)
      requires Valid() && arr != null && pos + number <= mysize
      modifies this`mysize, arr
      ensures Valid() && Contents() == old(Contents())[..pos] + old(Contents())[pos + number..]
    {
      if pos + number >= mysize {
        mysize := pos;
      } else {
        MemMove(arr, pos, pos + number, mysize - pos - number);
        mysize := mysize - number;
      }
    }

    /** `starter` is another tracked position: its index survives the erase and the shrink. */
    method EraseRange(pos: nat, number: nat, starter: nat) returns (moved: nat)
      requires Valid() && arr != null && pos + number <= mysize
      modifies this, arr
      ensures Valid() && (arr == null || arr == old(arr)) && mycapacity == mysize
      ensures Contents() == old(Contents())[..pos] + old(Contents())[pos + number..]
      ensures moved == starter
    {
      DoErase(pos, number);
      moved := starter;
      Shrink();
    }

    method Clear()
      requires Valid()
      modifies this`mysize
      ensures Valid() && Contents() == Apply(old(Contents()), Op.Clear)
      ensures mycapacity == old(mycapacity) && arr == old(arr)
    {
      if arr != null {
        mysize := 0;
      }
    }

    method Do(op: Op<T>)
      requires Valid() && Legal(Contents(), op)
      modifies this, arr
      ensures Valid() && (arr == null || arr == old(arr) || fresh(arr))
      ensures Contents() == Apply(old(Contents()), op)
    {
      match op {
        case PushBack(item) => PushBack(item);
        case PushFront(item) => PushFront(item);
        case Insert(pos, item, reverse) => var _ := Insert(pos, item, reverse);
        case InsertRange(pos, items) => var _ := InsertRange(pos, items);
        case Erase(pos) => var _ := Erase(pos);
        case EraseRange(pos, number) => var _ := EraseRange(pos, number, pos);
        case Clear => Clear();
      }
    }

    /** Any run of calls on the array is the same run of operations on the sequence. */
    method Replay(ops: seq<Op<T>>)
      requires Valid() && LegalRun(Contents(), ops)
      modifies this, arr
      ensures Valid() && Contents() == ApplyRun(old(Contents()), ops)
    {
      ghost var s := Contents();
      for i := 0 to |ops|
        invariant Valid() && LegalRun(s, ops[..i]) && Contents() == ApplyRun(s, ops[..i])
        invariant arr == null || arr == old(arr) || fresh(arr)
      {
        RunPrefix(s, ops, i + 1);
        assert ops[..i + 1] == ops[..i] + [ops[i]];
        RunExtends(s, ops[..i], ops[i]);
        Do(ops[i]);
      }
      assert ops[..|ops|] == ops;
    }
  }
}
