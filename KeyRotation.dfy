/**
 * The round-robin credential counter (`get_key`), which four source files
 * implement identically: a module-level `LAST_KEY_INDEX` seeded by
 * `randrange(0, len(keys))` and advanced by one, modulo the pool size, on
 * every call.
 */
module KeyRotation {
  import opened Wrappers

  /**
   * The module-load seed `randrange(0, size)`; `draw` is the random
   * generator's raw output. An empty pool makes the module fail to load.
   */
  function StartIndex(size: nat, draw: nat): (r: Result<nat, string>)
    ensures r.Ok? <==> size > 0
    ensures r.Ok? ==> r.value < size
  {
    if size == 0 then Err("empty range for randrange()") else Ok(draw % size)
  }

  /** The shared counter and the pool it indexes. */
  class KeyRing {
    const keys: seq<string>
    var index: nat

    ghost predicate Valid()
      reads this
    {
      |keys| > 0 && index < |keys|
    }

    /** The pool as loaded: `start` is the seed `StartIndex` produced. */
    constructor (keys: seq<string>, start: nat)
      requires start < |keys|
      ensures Valid() && this.keys == keys && index == start
    {
      this.keys := keys;
      index := start;
    }

    /** `get_key()`: advance the index, then hand out the key it now points at. */
    method GetKey() returns (key: string)
      requires Valid()
      modifies this
      ensures Valid()
      ensures index == Next(old(index), |keys|)
      ensures key == keys[index]
    {
      index := (index + 1) % |keys|;
      key := keys[index];
    }
  }

  /** One step of the counter, without `%`: the index after the last key wraps to 0. */
  function Next(index: nat, size: nat): (r: nat)
    requires index < size
    ensures r < size
    ensures r == (index + 1) % size
  {
    if index + 1 == size then 0
    else assert (index + 1) % size == index + 1; index + 1
  }

  /** Where the counter stands after `count` calls from `index`. */
  function Steps(index: nat, size: nat, count: nat): (r: nat)
    requires index < size
    ensures r < size
  {
    if count == 0 then index else Next(Steps(index, size, count - 1), size)
  }

  /** The indices handed out by `count` successive `get_key` calls starting from `index`. */
  function Rotation(index: nat, size: nat, count: nat): (r: seq<nat>)
    requires index < size
    ensures |r| == count
    decreases count
  {
    if count == 0 then [] else [Next(index, size)] + Rotation(Next(index, size), size, count - 1)
  }

  /** The j-th call hands out index `index + j + 1`, wrapped once past the end of the pool. */
  lemma {:induction false} RotationAt(index: nat, size: nat, count: nat, j: nat)
    requires index < size && j < count && j < size
    ensures Rotation(index, size, count)[j]
            == if index + j + 1 < size then index + j + 1 else index + j + 1 - size
    decreases count
  {
    if j > 0 {
      RotationAt(Next(index, size), size, count - 1, j - 1);
    }
  }

  /** Any `size` consecutive calls hand out every key of the pool ... */
  lemma RotationCoversPool(index: nat, size: nat, k: nat)
    requires index < size && k < size
    ensures k in Rotation(index, size, size)
  {
    var j := if k > index then k - index - 1 else k + size - index - 1;
    RotationAt(index, size, size, j);
  }

  /** ... and none of them twice: the load is spread evenly over the pool. */
  lemma RotationNoRepeat(index: nat, size: nat, i: nat, j: nat)
    requires index < size && i < j < size
    ensures Rotation(index, size, size)[i] != Rotation(index, size, size)[j]
  {
    RotationAt(index, size, size, i);
    RotationAt(index, size, size, j);
  }

  /** The last index handed out is where the counter stands afterwards. */
  lemma {:induction false} RotationEndsAtSteps(index: nat, size: nat, count: nat)
    requires index < size && count > 0
    ensures Rotation(index, size, count)[count - 1] == Steps(index, size, count)
    decreases count
  {
    if count > 1 {
      RotationEndsAtSteps(Next(index, size), size, count - 1);
      StepsShift(index, size, count - 1);
    }
  }

  lemma {:induction false} StepsShift(index: nat, size: nat, count: nat)
    requires index < size
    ensures Steps(Next(index, size), size, count) == Steps(index, size, count + 1)
  {
    if count > 0 {
      StepsShift(index, size, count - 1);
    }
  }
}
