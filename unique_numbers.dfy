/**
 * The unique-number allocator: `createGenerateUniqueNumber` and `createCache`.
 *
 * Given the keys of a collection, it returns an integer that is not a key and
 * records it as the collection's last number. The random draws of the source
 * (`Math.floor(Math.random() * bound)`) are supplied by the caller as the
 * sequence `draws`, in the order they would be made.
 */
module UniqueNumbers {
  import opened Wrappers

  const MAX_SAFE_INTEGER: int := 9007199254740991
  const TWO_TO_THE_POWER_OF_TWENTY_NINE: int := 536870912
  const TWO_TO_THE_POWER_OF_THIRTY: int := TWO_TO_THE_POWER_OF_TWENTY_NINE * 2

  /** The outcome of one allocation: a free number, or the keyspace-exhaustion error. */
  datatype Allocation = Allocated(number: int) | Exhausted

  /**
   * The cheap first guess: the collection's size when no last number is known,
   * otherwise the last number plus one, wrapping to 0 once it reaches 2^30.
   */
  function CheapCandidate(size: nat, lastNumber: Option<int>): (c: int)
    ensures lastNumber.None? ==> c == size
    // a known last number within [-1, 2^30] keeps the guess within the small integers [0, 2^30]
    ensures lastNumber.Some? && -1 <= lastNumber.value <= TWO_TO_THE_POWER_OF_THIRTY ==>
      0 <= c <= TWO_TO_THE_POWER_OF_THIRTY
    ensures lastNumber.Some? && lastNumber.value < TWO_TO_THE_POWER_OF_THIRTY ==> c == lastNumber.value + 1
    ensures lastNumber.Some? && TWO_TO_THE_POWER_OF_THIRTY <= lastNumber.value ==> c == 0
  {
    match lastNumber
    case None => size
    case Some(last) => if last < TWO_TO_THE_POWER_OF_THIRTY then last + 1 else 0
  }

  /** The exclusive upper bound of the random draws for a collection of `size` keys. */
  function DrawBound(size: nat): int
  {
    if size < TWO_TO_THE_POWER_OF_TWENTY_NINE then TWO_TO_THE_POWER_OF_THIRTY else MAX_SAFE_INTEGER
  }

  /** The exhaustion guard as the source writes it. */
  predicate ThrowsAsWritten(size: nat)
  {
    size > MAX_SAFE_INTEGER
  }

  /** The exhaustion guard this model uses: no free draw can exist from this size on. */
  predicate Throws(size: nat)
  {
    size >= MAX_SAFE_INTEGER
  }

  /**
   * `Math.floor(u * bound)`: the integer one raw random value `u`
   * (a value of `Math.random()`) gives for a draw below `bound`.
   */
  function Scale(u: real, bound: int): (n: int)
    ensures 0.0 <= u < 1.0 && 0 < bound ==> 0 <= n < bound
  {
    var x := u * bound as real;
    assert 0.0 <= u < 1.0 && 0 < bound ==> 0.0 <= x < bound as real by {
      if 0.0 <= u < 1.0 && 0 < bound {
        ProductSigns(u, 1.0 - u, bound as real);
        assert bound as real - x == (1.0 - u) * bound as real;
      }
    }
    x.Floor
  }

  /** Signs of the two products `Scale` relies on. */
  lemma ProductSigns(a: real, c: real, b: real)
    requires 0.0 <= a && 0.0 < c && 0.0 < b
    ensures 0.0 <= a * b
    ensures 0.0 < c * b
  {
  }

  /** The raw random value that `Scale` turns into exactly `x`. */
  function DrawOf(x: int, bound: int): (u: real)
    requires 0 <= x < bound
    ensures 0.0 <= u < 1.0
    ensures Scale(u, bound) == x
  {
    var u := x as real / bound as real;
    assert u * bound as real == x as real;
    assert (1.0 - u) * bound as real == (bound - x) as real;
    assert u < 1.0 by {
      if 1.0 <= u {
        ProductSigns(u - 1.0, 1.0, bound as real);
      }
    }
    u
  }

  /** Every raw value is one `Math.random()` can return: in [0, 1). */
  predicate DrawsInRange(draws: seq<real>)
  {
    forall j :: 0 <= j < |draws| ==> 0.0 <= draws[j] < 1.0
  }

  predicate HasFreeDraw(keys: set<int>, draws: seq<real>, bound: int)
  {
    exists j :: 0 <= j < |draws| && Scale(draws[j], bound) !in keys
  }

  /**
   * What the random source provides: raw values in [0, 1), and, unless the
   * collection is exhausted, one that gives a free number in the range the
   * source draws from for a collection of this size.
   */
  predicate DrawsUsable(keys: set<int>, draws: seq<real>)
  {
    DrawsInRange(draws) && (!Throws(|keys|) ==> HasFreeDraw(keys, draws, DrawBound(|keys|)))
  }

  /** `n` is the first draw below `bound` that is not a key. */
  predicate IsFirstFreeDraw(keys: set<int>, draws: seq<real>, bound: int, n: int)
  {
    exists j :: 0 <= j < |draws| && Scale(draws[j], bound) == n && n !in keys &&
      forall i :: 0 <= i < j ==> Scale(draws[i], bound) in keys
  }

  /** The integers 0 .. n-1. */
  function Range(n: nat): set<int>
  {
    if n == 0 then {} else Range(n - 1) + {n - 1}
  }

  lemma {:induction false} RangeSize(n: nat)
    ensures |Range(n)| == n
    ensures forall x :: x in Range(n) <==> 0 <= x < n
  {
    if n > 0 {
      RangeSize(n - 1);
    }
  }

  /** A set with fewer than `bound` elements misses some number of [0, bound). */
  lemma {:induction false} FreeValueBelow(keys: set<int>, bound: nat)
    requires |keys| < bound
    ensures exists x :: 0 <= x < bound && x !in keys
  {
    var top := bound - 1;
    if top !in keys {
      assert 0 <= top < bound;
    } else {
      assert |keys - {top}| == |keys| - 1;
      FreeValueBelow(keys - {top}, top);
      var x :| 0 <= x < top && x !in keys - {top};
      assert x !in keys;
    }
  }

  /** A set of numbers drawn from [0, bound) has at most `bound` elements. */
  lemma {:induction false} BoundedSetSize(keys: set<int>, bound: nat)
    requires forall k :: k in keys ==> 0 <= k < bound
    ensures |keys| <= bound
  {
    if bound > 0 {
      var top := bound - 1;
      if top in keys {
        assert |keys - {top}| == |keys| - 1;
      }
      BoundedSetSize(keys - {top}, top);
    } else {
      forall k | k in keys ensures false { }
      assert keys == {};
    }
  }

  /** A set holding exactly the numbers of [0, n) has n elements. */
  lemma {:induction false} FullSetSize(keys: set<int>, n: nat)
    requires forall k :: k in keys ==> 0 <= k < n
    requires forall x :: 0 <= x < n ==> x in keys
    ensures |keys| == n
  {
    if n > 0 {
      var top := n - 1;
      assert top in keys;
      assert |keys - {top}| == |keys| - 1;
      FullSetSize(keys - {top}, top);
    } else {
      forall k | k in keys ensures false { }
      assert keys == {};
    }
  }

  /**
   * With the corrected guard, every collection that is not rejected leaves a
   * free value in the range the source draws from, so the draw loop can end.
   */
  lemma CorrectedGuardLeavesFreeDraw(keys: set<int>)
    requires !Throws(|keys|)
    ensures exists x :: 0 <= x < DrawBound(|keys|) && x !in keys
  {
    FreeValueBelow(keys, DrawBound(|keys|));
  }

  /**
   * The corrected guard is a quick size test: it also rejects some collections
   * that still have a free value (keys outside [0, MAX_SAFE_INTEGER) count
   * towards the size). For a collection whose keys all lie in that range, as
   * the allocator's own numbers do, it rejects exactly the collections in
   * which no value is left to draw.
   */
  lemma GuardExactWithinDrawRange(keys: set<int>)
    requires forall k :: k in keys ==> 0 <= k < MAX_SAFE_INTEGER
    ensures Throws(|keys|) <==> forall x :: 0 <= x < MAX_SAFE_INTEGER ==> x in keys
  {
    if Throws(|keys|) {
      forall x | 0 <= x < MAX_SAFE_INTEGER
        ensures x in keys
      {
        if x !in keys {
          BoundedSetSize(keys + {x}, MAX_SAFE_INTEGER);
          assert false;
        }
      }
    }
    if forall x :: 0 <= x < MAX_SAFE_INTEGER ==> x in keys {
      FullSetSize(keys, MAX_SAFE_INTEGER);
    }
  }

  /** For every collection, some sequence of draws satisfies `DrawsUsable`. */
  lemma UsableDrawsExist(keys: set<int>)
    ensures exists draws :: DrawsUsable(keys, draws)
  {
    if Throws(|keys|) {
      assert DrawsUsable(keys, []);
    } else {
      CorrectedGuardLeavesFreeDraw(keys);
      var x :| 0 <= x < DrawBound(|keys|) && x !in keys;
      var u := DrawOf(x, DrawBound(|keys|));
      assert Scale([u][0], DrawBound(|keys|)) !in keys;
      assert DrawsUsable(keys, [u]);
    }
  }

  /**
   * For a collection with fewer than 2^29 keys, all below `limit`, draws in
   * [0, 1) are usable as soon as one of them gives a free number below 2^30.
   */
  lemma FewKeysUsable(keys: set<int>, limit: nat, draws: seq<real>, j: int)
    requires forall k :: k in keys ==> 0 <= k < limit
    requires limit < TWO_TO_THE_POWER_OF_TWENTY_NINE
    requires DrawsInRange(draws)
    requires 0 <= j < |draws| && Scale(draws[j], TWO_TO_THE_POWER_OF_THIRTY) !in keys
    ensures |keys| <= limit
    ensures DrawsUsable(keys, draws)
  {
    BoundedSetSize(keys, limit);
  }

  /**
   * The source's guard lets through the collection holding exactly the keys
   * 0 .. MAX_SAFE_INTEGER-1 (with last number 0, so the cheap guess 1 is taken),
   * yet every value `Math.floor(Math.random() * MAX_SAFE_INTEGER)` can give is
   * already a key: its draw loop never ends.
   */
  lemma AsWrittenGuardAdmitsFullCollection()
    ensures |Range(MAX_SAFE_INTEGER)| == MAX_SAFE_INTEGER
    ensures CheapCandidate(|Range(MAX_SAFE_INTEGER)|, Some(0)) in Range(MAX_SAFE_INTEGER)
    ensures |Range(MAX_SAFE_INTEGER)| >= TWO_TO_THE_POWER_OF_TWENTY_NINE
    ensures !ThrowsAsWritten(|Range(MAX_SAFE_INTEGER)|)
    ensures forall u :: 0.0 <= u < 1.0 ==> Scale(u, MAX_SAFE_INTEGER) in Range(MAX_SAFE_INTEGER)
  {
    RangeSize(MAX_SAFE_INTEGER);
  }

  /**
   * The random-draw loop: starting from an occupied guess, draw below `bound`
   * until the drawn value is not a key.
   */
  method DrawUntilFree(keys: set<int>, candidate: int, draws: seq<real>, bound: int) returns (n: int)
    requires candidate in keys && 0 < bound
    requires DrawsInRange(draws) && HasFreeDraw(keys, draws, bound)
    ensures n !in keys
    ensures 0 <= n < bound
    ensures IsFirstFreeDraw(keys, draws, bound, n)
  {
    n := candidate;
    var i := 0;
    while n in keys
      invariant 0 <= i <= |draws|
      invariant forall k :: 0 <= k < i - 1 ==> Scale(draws[k], bound) in keys
      invariant i == 0 ==> n == candidate
      invariant 0 < i ==> n == Scale(draws[i - 1], bound)
      decreases |draws| - i
    {
      ghost var j :| 0 <= j < |draws| && Scale(draws[j], bound) !in keys;
      assert i <= j;
      n := Scale(draws[i], bound);
      i := i + 1;
    }
    assert Scale(draws[i - 1], bound) == n;
  }

  /**
   * Chooses the number `generateUniqueNumber` returns for a collection with
   * the given keys and last number: the cheap guess when it is free, otherwise
   * the first free random draw, or the exhaustion error.
   */
  method PickUniqueNumber(keys: set<int>, lastNumber: Option<int>, draws: seq<real>) returns (r: Allocation)
    requires DrawsUsable(keys, draws)
    ensures r.Allocated? ==> r.number !in keys
    ensures r.Exhausted? <==> CheapCandidate(|keys|, lastNumber) in keys && Throws(|keys|)
    ensures CheapCandidate(|keys|, lastNumber) !in keys ==> r == Allocated(CheapCandidate(|keys|, lastNumber))
    ensures CheapCandidate(|keys|, lastNumber) in keys && r.Allocated? && |keys| < TWO_TO_THE_POWER_OF_TWENTY_NINE ==>
      IsFirstFreeDraw(keys, draws, TWO_TO_THE_POWER_OF_THIRTY, r.number) && 0 <= r.number < TWO_TO_THE_POWER_OF_THIRTY
    ensures CheapCandidate(|keys|, lastNumber) in keys && r.Allocated? && |keys| >= TWO_TO_THE_POWER_OF_TWENTY_NINE ==>
      IsFirstFreeDraw(keys, draws, MAX_SAFE_INTEGER, r.number) && 0 <= r.number < MAX_SAFE_INTEGER
  {
    var nextNumber := CheapCandidate(|keys|, lastNumber);
    if nextNumber !in keys {
      return Allocated(nextNumber);
    }
    if |keys| < TWO_TO_THE_POWER_OF_TWENTY_NINE {
      nextNumber := DrawUntilFree(keys, nextNumber, draws, TWO_TO_THE_POWER_OF_THIRTY);
      return Allocated(nextNumber);
    }
    if Throws(|keys|) {
      return Exhausted;
    }
    nextNumber := DrawUntilFree(keys, nextNumber, draws, MAX_SAFE_INTEGER);
    return Allocated(nextNumber);
  }

  /**
   * `generateUniqueNumber` with its cache: `lastNumbers` plays the part of the
   * weak map from a collection (identified by a `K`) to its last number.
   */
  class UniqueNumberGenerator<K(==)> {
    var lastNumbers: map<K, int>

    constructor ()
      ensures lastNumbers == map[]
    {
      lastNumbers := map[];
    }

    function LastNumber(collection: K): Option<int>
      reads this
    {
      Lookup(lastNumbers, collection)
    }

    /** `cache`: records `nextNumber` as the collection's last number and returns it. */
    method Cache(collection: K, nextNumber: int) returns (n: int)
      modifies this
      ensures n == nextNumber
      ensures lastNumbers == old(lastNumbers)[collection := nextNumber]
    {
      lastNumbers := lastNumbers[collection := nextNumber];
      n := nextNumber;
    }

    /**
     * `generateUniqueNumber(collection)`: a number that is not a key of the
     * collection, recorded as its last number; nothing is recorded when the
     * keyspace is exhausted.
     */
    method Generate(collection: K, keys: set<int>, draws: seq<real>) returns (r: Allocation)
      requires DrawsUsable(keys, draws)
      modifies this
      ensures r.Allocated? ==> r.number !in keys
      ensures r.Allocated? ==> lastNumbers == old(lastNumbers)[collection := r.number]
      ensures r.Exhausted? ==> lastNumbers == old(lastNumbers)
      ensures var guess := CheapCandidate(|keys|, old(LastNumber(collection)));
        && (r.Exhausted? <==> guess in keys && Throws(|keys|))
        && (guess !in keys ==> r == Allocated(guess))
        && (guess in keys && r.Allocated? ==>
              IsFirstFreeDraw(keys, draws, DrawBound(|keys|), r.number) && 0 <= r.number < DrawBound(|keys|))
    {
      r := PickUniqueNumber(keys, LastNumber(collection), draws);
      if r.Allocated? {
        var n := Cache(collection, r.number);
      }
    }
  }
}
