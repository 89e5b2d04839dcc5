/**
 * The part of std::vector the typed statements rely on: a size, a capacity
 * and the identity of the heap block behind `data()`. Resizing within the
 * capacity keeps the block; growing past it moves the elements to a fresh
 * block. A vector that never allocated has a null `data()`.
 */
module Vectors {

  /** A heap block; only its identity matters (it plays the role of `data()`). */
  class Storage {
    constructor ()
    {
    }
  }

  /** The elements after `resize( n )`: truncated, or padded with `zero`. */
  function Resized<T>(elems: seq<T>, n: nat, zero: T): (r: seq<T>)
    ensures |r| == n
    ensures forall i :: 0 <= i < n && i < |elems| ==> r[i] == elems[i]
    ensures forall i :: |elems| <= i < n ==> r[i] == zero
  {
    if n <= |elems| then elems[..n] else elems + seq(n - |elems|, _ => zero)
  }

  /** Resizing to the current size changes nothing. */
  lemma ResizedToSize<T>(elems: seq<T>, zero: T)
    ensures Resized(elems, |elems|, zero) == elems
  {
  }

  class Vector<T> {
    var elems: seq<T>
    var capacity: nat
    var storage: Storage?
    /** The value-initialised element `T()` that `resize` appends. */
    const zero: T

    ghost predicate Valid()
      reads this
    {
      |elems| <= capacity && (storage == null <==> capacity == 0)
    }

    function Size(): nat
      reads this
    {
      |elems|
    }

    /** `std::vector< T >()`: nothing allocated. */
    constructor Empty(zero: T)
      ensures Valid() && elems == [] && capacity == 0 && storage == null && this.zero == zero
    {
      elems, capacity, storage, this.zero := [], 0, null, zero;
    }

    /** `std::vector< T >( n )`: n value-initialised elements in a block of exactly that capacity. */
    constructor Filled(n: nat, zero: T)
      ensures Valid() && elems == seq(n, _ => zero) && capacity == n && this.zero == zero
      ensures n > 0 ==> fresh(storage)
    {
      elems, capacity, this.zero := seq(n, _ => zero), n, zero;
      if n > 0 {
        storage := new Storage();
      } else {
        storage := null;
      }
    }

    /**
     * `resize( n )`: truncates, or appends value-initialised elements. The
     * block survives when `n` fits in the capacity; otherwise a fresh block
     * of at least `n` elements replaces it.
     */
    method Resize(n: nat)
      requires Valid()
      modifies this
      ensures Valid()
      ensures elems == Resized(old(elems), n, zero)
      ensures n <= old(capacity) ==> capacity == old(capacity) && storage == old(storage)
      ensures n > old(capacity) ==> capacity >= n && storage != null && fresh(storage)
    {
      if n <= |elems| {
        elems := elems[..n];
      } else {
        elems := elems + seq(n - |elems|, _ => zero);
      }
      if n > capacity {
        var slack: int := *;
        capacity := if slack > 0 then n + slack else n;
        storage := new Storage();
      }
    }
  }
}
