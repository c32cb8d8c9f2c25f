/** The convenience macros of include/dev_utils.h. MAX, MIN and CLAMP expand to
    conditional expressions and are modelled on int; the ARRAY_SIZE macros are
    sizeof arithmetic on byte counts; ZERO_MEM overwrites the bytes of an object
    and SAFE_DELETE frees and nulls a pointer variable. */
module DevUtils {

  /** MAX(a, b): a when a > b, otherwise b (so b on a tie). */
  function Max(a: int, b: int): (r: int)
    ensures r >= a && r >= b
    ensures r == a || r == b
  {
    if a > b then a else b
  }

  /** MIN(a, b): a when a < b, otherwise b (so b on a tie). */
  function Min(a: int, b: int): (r: int)
    ensures r <= a && r <= b
    ensures r == a || r == b
  {
    if a < b then a else b
  }

  /** CLAMP(Val, Start, End) is MIN(MAX(Val, Start), End). The upper bound wins:
      on an empty range (Start > End) the result is End. */
  function Clamp(v: int, lo: int, hi: int): (r: int)
    ensures r <= hi
    ensures lo <= hi ==> lo <= r
    ensures lo <= v <= hi ==> r == v
    ensures v < lo <= hi ==> r == lo
    ensures hi < v || hi < lo ==> r == hi
  {
    Min(Max(v, lo), hi)
  }

  /** Clamping twice is clamping once, whatever the bounds. */
  lemma ClampIdempotent(v: int, lo: int, hi: int)
    ensures Clamp(Clamp(v, lo, hi), lo, hi) == Clamp(v, lo, hi)
  {
    var once := Clamp(v, lo, hi);
    if lo <= hi {
      assert lo <= once <= hi;
    } else {
      assert once == hi;
    }
  }

  /** Clamping keeps the order of its arguments. */
  lemma ClampMonotone(v: int, w: int, lo: int, hi: int)
    requires v <= w
    ensures Clamp(v, lo, hi) <= Clamp(w, lo, hi)
  {
  }

  /** ARRAY_SIZE_IN_BYTES(a, size): size elements of elemSize bytes each. */
  function ArraySizeInBytes(elemSize: nat, size: nat): (r: nat)
    ensures elemSize > 0 ==> r / elemSize == size
  {
    DivideProduct(elemSize, size);
    elemSize * size
  }

  /** ARRAY_SIZE_IN_ELEMENTS(a): sizeof(a) / sizeof(a[0]), the number of whole
      elements of elemSize bytes in totalBytes. */
  function ArraySizeInElements(totalBytes: nat, elemSize: nat): (r: nat)
    requires elemSize > 0
    ensures r * elemSize <= totalBytes < (r + 1) * elemSize
  {
    totalBytes / elemSize
  }

  /** The two macros undo each other on an array of size elements. */
  lemma {:induction false} ArraySizeRoundTrip(elemSize: nat, size: nat)
    requires elemSize > 0
    ensures ArraySizeInElements(ArraySizeInBytes(elemSize, size), elemSize) == size
  {
    DivideProduct(elemSize, size);
  }

  /** Division undoes multiplication by a positive element size. */
  lemma DivideProduct(k: nat, n: nat)
    ensures k > 0 ==> (k * n) / k == n
  {
    if k > 0 {
      var q, r := (k * n) / k, (k * n) % k;
      assert k * q + r == k * n && 0 <= r < k;
      assert k * (n - q) == r;
      MultipleBounds(k, n - q);
    }
  }

  /** A non-zero multiple of k is at least k away from zero. */
  lemma MultipleBounds(k: int, m: int)
    requires k > 0
    ensures m >= 1 ==> k * m >= k
    ensures m <= -1 ==> k * m <= -k
  {
  }

  /** ZERO_MEM(a): memset(a, 0, sizeof(*a)) sets every byte of the object a
      points to to zero. */
  method ZeroMem(a: array<bv8>)
    modifies a
    ensures forall i :: 0 <= i < a.Length ==> a[i] == 0
  {
    forall i | 0 <= i < a.Length {
      a[i] := 0;
    }
  }

  /** A pointer variable. A non-null value is the address of a live allocation;
      frees logs the addresses handed to free, in order. */
  class Pointer {
    var target: nat
    var frees: seq<nat>

    /** A variable holding null (target 0) or an address. */
    constructor(address: nat)
      ensures target == address && frees == []
    {
      target := address;
      frees := [];
    }

    /** SAFE_DELETE(p): if p is not NULL, free it and set it to NULL. */
    method SafeDelete()
      modifies this
      ensures target == 0
      ensures frees == old(frees) + (if old(target) != 0 then [old(target)] else [])
    {
      if target != 0 {
        frees := frees + [target];
        target := 0;
      }
    }

    /** Applying the macro twice frees the allocation once: the second
        application sees NULL and does nothing. */
    method SafeDeleteTwice()
      modifies this
      ensures target == 0
      ensures frees == old(frees) + (if old(target) != 0 then [old(target)] else [])
    {
      SafeDelete();
      ghost var afterFirst := frees;
      SafeDelete();
      assert frees == afterFirst;
    }
  }
}
