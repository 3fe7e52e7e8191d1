/** `Array.subscript(safe:)` (Home/HomeViewController.swift): indexing that cannot trap. */
module SafeIndex {
  import opened Values

  /** The element at `index`, or nothing when `index` is not a valid position. */
  function SafeGet<T>(a: seq<T>, index: int): (e: Option<T>)
    ensures e.Some? <==> 0 <= index < |a|
    ensures e.Some? ==> e.value == a[index]
  {
    if 0 <= index < |a| then Some(a[index]) else None
  }

  /** On an empty array every index gives nothing. */
  lemma SafeGetEmpty<T>(a: seq<T>, index: int)
    requires a == []
    ensures SafeGet(a, index) == None
  {
  }

  /** Appending elements never changes what an existing position gives. */
  lemma SafeGetStableUnderAppend<T>(a: seq<T>, b: seq<T>, index: int)
    requires 0 <= index < |a|
    ensures SafeGet(a + b, index) == SafeGet(a, index)
  {
  }
}
