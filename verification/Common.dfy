/** Definitions that several parts share. */
module Common {

  datatype Option<+T> = None | Some(value: T)

  const MAX_UINT64: int := 0xffff_ffff_ffff_ffff

  type Uint64 = x: int | 0 <= x <= MAX_UINT64

  /** A failed check is None. */
  function CheckedAdd(a: Uint64, b: Uint64): (r: Option<Uint64>)
    ensures r == if a + b <= MAX_UINT64 then Some(a + b) else None
  {
    if a > MAX_UINT64 - b then None else Some(a + b)
  }

  predicate NoDuplicates<T(==)>(s: seq<T>) {
    forall i, j :: 0 <= i < j < |s| ==> s[i] != s[j]
  }
}
