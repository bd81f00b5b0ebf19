/** Small vocabulary shared by every module. */
module Common {

  datatype Option<+T> = None | Some(value: T)

  /** Entry ids, call ids and tool names are opaque: only equality and emptiness matter.
      Zero stands for the empty string. */
  type Id = nat

  const EMPTY: Id := 0

  const U64_MAX: nat := 0xFFFF_FFFF_FFFF_FFFF

  function Min(a: int, b: int): int {
    if a < b then a else b
  }

  function Max(a: int, b: int): int {
    if a < b then b else a
  }

  ghost predicate NoDup<T>(s: seq<T>) {
    forall i, j :: 0 <= i < j < |s| ==> s[i] != s[j]
  }

  lemma NoDupSnoc<T>(s: seq<T>, x: T)
    requires NoDup(s) && x !in s
    ensures NoDup(s + [x])
  {
  }
}
