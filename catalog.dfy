/** `Array.prototype.find` over the game's JSON catalogs and save records:
    the first element whose key equals the one asked for. */
module Catalog {
  import opened Wrappers

  /** Index of the first element of `s` whose `key` is `k`, or None when
      there is none. */
  function FirstMatch<T, K(==)>(s: seq<T>, key: T -> K, k: K): (r: Option<nat>)
    ensures r.Some? ==> r.value < |s| && key(s[r.value]) == k
    ensures r.Some? ==> forall j :: 0 <= j < r.value ==> key(s[j]) != k
    ensures r.None? <==> forall j :: 0 <= j < |s| ==> key(s[j]) != k
    decreases |s|
  {
    if |s| == 0 then None
    else if key(s[0]) == k then Some(0)
    else
      match FirstMatch(s[1..], key, k)
      case None => None
      case Some(i) => Some(i + 1)
  }

  /** An index holding the key, with no earlier one holding it, is the one
      `find` stops at. */
  lemma FirstMatchAt<T, K>(s: seq<T>, key: T -> K, k: K, i: nat)
    requires i < |s| && key(s[i]) == k
    requires forall j :: 0 <= j < i ==> key(s[j]) != k
    ensures FirstMatch(s, key, k) == Some(i)
  {
  }

  /** The element `find` returns: the first match, if any. */
  function Find<T, K(==)>(s: seq<T>, key: T -> K, k: K): (r: Option<T>)
    ensures r.None? <==> forall j :: 0 <= j < |s| ==> key(s[j]) != k
    ensures r.Some? ==> r.value in s && key(r.value) == k
  {
    match FirstMatch(s, key, k)
    case None => None
    case Some(i) => Some(s[i])
  }
}
