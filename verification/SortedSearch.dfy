/** Binary search over composite keys, as slices provide it: a hit, or the place to insert. */
module SortedSearch {

  type Key = (nat, nat)

  datatype Hit = Found(at: nat) | Missing(at: nat)

  predicate Less(a: Key, b: Key) {
    a.0 < b.0 || (a.0 == b.0 && a.1 < b.1)
  }

  predicate Ascending(keys: seq<Key>) {
    forall i, j :: 0 <= i < j < |keys| ==> !Less(keys[j], keys[i])
  }

  function Search(keys: seq<Key>, key: Key): (r: Hit)
    ensures r.Found? ==> r.at < |keys| && keys[r.at] == key
    ensures r.Missing? ==> r.at <= |keys|
    ensures Ascending(keys) && r.Missing? ==>
              && (forall j :: 0 <= j < r.at ==> Less(keys[j], key))
              && (forall j :: r.at <= j < |keys| ==> Less(key, keys[j]))
  {
    SearchIn(keys, key, 0, |keys|)
  }

  function SearchIn(keys: seq<Key>, key: Key, lo: nat, hi: nat): (r: Hit)
    requires lo <= hi <= |keys|
    requires Ascending(keys) ==> forall j :: 0 <= j < lo ==> Less(keys[j], key)
    requires Ascending(keys) ==> forall j :: hi <= j < |keys| ==> Less(key, keys[j])
    ensures r.Found? ==> r.at < |keys| && keys[r.at] == key
    ensures r.Missing? ==> r.at <= |keys|
    ensures Ascending(keys) && r.Missing? ==>
              && (forall j :: 0 <= j < r.at ==> Less(keys[j], key))
              && (forall j :: r.at <= j < |keys| ==> Less(key, keys[j]))
    decreases hi - lo
  {
    if lo == hi then Missing(lo) else
      var mid := (lo + hi) / 2;
      if keys[mid] == key then Found(mid)
      else if Less(keys[mid], key) then SearchIn(keys, key, mid + 1, hi)
      else SearchIn(keys, key, lo, mid)
  }
}
