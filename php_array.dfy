/** PHP arrays with integer keys, as the pool uses them: entries in
    insertion order, each key at most once. */
module PhpArray {
  import opened Wrappers

  datatype Entry<V> = Entry(key: int, value: V)

  predicate UniqueKeys<V>(a: seq<Entry<V>>) {
    forall i, j :: 0 <= i < j < |a| ==> a[i].key != a[j].key
  }

  /** The position of key `k`, if it is present. */
  function Find<V>(a: seq<Entry<V>>, k: int): (r: Option<nat>)
    ensures r.Some? ==> r.value < |a| && a[r.value].key == k
    ensures r.Some? ==> forall i :: 0 <= i < r.value ==> a[i].key != k
    ensures r.None? ==> forall i :: 0 <= i < |a| ==> a[i].key != k
  {
    if a == [] then None
    else if a[0].key == k then Some(0)
    else
      match Find(a[1..], k)
      case None => None
      case Some(i) => Some(i + 1)
  }

  /** `$a[$k] ?? null`. */
  function Get<V>(a: seq<Entry<V>>, k: int): (r: Option<V>)
    ensures r.Some? <==> exists i :: 0 <= i < |a| && a[i].key == k
    ensures r.Some? ==> Entry(k, r.value) in a
  {
    match Find(a, k)
    case None => None
    case Some(i) => Some(a[i].value)
  }

  /** `$a[$k] = $v`: an existing key keeps its place and takes the new
      value; a new key goes at the end. */
  function Put<V>(a: seq<Entry<V>>, k: int, v: V): (r: seq<Entry<V>>)
    ensures Find(a, k).Some? ==> r == a[Find(a, k).value := Entry(k, v)]
    ensures Find(a, k).None? ==> r == a + [Entry(k, v)]
    ensures Entry(k, v) in r
    ensures |r| <= |a| + 1
    ensures forall e :: e in r ==> e in a || e == Entry(k, v)
    ensures UniqueKeys(a) ==> UniqueKeys(r)
  {
    match Find(a, k)
    case None => a + [Entry(k, v)]
    case Some(i) =>
      var r := a[i := Entry(k, v)];
      assert r[i] == Entry(k, v);
      r
  }

  /** `unset($a[$k])`: the other entries keep their order. */
  function Remove<V>(a: seq<Entry<V>>, k: int): (r: seq<Entry<V>>)
    ensures forall i :: 0 <= i < |r| ==> r[i].key != k
    ensures forall e :: e in r ==> e in a && e.key != k
    ensures forall e :: e in a && e.key != k ==> e in r
    ensures UniqueKeys(a) ==> UniqueKeys(r)
    ensures UniqueKeys(a) ==> |r| == |a| - (if Find(a, k).Some? then 1 else 0)
  {
    if a == [] then []
    else if a[0].key == k then
      var rest := Remove(a[1..], k);
      assert forall e :: e in a ==> e == a[0] || e in a[1..];
      rest
    else
      var rest := Remove(a[1..], k);
      assert forall e :: e in a ==> e == a[0] || e in a[1..];
      assert UniqueKeys(a) ==> forall e :: e in rest ==> e.key != a[0].key by {
        if UniqueKeys(a) {
          forall e | e in rest ensures e.key != a[0].key {
            var j :| 0 <= j < |a[1..]| && a[1..][j] == e;
            assert a[j + 1] == e;
          }
        }
      }
      [a[0]] + rest
  }

  /** The values in order, as `foreach` visits them. */
  function Values<V>(a: seq<Entry<V>>): (vs: seq<V>)
    ensures |vs| == |a|
    ensures forall i :: 0 <= i < |a| ==> vs[i] == a[i].value
  {
    seq(|a|, i requires 0 <= i < |a| => a[i].value)
  }
}
