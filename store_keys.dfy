/**
 * The key list kept beside an id -> record store: the ids in the order the
 * records were inserted, which is the order in which an unordered
 * repository query lists them in this model.
 */
module StoreKeys {

  /** No id occurs twice. */
  predicate Unique(ids: seq<int>) {
    forall i, j | 0 <= i < j < |ids| :: ids[i] != ids[j]
  }

  /** The list of ids with `x` taken out. */
  function Remove(ids: seq<int>, x: int): (r: seq<int>)
    ensures forall y :: y in r <==> y in ids && y != x
    ensures Unique(ids) ==> Unique(r)
    ensures |r| <= |ids|
  {
    if ids == [] then []
    else
      var rest := Remove(ids[1..], x);
      if ids[0] == x then rest
      else
        assert Unique(ids) ==> ids[0] !in ids[1..];
        [ids[0]] + rest
  }

  /** The records of `m` under `ids`, in that order. */
  function Listing<V>(m: map<int, V>, ids: seq<int>): (r: seq<V>)
    requires forall i | 0 <= i < |ids| :: ids[i] in m
    ensures |r| == |ids|
    ensures forall i | 0 <= i < |ids| :: r[i] == m[ids[i]]
  {
    if ids == [] then [] else [m[ids[0]]] + Listing(m, ids[1..])
  }

  /** When the ids are exactly the keys, the listing holds every stored record and nothing else. */
  lemma {:induction false} ListingIsContents<V>(m: map<int, V>, ids: seq<int>)
    requires forall i | 0 <= i < |ids| :: ids[i] in m
    requires forall k | k in m :: k in ids
    ensures forall k | k in m :: m[k] in Listing(m, ids)
    ensures forall v | v in Listing(m, ids) :: v in m.Values
  {
    var r := Listing(m, ids);
    forall k | k in m
      ensures m[k] in r
    {
      assert k in ids;
      var i :| 0 <= i < |ids| && ids[i] == k;
      assert r[i] == m[k];
    }
    forall v | v in r
      ensures v in m.Values
    {
      var i :| 0 <= i < |r| && r[i] == v;
      assert ids[i] in ids;
    }
  }
}
