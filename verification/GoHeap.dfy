/** Go's reference cells: a map is a reference to shared, mutable contents, and a pointer
    refers to a shared, mutable value. Either may be nil. */
module GoHeap {
  import opened Wrappers

  class GoMap {
    var m: map<string, string>

    constructor ()
      ensures m == map[]
    {
      m := map[];
    }
  }

  class Ref<T> {
    var v: T

    constructor (v: T)
      ensures this.v == v
    {
      this.v := v;
    }
  }

  /** What a caller can see in a map that may be nil. */
  function MapView(p: GoMap?): Option<map<string, string>>
    reads p
  {
    if p == null then None else Some(p.m)
  }

  /** `for k, v := range src { dst[k] = v }`. Go fixes no order for the keys, so each round
      takes an arbitrary one. Ranging over a nil map does nothing, and the two may be one map. */
  method RangeInto(dst: GoMap, src: GoMap?)
    modifies dst
    ensures dst.m == old(dst.m) + old(MapView(src)).GetOr(map[])
  {
    if src == null {
      return;
    }
    ghost var shown := src.m;
    var todo := src.m.Keys;
    while todo != {}
      invariant todo <= shown.Keys && src.m == shown
      invariant dst.m == old(dst.m) + (map k | k in shown.Keys - todo :: shown[k])
      decreases todo
    {
      var k :| k in todo;
      dst.m := dst.m[k := src.m[k]];
      todo := todo - {k};
    }
  }
}
