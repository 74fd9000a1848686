/** The price-ordered maps of `to_proto`: a sorted association of keyed prices with bounded buckets. */
module PriceMaps {
  import opened Floats
  import opened Books
  import opened MergeSpec

  datatype Bucket = Bucket(key: F64, levels: seq<Level>)

  /** The buckets hold exactly the pushed levels: keys strictly in the order of the side,
      and under each key the pushed levels of that key, in the order they came. */
  ghost predicate Holds(side: Side, buckets: seq<Bucket>, pushed: seq<Level>) {
    && (forall i, j :: 0 <= i < j < |buckets| ==> Better(side, buckets[i].key, buckets[j].key))
    && (forall i :: 0 <= i < |buckets| ==>
          buckets[i].levels != [] && buckets[i].levels == AtKey(pushed, buckets[i].key))
    && (forall l :: l in pushed ==> exists i :: 0 <= i < |buckets| && buckets[i].key == Key(l.price))
  }

  lemma KeysArePrices(side: Side, buckets: seq<Bucket>, pushed: seq<Level>, i: nat)
    requires Holds(side, buckets, pushed) && i < |buckets|
    ensures !buckets[i].key.NaN?
    ensures exists l :: l in pushed && Key(l.price) == buckets[i].key
  {
    var l := buckets[i].levels[0];
    InAtKey(pushed, buckets[i].key, l);
  }

  /** Appending to a bucket that exists. */
  lemma PushExisting(side: Side, buckets: seq<Bucket>, pushed: seq<Level>, level: Level, p: nat)
    requires Holds(side, buckets, pushed) && p < |buckets| && buckets[p].key == Key(level.price)
    ensures Holds(side, buckets[p := Bucket(buckets[p].key, buckets[p].levels + [level])], pushed + [level])
  {
    var after := buckets[p := Bucket(buckets[p].key, buckets[p].levels + [level])];
    assert (pushed + [level])[..|pushed|] == pushed;
    forall i | 0 <= i < |after| ensures after[i].levels == AtKey(pushed + [level], after[i].key) {
      assert i != p ==> Better(side, buckets[i].key, buckets[p].key) || Better(side, buckets[p].key, buckets[i].key);
    }
    forall l | l in pushed + [level] ensures exists i :: 0 <= i < |after| && after[i].key == Key(l.price) {
      if l in pushed {
        var i :| 0 <= i < |buckets| && buckets[i].key == Key(l.price);
        assert after[i].key == Key(l.price);
      } else {
        assert after[p].key == Key(l.price);
      }
    }
  }

  /** No level is at a price that has no bucket. */
  lemma NoBucket(side: Side, buckets: seq<Bucket>, pushed: seq<Level>, key: F64)
    requires Holds(side, buckets, pushed)
    requires forall i :: 0 <= i < |buckets| ==> buckets[i].key != key
    ensures AtKey(pushed, key) == []
  {
    if AtKey(pushed, key) != [] {
      InAtKey(pushed, key, AtKey(pushed, key)[0]);
      assert false;
    }
  }

  lemma AtKeyPush(pushed: seq<Level>, level: Level, k: F64)
    ensures AtKey(pushed + [level], k) == AtKey(pushed, k) + if k == Key(level.price) then [level] else []
  {
  }

  lemma InsertKeepsBuckets(side: Side, buckets: seq<Bucket>, pushed: seq<Level>, level: Level, p: nat, i: nat)
    requires Holds(side, buckets, pushed) && p <= |buckets| && i <= |buckets|
    requires forall i :: 0 <= i < |buckets| ==> buckets[i].key != Key(level.price)
    ensures var after := buckets[..p] + [Bucket(Key(level.price), [level])] + buckets[p..];
      after[i].levels != [] && after[i].levels == AtKey(pushed + [level], after[i].key)
  {
    var after := buckets[..p] + [Bucket(Key(level.price), [level])] + buckets[p..];
    AtKeyPush(pushed, level, after[i].key);
    if i == p {
      NoBucket(side, buckets, pushed, Key(level.price));
    } else {
      assert after[i] == buckets[if i < p then i else i - 1];
    }
  }

  /** Inserting a bucket for a price that has none. */
  lemma PushNew(side: Side, buckets: seq<Bucket>, pushed: seq<Level>, level: Level, p: nat)
    requires Holds(side, buckets, pushed) && p <= |buckets|
    requires forall i :: 0 <= i < p ==> Better(side, buckets[i].key, Key(level.price))
    requires forall i :: p <= i < |buckets| ==> Better(side, Key(level.price), buckets[i].key)
    ensures Holds(side, buckets[..p] + [Bucket(Key(level.price), [level])] + buckets[p..], pushed + [level])
  {
    var key := Key(level.price);
    var after := buckets[..p] + [Bucket(key, [level])] + buckets[p..];
    forall i | 0 <= i < |after|
      ensures after[i].levels != [] && after[i].levels == AtKey(pushed + [level], after[i].key)
    {
      InsertKeepsBuckets(side, buckets, pushed, level, p, i);
    }
    forall l | l in pushed + [level] ensures exists i :: 0 <= i < |after| && after[i].key == Key(l.price) {
      if l in pushed {
        var i :| 0 <= i < |buckets| && buckets[i].key == Key(l.price);
        assert after[if i < p then i else i + 1] == buckets[i];
      } else {
        assert after[p].key == Key(l.price);
      }
    }
    InsertKeepsOrder(side, buckets, key, level, p);
  }

  lemma InsertKeepsOrder(side: Side, buckets: seq<Bucket>, key: F64, level: Level, p: nat)
    requires forall i, j :: 0 <= i < j < |buckets| ==> Better(side, buckets[i].key, buckets[j].key)
    requires p <= |buckets|
    requires forall i :: 0 <= i < p ==> Better(side, buckets[i].key, key)
    requires forall i :: p <= i < |buckets| ==> Better(side, key, buckets[i].key)
    ensures var after := buckets[..p] + [Bucket(key, [level])] + buckets[p..];
      forall i, j :: 0 <= i < j < |after| ==> Better(side, after[i].key, after[j].key)
  {
  }

  lemma CapacityKept(n: nat, pushed: seq<Level>, level: Level)
    requires forall k: F64 :: |AtKey(pushed, k)| <= n
    requires |AtKey(pushed, Key(level.price))| < n
    ensures forall k: F64 :: |AtKey(pushed + [level], k)| <= n
  {
  }

  /** A `BTreeMap` from keyed prices to `ArrayVec<Level, n>`. */
  class PriceMap {
    const side: Side
    const n: nat
    var buckets: seq<Bucket>
    ghost var pushed: seq<Level>

    ghost predicate Valid() reads this {
      && Holds(side, buckets, pushed)
      && forall k: F64 :: |AtKey(pushed, k)| <= n
    }

    constructor (side: Side, n: nat)
      ensures Valid() && pushed == [] && this.side == side && this.n == n
    {
      this.side, this.n := side, n;
      buckets, pushed := [], [];
    }

    /** The position of `key` in the order of the side. */
    method Locate(key: F64) returns (p: nat)
      requires Valid() && !key.NaN?
      ensures p <= |buckets|
      ensures forall i :: 0 <= i < p ==> Better(side, buckets[i].key, key)
      ensures forall i :: p <= i < |buckets| ==> buckets[i].key == key || Better(side, key, buckets[i].key)
    {
      p := 0;
      while p < |buckets| && Better(side, buckets[p].key, key)
        invariant p <= |buckets|
        invariant forall i :: 0 <= i < p ==> Better(side, buckets[i].key, key)
      {
        p := p + 1;
      }
      if p < |buckets| {
        KeysArePrices(side, buckets, pushed, p);
        assert forall i :: p < i < |buckets| ==> Better(side, buckets[p].key, buckets[i].key);
      }
    }

    /** `entry(key).or_default().push(level)`; not ok is the panic of a full bucket. */
    method Push(level: Level) returns (ok: bool)
      requires Valid()
      modifies this
      ensures ok <==> |AtKey(old(pushed), Key(level.price))| < n
      ensures ok ==> Valid() && pushed == old(pushed) + [level]
    {
      var key := Key(level.price);
      var p := Locate(key);
      if p < |buckets| && buckets[p].key == key {
        ok := |buckets[p].levels| < n;
        if !ok { return; }
        PushExisting(side, buckets, pushed, level, p);
        CapacityKept(n, pushed, level);
        buckets := buckets[p := Bucket(buckets[p].key, buckets[p].levels + [level])];
      } else {
        NoBucket(side, buckets, pushed, key);
        ok := 0 < n;
        if !ok { return; }
        PushNew(side, buckets, pushed, level, p);
        CapacityKept(n, pushed, level);
        buckets := buckets[..p] + [Bucket(key, [level])] + buckets[p..];
      }
      pushed := pushed + [level];
    }
  }
}
