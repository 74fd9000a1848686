/** Cutting every source to `n` levels before the merge loses nothing. */
module Truncation {
  import opened Floats
  import opened Books
  import opened MergeSpec
  import opened Buckets
  import opened Reference

  function Take<T>(n: nat, s: seq<T>): seq<T> {
    if |s| <= n then s else s[..n]
  }

  /** A book side as an exchange sends it: strictly sorted, best price first. */
  ghost predicate StrictBook(side: Side, book: seq<Level>) {
    forall i, j :: 0 <= i < j < |book| ==> Better(side, Key(book[i].price), Key(book[j].price))
  }

  /** Behind position `n` of a strict book there are `n` better prices. */
  lemma DeepHasBetter(side: Side, n: nat, book: seq<Level>, all: seq<Level>, j: nat, k: F64)
    requires StrictBook(side, book) && n <= j < |book| && !k.NaN?
    requires k == Key(book[j].price) || Better(side, Key(book[j].price), k)
    requires forall i :: 0 <= i < n ==> book[i] in all
    ensures |BetterKeys(side, all, k)| >= n
  {
    var keys := seq(n, i requires 0 <= i < n => Key(book[i].price));
    forall i, i' | 0 <= i < i' < n ensures keys[i] != keys[i'] {
      assert Better(side, Key(book[i].price), Key(book[i'].price));
    }
    DistinctCount(keys);
    var firsts := set x | x in keys;
    forall x | x in firsts ensures x in BetterKeys(side, all, k) {
      var i :| 0 <= i < n && keys[i] == x;
      assert Better(side, Key(book[i].price), Key(book[j].price));
      assert book[i] in all;
    }
    SubsetSize(firsts, BetterKeys(side, all, k));
  }

  /** Nothing behind position `n` of a source can be kept. */
  lemma DeepNotKept(side: Side, n: nat, book: seq<Level>, all: seq<Level>, l: Level)
    requires StrictBook(side, book) && |book| > n && l in book[n..]
    requires forall i :: 0 <= i < n ==> book[i] in all
    ensures !Kept(side, n, all, l)
  {
    var i :| 0 <= i < |book[n..]| && book[n..][i] == l;
    DeepHasBetter(side, n, book, all, n + i, Key(l.price));
  }

  /** A price kept among the truncated books is kept among the full ones. */
  lemma KeptInFull(side: Side, n: nat, f0: seq<Level>, f1: seq<Level>, l: Level)
    requires StrictBook(side, f0) && StrictBook(side, f1)
    requires Kept(side, n, Take(n, f0) + Take(n, f1), l)
    ensures Kept(side, n, f0 + f1, l)
  {
    var t, f, k := Take(n, f0) + Take(n, f1), f0 + f1, Key(l.price);
    forall x | x in BetterKeys(side, f, k) ensures x in BetterKeys(side, t, k) {
      var y :| y in f && Key(y.price) == x && Better(side, x, k);
      if y !in t {
        if y in f0 {
          BetterIsShallow(side, n, f0, t, y, k);
        } else {
          BetterIsShallow(side, n, f1, t, y, k);
        }
      }
    }
    SubsetSize(BetterKeys(side, f, k), BetterKeys(side, t, k));
  }

  lemma BetterIsShallow(side: Side, n: nat, book: seq<Level>, t: seq<Level>, y: Level, k: F64)
    requires StrictBook(side, book) && y in book && Better(side, Key(y.price), k)
    requires |BetterKeys(side, t, k)| < n
    requires forall x :: x in Take(n, book) ==> x in t
    ensures y in t
  {
    var j :| 0 <= j < |book| && book[j] == y;
    if j < n {
      assert Take(n, book)[j] == y;
    } else {
      forall i | 0 <= i < n ensures book[i] in t {
        assert Take(n, book)[i] == book[i];
      }
      DeepHasBetter(side, n, book, t, j, k);
    }
  }

  lemma KeptInTruncated(side: Side, n: nat, t: seq<Level>, f: seq<Level>, l: Level)
    requires forall x :: x in t ==> x in f
    requires Kept(side, n, f, l)
    ensures Kept(side, n, t, l)
  {
    SubsetSize(BetterKeys(side, t, Key(l.price)), BetterKeys(side, f, Key(l.price)));
  }

  lemma SameCount(side: Side, n: nat, f0: seq<Level>, f1: seq<Level>, l: Level)
    requires StrictBook(side, f0) && StrictBook(side, f1)
    requires Kept(side, n, Take(n, f0) + Take(n, f1), l)
    ensures multiset(f0 + f1)[l] == multiset(Take(n, f0) + Take(n, f1))[l]
  {
    var t := Take(n, f0) + Take(n, f1);
    NotBehind(side, n, f0, t, l);
    NotBehind(side, n, f1, t, l);
  }

  lemma NotBehind(side: Side, n: nat, book: seq<Level>, t: seq<Level>, l: Level)
    requires StrictBook(side, book) && Kept(side, n, t, l)
    requires forall x :: x in Take(n, book) ==> x in t
    ensures multiset(book)[l] == multiset(Take(n, book))[l]
  {
    if |book| > n {
      assert book == book[..n] + book[n..];
      if l in multiset(book[n..]) {
        forall i | 0 <= i < n ensures book[i] in t {
          assert Take(n, book)[i] == book[i];
        }
        DeepNotKept(side, n, book, t, l);
      }
    }
  }

  /** Merging the truncated books is merging the full books. */
  lemma TruncationLossless(side: Side, n: nat, f0: seq<Level>, f1: seq<Level>, out: seq<Level>)
    requires StrictBook(side, f0) && StrictBook(side, f1)
    ensures IsMerge(side, n, Take(n, f0) + Take(n, f1), out) <==> IsMerge(side, n, f0 + f1, out)
  {
    var t, f := Take(n, f0) + Take(n, f1), f0 + f1;
    forall l: Level
      ensures Kept(side, n, t, l) <==> Kept(side, n, f, l)
      ensures Kept(side, n, t, l) ==> multiset(t)[l] == multiset(f)[l]
    {
      if Kept(side, n, t, l) {
        KeptInFull(side, n, f0, f1, l);
        SameCount(side, n, f0, f1, l);
      }
      if Kept(side, n, f, l) {
        KeptInTruncated(side, n, t, f, l);
      }
    }
  }
}
