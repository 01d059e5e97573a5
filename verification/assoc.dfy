/** Python dictionaries as association lists.

    A `dict` iterates its keys in first-insertion order, and assigning to a key
    that is already present changes its value without moving it.  An
    association list built only through `Put` has exactly that behaviour. */
module Assoc {
  import opened Wrappers
  import Seqs

  type Dict<K, V> = seq<(K, V)>

  /** The keys in iteration order. */
  function Keys<K, V>(m: Dict<K, V>): (r: seq<K>)
    ensures |r| == |m|
    ensures forall i :: 0 <= i < |m| ==> r[i] == m[i].0
  {
    if |m| == 0 then [] else [m[0].0] + Keys(m[1..])
  }

  /** `m.get(k)`: the value of the first entry with key `k`. */
  function Lookup<K(==), V>(m: Dict<K, V>, k: K): Option<V> {
    if |m| == 0 then None
    else if m[0].0 == k then Some(m[0].1)
    else Lookup(m[1..], k)
  }

  /** Lookup finds a value exactly for the keys the dict holds. */
  lemma {:induction false} LookupFindsKeys<K, V>(m: Dict<K, V>, k: K)
    ensures Lookup(m, k).Some? <==> k in Keys(m)
    decreases |m|
  {
    if |m| > 0 {
      assert Keys(m) == [m[0].0] + Keys(m[1..]);
      LookupFindsKeys(m[1..], k);
    }
  }

  /** `m[k] = v`: an existing key keeps its position and takes the new value;
      a new key is appended. */
  function Put<K(==), V>(m: Dict<K, V>, k: K, v: V): (r: Dict<K, V>)
    ensures Lookup(r, k) == Some(v)
  {
    if |m| == 0 then [(k, v)]
    else if m[0].0 == k then [(k, v)] + m[1..]
    else [m[0]] + Put(m[1..], k, v)
  }

  /** Assignment moves no key: the key order changes only by appending a new key. */
  lemma {:induction false} PutKeys<K, V>(m: Dict<K, V>, k: K, v: V)
    ensures Keys(Put(m, k, v)) == if k in Keys(m) then Keys(m) else Keys(m) + [k]
    decreases |m|
  {
    if |m| == 0 {
    } else if m[0].0 == k {
      assert Keys(Put(m, k, v)) == Keys(m);
    } else {
      var rest := Put(m[1..], k, v);
      PutKeys(m[1..], k, v);
      assert Keys(m) == [m[0].0] + Keys(m[1..]);
      assert Put(m, k, v) == [m[0]] + rest;
      assert Keys(Put(m, k, v)) == [m[0].0] + Keys(rest);
      assert k in Keys(m) <==> k in Keys(m[1..]);
    }
  }

  /** Assigning to `k` leaves every other key's value alone. */
  lemma {:induction false} PutOther<K, V>(m: Dict<K, V>, k: K, v: V, k': K)
    requires k' != k
    ensures Lookup(Put(m, k, v), k') == Lookup(m, k')
    decreases |m|
  {
    if |m| > 0 && m[0].0 != k {
      assert Put(m, k, v)[1..] == Put(m[1..], k, v);
      if m[0].0 != k' {
        PutOther(m[1..], k, v, k');
      }
    }
  }

  /** Lookup after an assignment, for every key at once. */
  lemma PutLookup<K, V>(m: Dict<K, V>, k: K, v: V)
    ensures forall k' :: Lookup(Put(m, k, v), k') == if k' == k then Some(v) else Lookup(m, k')
  {
    forall k' | k' != k
      ensures Lookup(Put(m, k, v), k') == Lookup(m, k')
    {
      PutOther(m, k, v, k');
    }
  }

  /** In a dict whose keys are distinct, every entry is what lookup of its key finds. */
  lemma {:induction false} LookupEntry<K, V>(m: Dict<K, V>, i: nat)
    requires Seqs.NoDuplicates(Keys(m))
    requires i < |m|
    ensures Lookup(m, m[i].0) == Some(m[i].1)
    decreases |m|
  {
    if i > 0 {
      var ks := Keys(m);
      assert ks[0] == m[0].0 && ks[i] == m[i].0;
      assert Keys(m[1..]) == ks[1..];
      LookupEntry(m[1..], i - 1);
    }
  }

  /** The dict produced by assigning the pairs of `ps` one after another, as in
      `{k: v for (k, v) in ps}` or a loop of `d[k] = v`. */
  function FromPairs<K(==), V>(ps: seq<(K, V)>): Dict<K, V> {
    if |ps| == 0 then []
    else Put(FromPairs(ps[..|ps| - 1]), ps[|ps| - 1].0, ps[|ps| - 1].1)
  }

  /** Keys come out once each, in order of first assignment. */
  lemma {:induction false} FromPairsKeys<K, V>(ps: seq<(K, V)>)
    ensures Keys(FromPairs(ps)) == Seqs.Distinct(Keys(ps))
    decreases |ps|
  {
    if |ps| > 0 {
      var init := ps[..|ps| - 1];
      FromPairsKeys(init);
      PutKeys(FromPairs(init), ps[|ps| - 1].0, ps[|ps| - 1].1);
      assert Keys(ps)[..|ps| - 1] == Keys(init);
    }
  }

  /** A key never assigned is absent. */
  lemma {:induction false} FromPairsAbsent<K, V>(ps: seq<(K, V)>, k: K)
    requires k !in Keys(ps)
    ensures Lookup(FromPairs(ps), k) == None
    decreases |ps|
  {
    if |ps| > 0 {
      var n := |ps| - 1;
      var init := ps[..n];
      assert Keys(ps)[n] == ps[n].0;
      assert Keys(ps)[..n] == Keys(init);
      FromPairsAbsent(init, k);
      PutOther(FromPairs(init), ps[n].0, ps[n].1, k);
    }
  }

  /** Each key holds the value of its last assignment. */
  lemma {:induction false} FromPairsLookup<K, V>(ps: seq<(K, V)>, k: K)
    requires k in Keys(ps)
    ensures Lookup(FromPairs(ps), k) == Some(ps[Seqs.LastIndex(Keys(ps), k)].1)
    decreases |ps|
  {
    var n := |ps| - 1;
    var init := ps[..n];
    var ks := Keys(ps);
    assert ks[n] == ps[n].0;
    if ps[n].0 != k {
      assert ks[..n] == Keys(init);
      assert ks == Keys(init) + [ps[n].0];
      assert k in Keys(init);
      FromPairsLookup(init, k);
      PutOther(FromPairs(init), ps[n].0, ps[n].1, k);
      assert Seqs.LastIndex(ks, k) == Seqs.LastIndex(Keys(init), k);
    }
  }

  /** Every key of a dict built by `FromPairs` occurs once. */
  lemma FromPairsDistinctKeys<K, V>(ps: seq<(K, V)>)
    ensures Seqs.NoDuplicates(Keys(FromPairs(ps)))
  {
    FromPairsKeys(ps);
  }

  /** The number of list elements held by a dict of lists. */
  function TotalLength<K, V>(m: Dict<K, seq<V>>): nat {
    if |m| == 0 then 0 else |m[0].1| + TotalLength(m[1..])
  }

  /** Assigning a list to `k` replaces the length of the list found there. */
  lemma {:induction false} PutTotalLength<K, V>(m: Dict<K, seq<V>>, k: K, v: seq<V>)
    ensures TotalLength(Put(m, k, v)) + |Lookup(m, k).GetOr([])| == TotalLength(m) + |v|
    decreases |m|
  {
    if |m| > 0 && m[0].0 != k {
      var r := Put(m, k, v);
      assert r == [m[0]] + Put(m[1..], k, v);
      assert r[1..] == Put(m[1..], k, v);
      PutTotalLength(m[1..], k, v);
    } else if |m| > 0 {
      assert Put(m, k, v)[1..] == m[1..];
    }
  }
}
