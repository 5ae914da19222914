/** Maps listed in the order of their keys, as an ordered map is iterated. */
module SortedMaps {

  datatype Entry<K, V> = Entry(key: K, value: V)

  ghost predicate Injective<K(!new)>(rank: K -> nat) {
    forall a, b :: rank(a) == rank(b) ==> a == b
  }

  lemma {:induction false} LeastExists<K>(keys: set<K>, rank: K -> nat)
    requires keys != {}
    ensures exists k :: k in keys && forall x :: x in keys ==> rank(k) <= rank(x)
  {
    var k :| k in keys;
    var rest := keys - {k};
    if rest == {} {
      forall x | x in keys ensures rank(k) <= rank(x) {
        assert x == k || x in rest;
      }
    } else {
      LeastExists(rest, rank);
      var m :| m in rest && forall x :: x in rest ==> rank(m) <= rank(x);
      var least := if rank(k) <= rank(m) then k else m;
      assert forall x :: x in keys ==> x == k || x in rest;
      assert least in keys && forall x :: x in keys ==> rank(least) <= rank(x);
    }
  }

  function Least<K(!new, ==)>(keys: set<K>, rank: K -> nat): (k: K)
    requires keys != {} && Injective(rank)
    ensures k in keys && forall x :: x in keys ==> rank(k) <= rank(x)
  {
    LeastExists(keys, rank);
    LeastIsUnique(keys, rank);
    var k :| k in keys && IsLeast(keys, rank, k);
    k
  }

  predicate IsLeast<K(==)>(keys: set<K>, rank: K -> nat, k: K) {
    k in keys && forall x :: x in keys ==> rank(k) <= rank(x)
  }

  lemma LeastIsUnique<K(!new)>(keys: set<K>, rank: K -> nat)
    requires Injective(rank)
    ensures forall a, b :: IsLeast(keys, rank, a) && IsLeast(keys, rank, b) ==> a == b
  {
  }

  /** The entries of a map in the order of their keys. */
  function Listing<K(!new, ==), V>(m: map<K, V>, rank: K -> nat): seq<Entry<K, V>>
    requires Injective(rank)
    decreases |m|
  {
    if |m| == 0 then []
    else
      var k := Least(m.Keys, rank);
      Fewer(m, k);
      [Entry(k, m[k])] + Listing(m - {k}, rank)
  }

  lemma Fewer<K, V>(m: map<K, V>, k: K)
    requires k in m
    ensures |m - {k}| == |m| - 1
  {
  }

  ghost predicate Ranked<K, V>(entries: seq<Entry<K, V>>, rank: K -> nat) {
    forall i, j :: 0 <= i < j < |entries| ==> rank(entries[i].key) < rank(entries[j].key)
  }

  ghost predicate Lists<K, V>(entries: seq<Entry<K, V>>, m: map<K, V>) {
    && (forall e :: e in entries ==> e.key in m && m[e.key] == e.value)
    && (forall k :: k in m ==> Entry(k, m[k]) in entries)
  }

  lemma {:induction false} ListingIs<K(!new), V>(m: map<K, V>, rank: K -> nat)
    requires Injective(rank)
    ensures |Listing(m, rank)| == |m| && Ranked(Listing(m, rank), rank) && Lists(Listing(m, rank), m)
    decreases |m|
  {
    if m != map[] {
      hide Ranked, Lists;
      var k := Least(m.Keys, rank);
      Fewer(m, k);
      ListingIs(m - {k}, rank);
      LeastIsStrict(m, k, rank);
      FirstInListing(Entry(k, m[k]), Listing(m - {k}, rank), m - {k}, rank);
    }
  }

  lemma LeastIsStrict<K(!new), V>(m: map<K, V>, k: K, rank: K -> nat)
    requires Injective(rank) && k in m && forall x :: x in m ==> rank(k) <= rank(x)
    ensures forall x :: x in m - {k} ==> rank(k) < rank(x)
    ensures (m - {k})[k := m[k]] == m
  {
  }

  lemma FirstInListing<K(!new), V>(e: Entry<K, V>, others: seq<Entry<K, V>>, m: map<K, V>, rank: K -> nat)
    requires Ranked(others, rank) && Lists(others, m) && e.key !in m
    requires forall k :: k in m ==> rank(e.key) < rank(k)
    ensures Ranked([e] + others, rank) && Lists([e] + others, m[e.key := e.value])
  {
  }

  function KeysOf<K, V>(entries: seq<Entry<K, V>>): (keys: seq<K>)
    ensures |keys| == |entries|
  {
    if entries == [] then [] else KeysOf(entries[..|entries| - 1]) + [entries[|entries| - 1].key]
  }

  predicate DistinctKeys<K(==), V>(entries: seq<Entry<K, V>>) {
    forall i, j :: 0 <= i < j < |entries| ==> entries[i].key != entries[j].key
  }

  /** Inserting the entries one by one. */
  function MapOf<K, V>(entries: seq<Entry<K, V>>): map<K, V> {
    if entries == [] then map[]
    else
      var last := entries[|entries| - 1];
      MapOf(entries[..|entries| - 1])[last.key := last.value]
  }

  lemma {:induction false} KeyAt<K, V>(entries: seq<Entry<K, V>>, i: nat)
    requires i < |entries|
    ensures KeysOf(entries)[i] == entries[i].key
  {
    if i < |entries| - 1 {
      KeyAt(entries[..|entries| - 1], i);
    }
  }

  lemma {:induction false} MapOfIs<K, V>(entries: seq<Entry<K, V>>, m: map<K, V>)
    requires DistinctKeys(entries) && Lists(entries, m)
    ensures MapOf(entries) == m
  {
    if entries == [] {
      assert m == map[];
    } else {
      var n := |entries| - 1;
      var front, last := entries[..n], entries[n];
      LastLeaves(entries, m);
      hide DistinctKeys, Lists;
      MapOfIs(front, m - {last.key});
      assert (m - {last.key})[last.key := last.value] == m;
    }
  }

  lemma LastLeaves<K, V>(entries: seq<Entry<K, V>>, m: map<K, V>)
    requires DistinctKeys(entries) && Lists(entries, m) && entries != []
    ensures DistinctKeys(entries[..|entries| - 1]) && Lists(entries[..|entries| - 1], m - {entries[|entries| - 1].key})
    ensures entries[|entries| - 1].key in m && m[entries[|entries| - 1].key] == entries[|entries| - 1].value
  {
  }

  /** A map is rebuilt from its listing. */
  lemma ListingRebuilds<K(!new), V>(m: map<K, V>, rank: K -> nat)
    requires Injective(rank)
    ensures DistinctKeys(Listing(m, rank)) && MapOf(Listing(m, rank)) == m
  {
    ListingIs(m, rank);
    MapOfIs(Listing(m, rank), m);
  }
}
