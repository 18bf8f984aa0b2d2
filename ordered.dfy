/**
 * A Python dict keeps its keys in insertion order: assigning to a present
 * key keeps its place, a new key goes last, `pop` takes a key out. The
 * model keeps each dict as a `map` beside a sequence of its keys in that
 * order.
 */
module Ordered {

  predicate NoDup(s: seq<string>)
  {
    forall i, j :: 0 <= i < j < |s| ==> s[i] != s[j]
  }

  /** `order` lists the keys of `m`, each once. */
  predicate OrderOf<V>(order: seq<string>, m: map<string, V>)
  {
    NoDup(order) && (forall k :: k in order ==> k in m) && (forall k :: k in m ==> k in order)
  }

  /** The key order after `m[k] = v`. */
  function Put(order: seq<string>, k: string): (r: seq<string>)
    ensures forall x :: x in r <==> x in order || x == k
    ensures NoDup(order) ==> NoDup(r)
    ensures k in order ==> r == order
  {
    if k in order then order else order + [k]
  }

  /** A new key goes after every key already present. */
  lemma PutAppends(order: seq<string>, k: string)
    requires k !in order
    ensures Put(order, k) == order + [k]
    ensures Put(order, k)[|order|] == k && Put(order, k)[..|order|] == order
  {
  }

  /** The key order after `m.pop(k, None)`: `k` is gone, the rest keep their order. */
  function Drop(order: seq<string>, k: string): (r: seq<string>)
    ensures forall x :: x in r <==> x in order && x != k
    ensures NoDup(order) ==> NoDup(r)
    ensures k !in order ==> r == order
    ensures |r| <= |order|
  {
    if order == [] then []
    else
      var rest := Drop(order[1..], k);
      assert NoDup(order) ==> NoDup(order[1..]) && order[0] !in rest;
      (if order[0] == k then [] else [order[0]]) + rest
  }

  /** Dropping the key at place `i` of a duplicate-free order closes the gap and keeps the rest in order. */
  lemma {:induction false} DropAt(order: seq<string>, k: string, i: nat)
    requires NoDup(order) && i < |order| && order[i] == k
    ensures Drop(order, k) == order[..i] + order[i + 1..]
  {
    if i == 0 {
      assert k !in order[1..];
    } else {
      assert NoDup(order[1..]);
      DropAt(order[1..], k, i - 1);
      assert order[1..][..i - 1] + order[1..][i..] == order[1..i] + order[i + 1..];
      assert order[..i] == [order[0]] + order[1..i];
    }
  }

  lemma PutOrder<V>(order: seq<string>, m: map<string, V>, k: string, v: V)
    requires OrderOf(order, m)
    ensures OrderOf(Put(order, k), m[k := v])
  {
  }

  lemma DropOrder<V>(order: seq<string>, m: map<string, V>, k: string)
    requires OrderOf(order, m)
    ensures OrderOf(Drop(order, k), m - {k})
  {
  }

  /** An order stays the order of a dict whose keys stay the same. */
  lemma OrderOfSameKeys<V>(order: seq<string>, m: map<string, V>, m': map<string, V>)
    requires OrderOf(order, m) && m.Keys == m'.Keys
    ensures OrderOf(order, m')
  {
    assert forall k :: k in m <==> k in m';
  }

  /** An element of a sequence without duplicates does not occur before its own place. */
  lemma NoDupNotInPrefix(s: seq<string>, i: nat)
    requires NoDup(s) && i < |s|
    ensures s[i] !in s[..i]
  {
  }

  /** Joining two duplicate-free sequences with no element in common gives a duplicate-free sequence. */
  lemma NoDupConcat(a: seq<string>, b: seq<string>)
    requires NoDup(a) && NoDup(b)
    requires forall x :: x in a ==> x !in b
    ensures NoDup(a + b)
  {
    var c := a + b;
    forall i, j | 0 <= i < j < |c| ensures c[i] != c[j] {
      if i < |a| && j >= |a| {
        assert c[i] in a && c[j] == b[j - |a|];
      } else if i >= |a| {
        assert c[i] == b[i - |a|] && c[j] == b[j - |a|];
      }
    }
  }
}
