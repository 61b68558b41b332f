/** Lexicographic keys, and sequences strictly sorted by them. */
module Ordering {
  datatype Key = Key(first: int, second: int, third: int, fourth: int) {
    predicate Less(other: Key) {
      || first < other.first
      || (first == other.first && second < other.second)
      || (first == other.first && second == other.second && third < other.third)
      || (first == other.first && second == other.second && third == other.third && fourth < other.fourth)
    }
  }

  /** An index filed under a key: an entry of an ordered book, or of a sorted index list. */
  datatype Entry = Entry(key: Key, idx: nat)

  function EntryKey(e: Entry): Key { e.key }

  /** Sorted by `key` with no two equal keys. */
  ghost predicate StrictlySorted<T>(s: seq<T>, key: T -> Key) {
    forall i, j :: 0 <= i < j < |s| ==> key(s[i]).Less(key(s[j]))
  }

  function Insert<T>(s: seq<T>, x: T, key: T -> Key): (r: seq<T>)
    ensures |r| == |s| + 1
  {
    if s == [] then [x]
    else if key(x).Less(key(s[0])) then [x] + s
    else [s[0]] + Insert(s[1..], x, key)
  }

  lemma {:induction false} InsertMember<T>(s: seq<T>, x: T, key: T -> Key, y: T)
    ensures y in Insert(s, x, key) <==> y == x || y in s
  {
    if s != [] && !key(x).Less(key(s[0])) {
      InsertMember(s[1..], x, key, y);
      assert y in s <==> y == s[0] || y in s[1..];
    }
  }

  lemma {:induction false} InsertSorted<T>(s: seq<T>, x: T, key: T -> Key)
    requires StrictlySorted(s, key)
    requires forall i :: 0 <= i < |s| ==> key(s[i]) != key(x)
    ensures StrictlySorted(Insert(s, x, key), key)
  {
    if s != [] && !key(x).Less(key(s[0])) {
      var rest := Insert(s[1..], x, key);
      InsertSorted(s[1..], x, key);
      forall j | 0 <= j < |rest|
        ensures key(s[0]).Less(key(rest[j]))
      {
        InsertMember(s[1..], x, key, rest[j]);
        if rest[j] != x {
          var k :| 0 <= k < |s[1..]| && s[1..][k] == rest[j];
          assert key(s[0]).Less(key(s[k + 1]));
        }
      }
    } else if s != [] {
      forall j | 0 <= j < |s|
        ensures key(x).Less(key(s[j]))
      {
        assert j > 0 ==> key(s[0]).Less(key(s[j]));
      }
    }
  }

  /** A strictly sorted sequence is determined by its members. */
  lemma {:induction false} SortedUnique<T>(a: seq<T>, b: seq<T>, key: T -> Key)
    requires StrictlySorted(a, key) && StrictlySorted(b, key)
    requires forall x :: x in a <==> x in b
    ensures a == b
  {
    if a == [] {
      HeadIsMember(b);
    } else {
      assert a[0] in a && a[0] in b;
      assert b != [] && b[0] in b;
      var i :| 0 <= i < |b| && b[i] == a[0];
      var j :| 0 <= j < |a| && a[j] == b[0];
      assert i == 0;
      assert a[0] == b[0];
      forall x ensures x in a[1..] <==> x in b[1..] {
        assert x in a <==> x == a[0] || x in a[1..];
        assert x in b <==> x == b[0] || x in b[1..];
        TailExcludesHead(a, key);
        TailExcludesHead(b, key);
      }
      SortedUnique(a[1..], b[1..], key);
    }
  }

  lemma HeadIsMember<T>(s: seq<T>)
    ensures s == [] || s[0] in s
  {
  }

  lemma TailExcludesHead<T>(a: seq<T>, key: T -> Key)
    requires a != [] && StrictlySorted(a, key)
    ensures a[0] !in a[1..]
  {
  }

  lemma KeyOnce<T>(s: seq<T>, i: nat, j: nat, key: T -> Key)
    requires StrictlySorted(s, key) && i < |s| && j < |s| && key(s[i]) == key(s[j])
    ensures i == j
  {
  }

  /** Where an insertion lands: behind everything it does not precede, before the first it does. */
  lemma {:induction false} InsertAt<T>(s: seq<T>, x: T, key: T -> Key, j: nat)
    requires j <= |s| && forall k :: 0 <= k < j ==> !key(x).Less(key(s[k]))
    requires j < |s| ==> key(x).Less(key(s[j]))
    ensures Insert(s, x, key) == s[..j] + [x] + s[j..]
  {
    if j > 0 {
      InsertAt(s[1..], x, key, j - 1);
      assert s[..j] == [s[0]] + s[1..][..j - 1];
    }
  }

  /** No later element precedes an earlier one. */
  ghost predicate InOrder<T>(s: seq<T>, key: T -> Key) {
    forall i, j :: 0 <= i < j < |s| ==> !key(s[j]).Less(key(s[i]))
  }

  /** The same elements, in order. */
  ghost predicate IsSortOf<T>(after: seq<T>, before: seq<T>, key: T -> Key) {
    multiset(after) == multiset(before) && InOrder(after, key)
  }

  lemma InOrderCons<T>(x: T, s: seq<T>, key: T -> Key)
    requires InOrder(s, key) && forall j :: 0 <= j < |s| ==> !key(s[j]).Less(key(x))
    ensures InOrder([x] + s, key)
  {
  }

  lemma InOrderTail<T>(s: seq<T>, key: T -> Key)
    requires InOrder(s, key) && s != []
    ensures InOrder(s[1..], key) && forall j :: 0 <= j < |s| ==> !key(s[j]).Less(key(s[0]))
  {
  }

  /** Nothing follows an element it precedes. */
  lemma NotLessThrough(k: Key, l: Key, m: Key)
    requires k.Less(l) && !m.Less(l)
    ensures !m.Less(k)
  {
  }

  /** Inserting keeps order, equal keys included. */
  lemma {:induction false} InsertInOrder<T>(s: seq<T>, x: T, key: T -> Key)
    requires InOrder(s, key)
    ensures InOrder(Insert(s, x, key), key)
  {
    if s == [] {
    } else if key(x).Less(key(s[0])) {
      InOrderTail(s, key);
      forall j | 0 <= j < |s| ensures !key(s[j]).Less(key(x)) {
        NotLessThrough(key(x), key(s[0]), key(s[j]));
      }
      InOrderCons(x, s, key);
    } else {
      InOrderTail(s, key);
      InsertInOrder(s[1..], x, key);
      hide InOrder;
      var rest := Insert(s[1..], x, key);
      forall j | 0 <= j < |rest| ensures !key(rest[j]).Less(key(s[0])) {
        InsertMember(s[1..], x, key, rest[j]);
        if rest[j] != x {
          var k :| 0 <= k < |s[1..]| && s[1..][k] == rest[j];
          assert s[1..][k] == s[k + 1];
        }
      }
      InOrderCons(s[0], rest, key);
    }
  }

  /** Inserting adds just the new element. */
  lemma {:induction false} InsertAdds<T>(s: seq<T>, x: T, key: T -> Key)
    ensures multiset(Insert(s, x, key)) == multiset(s) + multiset{x}
  {
    if s != [] && !key(x).Less(key(s[0])) {
      InsertAdds(s[1..], x, key);
      assert s == [s[0]] + s[1..];
    }
  }
}
