/** The singly linked list of threads/list.cc, plain and sorted by key. */
module Lists {
  class ListElement<T> {
    var next: ListElement?<T>
    const key: int
    const item: T

    constructor (item: T, key: int)
      ensures this.item == item && this.key == key && next == null
    {
      this.item := item;
      this.key := key;
      next := null;
    }
  }

  // ---- what the sorted operations compute ----

  /** In front of the first element with a larger key; after any with the same key. */
  function Insert<T>(s: seq<(T, int)>, item: T, key: int): (r: seq<(T, int)>)
    ensures |r| == |s| + 1
  {
    if s == [] || key < s[0].1 then [(item, key)] + s else [s[0]] + Insert(s[1..], item, key)
  }

  ghost predicate Sorted<T>(s: seq<(T, int)>) {
    forall i, j :: 0 <= i < j < |s| ==> s[i].1 <= s[j].1
  }

  lemma {:induction false} InsertMultiset<T>(s: seq<(T, int)>, item: T, key: int)
    ensures multiset(Insert(s, item, key)) == multiset(s) + multiset{(item, key)}
  {
    if s == [] || key < s[0].1 {
    } else {
      InsertMultiset(s[1..], item, key);
      assert s == [s[0]] + s[1..];
    }
  }

  lemma {:induction false} InsertSorted<T>(s: seq<(T, int)>, item: T, key: int)
    requires Sorted(s)
    ensures Sorted(Insert(s, item, key))
  {
    if s == [] || key < s[0].1 {
    } else {
      var r := Insert(s[1..], item, key);
      InsertSorted(s[1..], item, key);
      InsertMultiset(s[1..], item, key);
      forall x | x in r
        ensures s[0].1 <= x.1
      {
        assert x in multiset(r);
        assert x in s[1..] || x == (item, key);
      }
    }
  }

  /** Where the element goes, when everything before position k is no larger and what follows is larger. */
  lemma {:induction false} InsertAt<T>(s: seq<(T, int)>, item: T, key: int, k: nat)
    requires k <= |s|
    requires forall i :: 0 <= i < k ==> s[i].1 <= key
    requires k < |s| ==> key < s[k].1
    ensures Insert(s, item, key) == s[..k] + [(item, key)] + s[k..]
  {
    if k > 0 {
      InsertAt(s[1..], item, key, k - 1);
    }
  }

  class List<T> {
    var first: ListElement?<T>
    var last: ListElement?<T>
    ghost var spine: seq<ListElement<T>>

    ghost predicate Valid()
      reads this, spine
    {
      && (forall i, j :: 0 <= i < j < |spine| ==> spine[i] != spine[j])
      && (forall i :: 0 <= i < |spine| - 1 ==> spine[i].next == spine[i + 1])
      && (if spine == [] then first == null && last == null
          else first == spine[0] && last == spine[|spine| - 1] && spine[|spine| - 1].next == null)
    }

    ghost function Contents(): (s: seq<(T, int)>)
      reads this, spine
      ensures |s| == |spine|
    {
      seq(|spine|, i requires 0 <= i < |spine| reads this, spine => (spine[i].item, spine[i].key))
    }

    constructor ()
      ensures Valid() && Contents() == [] && spine == []
    {
      first, last, spine := null, null, [];
    }

    method Append(item: T)
      requires Valid()
      modifies this, spine
      ensures Valid() && Contents() == old(Contents()) + [(item, 0)]
      ensures forall e :: e in spine ==> e in old(spine) || fresh(e)
    {
      var element := new ListElement(item, 0);
      if first == null {
        first := element;
      } else {
        last.next := element;
      }
      last := element;
      spine := spine + [element];
    }

    /** Remove, and SortedRemove: the first element and its key, or nothing. */
    method SortedRemove() returns (r: seq<(T, int)>)
      requires Valid()
      modifies this
      ensures Valid() && r + Contents() == old(Contents()) && |r| <= 1 && (r == [] ==> old(Contents()) == [])
      ensures forall e :: e in spine ==> e in old(spine)
    {
      if first == null {
        return [];
      }
      r := [(first.item, first.key)];
      if first == last {
        assert spine[0] == spine[|spine| - 1];
        first, last := null, null;
      } else {
        first := first.next;
      }
      spine := spine[1..];
    }

    method SortedInsert(item: T, sortKey: int)
      requires Valid()
      modifies this, spine
      ensures Valid() && Contents() == Insert(old(Contents()), item, sortKey)
      ensures forall e :: e in spine ==> e in old(spine) || fresh(e)
    {
      ghost var before := Contents();
      if first == null || sortKey < first.key {
        InsertFirst(item, sortKey);
      } else {
        var ptr: ListElement<T> := first;
        ghost var n := 0;
        while ptr.next != null && !(sortKey < ptr.next.key)
          invariant 0 <= n < |spine| && ptr == spine[n]
          invariant forall i :: 0 <= i <= n ==> before[i].1 <= sortKey
          decreases |spine| - n
        {
          ptr := ptr.next;
          n := n + 1;
        }
        InsertAt(before, item, sortKey, n + 1);
        InsertAfter(ptr, n, item, sortKey);
      }
    }

    /** Puts an element in front. */
    method InsertFirst(item: T, sortKey: int)
      requires Valid()
      modifies this
      ensures Valid() && Contents() == [(item, sortKey)] + old(Contents())
      ensures forall e :: e in spine ==> e in old(spine) || fresh(e)
    {
      var element := new ListElement(item, sortKey);
      if first == null {
        last := element;
      } else {
        element.next := first;
      }
      first := element;
      spine := [element] + spine;
    }

    /** Links a new element in after `ptr`, at the end of the list if `ptr` is last. */
    method InsertAfter(ptr: ListElement<T>, ghost n: nat, item: T, sortKey: int)
      requires Valid() && n < |spine| && ptr == spine[n]
      modifies this, spine
      ensures Valid()
      ensures Contents() == old(Contents())[..n + 1] + [(item, sortKey)] + old(Contents())[n + 1..]
      ensures forall e :: e in spine ==> e in old(spine) || fresh(e)
    {
      var element := new ListElement(item, sortKey);
      assert n < |spine| - 1 ==> ptr.next == spine[n + 1];
      if ptr.next == null {
        last.next := element;
        last := element;
      } else {
        element.next := ptr.next;
        ptr.next := element;
      }
      spine := spine[..n + 1] + [element] + spine[n + 1..];
    }
  }
}
