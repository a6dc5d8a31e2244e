/** A stable sort by a numeric key of what is selected from a list. */
module StableSorting {
  import opened Wrappers
  import opened Sequences

  /** What `pick` makes of the list, in its order. */
  function Selected<S, T>(list: seq<S>, pick: S -> Option<T>): seq<T> {
    if list == [] then []
    else
      var last := pick(list[|list| - 1]);
      Selected(list[..|list| - 1], pick) + if last.Some? then [last.value] else []
  }

  /** Behind every item whose key is not greater. */
  function PlaceFor<T>(at: real, r: seq<T>, key: T -> real): (k: nat)
    ensures k <= |r| && (k > 0 ==> key(r[k - 1]) <= at)
    ensures forall i :: k <= i < |r| ==> key(r[i]) > at
  {
    if r == [] || key(r[|r| - 1]) <= at then |r| else PlaceFor(at, r[..|r| - 1], key)
  }

  function Insert<T>(x: T, r: seq<T>, key: T -> real): seq<T> {
    r[..PlaceFor(key(x), r, key)] + [x] + r[PlaceFor(key(x), r, key)..]
  }

  /** By key; items with equal keys stay in order. */
  function StableSort<T>(items: seq<T>, key: T -> real): (r: seq<T>)
    ensures |r| == |items|
  {
    if items == [] then [] else Insert(items[|items| - 1], StableSort(items[..|items| - 1], key), key)
  }

  // ---------------------------------------------------------------- what it gives

  predicate Precedes<T>(a: T, b: T, key: T -> real, name: T -> string, arrived: seq<string>) {
    key(a) < key(b) || (key(a) == key(b) && Before(arrived, name(a), name(b)))
  }

  /** By key, and equal keys in the order in which the names arrived. */
  predicate InOrder<T>(r: seq<T>, key: T -> real, name: T -> string, arrived: seq<string>) {
    forall i, j :: 0 <= i < j < |r| ==> Precedes(r[i], r[j], key, name, arrived)
  }

  ghost predicate IsSelected<S, T>(x: T, list: seq<S>, pick: S -> Option<T>) {
    exists i :: 0 <= i < |list| && pick(list[i]) == Some(x)
  }

  lemma InOrderStays<T>(r: seq<T>, key: T -> real, name: T -> string, arrived: seq<string>, last: string)
    requires InOrder(r, key, name, arrived)
    ensures InOrder(r, key, name, arrived + [last])
  {
    forall i, j | 0 <= i < j < |r| ensures Precedes(r[i], r[j], key, name, arrived + [last]) {
      assert Precedes(r[i], r[j], key, name, arrived);
      if key(r[i]) == key(r[j]) { BeforeStays(arrived, last, name(r[i]), name(r[j])); }
    }
  }

  lemma InsertSplits<T>(x: T, r: seq<T>, key: T -> real)
    ensures var k, s := PlaceFor(key(x), r, key), Insert(x, r, key);
            && |s| == |r| + 1 && s[k] == x
            && (forall i :: 0 <= i < k ==> s[i] == r[i])
            && (forall i :: k < i < |s| ==> s[i] == r[i - 1])
  {
  }

  lemma InsertMembers<T>(x: T, r: seq<T>, key: T -> real)
    ensures forall y :: y in Insert(x, r, key) <==> y == x || y in r
  {
    var k := PlaceFor(key(x), r, key);
    assert r == r[..k] + r[k..];
  }

  /** Inserting the item that arrived last. */
  lemma InsertInOrder<T>(x: T, r: seq<T>, key: T -> real, name: T -> string, arrived: seq<string>)
    requires InOrder(r, key, name, arrived) && (forall i :: 0 <= i < |r| ==> name(r[i]) in arrived)
    ensures InOrder(Insert(x, r, key), key, name, arrived + [name(x)])
  {
    var k, longer := PlaceFor(key(x), r, key), arrived + [name(x)];
    InOrderStays(r, key, name, arrived, name(x));
    InsertSplits(x, r, key);
    forall i | 0 <= i < k ensures Precedes(r[i], x, key, name, longer) {
      assert i < k - 1 ==> Precedes(r[i], r[k - 1], key, name, arrived);
      BeforeLast(arrived, name(x), name(r[i]));
    }
    InsertedInOrder(x, r, Insert(x, r, key), k, key, name, longer);
  }

  lemma InsertedInOrder<T>(x: T, r: seq<T>, s: seq<T>, k: nat, key: T -> real, name: T -> string, arrived: seq<string>)
    requires InOrder(r, key, name, arrived) && k <= |r| && |s| == |r| + 1 && s[k] == x
    requires (forall i :: 0 <= i < k ==> s[i] == r[i]) && (forall i :: k < i < |s| ==> s[i] == r[i - 1])
    requires forall i :: 0 <= i < k ==> Precedes(r[i], x, key, name, arrived)
    requires forall i :: k <= i < |r| ==> Precedes(x, r[i], key, name, arrived)
    ensures InOrder(s, key, name, arrived)
  {
    forall i, j | 0 <= i < j < |s| ensures Precedes(s[i], s[j], key, name, arrived) {
      var a, b := if i < k then i else i - 1, if j < k then j else j - 1;
      if i != k && j != k { assert Precedes(r[a], r[b], key, name, arrived); }
    }
  }

  /** What is selected from an element has the name that arrived with it. */
  predicate NamesFit<S, T>(list: seq<S>, names: seq<string>, pick: S -> Option<T>, name: T -> string) {
    |list| == |names| && forall i :: 0 <= i < |list| && pick(list[i]).Some? ==> name(pick(list[i]).value) == names[i]
  }

  ghost predicate SortedAre<S, T(!new)>(r: seq<T>, list: seq<S>, names: seq<string>, pick: S -> Option<T>, key: T -> real,
                                  name: T -> string)
  {
    InOrder(r, key, name, names) && (forall x :: x in r <==> IsSelected(x, list, pick))
  }

  lemma SortNext<S, T>(list: seq<S>, pick: S -> Option<T>, key: T -> real)
    requires list != []
    ensures var before, last := StableSort(Selected(list[..|list| - 1], pick), key), pick(list[|list| - 1]);
            StableSort(Selected(list, pick), key) == if last.Some? then Insert(last.value, before, key) else before
  {
    var before, last := Selected(list[..|list| - 1], pick), pick(list[|list| - 1]);
    if last.Some? {
      assert (before + [last.value])[..|before|] == before;
    } else {
      assert before + [] == before;
    }
  }

  lemma SelectedNext<S, T>(x: T, list: seq<S>, pick: S -> Option<T>)
    requires list != []
    ensures IsSelected(x, list, pick)
       <==> IsSelected(x, list[..|list| - 1], pick) || pick(list[|list| - 1]) == Some(x)
  {
    var rest := list[..|list| - 1];
    if i :| 0 <= i < |list| && pick(list[i]) == Some(x) {
      if i < |rest| { assert pick(rest[i]) == Some(x); }
    }
  }

  lemma NextSorted<S, T(!new)>(before: seq<T>, after: seq<T>, list: seq<S>, names: seq<string>, pick: S -> Option<T>,
                         key: T -> real, name: T -> string)
    requires list != [] && NamesFit(list, names, pick, name)
    requires SortedAre(before, list[..|list| - 1], names[..|list| - 1], pick, key, name)
    requires var last := pick(list[|list| - 1]);
             after == if last.Some? then Insert(last.value, before, key) else before
    ensures SortedAre(after, list, names, pick, key, name)
  {
    var n := |list| - 1;
    SplitLast(names);
    forall x ensures IsSelected(x, list, pick) <==> IsSelected(x, list[..n], pick) || pick(list[n]) == Some(x) {
      SelectedNext(x, list, pick);
    }
    if pick(list[n]).Some? {
      SelectedNames(before, list[..n], names[..n], pick, name);
      InsertInOrder(pick(list[n]).value, before, key, name, names[..n]);
      InsertMembers(pick(list[n]).value, before, key);
    } else {
      InOrderStays(before, key, name, names[..n], names[n]);
    }
  }

  lemma SelectedNames<S, T>(r: seq<T>, list: seq<S>, names: seq<string>, pick: S -> Option<T>, name: T -> string)
    requires NamesFit(list, names, pick, name) && (forall x :: x in r <==> IsSelected(x, list, pick))
    ensures forall i :: 0 <= i < |r| ==> name(r[i]) in names
  {
    forall i | 0 <= i < |r| ensures name(r[i]) in names {
      assert r[i] in r;
      var k :| 0 <= k < |list| && pick(list[k]) == Some(r[i]);
      assert names[k] in names;
    }
  }

  /** The sorted selection holds exactly what is selected, by key and then by arrival. */
  lemma {:induction false} SelectionSorted<S, T(!new)>(list: seq<S>, names: seq<string>, pick: S -> Option<T>, key: T -> real,
                                                 name: T -> string)
    requires NamesFit(list, names, pick, name)
    ensures SortedAre(StableSort(Selected(list, pick), key), list, names, pick, key, name)
  {
    if list == [] {
    } else {
      var n := |list| - 1;
      SelectionSorted(list[..n], names[..n], pick, key, name);
      SortNext(list, pick, key);
      NextSorted(StableSort(Selected(list[..n], pick), key), StableSort(Selected(list, pick), key), list, names, pick,
                 key, name);
    }
  }
}
