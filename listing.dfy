/**
 * The home listing of renderHome: the records of the active tab (still
 * saving, or complete), ordered by the comparator chosen with the sort and
 * order selects. Array.prototype.sort is stable, so the listing is the
 * stable sort of the filtered records, written here as an insertion sort.
 */
module Listing {
  import opened Records

  /** The value of `activeTab`. */
  datatype Tab = ActiveTab | CompleteTab

  /** The sort select: `"name"`, or anything else, which sorts by goal. */
  datatype SortKey = ByName | ByGoal

  /** The order select: `"asc"`, or anything else, which sorts descending. */
  datatype Order = Asc | Desc

  // ----- the tab filter -----

  predicate IsComplete(r: Record)
  {
    r.collected >= r.goal
  }

  /** The filter predicate: complete records on the complete tab, the others on the active tab. */
  predicate InTab(r: Record, tab: Tab)
  {
    if tab == CompleteTab then IsComplete(r) else !IsComplete(r)
  }

  function FilterTab(s: seq<Record>, tab: Tab): (f: seq<Record>)
    ensures |f| <= |s|
    ensures forall r :: r in f <==> r in s && InTab(r, tab)
  {
    if s == [] then []
    else if InTab(s[0], tab) then [s[0]] + FilterTab(s[1..], tab)
    else FilterTab(s[1..], tab)
  }

  /** Filtering keeps the relative order: it distributes over concatenation. */
  lemma {:induction false} FilterAppend(a: seq<Record>, b: seq<Record>, tab: Tab)
    ensures FilterTab(a + b, tab) == FilterTab(a, tab) + FilterTab(b, tab)
  {
    if a != [] {
      assert (a + b)[1..] == a[1..] + b;
      FilterAppend(a[1..], b, tab);
    } else {
      assert a + b == b;
    }
  }

  /** The two tabs split the collection: every record is on exactly one of them. */
  lemma {:induction false} TabsPartition(s: seq<Record>)
    ensures multiset(FilterTab(s, ActiveTab)) + multiset(FilterTab(s, CompleteTab)) == multiset(s)
    ensures |FilterTab(s, ActiveTab)| + |FilterTab(s, CompleteTab)| == |s|
  {
    if s != [] {
      TabsPartition(s[1..]);
      assert s == [s[0]] + s[1..];
    }
  }

  // ----- the comparator -----

  /** ASCII letters to lower case; every other character is kept. */
  function LowerChar(c: char): char
  {
    if 'A' <= c <= 'Z' then (c as int + 32) as char else c
  }

  /** `toLowerCase()`, character by character. */
  function Lower(s: string): (t: string)
    ensures |t| == |s|
    ensures forall i :: 0 <= i < |s| ==> t[i] == LowerChar(s[i])
  {
    if s == [] then [] else [LowerChar(s[0])] + Lower(s[1..])
  }

  /** JavaScript's `<` on strings: lexicographic, a proper prefix first. */
  predicate StrLess(a: string, b: string)
  {
    if a == [] then b != []
    else if b == [] then false
    else if a[0] != b[0] then a[0] < b[0]
    else StrLess(a[1..], b[1..])
  }

  lemma {:induction false} StrLessAsymmetric(a: string, b: string)
    ensures !(StrLess(a, b) && StrLess(b, a))
  {
    if a != [] && b != [] && a[0] == b[0] {
      StrLessAsymmetric(a[1..], b[1..]);
    }
  }

  lemma {:induction false} StrLessTransitive(a: string, b: string, c: string)
    requires StrLess(a, b) && StrLess(b, c)
    ensures StrLess(a, c)
  {
    if a != [] && b != [] && c != [] && a[0] == b[0] && b[0] == c[0] {
      StrLessTransitive(a[1..], b[1..], c[1..]);
    }
  }

  /** `valA < valB` for the chosen key. */
  predicate KeyLess(a: Record, b: Record, key: SortKey)
  {
    match key
    case ByName => StrLess(Lower(a.name), Lower(b.name))
    case ByGoal => a.goal < b.goal
  }

  /** `a` goes strictly before `b`: the comparator returns a negative number. */
  predicate Before(a: Record, b: Record, key: SortKey, order: Order)
  {
    if order == Asc then KeyLess(a, b, key) else KeyLess(b, a, key)
  }

  /** The sort callback of renderHome, with its -1 / 1 / 0 results. */
  function Compare(a: Record, b: Record, key: SortKey, order: Order): (c: int)
    ensures c < 0 <==> Before(a, b, key, order)
    ensures c > 0 <==> Before(b, a, key, order)
    ensures c == 0 <==> !Before(a, b, key, order) && !Before(b, a, key, order)
  {
    StrLessAsymmetric(Lower(a.name), Lower(b.name));
    if KeyLess(a, b, key) then (if order == Asc then -1 else 1)
    else if KeyLess(b, a, key) then (if order == Asc then 1 else -1)
    else 0
  }

  lemma BeforeIrreflexive(a: Record, key: SortKey, order: Order)
    ensures !Before(a, a, key, order)
  {
    StrLessAsymmetric(Lower(a.name), Lower(a.name));
  }

  lemma BeforeTransitive(a: Record, b: Record, c: Record, key: SortKey, order: Order)
    requires Before(a, b, key, order) && Before(b, c, key, order)
    ensures Before(a, c, key, order)
  {
    if key == ByName {
      if order == Asc {
        StrLessTransitive(Lower(a.name), Lower(b.name), Lower(c.name));
      } else {
        StrLessTransitive(Lower(c.name), Lower(b.name), Lower(a.name));
      }
    }
  }

  // ----- the sort -----

  /** No record is placed after one that the comparator puts strictly behind it. */
  predicate Sorted(s: seq<Record>, key: SortKey, order: Order)
  {
    forall i, j :: 0 <= i < j < |s| ==> !Before(s[j], s[i], key, order)
  }

  /** Insert `x` in front of the first record it goes strictly before. */
  function Insert(x: Record, s: seq<Record>, key: SortKey, order: Order): (t: seq<Record>)
    ensures multiset(t) == multiset(s) + multiset{x}
    ensures |t| == |s| + 1
  {
    if s == [] then [x]
    else if Before(x, s[0], key, order) then [x] + s
    else
      assert s == [s[0]] + s[1..];
      [s[0]] + Insert(x, s[1..], key, order)
  }

  lemma {:induction false} InsertSorted(x: Record, s: seq<Record>, key: SortKey, order: Order)
    requires Sorted(s, key, order)
    ensures Sorted(Insert(x, s, key, order), key, order)
  {
    if s == [] {
    } else if Before(x, s[0], key, order) {
      var t := [x] + s;
      forall i, j | 0 <= i < j < |t|
        ensures !Before(t[j], t[i], key, order)
      {
        if i == 0 {
          if Before(t[j], x, key, order) {
            BeforeTransitive(t[j], x, s[0], key, order);
            if j == 1 {
              BeforeIrreflexive(s[0], key, order);
            }
            assert false;
          }
        }
      }
    } else {
      var rest := Insert(x, s[1..], key, order);
      InsertSorted(x, s[1..], key, order);
      var t := [s[0]] + rest;
      forall i, j | 0 <= i < j < |t|
        ensures !Before(t[j], t[i], key, order)
      {
        if i == 0 {
          var z := rest[j - 1];
          assert z in multiset(rest);
          assert z == x || z in multiset(s[1..]);
          if z != x {
            var k :| 1 <= k < |s| && s[k] == z;
          }
        }
      }
    }
  }

  /** The stable sort: each record is inserted after the earlier ones that are not behind it. */
  function SortBy(s: seq<Record>, key: SortKey, order: Order): (t: seq<Record>)
    ensures multiset(t) == multiset(s)
    ensures Sorted(t, key, order)
  {
    if s == [] then []
    else
      var front := SortBy(s[..|s| - 1], key, order);
      InsertSorted(s[|s| - 1], front, key, order);
      assert s == s[..|s| - 1] + [s[|s| - 1]];
      Insert(s[|s| - 1], front, key, order)
  }

  /** What the home view lists: the tab's records, sorted as selected. */
  function HomeListing(s: seq<Record>, tab: Tab, key: SortKey, order: Order): (l: seq<Record>)
    ensures multiset(l) == multiset(FilterTab(s, tab))
    ensures Sorted(l, key, order)
    ensures forall r :: r in l <==> r in s && InTab(r, tab)
  {
    var l := SortBy(FilterTab(s, tab), key, order);
    assert forall r :: r in l <==> r in multiset(l);
    l
  }
}
