/** The order in which the runner walks Go maps: keys are collected and sorted with
    sort.Strings.  A sorted key list is a function of the key set alone, so every
    loop that sorts first is independent of map iteration order. */
module Ordering {

  /** Go's string order: lexicographic, a proper prefix first. */
  predicate Less(a: string, b: string) {
    b != "" && (a == "" || a[0] < b[0] || (a[0] == b[0] && Less(a[1..], b[1..])))
  }

  lemma {:induction false} LessIrreflexive(a: string)
    ensures !Less(a, a)
  {
    if a != "" {
      LessIrreflexive(a[1..]);
    }
  }

  lemma {:induction false} LessTransitive(a: string, b: string, c: string)
    requires Less(a, b) && Less(b, c)
    ensures Less(a, c)
  {
    if a != "" && a[0] == b[0] && b[0] == c[0] {
      LessTransitive(a[1..], b[1..], c[1..]);
    }
  }

  lemma {:induction false} LessTotal(a: string, b: string)
    ensures Less(a, b) || a == b || Less(b, a)
  {
    if a != "" && b != "" && a[0] == b[0] {
      LessTotal(a[1..], b[1..]);
      assert a == [a[0]] + a[1..] && b == [b[0]] + b[1..];
    }
  }

  predicate IsMinimum(m: string, s: set<string>) {
    m in s && forall x :: x in s ==> x == m || Less(m, x)
  }

  lemma MinimumUnique(s: set<string>)
    ensures forall m, n :: IsMinimum(m, s) && IsMinimum(n, s) ==> m == n
  {
    forall m, n | IsMinimum(m, s) && IsMinimum(n, s)
      ensures m == n
    {
      if m != n {
        LessTransitive(m, n, m);
        LessIrreflexive(m);
      }
    }
  }

  lemma {:induction false} MinimumExists(s: set<string>)
    requires s != {}
    ensures exists m :: IsMinimum(m, s)
    decreases s
  {
    var x :| x in s;
    if s == {x} {
      assert IsMinimum(x, s);
    } else {
      MinimumExists(s - {x});
      var n :| IsMinimum(n, s - {x});
      LessTotal(x, n);
      var m := if Less(x, n) then x else n;
      forall y | y in s
        ensures y == m || Less(m, y)
      {
        if y != x && y != n && m == x {
          LessTransitive(x, n, y);
        }
      }
      assert IsMinimum(m, s);
    }
  }

  function Minimum(s: set<string>): (m: string)
    requires s != {}
    ensures IsMinimum(m, s)
  {
    MinimumExists(s);
    MinimumUnique(s);
    var m :| IsMinimum(m, s);
    m
  }

  predicate Ascending(keys: seq<string>) {
    forall i, j :: 0 <= i < j < |keys| ==> Less(keys[i], keys[j])
  }

  function Elements(keys: seq<string>): set<string> {
    set k | k in keys
  }

  predicate NoRepeats(s: seq<string>) {
    forall i, j :: 0 <= i < j < |s| ==> s[i] != s[j]
  }

  /** A list of exactly these, each once. */
  predicate IsList(s: seq<string>, all: set<string>) {
    Elements(s) == all && NoRepeats(s)
  }

  /** sort.Strings over the keys of a map: ascending, each key once. */
  function SortedKeys(s: set<string>): (keys: seq<string>)
    ensures Ascending(keys)
    ensures Elements(keys) == s
    decreases s
  {
    if s == {} then [] else
      var m := Minimum(s);
      var rest := SortedKeys(s - {m});
      assert forall k :: k in Elements(rest) <==> k in rest;
      assert forall k :: k in [m] + rest <==> k == m || k in rest;
      [m] + rest
  }

  /** Sorting leaves nothing to chance: a key set has exactly one ascending listing. */
  lemma {:induction false} AscendingUnique(a: seq<string>, b: seq<string>)
    requires Ascending(a) && Ascending(b) && Elements(a) == Elements(b)
    ensures a == b
  {
    assert a == [] || a[0] in Elements(a);
    assert b == [] || b[0] in Elements(b);
    if a != [] && b != [] {
      HeadIsMinimum(a);
      HeadIsMinimum(b);
      MinimumUnique(Elements(a));
      TailElements(a);
      TailElements(b);
      AscendingUnique(a[1..], b[1..]);
      assert a == [a[0]] + a[1..] && b == [b[0]] + b[1..];
    }
  }

  lemma HeadIsMinimum(a: seq<string>)
    requires a != [] && Ascending(a)
    ensures IsMinimum(a[0], Elements(a))
  {
  }

  lemma TailElements(a: seq<string>)
    requires a != [] && Ascending(a)
    ensures Elements(a[1..]) == Elements(a) - {a[0]}
  {
    forall k | k in Elements(a) - {a[0]}
      ensures k in Elements(a[1..])
    {
      var i :| 0 <= i < |a| && a[i] == k;
      assert a[1..][i - 1] == k;
    }
    forall k | k in a[1..]
      ensures k != a[0]
    {
      LessIrreflexive(a[0]);
    }
  }

  function Insert(k: string, s: seq<string>): (r: seq<string>)
    ensures multiset(r) == multiset([k] + s)
  {
    if s == [] || k == s[0] || Less(k, s[0]) then [k] + s else
      assert s == [s[0]] + s[1..];
      [s[0]] + Insert(k, s[1..])
  }

  /** sort.Strings over a list, repeats included. */
  function SortedList(s: seq<string>): (r: seq<string>)
    ensures multiset(r) == multiset(s)
  {
    if s == [] then [] else
      assert s == [s[0]] + s[1..];
      Insert(s[0], SortedList(s[1..]))
  }

  lemma SortedListMembers(s: seq<string>)
    ensures forall k :: k in SortedList(s) <==> k in s
  {
    assert forall k :: k in SortedList(s) <==> k in multiset(SortedList(s));
    assert forall k :: k in s <==> k in multiset(s);
  }
}
