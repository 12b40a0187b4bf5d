/**
  Python's ordering of `str` values and `sorted(set(xs))` over a list of strings:
  the distinct elements of `xs` in strictly increasing order.
 */
module StringOrder {

  /** `a < b` on Python strings: lexicographic by code point, a proper prefix first. */
  predicate Less(a: string, b: string)
    decreases |a|
  {
    if a == [] then b != []
    else if b == [] then false
    else if a[0] != b[0] then a[0] < b[0]
    else Less(a[1..], b[1..])
  }

  lemma {:induction false} LessIrreflexive(a: string)
    ensures !Less(a, a)
    decreases |a|
  {
    if a != [] {
      LessIrreflexive(a[1..]);
    }
  }

  lemma {:induction false} LessTransitive(a: string, b: string, c: string)
    requires Less(a, b) && Less(b, c)
    ensures Less(a, c)
    decreases |a|
  {
    if a != [] && b != [] && c != [] && a[0] == b[0] == c[0] {
      LessTransitive(a[1..], b[1..], c[1..]);
    }
  }

  lemma {:induction false} LessTotal(a: string, b: string)
    requires a != b
    ensures Less(a, b) || Less(b, a)
    decreases |a|
  {
    if a != [] && b != [] && a[0] == b[0] {
      assert a == [a[0]] + a[1..] && b == [b[0]] + b[1..];
      LessTotal(a[1..], b[1..]);
    }
  }

  lemma {:induction false} LessAsymmetric(a: string, b: string)
    requires Less(a, b)
    ensures !Less(b, a)
    decreases |a|
  {
    if a != [] && b != [] && a[0] == b[0] {
      LessAsymmetric(a[1..], b[1..]);
    }
  }

  predicate StrictlySorted(s: seq<string>) {
    forall i, j :: 0 <= i < j < |s| ==> Less(s[i], s[j])
  }

  function Elements(s: seq<string>): set<string> {
    set x | x in s
  }

  /** A strictly increasing list holds no element twice. */
  lemma SortedIsDistinct(s: seq<string>)
    requires StrictlySorted(s)
    ensures forall i, j :: 0 <= i < j < |s| ==> s[i] != s[j]
  {
    forall i, j | 0 <= i < j < |s|
      ensures s[i] != s[j]
    {
      LessIrreflexive(s[i]);
    }
  }

  lemma NoElements(s: seq<string>)
    ensures s == [] <==> Elements(s) == {}
  {
    if s != [] {
      assert s[0] in Elements(s);
    }
  }

  lemma ElementsCons(head: string, tail: seq<string>)
    ensures Elements([head] + tail) == {head} + Elements(tail)
  {
    var r := [head] + tail;
    forall y | y in Elements(r)
      ensures y in {head} + Elements(tail)
    {
      var k :| 0 <= k < |r| && r[k] == y;
      if k > 0 {
        assert tail[k - 1] == y;
      }
    }
    forall y | y in Elements(tail)
      ensures y in Elements(r)
    {
      var k :| 0 <= k < |tail| && tail[k] == y;
      assert r[k + 1] == y;
    }
    assert r[0] == head;
  }

  /** The head of a strictly increasing list is below every later element. */
  lemma HeadBelowRest(sorted: seq<string>)
    requires StrictlySorted(sorted) && sorted != []
    ensures StrictlySorted(sorted[1..])
    ensures forall y :: y in Elements(sorted[1..]) ==> Less(sorted[0], y)
  {
    forall y | y in Elements(sorted[1..])
      ensures Less(sorted[0], y)
    {
      var k :| 0 <= k < |sorted[1..]| && sorted[1..][k] == y;
      assert sorted[k + 1] == y;
    }
  }

  /** A list below whose head every other element lies is strictly increasing if its tail is. */
  lemma ConsSorted(head: string, tail: seq<string>)
    requires StrictlySorted(tail)
    requires forall y :: y in Elements(tail) ==> Less(head, y)
    ensures StrictlySorted([head] + tail)
  {
    var r := [head] + tail;
    forall i, j | 0 <= i < j < |r|
      ensures Less(r[i], r[j])
    {
      assert r[j] == tail[j - 1];
      if i == 0 {
        assert tail[j - 1] in Elements(tail);
      } else {
        assert r[i] == tail[i - 1];
      }
    }
  }

  /** Inserts `x` into a strictly increasing list, unless it is already there. */
  function Insert(sorted: seq<string>, x: string): (r: seq<string>)
    requires StrictlySorted(sorted)
    ensures StrictlySorted(r)
    ensures Elements(r) == Elements(sorted) + {x}
    ensures |r| <= |sorted| + 1
  {
    if sorted == [] then
      ElementsCons(x, []);
      [x]
    else
      var head := sorted[0];
      assert sorted == [head] + sorted[1..];
      ElementsCons(head, sorted[1..]);
      HeadBelowRest(sorted);
      if x == head then
        sorted
      else if Less(x, head) then
        forall y | y in Elements(sorted)
          ensures Less(x, y)
        {
          if y != head {
            LessTransitive(x, head, y);
          }
        }
        ConsSorted(x, sorted);
        ElementsCons(x, sorted);
        [x] + sorted
      else
        LessTotal(x, head);
        var tail := Insert(sorted[1..], x);
        ConsSorted(head, tail);
        ElementsCons(head, tail);
        [head] + tail
  }

  /** `sorted(set(xs))`. */
  function SortedSet(xs: seq<string>): (r: seq<string>)
    ensures StrictlySorted(r)
    ensures Elements(r) == Elements(xs)
    ensures |r| <= |xs|
  {
    if xs == [] then []
    else
      var r := Insert(SortedSet(xs[..|xs| - 1]), xs[|xs| - 1]);
      assert xs == xs[..|xs| - 1] + [xs[|xs| - 1]];
      assert Elements(xs) == Elements(xs[..|xs| - 1]) + {xs[|xs| - 1]};
      r
  }

  /**
    Strict order and the element set determine the list: `SortedSet` is the only
    list of the distinct elements in increasing order.
   */
  lemma {:induction false} SortedUnique(a: seq<string>, b: seq<string>)
    requires StrictlySorted(a) && StrictlySorted(b) && Elements(a) == Elements(b)
    ensures a == b
    decreases |a|
  {
    NoElements(a);
    NoElements(b);
    if a != [] && b != [] {
      assert a[0] in Elements(b);
      assert b[0] in Elements(a);
      var i :| 0 <= i < |b| && b[i] == a[0];
      var j :| 0 <= j < |a| && a[j] == b[0];
      if a[0] != b[0] {
        assert i > 0 && j > 0;
        LessAsymmetric(b[0], a[0]);
        assert false;
      }
      assert a == [a[0]] + a[1..] && b == [b[0]] + b[1..];
      LessIrreflexive(a[0]);
      assert Elements(a[1..]) == Elements(a) - {a[0]} by {
        forall x | x in Elements(a[1..]) ensures x != a[0] {
          var k :| 0 <= k < |a[1..]| && a[1..][k] == x;
          assert Less(a[0], a[k + 1]);
        }
      }
      assert Elements(b[1..]) == Elements(b) - {b[0]} by {
        forall x | x in Elements(b[1..]) ensures x != b[0] {
          var k :| 0 <= k < |b[1..]| && b[1..][k] == x;
          assert Less(b[0], b[k + 1]);
        }
      }
      SortedUnique(a[1..], b[1..]);
    }
  }

  /** A list has at most as many distinct elements as entries. */
  lemma {:induction false} ElementsBound(s: seq<string>)
    ensures |Elements(s)| <= |s|
    decreases |s|
  {
    if s != [] {
      assert Elements(s) == Elements(s[1..]) + {s[0]} by {
        assert s == [s[0]] + s[1..];
      }
      ElementsBound(s[1..]);
    }
  }

  /** A strictly increasing list has as many distinct elements as entries. */
  lemma {:induction false} SortedElementsCount(s: seq<string>)
    requires StrictlySorted(s)
    ensures |Elements(s)| == |s|
    decreases |s|
  {
    if s != [] {
      assert Elements(s) == Elements(s[1..]) + {s[0]} by {
        assert s == [s[0]] + s[1..];
      }
      LessIrreflexive(s[0]);
      assert s[0] !in Elements(s[1..]) by {
        forall x | x in Elements(s[1..]) ensures x != s[0] {
          var k :| 0 <= k < |s[1..]| && s[1..][k] == x;
          assert Less(s[0], s[k + 1]);
        }
      }
      SortedElementsCount(s[1..]);
    }
  }

  /** A list whose first two entries are equal leaves `sorted(set(..))` at least one shorter. */
  lemma RepeatShrinks(xs: seq<string>)
    requires |xs| >= 2 && xs[0] == xs[1]
    ensures |SortedSet(xs)| < |xs|
  {
    assert Elements(xs) == Elements(xs[1..]) by {
      assert xs == [xs[0]] + xs[1..];
      assert xs[0] == xs[1..][0];
    }
    ElementsBound(xs[1..]);
    SortedElementsCount(SortedSet(xs));
  }
}
