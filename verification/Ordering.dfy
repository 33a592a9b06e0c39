/** `ORDER BY rank, id`: a finite set of row ids listed by rank, ties broken by id. */
module Ordering {

  lemma NonEmpty(s: set<int>)
    ensures s == {} || exists x :: x in s
  {
    if forall x :: x !in s {
      assert s == {};
    }
  }

  ghost predicate Ranked(s: set<int>, rank: map<int, int>) {
    s <= rank.Keys
  }

  predicate Before(rank: map<int, int>, a: int, b: int)
    requires a in rank && b in rank
  {
    rank[a] < rank[b] || (rank[a] == rank[b] && a <= b)
  }

  ghost predicate IsFirst(s: set<int>, rank: map<int, int>, x: int)
    requires Ranked(s, rank)
  {
    x in s && forall y :: y in s ==> Before(rank, x, y)
  }

  lemma {:induction false} FirstExists(s: set<int>, rank: map<int, int>)
    requires Ranked(s, rank) && s != {}
    ensures exists x :: IsFirst(s, rank, x)
  {
    NonEmpty(s);
    var a :| a in s;
    var rest := s - {a};
    assert forall y :: y in s <==> y == a || y in rest;
    if rest == {} {
      assert IsFirst(s, rank, a);
    } else {
      FirstExists(rest, rank);
      var b :| IsFirst(rest, rank, b);
      if Before(rank, a, b) {
        assert IsFirst(s, rank, a);
      } else {
        assert IsFirst(s, rank, b);
      }
    }
  }

  /** `LIMIT 1`. */
  ghost function First(s: set<int>, rank: map<int, int>): (x: int)
    requires Ranked(s, rank) && s != {}
    ensures IsFirst(s, rank, x)
  {
    FirstExists(s, rank);
    var x :| IsFirst(s, rank, x);
    x
  }

  ghost function Sorted(s: set<int>, rank: map<int, int>): (q: seq<int>)
    requires Ranked(s, rank)
    ensures |q| == |s|
  {
    if s == {} then [] else [First(s, rank)] + Sorted(s - {First(s, rank)}, rank)
  }

  /** The list holds exactly the rows of the set ... */
  lemma {:induction false} SortedElements(s: set<int>, rank: map<int, int>, x: int)
    requires Ranked(s, rank)
    ensures x in Sorted(s, rank) <==> x in s
  {
    if s != {} {
      SortedElements(s - {First(s, rank)}, rank, x);
    }
  }

  /** ... none of them twice, and in order. */
  lemma {:induction false} SortedInOrder(s: set<int>, rank: map<int, int>, i: nat, j: nat)
    requires Ranked(s, rank) && i < j < |s|
    ensures Sorted(s, rank)[i] != Sorted(s, rank)[j]
    ensures Sorted(s, rank)[i] in s && Sorted(s, rank)[j] in s
    ensures Before(rank, Sorted(s, rank)[i], Sorted(s, rank)[j])
  {
    var x := First(s, rank);
    var rest := Sorted(s - {x}, rank);
    if i == 0 {
      SortedElements(s - {x}, rank, rest[j - 1]);
    } else {
      SortedInOrder(s - {x}, rank, i - 1, j - 1);
    }
  }

  /** A query that scans its rows for the one to return first. */
  method SelectFirst(s: set<int>, rank: map<int, int>) returns (x: int)
    requires Ranked(s, rank) && s != {}
    ensures x == First(s, rank)
  {
    NonEmpty(s);
    x :| x in s;
    var seen := {x};
    while seen != s
      invariant seen <= s && IsFirst(seen, rank, x)
      decreases |s| - |seen|
    {
      NonEmpty(s - seen);
      assert s - seen != {};
      var y :| y in s - seen;
      assert |seen + {y}| == |seen| + 1;
      assert seen + {y} <= s && |seen + {y}| <= |s| by { SubsetSize(seen + {y}, s); }
      if Before(rank, y, x) {
        x := y;
      }
      seen := seen + {y};
    }
  }

  lemma {:induction false} SubsetSize(a: set<int>, b: set<int>)
    requires a <= b
    ensures |a| <= |b|
  {
    if a != {} {
      NonEmpty(a);
      var x :| x in a;
      SubsetSize(a - {x}, b - {x});
    }
  }

  /** A query that returns all its rows in order. */
  method SelectAll(s: set<int>, rank: map<int, int>) returns (q: seq<int>)
    requires Ranked(s, rank)
    ensures q == Sorted(s, rank)
  {
    q := [];
    var rest := s;
    while rest != {}
      invariant rest <= s
      invariant Sorted(s, rank) == q + Sorted(rest, rank)
      decreases |rest|
    {
      var x := SelectFirst(rest, rank);
      assert q + ([x] + Sorted(rest - {x}, rank)) == (q + [x]) + Sorted(rest - {x}, rank);
      q := q + [x];
      rest := rest - {x};
    }
  }
}
