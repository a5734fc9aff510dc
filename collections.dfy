/** Helpers over sequences of names shared by the grouping and statistics
    code: the first-appearance order of a Python dict's keys, occurrence
    counts and distinctness. */
module Collections {

  predicate Distinct(xs: seq<string>) {
    forall i, j :: 0 <= i < j < |xs| ==> xs[i] != xs[j]
  }

  /** The distinct elements of `xs` in the order they first appear: the key
      order of a dict filled by a loop over `xs`. */
  function FirstSeen(xs: seq<string>): (r: seq<string>)
    ensures Distinct(r)
    ensures forall x :: x in r <==> x in xs
    ensures |r| <= |xs|
  {
    if xs == [] then []
    else
      var r := FirstSeen(xs[..|xs| - 1]);
      assert forall x :: x in xs <==> x in xs[..|xs| - 1] || x == xs[|xs| - 1] by {
        assert xs == xs[..|xs| - 1] + [xs[|xs| - 1]];
      }
      if xs[|xs| - 1] in r then r else r + [xs[|xs| - 1]]
  }

  lemma FirstSeenSnoc(xs: seq<string>, x: string)
    ensures FirstSeen(xs + [x]) == if x in xs then FirstSeen(xs) else FirstSeen(xs) + [x]
  {
    assert (xs + [x])[..|xs|] == xs;
  }

  /** How many times `x` occurs in `xs`. */
  function Count(xs: seq<string>, x: string): (n: nat)
    ensures n <= |xs|
    ensures n == 0 <==> x !in xs
  {
    if xs == [] then 0
    else
      assert xs == xs[..|xs| - 1] + [xs[|xs| - 1]];
      Count(xs[..|xs| - 1], x) + (if xs[|xs| - 1] == x then 1 else 0)
  }

  lemma CountSnoc(xs: seq<string>, y: string, x: string)
    ensures Count(xs + [y], x) == Count(xs, x) + (if y == x then 1 else 0)
  {
    assert (xs + [y])[..|xs|] == xs;
  }

  /** The occurrences in `xs` of each of `keys`, summed. */
  function SumOfCounts(keys: seq<string>, xs: seq<string>): nat {
    if keys == [] then 0 else Count(xs, keys[0]) + SumOfCounts(keys[1..], xs)
  }

  lemma {:induction false} SumOfCountsSnoc(keys: seq<string>, xs: seq<string>, y: string)
    requires Distinct(keys)
    ensures SumOfCounts(keys, xs + [y]) == SumOfCounts(keys, xs) + (if y in keys then 1 else 0)
  {
    if keys != [] {
      CountSnoc(xs, y, keys[0]);
      assert Distinct(keys[1..]);
      SumOfCountsSnoc(keys[1..], xs, y);
      assert y in keys <==> y == keys[0] || y in keys[1..];
      assert y == keys[0] ==> y !in keys[1..];
    }
  }

  /** Counting every element of `xs` under distinct keys that cover it counts
      each element once. */
  lemma {:induction false} SumOfCountsIsLength(keys: seq<string>, xs: seq<string>)
    requires Distinct(keys)
    requires forall i :: 0 <= i < |xs| ==> xs[i] in keys
    ensures SumOfCounts(keys, xs) == |xs|
  {
    if xs == [] {
      SumOfCountsEmpty(keys);
    } else {
      var init := xs[..|xs| - 1];
      assert xs == init + [xs[|xs| - 1]];
      SumOfCountsIsLength(keys, init);
      SumOfCountsSnoc(keys, init, xs[|xs| - 1]);
    }
  }

  lemma {:induction false} SumOfCountsEmpty(keys: seq<string>)
    ensures SumOfCounts(keys, []) == 0
  {
    if keys != [] {
      SumOfCountsEmpty(keys[1..]);
    }
  }

  /** Python's `len(set(xs)) == len(xs)` holds exactly when `xs` has no
      duplicates. */
  lemma {:induction false} SetSizeIffDistinct(xs: seq<string>)
    ensures |set x | x in xs| == |xs| <==> Distinct(xs)
  {
    if xs != [] {
      var rest := xs[1..];
      SetSizeIffDistinct(rest);
      var s := set x | x in xs;
      var t := set x | x in rest;
      assert s == t + {xs[0]} by {
        assert forall x :: x in xs <==> x == xs[0] || x in rest;
      }
      SetSizeAtMostLength(rest);
      if xs[0] in rest {
        assert s == t;
        var j :| 0 <= j < |rest| && rest[j] == xs[0];
        assert xs[j + 1] == xs[0];
        assert !Distinct(xs);
      } else {
        assert |s| == |t| + 1;
        assert Distinct(xs) <==> Distinct(rest) by {
          if Distinct(rest) {
            forall i, j | 0 <= i < j < |xs| ensures xs[i] != xs[j] {
              if i > 0 {
                assert xs[i] == rest[i - 1] && xs[j] == rest[j - 1];
              } else {
                assert xs[j] == rest[j - 1];
              }
            }
          }
          if Distinct(xs) {
            forall i, j | 0 <= i < j < |rest| ensures rest[i] != rest[j] {
              assert rest[i] == xs[i + 1] && rest[j] == xs[j + 1];
            }
          }
        }
      }
    }
  }

  lemma {:induction false} SetSizeAtMostLength(xs: seq<string>)
    ensures |set x | x in xs| <= |xs|
  {
    if xs != [] {
      SetSizeAtMostLength(xs[1..]);
      var s := set x | x in xs;
      var t := set x | x in xs[1..];
      assert s == t + {xs[0]} by {
        assert forall x :: x in xs <==> x == xs[0] || x in xs[1..];
      }
    }
  }
}
