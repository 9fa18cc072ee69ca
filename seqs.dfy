/** Sequence helpers for the list operations the source uses: Python's `s[start:]`
    slice (which is how both history getters and both history trims are written), and the
    SQL `ORDER BY timestamp DESC LIMIT n` read of an append-only table. */
module Seqs {
  import opened Values

  function Min(a: int, b: int): int { if a < b then a else b }

  /** Python's `s[start:]`: a negative start counts from the end, and every start is clamped. */
  function PyTail<T>(s: seq<T>, start: int): seq<T>
  {
    if start < 0 then (if |s| + start <= 0 then s else s[|s| + start..])
    else if start >= |s| then []
    else s[start..]
  }

  /** What `s[-n:]` means for every integer `n`: the last `n` elements when `n` is positive,
      everything when `n` is zero (since `-0 == 0`), and all but the first `-n` otherwise. */
  lemma PyTailOfNegated<T>(s: seq<T>, n: int)
    ensures n > 0 ==> PyTail(s, -n) == s[|s| - Min(n, |s|)..]
    ensures n == 0 ==> PyTail(s, -n) == s
    ensures n < 0 ==> PyTail(s, -n) == s[Min(-n, |s|)..]
  {
  }

  /** `if len(s) > max: s = s[-max:]`, the trim both bounded histories use. */
  function Trimmed<T>(s: seq<T>, max: nat): (r: seq<T>)
    requires max > 0
    ensures |r| == Min(|s|, max)
    ensures r == s[|s| - |r|..]
  {
    if |s| > max then PyTail(s, -(max as int)) else s
  }

  /** Appending to a bounded history and trimming keeps it bounded and keeps the newest
      entry last; the older survivors are the newest of the old entries, in order. */
  lemma {:induction false} AppendTrimmed<T>(s: seq<T>, x: T, max: nat)
    requires max > 0 && |s| <= max
    ensures |Trimmed(s + [x], max)| <= max
    ensures Trimmed(s + [x], max)[|Trimmed(s + [x], max)| - 1] == x
    ensures Trimmed(s + [x], max) == (if |s| == max then s[1..] else s) + [x]
  {
    var r := Trimmed(s + [x], max);
    if |s| == max {
      assert r == (s + [x])[1..];
      assert (s + [x])[1..] == s[1..] + [x];
    }
  }

  function Reverse<T>(s: seq<T>): (r: seq<T>)
    ensures |r| == |s|
    ensures forall i :: 0 <= i < |s| ==> r[i] == s[|s| - 1 - i]
  {
    seq(|s|, i requires 0 <= i < |s| => s[|s| - 1 - i])
  }

  /** SQL `LIMIT n`: a negative limit means no limit. */
  function TakeLimit<T>(s: seq<T>, limit: int): seq<T>
  {
    if limit < 0 || limit >= |s| then s else s[..limit]
  }

  /** `ORDER BY timestamp DESC LIMIT n` over a table whose rows are in insertion order and
      whose timestamps increase with insertion. */
  function NewestFirst<T>(s: seq<T>, limit: int): (r: seq<T>)
    ensures limit >= 0 ==> |r| == Min(limit, |s|)
    ensures limit < 0 ==> |r| == |s|
    ensures forall i :: 0 <= i < |r| ==> r[i] == s[|s| - 1 - i]
  {
    TakeLimit(Reverse(s), limit)
  }

  /** The index of the first element that satisfies `p`, if any. */
  function FirstWhere<T>(s: seq<T>, p: T -> bool): (r: Option<nat>)
    ensures r.None? <==> forall i :: 0 <= i < |s| ==> !p(s[i])
    ensures r.Some? ==> r.value < |s| && p(s[r.value]) && forall j :: 0 <= j < r.value ==> !p(s[j])
  {
    if s == [] then None
    else if p(s[0]) then Some(0)
    else
      var rest := FirstWhere(s[1..], p);
      assert forall j :: 1 <= j < |s| ==> s[j] == s[1..][j - 1];
      if rest.None? then None else Some(rest.value + 1)
  }

  /** The rows a `WHERE` clause keeps, in table order. */
  function Select<T>(s: seq<T>, keep: T -> bool): (r: seq<T>)
    ensures |r| <= |s|
    ensures forall x :: x in r ==> x in s && keep(x)
    decreases |s|
  {
    if s == [] then []
    else Select(s[..|s| - 1], keep) + (if keep(s[|s| - 1]) then [s[|s| - 1]] else [])
  }

  /** A `WHERE` clause every row satisfies keeps the whole table. */
  lemma {:induction false} SelectAll<T>(s: seq<T>, keep: T -> bool)
    requires forall x :: x in s ==> keep(x)
    ensures Select(s, keep) == s
    decreases |s|
  {
    if s != [] {
      var init, last := s[..|s| - 1], s[|s| - 1];
      forall x | x in init ensures keep(x) {
        var i :| 0 <= i < |init| && init[i] == x;
        assert s[i] == x;
      }
      SelectAll(init, keep);
      assert keep(s[|s| - 1]);
      assert init + [last] == s;
    }
  }

  /** A `WHERE` clause filters a table piece by piece: the rows kept from `a + b` are
      those kept from `a` followed by those kept from `b`. */
  lemma {:induction false} SelectAppend<T>(a: seq<T>, b: seq<T>, keep: T -> bool)
    ensures Select(a + b, keep) == Select(a, keep) + Select(b, keep)
    decreases |b|
  {
    if b == [] {
      assert a + b == a;
    } else {
      var init, last := b[..|b| - 1], b[|b| - 1];
      assert (a + b)[..|a + b| - 1] == a + init && (a + b)[|a + b| - 1] == last;
      SelectAppend(a, init, keep);
    }
  }

  /** A one-row table keeps its row exactly when the row satisfies the clause. */
  lemma SelectSingle<T>(x: T, keep: T -> bool)
    ensures Select([x], keep) == if keep(x) then [x] else []
  {
    assert [x][..0] == [];
  }

  /** No kept row is lost. */
  lemma {:induction false} SelectComplete<T>(s: seq<T>, keep: T -> bool, x: T)
    requires x in s && keep(x)
    ensures x in Select(s, keep)
    decreases |s|
  {
    if x != s[|s| - 1] {
      assert s == s[..|s| - 1] + [s[|s| - 1]];
      SelectComplete(s[..|s| - 1], keep, x);
    }
  }

  ghost predicate StrictlyIncreasing<T>(s: seq<T>, key: T -> int)
  {
    forall i, j :: 0 <= i < j < |s| ==> key(s[i]) < key(s[j])
  }

  /** A `WHERE` clause keeps the table's timestamp order. */
  lemma {:induction false} SelectIncreasing<T>(s: seq<T>, keep: T -> bool, key: T -> int)
    requires StrictlyIncreasing(s, key)
    ensures StrictlyIncreasing(Select(s, keep), key)
    decreases |s|
  {
    if s != [] {
      var init := s[..|s| - 1];
      var last := s[|s| - 1];
      assert StrictlyIncreasing(init, key) by {
        forall i, j | 0 <= i < j < |init| ensures key(init[i]) < key(init[j]) {
          assert init[i] == s[i] && init[j] == s[j];
        }
      }
      SelectIncreasing(init, keep, key);
      var r0 := Select(init, keep);
      if keep(last) {
        forall i | 0 <= i < |r0| ensures key(r0[i]) < key(last) {
          assert r0[i] in init;
          var p :| 0 <= p < |init| && init[p] == r0[i];
          assert s[p] == r0[i];
        }
      }
    }
  }

  /** `ORDER BY timestamp DESC LIMIT n` over rows in increasing timestamp order: the result
      is in strictly decreasing timestamp order, and a row left out is older than every row
      returned; when fewer than `n` rows come back, no row was left out. */
  lemma NewestFirstOrder<T>(s: seq<T>, limit: int, key: T -> int)
    requires StrictlyIncreasing(s, key)
    ensures var r := NewestFirst(s, limit);
      && (forall i, j :: 0 <= i < j < |r| ==> key(r[i]) > key(r[j]))
      && (forall x :: x in s && x !in r ==> forall i :: 0 <= i < |r| ==> key(x) < key(r[i]))
      && ((limit < 0 || |r| < limit) ==> forall x :: x in s ==> x in r)
      && (forall x :: x in r ==> x in s)
  {
    var r := NewestFirst(s, limit);
    forall x | x in s && x !in r
      ensures forall i :: 0 <= i < |r| ==> key(x) < key(r[i])
    {
      var p :| 0 <= p < |s| && s[p] == x;
      assert forall q :: |s| - |r| <= q < |s| ==> r[|s| - 1 - q] == s[q];
      assert p < |s| - |r|;
    }
    forall x | x in r ensures x in s {
      var i :| 0 <= i < |r| && r[i] == x;
    }
    if limit < 0 || |r| < limit {
      forall x | x in s ensures x in r {
        var p :| 0 <= p < |s| && s[p] == x;
        assert r[|s| - 1 - p] == x;
      }
    }
  }

  /** `SELECT ... WHERE keep ORDER BY key DESC LIMIT n` over a table in insertion order. */
  function Query<T>(s: seq<T>, keep: T -> bool, limit: int): seq<T>
  {
    NewestFirst(Select(s, keep), limit)
  }

  /** What a query returns from a table whose keys increase with insertion: at most `n`
      kept rows, newest first, every kept row that is left out older than every row
      returned, and no kept row left out when fewer than `n` come back. */
  lemma {:induction false} QueryProperties<T>(s: seq<T>, keep: T -> bool, key: T -> int, limit: int)
    requires StrictlyIncreasing(s, key)
    ensures var r := Query(s, keep, limit);
      && |r| <= |s|
      && (limit >= 0 ==> |r| <= limit)
      && (forall x :: x in r ==> x in s && keep(x))
      && (forall i, j :: 0 <= i < j < |r| ==> key(r[i]) > key(r[j]))
      && (forall x :: x in s && keep(x) && x !in r ==> forall i :: 0 <= i < |r| ==> key(x) < key(r[i]))
      && ((limit < 0 || |r| < limit) ==> forall x :: x in s && keep(x) ==> x in r)
  {
    var matching := Select(s, keep);
    SelectIncreasing(s, keep, key);
    NewestFirstOrder(matching, limit, key);
    forall x | x in s && keep(x) ensures x in matching {
      SelectComplete(s, keep, x);
    }
  }
}
