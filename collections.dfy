/**
 * Sequence operations shared by the normaliser, the parser and the query
 * builder: the ordered "group by key" that PHP code writes with
 * `$groups[$key][] = $x`, and the all-or-first-error traversal that a
 * `foreach` whose body may throw performs.
 */
module Collections {
  import opened Wrappers

  /** The distinct keys of `xs`, in the order in which they first occur. */
  function FirstSeen<T, K(==)>(xs: seq<T>, key: T -> K): seq<K>
    decreases |xs|
  {
    if xs == [] then []
    else
      var ks := FirstSeen(xs[..|xs| - 1], key);
      if key(xs[|xs| - 1]) in ks then ks else ks + [key(xs[|xs| - 1])]
  }

  /** The elements of `xs` whose key is `k`, in their order in `xs`. */
  function Select<T, K(==)>(xs: seq<T>, key: T -> K, k: K): seq<T>
    decreases |xs|
  {
    if xs == [] then []
    else Select(xs[..|xs| - 1], key, k) + (if key(xs[|xs| - 1]) == k then [xs[|xs| - 1]] else [])
  }

  /** The summed sizes of the groups of `xs` named by `ks`. */
  function GroupSizes<T, K(==)>(xs: seq<T>, key: T -> K, ks: seq<K>): nat
    decreases |ks|
  {
    if ks == [] then 0 else GroupSizes(xs, key, ks[..|ks| - 1]) + |Select(xs, key, ks[|ks| - 1])|
  }

  predicate Distinct<K(==)>(ks: seq<K>) {
    forall i, j :: 0 <= i < j < |ks| ==> ks[i] != ks[j]
  }

  lemma {:induction false} SelectSnoc<T, K>(xs: seq<T>, x: T, key: T -> K, k: K)
    ensures Select(xs + [x], key, k) == Select(xs, key, k) + (if key(x) == k then [x] else [])
  {
    assert (xs + [x])[..|xs|] == xs;
  }

  lemma {:induction false} FirstSeenSnoc<T, K>(xs: seq<T>, x: T, key: T -> K)
    ensures FirstSeen(xs + [x], key) ==
      (if key(x) in FirstSeen(xs, key) then FirstSeen(xs, key) else FirstSeen(xs, key) + [key(x)])
  {
    assert (xs + [x])[..|xs|] == xs;
  }

  /** A key names a group exactly when some element has it. */
  lemma {:induction false} FirstSeenMembers<T, K>(xs: seq<T>, key: T -> K, k: K)
    ensures k in FirstSeen(xs, key) <==> exists i :: 0 <= i < |xs| && key(xs[i]) == k
  {
    if xs != [] {
      var ys := xs[..|xs| - 1];
      FirstSeenMembers(ys, key, k);
      if k in FirstSeen(xs, key) && k !in FirstSeen(ys, key) {
        assert key(xs[|xs| - 1]) == k;
      }
      if exists i :: 0 <= i < |ys| && key(ys[i]) == k {
        var i :| 0 <= i < |ys| && key(ys[i]) == k;
        assert key(xs[i]) == k;
      }
    }
  }

  /** No key names two groups. */
  lemma {:induction false} FirstSeenDistinct<T, K>(xs: seq<T>, key: T -> K)
    ensures Distinct(FirstSeen(xs, key))
  {
    if xs != [] {
      FirstSeenDistinct(xs[..|xs| - 1], key);
    }
  }

  /** The group of a key holds exactly the elements with that key, in order, and is empty when no element has it. */
  lemma {:induction false} SelectMembers<T, K>(xs: seq<T>, key: T -> K, k: K)
    ensures forall x :: x in Select(xs, key, k) <==> x in xs && key(x) == k
    ensures |Select(xs, key, k)| > 0 <==> k in FirstSeen(xs, key)
  {
    FirstSeenMembers(xs, key, k);
    if xs != [] {
      var ys, x := xs[..|xs| - 1], xs[|xs| - 1];
      assert xs == ys + [x];
      SelectMembers(ys, key, k);
      FirstSeenMembers(ys, key, k);
      if exists i :: 0 <= i < |xs| && key(xs[i]) == k {
        var i :| 0 <= i < |xs| && key(xs[i]) == k;
        if i < |ys| {
          assert key(ys[i]) == k;
        }
      }
    }
  }

  lemma {:induction false} GroupSizesSnoc<T, K>(ys: seq<T>, x: T, key: T -> K, ks: seq<K>)
    requires Distinct(ks)
    ensures GroupSizes(ys + [x], key, ks) == GroupSizes(ys, key, ks) + (if key(x) in ks then 1 else 0)
  {
    if ks != [] {
      var init, k := ks[..|ks| - 1], ks[|ks| - 1];
      assert ks == init + [k];
      GroupSizesSnoc(ys, x, key, init);
      SelectSnoc(ys, x, key, k);
      assert key(x) in ks <==> key(x) in init || key(x) == k;
      assert k !in init;
    }
  }

  /** Grouping loses and duplicates nothing: the group sizes add up to the number of elements. */
  lemma {:induction false} GroupsCoverAll<T, K>(xs: seq<T>, key: T -> K)
    ensures GroupSizes(xs, key, FirstSeen(xs, key)) == |xs|
  {
    if xs != [] {
      var ys, x := xs[..|xs| - 1], xs[|xs| - 1];
      assert xs == ys + [x];
      GroupsCoverAll(ys, key);
      var ks := FirstSeen(ys, key);
      FirstSeenDistinct(ys, key);
      FirstSeenSnoc(ys, x, key);
      GroupSizesSnoc(ys, x, key, ks);
      if key(x) !in ks {
        SelectMembers(ys, key, key(x));
        SelectSnoc(ys, x, key, key(x));
        assert (ks + [key(x)])[..|ks|] == ks;
        calc {
          GroupSizes(xs, key, FirstSeen(xs, key));
          GroupSizes(xs, key, ks + [key(x)]);
          GroupSizes(xs, key, ks) + |Select(xs, key, key(x))|;
          GroupSizes(ys, key, ks) + 1;
        }
      }
    }
  }

  /**
   * Groups come in first-seen order: the key of an earlier group occurs in
   * `xs` before any element of a later group.
   */
  lemma {:induction false} FirstSeenOrder<T, K>(xs: seq<T>, key: T -> K, a: nat, b: nat)
    requires a < b < |FirstSeen(xs, key)|
    ensures exists i :: (0 <= i < |xs| && key(xs[i]) == FirstSeen(xs, key)[a]
                         && forall j :: 0 <= j <= i ==> key(xs[j]) != FirstSeen(xs, key)[b])
  {
    var ys, x := xs[..|xs| - 1], xs[|xs| - 1];
    assert xs == ys + [x];
    var ks := FirstSeen(ys, key);
    FirstSeenSnoc(ys, x, key);
    if b < |ks| {
      FirstSeenOrder(ys, key, a, b);
      var i :| 0 <= i < |ys| && key(ys[i]) == ks[a] && forall j :: 0 <= j <= i ==> key(ys[j]) != ks[b];
      assert key(xs[i]) == FirstSeen(xs, key)[a];
      assert forall j :: 0 <= j <= i ==> xs[j] == ys[j];
    } else {
      FirstSeenMembers(ys, key, ks[a]);
      FirstSeenMembers(ys, key, key(x));
      var i :| 0 <= i < |ys| && key(ys[i]) == ks[a];
      assert key(xs[i]) == FirstSeen(xs, key)[a];
      forall j | 0 <= j <= i ensures key(xs[j]) != FirstSeen(xs, key)[b] {
        assert xs[j] == ys[j];
      }
    }
  }

  /** Splitting by a yes/no key loses and duplicates nothing. */
  lemma {:induction false} SelectPartition<T>(xs: seq<T>, p: T -> bool)
    ensures |Select(xs, p, true)| + |Select(xs, p, false)| == |xs|
  {
    if xs != [] {
      var ys, x := xs[..|xs| - 1], xs[|xs| - 1];
      assert xs == ys + [x];
      SelectPartition(ys, p);
      SelectSnoc(ys, x, p, true);
      SelectSnoc(ys, x, p, false);
      if p(x) {
        assert |Select(xs, p, true)| == |Select(ys, p, true)| + 1;
      } else {
        assert |Select(xs, p, false)| == |Select(ys, p, false)| + 1;
      }
    }
  }

  /**
   * Applies `f` to every element in order: all results when every call
   * succeeds, otherwise the error of the first call that fails.
   */
  function Traverse<T, U, E>(xs: seq<T>, f: T -> Result<U, E>): Result<seq<U>, E>
    decreases |xs|
  {
    if xs == [] then Ok([])
    else
      var init := xs[..|xs| - 1];
      match Traverse(init, f)
      case Err(e) => Err(e)
      case Ok(us) =>
        match f(xs[|xs| - 1])
        case Err(e) => Err(e)
        case Ok(u) => Ok(us + [u])
  }

  /**
   * A traversal succeeds exactly when every call does, and then holds the
   * results in order; otherwise it fails with the error of the first call
   * that fails.
   */
  lemma {:induction false} TraverseSpec<T, U, E>(xs: seq<T>, f: T -> Result<U, E>)
    ensures Traverse(xs, f).Ok? <==> forall i :: 0 <= i < |xs| ==> f(xs[i]).Ok?
    ensures Traverse(xs, f).Ok? ==>
      |Traverse(xs, f).value| == |xs| && forall i :: 0 <= i < |xs| ==> Traverse(xs, f).value[i] == f(xs[i]).value
    ensures Traverse(xs, f).Err? ==>
      exists i :: 0 <= i < |xs| && f(xs[i]) == Err(Traverse(xs, f).error) && forall j :: 0 <= j < i ==> f(xs[j]).Ok?
    decreases |xs|
  {
    if xs != [] {
      var init := xs[..|xs| - 1];
      TraverseSpec(init, f);
      if Traverse(init, f).Err? {
        var i :| 0 <= i < |init| && f(init[i]) == Err(Traverse(init, f).error) && forall j :: 0 <= j < i ==> f(init[j]).Ok?;
        assert f(xs[i]) == Err(Traverse(xs, f).error);
      } else if f(xs[|xs| - 1]).Err? {
        assert forall j :: 0 <= j < |xs| - 1 ==> f(xs[j]).Ok? by {
          forall j | 0 <= j < |xs| - 1 ensures f(xs[j]).Ok? { assert xs[j] == init[j]; }
        }
      } else {
        forall i | 0 <= i < |xs| ensures f(xs[i]).Ok? && Traverse(xs, f).value[i] == f(xs[i]).value {
          if i < |init| { assert xs[i] == init[i]; }
        }
      }
    }
  }

  /** A traversal fails with the error of the first element that fails. */
  lemma TraverseFirstError<T, U, E>(xs: seq<T>, f: T -> Result<U, E>, i: nat)
    requires i < |xs| && f(xs[i]).Err?
    requires forall j :: 0 <= j < i ==> f(xs[j]).Ok?
    ensures Traverse(xs, f) == Err(f(xs[i]).error)
  {
    TraverseSpec(xs, f);
    var r := Traverse(xs, f);
    var k :| 0 <= k < |xs| && f(xs[k]) == Err(r.error) && forall j :: 0 <= j < k ==> f(xs[j]).Ok?;
    assert k == i;
  }

  /** A traversal in which every element succeeds yields the results in order. */
  lemma TraverseAllOk<T, U, E>(xs: seq<T>, f: T -> Result<U, E>, us: seq<U>)
    requires |us| == |xs| && forall i :: 0 <= i < |xs| ==> f(xs[i]) == Ok(us[i])
    ensures Traverse(xs, f) == Ok(us)
  {
    TraverseSpec(xs, f);
    var r := Traverse(xs, f);
    assert r.value == us;
  }
}
