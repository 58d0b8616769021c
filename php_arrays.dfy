/**
 * The PHP array operations the query builder performs on decoded JSON:
 * `$a[$k] = $v`, `$a[] = $v`, reading `$a[$k]` and `array_merge`.
 */
module PhpArrays {
  import opened Wrappers
  import opened Php

  /** The index of the last entry with key `k`. PHP arrays hold each key once, so this is the entry of `k`. */
  function KeyIndex(a: PhpArray, k: Key): (r: Option<nat>)
    ensures r.Some? ==> r.value < |a| && a[r.value].0 == k && forall j :: r.value < j < |a| ==> a[j].0 != k
    ensures r.None? ==> forall j :: 0 <= j < |a| ==> a[j].0 != k
    decreases |a|
  {
    if a == [] then None
    else if a[|a| - 1].0 == k then Some(|a| - 1)
    else KeyIndex(a[..|a| - 1], k)
  }

  /** `$a[$k]`, or null for an absent key. */
  function Lookup(a: PhpArray, k: Key): Option<Json> {
    match KeyIndex(a, k)
    case None => None
    case Some(j) => Some(a[j].1)
  }

  /** `$a[$k] = $v`: an existing key keeps its place and takes the new value; a new key goes last. */
  function ArraySet(a: PhpArray, k: Key, v: Json): PhpArray {
    match KeyIndex(a, k)
    case None => a + [(k, v)]
    case Some(j) => a[j := (k, v)]
  }

  /** The key `$a[] = $v` uses: one more than the greatest integer key, and 0 when there is none. */
  function NextIndex(a: PhpArray): nat
    decreases |a|
  {
    if a == [] then 0
    else
      var n := NextIndex(a[..|a| - 1]);
      match a[|a| - 1].0
      case IntKey(m) => if m >= n then m + 1 else n
      case StrKey(_) => n
  }

  /** `$a[] = $v`. */
  function ArrayPush(a: PhpArray, v: Json): PhpArray {
    a + [(IntKey(NextIndex(a)), v)]
  }

  /** The PHP list holding `vs`, keys 0, 1, 2, ... */
  function ListOf(vs: seq<Json>): PhpArray {
    seq(|vs|, i requires 0 <= i < |vs| => (IntKey(i), vs[i]))
  }

  /** The values under integer keys, in order. */
  function IntValues(a: PhpArray): seq<Json>
    decreases |a|
  {
    if a == [] then []
    else IntValues(a[..|a| - 1]) + (if a[|a| - 1].0.IntKey? then [a[|a| - 1].1] else [])
  }

  /** One entry of an `array_merge` argument: an integer key is renumbered by pushing, a string key is set. */
  function MergeEntry(acc: PhpArray, e: (Key, Json)): PhpArray {
    match e.0
    case IntKey(_) => ArrayPush(acc, e.1)
    case StrKey(_) => ArraySet(acc, e.0, e.1)
  }

  /** The entries of `xs` merged into `acc`, in order. */
  function MergeInto(acc: PhpArray, xs: PhpArray): PhpArray
    decreases |xs|
  {
    if xs == [] then acc else MergeEntry(MergeInto(acc, xs[..|xs| - 1]), xs[|xs| - 1])
  }

  /** `array_merge(...$arrays)`. */
  function ArrayMerge(arrays: seq<PhpArray>): PhpArray
    decreases |arrays|
  {
    if arrays == [] then [] else MergeInto(ArrayMerge(arrays[..|arrays| - 1]), arrays[|arrays| - 1])
  }

  // ---------------------------------------------------------------------------
  // Properties of the primitives
  // ---------------------------------------------------------------------------

  lemma LookupSnoc(a: PhpArray, e: (Key, Json), k: Key)
    ensures Lookup(a + [e], k) == if e.0 == k then Some(e.1) else Lookup(a, k)
  {
    assert (a + [e])[..|a|] == a;
  }

  /** After `$a[$k] = $v`, `$a[$k]` is `$v` and every other key reads as before. */
  lemma LookupSet(a: PhpArray, k: Key, v: Json, k': Key)
    ensures Lookup(ArraySet(a, k, v), k') == if k' == k then Some(v) else Lookup(a, k')
  {
    match KeyIndex(a, k)
    case None => LookupSnoc(a, (k, v), k');
    case Some(j) =>
      var b := a[j := (k, v)];
      assert b[j].0 == k;
      assert forall i :: 0 <= i < |a| && i != j ==> b[i] == a[i];
  }

  /** `$a[] = $v` leaves every string key as it was. */
  lemma LookupPush(a: PhpArray, v: Json, s: string)
    ensures Lookup(ArrayPush(a, v), StrKey(s)) == Lookup(a, StrKey(s))
  {
    LookupSnoc(a, (IntKey(NextIndex(a)), v), StrKey(s));
  }

  /** Pushing onto a list appends to it. */
  lemma {:induction false} ListPush(vs: seq<Json>, v: Json)
    ensures NextIndex(ListOf(vs)) == |vs|
    ensures ArrayPush(ListOf(vs), v) == ListOf(vs + [v])
    decreases |vs|
  {
    if vs != [] {
      var init := vs[..|vs| - 1];
      ListPush(init, vs[|vs| - 1]);
      assert ListOf(vs)[..|vs| - 1] == ListOf(init);
    }
  }

  lemma {:induction false} IntValuesUpdate(a: PhpArray, j: nat, e: (Key, Json))
    requires j < |a| && a[j].0.StrKey? && e.0.StrKey?
    ensures IntValues(a[j := e]) == IntValues(a)
    decreases |a|
  {
    var b := a[j := e];
    if j < |a| - 1 {
      assert b[..|b| - 1] == a[..|a| - 1][j := e];
      IntValuesUpdate(a[..|a| - 1], j, e);
    } else {
      assert b[..|b| - 1] == a[..|a| - 1];
    }
  }

  /** Setting a string key leaves the integer-keyed values as they were. */
  lemma IntValuesSet(a: PhpArray, s: string, v: Json)
    ensures IntValues(ArraySet(a, StrKey(s), v)) == IntValues(a)
  {
    match KeyIndex(a, StrKey(s))
    case None => assert (a + [(StrKey(s), v)])[..|a|] == a;
    case Some(j) => IntValuesUpdate(a, j, (StrKey(s), v));
  }

  /**
   * Merging `xs` into `acc`: a string key reads as its value in `xs` when `xs`
   * has it (the later argument wins), and as its value in `acc` otherwise.
   */
  lemma {:induction false} MergeIntoLookup(acc: PhpArray, xs: PhpArray, s: string)
    ensures Lookup(MergeInto(acc, xs), StrKey(s)) ==
      if Lookup(xs, StrKey(s)).Some? then Lookup(xs, StrKey(s)) else Lookup(acc, StrKey(s))
    decreases |xs|
  {
    if xs != [] {
      var init, e := xs[..|xs| - 1], xs[|xs| - 1];
      assert xs == init + [e];
      MergeIntoLookup(acc, init, s);
      LookupSnoc(init, e, StrKey(s));
      match e.0
      case IntKey(_) => LookupPush(MergeInto(acc, init), e.1, s);
      case StrKey(_) => LookupSet(MergeInto(acc, init), e.0, e.1, StrKey(s));
    }
  }

  /** Merging `xs` into `acc` appends the integer-keyed values of `xs`, in order. */
  lemma {:induction false} MergeIntoIntValues(acc: PhpArray, xs: PhpArray)
    ensures IntValues(MergeInto(acc, xs)) == IntValues(acc) + IntValues(xs)
    decreases |xs|
  {
    if xs != [] {
      var init, e := xs[..|xs| - 1], xs[|xs| - 1];
      var m := MergeInto(acc, init);
      MergeIntoIntValues(acc, init);
      match e.0
      case IntKey(_) =>
        assert ArrayPush(m, e.1)[..|m|] == m;
      case StrKey(s) =>
        IntValuesSet(m, s, e.1);
    }
  }

  lemma MergeOfThreeUnfold(a: PhpArray, b: PhpArray, c: PhpArray)
    ensures ArrayMerge([a, b, c]) == MergeInto(MergeInto(MergeInto([], a), b), c)
  {
    assert [a][..0] == [];
    assert ArrayMerge([a]) == MergeInto([], a);
    assert [a, b][..1] == [a];
    assert ArrayMerge([a, b]) == MergeInto(ArrayMerge([a]), b);
    assert [a, b, c][..2] == [a, b];
  }

  /**
   * `array_merge($a, $b, $c)`: a string key is present exactly when one of the
   * arguments has it, and then reads as in the last argument that has it.
   */
  lemma MergeOfThreeLookup(a: PhpArray, b: PhpArray, c: PhpArray, s: string)
    ensures Lookup(ArrayMerge([a, b, c]), StrKey(s)).Some? <==>
      Lookup(a, StrKey(s)).Some? || Lookup(b, StrKey(s)).Some? || Lookup(c, StrKey(s)).Some?
    ensures Lookup(ArrayMerge([a, b, c]), StrKey(s)) ==
      if Lookup(c, StrKey(s)).Some? then Lookup(c, StrKey(s))
      else if Lookup(b, StrKey(s)).Some? then Lookup(b, StrKey(s))
      else Lookup(a, StrKey(s))
  {
    var ma := MergeInto([], a);
    var mb := MergeInto(ma, b);
    MergeOfThreeUnfold(a, b, c);
    MergeIntoLookup([], a, s);
    MergeIntoLookup(ma, b, s);
    MergeIntoLookup(mb, c, s);
    assert Lookup([], StrKey(s)) == None;
  }

  /** `array_merge($a, $b, $c)` renumbers the integer-keyed values of the arguments one after the other. */
  lemma MergeOfThreeIntValues(a: PhpArray, b: PhpArray, c: PhpArray)
    ensures IntValues(ArrayMerge([a, b, c])) == IntValues(a) + IntValues(b) + IntValues(c)
  {
    var ma := MergeInto([], a);
    var mb := MergeInto(ma, b);
    MergeOfThreeUnfold(a, b, c);
    var none: PhpArray := [];
    assert IntValues(none) == [];
    MergeIntoIntValues(none, a);
    assert IntValues(ma) == IntValues(a);
    MergeIntoIntValues(ma, b);
    MergeIntoIntValues(mb, c);
  }

  /** Reading a key of `a + b`: the entry in `b` when `b` has the key, the entry in `a` otherwise. */
  lemma {:induction false} LookupAppend(a: PhpArray, b: PhpArray, k: Key)
    ensures Lookup(a + b, k) == if Lookup(b, k).Some? then Lookup(b, k) else Lookup(a, k)
    decreases |b|
  {
    if b == [] {
      assert a + b == a;
    } else {
      var init, e := b[..|b| - 1], b[|b| - 1];
      assert a + b == (a + init) + [e];
      assert b == init + [e];
      LookupAppend(a, init, k);
      LookupSnoc(a + init, e, k);
      LookupSnoc(init, e, k);
    }
  }

  /** The keys of `a`, in order. */
  function KeysOf(a: PhpArray): seq<Key> {
    seq(|a|, i requires 0 <= i < |a| => a[i].0)
  }
}
