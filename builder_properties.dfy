/**
 * What the query builder promises about the query it returns: which keys
 * appear and when, the order of the sort fragments, `from` and `size` as
 * given, `aggs` as the merge of three fragments, and no partial query when a
 * fragment fails.
 */
module BuilderProperties {
  import opened Wrappers
  import opened Php
  import opened PhpArrays
  import opened Collections
  import opened Builder

  // ---------------------------------------------------------------------------
  // The assembled array
  // ---------------------------------------------------------------------------

  lemma LookupSingle(k: Key, v: Json, k': Key)
    ensures Lookup([(k, v)], k') == if k == k' then Some(v) else None
  {
    assert [(k, v)][..0] == [];
  }

  /** Each optional part holds at most one entry, under its own key. */
  lemma LookupParts(k: Key, q: PhpArray, sp: PhpArray, fp: PhpArray, zp: PhpArray, ap: PhpArray)
    requires |q| == 1 && q[0].0 == StrKey("query")
    requires sp == [] || (|sp| == 1 && sp[0].0 == StrKey("sort"))
    requires fp == [] || (|fp| == 1 && fp[0].0 == StrKey("from"))
    requires zp == [] || (|zp| == 1 && zp[0].0 == StrKey("size"))
    requires ap == [] || (|ap| == 1 && ap[0].0 == StrKey("aggs"))
    ensures Lookup(q + sp + fp + zp + ap, k) ==
      if ap != [] && k == StrKey("aggs") then Some(ap[0].1)
      else if zp != [] && k == StrKey("size") then Some(zp[0].1)
      else if fp != [] && k == StrKey("from") then Some(fp[0].1)
      else if sp != [] && k == StrKey("sort") then Some(sp[0].1)
      else if k == StrKey("query") then Some(q[0].1)
      else None
  {
    assert q == [q[0]];
    LookupSingle(q[0].0, q[0].1, k);
    if sp != [] { assert sp == [sp[0]]; LookupSingle(sp[0].0, sp[0].1, k); }
    if fp != [] { assert fp == [fp[0]]; LookupSingle(fp[0].0, fp[0].1, k); }
    if zp != [] { assert zp == [zp[0]]; LookupSingle(zp[0].0, zp[0].1, k); }
    if ap != [] { assert ap == [ap[0]]; LookupSingle(ap[0].0, ap[0].1, k); }
    LookupAppend(q + sp + fp + zp, ap, k);
    LookupAppend(q + sp + fp, zp, k);
    LookupAppend(q + sp, fp, k);
    LookupAppend(q, sp, k);
  }

  /**
   * Reading the assembled array: `query` is the base fragment, `sort` the
   * list of sort fragments when there is one, `from` and `size` the values
   * given, each independently of the other, `aggs` the aggregations, and any
   * other key is absent.
   */
  lemma AssembledEntries(q: Json, sorts: seq<Json>, from: Option<int>, size: Option<int>, aggs: Option<PhpArray>, k: Key)
    ensures Lookup(Assembled(q, sorts, from, size, aggs), k) ==
      if k == StrKey("query") then Some(q)
      else if k == StrKey("sort") then (if sorts != [] then Some(Arr(ListOf(sorts))) else None)
      else if k == StrKey("from") then (if from.Some? then Some(Int(from.value)) else None)
      else if k == StrKey("size") then (if size.Some? then Some(Int(size.value)) else None)
      else if k == StrKey("aggs") then (if aggs.Some? then Some(Arr(aggs.value)) else None)
      else None
  {
    LookupParts(k, [(StrKey("query"), q)], SortPart(sorts), IntPart("from", from), IntPart("size", size), AggsPart(aggs));
  }

  /** The keys of the assembled array, in order. */
  lemma AssembledKeys(q: Json, sorts: seq<Json>, from: Option<int>, size: Option<int>, aggs: Option<PhpArray>)
    ensures KeysOf(Assembled(q, sorts, from, size, aggs)) ==
      [StrKey("query")]
      + (if sorts != [] then [StrKey("sort")] else [])
      + (if from.Some? then [StrKey("from")] else [])
      + (if size.Some? then [StrKey("size")] else [])
      + (if aggs.Some? then [StrKey("aggs")] else [])
  {
  }

  // ---------------------------------------------------------------------------
  // The built query
  // ---------------------------------------------------------------------------

  /**
   * A successful build: the base fragment, every sort fragment (one per
   * `(field, order)` pair, in the caller's order) and, when asked for, the
   * aggregations decoded, assembled in that order.
   */
  lemma QueryShape(render: RenderDecode, subject: Subject, localeCode: string, filters: PhpArray,
                   from: Option<int>, size: Option<int>, sorting: Option<Sorting>, withAggregates: bool)
    requires QueryOf(render, subject, localeCode, filters, from, size, sorting, withAggregates).Ok?
    ensures render(QueryTemplate(subject), QueryParams(subject, filters, localeCode)).Some?
    ensures SortsOf(render, subject, localeCode, sorting).Ok?
    ensures var sorts := SortsOf(render, subject, localeCode, sorting).value;
      && (sorting.None? ==> sorts == [])
      && (sorting.Some? ==>
            && |sorts| == |sorting.value|
            && forall i :: 0 <= i < |sorts| ==>
                 var (field, order) := sorting.value[i];
                 render(SortTemplate(subject, field), SortParams(field, order, subject, localeCode)) == Some(sorts[i]))
    ensures withAggregates <==> AggsIf(render, subject, localeCode, withAggregates).value.Some?
    ensures withAggregates ==> AggsOf(render, subject, localeCode) == Ok(AggsIf(render, subject, localeCode, withAggregates).value.value)
    ensures QueryOf(render, subject, localeCode, filters, from, size, sorting, withAggregates).value ==
      Assembled(render(QueryTemplate(subject), QueryParams(subject, filters, localeCode)).value,
                SortsOf(render, subject, localeCode, sorting).value, from, size,
                AggsIf(render, subject, localeCode, withAggregates).value)
  {
    if sorting.Some? {
      TraverseSpec(sorting.value, SortStep(render, subject, localeCode));
    }
  }

  /**
   * The keys of a successful build, in order: `query`; `sort` when at least
   * one `(field, order)` pair was given; `from` and `size` when given;
   * `aggs` when aggregates were asked for; and no other.
   */
  lemma QueryKeys(render: RenderDecode, subject: Subject, localeCode: string, filters: PhpArray,
                  from: Option<int>, size: Option<int>, sorting: Option<Sorting>, withAggregates: bool)
    requires QueryOf(render, subject, localeCode, filters, from, size, sorting, withAggregates).Ok?
    ensures KeysOf(QueryOf(render, subject, localeCode, filters, from, size, sorting, withAggregates).value) ==
      [StrKey("query")]
      + (if sorting.Some? && sorting.value != [] then [StrKey("sort")] else [])
      + (if from.Some? then [StrKey("from")] else [])
      + (if size.Some? then [StrKey("size")] else [])
      + (if withAggregates then [StrKey("aggs")] else [])
  {
    QueryShape(render, subject, localeCode, filters, from, size, sorting, withAggregates);
    var sorts := SortsOf(render, subject, localeCode, sorting).value;
    assert sorts != [] <==> sorting.Some? && sorting.value != [];
    AssembledKeys(render(QueryTemplate(subject), QueryParams(subject, filters, localeCode)).value,
                  sorts, from, size, AggsIf(render, subject, localeCode, withAggregates).value);
  }

  /**
   * Reading a successful build: `query` is the base fragment rendered with
   * the filters given; `sort` is the list of sort fragments when a pair was
   * given; `from` and `size` are the values given, each independently of the
   * other; `aggs` is the merged aggregations when asked for.
   */
  lemma QueryEntries(render: RenderDecode, subject: Subject, localeCode: string, filters: PhpArray,
                     from: Option<int>, size: Option<int>, sorting: Option<Sorting>, withAggregates: bool)
    requires QueryOf(render, subject, localeCode, filters, from, size, sorting, withAggregates).Ok?
    ensures var r := QueryOf(render, subject, localeCode, filters, from, size, sorting, withAggregates).value;
      && Lookup(r, StrKey("query")) == render(QueryTemplate(subject), QueryParams(subject, filters, localeCode))
      && Lookup(r, StrKey("sort")) ==
           (if sorting.Some? && sorting.value != [] then Some(Arr(ListOf(SortsOf(render, subject, localeCode, sorting).value))) else None)
      && Lookup(r, StrKey("from")) == (if from.Some? then Some(Int(from.value)) else None)
      && Lookup(r, StrKey("size")) == (if size.Some? then Some(Int(size.value)) else None)
      && Lookup(r, StrKey("aggs")) == (if withAggregates then Some(Arr(AggsOf(render, subject, localeCode).value)) else None)
  {
    QueryShape(render, subject, localeCode, filters, from, size, sorting, withAggregates);
    var q := render(QueryTemplate(subject), QueryParams(subject, filters, localeCode)).value;
    var sorts := SortsOf(render, subject, localeCode, sorting).value;
    var aggs := AggsIf(render, subject, localeCode, withAggregates).value;
    AssembledEntries(q, sorts, from, size, aggs, StrKey("query"));
    AssembledEntries(q, sorts, from, size, aggs, StrKey("sort"));
    AssembledEntries(q, sorts, from, size, aggs, StrKey("from"));
    AssembledEntries(q, sorts, from, size, aggs, StrKey("size"));
    AssembledEntries(q, sorts, from, size, aggs, StrKey("aggs"));
  }

  /**
   * The aggregations: the three fragments decode to arrays, and a string key
   * of the merge reads as in the options fragment when it has the key, else as
   * in the translated-attributes fragment, else as in the attributes fragment;
   * integer-keyed entries of the three are kept one after the other.
   */
  lemma AggsKeyUnion(render: RenderDecode, subject: Subject, localeCode: string, s: string)
    requires AggsOf(render, subject, localeCode).Ok?
    ensures var attributes := render(AggsTemplate(subject, ATTRIBUTES), AggsParams(subject, localeCode));
      var translated := render(AggsTemplate(subject, TRANSLATED_ATTRIBUTES), AggsParams(subject, localeCode));
      var options := render(AggsTemplate(subject, OPTIONS), AggsParams(subject, localeCode));
      var m := AggsOf(render, subject, localeCode).value;
      && attributes.Some? && attributes.value.Arr?
      && translated.Some? && translated.value.Arr?
      && options.Some? && options.value.Arr?
      && Lookup(m, StrKey(s)) ==
           (if Lookup(options.value.entries, StrKey(s)).Some? then Lookup(options.value.entries, StrKey(s))
            else if Lookup(translated.value.entries, StrKey(s)).Some? then Lookup(translated.value.entries, StrKey(s))
            else Lookup(attributes.value.entries, StrKey(s)))
      && IntValues(m) == IntValues(attributes.value.entries) + IntValues(translated.value.entries) + IntValues(options.value.entries)
  {
    var a := render(AggsTemplate(subject, ATTRIBUTES), AggsParams(subject, localeCode)).value.entries;
    var b := render(AggsTemplate(subject, TRANSLATED_ATTRIBUTES), AggsParams(subject, localeCode)).value.entries;
    var c := render(AggsTemplate(subject, OPTIONS), AggsParams(subject, localeCode)).value.entries;
    assert AggsOf(render, subject, localeCode).value == ArrayMerge([a, b, c]);
    MergeOfThreeLookup(a, b, c, s);
    MergeOfThreeIntValues(a, b, c);
  }

  /**
   * No partial query: a build succeeds exactly when the base fragment, every
   * sort fragment and, when asked for, the three aggregation fragments decode,
   * the latter to arrays.
   */
  lemma BuildSucceedsIff(render: RenderDecode, subject: Subject, localeCode: string, filters: PhpArray,
                         from: Option<int>, size: Option<int>, sorting: Option<Sorting>, withAggregates: bool)
    ensures QueryOf(render, subject, localeCode, filters, from, size, sorting, withAggregates).Ok? <==>
      && render(QueryTemplate(subject), QueryParams(subject, filters, localeCode)).Some?
      && (sorting.Some? ==> forall i :: 0 <= i < |sorting.value| ==>
            render(SortTemplate(subject, sorting.value[i].0),
                   SortParams(sorting.value[i].0, sorting.value[i].1, subject, localeCode)).Some?)
      && (withAggregates ==>
            && AggsRendered(render, subject, localeCode, ATTRIBUTES)
            && AggsRendered(render, subject, localeCode, TRANSLATED_ATTRIBUTES)
            && AggsRendered(render, subject, localeCode, OPTIONS))
  {
    if sorting.Some? {
      TraverseSpec(sorting.value, SortStep(render, subject, localeCode));
    }
  }

  /** An aggregation fragment that renders and decodes to an array. */
  predicate AggsRendered(render: RenderDecode, subject: Subject, localeCode: string, name: string) {
    var json := render(AggsTemplate(subject, name), AggsParams(subject, localeCode));
    json.Some? && json.value.Arr?
  }

  /**
   * The failure reported is the first in build order: the base fragment, then
   * the sort fragments in the caller's order.
   */
  lemma FirstFailureReported(render: RenderDecode, subject: Subject, localeCode: string, filters: PhpArray,
                             from: Option<int>, size: Option<int>, sorting: Option<Sorting>, withAggregates: bool, i: nat)
    ensures render(QueryTemplate(subject), QueryParams(subject, filters, localeCode)).None? ==>
      QueryOf(render, subject, localeCode, filters, from, size, sorting, withAggregates) == Err(Fragment(QueryTemplate(subject)))
    ensures (&& render(QueryTemplate(subject), QueryParams(subject, filters, localeCode)).Some?
             && sorting.Some? && i < |sorting.value|
             && render(SortTemplate(subject, sorting.value[i].0),
                       SortParams(sorting.value[i].0, sorting.value[i].1, subject, localeCode)).None?
             && forall j :: 0 <= j < i ==>
                  render(SortTemplate(subject, sorting.value[j].0),
                         SortParams(sorting.value[j].0, sorting.value[j].1, subject, localeCode)).Some?) ==>
      QueryOf(render, subject, localeCode, filters, from, size, sorting, withAggregates) ==
        Err(Fragment(SortTemplate(subject, sorting.value[i].0)))
  {
    if && render(QueryTemplate(subject), QueryParams(subject, filters, localeCode)).Some?
       && sorting.Some? && i < |sorting.value|
       && render(SortTemplate(subject, sorting.value[i].0),
                 SortParams(sorting.value[i].0, sorting.value[i].1, subject, localeCode)).None?
       && forall j :: 0 <= j < i ==>
            render(SortTemplate(subject, sorting.value[j].0),
                   SortParams(sorting.value[j].0, sorting.value[j].1, subject, localeCode)).Some?
    {
      TraverseFirstError(sorting.value, SortStep(render, subject, localeCode), i);
    }
  }
}
