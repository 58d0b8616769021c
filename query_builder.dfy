/**
 * The query builder: assembles the search-engine query for a taxon page or a
 * search from rendered JSON fragments, as src/Builder/TwigQueryBuilder.php
 * does. Rendering a Twig template and decoding its output with `json_decode`
 * is one opaque step, `renderDecode`, whose `None` is a failure (a Twig error
 * or a `JsonException`).
 */
module Builder {
  import opened Wrappers
  import opened Php
  import opened PhpArrays
  import opened Collections
  import opened Catalog

  /** What the query is about: the taxon of a category page or the term of a search. */
  datatype Subject = TaxonSubject(taxon: Taxon) | SearchSubject(searchTerm: string)

  /** The variables a fragment template is rendered with. */
  datatype RenderParams =
    | QueryParams(subject: Subject, filters: PhpArray, localeCode: string)
    | SortParams(field: string, order: string, subject: Subject, localeCode: string)
    | AggsParams(subject: Subject, localeCode: string)

  type RenderDecode = (string, RenderParams) -> Option<Json>

  /** The `(field, order)` pairs of the `sorting` argument, in the caller's order. */
  type Sorting = seq<(string, string)>

  const TEMPLATE_ROOT := "@WebgriffeSyliusElasticsearchPlugin/query/"

  function Directory(subject: Subject): string {
    match subject
    case TaxonSubject(_) => TEMPLATE_ROOT + "taxon/"
    case SearchSubject(_) => TEMPLATE_ROOT + "search/"
  }

  function QueryTemplate(subject: Subject): string {
    Directory(subject) + "query.json.twig"
  }

  function SortTemplate(subject: Subject, field: string): string {
    Directory(subject) + "sort/" + field + ".json.twig"
  }

  function AggsTemplate(subject: Subject, name: string): string {
    Directory(subject) + "aggs/" + name + ".json.twig"
  }

  const ATTRIBUTES := "attributes"
  const TRANSLATED_ATTRIBUTES := "translated-attributes"
  const OPTIONS := "options"

  /** Renders and decodes one fragment; the failure names the template. */
  function Decoded(render: RenderDecode, template: string, params: RenderParams): (r: Result<Json, Error>)
    ensures render(template, params).None? <==> r == Err(Fragment(template))
    ensures render(template, params).Some? ==> r == Ok(render(template, params).value)
  {
    match render(template, params)
    case None => Err(Fragment(template))
    case Some(json) => Ok(json)
  }

  /** The sort fragment of one `(field, order)` pair. */
  function SortStep(render: RenderDecode, subject: Subject, localeCode: string): ((string, string)) -> Result<Json, Error> {
    (entry: (string, string)) => Decoded(render, SortTemplate(subject, entry.0), SortParams(entry.0, entry.1, subject, localeCode))
  }

  /** An aggregation fragment as an `array_merge` argument: a decoded value that is not an array is a type error. */
  function AsArray(json: Json): Result<PhpArray, Error> {
    match json
    case Arr(entries) => Ok(entries)
    case _ => Err(TypeMismatch(MERGE_ARGUMENT_NOT_ARRAY))
  }

  /**
   * The `aggs` entry: the attribute, translated-attribute and option
   * aggregation fragments, decoded in that order and merged with `array_merge`.
   */
  function AggsOf(render: RenderDecode, subject: Subject, localeCode: string): Result<PhpArray, Error> {
    var attributes :- Decoded(render, AggsTemplate(subject, ATTRIBUTES), AggsParams(subject, localeCode));
    var translated :- Decoded(render, AggsTemplate(subject, TRANSLATED_ATTRIBUTES), AggsParams(subject, localeCode));
    var options :- Decoded(render, AggsTemplate(subject, OPTIONS), AggsParams(subject, localeCode));
    var a :- AsArray(attributes);
    var b :- AsArray(translated);
    var c :- AsArray(options);
    Ok(ArrayMerge([a, b, c]))
  }

  /** The `sort` entry when sort fragments were added, none otherwise. */
  function SortPart(sorts: seq<Json>): PhpArray {
    if sorts == [] then [] else [(StrKey("sort"), Arr(ListOf(sorts)))]
  }

  function IntPart(name: string, n: Option<int>): PhpArray {
    if n.Some? then [(StrKey(name), Int(n.value))] else []
  }

  function AggsPart(aggs: Option<PhpArray>): PhpArray {
    if aggs.Some? then [(StrKey("aggs"), Arr(aggs.value))] else []
  }

  /** The query array built from its decoded parts: `query`, then `sort`, `from`, `size` and `aggs` when they apply. */
  function Assembled(query: Json, sorts: seq<Json>, from: Option<int>, size: Option<int>, aggs: Option<PhpArray>): PhpArray {
    [(StrKey("query"), query)] + SortPart(sorts) + IntPart("from", from) + IntPart("size", size) + AggsPart(aggs)
  }

  /** The decoded sort fragments, in the caller's order, when every one of them decodes. */
  function SortsOf(render: RenderDecode, subject: Subject, localeCode: string, sorting: Option<Sorting>): Result<seq<Json>, Error> {
    if sorting.Some? then Traverse(sorting.value, SortStep(render, subject, localeCode)) else Ok([])
  }

  /** The merged aggregations when they are asked for. */
  function AggsIf(render: RenderDecode, subject: Subject, localeCode: string, withAggregates: bool): Result<Option<PhpArray>, Error> {
    if withAggregates then
      var aggs :- AggsOf(render, subject, localeCode);
      Ok(Some(aggs))
    else Ok(None)
  }

  /**
   * The query `buildTaxonQuery` and `buildSearchQuery` return, or the first
   * failure. `filters` is the filter array the base query is rendered with.
   */
  function QueryOf(render: RenderDecode, subject: Subject, localeCode: string, filters: PhpArray,
                   from: Option<int>, size: Option<int>, sorting: Option<Sorting>, withAggregates: bool): Result<PhpArray, Error>
  {
    var query :- Decoded(render, QueryTemplate(subject), QueryParams(subject, filters, localeCode));
    var sorts :- SortsOf(render, subject, localeCode, sorting);
    var aggs :- AggsIf(render, subject, localeCode, withAggregates);
    Ok(Assembled(query, sorts, from, size, aggs))
  }

  /** Setting a key the array does not hold appends it. */
  lemma SetNewKey(a: PhpArray, k: Key, v: Json)
    requires forall e :: e in a ==> e.0 != k
    ensures ArraySet(a, k, v) == a + [(k, v)]
  {
  }

  /** `$query['sort'][] = $v`: the `sort` entry, opened on first use, becomes the list of all sort fragments so far. */
  lemma SortAppend(query: PhpArray, sorts: seq<Json>, v: Json)
    requires forall e :: e in query ==> e.0 != StrKey("sort")
    ensures ArraySet(query + SortPart(sorts), StrKey("sort"), Arr(ListOf(sorts + [v]))) == query + SortPart(sorts + [v])
  {
    var entry := (StrKey("sort"), Arr(ListOf(sorts + [v])));
    if sorts == [] {
      assert query + SortPart(sorts) == query;
      SetNewKey(query, StrKey("sort"), Arr(ListOf(sorts + [v])));
    } else {
      var a := query + SortPart(sorts);
      assert KeyIndex(a, StrKey("sort")) == Some(|query|);
      assert a[|query| := entry] == query + [entry];
    }
  }

  /** `$filters ?? FilterHelper::retrieveFilters()`. */
  function FiltersOrAmbient(filters: Option<PhpArray>, ambientFilters: PhpArray): PhpArray {
    if filters.Some? then filters.value else ambientFilters
  }

  /**
   * The builder. Its collaborators become constants: the Twig environment
   * with `json_decode` is `renderDecode`, the locale context is the locale
   * code it returns, and `FilterHelper::retrieveFilters()` is the filter
   * array of the current request. The logger is left out.
   */
  class TwigQueryBuilder {
    const renderDecode: RenderDecode
    const localeCode: string
    const ambientFilters: PhpArray

    constructor(renderDecode: RenderDecode, localeCode: string, ambientFilters: PhpArray)
      ensures this.renderDecode == renderDecode && this.localeCode == localeCode && this.ambientFilters == ambientFilters
    {
      this.renderDecode := renderDecode;
      this.localeCode := localeCode;
      this.ambientFilters := ambientFilters;
    }

    /** buildTaxonQuery: the query of a category page. */
    method BuildTaxonQuery(taxon: Taxon, from: Option<int>, size: Option<int>, sorting: Option<Sorting>,
                           withAggregates: bool, filters: Option<PhpArray>) returns (r: Result<PhpArray, Error>)
      ensures r == QueryOf(renderDecode, TaxonSubject(taxon), localeCode, FiltersOrAmbient(filters, ambientFilters),
                           from, size, sorting, withAggregates)
    {
      r := Build(TaxonSubject(taxon), from, size, sorting, withAggregates, filters);
    }

    /** buildSearchQuery: the query of a search. */
    method BuildSearchQuery(searchTerm: string, from: Option<int>, size: Option<int>, sorting: Option<Sorting>,
                            withAggregates: bool, filters: Option<PhpArray>) returns (r: Result<PhpArray, Error>)
      ensures r == QueryOf(renderDecode, SearchSubject(searchTerm), localeCode, FiltersOrAmbient(filters, ambientFilters),
                           from, size, sorting, withAggregates)
    {
      r := Build(SearchSubject(searchTerm), from, size, sorting, withAggregates, filters);
    }

    /** The body the two builders share: fills the query array key by key. */
    method Build(subject: Subject, from: Option<int>, size: Option<int>, sorting: Option<Sorting>,
                 withAggregates: bool, filters: Option<PhpArray>) returns (r: Result<PhpArray, Error>)
      ensures r == QueryOf(renderDecode, subject, localeCode, FiltersOrAmbient(filters, ambientFilters),
                           from, size, sorting, withAggregates)
    {
      var filterArray := if filters.Some? then filters.value else ambientFilters;
      var queryTemplate := QueryTemplate(subject);
      var queryNormalized := renderDecode(queryTemplate, QueryParams(subject, filterArray, localeCode));
      if queryNormalized.None? {
        return Err(Fragment(queryTemplate));
      }
      var query: PhpArray := [];
      query := ArraySet(query, StrKey("query"), queryNormalized.value);
      var head := query;

      ghost var sorts: seq<Json> := [];
      if sorting.Some? {
        var sorted :- AddSorts(head, subject, sorting.value);
        sorts := Traverse(sorting.value, SortStep(renderDecode, subject, localeCode)).value;
        query := sorted;
      }
      assert query == head + SortPart(sorts);
      query := AddPaging(query, from, size);
      ghost var aggsOption: Option<PhpArray> := None;
      if withAggregates {
        var aggs :- Aggregations(subject);
        SetNewKey(query, StrKey("aggs"), Arr(aggs));
        query := ArraySet(query, StrKey("aggs"), Arr(aggs));
        aggsOption := Some(aggs);
      }
      assert query == head + SortPart(sorts) + IntPart("from", from) + IntPart("size", size) + AggsPart(aggsOption);
      assert head == [(StrKey("query"), queryNormalized.value)];
      assert SortsOf(renderDecode, subject, localeCode, sorting) == Ok(sorts);
      assert AggsIf(renderDecode, subject, localeCode, withAggregates) == Ok(aggsOption);
      return Ok(query);
    }

    /**
     * The sorting loop: appends one decoded sort fragment per `(field, order)`
     * pair to the `sort` entry of `query`, which does not hold one yet.
     */
    method AddSorts(query: PhpArray, subject: Subject, fields: Sorting) returns (r: Result<PhpArray, Error>)
      requires forall e :: e in query ==> e.0 != StrKey("sort")
      ensures var sorts := Traverse(fields, SortStep(renderDecode, subject, localeCode));
        && (sorts.Err? ==> r == Err(sorts.error))
        && (sorts.Ok? ==> r == Ok(query + SortPart(sorts.value)))
    {
      var sortList: PhpArray := [];
      var result := query;
      ghost var sorts: seq<Json> := [];
      ghost var f := SortStep(renderDecode, subject, localeCode);
      for i := 0 to |fields|
        invariant |sorts| == i && forall j :: 0 <= j < i ==> f(fields[j]) == Ok(sorts[j])
        invariant sortList == ListOf(sorts)
        invariant result == query + SortPart(sorts)
      {
        var (field, order) := fields[i];
        var sortNormalized := RenderFragment(SortTemplate(subject, field), SortParams(field, order, subject, localeCode));
        assert f(fields[i]) == sortNormalized;
        if sortNormalized.Err? {
          TraverseFirstError(fields, f, i);
          return Err(sortNormalized.error);
        }
        sortList, result := AppendSort(query, sorts, sortList, result, sortNormalized.value);
        sorts := sorts + [sortNormalized.value];
      }
      TraverseAllOk(fields, f, sorts);
      return Ok(result);
    }

    /** `$query['sort'][] = $sortNormalized`: one step of the sorting loop. */
    method AppendSort(ghost query: PhpArray, ghost sorts: seq<Json>, sortList: PhpArray, result: PhpArray, v: Json)
      returns (sortList': PhpArray, result': PhpArray)
      requires forall e :: e in query ==> e.0 != StrKey("sort")
      requires sortList == ListOf(sorts) && result == query + SortPart(sorts)
      ensures sortList' == ListOf(sorts + [v]) && result' == query + SortPart(sorts + [v])
    {
      ListPush(sorts, v);
      SortAppend(query, sorts, v);
      sortList' := ArrayPush(sortList, v);
      result' := ArraySet(result, StrKey("sort"), Arr(sortList'));
    }

    /** Sets `from` and `size` when given, on a query that holds only `query` and `sort`. */
    method AddPaging(query: PhpArray, from: Option<int>, size: Option<int>) returns (result: PhpArray)
      requires forall e :: e in query ==> e.0 == StrKey("query") || e.0 == StrKey("sort")
      ensures result == query + IntPart("from", from) + IntPart("size", size)
      ensures forall e :: e in result ==> e.0 != StrKey("aggs")
    {
      result := query;
      if from.Some? {
        SetNewKey(result, StrKey("from"), Int(from.value));
        result := ArraySet(result, StrKey("from"), Int(from.value));
      }
      assert result == query + IntPart("from", from);
      if size.Some? {
        SetNewKey(result, StrKey("size"), Int(size.value));
        result := ArraySet(result, StrKey("size"), Int(size.value));
      }
    }

    /** The three aggregation fragments, decoded in order and merged. */
    method Aggregations(subject: Subject) returns (r: Result<PhpArray, Error>)
      ensures r == AggsOf(renderDecode, subject, localeCode)
    {
      var attributes :- RenderFragment(AggsTemplate(subject, ATTRIBUTES), AggsParams(subject, localeCode));
      var translated :- RenderFragment(AggsTemplate(subject, TRANSLATED_ATTRIBUTES), AggsParams(subject, localeCode));
      var options :- RenderFragment(AggsTemplate(subject, OPTIONS), AggsParams(subject, localeCode));
      if !attributes.Arr? || !translated.Arr? || !options.Arr? {
        return Err(TypeMismatch(MERGE_ARGUMENT_NOT_ARRAY));
      }
      return Ok(ArrayMerge([attributes.entries, translated.entries, options.entries]));
    }

    /** Renders and decodes one fragment. */
    method RenderFragment(template: string, params: RenderParams) returns (r: Result<Json, Error>)
      ensures r == Decoded(renderDecode, template, params)
    {
      var json := renderDecode(template, params);
      if json.None? {
        return Err(Fragment(template));
      }
      return Ok(json.value);
    }
  }
}
