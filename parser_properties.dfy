/**
 * What the document parser promises about its read model: the locale
 * fallback of translated fields, the slug's lack of one, the order and
 * content of variants, images, pricing and options.
 */
module ParserProperties {
  import opened Wrappers
  import opened Php
  import opened Collections
  import opened Catalog
  import opened IndexDocument
  import opened Parser

  // ---------------------------------------------------------------------------
  // Locale lookups
  // ---------------------------------------------------------------------------

  /** The first entry that has the active locale decides the value, whatever follows it. */
  lemma ActiveLocaleWins(field: LocalizedField, locale: string, defaultLocale: string, i: nat)
    requires i < |field| && locale in field[i]
    requires forall j :: 0 <= j < i ==> locale !in field[j]
    ensures LocalizedValue(field, locale, defaultLocale) == field[i][locale]
  {
    var first := FirstWith(field, locale);
    assert first.Some?;
    assert first.value == i;
  }

  /**
   * With no entry in the active locale, the last entry in the default locale
   * decides the value: an earlier default-locale value is overwritten.
   */
  lemma DefaultLocaleFallback(field: LocalizedField, locale: string, defaultLocale: string, i: nat)
    requires forall j :: 0 <= j < |field| ==> locale !in field[j]
    requires i < |field| && defaultLocale in field[i]
    requires forall j :: i < j < |field| ==> defaultLocale !in field[j]
    ensures LocalizedValue(field, locale, defaultLocale) == field[i][defaultLocale]
  {
    var last := LastWith(field, defaultLocale);
    assert last.Some?;
    assert last.value == i;
  }

  /** With neither locale present the lookup yields null; it never fails. */
  lemma NoLocaleIsNull(field: LocalizedField, locale: string, defaultLocale: string)
    requires forall j :: 0 <= j < |field| ==> locale !in field[j] && defaultLocale !in field[j]
    ensures LocalizedValue(field, locale, defaultLocale) == None
  {
  }

  /** The lookup yields a value only when some entry holds it under the active or the default locale. */
  lemma LocalizedValueFound(field: LocalizedField, locale: string, defaultLocale: string)
    ensures LocalizedValue(field, locale, defaultLocale).Some? ==>
      exists j :: (0 <= j < |field| &&
        ((locale in field[j] && field[j][locale] == LocalizedValue(field, locale, defaultLocale)) ||
         (defaultLocale in field[j] && field[j][defaultLocale] == LocalizedValue(field, locale, defaultLocale))))
  {
    match FirstWith(field, locale)
    case Some(i) =>
    case None =>
      match LastWith(field, defaultLocale)
      case Some(j) =>
      case None =>
  }

  /** The slug of the first entry in the active locale, when that entry holds a string. */
  lemma SlugOfActiveLocale(field: LocalizedField, locale: string, i: nat)
    requires i < |field| && locale in field[i] && field[i][locale].Some?
    requires forall j :: 0 <= j < i ==> locale !in field[j]
    ensures Slug(field, locale) == Ok(field[i][locale].value)
  {
    var first := FirstWith(field, locale);
    assert first.Some?;
    assert first.value == i;
  }

  /**
   * The slug has no fallback: with no entry in the active locale the parse
   * fails with "Slug not found", even when an entry in the default locale
   * exists and the other fields would fall back to it.
   */
  lemma SlugHasNoFallback(source: Source, channel: Channel, localeCode: string, fallbackLocaleCode: string)
    requires forall j :: 0 <= j < |source.slug| ==> localeCode !in source.slug[j]
    ensures ParsedProduct(source, channel, localeCode, fallbackLocaleCode) == Err(Runtime(SLUG_NOT_FOUND))
  {
    assert FirstWith(source.slug, localeCode).None?;
  }

  /** The parse succeeds exactly when the slug lookup does. */
  lemma ParseFailsOnlyOnSlug(source: Source, channel: Channel, localeCode: string, fallbackLocaleCode: string)
    ensures ParsedProduct(source, channel, localeCode, fallbackLocaleCode).Ok? <==> Slug(source.slug, localeCode).Ok?
    ensures Slug(source.slug, localeCode).Err? ==>
      ParsedProduct(source, channel, localeCode, fallbackLocaleCode) == Err(Slug(source.slug, localeCode).error)
  {
  }

  // ---------------------------------------------------------------------------
  // Sorting by position
  // ---------------------------------------------------------------------------

  predicate SortedByPosition(vs: seq<VariantSource>) {
    forall i, j :: 0 <= i < j < |vs| ==> vs[i].position <= vs[j].position
  }

  lemma {:induction false} InsertPermutes(s: seq<VariantSource>, x: VariantSource)
    ensures multiset(Insert(s, x)) == multiset(s) + multiset{x}
    decreases |s|
  {
    if s != [] && s[|s| - 1].position > x.position {
      var init, last := s[..|s| - 1], s[|s| - 1];
      assert s == init + [last];
      InsertPermutes(init, x);
    }
  }

  lemma {:induction false} InsertSorted(s: seq<VariantSource>, x: VariantSource)
    requires SortedByPosition(s)
    ensures SortedByPosition(Insert(s, x))
    decreases |s|
  {
    if s != [] && s[|s| - 1].position > x.position {
      var init, last := s[..|s| - 1], s[|s| - 1];
      assert s == init + [last];
      InsertSorted(init, x);
      InsertPermutes(init, x);
      var t := Insert(init, x);
      forall k | 0 <= k < |t| ensures t[k].position <= last.position {
        assert t[k] in multiset(init) + multiset{x};
        if t[k] in multiset(init) {
          var m :| 0 <= m < |init| && init[m] == t[k];
          assert s[m] == init[m];
        }
      }
    }
  }

  /** Inserting keeps the relative order of the elements of each position. */
  lemma {:induction false} InsertStable(s: seq<VariantSource>, x: VariantSource, p: int)
    ensures Select(Insert(s, x), Position, p) == Select(s, Position, p) + (if x.position == p then [x] else [])
    decreases |s|
  {
    if s == [] || s[|s| - 1].position <= x.position {
      SelectSnoc(s, x, Position, p);
    } else {
      var init, last := s[..|s| - 1], s[|s| - 1];
      assert s == init + [last];
      InsertStable(init, x, p);
      SelectSnoc(Insert(init, x), last, Position, p);
      SelectSnoc(init, last, Position, p);
    }
  }

  /**
   * The variants after `usort`: a permutation of the source variants, in
   * ascending position, variants of equal position in source order.
   */
  lemma {:induction false} SortByPositionSpec(vs: seq<VariantSource>)
    ensures SortedByPosition(SortByPosition(vs))
    ensures multiset(SortByPosition(vs)) == multiset(vs)
    ensures forall p :: Select(SortByPosition(vs), Position, p) == Select(vs, Position, p)
    decreases |vs|
  {
    if vs != [] {
      var init, last := vs[..|vs| - 1], vs[|vs| - 1];
      assert vs == init + [last];
      SortByPositionSpec(init);
      InsertSorted(SortByPosition(init), last);
      InsertPermutes(SortByPosition(init), last);
      forall p ensures Select(SortByPosition(vs), Position, p) == Select(vs, Position, p) {
        InsertStable(SortByPosition(init), last, p);
        SelectSnoc(init, last, Position, p);
      }
    }
  }

  /** The first variant after sorting has the minimum position. */
  lemma SortedFirstIsMinimum(vs: seq<VariantSource>)
    requires vs != []
    ensures |SortByPosition(vs)| == |vs|
    ensures forall i :: 0 <= i < |vs| ==> SortByPosition(vs)[0].position <= vs[i].position
  {
    SortByPositionSpec(vs);
    var sorted := SortByPosition(vs);
    assert |sorted| == |multiset(sorted)| == |multiset(vs)| == |vs|;
    forall i | 0 <= i < |vs| ensures sorted[0].position <= vs[i].position {
      assert vs[i] in multiset(sorted);
      var k :| 0 <= k < |sorted| && sorted[k] == vs[i];
    }
  }

  // ---------------------------------------------------------------------------
  // The read model
  // ---------------------------------------------------------------------------

  /**
   * The product fields of a successful parse: the active locale, the
   * translated fields looked up with the default locale chosen from the
   * channel, the slug of the first entry in the active locale, and the images
   * copied in source order.
   */
  lemma ParsedProductFields(source: Source, channel: Channel, localeCode: string, fallbackLocaleCode: string)
    requires ParsedProduct(source, channel, localeCode, fallbackLocaleCode).Ok?
    ensures var r := ParsedProduct(source, channel, localeCode, fallbackLocaleCode).value;
      var d := DefaultLocaleFor(channel, fallbackLocaleCode);
      && r.code == source.code
      && r.currentLocale == localeCode
      && r.name == LocalizedValue(source.name, localeCode, d)
      && r.description == LocalizedValue(source.description, localeCode, d)
      && r.shortDescription == LocalizedValue(source.shortDescription, localeCode, d)
      && (exists i :: (0 <= i < |source.slug| && localeCode in source.slug[i]
            && source.slug[i][localeCode] == Some(r.slug)
            && forall j :: 0 <= j < i ==> localeCode !in source.slug[j]))
      && |r.images| == |source.images|
      && forall i :: 0 <= i < |r.images| ==>
           r.images[i].path == source.images[i].path && r.images[i].imageType == source.images[i].imageType
  {
    var i := FirstWith(source.slug, localeCode).value;
    assert localeCode in source.slug[i];
  }

  /** The variants of a successful parse are the sorted source variants, read one by one. */
  lemma ParsedVariantsAreSorted(source: Source, channel: Channel, localeCode: string, fallbackLocaleCode: string)
    requires ParsedProduct(source, channel, localeCode, fallbackLocaleCode).Ok?
    ensures var r := ParsedProduct(source, channel, localeCode, fallbackLocaleCode).value;
      var sorted := SortByPosition(source.variants);
      && |r.variants| == |sorted| == |source.variants|
      && SortedByPosition(sorted)
      && multiset(sorted) == multiset(source.variants)
      && forall i :: 0 <= i < |r.variants| ==>
           r.variants[i] == VariantOf(sorted[i], channel, localeCode, DefaultLocaleFor(channel, fallbackLocaleCode))
  {
    var sorted := SortByPosition(source.variants);
    SortByPositionSpec(source.variants);
    assert |sorted| == |multiset(sorted)| == |multiset(source.variants)| == |source.variants|;
  }

  /** The variants of a successful parse come in ascending position. */
  lemma ParsedVariantsOrdered(source: Source, channel: Channel, localeCode: string, fallbackLocaleCode: string)
    requires ParsedProduct(source, channel, localeCode, fallbackLocaleCode).Ok?
    ensures var r := ParsedProduct(source, channel, localeCode, fallbackLocaleCode).value;
      && |r.variants| == |source.variants|
      && forall i, j :: 0 <= i < j < |r.variants| ==> r.variants[i].position <= r.variants[j].position
  {
    ParsedVariantsAreSorted(source, channel, localeCode, fallbackLocaleCode);
  }

  /**
   * The variants of a successful parse are the source variants, each read
   * once: every source variant is among them, and every one of them is read
   * from a source variant.
   */
  lemma ParsedVariantsPermuted(source: Source, channel: Channel, localeCode: string, fallbackLocaleCode: string)
    requires ParsedProduct(source, channel, localeCode, fallbackLocaleCode).Ok?
    ensures var r := ParsedProduct(source, channel, localeCode, fallbackLocaleCode).value;
      var d := DefaultLocaleFor(channel, fallbackLocaleCode);
      && (forall v :: v in source.variants ==> VariantOf(v, channel, localeCode, d) in r.variants)
      && (forall i :: 0 <= i < |r.variants| ==> exists v :: v in source.variants && r.variants[i] == VariantOf(v, channel, localeCode, d))
  {
    var r := ParsedProduct(source, channel, localeCode, fallbackLocaleCode).value;
    var d := DefaultLocaleFor(channel, fallbackLocaleCode);
    var sorted := SortByPosition(source.variants);
    ParsedVariantsAreSorted(source, channel, localeCode, fallbackLocaleCode);
    forall v | v in source.variants ensures VariantOf(v, channel, localeCode, d) in r.variants {
      assert v in multiset(sorted);
      var k :| 0 <= k < |sorted| && sorted[k] == v;
      assert r.variants[k] == VariantOf(v, channel, localeCode, d);
    }
    forall i | 0 <= i < |r.variants| ensures exists v :: v in source.variants && r.variants[i] == VariantOf(v, channel, localeCode, d) {
      assert sorted[i] in multiset(sorted);
      assert sorted[i] in source.variants;
    }
  }

  /**
   * A variant's pricing: price and original price copied, the channel code
   * of the current channel, and one promotion per applied promotion, in
   * order, in the active locale with its label looked up. A variant without
   * pricing reads as null prices and no promotions.
   */
  lemma PricingCopied(v: VariantSource, channel: Channel, localeCode: string, defaultLocale: string)
    ensures var pricing := VariantOf(v, channel, localeCode, defaultLocale).pricing;
      && pricing.channelCode == channel.code
      && (v.price.None? ==> pricing.price.None? && pricing.originalPrice.None? && pricing.appliedPromotions == [])
      && (v.price.Some? ==>
            && pricing.price == v.price.value.price
            && pricing.originalPrice == v.price.value.originalPrice
            && |pricing.appliedPromotions| == |v.price.value.appliedPromotions|
            && forall i :: 0 <= i < |pricing.appliedPromotions| ==>
                 && pricing.appliedPromotions[i].currentLocale == localeCode
                 && pricing.appliedPromotions[i].promotionLabel ==
                      LocalizedValue(v.price.value.appliedPromotions[i].localizedLabel, localeCode, defaultLocale))
  {
  }

  /**
   * Options and their values keep source order; every value is in the active
   * locale and falls back to the configured fallback locale, not to the
   * channel's default locale.
   */
  lemma OptionsUseFallbackLocale(source: Source, channel: Channel, localeCode: string, fallbackLocaleCode: string)
    requires ParsedProduct(source, channel, localeCode, fallbackLocaleCode).Ok?
    ensures var r := ParsedProduct(source, channel, localeCode, fallbackLocaleCode).value;
      var d := DefaultLocaleFor(channel, fallbackLocaleCode);
      && |r.options| == |source.productOptions|
      && forall i :: 0 <= i < |r.options| ==>
           var o, src := r.options[i], source.productOptions[i];
           && o.code == src.code && o.position == src.position && o.currentLocale == localeCode
           && o.name == LocalizedValue(src.name, localeCode, d)
           && |o.values| == |src.values|
           && forall k :: 0 <= k < |o.values| ==>
                && o.values[k].code == src.values[k].code
                && o.values[k].value == src.values[k].value
                && o.values[k].optionCode == src.code
                && o.values[k].currentLocale == localeCode
                && o.values[k].fallbackLocale == fallbackLocaleCode
  {
  }
}
