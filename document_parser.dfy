/**
 * The document parser: rebuilds the storefront read model of a product from
 * the `_source` of a search hit, as src/Parser/ElasticsearchProductDocumentParser.php
 * does. Translated fields are read with a locale fallback, the slug without
 * one, and variants are taken in ascending `position` order.
 */
module Parser {
  import opened Wrappers
  import opened Php
  import opened Collections
  import opened Catalog
  import opened IndexDocument

  // ---------------------------------------------------------------------------
  // The hit's `_source`, as far as the parser reads it
  // ---------------------------------------------------------------------------

  datatype ImageSource = ImageSource(path: Option<string>, imageType: Option<string>)
  datatype PromotionSource = PromotionSource(localizedLabel: LocalizedField)
  datatype PriceSource = PriceSource(price: Option<int>, originalPrice: Option<int>, appliedPromotions: seq<PromotionSource>)
  /** A variant; `price` is null when the variant had no pricing in the indexed channel. */
  datatype VariantSource = VariantSource(code: Option<string>, enabled: Option<bool>, position: int, price: Option<PriceSource>)
  datatype OptionValueSource = OptionValueSource(code: string, value: string)
  datatype OptionSource = OptionSource(code: string, position: int, name: LocalizedField, values: seq<OptionValueSource>)
  datatype Source = Source(
    code: Option<string>,
    name: LocalizedField,
    description: LocalizedField,
    shortDescription: LocalizedField,
    slug: LocalizedField,
    images: seq<ImageSource>,
    variants: seq<VariantSource>,
    productOptions: seq<OptionSource>)

  // ---------------------------------------------------------------------------
  // The read model the parser fills
  // ---------------------------------------------------------------------------

  datatype ResponseImage = ResponseImage(path: Option<string>, imageType: Option<string>)
  datatype ResponsePromotion = ResponsePromotion(currentLocale: string, promotionLabel: Option<string>)
  datatype ResponsePricing = ResponsePricing(
    price: Option<int>, originalPrice: Option<int>, channelCode: Option<string>, appliedPromotions: seq<ResponsePromotion>)
  datatype ResponseVariant = ResponseVariant(code: Option<string>, enabled: Option<bool>, position: int, pricing: ResponsePricing)
  datatype ResponseOptionValue = ResponseOptionValue(
    code: string, optionCode: string, currentLocale: string, fallbackLocale: string, value: string)
  datatype ResponseOption = ResponseOption(
    code: string, position: int, currentLocale: string, name: Option<string>, values: seq<ResponseOptionValue>)
  datatype ProductResponse = ProductResponse(
    code: Option<string>,
    currentLocale: string,
    name: Option<string>,
    slug: string,
    description: Option<string>,
    shortDescription: Option<string>,
    images: seq<ResponseImage>,
    variants: seq<ResponseVariant>,
    options: seq<ResponseOption>)

  // ---------------------------------------------------------------------------
  // Locale lookups
  // ---------------------------------------------------------------------------

  /** The channel's default-locale code when it has one, otherwise the configured fallback locale. */
  function DefaultLocaleFor(channel: Channel, fallbackLocaleCode: string): (locale: string)
    ensures channel.defaultLocale.Some? && channel.defaultLocale.value.code.Some? ==> locale == channel.defaultLocale.value.code.value
    ensures channel.defaultLocale.None? || channel.defaultLocale.value.code.None? ==> locale == fallbackLocaleCode
  {
    match channel.defaultLocale
    case Some(Locale(Some(code))) => code
    case _ => fallbackLocaleCode
  }

  /** The index of the first entry that has `locale`. */
  function FirstWith(field: LocalizedField, locale: string): (r: Option<nat>)
    ensures r.Some? ==> r.value < |field| && locale in field[r.value] && forall j :: 0 <= j < r.value ==> locale !in field[j]
    ensures r.None? ==> forall j :: 0 <= j < |field| ==> locale !in field[j]
    decreases |field|
  {
    if field == [] then None
    else if locale in field[0] then Some(0)
    else
      match FirstWith(field[1..], locale)
      case None => None
      case Some(i) => Some(i + 1)
  }

  /** The index of the last entry that has `locale`. */
  function LastWith(field: LocalizedField, locale: string): (r: Option<nat>)
    ensures r.Some? ==> r.value < |field| && locale in field[r.value] && forall j :: r.value < j < |field| ==> locale !in field[j]
    ensures r.None? ==> forall j :: 0 <= j < |field| ==> locale !in field[j]
    decreases |field|
  {
    if field == [] then None
    else if locale in field[|field| - 1] then Some(|field| - 1)
    else LastWith(field[..|field| - 1], locale)
  }

  /** The value under `locale` in the last entry that has it; null when none has it. */
  function LastValue(field: LocalizedField, locale: string): Option<string> {
    match LastWith(field, locale)
    case None => None
    case Some(j) => field[j][locale]
  }

  /**
   * getValueFromLocalizedField: the value of the first entry that has the
   * active locale; failing that, the value of the last entry that has the
   * default locale; failing that, null.
   */
  function LocalizedValue(field: LocalizedField, locale: string, defaultLocale: string): Option<string> {
    match FirstWith(field, locale)
    case Some(i) => field[i][locale]
    case None => LastValue(field, defaultLocale)
  }

  /**
   * getSlug: the value of the first entry that has the active locale, with no
   * fallback. "Slug not found" when no entry has it; a null value breaks the
   * method's `string` return type.
   */
  function Slug(field: LocalizedField, locale: string): Result<string, Error> {
    match FirstWith(field, locale)
    case None => Err(Runtime(SLUG_NOT_FOUND))
    case Some(i) =>
      match field[i][locale]
      case None => Err(TypeMismatch(SLUG_NOT_STRING))
      case Some(slug) => Ok(slug)
  }

  // ---------------------------------------------------------------------------
  // usort by position
  // ---------------------------------------------------------------------------

  function Position(v: VariantSource): int {
    v.position
  }

  /** `x` placed after every element of `sorted` whose position is not greater than its own. */
  function Insert(sorted: seq<VariantSource>, x: VariantSource): seq<VariantSource>
    decreases |sorted|
  {
    if sorted == [] || sorted[|sorted| - 1].position <= x.position then sorted + [x]
    else Insert(sorted[..|sorted| - 1], x) + [sorted[|sorted| - 1]]
  }

  /**
   * `usort` with `$a['position'] <=> $b['position']`: the variants ordered by
   * position, variants of equal position keeping their order (the sort PHP 8
   * performs is stable).
   */
  function SortByPosition(vs: seq<VariantSource>): seq<VariantSource>
    decreases |vs|
  {
    if vs == [] then [] else Insert(SortByPosition(vs[..|vs| - 1]), vs[|vs| - 1])
  }

  // ---------------------------------------------------------------------------
  // Reference definition of parse
  // ---------------------------------------------------------------------------

  function ImageOf(image: ImageSource): ResponseImage {
    ResponseImage(image.path, image.imageType)
  }

  function PromotionOf(promotion: PromotionSource, localeCode: string, defaultLocale: string): ResponsePromotion {
    ResponsePromotion(localeCode, LocalizedValue(promotion.localizedLabel, localeCode, defaultLocale))
  }

  /**
   * The variant's channel pricing. A null `price` reads as null prices and
   * no promotions (PHP yields null for an offset of null and skips a
   * `foreach` over null).
   */
  function PricingOf(price: Option<PriceSource>, channel: Channel, localeCode: string, defaultLocale: string): ResponsePricing {
    match price
    case None => ResponsePricing(None, None, channel.code, [])
    case Some(p) =>
      ResponsePricing(p.price, p.originalPrice, channel.code,
        seq(|p.appliedPromotions|, i requires 0 <= i < |p.appliedPromotions| =>
          PromotionOf(p.appliedPromotions[i], localeCode, defaultLocale)))
  }

  function VariantOf(v: VariantSource, channel: Channel, localeCode: string, defaultLocale: string): ResponseVariant {
    ResponseVariant(v.code, v.enabled, v.position, PricingOf(v.price, channel, localeCode, defaultLocale))
  }

  function OptionValueOf(ov: OptionValueSource, optionCode: string, localeCode: string, fallbackLocaleCode: string): ResponseOptionValue {
    ResponseOptionValue(ov.code, optionCode, localeCode, fallbackLocaleCode, ov.value)
  }

  function OptionOf(o: OptionSource, localeCode: string, defaultLocale: string, fallbackLocaleCode: string): ResponseOption {
    ResponseOption(o.code, o.position, localeCode, LocalizedValue(o.name, localeCode, defaultLocale),
      seq(|o.values|, i requires 0 <= i < |o.values| => OptionValueOf(o.values[i], o.code, localeCode, fallbackLocaleCode)))
  }

  /** parse: the read model of `source` for `channel` in the active locale `localeCode`. */
  function ParsedProduct(source: Source, channel: Channel, localeCode: string, fallbackLocaleCode: string): Result<ProductResponse, Error> {
    var defaultLocale := DefaultLocaleFor(channel, fallbackLocaleCode);
    var slug :- Slug(source.slug, localeCode);
    var sorted := SortByPosition(source.variants);
    Ok(ProductResponse(
      source.code, localeCode,
      LocalizedValue(source.name, localeCode, defaultLocale),
      slug,
      LocalizedValue(source.description, localeCode, defaultLocale),
      LocalizedValue(source.shortDescription, localeCode, defaultLocale),
      seq(|source.images|, i requires 0 <= i < |source.images| => ImageOf(source.images[i])),
      seq(|sorted|, i requires 0 <= i < |sorted| => VariantOf(sorted[i], channel, localeCode, defaultLocale)),
      seq(|source.productOptions|, i requires 0 <= i < |source.productOptions| =>
        OptionOf(source.productOptions[i], localeCode, defaultLocale, fallbackLocaleCode))))
  }

  // ---------------------------------------------------------------------------
  // The parser
  // ---------------------------------------------------------------------------

  /**
   * The parser object. The channel and the active locale, which the source
   * asks its channel and locale contexts for, are parameters of Parse; the
   * factories it creates read-model objects with are left out.
   */
  class ElasticsearchProductDocumentParser {
    var defaultLocale: Option<string>
    const fallbackLocaleCode: string

    constructor(fallbackLocaleCode: string)
      ensures this.fallbackLocaleCode == fallbackLocaleCode && defaultLocale.None?
    {
      this.fallbackLocaleCode := fallbackLocaleCode;
      defaultLocale := None;
    }

    /** parse: sets the default locale, then builds the read model field by field. */
    method Parse(source: Source, channel: Channel, localeCode: string) returns (r: Result<ProductResponse, Error>)
      modifies this
      ensures defaultLocale == Some(DefaultLocaleFor(channel, fallbackLocaleCode))
      ensures r == ParsedProduct(source, channel, localeCode, fallbackLocaleCode)
    {
      defaultLocale := Some(fallbackLocaleCode);
      if channel.defaultLocale.Some? {
        var defaultLocaleCode := channel.defaultLocale.value.code;
        if defaultLocaleCode.Some? {
          defaultLocale := Some(defaultLocaleCode.value);
        }
      }
      var name := GetValueFromLocalizedField(source.name, localeCode);
      var slug :- GetSlug(source.slug, localeCode);
      var description := GetValueFromLocalizedField(source.description, localeCode);
      var shortDescription := GetValueFromLocalizedField(source.shortDescription, localeCode);

      var images := ParseImages(source.images);
      var variants := ParseVariants(SortByPosition(source.variants), channel, localeCode);
      var options := ParseOptions(source.productOptions, localeCode);
      var expected := ParsedProduct(source, channel, localeCode, fallbackLocaleCode).value;
      assert images == expected.images;
      assert variants == expected.variants;
      assert options == expected.options;
      r := Ok(ProductResponse(
        source.code, localeCode, name.value, slug, description.value, shortDescription.value, images, variants, options));
    }

    /** The images, path and type copied, in source order. */
    method ParseImages(sourceImages: seq<ImageSource>) returns (images: seq<ResponseImage>)
      ensures |images| == |sourceImages| && forall j :: 0 <= j < |images| ==> images[j] == ImageOf(sourceImages[j])
    {
      images := [];
      for i := 0 to |sourceImages|
        invariant |images| == i && forall j :: 0 <= j < i ==> images[j] == ImageOf(sourceImages[j])
      {
        images := images + [ResponseImage(sourceImages[i].path, sourceImages[i].imageType)];
      }
    }

    /** The variants, already sorted by position, each with its pricing. */
    method ParseVariants(sortedVariants: seq<VariantSource>, channel: Channel, localeCode: string) returns (variants: seq<ResponseVariant>)
      requires defaultLocale.Some?
      ensures |variants| == |sortedVariants|
      ensures forall j :: 0 <= j < |variants| ==> variants[j] == VariantOf(sortedVariants[j], channel, localeCode, defaultLocale.value)
    {
      variants := [];
      for i := 0 to |sortedVariants|
        invariant |variants| == i
        invariant forall j :: 0 <= j < i ==> variants[j] == VariantOf(sortedVariants[j], channel, localeCode, defaultLocale.value)
      {
        var variant := ParseVariant(sortedVariants[i], channel, localeCode);
        variants := variants + [variant];
      }
    }

    /** The product options, in source order. */
    method ParseOptions(sourceOptions: seq<OptionSource>, localeCode: string) returns (options: seq<ResponseOption>)
      requires defaultLocale.Some?
      ensures |options| == |sourceOptions|
      ensures forall j :: 0 <= j < |options| ==> options[j] == OptionOf(sourceOptions[j], localeCode, defaultLocale.value, fallbackLocaleCode)
    {
      options := [];
      for i := 0 to |sourceOptions|
        invariant |options| == i
        invariant forall j :: 0 <= j < i ==> options[j] == OptionOf(sourceOptions[j], localeCode, defaultLocale.value, fallbackLocaleCode)
      {
        var option := ParseOption(sourceOptions[i], localeCode);
        options := options + [option];
      }
    }

    /** One variant of the sorted list, with its channel pricing and applied promotions. */
    method ParseVariant(v: VariantSource, channel: Channel, localeCode: string) returns (variant: ResponseVariant)
      requires defaultLocale.Some?
      ensures variant == VariantOf(v, channel, localeCode, defaultLocale.value)
    {
      var price: Option<int>, originalPrice: Option<int> := None, None;
      var promotions: seq<ResponsePromotion> := [];
      if v.price.Some? {
        price, originalPrice := v.price.value.price, v.price.value.originalPrice;
        var applied := v.price.value.appliedPromotions;
        for i := 0 to |applied|
          invariant |promotions| == i
          invariant forall j :: 0 <= j < i ==> promotions[j] == PromotionOf(applied[j], localeCode, defaultLocale.value)
        {
          var promotionLabel := GetValueFromLocalizedField(applied[i].localizedLabel, localeCode);
          promotions := promotions + [ResponsePromotion(localeCode, promotionLabel.value)];
        }
      }
      variant := ResponseVariant(v.code, v.enabled, v.position, ResponsePricing(price, originalPrice, channel.code, promotions));
    }

    /** One product option with its values, in source order. */
    method ParseOption(o: OptionSource, localeCode: string) returns (option: ResponseOption)
      requires defaultLocale.Some?
      ensures option == OptionOf(o, localeCode, defaultLocale.value, fallbackLocaleCode)
    {
      var name := GetValueFromLocalizedField(o.name, localeCode);
      var values: seq<ResponseOptionValue> := [];
      for i := 0 to |o.values|
        invariant |values| == i
        invariant forall j :: 0 <= j < i ==> values[j] == OptionValueOf(o.values[j], o.code, localeCode, fallbackLocaleCode)
      {
        values := values + [ResponseOptionValue(o.values[i].code, o.code, localeCode, fallbackLocaleCode, o.values[i].value)];
      }
      option := ResponseOption(o.code, o.position, localeCode, name.value, values);
    }

    /**
     * getValueFromLocalizedField: returns at the first entry with the active
     * locale, remembering the latest entry with the default locale on the way.
     */
    method GetValueFromLocalizedField(localizedField: LocalizedField, localeCode: string) returns (r: Result<Option<string>, Error>)
      ensures defaultLocale.None? ==> r == Err(InvalidArgument(DEFAULT_LOCALE_IS_STRING))
      ensures defaultLocale.Some? ==> r == Ok(LocalizedValue(localizedField, localeCode, defaultLocale.value))
    {
      var fallbackValue: Option<string> := None;
      if defaultLocale.None? {
        return Err(InvalidArgument(DEFAULT_LOCALE_IS_STRING));
      }
      var defaultLocaleCode := defaultLocale.value;
      for i := 0 to |localizedField|
        invariant forall j :: 0 <= j < i ==> localeCode !in localizedField[j]
        invariant fallbackValue == LastValue(localizedField[..i], defaultLocaleCode)
      {
        var field := localizedField[i];
        assert localizedField[..i + 1][..i] == localizedField[..i];
        if localeCode in field {
          return Ok(field[localeCode]);
        }
        if defaultLocaleCode in field {
          fallbackValue := field[defaultLocaleCode];
        }
      }
      assert localizedField[..|localizedField|] == localizedField;
      return Ok(fallbackValue);
    }

    /** getSlug: returns at the first entry with the active locale, and throws when there is none. */
    method GetSlug(localizedSlug: LocalizedField, localeCode: string) returns (r: Result<string, Error>)
      ensures r == Slug(localizedSlug, localeCode)
    {
      for i := 0 to |localizedSlug|
        invariant forall j :: 0 <= j < i ==> localeCode !in localizedSlug[j]
      {
        var slug := localizedSlug[i];
        if localeCode in slug {
          if slug[localeCode].None? {
            return Err(TypeMismatch(SLUG_NOT_STRING));
          }
          return Ok(slug[localeCode].value);
        }
      }
      return Err(Runtime(SLUG_NOT_FOUND));
    }
  }
}
