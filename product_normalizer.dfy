/**
 * The product normaliser: flattens a product aggregate into the index
 * document, one `foreach` loop per collection, as
 * src/Serializer/ProductNormalizer.php does. Each method of the class is
 * proved equal to a reference definition (the functions ending in `Of`), and
 * the properties the document promises are lemmas about those definitions
 * (normalizer_properties.dfy).
 */
module Serializer {
  import opened Wrappers
  import opened Php
  import opened Collections
  import opened Catalog
  import opened IndexDocument

  // ---------------------------------------------------------------------------
  // Locale-keyed fields
  // ---------------------------------------------------------------------------

  predicate HasLocales(ts: seq<Translation>) {
    forall i :: 0 <= i < |ts| ==> ts[i].locale.Some?
  }

  /** One `{locale: text}` entry per translation, in translation order. */
  function Entries(ts: seq<Translation>): seq<map<string, Option<string>>> {
    seq(|ts|, i requires 0 <= i < |ts| =>
      match ts[i].locale
      case Some(locale) => map[locale := ts[i].text]
      case None => map[])
  }

  /** A translation loop: every locale is asserted to be a string before its entry is appended. */
  function LocalizedOf(ts: seq<Translation>): Result<LocalizedField, Error> {
    if HasLocales(ts) then Ok(Entries(ts)) else Err(InvalidArgument(LOCALE_IS_STRING))
  }

  function Names(ts: seq<ProductTranslation>): seq<Translation> {
    seq(|ts|, i requires 0 <= i < |ts| => Translation(ts[i].locale, ts[i].name))
  }

  function Descriptions(ts: seq<ProductTranslation>): seq<Translation> {
    seq(|ts|, i requires 0 <= i < |ts| => Translation(ts[i].locale, ts[i].description))
  }

  function ShortDescriptions(ts: seq<ProductTranslation>): seq<Translation> {
    seq(|ts|, i requires 0 <= i < |ts| => Translation(ts[i].locale, ts[i].shortDescription))
  }

  function Slugs(ts: seq<ProductTranslation>): seq<Translation> {
    seq(|ts|, i requires 0 <= i < |ts| => Translation(ts[i].locale, ts[i].slug))
  }

  function Labels(ts: seq<PromotionTranslation>): seq<Translation> {
    seq(|ts|, i requires 0 <= i < |ts| => Translation(ts[i].locale, ts[i].promotionLabel))
  }

  function PromotionDescriptions(ts: seq<PromotionTranslation>): seq<Translation> {
    seq(|ts|, i requires 0 <= i < |ts| => Translation(ts[i].locale, ts[i].description))
  }

  /** `false` unless the entity implements the filterable capability, and then `isFilterable()`. */
  function FilterableFlag(filterable: Option<bool>): bool {
    match filterable
    case None => false
    case Some(isFilterable) => isFilterable
  }

  // ---------------------------------------------------------------------------
  // Reference definitions, one per normalising method
  // ---------------------------------------------------------------------------

  function TaxonOf(t: Taxon): Result<NormalizedTaxon, Error> {
    var name :- LocalizedOf(t.translations);
    Ok(NormalizedTaxon(t.id, t.code, name))
  }

  /** normalizeProductTaxon: the taxon's fields merged with the assignment's position. */
  function ProductTaxonOf(pt: ProductTaxon): Result<NormalizedProductTaxon, Error> {
    var taxon :- TaxonOf(pt.taxon);
    Ok(NormalizedProductTaxon(taxon, pt.position))
  }

  /** One applied promotion: its label and description lists are filled by one translation loop. */
  function PromotionOf(p: CatalogPromotion): Result<NormalizedPromotion, Error> {
    if HasLocales(Labels(p.translations)) then
      Ok(NormalizedPromotion(p.id, p.code, Entries(Labels(p.translations)), Entries(PromotionDescriptions(p.translations))))
    else Err(InvalidArgument(LOCALE_IS_STRING))
  }

  /** normalizeChannelPricing: `null` without a pricing, else one entry per applied promotion. */
  function PricingOf(cp: Option<ChannelPricing>): Result<Option<NormalizedPricing>, Error> {
    match cp
    case None => Ok(None)
    case Some(pricing) =>
      var promotions :- Traverse(pricing.appliedPromotions, PromotionOf);
      Ok(Some(NormalizedPricing(pricing.price, pricing.originalPrice, promotions)))
  }

  function OptionValueOf(ov: ProductOptionValue): Result<NormalizedOptionValue, Error> {
    var name :- LocalizedOf(ov.translations);
    Ok(NormalizedOptionValue(ov.id, ov.code, ov.value, name))
  }

  /** normalizeProductOptionAndProductOptionValue: the value is normalised before the option's names. */
  function OptionAndValueOf(option: ProductOption, ov: ProductOptionValue): Result<NormalizedOption, Error> {
    var value :- OptionValueOf(ov);
    var name :- LocalizedOf(option.translations);
    Ok(NormalizedOption(option.id, option.code, name, FilterableFlag(option.filterable), value))
  }

  /** An option value normalised together with the option it belongs to. */
  function OwnOptionOf(ov: ProductOptionValue): Result<NormalizedOption, Error> {
    OptionAndValueOf(ov.option, ov)
  }

  /** The array key of an option value's option, when its id is an int or a string. */
  function OptionKey(ov: ProductOptionValue): Option<Key> {
    ArrayKey(ov.option.id)
  }

  /**
   * The integrity check of the option loop, scanning option values in order
   * with the keys already `seen`: an id that is neither int nor string, or a
   * second value for an option, is an error.
   */
  function OptionIdErrorFrom(ovs: seq<ProductOptionValue>, seen: set<Key>): Option<Error>
    decreases |ovs|
  {
    if ovs == [] then None
    else
      match OptionKey(ovs[0])
      case None => Some(Runtime(UNSUPPORTED_OPTION_ID))
      case Some(k) =>
        if k in seen then Some(Runtime(MULTIPLE_OPTION_VALUES))
        else OptionIdErrorFrom(ovs[1..], seen + {k})
  }

  /** One step of the integrity scan, at position `i`. */
  lemma OptionIdErrorStep(ovs: seq<ProductOptionValue>, i: nat, seen: set<Key>)
    requires i < |ovs|
    ensures OptionIdErrorFrom(ovs[i..], seen) ==
      match OptionKey(ovs[i])
      case None => Some(Runtime(UNSUPPORTED_OPTION_ID))
      case Some(k) => if k in seen then Some(Runtime(MULTIPLE_OPTION_VALUES)) else OptionIdErrorFrom(ovs[i + 1..], seen + {k})
  {
    assert ovs[i..][0] == ovs[i] && ovs[i..][1..] == ovs[i + 1..];
  }

  function OptionIdError(ovs: seq<ProductOptionValue>): Option<Error> {
    OptionIdErrorFrom(ovs, {})
  }

  /** The `options` of a variant: one entry per option value, in order, once the ids pass the check. */
  function OptionsOf(ovs: seq<ProductOptionValue>): Result<seq<NormalizedOption>, Error> {
    match OptionIdError(ovs)
    case Some(e) => Err(e)
    case None => Traverse(ovs, OwnOptionOf)
  }

  /** normalizeProductVariant: pricing, then the option check and options, then names. */
  function VariantOf(v: ProductVariant, channel: Channel): Result<NormalizedVariant, Error> {
    var price :- PricingOf(PricingFor(v, channel));
    var options :- OptionsOf(v.optionValues);
    var name :- LocalizedOf(v.translations);
    Ok(NormalizedVariant(v.id, v.code, v.enabled, v.position, v.weight, v.width, v.height, v.depth,
                         v.shippingRequired, name, price, options))
  }

  function VariantIn(channel: Channel): ProductVariant -> Result<NormalizedVariant, Error> {
    v => VariantOf(v, channel)
  }

  /** normalizeAttributeValue: the raw value under `<storage type>-value`; an empty storage type is rejected. */
  function AttributeValueOf(av: ProductAttributeValue): (r: Result<NormalizedAttributeValue, Error>)
    ensures r.Err? <==> av.attribute.storageType.None? || av.attribute.storageType.value == ""
    ensures r.Err? ==> r.error == InvalidArgument(STORAGE_TYPE_IS_NON_EMPTY_STRING)
    ensures r.Ok? ==>
      r.value.valueKey == av.attribute.storageType.value + "-value" && r.value.value == av.value
      && r.value.locale == av.localeCode && r.value.syliusId == av.id && r.value.code == av.code
  {
    match av.attribute.storageType
    case None => Err(InvalidArgument(STORAGE_TYPE_IS_NON_EMPTY_STRING))
    case Some(storageType) =>
      if storageType == "" then Err(InvalidArgument(STORAGE_TYPE_IS_NON_EMPTY_STRING))
      else Ok(NormalizedAttributeValue(av.id, av.code, av.localeCode, storageType + "-value", av.value))
  }

  /** A value of a translatable attribute: its locale is asserted to be a string before it is normalised. */
  function TranslatableValueOf(av: ProductAttributeValue): Result<NormalizedAttributeValue, Error> {
    if av.localeCode.None? then Err(InvalidArgument(LOCALE_IS_STRING)) else AttributeValueOf(av)
  }

  /** The group key of a translatable value: its (asserted) locale code. */
  function LocaleKey(nv: NormalizedAttributeValue): string {
    match nv.locale
    case Some(locale) => locale
    case None => ""
  }

  /** Values grouped by locale code: locales in first-seen order, each with its values in source order. */
  function ByLocaleOf(nvs: seq<NormalizedAttributeValue>): seq<(string, seq<NormalizedAttributeValue>)> {
    var locales := FirstSeen(nvs, LocaleKey);
    seq(|locales|, i requires 0 <= i < |locales| => (locales[i], Select(nvs, LocaleKey, locales[i])))
  }

  function NormalizedValuesOf(attribute: ProductAttribute, vs: seq<ProductAttributeValue>): Result<seq<NormalizedAttributeValue>, Error> {
    if attribute.translatable then Traverse(vs, TranslatableValueOf) else Traverse(vs, AttributeValueOf)
  }

  /** normalizeAttribute: one attribute bucket; `values` grouped by locale when translatable, flat otherwise. */
  function AttributeOf(attribute: ProductAttribute, vs: seq<ProductAttributeValue>): Result<NormalizedAttribute, Error> {
    var name :- LocalizedOf(attribute.translations);
    var nvs :- NormalizedValuesOf(attribute, vs);
    Ok(NormalizedAttribute(
      attribute.id, attribute.code, attribute.attributeType, attribute.storageType, attribute.position,
      attribute.translatable, FilterableFlag(attribute.filterable), name,
      if attribute.translatable then ByLocale(ByLocaleOf(nvs)) else Flat(nvs)))
  }

  /** The array key an attribute value is filed under (ids that are not keys are rejected before use). */
  function AttributeKey(av: ProductAttributeValue): Key {
    match ArrayKey(av.attribute.id)
    case Some(k) => k
    case None => StrKey("")
  }

  function IsTranslatable(av: ProductAttributeValue): bool {
    av.attribute.translatable
  }

  predicate AttributeIdsSupported(avs: seq<ProductAttributeValue>) {
    forall i :: 0 <= i < |avs| ==> ArrayKey(avs[i].attribute.id).Some?
  }

  /** An attribute bucket: the attribute first seen under an id, and every value filed under that id. */
  datatype Bucket = Bucket(attribute: ProductAttribute, values: seq<ProductAttributeValue>)

  /** The bucket filed under attribute key `k`, which some value carries. */
  function BucketAt(avs: seq<ProductAttributeValue>, k: Key): (b: Bucket)
    requires k in FirstSeen(avs, AttributeKey)
    ensures b.values == Select(avs, AttributeKey, k) && b.values != [] && b.attribute == b.values[0].attribute
  {
    SelectMembers(avs, AttributeKey, k);
    var values := Select(avs, AttributeKey, k);
    Bucket(values[0].attribute, values)
  }

  /** One bucket per distinct attribute id, in first-seen order. */
  function BucketsOf(avs: seq<ProductAttributeValue>): seq<Bucket> {
    var ids := FirstSeen(avs, AttributeKey);
    seq(|ids|, i requires 0 <= i < |ids| => BucketAt(avs, ids[i]))
  }

  function BucketOf(b: Bucket): Result<NormalizedAttribute, Error> {
    AttributeOf(b.attribute, b.values)
  }

  /** The attribute loops of normalize: (plain, translated) attribute entries. */
  function AttributesOf(avs: seq<ProductAttributeValue>): (r: Result<(seq<NormalizedAttribute>, seq<NormalizedAttribute>), Error>)
    ensures !AttributeIdsSupported(avs) ==> r == Err(Runtime(UNSUPPORTED_ATTRIBUTE_ID))
  {
    if !AttributeIdsSupported(avs) then Err(Runtime(UNSUPPORTED_ATTRIBUTE_ID))
    else
      var translated :- Traverse(BucketsOf(Select(avs, IsTranslatable, true)), BucketOf);
      var plain :- Traverse(BucketsOf(Select(avs, IsTranslatable, false)), BucketOf);
      Ok((plain, translated))
  }

  function ImageOf(image: ProductImage): NormalizedImage {
    var refs := image.productVariants;
    NormalizedImage(image.id, image.imageType, image.path,
                    seq(|refs|, i requires 0 <= i < |refs| => NormalizedImageVariant(refs[i].id, refs[i].code)))
  }

  function ImagesOf(images: seq<ProductImage>): seq<NormalizedImage> {
    seq(|images|, i requires 0 <= i < |images| => ImageOf(images[i]))
  }

  function DefaultVariantOf(dv: Option<ProductVariant>, channel: Channel): Result<Option<NormalizedVariant>, Error> {
    match dv
    case None => Ok(None)
    case Some(v) => var n :- VariantOf(v, channel); Ok(Some(n))
  }

  function MainTaxonOf(t: Option<Taxon>): Result<Option<NormalizedTaxon>, Error> {
    match t
    case None => Ok(None)
    case Some(taxon) => var n :- TaxonOf(taxon); Ok(Some(n))
  }

  /**
   * normalize: the index document of product `p` in `channel`, where `dv` is
   * the variant the default-variant resolver picks. Errors surface in the
   * order the source meets them.
   */
  function DocumentOf(p: Product, channel: Channel, dv: Option<ProductVariant>): Result<Document, Error> {
    var ts := p.translations;
    if !HasLocales(Names(ts)) then Err(InvalidArgument(LOCALE_IS_STRING))
    else
      var defaultVariant :- DefaultVariantOf(dv, channel);
      var mainTaxon :- MainTaxonOf(p.mainTaxon);
      var taxons :- Traverse(p.productTaxons, ProductTaxonOf);
      var variants :- Traverse(p.variants, VariantIn(channel));
      var attributes :- AttributesOf(p.attributes);
      Ok(Document(
        p.id, p.code, p.enabled, p.variantSelectionMethod, p.variantSelectionMethodLabel, p.createdAt,
        Entries(Names(ts)), Entries(Descriptions(ts)), Entries(ShortDescriptions(ts)), Entries(Slugs(ts)),
        taxons, variants, defaultVariant, mainTaxon, attributes.0, attributes.1, ImagesOf(p.images)))
  }

  // ---------------------------------------------------------------------------
  // The ordered dictionaries `$attributes` / `$translatedAttributes`
  // ---------------------------------------------------------------------------

  /** `locales` (the dictionary's key order) and `byLocale` hold exactly the locale groups of `nvs`. */
  ghost predicate Grouped(nvs: seq<NormalizedAttributeValue>, locales: seq<string>, byLocale: map<string, seq<NormalizedAttributeValue>>) {
    locales == FirstSeen(nvs, LocaleKey)
    && (forall l :: l in byLocale <==> l in locales)
    && (forall l :: l in byLocale ==> byLocale[l] == Select(nvs, LocaleKey, l))
  }

  /** The groups a `Grouped` dictionary holds, read in key order, are those of ByLocaleOf. */
  lemma GroupedIsByLocaleOf(nvs: seq<NormalizedAttributeValue>, locales: seq<string>, byLocale: map<string, seq<NormalizedAttributeValue>>)
    requires Grouped(nvs, locales, byLocale)
    ensures (forall l :: l in locales ==> l in byLocale)
    ensures seq(|locales|, j requires 0 <= j < |locales| => (locales[j], byLocale[locales[j]])) == ByLocaleOf(nvs)
  {
  }

  /** Grouping one more value: open its locale's group when the locale is new, then append the value to it. */
  lemma GroupedSnoc(nvs: seq<NormalizedAttributeValue>, v: NormalizedAttributeValue,
                    locales: seq<string>, byLocale: map<string, seq<NormalizedAttributeValue>>)
    requires Grouped(nvs, locales, byLocale)
    ensures
      var l := LocaleKey(v);
      var group := if l in byLocale then byLocale[l] else [];
      Grouped(nvs + [v], if l in byLocale then locales else locales + [l], byLocale[l := group + [v]])
  {
    var l := LocaleKey(v);
    FirstSeenSnoc(nvs, v, LocaleKey);
    forall k
      ensures Select(nvs + [v], LocaleKey, k) == Select(nvs, LocaleKey, k) + (if LocaleKey(v) == k then [v] else [])
    {
      SelectSnoc(nvs, v, LocaleKey, k);
    }
    if l !in byLocale {
      SelectMembers(nvs, LocaleKey, l);
    }
  }

  /**
   * `ids` (the dictionary's key order) and `buckets` hold exactly the buckets
   * of `xs`: one per attribute key, in first-seen order.
   */
  ghost predicate Filed(xs: seq<ProductAttributeValue>, ids: seq<Key>, buckets: map<Key, Bucket>) {
    ids == FirstSeen(xs, AttributeKey)
    && (forall k :: k in buckets <==> k in ids)
    && (forall k :: k in buckets ==> k in FirstSeen(xs, AttributeKey) && buckets[k] == BucketAt(xs, k))
  }

  /** Both dictionaries of the attribute loop hold the buckets of their half of `xs`. */
  ghost predicate FiledBoth(xs: seq<ProductAttributeValue>, translatedIds: seq<Key>, translatedBuckets: map<Key, Bucket>,
                            plainIds: seq<Key>, plainBuckets: map<Key, Bucket>) {
    Filed(Select(xs, IsTranslatable, true), translatedIds, translatedBuckets)
    && Filed(Select(xs, IsTranslatable, false), plainIds, plainBuckets)
  }

  /** Filing one more value: open its bucket when the key is new, then append the value to it. */
  lemma FiledSnoc(xs: seq<ProductAttributeValue>, av: ProductAttributeValue, ids: seq<Key>, buckets: map<Key, Bucket>)
    requires Filed(xs, ids, buckets)
    ensures
      var k := AttributeKey(av);
      var b := if k in buckets then buckets[k] else Bucket(av.attribute, []);
      Filed(xs + [av], if k in buckets then ids else ids + [k], buckets[k := Bucket(b.attribute, b.values + [av])])
  {
    var k := AttributeKey(av);
    var b := if k in buckets then buckets[k] else Bucket(av.attribute, []);
    var ids' := if k in buckets then ids else ids + [k];
    var buckets' := buckets[k := Bucket(b.attribute, b.values + [av])];
    FirstSeenSnoc(xs, av, AttributeKey);
    assert ids' == FirstSeen(xs + [av], AttributeKey);
    forall l | l in buckets'
      ensures l in FirstSeen(xs + [av], AttributeKey) && buckets'[l] == BucketAt(xs + [av], l)
    {
      SelectSnoc(xs, av, AttributeKey, l);
      if l == k && k !in buckets {
        SelectMembers(xs, AttributeKey, k);
      }
    }
  }

  // ---------------------------------------------------------------------------
  // The normaliser
  // ---------------------------------------------------------------------------

  /**
   * The normaliser object. Its one collaborator, the default-variant
   * resolver, is code this model does not see: it is a function fixed at
   * construction.
   */
  class ProductNormalizer {
    const defaultVariantOf: Product -> Option<ProductVariant>

    constructor(defaultVariantOf: Product -> Option<ProductVariant>)
      ensures this.defaultVariantOf == defaultVariantOf
    {
      this.defaultVariantOf := defaultVariantOf;
    }

    /** normalize: the product's index document for `channel`. */
    method Normalize(p: Product, channel: Channel) returns (r: Result<Document, Error>)
      ensures r == DocumentOf(p, channel, defaultVariantOf(p))
    {
      var ts := p.translations;
      var localized :- NormalizeProductTranslations(ts);
      var (name, description, shortDescription, slug) := localized;

      var defaultVariant :- NormalizeDefaultVariant(defaultVariantOf(p), channel);
      var mainTaxon :- NormalizeMainTaxon(p.mainTaxon);
      var taxons :- NormalizeProductTaxons(p.productTaxons);
      var variants :- NormalizeProductVariants(p.variants, channel);
      var attributes :- NormalizeAttributes(p.attributes);
      var images := NormalizeProductImages(p.images);
      return Ok(Document(
        p.id, p.code, p.enabled, p.variantSelectionMethod, p.variantSelectionMethodLabel, p.createdAt,
        name, description, shortDescription, slug,
        taxons, variants, defaultVariant, mainTaxon, attributes.0, attributes.1, images));
    }

    /** The default variant the resolver picked, normalised, or null when it picked none. */
    method NormalizeDefaultVariant(dv: Option<ProductVariant>, channel: Channel) returns (r: Result<Option<NormalizedVariant>, Error>)
      ensures r == DefaultVariantOf(dv, channel)
    {
      if dv.None? {
        return Ok(None);
      }
      var normalized :- NormalizeProductVariant(dv.value, channel);
      return Ok(Some(normalized));
    }

    /** The main taxon, normalised, or null when the product has none. */
    method NormalizeMainTaxon(t: Option<Taxon>) returns (r: Result<Option<NormalizedTaxon>, Error>)
      ensures r == MainTaxonOf(t)
    {
      if t.None? {
        return Ok(None);
      }
      var normalized :- NormalizeTaxon(t.value);
      return Ok(Some(normalized));
    }

    /** The image loop of normalize. */
    method NormalizeProductImages(images: seq<ProductImage>) returns (r: seq<NormalizedImage>)
      ensures r == ImagesOf(images)
    {
      r := [];
      for i := 0 to |images|
        invariant |r| == i && forall j :: 0 <= j < i ==> r[j] == ImageOf(images[j])
      {
        var image := NormalizeProductImage(images[i]);
        r := r + [image];
      }
    }

    /** The product-taxon loop of normalize. */
    method NormalizeProductTaxons(productTaxons: seq<ProductTaxon>) returns (r: Result<seq<NormalizedProductTaxon>, Error>)
      ensures r == Traverse(productTaxons, ProductTaxonOf)
    {
      var taxons: seq<NormalizedProductTaxon> := [];
      for i := 0 to |productTaxons|
        invariant |taxons| == i && forall j :: 0 <= j < i ==> ProductTaxonOf(productTaxons[j]) == Ok(taxons[j])
      {
        var taxon := NormalizeProductTaxon(productTaxons[i]);
        if taxon.Err? {
          TraverseFirstError(productTaxons, ProductTaxonOf, i);
          return Err(taxon.error);
        }
        taxons := taxons + [taxon.value];
      }
      TraverseAllOk(productTaxons, ProductTaxonOf, taxons);
      return Ok(taxons);
    }

    /** The variant loop of normalize. */
    method NormalizeProductVariants(variants: seq<ProductVariant>, channel: Channel) returns (r: Result<seq<NormalizedVariant>, Error>)
      ensures r == Traverse(variants, VariantIn(channel))
    {
      var normalized: seq<NormalizedVariant> := [];
      for i := 0 to |variants|
        invariant |normalized| == i && forall j :: 0 <= j < i ==> VariantIn(channel)(variants[j]) == Ok(normalized[j])
      {
        var variant := NormalizeProductVariant(variants[i], channel);
        if variant.Err? {
          TraverseFirstError(variants, VariantIn(channel), i);
          return Err(variant.error);
        }
        normalized := normalized + [variant.value];
      }
      TraverseAllOk(variants, VariantIn(channel), normalized);
      return Ok(normalized);
    }

    /** The product translation loop of normalize: fills `name`, `description`, `short-description` and `slug` together. */
    method NormalizeProductTranslations(ts: seq<ProductTranslation>)
      returns (r: Result<(LocalizedField, LocalizedField, LocalizedField, LocalizedField), Error>)
      ensures !HasLocales(Names(ts)) ==> r == Err(InvalidArgument(LOCALE_IS_STRING))
      ensures HasLocales(Names(ts)) ==>
        r == Ok((Entries(Names(ts)), Entries(Descriptions(ts)), Entries(ShortDescriptions(ts)), Entries(Slugs(ts))))
    {
      var name: LocalizedField, description: LocalizedField := [], [];
      var shortDescription: LocalizedField, slug: LocalizedField := [], [];
      for i := 0 to |ts|
        invariant |name| == i && |description| == i && |shortDescription| == i && |slug| == i
        invariant forall j :: 0 <= j < i ==> ts[j].locale.Some?
        invariant forall j :: 0 <= j < i ==>
          name[j] == Entries(Names(ts))[j] && description[j] == Entries(Descriptions(ts))[j]
          && shortDescription[j] == Entries(ShortDescriptions(ts))[j] && slug[j] == Entries(Slugs(ts))[j]
      {
        var locale := ts[i].locale;
        if locale.None? {
          assert Names(ts)[i].locale.None?;
          return Err(InvalidArgument(LOCALE_IS_STRING));
        }
        name := name + [map[locale.value := ts[i].name]];
        description := description + [map[locale.value := ts[i].description]];
        shortDescription := shortDescription + [map[locale.value := ts[i].shortDescription]];
        slug := slug + [map[locale.value := ts[i].slug]];
      }
      assert HasLocales(Names(ts));
      assert name == Entries(Names(ts)) && description == Entries(Descriptions(ts));
      assert shortDescription == Entries(ShortDescriptions(ts)) && slug == Entries(Slugs(ts));
      return Ok((name, description, shortDescription, slug));
    }

    /**
     * The attribute part of normalize: files every value into the
     * translatable or the plain dictionary under its attribute id, then
     * normalises the buckets of each, in key order. Yields (plain, translated).
     */
    method NormalizeAttributes(avs: seq<ProductAttributeValue>)
      returns (r: Result<(seq<NormalizedAttribute>, seq<NormalizedAttribute>), Error>)
      ensures r == AttributesOf(avs)
    {
      var translatedIds: seq<Key>, translatedBuckets: map<Key, Bucket> := [], map[];
      var plainIds: seq<Key>, plainBuckets: map<Key, Bucket> := [], map[];
      for i := 0 to |avs|
        invariant AttributeIdsSupported(avs[..i])
        invariant FiledBoth(avs[..i], translatedIds, translatedBuckets, plainIds, plainBuckets)
      {
        var av := avs[i];
        var attributeId := ArrayKey(av.attribute.id);
        if attributeId.None? {
          return Err(Runtime(UNSUPPORTED_ATTRIBUTE_ID));
        }
        assert avs[..i + 1] == avs[..i] + [av];
        translatedIds, translatedBuckets, plainIds, plainBuckets :=
          FileByTranslatability(avs[..i], translatedIds, translatedBuckets, plainIds, plainBuckets, attributeId.value, av);
      }
      assert avs[..|avs|] == avs;
      var translated :- NormalizeBuckets(Select(avs, IsTranslatable, true), translatedIds, translatedBuckets);
      var plain :- NormalizeBuckets(Select(avs, IsTranslatable, false), plainIds, plainBuckets);
      return Ok((plain, translated));
    }

    /** One step of the attribute loop: files the value into the translatable or the plain dictionary. */
    method FileByTranslatability(ghost xs: seq<ProductAttributeValue>,
                                 translatedIds: seq<Key>, translatedBuckets: map<Key, Bucket>,
                                 plainIds: seq<Key>, plainBuckets: map<Key, Bucket>,
                                 id: Key, av: ProductAttributeValue)
      returns (translatedIds': seq<Key>, translatedBuckets': map<Key, Bucket>,
               plainIds': seq<Key>, plainBuckets': map<Key, Bucket>)
      requires FiledBoth(xs, translatedIds, translatedBuckets, plainIds, plainBuckets)
      requires ArrayKey(av.attribute.id) == Some(id)
      ensures FiledBoth(xs + [av], translatedIds', translatedBuckets', plainIds', plainBuckets')
    {
      assert id == AttributeKey(av);
      ghost var translated, plain := Select(xs, IsTranslatable, true), Select(xs, IsTranslatable, false);
      SelectSnoc(xs, av, IsTranslatable, true);
      SelectSnoc(xs, av, IsTranslatable, false);
      translatedIds', translatedBuckets', plainIds', plainBuckets' := translatedIds, translatedBuckets, plainIds, plainBuckets;
      if av.attribute.translatable {
        assert Select(xs + [av], IsTranslatable, true) == translated + [av];
        assert Select(xs + [av], IsTranslatable, false) == plain;
        translatedIds', translatedBuckets' := File(translated, translatedIds, translatedBuckets, id, av);
      } else {
        assert Select(xs + [av], IsTranslatable, true) == translated;
        assert Select(xs + [av], IsTranslatable, false) == plain + [av];
        plainIds', plainBuckets' := File(plain, plainIds, plainBuckets, id, av);
      }
    }

    /**
     * `$buckets[$id]['values'][] = $value`, opening the bucket with the
     * value's attribute when `$id` is not yet a key.
     */
    method File(ghost xs: seq<ProductAttributeValue>, ids: seq<Key>, buckets: map<Key, Bucket>, id: Key, av: ProductAttributeValue)
      returns (ids': seq<Key>, buckets': map<Key, Bucket>)
      requires Filed(xs, ids, buckets) && id == AttributeKey(av)
      ensures Filed(xs + [av], ids', buckets')
    {
      FiledSnoc(xs, av, ids, buckets);
      ids', buckets' := ids, buckets;
      if id !in buckets' {
        buckets' := buckets'[id := Bucket(av.attribute, [])];
        ids' := ids' + [id];
      }
      buckets' := buckets'[id := Bucket(buckets'[id].attribute, buckets'[id].values + [av])];
    }

    /** One `foreach ($buckets as $attribute)` loop: normalizeAttribute on every bucket, in key order. */
    method NormalizeBuckets(ghost xs: seq<ProductAttributeValue>, ids: seq<Key>, buckets: map<Key, Bucket>)
      returns (r: Result<seq<NormalizedAttribute>, Error>)
      requires Filed(xs, ids, buckets)
      ensures r == Traverse(BucketsOf(xs), BucketOf)
    {
      var normalized: seq<NormalizedAttribute> := [];
      for i := 0 to |ids|
        invariant |normalized| == i && forall j :: 0 <= j < i ==> BucketOf(BucketsOf(xs)[j]) == Ok(normalized[j])
      {
        var bucket := buckets[ids[i]];
        var attribute := NormalizeAttribute(bucket.attribute, bucket.values);
        if attribute.Err? {
          TraverseFirstError(BucketsOf(xs), BucketOf, i);
          return Err(attribute.error);
        }
        normalized := normalized + [attribute.value];
      }
      TraverseAllOk(BucketsOf(xs), BucketOf, normalized);
      return Ok(normalized);
    }

    /** A translation loop: one `{locale: text}` entry per translation, asserting each locale. */
    method NormalizeLocalized(ts: seq<Translation>) returns (r: Result<LocalizedField, Error>)
      ensures r == LocalizedOf(ts)
    {
      var field: LocalizedField := [];
      for i := 0 to |ts|
        invariant |field| == i && forall j :: 0 <= j < i ==> ts[j].locale.Some? && field[j] == Entries(ts)[j]
      {
        var locale := ts[i].locale;
        if locale.None? {
          return Err(InvalidArgument(LOCALE_IS_STRING));
        }
        field := field + [map[locale.value := ts[i].text]];
      }
      assert field == Entries(ts);
      return Ok(field);
    }

    method NormalizeTaxon(taxon: Taxon) returns (r: Result<NormalizedTaxon, Error>)
      ensures r == TaxonOf(taxon)
    {
      var name :- NormalizeLocalized(taxon.translations);
      return Ok(NormalizedTaxon(taxon.id, taxon.code, name));
    }

    method NormalizeProductTaxon(productTaxon: ProductTaxon) returns (r: Result<NormalizedProductTaxon, Error>)
      ensures r == ProductTaxonOf(productTaxon)
    {
      var taxon :- NormalizeTaxon(productTaxon.taxon);
      return Ok(NormalizedProductTaxon(taxon, productTaxon.position));
    }

    method NormalizeProductVariant(variant: ProductVariant, channel: Channel) returns (r: Result<NormalizedVariant, Error>)
      ensures r == VariantOf(variant, channel)
    {
      var price :- NormalizeChannelPricing(PricingFor(variant, channel));
      var ovs := variant.optionValues;
      var withValue: map<Key, ProductOptionValue> := map[];
      var order: seq<Key> := [];
      assert ovs[0..] == ovs && withValue.Keys == {};
      for i := 0 to |ovs|
        invariant |order| == i
        invariant forall j :: 0 <= j < i ==>
          OptionKey(ovs[j]) == Some(order[j]) && order[j] in withValue && withValue[order[j]] == ovs[j]
        invariant OptionIdErrorFrom(ovs[i..], withValue.Keys) == OptionIdError(ovs)
      {
        var optionValue := ovs[i];
        var optionId := ArrayKey(optionValue.option.id);
        OptionIdErrorStep(ovs, i, withValue.Keys);
        if optionId.None? {
          return Err(Runtime(UNSUPPORTED_OPTION_ID));
        }
        if optionId.value in withValue {
          return Err(Runtime(MULTIPLE_OPTION_VALUES));
        }
        assert withValue[optionId.value := optionValue].Keys == withValue.Keys + {optionId.value};
        withValue := withValue[optionId.value := optionValue];
        order := order + [optionId.value];
      }
      var options: seq<NormalizedOption> := [];
      for i := 0 to |order|
        invariant |options| == i && forall j :: 0 <= j < i ==> OwnOptionOf(ovs[j]) == Ok(options[j])
      {
        var optionAndValue := withValue[order[i]];
        var option := NormalizeProductOptionAndProductOptionValue(optionAndValue.option, optionAndValue);
        if option.Err? {
          TraverseFirstError(ovs, OwnOptionOf, i);
          return Err(option.error);
        }
        options := options + [option.value];
      }
      TraverseAllOk(ovs, OwnOptionOf, options);
      var name :- NormalizeLocalized(variant.translations);
      return Ok(NormalizedVariant(
        variant.id, variant.code, variant.enabled, variant.position, variant.weight, variant.width,
        variant.height, variant.depth, variant.shippingRequired, name, price, options));
    }

    method NormalizeAttribute(attribute: ProductAttribute, values: seq<ProductAttributeValue>)
      returns (r: Result<NormalizedAttribute, Error>)
      ensures r == AttributeOf(attribute, values)
    {
      var filterable := false;
      if attribute.filterable.Some? {
        filterable := attribute.filterable.value;
      }
      var name :- NormalizeLocalized(attribute.translations);
      var normalizedValues: AttributeValues;
      if attribute.translatable {
        var groups :- GroupByLocale(values);
        normalizedValues := ByLocale(groups);
      } else {
        var flat: seq<NormalizedAttributeValue> := [];
        for i := 0 to |values|
          invariant |flat| == i && forall j :: 0 <= j < i ==> AttributeValueOf(values[j]) == Ok(flat[j])
        {
          var value := NormalizeAttributeValue(values[i]);
          if value.Err? {
            TraverseFirstError(values, AttributeValueOf, i);
            return Err(value.error);
          }
          flat := flat + [value.value];
        }
        TraverseAllOk(values, AttributeValueOf, flat);
        assert NormalizedValuesOf(attribute, values) == Ok(flat);
        normalizedValues := Flat(flat);
      }
      return Ok(NormalizedAttribute(
        attribute.id, attribute.code, attribute.attributeType, attribute.storageType, attribute.position,
        attribute.translatable, filterable, name, normalizedValues));
    }

    /**
     * The values loop of normalizeAttribute for a translatable attribute:
     * `$values[$localeCode][] = normalizeAttributeValue($value)`.
     */
    method GroupByLocale(values: seq<ProductAttributeValue>)
      returns (r: Result<seq<(string, seq<NormalizedAttributeValue>)>, Error>)
      ensures Traverse(values, TranslatableValueOf).Err? ==> r == Err(Traverse(values, TranslatableValueOf).error)
      ensures Traverse(values, TranslatableValueOf).Ok? ==> r == Ok(ByLocaleOf(Traverse(values, TranslatableValueOf).value))
    {
      var locales: seq<string> := [];
      var byLocale: map<string, seq<NormalizedAttributeValue>> := map[];
      ghost var nvs: seq<NormalizedAttributeValue> := [];
      for i := 0 to |values|
        invariant |nvs| == i && forall j :: 0 <= j < i ==> TranslatableValueOf(values[j]) == Ok(nvs[j])
        invariant Grouped(nvs, locales, byLocale)
      {
        var localeCode := values[i].localeCode;
        if localeCode.None? {
          TraverseFirstError(values, TranslatableValueOf, i);
          return Err(InvalidArgument(LOCALE_IS_STRING));
        }
        var value := NormalizeAttributeValue(values[i]);
        if value.Err? {
          TraverseFirstError(values, TranslatableValueOf, i);
          return Err(value.error);
        }
        locales, byLocale := AddToGroup(nvs, locales, byLocale, localeCode.value, value.value);
        nvs := nvs + [value.value];
      }
      TraverseAllOk(values, TranslatableValueOf, nvs);
      var groups := seq(|locales|, j requires 0 <= j < |locales| => (locales[j], byLocale[locales[j]]));
      GroupedIsByLocaleOf(nvs, locales, byLocale);
      return Ok(groups);
    }

    /** `$values[$locale][] = $value`, opening the locale's group when it is not yet a key. */
    method AddToGroup(ghost nvs: seq<NormalizedAttributeValue>, locales: seq<string>,
                      byLocale: map<string, seq<NormalizedAttributeValue>>, locale: string, v: NormalizedAttributeValue)
      returns (locales': seq<string>, byLocale': map<string, seq<NormalizedAttributeValue>>)
      requires Grouped(nvs, locales, byLocale) && LocaleKey(v) == locale
      ensures Grouped(nvs + [v], locales', byLocale')
    {
      GroupedSnoc(nvs, v, locales, byLocale);
      locales', byLocale' := locales, byLocale;
      if locale !in byLocale' {
        locales' := locales' + [locale];
        byLocale' := byLocale'[locale := []];
      }
      byLocale' := byLocale'[locale := byLocale'[locale] + [v]];
    }

    method NormalizeAttributeValue(attributeValue: ProductAttributeValue) returns (r: Result<NormalizedAttributeValue, Error>)
      ensures r == AttributeValueOf(attributeValue)
    {
      var storageType := attributeValue.attribute.storageType;
      if storageType.None? || storageType.value == "" {
        return Err(InvalidArgument(STORAGE_TYPE_IS_NON_EMPTY_STRING));
      }
      return Ok(NormalizedAttributeValue(
        attributeValue.id, attributeValue.code, attributeValue.localeCode,
        storageType.value + "-value", attributeValue.value));
    }

    method NormalizeProductOptionAndProductOptionValue(option: ProductOption, optionValue: ProductOptionValue)
      returns (r: Result<NormalizedOption, Error>)
      ensures r == OptionAndValueOf(option, optionValue)
    {
      var filterable := false;
      if option.filterable.Some? {
        filterable := option.filterable.value;
      }
      var value :- NormalizeProductOptionValue(optionValue);
      var name :- NormalizeLocalized(option.translations);
      return Ok(NormalizedOption(option.id, option.code, name, filterable, value));
    }

    method NormalizeChannelPricing(channelPricing: Option<ChannelPricing>) returns (r: Result<Option<NormalizedPricing>, Error>)
      ensures r == PricingOf(channelPricing)
    {
      if channelPricing.None? {
        return Ok(None);
      }
      var pricing := channelPricing.value;
      var promotions: seq<NormalizedPromotion> := [];
      for i := 0 to |pricing.appliedPromotions|
        invariant |promotions| == i
        invariant forall j :: 0 <= j < i ==> PromotionOf(pricing.appliedPromotions[j]) == Ok(promotions[j])
      {
        var promotion := pricing.appliedPromotions[i];
        var ts := promotion.translations;
        var labels: LocalizedField, descriptions: LocalizedField := [], [];
        for k := 0 to |ts|
          invariant |labels| == k && |descriptions| == k
          invariant forall j :: 0 <= j < k ==>
            ts[j].locale.Some? && labels[j] == Entries(Labels(ts))[j]
            && descriptions[j] == Entries(PromotionDescriptions(ts))[j]
        {
          var locale := ts[k].locale;
          if locale.None? {
            assert Labels(ts)[k].locale.None?;
            TraverseFirstError(pricing.appliedPromotions, PromotionOf, i);
            return Err(InvalidArgument(LOCALE_IS_STRING));
          }
          labels := labels + [map[locale.value := ts[k].promotionLabel]];
          descriptions := descriptions + [map[locale.value := ts[k].description]];
        }
        assert HasLocales(Labels(ts));
        assert labels == Entries(Labels(ts)) && descriptions == Entries(PromotionDescriptions(ts));
        promotions := promotions + [NormalizedPromotion(promotion.id, promotion.code, labels, descriptions)];
      }
      TraverseAllOk(pricing.appliedPromotions, PromotionOf, promotions);
      return Ok(Some(NormalizedPricing(pricing.price, pricing.originalPrice, promotions)));
    }

    method NormalizeProductImage(image: ProductImage) returns (r: NormalizedImage)
      ensures r == ImageOf(image)
    {
      var refs := image.productVariants;
      var variants: seq<NormalizedImageVariant> := [];
      for i := 0 to |refs|
        invariant |variants| == i && forall j :: 0 <= j < i ==> variants[j] == NormalizedImageVariant(refs[j].id, refs[j].code)
      {
        variants := variants + [NormalizedImageVariant(refs[i].id, refs[i].code)];
      }
      return NormalizedImage(image.id, image.imageType, image.path, variants);
    }

    method NormalizeProductOptionValue(optionValue: ProductOptionValue) returns (r: Result<NormalizedOptionValue, Error>)
      ensures r == OptionValueOf(optionValue)
    {
      var name :- NormalizeLocalized(optionValue.translations);
      return Ok(NormalizedOptionValue(optionValue.id, optionValue.code, optionValue.value, name));
    }
  }
}
