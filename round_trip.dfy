/**
 * Normalise, store, parse: what survives from a product to the read model
 * built from its index document. The document the normaliser emits is the
 * `_source` the parser reads; it has no `product-options` entry, so the
 * parsed product has no options.
 */
module RoundTrip {
  import opened Wrappers
  import opened Php
  import opened Collections
  import opened Catalog
  import opened IndexDocument
  import Serializer
  import NormalizerProperties
  import opened Parser
  import ParserProperties

  function StoredPromotion(promotion: NormalizedPromotion): PromotionSource {
    PromotionSource(promotion.promotionLabel)
  }

  /** A variant's `price` entry: null when the variant had no pricing in the channel. */
  function StoredPrice(pricing: Option<NormalizedPricing>): Option<PriceSource> {
    match pricing
    case None => None
    case Some(p) =>
      Some(PriceSource(p.price, p.originalPrice,
        seq(|p.appliedPromotions|, i requires 0 <= i < |p.appliedPromotions| => StoredPromotion(p.appliedPromotions[i]))))
  }

  function StoredVariant(v: NormalizedVariant): VariantSource {
    VariantSource(v.code, Some(v.enabled), v.position, StoredPrice(v.price))
  }

  /** The `_source` of a hit on an indexed document, as far as the parser reads it. */
  function Stored(doc: Document): Source {
    Source(doc.code, doc.name, doc.description, doc.shortDescription, doc.slug,
      seq(|doc.images|, i requires 0 <= i < |doc.images| => ImageSource(doc.images[i].path, doc.images[i].imageType)),
      seq(|doc.variants|, i requires 0 <= i < |doc.variants| => StoredVariant(doc.variants[i])),
      [])
  }

  /** The translation entry of a normalised field holds `locale` exactly when the translation is in `locale`. */
  lemma EntryHasLocale(p: Product, channel: Channel, dv: Option<ProductVariant>, locale: string, j: nat)
    requires Serializer.DocumentOf(p, channel, dv).Ok? && j < |p.translations|
    ensures var d := Serializer.DocumentOf(p, channel, dv).value;
      && (locale in d.name[j] <==> p.translations[j].locale == Some(locale))
      && (locale in d.description[j] <==> p.translations[j].locale == Some(locale))
      && (locale in d.shortDescription[j] <==> p.translations[j].locale == Some(locale))
      && (locale in d.slug[j] <==> p.translations[j].locale == Some(locale))
  {
    NormalizerProperties.LocalizedFieldsAligned(p, channel, dv);
  }

  /**
   * Translated fields survive the round trip: in the locale of a product
   * translation, the parsed name, description and short description are
   * those of the first translation in that locale, and so is the slug.
   */
  lemma TranslationsRoundTrip(p: Product, channel: Channel, dv: Option<ProductVariant>,
                              readChannel: Channel, localeCode: string, fallbackLocaleCode: string, i: nat)
    requires Serializer.DocumentOf(p, channel, dv).Ok?
    requires i < |p.translations| && p.translations[i].locale == Some(localeCode) && p.translations[i].slug.Some?
    requires forall j :: 0 <= j < i ==> p.translations[j].locale != Some(localeCode)
    ensures var r := ParsedProduct(Stored(Serializer.DocumentOf(p, channel, dv).value), readChannel, localeCode, fallbackLocaleCode);
      && r.Ok?
      && r.value.code == p.code
      && r.value.name == p.translations[i].name
      && r.value.description == p.translations[i].description
      && r.value.shortDescription == p.translations[i].shortDescription
      && r.value.slug == p.translations[i].slug.value
  {
    var d := Serializer.DocumentOf(p, channel, dv).value;
    var dl := DefaultLocaleFor(readChannel, fallbackLocaleCode);
    NormalizerProperties.LocalizedFieldsAligned(p, channel, dv);
    forall j | 0 <= j <= i
      ensures (localeCode in d.name[j] <==> j == i) && (localeCode in d.description[j] <==> j == i)
      ensures (localeCode in d.shortDescription[j] <==> j == i) && (localeCode in d.slug[j] <==> j == i)
    {
      EntryHasLocale(p, channel, dv, localeCode, j);
    }
    ParserProperties.ActiveLocaleWins(d.name, localeCode, dl, i);
    ParserProperties.ActiveLocaleWins(d.description, localeCode, dl, i);
    ParserProperties.ActiveLocaleWins(d.shortDescription, localeCode, dl, i);
    ParserProperties.SlugOfActiveLocale(d.slug, localeCode, i);
  }

  /**
   * The slug does not survive into a locale the product has no translation
   * in: the parse fails with "Slug not found", while the other translated
   * fields would have fallen back to the default locale.
   */
  lemma UntranslatedLocaleFails(p: Product, channel: Channel, dv: Option<ProductVariant>,
                                readChannel: Channel, localeCode: string, fallbackLocaleCode: string)
    requires Serializer.DocumentOf(p, channel, dv).Ok?
    requires forall j :: 0 <= j < |p.translations| ==> p.translations[j].locale != Some(localeCode)
    ensures ParsedProduct(Stored(Serializer.DocumentOf(p, channel, dv).value), readChannel, localeCode, fallbackLocaleCode)
      == Err(Runtime(SLUG_NOT_FOUND))
  {
    var d := Serializer.DocumentOf(p, channel, dv).value;
    NormalizerProperties.LocalizedFieldsAligned(p, channel, dv);
    forall j | 0 <= j < |d.slug| ensures localeCode !in d.slug[j] {
      EntryHasLocale(p, channel, dv, localeCode, j);
    }
    ParserProperties.SlugHasNoFallback(Stored(d), readChannel, localeCode, fallbackLocaleCode);
  }

  /** Images survive the round trip in order, with path and type. */
  lemma ImagesRoundTrip(p: Product, channel: Channel, dv: Option<ProductVariant>,
                        readChannel: Channel, localeCode: string, fallbackLocaleCode: string)
    requires Serializer.DocumentOf(p, channel, dv).Ok?
    requires ParsedProduct(Stored(Serializer.DocumentOf(p, channel, dv).value), readChannel, localeCode, fallbackLocaleCode).Ok?
    ensures var r := ParsedProduct(Stored(Serializer.DocumentOf(p, channel, dv).value), readChannel, localeCode, fallbackLocaleCode).value;
      && |r.images| == |p.images|
      && forall i :: 0 <= i < |r.images| ==> r.images[i].path == p.images[i].path && r.images[i].imageType == p.images[i].imageType
  {
    NormalizerProperties.CollectionsInOrder(p, channel, dv);
  }

  /** The parsed variants of a stored document, each read from one of its variants, in ascending position. */
  lemma StoredVariantsParsed(d: Document, readChannel: Channel, localeCode: string, fallbackLocaleCode: string)
    requires ParsedProduct(Stored(d), readChannel, localeCode, fallbackLocaleCode).Ok?
    ensures var r := ParsedProduct(Stored(d), readChannel, localeCode, fallbackLocaleCode).value;
      && |r.variants| == |d.variants|
      && (forall i, j :: 0 <= i < j < |r.variants| ==> r.variants[i].position <= r.variants[j].position)
      && forall nv :: nv in d.variants ==>
           exists k :: (0 <= k < |r.variants| && r.variants[k].code == nv.code && r.variants[k].enabled == Some(nv.enabled)
             && r.variants[k].position == nv.position
             && r.variants[k].pricing.price == (if nv.price.Some? then nv.price.value.price else None))
  {
    var source := Stored(d);
    var r := ParsedProduct(source, readChannel, localeCode, fallbackLocaleCode).value;
    var dl := DefaultLocaleFor(readChannel, fallbackLocaleCode);
    ParserProperties.ParsedVariantsOrdered(source, readChannel, localeCode, fallbackLocaleCode);
    ParserProperties.ParsedVariantsPermuted(source, readChannel, localeCode, fallbackLocaleCode);
    forall nv | nv in d.variants
      ensures exists k :: (0 <= k < |r.variants| && r.variants[k].code == nv.code && r.variants[k].enabled == Some(nv.enabled)
        && r.variants[k].position == nv.position
        && r.variants[k].pricing.price == (if nv.price.Some? then nv.price.value.price else None))
    {
      var i :| 0 <= i < |d.variants| && d.variants[i] == nv;
      assert source.variants[i] == StoredVariant(nv);
      var rv := VariantOf(StoredVariant(nv), readChannel, localeCode, dl);
      assert rv in r.variants;
      var k :| 0 <= k < |r.variants| && r.variants[k] == rv;
    }
  }

  /**
   * Variants survive the round trip as a reordering: as many as the product
   * has, in ascending position, and every product variant is among them with
   * its code, enabled flag, position and channel price.
   */
  lemma VariantsRoundTrip(p: Product, channel: Channel, dv: Option<ProductVariant>,
                          readChannel: Channel, localeCode: string, fallbackLocaleCode: string)
    requires Serializer.DocumentOf(p, channel, dv).Ok?
    requires ParsedProduct(Stored(Serializer.DocumentOf(p, channel, dv).value), readChannel, localeCode, fallbackLocaleCode).Ok?
    ensures var r := ParsedProduct(Stored(Serializer.DocumentOf(p, channel, dv).value), readChannel, localeCode, fallbackLocaleCode).value;
      && |r.variants| == |p.variants|
      && (forall i, j :: 0 <= i < j < |r.variants| ==> r.variants[i].position <= r.variants[j].position)
      && forall v :: v in p.variants ==>
           exists k :: (0 <= k < |r.variants| && r.variants[k].code == v.code && r.variants[k].enabled == Some(v.enabled)
             && r.variants[k].position == v.position
             && r.variants[k].pricing.price == (if PricingFor(v, channel).Some? then PricingFor(v, channel).value.price else None))
  {
    var d := Serializer.DocumentOf(p, channel, dv).value;
    NormalizerProperties.CollectionsInOrder(p, channel, dv);
    StoredVariantsParsed(d, readChannel, localeCode, fallbackLocaleCode);
    forall v | v in p.variants
      ensures exists nv :: (nv in d.variants && nv.code == v.code && nv.enabled == v.enabled && nv.position == v.position
        && (if nv.price.Some? then nv.price.value.price else None) ==
           (if PricingFor(v, channel).Some? then PricingFor(v, channel).value.price else None))
    {
      var i :| 0 <= i < |p.variants| && p.variants[i] == v;
      NormalizedVariantFields(v, channel, d.variants[i]);
      assert d.variants[i] in d.variants;
    }
  }

  /** A normalised variant keeps the variant's code, enabled flag, position and channel price. */
  lemma NormalizedVariantFields(v: ProductVariant, channel: Channel, nv: NormalizedVariant)
    requires Serializer.VariantOf(v, channel) == Ok(nv)
    ensures nv.code == v.code && nv.enabled == v.enabled && nv.position == v.position
    ensures nv.price.Some? <==> PricingFor(v, channel).Some?
    ensures nv.price.Some? ==> nv.price.value.price == PricingFor(v, channel).value.price
  {
  }
}
