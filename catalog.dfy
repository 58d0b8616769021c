/**
 * The catalog aggregate as the normaliser reads it through Sylius' entity
 * getters. Entities are values here: the normaliser only reads them.
 * An `Option<bool>` named `filterable` is `None` when the attribute or option
 * does not implement the filterable capability and `Some(isFilterable())`
 * when it does.
 */
module Catalog {
  import opened Wrappers
  import opened Php

  /** A translation holding one text (taxon, variant, attribute and option names; option value labels). */
  datatype Translation = Translation(locale: Option<string>, text: Option<string>)

  datatype ProductTranslation = ProductTranslation(
    locale: Option<string>,
    name: Option<string>,
    description: Option<string>,
    shortDescription: Option<string>,
    slug: Option<string>)

  datatype PromotionTranslation = PromotionTranslation(
    locale: Option<string>,
    promotionLabel: Option<string>,
    description: Option<string>)

  datatype CatalogPromotion = CatalogPromotion(id: Id, code: Option<string>, translations: seq<PromotionTranslation>)

  datatype ChannelPricing = ChannelPricing(
    price: Option<int>,
    originalPrice: Option<int>,
    appliedPromotions: seq<CatalogPromotion>)

  datatype Locale = Locale(code: Option<string>)

  datatype Channel = Channel(code: Option<string>, defaultLocale: Option<Locale>)

  datatype ProductOption = ProductOption(
    id: Id,
    code: Option<string>,
    filterable: Option<bool>,
    translations: seq<Translation>)

  datatype ProductOptionValue = ProductOptionValue(
    id: Id,
    code: Option<string>,
    value: Option<string>,
    option: ProductOption,
    translations: seq<Translation>)

  datatype ProductVariant = ProductVariant(
    id: Id,
    code: Option<string>,
    enabled: bool,
    position: int,
    weight: Option<real>,
    width: Option<real>,
    height: Option<real>,
    depth: Option<real>,
    shippingRequired: bool,
    channelPricings: map<string, ChannelPricing>,
    optionValues: seq<ProductOptionValue>,
    translations: seq<Translation>)

  datatype Taxon = Taxon(id: Id, code: Option<string>, translations: seq<Translation>)

  datatype ProductTaxon = ProductTaxon(taxon: Taxon, position: Option<int>)

  datatype ProductAttribute = ProductAttribute(
    id: Id,
    code: Option<string>,
    attributeType: Option<string>,
    storageType: Option<string>,
    position: Option<int>,
    translatable: bool,
    filterable: Option<bool>,
    translations: seq<Translation>)

  datatype ProductAttributeValue = ProductAttributeValue(
    id: Id,
    code: Option<string>,
    localeCode: Option<string>,
    value: Json,
    attribute: ProductAttribute)

  /** A variant as an image references it. */
  datatype VariantRef = VariantRef(id: Id, code: Option<string>)

  datatype ProductImage = ProductImage(
    id: Id,
    imageType: Option<string>,
    path: Option<string>,
    productVariants: seq<VariantRef>)

  /** A product aggregate; `createdAt` is the creation time already rendered as ISO-8601 (`format('c')`). */
  datatype Product = Product(
    id: Id,
    code: Option<string>,
    enabled: bool,
    variantSelectionMethod: string,
    variantSelectionMethodLabel: string,
    createdAt: Option<string>,
    translations: seq<ProductTranslation>,
    mainTaxon: Option<Taxon>,
    productTaxons: seq<ProductTaxon>,
    variants: seq<ProductVariant>,
    attributes: seq<ProductAttributeValue>,
    images: seq<ProductImage>)

  /** `getChannelPricingForChannel($channel)`: the pricing stored under the channel's code, if any. */
  function PricingFor(v: ProductVariant, channel: Channel): Option<ChannelPricing> {
    if channel.code.Some? && channel.code.value in v.channelPricings
    then Some(v.channelPricings[channel.code.value])
    else None
  }
}
