/** The index document the normaliser produces for one product. */
module IndexDocument {
  import opened Wrappers
  import opened Php

  /** A locale-keyed field: an ordered list of single-entry `{locale: text}` maps. */
  type LocalizedField = seq<map<string, Option<string>>>

  datatype NormalizedTaxon = NormalizedTaxon(syliusId: Id, code: Option<string>, name: LocalizedField)

  /** A taxon assignment: the taxon's fields merged with the assignment's `position`. */
  datatype NormalizedProductTaxon = NormalizedProductTaxon(taxon: NormalizedTaxon, position: Option<int>)

  datatype NormalizedPromotion = NormalizedPromotion(
    syliusId: Id,
    code: Option<string>,
    promotionLabel: LocalizedField,
    description: LocalizedField)

  datatype NormalizedPricing = NormalizedPricing(
    price: Option<int>,
    originalPrice: Option<int>,
    appliedPromotions: seq<NormalizedPromotion>)

  datatype NormalizedOptionValue = NormalizedOptionValue(
    syliusId: Id,
    code: Option<string>,
    value: Option<string>,
    name: LocalizedField)

  datatype NormalizedOption = NormalizedOption(
    syliusId: Id,
    code: Option<string>,
    name: LocalizedField,
    filterable: bool,
    value: NormalizedOptionValue)

  datatype NormalizedVariant = NormalizedVariant(
    syliusId: Id,
    code: Option<string>,
    enabled: bool,
    position: int,
    weight: Option<real>,
    width: Option<real>,
    height: Option<real>,
    depth: Option<real>,
    shippingRequired: bool,
    name: LocalizedField,
    price: Option<NormalizedPricing>,
    options: seq<NormalizedOption>)

  /** One attribute value; its raw value sits under the key `valueKey`, which is `<storage type>-value`. */
  datatype NormalizedAttributeValue = NormalizedAttributeValue(
    syliusId: Id,
    code: Option<string>,
    locale: Option<string>,
    valueKey: string,
    value: Json)

  /** The `values` of an attribute: grouped by locale code when translatable, a flat list otherwise. */
  datatype AttributeValues =
    | ByLocale(groups: seq<(string, seq<NormalizedAttributeValue>)>)
    | Flat(values: seq<NormalizedAttributeValue>)

  datatype NormalizedAttribute = NormalizedAttribute(
    syliusId: Id,
    code: Option<string>,
    attributeType: Option<string>,
    storageType: Option<string>,
    position: Option<int>,
    translatable: bool,
    filterable: bool,
    name: LocalizedField,
    values: AttributeValues)

  datatype NormalizedImageVariant = NormalizedImageVariant(syliusId: Id, code: Option<string>)

  datatype NormalizedImage = NormalizedImage(
    syliusId: Id,
    imageType: Option<string>,
    path: Option<string>,
    variants: seq<NormalizedImageVariant>)

  datatype Document = Document(
    syliusId: Id,
    code: Option<string>,
    enabled: bool,
    variantSelectionMethod: string,
    variantSelectionMethodLabel: string,
    createdAt: Option<string>,
    name: LocalizedField,
    description: LocalizedField,
    shortDescription: LocalizedField,
    slug: LocalizedField,
    taxons: seq<NormalizedProductTaxon>,
    variants: seq<NormalizedVariant>,
    defaultVariant: Option<NormalizedVariant>,
    mainTaxon: Option<NormalizedTaxon>,
    attributes: seq<NormalizedAttribute>,
    translatedAttributes: seq<NormalizedAttribute>,
    images: seq<NormalizedImage>)

  /** The number of raw values an attribute's `values` holds. */
  function ValueCount(vs: AttributeValues): nat {
    match vs
    case Flat(values) => |values|
    case ByLocale(groups) => GroupTotal(groups)
  }

  function GroupTotal(groups: seq<(string, seq<NormalizedAttributeValue>)>): nat {
    if groups == [] then 0 else GroupTotal(groups[..|groups| - 1]) + |groups[|groups| - 1].1|
  }

  /** The number of raw values a list of attributes holds. */
  function TotalValues(attributes: seq<NormalizedAttribute>): nat {
    if attributes == [] then 0
    else TotalValues(attributes[..|attributes| - 1]) + ValueCount(attributes[|attributes| - 1].values)
  }
}
