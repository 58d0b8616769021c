# SyliusElasticsearchPlugin core, modelled in Dafny

This project models the three pieces of the plugin that move catalog data
to the search engine and back:

- **`ProductNormalizer`** (module `Serializer`) flattens a Sylius product
  into its index document. Every translated field becomes an ordered list
  of one-entry `{locale: text}` maps. Attribute values are filed into two
  ordered dictionaries keyed by attribute id, one for translatable and one
  for plain attributes. Translatable values are then grouped by locale.
  Each variant's option values are flattened. Unsupported id types, a
  repeated option, a missing locale and an empty storage type are rejected.
- **`ElasticsearchProductDocumentParser`** (module `Parser`) rebuilds the
  read model from an index hit. It fixes the default locale from the
  channel and falls back to the configured code. It looks localised fields
  up with a first-active-locale, last-default-locale rule. The slug is
  looked up with no fallback and fails with "Slug not found". Variants are
  sorted by `position` with a stable sort.
- **`TwigQueryBuilder`** (module `Builder`) assembles the Elasticsearch
  query for a taxon page or a search. It renders and decodes the base
  query, one sort fragment per requested field and, on request, three
  aggregation fragments merged with PHP's `array_merge`.

Each imperative PHP method is a Dafny method with its loops. Each is proved
against a reference function (`DocumentOf`, `ParsedProduct`, `QueryOf`,
...). The properties the source promises are lemmas about those functions.

- **PHP values.** PHP arrays are ordered sequences of key/value pairs
  (`Php`, `PhpArrays`). A key is an int or a string; a canonical decimal
  string becomes an int key, as in PHP. `array_merge` is modelled with its
  int-key renumbering.
- **Exceptions.** Exceptions are `Err` values, and the first one met in
  source order is the one returned.
- **Twig and `json_decode`.** Twig rendering followed by `json_decode` is
  one function `renderDecode(template, params) -> Option<Json>`, where
  `None` is the failure.
- **Collaborators.** The default-variant resolver, the locale context, the
  channel context and `FilterHelper::retrieveFilters()` are inputs fixed at
  construction or passed as parameters: the builder keeps its locale code
  and filters from construction, while `Parse` takes the locale code and
  the channel with each call.
- **Round trip.** A normalise-then-parse round trip is stated in module
  `RoundTrip`. It covers code, the localised fields, the slug, images and
  the variants' code, position and price.

## Model

| member | source | states |
|---|---|---|
| Serializer.ProductNormalizer.Normalize | src/Serializer/ProductNormalizer.php:42-148 | the document is `DocumentOf(p, channel, resolver(p))`: the translation fields, default variant, main taxon, taxons, variants, attributes and images, with errors in source order |
| Serializer.ProductNormalizer.NormalizeProductTranslations | src/Serializer/ProductNormalizer.php:69-84 | fails on the first translation without a locale; otherwise name, description, short-description and slug each hold one `{locale: value}` entry per translation, in order |
| Serializer.ProductNormalizer.NormalizeDefaultVariant | src/Serializer/ProductNormalizer.php:85-88 | null when the resolver gives no variant, else the normalised variant or its error |
| Serializer.ProductNormalizer.NormalizeMainTaxon | src/Serializer/ProductNormalizer.php:89-92 | null when there is no main taxon, else the normalised taxon or its error |
| Serializer.ProductNormalizer.NormalizeProductTaxons | src/Serializer/ProductNormalizer.php:93-95 | one entry per product taxon in order, or the first error |
| Serializer.ProductNormalizer.NormalizeProductVariants | src/Serializer/ProductNormalizer.php:96-99 | one entry per variant in order, or the first error |
| Serializer.ProductNormalizer.NormalizeAttributes | src/Serializer/ProductNormalizer.php:101-141 | equals `AttributesOf`: an unsupported id fails; otherwise the per-id buckets of the translatable and plain values, normalised in first-seen key order |
| Serializer.ProductNormalizer.FileByTranslatability | src/Serializer/ProductNormalizer.php:116-134 | one loop step keeps both dictionaries equal to the buckets of their half of the values seen so far |
| Serializer.ProductNormalizer.File | src/Serializer/ProductNormalizer.php:117-123 | opening a bucket for a new id and appending the value keeps the dictionary equal to the first-seen buckets |
| Serializer.ProductNormalizer.NormalizeBuckets | src/Serializer/ProductNormalizer.php:136-141 | reading the dictionary in key order normalises exactly `BucketsOf(values)`, in order, or fails with the first error |
| Serializer.ProductNormalizer.NormalizeProductImages | src/Serializer/ProductNormalizer.php:142-145 | one normalised image per product image, in order |
| Serializer.ProductNormalizer.NormalizeLocalized | src/Serializer/ProductNormalizer.php:171-177 | one `{locale: text}` entry per translation in order, or the locale assertion error |
| Serializer.ProductNormalizer.NormalizeTaxon | src/Serializer/ProductNormalizer.php:163-180 | id, code and the localised name of the taxon |
| Serializer.ProductNormalizer.NormalizeProductTaxon | src/Serializer/ProductNormalizer.php:182-191 | the taxon's fields merged with the assignment's position |
| Serializer.ProductNormalizer.NormalizeProductVariant | src/Serializer/ProductNormalizer.php:193-243 | equals `VariantOf`: scalar fields, channel price, options (after the option-id checks) and the localised name |
| Serializer.ProductNormalizer.NormalizeAttribute | src/Serializer/ProductNormalizer.php:248-286 | equals `AttributeOf`: attribute fields, filterable flag, localised name, and values grouped by locale or kept flat |
| Serializer.ProductNormalizer.GroupByLocale | src/Serializer/ProductNormalizer.php:275-280 | fails like the traversal of the values; otherwise yields `ByLocaleOf` of the normalised values |
| Serializer.ProductNormalizer.AddToGroup | src/Serializer/ProductNormalizer.php:279 | opening a locale group when new and appending keeps the dictionary equal to the first-seen locale groups |
| Serializer.ProductNormalizer.NormalizeAttributeValue | src/Serializer/ProductNormalizer.php:288-301 | equals `AttributeValueOf`; what that promises for an attribute is stated by `NormalizerProperties.StorageTypeRejected` and `NormalizerProperties.ValuesKeyedByOwnStorageType` |
| Serializer.ProductNormalizer.constructor | src/Serializer/ProductNormalizer.php:34-37 | keeps the injected default-variant resolver, which `Normalize` then consults |
| Serializer.ProductNormalizer.NormalizeProductOptionAndProductOptionValue | src/Serializer/ProductNormalizer.php:303-328 | equals `OptionAndValueOf`: option fields, filterable flag, normalised value, localised name |
| Serializer.ProductNormalizer.NormalizeChannelPricing | src/Serializer/ProductNormalizer.php:330-364 | equals `PricingOf`: null for no pricing, else prices and one entry per applied promotion |
| Serializer.ProductNormalizer.NormalizeProductImage | src/Serializer/ProductNormalizer.php:366-382 | equals `ImageOf` |
| Serializer.ProductNormalizer.NormalizeProductOptionValue | src/Serializer/ProductNormalizer.php:384-402 | equals `OptionValueOf` |
| Serializer.BucketAt | src/Serializer/ProductNormalizer.php:117-123 | a bucket holds the values with its id in source order, is non-empty, and keeps the attribute of its first value |
| Serializer.OptionIdErrorStep | src/Serializer/ProductNormalizer.php:211-225 | one step of the option scan: an unsupported id, then an id already seen, then continue with the id recorded |
| Serializer.GroupedSnoc | src/Serializer/ProductNormalizer.php:279 | appending a value to its locale group keeps the groups equal to the first-seen locale groups |
| Serializer.GroupedIsByLocaleOf | src/Serializer/ProductNormalizer.php:279 | the groups read in key order are `ByLocaleOf` of the values |
| Serializer.FiledSnoc | src/Serializer/ProductNormalizer.php:117-123 | filing a value keeps the dictionary equal to the first-seen buckets |
| NormalizerProperties.LocalizedFieldsAligned | src/Serializer/ProductNormalizer.php:69-84 | name, description, short-description and slug have one entry per translation, and entry i is `{locale_i: field_i}` |
| NormalizerProperties.MissingProductLocaleRejected | src/Serializer/ProductNormalizer.php:70-71 | a translation without a locale makes normalisation fail with the locale assertion |
| NormalizerProperties.DefaultVariantAndMainTaxon | src/Serializer/ProductNormalizer.php:62-63 | `default-variant` and `main-taxon` are null exactly when the resolver or product supplies none, and are otherwise the normalised variant and taxon |
| NormalizerProperties.DocumentParts | src/Serializer/ProductNormalizer.php:93-145 | taxons, variants, attribute lists and images of a document are the traversals of the product's collections |
| NormalizerProperties.CollectionsInOrder | src/Serializer/ProductNormalizer.php:93-99 | taxons, variants and images have one entry per source element, in source order |
| NormalizerProperties.OptionIdErrorSpec | src/Serializer/ProductNormalizer.php:211-225 | the option scan passes iff every option id is int or string and no option repeats; with supported ids its only error is the duplicate option |
| NormalizerProperties.VariantOptionsFlattened | src/Serializer/ProductNormalizer.php:211-231 | a normalised variant has supported, pairwise distinct option ids and one option entry per option value, in order, with the option's fields and normalised value |
| NormalizerProperties.DuplicateOptionRejected | src/Serializer/ProductNormalizer.php:218-220 | two option values of the same option give "Multiple values for the same option are not supported." |
| NormalizerProperties.OptionIdErrorAt | src/Serializer/ProductNormalizer.php:214-217 | the scan reports the unsupported option id when it reaches one before any duplicate |
| NormalizerProperties.UnsupportedOptionRejected | src/Serializer/ProductNormalizer.php:214-217 | an option id that is neither int nor string, met before any duplicate, gives "Option ID different from string or integer is not supported." |
| NormalizerProperties.PricingShape | src/Serializer/ProductNormalizer.php:330-364 | no channel pricing gives null; otherwise prices are copied and each promotion has one label and description entry per translation |
| NormalizerProperties.StorageTypeRejected | src/Serializer/ProductNormalizer.php:292-295 | scanning an attribute's values in order, the first one whose own attribute's storage type is null or empty (after the locale check when translatable) fails the attribute with the storage-type assertion |
| NormalizerProperties.ValuesKeyedByOwnStorageType | src/Serializer/ProductNormalizer.php:292-299 | in a normalised attribute each value's own attribute had a non-empty storage type, and the value sits under that storage type + "-value" (not necessarily the bucket attribute's), with id and locale copied |
| NormalizerProperties.TranslatableValueChecks | src/Serializer/ProductNormalizer.php:276-279 | a translatable value without a locale fails the locale assertion; otherwise it is normalised and keeps its locale |
| NormalizerProperties.GroupTotalOfSelect | src/Serializer/ProductNormalizer.php:279 | the sizes of the locale groups add up as the group sizes of the values |
| NormalizerProperties.ByLocaleShape | src/Serializer/ProductNormalizer.php:277-279 | locale groups have distinct locales and hold that locale's values in source order; every value is in a group; nothing is lost |
| NormalizerProperties.TranslatedValuesByLocale | src/Serializer/ProductNormalizer.php:277-279 | a translatable attribute's values are the locale groups of its normalised values, each value with a locale |
| NormalizerProperties.PlainValuesFlat | src/Serializer/ProductNormalizer.php:280-281 | a plain attribute's values are a flat list of the normalised values, in source order |
| NormalizerProperties.AttributeShape | src/Serializer/ProductNormalizer.php:248-286 | attribute fields are copied, `filterable` is the optional flag or false, one name entry per translation, and the values count equals the input count |
| NormalizerProperties.TotalOfBuckets | src/Serializer/ProductNormalizer.php:136-141 | the normalised buckets hold as many values as the buckets they come from |
| NormalizerProperties.BucketsKeepValues | src/Serializer/ProductNormalizer.php:107-141 | normalising all buckets keeps every value: the total equals the number of input values |
| NormalizerProperties.BucketsShape | src/Serializer/ProductNormalizer.php:117-134 | buckets are non-empty, keep their first value's attribute, hold all values with their id in order, have distinct ids, and cover every value |
| NormalizerProperties.BucketsInFirstSeenOrder | src/Serializer/ProductNormalizer.php:117-134 | an earlier bucket's id occurs in the input before any value of a later bucket |
| NormalizerProperties.AttributeTranslatability | src/Serializer/ProductNormalizer.php:251-262 | a normalised attribute is translatable, and groups by locale, exactly when its attribute is translatable |
| NormalizerProperties.BucketsKeepTranslatability | src/Serializer/ProductNormalizer.php:116-141 | every attribute from the translatable half is translatable and grouped; every one from the plain half is neither |
| NormalizerProperties.AttributeValuesPartitioned | src/Serializer/ProductNormalizer.php:107-141 | translated attributes are the translatable buckets, plain attributes the rest, and together they hold every input value once |
| NormalizerProperties.DocumentKeepsAttributeValues | src/Serializer/ProductNormalizer.php:107-141 | the document's two attribute lists hold as many values as the product has attribute values |
| NormalizerProperties.UnsupportedAttributeRejected | src/Serializer/ProductNormalizer.php:111-114 | an attribute id that is neither int nor string fails normalisation with the unsupported-attribute error once the earlier steps pass |
| Parser.FirstWith | src/Parser/ElasticsearchProductDocumentParser.php:151-154 | the index of the first entry holding the locale, or none when no entry does |
| Parser.LastWith | src/Parser/ElasticsearchProductDocumentParser.php:155-157 | the index of the last entry holding the locale, or none when no entry does |
| Parser.ElasticsearchProductDocumentParser.constructor | src/Parser/ElasticsearchProductDocumentParser.php:38-50 | keeps the fallback code; no default locale yet |
| Parser.ElasticsearchProductDocumentParser.Parse | src/Parser/ElasticsearchProductDocumentParser.php:52-141 | sets `defaultLocale` to `DefaultLocaleFor(channel, fallback)` and returns `ParsedProduct` |
| Parser.ElasticsearchProductDocumentParser.ParseImages | src/Parser/ElasticsearchProductDocumentParser.php:76-81 | one image per source image, in order |
| Parser.ElasticsearchProductDocumentParser.ParseVariants | src/Parser/ElasticsearchProductDocumentParser.php:93-116 | one response variant per sorted source variant, in order |
| Parser.ElasticsearchProductDocumentParser.ParseVariant | src/Parser/ElasticsearchProductDocumentParser.php:94-115 | the response variant built from one source variant (`VariantOf`) |
| Parser.ElasticsearchProductDocumentParser.ParseOptions | src/Parser/ElasticsearchProductDocumentParser.php:118-138 | one response option per source option, in order |
| Parser.ElasticsearchProductDocumentParser.ParseOption | src/Parser/ElasticsearchProductDocumentParser.php:119-137 | the response option built from one source option (`OptionOf`) |
| Parser.ElasticsearchProductDocumentParser.GetValueFromLocalizedField | src/Parser/ElasticsearchProductDocumentParser.php:146-161 | fails the string assertion when no default locale is set; otherwise `LocalizedValue(field, locale, defaultLocale)` |
| Parser.ElasticsearchProductDocumentParser.GetSlug | src/Parser/ElasticsearchProductDocumentParser.php:166-175 | equals `Slug(field, locale)` |
| ParserProperties.ActiveLocaleWins | src/Parser/ElasticsearchProductDocumentParser.php:151-154 | the value of the first entry with the active locale is returned |
| ParserProperties.DefaultLocaleFallback | src/Parser/ElasticsearchProductDocumentParser.php:155-160 | with no active-locale entry, the value of the last default-locale entry is returned |
| ParserProperties.NoLocaleIsNull | src/Parser/ElasticsearchProductDocumentParser.php:148-160 | with neither locale present the lookup is null |
| ParserProperties.LocalizedValueFound | src/Parser/ElasticsearchProductDocumentParser.php:146-161 | a non-null lookup result is the value of some entry under the active or the default locale |
| ParserProperties.SlugOfActiveLocale | src/Parser/ElasticsearchProductDocumentParser.php:168-171 | the slug is the first active-locale entry's value |
| ParserProperties.SlugHasNoFallback | src/Parser/ElasticsearchProductDocumentParser.php:174 | with no active-locale slug entry, parsing fails with "Slug not found", whatever the default locale holds |
| ParserProperties.ParseFailsOnlyOnSlug | src/Parser/ElasticsearchProductDocumentParser.php:52-141 | parsing succeeds iff the slug lookup does, and otherwise fails with the slug's error |
| ParserProperties.InsertPermutes | src/Parser/ElasticsearchProductDocumentParser.php:87-92 | inserting into the sorted prefix adds exactly the element |
| ParserProperties.InsertSorted | src/Parser/ElasticsearchProductDocumentParser.php:87-92 | inserting keeps the sequence sorted by position |
| ParserProperties.InsertStable | src/Parser/ElasticsearchProductDocumentParser.php:87-92 | inserting keeps the relative order of equal positions |
| ParserProperties.SortByPositionSpec | src/Parser/ElasticsearchProductDocumentParser.php:86-92 | the sort is sorted by position, a permutation, and stable |
| ParserProperties.SortedFirstIsMinimum | src/Parser/ElasticsearchProductDocumentParser.php:86-93 | the first sorted variant has the minimum position |
| ParserProperties.ParsedProductFields | src/Parser/ElasticsearchProductDocumentParser.php:68-81 | code, current locale, name, description and short description via the localised lookup, slug from the first active-locale entry, images copied in order |
| ParserProperties.ParsedVariantsAreSorted | src/Parser/ElasticsearchProductDocumentParser.php:86-116 | the response variants are the sorted source variants, in sorted order |
| ParserProperties.ParsedVariantsOrdered | src/Parser/ElasticsearchProductDocumentParser.php:86-116 | response variants come in ascending position |
| ParserProperties.ParsedVariantsPermuted | src/Parser/ElasticsearchProductDocumentParser.php:86-116 | every source variant appears in the response and every response variant comes from a source variant |
| ParserProperties.PricingCopied | src/Parser/ElasticsearchProductDocumentParser.php:100-113 | prices copied, the channel code is the current channel's, one promotion per applied promotion with its label from the localised lookup |
| ParserProperties.OptionsUseFallbackLocale | src/Parser/ElasticsearchProductDocumentParser.php:118-138 | options and values in source order; each value has the active locale as current and the configured fallback code as fallback |
| Builder.SetNewKey | src/Builder/TwigQueryBuilder.php:121 | setting a key not yet present appends it |
| Builder.TwigQueryBuilder.constructor | src/Builder/TwigQueryBuilder.php:22-29 | keeps the render function, locale code and ambient filters |
| Builder.TwigQueryBuilder.BuildTaxonQuery | src/Builder/TwigQueryBuilder.php:31-102 | `QueryOf` for a taxon subject, with explicit filters preferred over ambient ones |
| Builder.TwigQueryBuilder.BuildSearchQuery | src/Builder/TwigQueryBuilder.php:104-175 | `QueryOf` for a search subject, with explicit filters preferred over ambient ones |
| Builder.TwigQueryBuilder.Build | src/Builder/TwigQueryBuilder.php:112-174 | the query assembled step by step equals `QueryOf` |
| Builder.TwigQueryBuilder.AddSorts | src/Builder/TwigQueryBuilder.php:123-135 | fails with the first failing sort fragment; otherwise appends a `sort` list of the decoded fragments, in caller order |
| Builder.TwigQueryBuilder.AppendSort | src/Builder/TwigQueryBuilder.php:133 | one `$query['sort'][] = ...` step turns the `sort` entry into the list of all sort fragments so far, opening it on first use |
| Builder.SortAppend | src/Builder/TwigQueryBuilder.php:133 | appending to `sort` on a query without one gives the query followed by one `sort` entry holding every fragment in order |
| Builder.TwigQueryBuilder.AddPaging | src/Builder/TwigQueryBuilder.php:136-141 | `from` and `size` are added, each exactly when given |
| Builder.TwigQueryBuilder.Aggregations | src/Builder/TwigQueryBuilder.php:143-169 | equals `AggsOf`: the three fragments decoded in order, then `array_merge`d |
| Builder.TwigQueryBuilder.RenderFragment | src/Builder/TwigQueryBuilder.php:119-120 | equals `Decoded` |
| BuilderProperties.LookupParts | src/Builder/TwigQueryBuilder.php:118-170 | a key of the assembled query resolves to the part that sets it |
| BuilderProperties.AssembledEntries | src/Builder/TwigQueryBuilder.php:118-170 | the assembled query maps `query`, `sort`, `from`, `size` and `aggs` to their parts and holds no other key |
| BuilderProperties.AssembledKeys | src/Builder/TwigQueryBuilder.php:118-170 | the keys come in the order query, sort, from, size, aggs, each present exactly when its part is |
| BuilderProperties.QueryShape | src/Builder/TwigQueryBuilder.php:113-170 | a built query comes from a decoded base fragment, one decoded sort fragment per field in order, and the aggregations exactly when requested |
| BuilderProperties.QueryKeys | src/Builder/TwigQueryBuilder.php:118-170 | keys are `query`, then `sort` iff sorting is given and non-empty, `from` iff given, `size` iff given, `aggs` iff requested |
| BuilderProperties.QueryEntries | src/Builder/TwigQueryBuilder.php:113-170 | each key's value: base fragment, sort list, from, size, merged aggregations |
| BuilderProperties.AggsKeyUnion | src/Builder/TwigQueryBuilder.php:165-169 | all three fragments are arrays; a string key takes the value of the last fragment that has it; int-keyed values are concatenated in order |
| BuilderProperties.BuildSucceedsIff | src/Builder/TwigQueryBuilder.php:113-170 | the build succeeds iff the base and every sort fragment decode and, when requested, the three aggregation fragments decode to arrays |
| BuilderProperties.FirstFailureReported | src/Builder/TwigQueryBuilder.php:120-132 | a failing base fragment, or the first failing sort fragment, is the error reported |
| RoundTrip.EntryHasLocale | src/Serializer/ProductNormalizer.php:69-84 | entry j of each localised field holds a locale exactly when translation j has it |
| RoundTrip.TranslationsRoundTrip | src/Parser/ElasticsearchProductDocumentParser.php:68-73 | when the first translation in a locale has a non-null slug, parsing the stored document in that locale gives back the product code and that translation's name, description, short description and slug |
| RoundTrip.UntranslatedLocaleFails | src/Parser/ElasticsearchProductDocumentParser.php:166-175 | parsing a stored document in a locale no translation has fails with "Slug not found" |
| RoundTrip.ImagesRoundTrip | src/Parser/ElasticsearchProductDocumentParser.php:76-81 | images come back with the product's paths and types, in order |
| RoundTrip.StoredVariantsParsed | src/Parser/ElasticsearchProductDocumentParser.php:86-116 | the parsed variants are the document's variants in ascending position, with code, enabled, position and price kept |
| RoundTrip.VariantsRoundTrip | src/Parser/ElasticsearchProductDocumentParser.php:86-116 | every product variant comes back with its code, enabled flag, position and channel price, in ascending position |
| RoundTrip.NormalizedVariantFields | src/Serializer/ProductNormalizer.php:193-208 | a normalised variant keeps code, enabled, position and the channel price |
| Php.KeyOfStringInjective | src/Serializer/ProductNormalizer.php:117-128 | PHP's string-to-key coercion never maps two different strings to the same key |
| PhpArrays.KeyIndex | src/Builder/TwigQueryBuilder.php:121 | the position of a key in a PHP array, or none when the key is absent |
| PhpArrays.ListPush | src/Builder/TwigQueryBuilder.php:133 | `$a[] = v` on a list appends v with the next index |
| PhpArrays.LookupSet | src/Builder/TwigQueryBuilder.php:121 | after `$a[k] = v`, k maps to v and every other key is unchanged |
| PhpArrays.MergeOfThreeLookup | src/Builder/TwigQueryBuilder.php:165-169 | a string key is in `array_merge(a, b, c)` iff it is in one of them, with the last one winning |
| PhpArrays.MergeOfThreeIntValues | src/Builder/TwigQueryBuilder.php:165-169 | the int-keyed values of `array_merge(a, b, c)` are those of a, b and c in order |
| PhpArrays.LookupAppend | src/Builder/TwigQueryBuilder.php:118-170 | a key of `a + b` resolves in b first, then in a |

## Left out

- Logging: the PSR logger and the debug line are left out.
- Builder.TwigQueryBuilder.Build: the `JsonException` that the debug line's `json_encode` can throw before the query is returned is not modelled, so the model returns `Ok` where PHP throws. This happens for a result nested deeper than the encoder's 512 levels (a base or aggregation fragment decoded at the limit, or a sort fragment one level below it) and for a fragment holding a number `json_decode` turned into INF or NaN.
- JSON fragments are modelled without floating-point numbers: `Json` has no float case. The builder only copies decoded fragments into the query, so a float in a fragment would behave like any other copied value.
- Elasticsearch, HTTP and I/O are not part of this model.
- Twig rendering and `json_decode` are one function, so a Twig error and a JSON error are the same `Fragment` error.
- The decode depth limit of 512 is not modelled.
- Floats are not modelled: weight, width, height and depth are opaque `real` values that are only copied.
- Sylius entity getters, factories, setters and response-object identity are left out. Entities are values and the response is a datatype.
- `instanceof` checks and `Assert::isInstanceOf` are type-level. The model's types guarantee them.
- The `ProductVariantResolverInterface`, the locale context, the channel context and `FilterHelper::retrieveFilters()` are inputs fixed at construction or passed as parameters.
- `created-at` is the already-formatted string; `DateTime::format('c')` is not modelled.
- `supportsNormalization` and `getSupportedTypes` are not modelled: they answer the serializer's dispatch and carry no core logic.
- The controller, the paginated adapter, the dependency-injection configuration, `DoctrineORMFilterableTrait` and `DocumentTypeInterface` are not part of this model. `FilterableInterface` is the optional `filterable` flag.
- Parser.ElasticsearchProductDocumentParser.ParseVariant: a variant whose `price` is null is read as null prices with no promotions. PHP would also emit a warning.
- Parser.ElasticsearchProductDocumentParser.Parse: a hit without `product-options` is read as having none. PHP would also emit a warning. The normaliser never writes that key, so the round-trip lemmas store an empty list.
- Serializer.ProductNormalizer.GroupByLocale: locale codes in one-entry `{locale: value}` maps and in locale groups stay strings; PHP would store a numeric locale code as an int key. String-to-key coercion is injective (`Php.KeyOfStringInjective`), so grouping and lookup are unaffected.
- Assertion failures carry a short name of the failed check, not Webmozart's generated message.
- PhpArrays.NextIndex: an array whose int keys are all negative gets 0 as its next index, as before PHP 8.3. PHP 8.3 and later use the largest key plus one. Only lists reach it here.
- Catalog.ProductVariant: every variant is taken to have an integer `position`. Sylius types it `?int`; a null position, which the normaliser would copy as null and the parser would compare with PHP's null-versus-int `<=>` (null compares as false, so null equals 0 yet is below -3), is not modelled. That comparison is not a total order, so the variant-ordering lemmas (`ParserProperties.SortByPositionSpec`, `ParserProperties.ParsedVariantsOrdered`, `RoundTrip.StoredVariantsParsed`, `RoundTrip.VariantsRoundTrip`) speak only of products whose variants all have a position.
- `usort` is modelled by its result: a stable sort by position, which PHP 8 guarantees.
- The duplicated code of `buildTaxonQuery` and `buildSearchQuery` is one shared `Build` method. The two differ only in the subject and the template directory.
