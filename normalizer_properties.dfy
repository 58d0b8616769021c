/**
 * What the index document promises, proved about the normaliser's reference
 * definitions (and so, through the methods' postconditions, about the
 * methods of ProductNormalizer).
 */
module NormalizerProperties {
  import opened Wrappers
  import opened Php
  import opened Collections
  import opened Catalog
  import opened IndexDocument
  import opened Serializer

  // ---------------------------------------------------------------------------
  // Translated fields
  // ---------------------------------------------------------------------------

  /**
   * `name`, `description`, `short-description` and `slug` hold one
   * single-entry `{locale: text}` map per product translation, in
   * translation order, so the four lists have equal length.
   */
  lemma LocalizedFieldsAligned(p: Product, channel: Channel, dv: Option<ProductVariant>)
    requires DocumentOf(p, channel, dv).Ok?
    ensures
      var d, ts := DocumentOf(p, channel, dv).value, p.translations;
      |d.name| == |ts| && |d.description| == |ts| && |d.shortDescription| == |ts| && |d.slug| == |ts|
      && forall i :: 0 <= i < |ts| ==>
           ts[i].locale.Some?
           && d.name[i] == map[ts[i].locale.value := ts[i].name]
           && d.description[i] == map[ts[i].locale.value := ts[i].description]
           && d.shortDescription[i] == map[ts[i].locale.value := ts[i].shortDescription]
           && d.slug[i] == map[ts[i].locale.value := ts[i].slug]
  {
    var ts := p.translations;
    forall i | 0 <= i < |ts| ensures ts[i].locale.Some? {
      assert Names(ts)[i].locale == ts[i].locale;
    }
  }

  /** A product translation without a locale fails the locale assertion before anything else is normalised. */
  lemma MissingProductLocaleRejected(p: Product, channel: Channel, dv: Option<ProductVariant>, i: nat)
    requires i < |p.translations| && p.translations[i].locale.None?
    ensures DocumentOf(p, channel, dv) == Err(InvalidArgument(LOCALE_IS_STRING))
  {
    assert Names(p.translations)[i].locale.None?;
  }

  /** `default-variant` and `main-taxon` stay null unless the resolver, or the product, supplies one. */
  lemma DefaultVariantAndMainTaxon(p: Product, channel: Channel, dv: Option<ProductVariant>)
    requires DocumentOf(p, channel, dv).Ok?
    ensures
      var d := DocumentOf(p, channel, dv).value;
      (d.defaultVariant.None? <==> dv.None?) && (d.mainTaxon.None? <==> p.mainTaxon.None?)
      && (dv.Some? ==> VariantOf(dv.value, channel) == Ok(d.defaultVariant.value))
      && (p.mainTaxon.Some? ==> TaxonOf(p.mainTaxon.value) == Ok(d.mainTaxon.value))
  {
  }

  /** Where each collection of a normalised document comes from. */
  lemma DocumentParts(p: Product, channel: Channel, dv: Option<ProductVariant>)
    requires DocumentOf(p, channel, dv).Ok?
    ensures
      var d := DocumentOf(p, channel, dv).value;
      Traverse(p.productTaxons, ProductTaxonOf) == Ok(d.taxons)
      && Traverse(p.variants, VariantIn(channel)) == Ok(d.variants)
      && AttributesOf(p.attributes) == Ok((d.attributes, d.translatedAttributes))
      && d.images == ImagesOf(p.images)
  {
  }

  /** Taxons, variants and images: one entry per source element, in source order. */
  lemma CollectionsInOrder(p: Product, channel: Channel, dv: Option<ProductVariant>)
    requires DocumentOf(p, channel, dv).Ok?
    ensures
      var d := DocumentOf(p, channel, dv).value;
      |d.taxons| == |p.productTaxons| && |d.variants| == |p.variants| && |d.images| == |p.images|
      && (forall i :: 0 <= i < |p.productTaxons| ==> ProductTaxonOf(p.productTaxons[i]) == Ok(d.taxons[i]))
      && (forall i :: 0 <= i < |p.variants| ==> VariantOf(p.variants[i], channel) == Ok(d.variants[i]))
      && (forall i :: 0 <= i < |p.images| ==>
            d.images[i].path == p.images[i].path && d.images[i].imageType == p.images[i].imageType
            && |d.images[i].variants| == |p.images[i].productVariants|)
  {
    DocumentParts(p, channel, dv);
    TraverseSpec(p.productTaxons, ProductTaxonOf);
    TraverseSpec(p.variants, VariantIn(channel));
  }

  // ---------------------------------------------------------------------------
  // Variant options
  // ---------------------------------------------------------------------------

  /**
   * The option scan succeeds exactly when every option id is an int or a
   * string, none was seen before, and no two option values share an option;
   * with supported ids only, the one error left is a repeated option.
   */
  lemma {:induction false} OptionIdErrorSpec(ovs: seq<ProductOptionValue>, seen: set<Key>)
    ensures OptionIdErrorFrom(ovs, seen).None? <==>
      (forall i :: 0 <= i < |ovs| ==> OptionKey(ovs[i]).Some? && OptionKey(ovs[i]).value !in seen)
      && (forall i, j :: 0 <= i < j < |ovs| ==> OptionKey(ovs[i]) != OptionKey(ovs[j]))
    ensures (forall i :: 0 <= i < |ovs| ==> OptionKey(ovs[i]).Some?) ==>
      OptionIdErrorFrom(ovs, seen).None? || OptionIdErrorFrom(ovs, seen) == Some(Runtime(MULTIPLE_OPTION_VALUES))
    decreases |ovs|
  {
    if ovs != [] {
      var rest := ovs[1..];
      assert forall i :: 0 <= i < |rest| ==> rest[i] == ovs[i + 1];
      match OptionKey(ovs[0])
      case None =>
      case Some(k) =>
        OptionIdErrorSpec(rest, seen + {k});
        if k !in seen && OptionIdErrorFrom(rest, seen + {k}).None? {
          forall i, j | 0 <= i < j < |ovs| ensures OptionKey(ovs[i]) != OptionKey(ovs[j]) {
            if i > 0 {
              assert OptionKey(rest[i - 1]) != OptionKey(rest[j - 1]);
            } else {
              assert OptionKey(rest[j - 1]).value !in seen + {k};
            }
          }
        }
        if (forall i :: 0 <= i < |ovs| ==> OptionKey(ovs[i]).Some? && OptionKey(ovs[i]).value !in seen)
          && (forall i, j :: 0 <= i < j < |ovs| ==> OptionKey(ovs[i]) != OptionKey(ovs[j]))
        {
          forall i | 0 <= i < |rest| ensures OptionKey(rest[i]).value !in seen + {k} {
            assert OptionKey(ovs[0]) != OptionKey(ovs[i + 1]);
          }
          forall i, j | 0 <= i < j < |rest| ensures OptionKey(rest[i]) != OptionKey(rest[j]) {
            assert OptionKey(ovs[i + 1]) != OptionKey(ovs[j + 1]);
          }
        }
    }
  }

  /**
   * A variant whose ids pass the scan has one `options` entry per option
   * value, in order, each pairing the value's option with the normalised
   * value; the option ids are then supported and pairwise distinct.
   */
  lemma VariantOptionsFlattened(v: ProductVariant, channel: Channel)
    requires VariantOf(v, channel).Ok?
    ensures
      var ovs, options := v.optionValues, VariantOf(v, channel).value.options;
      (forall i :: 0 <= i < |ovs| ==> OptionKey(ovs[i]).Some?)
      && (forall i, j :: 0 <= i < j < |ovs| ==> OptionKey(ovs[i]) != OptionKey(ovs[j]))
      && |options| == |ovs|
      && forall i :: 0 <= i < |ovs| ==>
           options[i].syliusId == ovs[i].option.id && options[i].code == ovs[i].option.code
           && options[i].filterable == FilterableFlag(ovs[i].option.filterable)
           && OptionValueOf(ovs[i]) == Ok(options[i].value)
  {
    OptionIdErrorSpec(v.optionValues, {});
    TraverseSpec(v.optionValues, OwnOptionOf);
  }

  /** Two option values of the same option: "Multiple values for the same option are not supported." */
  lemma DuplicateOptionRejected(v: ProductVariant, channel: Channel, i: nat, j: nat)
    requires PricingOf(PricingFor(v, channel)).Ok?
    requires forall k :: 0 <= k < |v.optionValues| ==> OptionKey(v.optionValues[k]).Some?
    requires i < j < |v.optionValues| && OptionKey(v.optionValues[i]) == OptionKey(v.optionValues[j])
    ensures VariantOf(v, channel) == Err(Runtime(MULTIPLE_OPTION_VALUES))
  {
    OptionIdErrorSpec(v.optionValues, {});
  }

  /** The scan reports an unsupported id at `i` when everything before `i` passed. */
  lemma {:induction false} OptionIdErrorAt(ovs: seq<ProductOptionValue>, seen: set<Key>, i: nat)
    requires i < |ovs| && OptionKey(ovs[i]).None?
    requires forall j :: 0 <= j < i ==> OptionKey(ovs[j]).Some? && OptionKey(ovs[j]).value !in seen
    requires forall j, k :: 0 <= j < k < i ==> OptionKey(ovs[j]) != OptionKey(ovs[k])
    ensures OptionIdErrorFrom(ovs, seen) == Some(Runtime(UNSUPPORTED_OPTION_ID))
    decreases i
  {
    if i > 0 {
      var k := OptionKey(ovs[0]).value;
      var rest := ovs[1..];
      forall j | 0 <= j < i - 1 ensures OptionKey(rest[j]).Some? && OptionKey(rest[j]).value !in seen + {k} {
        assert rest[j] == ovs[j + 1];
        assert OptionKey(ovs[0]) != OptionKey(ovs[j + 1]);
      }
      forall j, l | 0 <= j < l < i - 1 ensures OptionKey(rest[j]) != OptionKey(rest[l]) {
        assert rest[j] == ovs[j + 1] && rest[l] == ovs[l + 1];
      }
      OptionIdErrorAt(rest, seen + {k}, i - 1);
    }
  }

  /**
   * An option id that is neither int nor string: "Option ID different from
   * string or integer is not supported.", unless an earlier option value
   * already repeated an option.
   */
  lemma UnsupportedOptionRejected(v: ProductVariant, channel: Channel, i: nat)
    requires PricingOf(PricingFor(v, channel)).Ok?
    requires i < |v.optionValues| && OptionKey(v.optionValues[i]).None?
    requires forall j :: 0 <= j < i ==> OptionKey(v.optionValues[j]).Some?
    requires forall j, k :: 0 <= j < k < i ==> OptionKey(v.optionValues[j]) != OptionKey(v.optionValues[k])
    ensures VariantOf(v, channel) == Err(Runtime(UNSUPPORTED_OPTION_ID))
  {
    OptionIdErrorAt(v.optionValues, {}, i);
  }

  // ---------------------------------------------------------------------------
  // Pricing
  // ---------------------------------------------------------------------------

  /**
   * A missing channel pricing gives a null `price`; otherwise prices are
   * copied and there is one applied-promotion entry per promotion, each with
   * one label and one description entry per translation.
   */
  lemma PricingShape(cp: Option<ChannelPricing>)
    ensures PricingOf(cp) == Ok(None) <==> cp.None?
    ensures cp.Some? && PricingOf(cp).Ok? ==>
      var pricing, n := cp.value, PricingOf(cp).value.value;
      n.price == pricing.price && n.originalPrice == pricing.originalPrice
      && |n.appliedPromotions| == |pricing.appliedPromotions|
      && forall i :: 0 <= i < |pricing.appliedPromotions| ==>
           var promotion, np := pricing.appliedPromotions[i], n.appliedPromotions[i];
           np.syliusId == promotion.id && np.code == promotion.code
           && |np.promotionLabel| == |promotion.translations| && |np.description| == |promotion.translations|
           && forall k :: 0 <= k < |promotion.translations| ==>
                promotion.translations[k].locale.Some?
                && np.promotionLabel[k] == map[promotion.translations[k].locale.value := promotion.translations[k].promotionLabel]
                && np.description[k] == map[promotion.translations[k].locale.value := promotion.translations[k].description]
  {
    if cp.Some? {
      var promotions := cp.value.appliedPromotions;
      TraverseSpec(promotions, PromotionOf);
      if PricingOf(cp).Ok? {
        forall i, k | 0 <= i < |promotions| && 0 <= k < |promotions[i].translations|
          ensures promotions[i].translations[k].locale.Some?
        {
          assert PromotionOf(promotions[i]).Ok?;
          assert Labels(promotions[i].translations)[k].locale == promotions[i].translations[k].locale;
        }
      }
    }
  }

  // ---------------------------------------------------------------------------
  // Attribute values
  // ---------------------------------------------------------------------------

  /** A translatable value needs a locale and a non-empty storage type, checked in that order. */
  lemma TranslatableValueChecks(av: ProductAttributeValue)
    ensures av.localeCode.None? ==> TranslatableValueOf(av) == Err(InvalidArgument(LOCALE_IS_STRING))
    ensures av.localeCode.Some? ==> TranslatableValueOf(av) == AttributeValueOf(av)
    ensures TranslatableValueOf(av).Ok? ==> TranslatableValueOf(av).value.locale == av.localeCode
  {
  }

  /**
   * Scanning an attribute's values in order, the first value whose own
   * attribute has a null or empty storage type (and, when translatable, that
   * passes the locale check) fails the whole attribute with the storage-type
   * assertion.
   */
  lemma StorageTypeRejected(attribute: ProductAttribute, vs: seq<ProductAttributeValue>, i: nat)
    requires LocalizedOf(attribute.translations).Ok?
    requires i < |vs|
    requires forall j :: 0 <= j < i ==>
      (attribute.translatable ==> vs[j].localeCode.Some?)
      && vs[j].attribute.storageType.Some? && vs[j].attribute.storageType.value != ""
    requires attribute.translatable ==> vs[i].localeCode.Some?
    requires vs[i].attribute.storageType.None? || vs[i].attribute.storageType.value == ""
    ensures AttributeOf(attribute, vs) == Err(InvalidArgument(STORAGE_TYPE_IS_NON_EMPTY_STRING))
  {
    if attribute.translatable {
      TraverseFirstError(vs, TranslatableValueOf, i);
    } else {
      TraverseFirstError(vs, AttributeValueOf, i);
    }
  }

  /**
   * In a normalised attribute every value had a non-empty storage type on
   * its own attribute (not necessarily the bucket's), and its raw value sits
   * under that storage type + "-value", with id and locale copied; the
   * values are these, flat or grouped by locale.
   */
  lemma ValuesKeyedByOwnStorageType(attribute: ProductAttribute, vs: seq<ProductAttributeValue>)
    requires AttributeOf(attribute, vs).Ok?
    ensures NormalizedValuesOf(attribute, vs).Ok?
    ensures
      var nvs := NormalizedValuesOf(attribute, vs).value;
      |nvs| == |vs|
      && AttributeOf(attribute, vs).value.values == (if attribute.translatable then ByLocale(ByLocaleOf(nvs)) else Flat(nvs))
      && forall i :: 0 <= i < |vs| ==>
           vs[i].attribute.storageType.Some? && vs[i].attribute.storageType.value != ""
           && nvs[i].valueKey == vs[i].attribute.storageType.value + "-value"
           && nvs[i].value == vs[i].value && nvs[i].syliusId == vs[i].id && nvs[i].locale == vs[i].localeCode
  {
    var nvs := NormalizedValuesOf(attribute, vs).value;
    if attribute.translatable {
      TraverseSpec(vs, TranslatableValueOf);
      forall i | 0 <= i < |vs|
        ensures vs[i].attribute.storageType.Some? && vs[i].attribute.storageType.value != ""
        ensures nvs[i].valueKey == vs[i].attribute.storageType.value + "-value"
      {
        assert TranslatableValueOf(vs[i]) == Ok(nvs[i]);
      }
    } else {
      TraverseSpec(vs, AttributeValueOf);
      forall i | 0 <= i < |vs|
        ensures vs[i].attribute.storageType.Some? && vs[i].attribute.storageType.value != ""
        ensures nvs[i].valueKey == vs[i].attribute.storageType.value + "-value"
      {
        assert AttributeValueOf(vs[i]) == Ok(nvs[i]);
      }
    }
  }

  /** The grouped values total the values they were built from. */
  lemma {:induction false} GroupTotalOfSelect(nvs: seq<NormalizedAttributeValue>, ks: seq<string>)
    ensures GroupTotal(seq(|ks|, i requires 0 <= i < |ks| => (ks[i], Select(nvs, LocaleKey, ks[i]))))
         == GroupSizes(nvs, LocaleKey, ks)
    decreases |ks|
  {
    if ks != [] {
      var init := ks[..|ks| - 1];
      var groups := seq(|ks|, i requires 0 <= i < |ks| => (ks[i], Select(nvs, LocaleKey, ks[i])));
      var initGroups := seq(|init|, i requires 0 <= i < |init| => (init[i], Select(nvs, LocaleKey, init[i])));
      assert groups[..|groups| - 1] == initGroups;
      GroupTotalOfSelect(nvs, init);
    }
  }

  /**
   * Grouping by locale: locale codes are distinct, each group is non-empty
   * and holds that locale's values in source order, every value's locale
   * has a group, and the groups hold every value exactly once.
   */
  lemma ByLocaleShape(nvs: seq<NormalizedAttributeValue>)
    ensures
      var groups := ByLocaleOf(nvs);
      (forall i, j :: 0 <= i < j < |groups| ==> groups[i].0 != groups[j].0)
      && (forall i :: 0 <= i < |groups| ==>
            groups[i].1 == Select(nvs, LocaleKey, groups[i].0) && groups[i].1 != []
            && forall v :: v in groups[i].1 ==> LocaleKey(v) == groups[i].0)
      && (forall k :: 0 <= k < |nvs| ==> exists j :: 0 <= j < |groups| && groups[j].0 == LocaleKey(nvs[k]))
      && GroupTotal(groups) == |nvs|
  {
    var ks := FirstSeen(nvs, LocaleKey);
    var groups := ByLocaleOf(nvs);
    FirstSeenDistinct(nvs, LocaleKey);
    forall i | 0 <= i < |groups|
      ensures groups[i].1 != [] && forall v :: v in groups[i].1 ==> LocaleKey(v) == groups[i].0
    {
      SelectMembers(nvs, LocaleKey, ks[i]);
    }
    forall k | 0 <= k < |nvs| ensures exists j :: 0 <= j < |groups| && groups[j].0 == LocaleKey(nvs[k]) {
      FirstSeenMembers(nvs, LocaleKey, LocaleKey(nvs[k]));
      var j :| 0 <= j < |ks| && ks[j] == LocaleKey(nvs[k]);
      assert groups[j].0 == LocaleKey(nvs[k]);
    }
    GroupTotalOfSelect(nvs, ks);
    GroupsCoverAll(nvs, LocaleKey);
  }

  /**
   * In a translatable attribute, every value has a locale and `values` is
   * the grouping by locale (ByLocaleShape) of the normalised values, taken
   * in source order.
   */
  lemma TranslatedValuesByLocale(attribute: ProductAttribute, vs: seq<ProductAttributeValue>)
    requires AttributeOf(attribute, vs).Ok? && attribute.translatable
    ensures Traverse(vs, TranslatableValueOf).Ok?
    ensures
      var nvs := Traverse(vs, TranslatableValueOf).value;
      AttributeOf(attribute, vs).value.values == ByLocale(ByLocaleOf(nvs))
      && |nvs| == |vs|
      && forall i :: 0 <= i < |vs| ==>
           vs[i].localeCode.Some? && AttributeValueOf(vs[i]) == Ok(nvs[i]) && LocaleKey(nvs[i]) == vs[i].localeCode.value
  {
    var nvs := Traverse(vs, TranslatableValueOf).value;
    TraverseSpec(vs, TranslatableValueOf);
    forall i | 0 <= i < |vs| ensures vs[i].localeCode.Some? && LocaleKey(nvs[i]) == vs[i].localeCode.value {
      assert TranslatableValueOf(vs[i]) == Ok(nvs[i]);
    }
  }

  /** In a non-translatable attribute, `values` is the flat list of normalised values in source order. */
  lemma PlainValuesFlat(attribute: ProductAttribute, vs: seq<ProductAttributeValue>)
    requires AttributeOf(attribute, vs).Ok? && !attribute.translatable
    ensures
      var values := AttributeOf(attribute, vs).value.values;
      values.Flat? && |values.values| == |vs|
      && forall i :: 0 <= i < |vs| ==> AttributeValueOf(vs[i]) == Ok(values.values[i])
  {
    TraverseSpec(vs, AttributeValueOf);
  }

  /**
   * An attribute entry copies the attribute's translatability, has one name
   * entry per translation, and is filterable only when the attribute has the
   * filterable capability and reports itself filterable.
   */
  lemma AttributeShape(attribute: ProductAttribute, vs: seq<ProductAttributeValue>)
    requires AttributeOf(attribute, vs).Ok?
    ensures
      var a := AttributeOf(attribute, vs).value;
      a.syliusId == attribute.id && a.code == attribute.code && a.storageType == attribute.storageType
      && a.translatable == attribute.translatable && a.values.ByLocale? == attribute.translatable
      && a.filterable == (attribute.filterable.Some? && attribute.filterable.value)
      && |a.name| == |attribute.translations|
      && ValueCount(a.values) == |vs|
  {
    if attribute.translatable {
      TranslatedValuesByLocale(attribute, vs);
      ByLocaleShape(Traverse(vs, TranslatableValueOf).value);
    } else {
      PlainValuesFlat(attribute, vs);
    }
  }

  /** The normalised buckets of `xs` named by `ks` hold as many values as those groups of `xs`. */
  lemma {:induction false} TotalOfBuckets(xs: seq<ProductAttributeValue>, ks: seq<Key>, out: seq<NormalizedAttribute>)
    requires |out| == |ks|
    requires forall j :: 0 <= j < |ks| ==> ks[j] in FirstSeen(xs, AttributeKey) && BucketOf(BucketAt(xs, ks[j])) == Ok(out[j])
    ensures TotalValues(out) == GroupSizes(xs, AttributeKey, ks)
    decreases |ks|
  {
    if ks != [] {
      var n := |ks| - 1;
      TotalOfBuckets(xs, ks[..n], out[..n]);
      assert out[..n] == out[..|out| - 1];
      AttributeShape(BucketAt(xs, ks[n]).attribute, BucketAt(xs, ks[n]).values);
    }
  }

  /** Normalising every bucket of `xs` keeps every value of `xs`. */
  lemma BucketsKeepValues(xs: seq<ProductAttributeValue>)
    requires Traverse(BucketsOf(xs), BucketOf).Ok?
    ensures TotalValues(Traverse(BucketsOf(xs), BucketOf).value) == |xs|
  {
    var bs := BucketsOf(xs);
    var out := Traverse(bs, BucketOf).value;
    TraverseSpec(bs, BucketOf);
    var ks := FirstSeen(xs, AttributeKey);
    forall j | 0 <= j < |ks| ensures BucketOf(BucketAt(xs, ks[j])) == Ok(out[j]) {
      assert bs[j] == BucketAt(xs, ks[j]);
    }
    TotalOfBuckets(xs, ks, out);
    GroupsCoverAll(xs, AttributeKey);
  }

  /**
   * Attribute buckets: one per distinct attribute id, in first-seen order;
   * each holds the values filed under its id in source order, and is
   * headed by the attribute of the first of them.
   */
  lemma BucketsShape(xs: seq<ProductAttributeValue>)
    ensures
      var bs := BucketsOf(xs);
      (forall i :: 0 <= i < |bs| ==>
         bs[i].values != [] && bs[i].attribute == bs[i].values[0].attribute
         && bs[i].values == Select(xs, AttributeKey, AttributeKey(bs[i].values[0])))
      && (forall i, j :: 0 <= i < j < |bs| ==> AttributeKey(bs[i].values[0]) != AttributeKey(bs[j].values[0]))
      && (forall x :: x in xs ==> exists i :: 0 <= i < |bs| && x in bs[i].values)
  {
    var bs := BucketsOf(xs);
    var ks := FirstSeen(xs, AttributeKey);
    FirstSeenDistinct(xs, AttributeKey);
    forall i | 0 <= i < |bs| ensures AttributeKey(bs[i].values[0]) == ks[i] {
      SelectMembers(xs, AttributeKey, ks[i]);
      assert bs[i].values[0] in Select(xs, AttributeKey, ks[i]);
    }
    forall x | x in xs ensures exists i :: 0 <= i < |bs| && x in bs[i].values {
      var k :| 0 <= k < |xs| && xs[k] == x;
      FirstSeenMembers(xs, AttributeKey, AttributeKey(x));
      var i :| 0 <= i < |ks| && ks[i] == AttributeKey(x);
      SelectMembers(xs, AttributeKey, ks[i]);
      assert x in bs[i].values;
    }
  }

  /** Bucket `a` precedes bucket `b`: some value of `a` occurs before every value of `b`. */
  lemma BucketsInFirstSeenOrder(xs: seq<ProductAttributeValue>, a: nat, b: nat)
    requires a < b < |BucketsOf(xs)|
    ensures exists i :: (0 <= i < |xs| && xs[i] in BucketsOf(xs)[a].values
                         && forall j :: 0 <= j <= i ==> xs[j] !in BucketsOf(xs)[b].values)
  {
    var ks := FirstSeen(xs, AttributeKey);
    FirstSeenOrder(xs, AttributeKey, a, b);
    var i :| 0 <= i < |xs| && AttributeKey(xs[i]) == ks[a] && forall j :: 0 <= j <= i ==> AttributeKey(xs[j]) != ks[b];
    SelectMembers(xs, AttributeKey, ks[a]);
    SelectMembers(xs, AttributeKey, ks[b]);
  }

  /** An attribute entry is translatable, and grouped by locale, exactly when its attribute is translatable. */
  lemma AttributeTranslatability(attribute: ProductAttribute, vs: seq<ProductAttributeValue>)
    requires AttributeOf(attribute, vs).Ok?
    ensures AttributeOf(attribute, vs).value.translatable == attribute.translatable
    ensures AttributeOf(attribute, vs).value.values.ByLocale? == attribute.translatable
  {
  }

  /** Every bucket of the values selected by translatability normalises to an entry with that translatability. */
  lemma BucketsKeepTranslatability(avs: seq<ProductAttributeValue>, translatable: bool)
    requires Traverse(BucketsOf(Select(avs, IsTranslatable, translatable)), BucketOf).Ok?
    ensures
      var out := Traverse(BucketsOf(Select(avs, IsTranslatable, translatable)), BucketOf).value;
      forall i :: 0 <= i < |out| ==> out[i].translatable == translatable && out[i].values.ByLocale? == translatable
  {
    var xs := Select(avs, IsTranslatable, translatable);
    var bs := BucketsOf(xs);
    var ks := FirstSeen(xs, AttributeKey);
    TraverseSpec(bs, BucketOf);
    SelectMembers(avs, IsTranslatable, translatable);
    forall i | 0 <= i < |bs|
      ensures BucketOf(bs[i]).value.translatable == translatable && BucketOf(bs[i]).value.values.ByLocale? == translatable
    {
      SelectMembers(xs, AttributeKey, ks[i]);
      assert bs[i].values[0] in xs;
      AttributeTranslatability(bs[i].attribute, bs[i].values);
    }
  }

  /**
   * Attribute values are partitioned with nothing lost or duplicated:
   * translatable ones end up in `translated-attributes`, the others in
   * `attributes`, one entry per bucket, and together the entries hold every
   * input value.
   */
  lemma AttributeValuesPartitioned(avs: seq<ProductAttributeValue>)
    requires AttributesOf(avs).Ok?
    ensures
      var (plain, translated) := AttributesOf(avs).value;
      |translated| == |BucketsOf(Select(avs, IsTranslatable, true))|
      && |plain| == |BucketsOf(Select(avs, IsTranslatable, false))|
      && (forall i :: 0 <= i < |translated| ==> translated[i].translatable && translated[i].values.ByLocale?)
      && (forall i :: 0 <= i < |plain| ==> !plain[i].translatable && plain[i].values.Flat?)
      && TotalValues(plain) + TotalValues(translated) == |avs|
  {
    var yes, no := Select(avs, IsTranslatable, true), Select(avs, IsTranslatable, false);
    assert AttributesOf(avs).value == (Traverse(BucketsOf(no), BucketOf).value, Traverse(BucketsOf(yes), BucketOf).value);
    TraverseSpec(BucketsOf(yes), BucketOf);
    TraverseSpec(BucketsOf(no), BucketOf);
    BucketsKeepTranslatability(avs, true);
    BucketsKeepTranslatability(avs, false);
    BucketsKeepValues(yes);
    BucketsKeepValues(no);
    SelectPartition(avs, IsTranslatable);
  }

  /** The document's two attribute lists together hold every attribute value of the product. */
  lemma DocumentKeepsAttributeValues(p: Product, channel: Channel, dv: Option<ProductVariant>)
    requires DocumentOf(p, channel, dv).Ok?
    ensures
      var d := DocumentOf(p, channel, dv).value;
      TotalValues(d.attributes) + TotalValues(d.translatedAttributes) == |p.attributes|
  {
    DocumentParts(p, channel, dv);
    AttributeValuesPartitioned(p.attributes);
  }

  /**
   * An attribute id that is neither int nor string: "Attribute ID different
   * from string or integer is not supported.", once the translations,
   * default variant, main taxon, taxons and variants have been normalised.
   */
  lemma UnsupportedAttributeRejected(p: Product, channel: Channel, dv: Option<ProductVariant>, i: nat)
    requires HasLocales(Names(p.translations)) && DefaultVariantOf(dv, channel).Ok? && MainTaxonOf(p.mainTaxon).Ok?
    requires Traverse(p.productTaxons, ProductTaxonOf).Ok? && Traverse(p.variants, VariantIn(channel)).Ok?
    requires i < |p.attributes| && ArrayKey(p.attributes[i].attribute.id).None?
    ensures DocumentOf(p, channel, dv) == Err(Runtime(UNSUPPORTED_ATTRIBUTE_ID))
  {
  }
}
