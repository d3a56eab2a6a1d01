/**
 * What get_product_data promises, proved of the projector: the image list,
 * attribute names and options, the variation and default attributes,
 * downloads, and the fields that depend on the kind.
 */
module ProjectorProperties {
  import opened Common
  import opened Php
  import opened Catalog
  import opened Projector

  // ---------------------------------------------------------------------------
  // Images

  /** Entry i of the image list is the attachment of the id at its position. */
  predicate ImageOfId(v: ImageView, ids: seq<nat>, env: Env) {
    v.position < |ids| && ids[v.position] == v.id &&
    env.attachment(v.id) == Some(AttachmentInfo(v.src, v.name, v.alt))
  }

  /** Every image entry is the attachment of the id at its position; there are no more entries than ids. */
  lemma {:induction false} ImagesComeFromIds(ids: seq<nat>, env: Env)
    ensures |ImagesFrom(ids, env)| <= |ids|
    ensures forall i :: 0 <= i < |ImagesFrom(ids, env)| ==> ImageOfId(ImagesFrom(ids, env)[i], ids, env)
  {
    if ids != [] {
      var n := |ids| - 1;
      var init := ids[..n];
      ImagesComeFromIds(init, env);
      var before := ImagesFrom(init, env);
      var r := ImagesFrom(ids, env);
      forall i | 0 <= i < |before|
        ensures ImageOfId(r[i], ids, env)
      {
        assert r[i] == before[i];
        assert ImageOfId(before[i], init, env);
        assert init[before[i].position] == ids[before[i].position];
      }
    }
  }

  /** The image entries follow the order of the ids: their positions strictly increase. */
  lemma {:induction false} ImagePositionsIncrease(ids: seq<nat>, env: Env)
    ensures forall i, j :: 0 <= i < j < |ImagesFrom(ids, env)| ==> ImagesFrom(ids, env)[i].position < ImagesFrom(ids, env)[j].position
  {
    if ids != [] {
      var n := |ids| - 1;
      var init := ids[..n];
      ImagePositionsIncrease(init, env);
      ImagesComeFromIds(init, env);
      var before := ImagesFrom(init, env);
      var r := ImagesFrom(ids, env);
      assert forall i :: 0 <= i < |before| ==> r[i] == before[i] && before[i].position < n;
    }
  }

  /** Some image entry sits at position k. */
  predicate ShownAt(images: seq<ImageView>, k: int) {
    exists i :: 0 <= i < |images| && images[i].position == k
  }

  /** Every id that resolves to an attachment is shown, at its index. */
  lemma {:induction false} EveryResolvableIdShown(ids: seq<nat>, env: Env)
    ensures forall k :: 0 <= k < |ids| && env.attachment(ids[k]).Some? ==> ShownAt(ImagesFrom(ids, env), k)
  {
    if ids != [] {
      var n := |ids| - 1;
      var init := ids[..n];
      EveryResolvableIdShown(init, env);
      var before := ImagesFrom(init, env);
      var r := ImagesFrom(ids, env);
      forall k | 0 <= k < |ids| && env.attachment(ids[k]).Some?
        ensures ShownAt(r, k)
      {
        if k < n {
          assert init[k] == ids[k];
          var i :| 0 <= i < |before| && before[i].position == k;
          assert r[i] == before[i];
        } else {
          assert r[|before|].position == n;
        }
      }
    }
  }

  /** No image entry at all exactly when no id resolves. */
  lemma {:induction false} NothingResolves(ids: seq<nat>, env: Env)
    ensures ImagesFrom(ids, env) == [] <==> forall k :: 0 <= k < |ids| ==> env.attachment(ids[k]).None?
  {
    if ids != [] {
      var n := |ids| - 1;
      var init := ids[..n];
      NothingResolves(init, env);
      assert forall k :: 0 <= k < n ==> init[k] == ids[k];
    }
  }

  /** When the first id resolves, the list starts with its image at position 0. */
  lemma {:induction false} FirstIdFirst(ids: seq<nat>, env: Env)
    requires ids != [] && env.attachment(ids[0]).Some?
    ensures ImagesFrom(ids, env) != []
    ensures ImagesFrom(ids, env)[0].id == ids[0] && ImagesFrom(ids, env)[0].position == 0
  {
    var n := |ids| - 1;
    if n > 0 {
      var init := ids[..n];
      assert init[0] == ids[0];
      FirstIdFirst(init, env);
    }
  }

  /**
   * The projected list is never empty; it is the placeholder alone, with
   * id 0 and position 0, exactly when neither the featured image nor any
   * gallery image resolves.
   */
  lemma ProjectedImages(d: ProductData, env: Env)
    ensures |GetImages(d, env)| >= 1
    ensures (forall k :: 0 <= k < |AttachmentIds(d)| ==> env.attachment(AttachmentIds(d)[k]).None?) ==>
      GetImages(d, env) == [ImageView(0, env.placeholderSrc, "Placeholder", "Placeholder", 0)]
    ensures (exists k :: 0 <= k < |AttachmentIds(d)| && env.attachment(AttachmentIds(d)[k]).Some?) ==>
      forall i :: 0 <= i < |GetImages(d, env)| ==> ImageOfId(GetImages(d, env)[i], AttachmentIds(d), env)
  {
    NothingResolves(AttachmentIds(d), env);
    ImagesComeFromIds(AttachmentIds(d), env);
  }

  /** A featured image that resolves comes first, at position 0, and the gallery follows. */
  lemma FeaturedImageFirst(d: ProductData, env: Env)
    requires d.images.imageId != 0 && env.attachment(d.images.imageId).Some?
    ensures GetImages(d, env)[0].id == d.images.imageId && GetImages(d, env)[0].position == 0
    ensures forall i :: 1 <= i < |GetImages(d, env)| ==>
      var v := GetImages(d, env)[i];
      1 <= v.position <= |d.images.galleryIds| && v.id == d.images.galleryIds[v.position - 1]
  {
    var ids := AttachmentIds(d);
    assert ids[0] == d.images.imageId;
    FirstIdFirst(ids, env);
    ImagesComeFromIds(ids, env);
    ImagePositionsIncrease(ids, env);
    var r := ImagesFrom(ids, env);
    forall j | 1 <= j < |r|
      ensures 1 <= r[j].position <= |d.images.galleryIds| && r[j].id == d.images.galleryIds[r[j].position - 1]
    {
      assert r[0].position < r[j].position;
      assert ImageOfId(r[j], ids, env);
      assert ids[r[j].position] == d.images.galleryIds[r[j].position - 1];
    }
  }

  // ---------------------------------------------------------------------------
  // Attribute names and options

  /** A taxonomy key the product has no attribute under is shown without its "pa_" prefix. */
  lemma NameFallbackStripsPrefix(name: string, attrs: seq<Attribute>, env: Env)
    requires !Occurs("pa_", name)
    requires forall a :: a in attrs ==> env.sanitizeTitle(a.name) != "pa_" + name
    ensures AttributeTaxonomyName("pa_" + name, attrs, env) == name
  {
    RemoveAllStripsPrefix("pa_", name);
  }

  /** A key the product has an attribute under shows the taxonomy's label, or the custom attribute's own name. */
  lemma NameOfKnownAttribute(slug: string, attrs: seq<Attribute>, env: Env)
    requires exists a :: a in attrs && env.sanitizeTitle(a.name) == slug
    ensures var a := FindAttribute(attrs, slug, env.sanitizeTitle).value;
      AttributeTaxonomyName(slug, attrs, env) == (if a.IsTaxonomy() then env.taxonomyLabel(a.name) else a.name)
  {
  }

  /**
   * The options of a custom attribute come back as stored, provided there is
   * at least one, each is trimmed and none holds '|'; an empty list comes
   * back as one empty option. A taxonomy attribute shows its term names.
   */
  lemma CustomOptionsRoundTrip(productId: nat, a: Attribute, env: Env)
    ensures a.IsTaxonomy() ==> AttributeOptions(productId, a, env) == env.productTermNames(productId, a.name)
    ensures !a.IsTaxonomy() && |a.options| >= 1 && (forall i :: 0 <= i < |a.options| ==> '|' !in a.options[i] && Trimmed(a.options[i])) ==>
      AttributeOptions(productId, a, env) == a.options
    ensures !a.IsTaxonomy() && a.options == [] ==> AttributeOptions(productId, a, env) == [""]
  {
    if !a.IsTaxonomy() {
      if |a.options| >= 1 && (forall i :: 0 <= i < |a.options| ==> '|' !in a.options[i] && Trimmed(a.options[i])) {
        OptionsRoundTrip(a.options);
      } else if a.options == [] {
        EmptyOptionsComeBackAsOneEmptyOption();
      }
    }
  }

  /** A product that is not a variation shows one entry per attribute, in stored order, with the stored flags. */
  lemma FullAttributesShape(d: ProductData, env: Env)
    requires d.kind != Variation
    ensures GetAttributes(d, env).Some? && GetAttributes(d, env).value.FullAttributes?
    ensures var r := GetAttributes(d, env).value.items;
      |r| == |d.attributes.items| &&
      forall i :: 0 <= i < |r| ==>
        var a := d.attributes.items[i];
        r[i].id == (if a.IsTaxonomy() then env.taxonomyIdByName(a.name) else 0) &&
        r[i].position == a.position && r[i].visible == a.visible && r[i].variation == a.variation &&
        r[i].name == AttributeTaxonomyName(a.name, d.attributes.items, env) &&
        r[i].options == AttributeOptions(d.id, a, env)
  {
  }

  // ---------------------------------------------------------------------------
  // Variation attributes

  /** The option v is what some selected entry with a true value shows. */
  predicate ChosenFrom(v: OptionView, selected: seq<(string, string)>, parentAttrs: seq<Attribute>, env: Env) {
    exists i :: 0 <= i < |selected| && Truthy(selected[i].1) && v == ChosenOption(selected[i].0, selected[i].1, parentAttrs, env)
  }

  /** Every chosen option comes from a selected entry with a true value. */
  lemma {:induction false} ChosenOptionsSound(selected: seq<(string, string)>, parentAttrs: seq<Attribute>, env: Env)
    ensures |ChosenOptions(selected, parentAttrs, env)| <= |selected|
    ensures forall j :: 0 <= j < |ChosenOptions(selected, parentAttrs, env)| ==>
      ChosenFrom(ChosenOptions(selected, parentAttrs, env)[j], selected, parentAttrs, env)
  {
    if selected != [] {
      var n := |selected| - 1;
      var init := selected[..n];
      ChosenOptionsSound(init, parentAttrs, env);
      var before := ChosenOptions(init, parentAttrs, env);
      var r := ChosenOptions(selected, parentAttrs, env);
      forall j | 0 <= j < |r|
        ensures ChosenFrom(r[j], selected, parentAttrs, env)
      {
        if j < |before| {
          assert ChosenFrom(before[j], init, parentAttrs, env);
          var i :| 0 <= i < |init| && Truthy(init[i].1) && before[j] == ChosenOption(init[i].0, init[i].1, parentAttrs, env);
          assert selected[i] == init[i];
          assert r[j] == before[j];
        } else {
          assert Truthy(selected[n].1) && r[j] == ChosenOption(selected[n].0, selected[n].1, parentAttrs, env);
        }
      }
    }
  }

  /** Every selected entry with a true value is shown. */
  lemma {:induction false} ChosenOptionsComplete(selected: seq<(string, string)>, parentAttrs: seq<Attribute>, env: Env)
    ensures forall i :: 0 <= i < |selected| && Truthy(selected[i].1) ==>
      ChosenOption(selected[i].0, selected[i].1, parentAttrs, env) in ChosenOptions(selected, parentAttrs, env)
  {
    if selected != [] {
      var n := |selected| - 1;
      var init := selected[..n];
      ChosenOptionsComplete(init, parentAttrs, env);
      forall i | 0 <= i < n && Truthy(selected[i].1)
        ensures ChosenOption(selected[i].0, selected[i].1, parentAttrs, env) in ChosenOptions(selected, parentAttrs, env)
      {
        assert init[i] == selected[i];
      }
    }
  }

  /** Without a true value nothing is shown, whatever the parent's attributes. */
  lemma ChosenOptionsOfNothing(selected: seq<(string, string)>, parentAttrs: seq<Attribute>, env: Env)
    requires !SelectsSomething(selected)
    ensures ChosenOptions(selected, parentAttrs, env) == []
  {
    ChosenOptionsSound(selected, parentAttrs, env);
  }

  /**
   * A selected custom attribute shows the value as selected and id 0; a
   * selected taxonomy attribute shows the term's name when the slug names a
   * term, and the taxonomy's attribute id.
   */
  lemma ChosenOptionByPrefix(name: string, value: string, parentAttrs: seq<Attribute>, env: Env)
    requires !Occurs("attribute_", name)
    ensures !StartsWith(name, "pa_") ==>
      ChosenOption("attribute_" + name, value, parentAttrs, env) == OptionView(0, AttributeTaxonomyName(name, parentAttrs, env), value)
    ensures StartsWith(name, "pa_") ==>
      ChosenOption("attribute_" + name, value, parentAttrs, env) ==
        OptionView(env.taxonomyIdByName(name), AttributeTaxonomyName(name, parentAttrs, env),
          if env.termNameBySlug(value, name).Some? then env.termNameBySlug(value, name).value else value)
  {
    RemoveAllStripsPrefix("attribute_", name);
    var key := "attribute_" + name;
    assert StartsWith(key, "attribute_pa_") <==> StartsWith(name, "pa_") by {
      if StartsWith(name, "pa_") {
        assert key[..13] == "attribute_" + name[..3];
      }
      if StartsWith(key, "attribute_pa_") {
        assert name[..3] == key[10..13];
      }
    }
  }

  // ---------------------------------------------------------------------------
  // Default attributes

  /** Every default shown comes from a stored default with a non-empty value. */
  lemma {:induction false} DefaultViewsSound(defaults: seq<(string, string)>, attrs: seq<Attribute>, env: Env)
    ensures |DefaultViews(defaults, attrs, env)| <= |defaults|
    ensures forall j :: 0 <= j < |DefaultViews(defaults, attrs, env)| ==>
      exists i :: 0 <= i < |defaults| && defaults[i].1 != "" &&
        DefaultViews(defaults, attrs, env)[j] == DefaultView(defaults[i].0, defaults[i].1, attrs, env)
  {
    if defaults != [] {
      var n := |defaults| - 1;
      var init := defaults[..n];
      DefaultViewsSound(init, attrs, env);
      var before := DefaultViews(init, attrs, env);
      var r := DefaultViews(defaults, attrs, env);
      forall j | 0 <= j < |r|
        ensures exists i :: 0 <= i < |defaults| && defaults[i].1 != "" && r[j] == DefaultView(defaults[i].0, defaults[i].1, attrs, env)
      {
        if j < |before| {
          var i :| 0 <= i < |init| && init[i].1 != "" && before[j] == DefaultView(init[i].0, init[i].1, attrs, env);
          assert defaults[i] == init[i];
          assert r[j] == before[j];
        } else {
          assert r[j] == DefaultView(defaults[n].0, defaults[n].1, attrs, env);
        }
      }
    }
  }

  /** Every stored default with a non-empty value is shown. */
  lemma {:induction false} DefaultViewsComplete(defaults: seq<(string, string)>, attrs: seq<Attribute>, env: Env)
    ensures forall i :: 0 <= i < |defaults| && defaults[i].1 != "" ==>
      DefaultView(defaults[i].0, defaults[i].1, attrs, env) in DefaultViews(defaults, attrs, env)
  {
    if defaults != [] {
      var n := |defaults| - 1;
      var init := defaults[..n];
      DefaultViewsComplete(init, attrs, env);
      forall i | 0 <= i < n && defaults[i].1 != ""
        ensures DefaultView(defaults[i].0, defaults[i].1, attrs, env) in DefaultViews(defaults, attrs, env)
      {
        assert init[i] == defaults[i];
      }
    }
  }

  /** The shown default v carries the value of a stored default, and a taxonomy id only when that key starts with "pa_". */
  predicate ShowsStoredDefault(v: OptionView, defaults: seq<(string, string)>, env: Env) {
    exists i :: 0 <= i < |defaults| && v.option == defaults[i].1 &&
      v.id == (if StartsWith(defaults[i].0, "pa_") then env.taxonomyIdByName(defaults[i].0) else 0)
  }

  /** Every default shown has a non-empty option, taken from a stored default. */
  lemma DefaultViewsWellFormed(d: ProductData, env: Env)
    ensures forall j :: 0 <= j < |GetDefaultAttributes(d, env)| ==> GetDefaultAttributes(d, env)[j].option != ""
    ensures forall j :: 0 <= j < |GetDefaultAttributes(d, env)| ==> ShowsStoredDefault(GetDefaultAttributes(d, env)[j], d.attributes.defaults, env)
  {
    if d.kind == Variable {
      var defaults, r := d.attributes.defaults, GetDefaultAttributes(d, env);
      DefaultViewsSound(defaults, d.attributes.items, env);
      forall j | 0 <= j < |r|
        ensures r[j].option != "" && ShowsStoredDefault(r[j], defaults, env)
      {
        var i :| 0 <= i < |defaults| && defaults[i].1 != "" && r[j] == DefaultView(defaults[i].0, defaults[i].1, d.attributes.items, env);
        assert r[j].option == defaults[i].1;
      }
    }
  }

  // ---------------------------------------------------------------------------
  // The whole record

  /** Projection fails only for a variation whose parent is needed and missing. */
  lemma ProjectionFailsOnlyForOrphanVariation(d: ProductData, env: Env, view: Presentation)
    ensures GetProductData(d, env, view).None? <==>
      d.kind == Variation && env.load(d.links.parentId).None? && SelectsSomething(d.attributes.selected)
  {
  }

  /**
   * The URL and button text are shown only for an external product,
   * `variations` and `grouped_products` are always empty, a false sale price
   * is shown as "", and linked ids are shown as absolute values.
   */
  lemma KindNeutralFields(d: ProductData, env: Env, view: Presentation)
    requires GetProductData(d, env, view).Some?
    ensures var r := GetProductData(d, env, view).value;
      (d.kind != External ==> r.links.externalUrl == "" && r.links.buttonText == "") &&
      (d.kind == External ==> r.links.externalUrl == d.links.productUrl && r.links.buttonText == d.links.buttonText) &&
      r.links.variations == [] && r.links.groupedProducts == [] &&
      (r.prices.salePrice == "" <==> !Truthy(d.prices.sale)) &&
      (Truthy(d.prices.sale) ==> r.prices.salePrice == d.prices.sale) &&
      |r.links.upsellIds| == |d.links.upsellIds| &&
      (forall i :: 0 <= i < |d.links.upsellIds| ==> r.links.upsellIds[i] == AbsInt(d.links.upsellIds[i])) &&
      (forall i :: 0 <= i < |d.links.upsellIds| && d.links.upsellIds[i] > 0 ==> r.links.upsellIds[i] == d.links.upsellIds[i]) &&
      |r.links.crossSellIds| == |d.links.crossSellIds| &&
      (forall i :: 0 <= i < |d.links.crossSellIds| ==> r.links.crossSellIds[i] == AbsInt(d.links.crossSellIds[i])) &&
      (forall i :: 0 <= i < |d.links.crossSellIds| && d.links.crossSellIds[i] > 0 ==> r.links.crossSellIds[i] == d.links.crossSellIds[i])
  {
  }

  /** Downloads are shown only for a downloadable product, one per stored file, under its key. */
  lemma DownloadsShown(d: ProductData, env: Env, view: Presentation)
    requires GetProductData(d, env, view).Some?
    ensures var r := GetProductData(d, env, view).value.files;
      r.downloadable == d.files.downloadable &&
      (!d.files.downloadable ==> r.downloads == []) &&
      (d.files.downloadable ==> |r.downloads| == |d.files.downloads|) &&
      (d.files.downloadable ==> forall i :: 0 <= i < |r.downloads| ==> r.downloads[i].id == d.files.downloads[i].key && r.downloads[i].file == d.files.downloads[i].file)
  {
  }
}
