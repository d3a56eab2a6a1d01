/**
 * Request in, response out: what a client reads back in get_product_data
 * after prepare_object_for_database has applied its request.
 */
module RoundTrip {
  import opened Common
  import opened Php
  import opened Catalog
  import opened Applier
  import opened ApplierProperties
  import opened Projector
  import opened ProjectorProperties

  // ---------------------------------------------------------------------------
  // The applied product, field group by field group

  /** The setters from the title through stock leave the downloads and images alone. */
  lemma FieldsGroups(d: ProductData, p: Payload, env: Env, s: Settings)
    ensures var f := WithFields(d, p, env, s);
      f.kind == d.kind &&
      f.attributes.items == (if p.attributes.Some? then NormalizeAttributes(p.attributes.value, env) else d.attributes.items) &&
      f.prices == WithPricing(d, p).prices && f.files == d.files && f.images == d.images
  {
    var d7 := WithAttributes(WithSku(WithShippingData(WithNoteAndFeatured(WithTaxFields(WithListing(WithContent(d, p, env), p, env), p), p, env), p, env), p, env), p, env);
    assert d7.prices == d.prices && d7.kind == d.kind;
    PricingByKind(d7, p);
    PricingByKind(d, p);
  }

  /** The setters from linked products through grouped children change the downloads and the external link only as posted. */
  lemma RelationsGroups(f: ProductData, p: Payload, env: Env)
    ensures var r := WithRelations(f, p, env);
      r.kind == f.kind && r.attributes.items == f.attributes.items && r.prices == f.prices &&
      r.files == FilesAfter(f.files, p, env) && r.images == f.images &&
      (f.kind == External && p.externalUrl.Some? ==> r.links.productUrl == p.externalUrl.value) &&
      (f.kind == External && p.buttonText.Some? ==> r.links.buttonText == p.buttonText.value)
  {
    ExternalFieldsOnlyForExternal(WithDownloadOptions(WithTerms(WithLinkedProducts(f, p), p), p, env), p);
  }

  /** The images step is the last one, and changes the images alone. */
  lemma ImagesComeLast(p: Payload, env: Env, s: Settings)
    requires Apply(p, env, s).Success?
    ensures ResolveProduct(p, env).Success?
    ensures var rel := WithRelations(WithFields(ResolveProduct(p, env).value, p, env, s), p, env);
      Apply(p, env, s).value.(images := rel.images) == rel
  {
    var d0 := ResolveProduct(p, env).value;
    var rel := WithRelations(WithFields(d0, p, env, s), p, env);
    assert Apply(p, env, s) == ApplyFields(d0, p, env, s);
    if p.images.Some? {
      ImagesOnlyTouchImages(rel, p.images.value, env);
    }
  }

  /**
   * The field groups a successful request leaves on the product, each in
   * terms of the product it started from: the attribute list, the prices,
   * the download fields and the external link.
   */
  lemma AppliedGroups(p: Payload, env: Env, s: Settings)
    requires Apply(p, env, s).Success?
    ensures ResolveProduct(p, env).Success?
    ensures var d0 := ResolveProduct(p, env).value;
      var r := Apply(p, env, s).value;
      r.kind == d0.kind &&
      r.attributes.items == (if p.attributes.Some? then NormalizeAttributes(p.attributes.value, env) else d0.attributes.items) &&
      r.prices == WithPricing(d0, p).prices &&
      r.files == FilesAfter(d0.files, p, env) &&
      (d0.kind == External && p.externalUrl.Some? ==> r.links.productUrl == p.externalUrl.value) &&
      (d0.kind == External && p.buttonText.Some? ==> r.links.buttonText == p.buttonText.value)
  {
    ImagesComeLast(p, env, s);
    var d0 := ResolveProduct(p, env).value;
    var f := WithFields(d0, p, env, s);
    FieldsGroups(d0, p, env, s);
    RelationsGroups(f, p, env);
  }

  /** Every attribute a posted entry yields is in the stored list. */
  lemma {:induction false} NormalizedEntryKept(raw: seq<RawAttribute>, i: int, env: Env)
    requires 0 <= i < |raw| && NormalizeAttribute(raw[i], env) != []
    ensures NormalizeAttribute(raw[i], env)[0] in NormalizeAttributes(raw, env)
  {
    var upTo, after := raw[..i + 1], raw[i + 1..];
    NormalizedUpTo(raw, i, env);
    assert raw == upTo + after;
    NormalizeAttributesAppend(upTo, after, env);
    var k := |NormalizeAttributes(raw[..i], env)|;
    assert NormalizeAttributes(upTo, env)[k] == NormalizeAttribute(raw[i], env)[0];
    assert NormalizeAttributes(raw, env)[k] == NormalizeAttribute(raw[i], env)[0];
  }

  /** The entries up to and including entry i yield those before it, then entry i's attribute. */
  lemma NormalizedUpTo(raw: seq<RawAttribute>, i: int, env: Env)
    requires 0 <= i < |raw|
    ensures NormalizeAttributes(raw[..i + 1], env) == NormalizeAttributes(raw[..i], env) + NormalizeAttribute(raw[i], env)
  {
    var upTo := raw[..i + 1];
    assert upTo[..i] == raw[..i] && upTo[i] == raw[i];
  }

  // ---------------------------------------------------------------------------
  // Attributes

  /** A custom attribute posted with these options: some, each trimmed, none holding '|'. */
  predicate CleanOptions(xs: seq<string>) {
    |xs| >= 1 && forall i :: 0 <= i < |xs| ==> '|' !in xs[i] && Trimmed(xs[i])
  }

  /**
   * A custom attribute posted with a usable name and a clean option list
   * comes back, on a product that is not a variation, under id 0 with
   * exactly the options posted.
   */
  lemma CustomAttributeRoundTrip(p: Payload, env: Env, s: Settings, view: Presentation, i: int)
    requires Apply(p, env, s).Success?
    requires p.attributes.Some? && 0 <= i < |p.attributes.value|
    requires var a := p.attributes.value[i];
      PostedAttributeId(a.id) == 0 && a.name.Some? && Truthy(a.name.value) && Truthy(env.clean(a.name.value)) &&
      a.options.Some? && a.options.value.OptionList? && CleanOptions(a.options.value.items)
    ensures var r := GetProductData(Apply(p, env, s).value, env, view);
      r.Some? && r.value.taxonomy.attributes.FullAttributes? &&
      exists v :: v in r.value.taxonomy.attributes.items && v.id == 0 && v.options == p.attributes.value[i].options.value.items
  {
    var a := p.attributes.value[i];
    var d := Apply(p, env, s).value;
    AppliedGroups(p, env, s);
    AppliedProduct(p, env, s);
    AttributeEntry(a, env);
    var attr := NormalizeAttribute(a, env)[0];
    NormalizedEntryKept(p.attributes.value, i, env);
    var j :| 0 <= j < |d.attributes.items| && d.attributes.items[j] == attr;
    FullAttributesShape(d, env);
    CustomOptionsRoundTrip(d.id, attr, env);
    var v := GetAttributes(d, env).value.items[j];
    assert v.id == 0 && v.options == a.options.value.items;
    assert v in GetProductData(d, env, view).value.taxonomy.attributes.items;
  }

  // ---------------------------------------------------------------------------
  // Downloads

  /**
   * A request that makes the product downloadable and posts its files gets
   * back one download per posted entry that has a file, under the entry's
   * index, with the posted name (or the file name taken from the URL).
   */
  lemma DownloadsRoundTrip(p: Payload, env: Env, s: Settings, view: Presentation)
    requires Apply(p, env, s).Success?
    requires p.downloadable == Some(true) && p.downloads.Some?
    requires GetProductData(Apply(p, env, s).value, env, view).Some?
    ensures var r := GetProductData(Apply(p, env, s).value, env, view).value.files;
      var files := DownloadFiles(p.downloads.value, env);
      r.downloadable && |r.downloads| == |files| &&
      forall k :: 0 <= k < |files| ==> r.downloads[k] == DownloadView(files[k].key, files[k].name, files[k].file)
  {
    AppliedGroups(p, env, s);
    DownloadOptionsOnlyWhenDownloadable(ResolveProduct(p, env).value.files, p, env);
  }

  // ---------------------------------------------------------------------------
  // Prices

  /**
   * A variable or grouped product reads back with empty prices, whatever was
   * posted; any other product reads back the posted regular price, and the
   * posted sale price when it is true ("" otherwise).
   */
  lemma PricesRoundTrip(p: Payload, env: Env, s: Settings, view: Presentation)
    requires Apply(p, env, s).Success?
    requires GetProductData(Apply(p, env, s).value, env, view).Some?
    ensures var r := GetProductData(Apply(p, env, s).value, env, view).value.prices;
      var kind := ResolveProduct(p, env).value.kind;
      (HasChildPrices(kind) ==> r.price == "" && r.regularPrice == "" && r.salePrice == "") &&
      (!HasChildPrices(kind) && p.regularPrice.Some? ==> r.regularPrice == p.regularPrice.value) &&
      (!HasChildPrices(kind) && p.salePrice.Some? ==> r.salePrice == (if Truthy(p.salePrice.value) then p.salePrice.value else ""))
  {
    AppliedGroups(p, env, s);
    PricingByKind(ResolveProduct(p, env).value, p);
  }

  // ---------------------------------------------------------------------------
  // External link

  /**
   * An external product reads back the posted URL and button text; any other
   * product reads back "" for both, whatever was posted.
   */
  lemma ExternalLinkRoundTrip(p: Payload, env: Env, s: Settings, view: Presentation)
    requires Apply(p, env, s).Success?
    requires GetProductData(Apply(p, env, s).value, env, view).Some?
    ensures var r := GetProductData(Apply(p, env, s).value, env, view).value.links;
      var kind := ResolveProduct(p, env).value.kind;
      (kind == External && p.externalUrl.Some? ==> r.externalUrl == p.externalUrl.value) &&
      (kind == External && p.buttonText.Some? ==> r.buttonText == p.buttonText.value) &&
      (kind != External ==> r.externalUrl == "" && r.buttonText == "")
  {
    AppliedGroups(p, env, s);
    KindNeutralFields(Apply(p, env, s).value, env, view);
  }

  // ---------------------------------------------------------------------------
  // Images

  /**
   * When images are posted and the featured image that results has an
   * attachment, the response lists it first, at position 0; it is the last
   * posted entry at position 0 that resolved, or the product's earlier
   * featured image when no such entry resolved.
   */
  lemma FeaturedImageRoundTrip(p: Payload, env: Env, s: Settings, view: Presentation)
    requires Apply(p, env, s).Success?
    requires p.images.Some? && ImageEntries(p.images.value) != []
    requires var id := Apply(p, env, s).value.images.imageId; id != 0 && env.attachment(id).Some?
    requires GetProductData(Apply(p, env, s).value, env, view).Some?
    ensures var first := GetProductData(Apply(p, env, s).value, env, view).value.taxonomy.images[0];
      var es := ImageEntries(p.images.value);
      first.position == 0 &&
      ((first.id == ResolveProduct(p, env).value.images.imageId && NoPrimaryFrom(es, 0, env)) ||
       (exists i :: 0 <= i < |es| && PrimaryResolvedTo(es, i, first.id, env) && NoPrimaryFrom(es, i + 1, env)))
  {
    AppliedProduct(p, env, s);
    var d0 := ResolveProduct(p, env).value;
    var f := WithFields(d0, p, env, s);
    var rel := WithRelations(f, p, env);
    var es := ImageEntries(p.images.value);
    FieldsGroups(d0, p, env, s);
    RelationsGroups(f, p, env);
    var d := Apply(p, env, s).value;
    assert AssignImages(es, rel.images.imageId, env).Success?;
    assert d.images.imageId == AssignImages(es, rel.images.imageId, env).value.imageId;
    FeaturedIsLastPrimary(es, rel.images.imageId, env);
    FeaturedImageFirst(d, env);
  }
}
