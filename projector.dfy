/**
 * The projector: get_product_data and its helpers. A product object is read
 * into the record the REST API returns; nothing is changed.
 *
 * The response is grouped into small records (post, prices, files, stock,
 * shipping, links, taxonomy) that together hold the fields the controller
 * computes itself or reads straight from a getter.
 */
module Projector {
  import opened Common
  import opened Php
  import opened Catalog

  // ---------------------------------------------------------------------------
  // Wire records

  datatype TermView = TermView(id: int, name: string, slug: string)

  datatype ImageView = ImageView(id: nat, src: string, name: string, alt: string, position: nat)

  /** An attribute of a product that is not a variation. */
  datatype AttributeView = AttributeView(id: nat, name: string, position: nat, visible: bool, variation: bool, options: seq<string>)

  /** A chosen option: an attribute a variation selects, or a default attribute of a variable product. */
  datatype OptionView = OptionView(id: nat, name: string, option: string)

  /** `attributes` is a list of chosen options for a variation and a list of attributes otherwise. */
  datatype AttributesView = FullAttributes(items: seq<AttributeView>) | VariationAttributes(chosen: seq<OptionView>)

  datatype DownloadView = DownloadView(id: nat, name: string, file: string)

  datatype PostView = PostView(
    id: nat, name: string, slug: string, author: int, typeName: string, status: string,
    featured: bool, catalogVisibility: string, description: string, shortDescription: string,
    purchaseNote: string, menuOrder: int, reviewsAllowed: bool)

  datatype PriceView = PriceView(sku: string, price: string, regularPrice: string, salePrice: string)

  datatype FilesView = FilesView(virtual: bool, downloadable: bool, downloads: seq<DownloadView>, limit: int, expiry: int)

  datatype StockView = StockView(taxStatus: string, taxClass: string, quantity: Option<int>, backorders: string, soldIndividually: bool)

  datatype ShippingView = ShippingView(weight: string, length: string, width: string, height: string, shippingClassId: int)

  datatype LinkView = LinkView(
    externalUrl: string, buttonText: string, upsellIds: seq<nat>, crossSellIds: seq<nat>,
    parentId: int, variations: seq<int>, groupedProducts: seq<int>)

  datatype TaxonomyView = TaxonomyView(
    categories: seq<TermView>, tags: seq<TermView>, images: seq<ImageView>,
    attributes: AttributesView, defaultAttributes: seq<OptionView>)

  datatype ProductView = ProductView(
    post: PostView, prices: PriceView, files: FilesView, stock: StockView,
    shipping: ShippingView, links: LinkView, taxonomy: TaxonomyView)

  /**
   * The 'view'-context filters applied to text fields: wpautop(do_shortcode())
   * on the description, the woocommerce_short_description filter on the
   * excerpt, and wpautop(do_shortcode(wp_kses_post())) on the purchase note.
   */
  datatype Presentation = Presentation(
    content: string -> string,
    shortDescription: string -> string,
    purchaseNote: string -> string)

  // ---------------------------------------------------------------------------
  // Terms

  /** get_taxonomy_terms: the product's terms of product_cat or product_tag, in the order WordPress returns them. */
  function GetTaxonomyTerms(d: ProductData, taxonomy: TermTaxonomy, env: Env): (r: seq<TermView>)
    ensures |r| == |env.objectTerms(d.id, "product_" + taxonomy.Suffix())|
    ensures forall i :: 0 <= i < |r| ==>
      var t := env.objectTerms(d.id, "product_" + taxonomy.Suffix())[i];
      r[i] == TermView(t.termId, t.name, t.slug)
  {
    var terms := env.objectTerms(d.id, "product_" + taxonomy.Suffix());
    seq(|terms|, i requires 0 <= i < |terms| => TermView(terms[i].termId, terms[i].name, terms[i].slug))
  }

  // ---------------------------------------------------------------------------
  // Images

  /** The ids get_images looks at: the featured image when there is one (has_post_thumbnail), then the gallery. */
  function AttachmentIds(d: ProductData): seq<nat> {
    (if d.images.imageId != 0 then [d.images.imageId] else []) + d.images.galleryIds
  }

  /** The image entries of the ids that resolve to an attachment; each keeps its index among the ids as its position. */
  function ImagesFrom(ids: seq<nat>, env: Env): seq<ImageView> {
    if ids == [] then []
    else
      var n := |ids| - 1;
      ImagesFrom(ids[..n], env) +
      match env.attachment(ids[n])
      case None => []
      case Some(info) => [ImageView(ids[n], info.src, info.title, info.alt, n)]
  }

  /** The entry returned when no image resolves. */
  function Placeholder(env: Env): ImageView {
    ImageView(0, env.placeholderSrc, "Placeholder", "Placeholder", 0)
  }

  /** get_images: the resolved images, or the placeholder alone; the list is never empty. */
  function GetImages(d: ProductData, env: Env): (r: seq<ImageView>)
    ensures |r| >= 1
    ensures ImagesFrom(AttachmentIds(d), env) == [] ==> r == [Placeholder(env)]
    ensures ImagesFrom(AttachmentIds(d), env) != [] ==> r == ImagesFrom(AttachmentIds(d), env)
  {
    var images := ImagesFrom(AttachmentIds(d), env);
    if images == [] then [Placeholder(env)] else images
  }

  // ---------------------------------------------------------------------------
  // Attributes

  /**
   * get_attribute_taxonomy_name: for a key the product has an attribute
   * under, the taxonomy's label or the custom attribute's name; for any other
   * key, the key with every "pa_" removed.
   */
  function AttributeTaxonomyName(slug: string, attrs: seq<Attribute>, env: Env): (r: string)
    ensures (forall a :: a in attrs ==> env.sanitizeTitle(a.name) != slug) ==> r == RemoveAll(slug, "pa_")
  {
    match FindAttribute(attrs, slug, env.sanitizeTitle)
    case None => RemoveAll(slug, "pa_")
    case Some(a) => if a.IsTaxonomy() then env.taxonomyLabel(a.name) else a.name
  }

  /**
   * get_attribute_options: the term names of a taxonomy attribute; for a
   * custom attribute, its stored value (the options joined with " | ") split
   * on '|' and trimmed.
   */
  function AttributeOptions(productId: nat, a: Attribute, env: Env): seq<string> {
    if a.IsTaxonomy() then env.productTermNames(productId, a.name)
    else TrimAll(Explode('|', Implode(" | ", a.options)))
  }

  /** One attribute of a product that is not a variation. */
  function AttributeViewOf(a: Attribute, d: ProductData, env: Env): AttributeView {
    AttributeView(
      if a.IsTaxonomy() then env.taxonomyIdByName(a.name) else 0,
      AttributeTaxonomyName(a.name, d.attributes.items, env),
      a.position, a.visible, a.variation,
      AttributeOptions(d.id, a, env))
  }

  /** The option a variation selects under the key "attribute_<name>", read against the parent's attributes. */
  function ChosenOption(key: string, value: string, parentAttrs: seq<Attribute>, env: Env): OptionView {
    var name := RemoveAll(key, "attribute_");
    if StartsWith(key, "attribute_pa_") then
      var option := match env.termNameBySlug(value, name) case Some(termName) => termName case None => value;
      OptionView(env.taxonomyIdByName(name), AttributeTaxonomyName(name, parentAttrs, env), option)
    else OptionView(0, AttributeTaxonomyName(name, parentAttrs, env), value)
  }

  /** The selected attributes of a variation, skipping the ones whose value is false ("" or "0"). */
  function ChosenOptions(selected: seq<(string, string)>, parentAttrs: seq<Attribute>, env: Env): seq<OptionView> {
    if selected == [] then []
    else
      var n := |selected| - 1;
      ChosenOptions(selected[..n], parentAttrs, env) +
      (if Truthy(selected[n].1) then [ChosenOption(selected[n].0, selected[n].1, parentAttrs, env)] else [])
  }

  /** Some selected value of the variation is true, so the parent's attributes are consulted. */
  predicate SelectsSomething(selected: seq<(string, string)>) {
    exists i :: 0 <= i < |selected| && Truthy(selected[i].1)
  }

  /**
   * get_attributes. A variation reads names through its parent product; when
   * the parent cannot be loaded and a name is needed the source fails (it
   * calls a method on `false`), which is None here.
   */
  function GetAttributes(d: ProductData, env: Env): (r: Option<AttributesView>)
    ensures r.None? <==> d.kind == Variation && env.load(d.links.parentId).None? && SelectsSomething(d.attributes.selected)
  {
    if d.kind == Variation then
      match env.load(d.links.parentId)
      case Some(parent) => Some(VariationAttributes(ChosenOptions(d.attributes.selected, parent.attributes.items, env)))
      case None =>
        if SelectsSomething(d.attributes.selected) then None
        else Some(VariationAttributes([]))
    else
      Some(FullAttributes(seq(|d.attributes.items|, i requires 0 <= i < |d.attributes.items| => AttributeViewOf(d.attributes.items[i], d, env))))
  }

  /** One default attribute of a variable product. */
  function DefaultView(key: string, value: string, attrs: seq<Attribute>, env: Env): OptionView {
    OptionView(if StartsWith(key, "pa_") then env.taxonomyIdByName(key) else 0, AttributeTaxonomyName(key, attrs, env), value)
  }

  /** The defaults with a non-empty value (array_filter with strlen), each as a chosen option. */
  function DefaultViews(defaults: seq<(string, string)>, attrs: seq<Attribute>, env: Env): seq<OptionView> {
    if defaults == [] then []
    else
      var n := |defaults| - 1;
      DefaultViews(defaults[..n], attrs, env) +
      (if defaults[n].1 != "" then [DefaultView(defaults[n].0, defaults[n].1, attrs, env)] else [])
  }

  /** get_default_attributes: only a variable product has any. */
  function GetDefaultAttributes(d: ProductData, env: Env): (r: seq<OptionView>)
    ensures d.kind != Variable ==> r == []
  {
    if d.kind == Variable then DefaultViews(d.attributes.defaults, d.attributes.items, env) else []
  }

  // ---------------------------------------------------------------------------
  // Downloads

  /** get_downloads: the stored files of a downloadable product under their keys; none otherwise. */
  function GetDownloads(d: ProductData): (r: seq<DownloadView>)
    ensures !d.files.downloadable ==> r == []
    ensures d.files.downloadable ==> |r| == |d.files.downloads|
    ensures d.files.downloadable ==>
      forall i :: 0 <= i < |r| ==> r[i] == DownloadView(d.files.downloads[i].key, d.files.downloads[i].name, d.files.downloads[i].file)
  {
    if d.files.downloadable then
      seq(|d.files.downloads|, i requires 0 <= i < |d.files.downloads| =>
        DownloadView(d.files.downloads[i].key, d.files.downloads[i].name, d.files.downloads[i].file))
    else []
  }

  // ---------------------------------------------------------------------------
  // The whole record

  /** array_map('absint', ids) */
  function AbsIds(ids: seq<int>): (r: seq<nat>)
    ensures |r| == |ids| && forall i :: 0 <= i < |r| ==> r[i] == AbsInt(ids[i])
  {
    seq(|ids|, i requires 0 <= i < |ids| => AbsInt(ids[i]))
  }

  function PostViewOf(d: ProductData, view: Presentation): PostView {
    PostView(
      d.id, d.post.name, d.post.slug, d.author, TypeName(d.kind), d.post.status,
      d.general.featured, d.general.catalogVisibility, view.content(d.post.description),
      view.shortDescription(d.post.shortDescription), view.purchaseNote(d.general.purchaseNote),
      d.post.menuOrder, d.post.reviewsAllowed)
  }

  /** A sale price that is false ("" or "0") is returned as "". */
  function PriceViewOf(d: ProductData): PriceView {
    PriceView(d.general.sku, d.prices.price, d.prices.regular, if Truthy(d.prices.sale) then d.prices.sale else "")
  }

  /** The URL and button text are "" unless the product is external; `variations` and `grouped_products` are always empty. */
  function LinkViewOf(d: ProductData): LinkView {
    var external := d.kind == External;
    LinkView(
      if external then d.links.productUrl else "",
      if external then d.links.buttonText else "",
      AbsIds(d.links.upsellIds), AbsIds(d.links.crossSellIds), d.links.parentId, [], [])
  }

  /**
   * get_product_data in the 'view' context every caller uses. None when the
   * source fails: a variation whose attribute names need a parent that
   * cannot be loaded.
   */
  function GetProductData(d: ProductData, env: Env, view: Presentation): (r: Option<ProductView>)
    ensures r.Some? <==> GetAttributes(d, env).Some?
    ensures r.Some? ==> r.value.taxonomy.attributes == GetAttributes(d, env).value
  {
    match GetAttributes(d, env)
    case None => None
    case Some(attributes) =>
      Some(ProductView(
        PostViewOf(d, view),
        PriceViewOf(d),
        FilesView(d.general.virtual, d.files.downloadable, GetDownloads(d), d.files.limit, d.files.expiry),
        StockView(d.general.taxStatus, d.general.taxClass, d.stock.quantity, d.stock.backorders, d.stock.soldIndividually),
        ShippingView(d.shipping.weight, d.shipping.length, d.shipping.width, d.shipping.height, d.shipping.shippingClassId),
        LinkViewOf(d),
        TaxonomyView(
          GetTaxonomyTerms(d, Categories, env), GetTaxonomyTerms(d, Tags, env), GetImages(d, env),
          attributes, GetDefaultAttributes(d, env))))
  }
}
