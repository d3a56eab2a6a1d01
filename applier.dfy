/**
 * The applier: prepare_object_for_database and its helpers. A request payload
 * is applied, field by field, to a new or loaded product object.
 *
 * Each step is specified by a function `WithX` from the old product
 * properties to the new ones; the class `Product` performs the same step by
 * a run of setters and is proved to reach exactly that state. `Apply` is the
 * composition of the steps in the order the controller runs them.
 */
module Applier {
  import opened Common
  import opened Php
  import opened Catalog

  // ---------------------------------------------------------------------------
  // Which product object the request works on

  /** absint of `product_id`, 0 when it is not set. */
  function RequestedId(p: Payload): nat {
    if p.productId.Some? then AbsInt(p.productId.value) else 0
  }

  /**
   * An explicit `type` picks the class, built over the stored product when an
   * id is given; otherwise the stored product is loaded by id; otherwise a new
   * simple product is made.
   */
  function ResolveProduct(p: Payload, env: Env): Result<ProductData, Failure> {
    var id := RequestedId(p);
    if p.productType.Some? then
      var kind := KindFromType(p.productType.value);
      if id == 0 then Success(Blank(kind))
      else
        match env.load(id)
        case Some(d) => Success(d.(kind := kind))
        case None => Failure(ProductNotLoaded)
    else if p.productId.Some? then
      match env.load(id)
      case Some(d) => Success(d)
      case None => Failure(ProductNotLoaded)
    else Success(Blank(Simple))
  }

  // ---------------------------------------------------------------------------
  // Plain fields

  /** The status to store for a posted status: itself when registered, "draft" otherwise. */
  function PostStatus(s: string, env: Env): string {
    if env.isRegisteredStatus(s) then s else "draft"
  }

  /** Title, content and excerpt go through wp_filter_post_kses; the status is checked. */
  function WithContent(d: ProductData, p: Payload, env: Env): ProductData {
    d.(post := d.post.(
      name := if p.name.Some? then env.kses(p.name.value) else d.post.name,
      description := if p.description.Some? then env.kses(p.description.value) else d.post.description,
      shortDescription := if p.shortDescription.Some? then env.kses(p.shortDescription.value) else d.post.shortDescription,
      status := if p.status.Some? then PostStatus(p.status.value, env) else d.post.status))
  }

  /** Slug, menu order, reviews and the virtual flag (wc_string_to_bool of the posted value). */
  function WithListing(d: ProductData, p: Payload, env: Env): ProductData {
    d.(post := d.post.(
         slug := if p.slug.Some? then p.slug.value else d.post.slug,
         menuOrder := if p.menuOrder.Some? then p.menuOrder.value else d.post.menuOrder,
         reviewsAllowed := if p.reviewsAllowed.Some? then p.reviewsAllowed.value else d.post.reviewsAllowed),
       general := d.general.(virtual := if p.virtual.Some? then env.toBool(p.virtual.value) else d.general.virtual))
  }

  function WithTaxFields(d: ProductData, p: Payload): ProductData {
    d.(general := d.general.(
      taxStatus := if p.taxStatus.Some? then p.taxStatus.value else d.general.taxStatus,
      taxClass := if p.taxClass.Some? then p.taxClass.value else d.general.taxClass,
      catalogVisibility := if p.catalogVisibility.Some? then p.catalogVisibility.value else d.general.catalogVisibility))
  }

  function WithNoteAndFeatured(d: ProductData, p: Payload, env: Env): ProductData {
    d.(general := d.general.(
      purchaseNote := if p.purchaseNote.Some? then env.clean(p.purchaseNote.value) else d.general.purchaseNote,
      featured := if p.featured.Some? then p.featured.value else d.general.featured))
  }

  /** A request that marks the product virtual with the boolean true itself. */
  predicate VirtualRequested(p: Payload) {
    p.virtual == Some(Bool(true))
  }

  function WithDimensions(sh: ShippingFields, p: Payload): ShippingFields {
    sh.(weight := if p.weight.Some? then p.weight.value else sh.weight,
        height := if p.dimensions.height.Some? then p.dimensions.height.value else sh.height,
        width := if p.dimensions.width.Some? then p.dimensions.width.value else sh.width,
        length := if p.dimensions.length.Some? then p.dimensions.length.value else sh.length)
  }

  /** The shipping fields after save_product_shipping_data: dimensions are cleared for a virtual product, else set when given. */
  function ShippingAfter(sh: ShippingFields, p: Payload, env: Env): ShippingFields {
    var sized := if VirtualRequested(p) then sh.(weight := "", height := "", length := "", width := "") else WithDimensions(sh, p);
    if p.shippingClass.Some? then sized.(shippingClassId := env.shippingClassIdBySlug(env.clean(p.shippingClass.value)))
    else sized
  }

  /** save_product_shipping_data */
  function WithShippingData(d: ProductData, p: Payload, env: Env): ProductData {
    d.(shipping := ShippingAfter(d.shipping, p, env))
  }

  function WithSku(d: ProductData, p: Payload, env: Env): ProductData {
    if p.sku.Some? then d.(general := d.general.(sku := env.clean(p.sku.value))) else d
  }

  function WithParentFields(d: ProductData, p: Payload): ProductData {
    d.(links := d.links.(parentId := if p.parentId.Some? then p.parentId.value else d.links.parentId),
       stock := d.stock.(soldIndividually := if p.soldIndividually.Some? then p.soldIndividually.value else d.stock.soldIndividually))
  }

  // ---------------------------------------------------------------------------
  // Attributes

  /** The option values of a posted attribute: the list, or the text split on WC_DELIMITER ('|'). */
  function OptionValues(o: OptionsField): seq<string> {
    match o
    case OptionList(items) => items
    case OptionText(text) => Explode('|', text)
  }

  /** array_filter(xs, 'strlen'): the non-empty strings, in order. */
  function DropEmpty(xs: seq<string>): (r: seq<string>)
    ensures forall i :: 0 <= i < |r| ==> r[i] != ""
    ensures forall x :: x in r <==> x in xs && x != ""
  {
    if xs == [] then []
    else
      var last := xs[|xs| - 1];
      assert xs == xs[..|xs| - 1] + [last];
      DropEmpty(xs[..|xs| - 1]) + (if last == "" then [] else [last])
  }

  function SanitizeTermTexts(xs: seq<string>, env: Env): seq<string> {
    seq(|xs|, i requires 0 <= i < |xs| => env.sanitizeTermText(xs[i]))
  }

  /** absint of a posted position, 0 when not set. */
  function PositionOf(position: Option<int>): nat {
    if position.Some? then AbsInt(position.value) else 0
  }

  /** A posted flag that is set and true. */
  predicate FlagOf(flag: Option<bool>) {
    flag == Some(true)
  }

  /** The global attribute id of a posted entry: absint of a non-empty id, else 0. */
  function PostedAttributeId(id: Option<int>): nat {
    if id.Some? && id.value != 0 then AbsInt(id.value) else 0
  }

  /** The values a taxonomy attribute keeps: sanitised options without the empty ones. */
  function TaxonomyValues(options: Option<OptionsField>, env: Env): seq<string> {
    if options.Some? then DropEmpty(SanitizeTermTexts(OptionValues(options.value), env)) else []
  }

  /** What one posted attribute entry adds to the new attribute list: nothing, or one attribute. */
  function NormalizeAttribute(a: RawAttribute, env: Env): seq<Attribute> {
    var id := PostedAttributeId(a.id);
    var name :=
      if id != 0 then env.taxonomyNameById(id)
      else if a.name.Some? && Truthy(a.name.value) then env.clean(a.name.value)
      else "";
    if id == 0 && !Truthy(name) then []
    else if id != 0 then
      var values := TaxonomyValues(a.options, env);
      if values == [] then []
      else [Attribute(id, name, values, PositionOf(a.position), FlagOf(a.visible), FlagOf(a.variation))]
    else if a.options.Some? then
      [Attribute(0, name, OptionValues(a.options.value), PositionOf(a.position), FlagOf(a.visible), FlagOf(a.variation))]
    else []
  }

  /** The attribute list built from the posted entries, in posted order. */
  function NormalizeAttributes(raw: seq<RawAttribute>, env: Env): seq<Attribute> {
    if raw == [] then []
    else NormalizeAttributes(raw[..|raw| - 1], env) + NormalizeAttribute(raw[|raw| - 1], env)
  }

  function WithAttributes(d: ProductData, p: Payload, env: Env): ProductData {
    if p.attributes.Some? then d.(attributes := d.attributes.(items := NormalizeAttributes(p.attributes.value, env))) else d
  }

  // ---------------------------------------------------------------------------
  // Prices

  /** Variable and grouped products take their prices from their children. */
  predicate HasChildPrices(k: Kind) {
    k == Variable || k == Grouped
  }

  /** The setter argument for a posted `_gmt` sale date: its timestamp, or null for a false value. */
  function GmtDate(gmt: string): DateArg {
    if Truthy(gmt) then DateFromGmt(gmt) else NullDate
  }

  /** A sale bound: the local text when given, then the UTC text when given. */
  function SaleBound(current: DateArg, local: Option<string>, gmt: Option<string>): DateArg {
    var afterLocal := if local.Some? then DateText(local.value) else current;
    if gmt.Some? then GmtDate(gmt.value) else afterLocal
  }

  /** The prices when the posted ones are set; `price` itself is left alone. */
  function PostedPrices(pr: PriceFields, p: Payload): PriceFields {
    pr.(regular := if p.regularPrice.Some? then p.regularPrice.value else pr.regular,
        sale := if p.salePrice.Some? then p.salePrice.value else pr.sale,
        saleFrom := SaleBound(pr.saleFrom, p.dateOnSaleFrom, p.dateOnSaleFromGmt),
        saleTo := SaleBound(pr.saleTo, p.dateOnSaleTo, p.dateOnSaleToGmt))
  }

  /** What a variable or grouped product's prices become: all cleared. */
  const ClearedPrices := PriceFields("", "", "", DateText(""), DateText(""))

  /** Prices of a variable or grouped product are cleared; others take the posted prices and sale window. */
  function WithPricing(d: ProductData, p: Payload): ProductData {
    d.(prices := if HasChildPrices(d.kind) then ClearedPrices else PostedPrices(d.prices, p))
  }

  // ---------------------------------------------------------------------------
  // Stock

  /** "instock" for a posted `in_stock` that is exactly true, "outofstock" for any other posted value, else the current status. */
  function DesiredStockStatus(current: string, inStock: Option<Value>): string {
    if inStock.Some? then (if inStock.value == Bool(true) then "instock" else "outofstock") else current
  }

  /** wc_stock_amount of a stored quantity; '' counts as 0. */
  function StockAmountOf(q: Option<int>, env: Env): int {
    env.stockAmount(if q.Some? then q.value else 0)
  }

  /** Store-wide stock management is on. */
  predicate ManagesStock(s: Settings) {
    s.manageStockOption == "yes"
  }

  /** The quantity of a product that counts its own stock: a posted quantity wins over a posted delta. */
  function ManagedQuantity(current: Option<int>, p: Payload, env: Env): Option<int> {
    if p.stockQuantity.Some? then Some(env.stockAmount(p.stockQuantity.value))
    else if p.inventoryDelta.Some? then Some(env.stockAmount(StockAmountOf(current, env) + env.stockAmount(p.inventoryDelta.value)))
    else current
  }

  /** The posted manage_stock and backorders flags. */
  function StockFlags(st: StockFields, p: Payload): StockFields {
    st.(manage := if p.manageStock.Some? then p.manageStock.value else st.manage,
        backorders := if p.backorders.Some? then p.backorders.value else st.backorders)
  }

  /** A product that counts its own stock: status (except for a variable product) and quantity. */
  function ManagedStock(st: StockFields, kind: Kind, p: Payload, env: Env, status: string): StockFields {
    st.(status := if kind != Variable then status else st.status,
        quantity := ManagedQuantity(st.quantity, p, env))
  }

  /** The inventory fields after the stock step, for a product of the given kind. */
  function StockAfter(st: StockFields, kind: Kind, p: Payload, env: Env, s: Settings): StockFields {
    var status := DesiredStockStatus(st.status, p.inStock);
    if ManagesStock(s) then
      var flagged := StockFlags(st, p);
      if kind == Grouped then
        flagged.(manage := false, backorders := "no", quantity := None, status := status)
      else if kind == External then
        flagged.(manage := false, backorders := "no", quantity := None, status := "instock")
      else if flagged.manage then ManagedStock(flagged, kind, p, env, status)
      else flagged.(manage := false, quantity := None, status := status)
    else if kind != Variable then st.(status := status)
    else st
  }

  function WithStock(d: ProductData, p: Payload, env: Env, s: Settings): ProductData {
    d.(stock := StockAfter(d.stock, d.kind, p, env, s))
  }

  // ---------------------------------------------------------------------------
  // Linked products and terms

  /** The posted ids that are positive, in posted order. */
  function PositiveIds(ids: seq<int>): seq<int> {
    if ids == [] then []
    else PositiveIds(ids[..|ids| - 1]) + (if ids[|ids| - 1] > 0 then [ids[|ids| - 1]] else [])
  }

  function WithLinkedProducts(d: ProductData, p: Payload): ProductData {
    d.(links := d.links.(
      upsellIds := if p.upsellIds.Some? then PositiveIds(p.upsellIds.value) else d.links.upsellIds,
      crossSellIds := if p.crossSellIds.Some? then PositiveIds(p.crossSellIds.value) else d.links.crossSellIds))
  }

  /** wp_list_pluck(terms, 'id'): the ids of the entries that carry one. */
  function TermIds(terms: seq<TermRef>): seq<int> {
    if terms == [] then []
    else TermIds(terms[..|terms| - 1]) + (if terms[|terms| - 1].id.Some? then [terms[|terms| - 1].id.value] else [])
  }

  /** save_taxonomy_terms: the plucked ids replace the category ids or the tag ids. */
  function WithTaxonomyTerms(d: ProductData, terms: seq<TermRef>, taxonomy: TermTaxonomy): ProductData {
    match taxonomy
    case Categories => d.(terms := d.terms.(categoryIds := TermIds(terms)))
    case Tags => d.(terms := d.terms.(tagIds := TermIds(terms)))
  }

  function WithTerms(d: ProductData, p: Payload): ProductData {
    var d1 := if p.categories.Some? then WithTaxonomyTerms(d, p.categories.value, Categories) else d;
    if p.tags.Some? then WithTaxonomyTerms(d1, p.tags.value, Tags) else d1
  }

  // ---------------------------------------------------------------------------
  // Downloads

  /** The download a posted file entry becomes under its key, or nothing when it has no file. */
  function DownloadOf(key: nat, f: RawDownload, env: Env): seq<Download> {
    if f.file.None? || !Truthy(f.file.value) then []
    else
      var name := if f.name.Some? && Truthy(f.name.value) then f.name.value else env.filenameFromUrl(f.file.value);
      [Download(key, name, f.file.value)]
  }

  /** The downloads built from the posted entries; each keeps its index in the request as its key. */
  function DownloadFiles(downloads: seq<RawDownload>, env: Env): seq<Download> {
    if downloads == [] then []
    else DownloadFiles(downloads[..|downloads| - 1], env) + DownloadOf(|downloads| - 1, downloads[|downloads| - 1], env)
  }

  /** The download fields after the downloadable flag, then the files, limit and expiry of a downloadable product. */
  function FilesAfter(f: FileFields, p: Payload, env: Env): FileFields {
    var downloadable := if p.downloadable.Some? then p.downloadable.value else f.downloadable;
    if downloadable then
      FileFields(
        true,
        if p.downloads.Some? then DownloadFiles(p.downloads.value, env) else f.downloads,
        if p.downloadLimit.Some? then p.downloadLimit.value else f.limit,
        if p.downloadExpiry.Some? then p.downloadExpiry.value else f.expiry)
    else f.(downloadable := false)
  }

  function WithDownloadOptions(d: ProductData, p: Payload, env: Env): ProductData {
    d.(files := FilesAfter(d.files, p, env))
  }

  /** The product URL and button text, set only on an external product. */
  function WithExternalLink(d: ProductData, p: Payload): ProductData {
    if d.kind == External then
      d.(links := d.links.(
        productUrl := if p.externalUrl.Some? then p.externalUrl.value else d.links.productUrl,
        buttonText := if p.buttonText.Some? then p.buttonText.value else d.links.buttonText))
    else d
  }

  function WithChildren(d: ProductData, p: Payload): ProductData {
    if d.kind == Grouped && p.groupedProducts.Some? then d.(links := d.links.(children := p.groupedProducts.value)) else d
  }

  // ---------------------------------------------------------------------------
  // Default attributes

  /** The value stored under a key of an ordered map (a PHP array with string keys). */
  function Lookup(m: seq<(string, string)>, k: string): Option<string> {
    if m == [] then None else if m[0].0 == k then Some(m[0].1) else Lookup(m[1..], k)
  }

  predicate KeysUnique(m: seq<(string, string)>) {
    forall i, j :: 0 <= i < j < |m| ==> m[i].0 != m[j].0
  }

  /** $m[k] = v: the value of an existing key is replaced in place, a new key is appended. */
  function Put(m: seq<(string, string)>, k: string, v: string): (r: seq<(string, string)>)
    ensures KeysUnique(m) ==> KeysUnique(r)
    ensures Lookup(r, k) == Some(v)
    ensures forall k' :: k' != k ==> Lookup(r, k') == Lookup(m, k')
    ensures forall e :: e in r ==> e == (k, v) || e in m
  {
    if m == [] then [(k, v)]
    else if m[0].0 == k then [(k, v)] + m[1..]
    else
      var rest := Put(m[1..], k, v);
      assert forall e :: e in rest ==> e.0 == k || e in m[1..];
      [m[0]] + rest
  }

  /** The attribute name a posted default names: the taxonomy of its id, else sanitize_title of its name. */
  function DefaultAttributeName(e: RawDefault, env: Env): string {
    var id := PostedAttributeId(e.id);
    if id != 0 then env.taxonomyNameById(id)
    else if e.name.Some? && Truthy(e.name.value) then env.sanitizeTitle(e.name.value)
    else ""
  }

  /** The option value a posted default resolves to for the attribute it names. */
  function DefaultValue(e: RawDefault, a: Attribute, name: string, env: Env): string {
    var value := if e.option.Some? then env.clean(env.stripSlashes(e.option.value)) else "";
    if a.IsTaxonomy() then
      match env.termSlugByName(value, name)
      case Some(slug) => slug
      case None => env.sanitizeTitle(value)
    else value
  }

  /** The (name, value) pair a posted default records, or None when the entry is skipped. */
  function DefaultEntry(e: RawDefault, attrs: seq<Attribute>, env: Env): Option<(string, string)> {
    var id := PostedAttributeId(e.id);
    var name := DefaultAttributeName(e, env);
    if id == 0 && !Truthy(name) then None
    else
      match FindAttribute(attrs, name, env.sanitizeTitle)
      case None => None
      case Some(a) =>
        if !a.variation then None
        else
          var value := DefaultValue(e, a, name, env);
          if Truthy(value) then Some((name, value)) else None
  }

  /** The default-attribute map built from the posted entries; a later entry for a name overwrites an earlier one. */
  function DefaultsFrom(entries: seq<RawDefault>, attrs: seq<Attribute>, env: Env): seq<(string, string)> {
    if entries == [] then []
    else
      var before := DefaultsFrom(entries[..|entries| - 1], attrs, env);
      match DefaultEntry(entries[|entries| - 1], attrs, env)
      case None => before
      case Some(kv) => Put(before, kv.0, kv.1)
  }

  /** save_default_attributes */
  function WithDefaultAttributes(d: ProductData, p: Payload, env: Env): ProductData {
    if p.defaultAttributes.Some? then
      d.(attributes := d.attributes.(defaults := DefaultsFrom(p.defaultAttributes.value, d.attributes.items, env)))
    else d
  }

  // ---------------------------------------------------------------------------
  // Images

  /** array_filter on the posted images: only an empty (falsy) entry is dropped. */
  predicate IsImageEntry(e: RawImage) {
    e.id.Some? || e.src.Some? || e.position.Some? || e.alt.Some? || e.name.Some? || e.otherKeys
  }

  function ImageEntries(images: seq<RawImage>): seq<RawImage> {
    if images == [] then []
    else ImageEntries(images[..|images| - 1]) + (if IsImageEntry(images[|images| - 1]) then [images[|images| - 1]] else [])
  }

  /** How one posted image resolves: to an attachment id, to nothing (a suppressed upload failure), or to an error. */
  datatype Resolution = Resolved(attachmentId: nat) | Skipped | Failed(failure: Failure)

  function ResolveImage(e: RawImage, env: Env): Resolution {
    var id := if e.id.Some? then AbsInt(e.id.value) else 0;
    if id == 0 && e.src.Some? then
      match env.upload(e.src.value)
      case None => if env.suppressUploadError(e.src.value) then Skipped else Failed(ImageUploadError)
      case Some(att) => if env.isImage(att) then Resolved(att) else Failed(InvalidImageId(att))
    else if env.isImage(id) then Resolved(id)
    else Failed(InvalidImageId(id))
  }

  /** An entry whose position is set and absint's to 0 names the featured image. */
  predicate IsPrimary(e: RawImage) {
    e.position.Some? && AbsInt(e.position.value) == 0
  }

  /** Featured image id and gallery while the posted images are walked. */
  datatype ImageState = ImageState(imageId: nat, gallery: seq<nat>)

  /** Walking the entries from the current featured image and an empty gallery; the first error stops the walk. */
  function AssignImages(es: seq<RawImage>, current: nat, env: Env): Result<ImageState, Failure> {
    if es == [] then Success(ImageState(current, []))
    else
      match AssignImages(es[..|es| - 1], current, env)
      case Failure(f) => Failure(f)
      case Success(st) =>
        var e := es[|es| - 1];
        match ResolveImage(e, env)
        case Skipped => Success(st)
        case Failed(f) => Failure(f)
        case Resolved(id) =>
          if IsPrimary(e) then Success(st.(imageId := id)) else Success(st.(gallery := st.gallery + [id]))
  }

  /** set_product_images */
  function WithProductImages(d: ProductData, images: seq<RawImage>, env: Env): Result<ProductData, Failure> {
    var es := ImageEntries(images);
    if es == [] then Success(d.(images := ImageFields(0, [])))
    else
      match AssignImages(es, d.images.imageId, env)
      case Failure(f) => Failure(f)
      case Success(st) => Success(d.(images := ImageFields(st.imageId, st.gallery)))
  }

  // ---------------------------------------------------------------------------
  // The whole applier

  /** The setters from the title through stock, in the controller's order. */
  function WithFields(d: ProductData, p: Payload, env: Env, s: Settings): ProductData {
    var d1 := WithContent(d, p, env);
    var d2 := WithListing(d1, p, env);
    var d3 := WithTaxFields(d2, p);
    var d4 := WithNoteAndFeatured(d3, p, env);
    var d5 := WithShippingData(d4, p, env);
    var d6 := WithSku(d5, p, env);
    var d7 := WithAttributes(d6, p, env);
    var d8 := WithPricing(d7, p);
    var d9 := WithParentFields(d8, p);
    WithStock(d9, p, env, s)
  }

  /** The setters from linked products through grouped children, in the controller's order. */
  function WithRelations(d: ProductData, p: Payload, env: Env): ProductData {
    var d1 := WithLinkedProducts(d, p);
    var d2 := WithTerms(d1, p);
    var d3 := WithDownloadOptions(d2, p, env);
    var d4 := WithExternalLink(d3, p);
    var d5 := if d4.kind == Variable then WithDefaultAttributes(d4, p, env) else d4;
    WithChildren(d5, p)
  }

  /** Every step after the kind check; images come last and may fail. */
  function ApplyFields(d0: ProductData, p: Payload, env: Env, s: Settings): Result<ProductData, Failure> {
    var d := WithRelations(WithFields(d0, p, env, s), p, env);
    if p.images.Some? then WithProductImages(d, p.images.value, env) else Success(d)
  }

  /** prepare_object_for_database: the product object to be saved, or the error the request fails with. */
  function Apply(p: Payload, env: Env, s: Settings): Result<ProductData, Failure> {
    match ResolveProduct(p, env)
    case Failure(f) => Failure(f)
    case Success(d0) =>
      if d0.kind == Variation then Failure(VariationNotAllowed) else ApplyFields(d0, p, env, s)

  }

  // ---------------------------------------------------------------------------
  // The product object

  /** A WC_Product object: its properties are changed in place by the setters the controller calls. */
  class Product {
    var props: ProductData

    constructor Load(d: ProductData)
      ensures props == d
    {
      props := d;
    }

    method SetContent(p: Payload, env: Env)
      modifies this
      ensures props == WithContent(old(props), p, env)
    {
      var post := props.post;
      if p.name.Some? { post := post.(name := env.kses(p.name.value)); }
      if p.description.Some? { post := post.(description := env.kses(p.description.value)); }
      if p.shortDescription.Some? { post := post.(shortDescription := env.kses(p.shortDescription.value)); }
      if p.status.Some? {
        post := post.(status := if env.isRegisteredStatus(p.status.value) then p.status.value else "draft");
      }
      props := props.(post := post);
    }

    method SetListing(p: Payload, env: Env)
      modifies this
      ensures props == WithListing(old(props), p, env)
    {
      var post, general := props.post, props.general;
      if p.slug.Some? { post := post.(slug := p.slug.value); }
      if p.menuOrder.Some? { post := post.(menuOrder := p.menuOrder.value); }
      if p.reviewsAllowed.Some? { post := post.(reviewsAllowed := p.reviewsAllowed.value); }
      if p.virtual.Some? { general := general.(virtual := env.toBool(p.virtual.value)); }
      props := props.(post := post, general := general);
    }

    method SetTaxFields(p: Payload)
      modifies this
      ensures props == WithTaxFields(old(props), p)
    {
      var general := props.general;
      if p.taxStatus.Some? { general := general.(taxStatus := p.taxStatus.value); }
      if p.taxClass.Some? { general := general.(taxClass := p.taxClass.value); }
      if p.catalogVisibility.Some? { general := general.(catalogVisibility := p.catalogVisibility.value); }
      props := props.(general := general);
    }

    method SetNoteAndFeatured(p: Payload, env: Env)
      modifies this
      ensures props == WithNoteAndFeatured(old(props), p, env)
    {
      var general := props.general;
      if p.purchaseNote.Some? { general := general.(purchaseNote := env.clean(p.purchaseNote.value)); }
      if p.featured.Some? { general := general.(featured := p.featured.value); }
      props := props.(general := general);
    }

    method SaveProductShippingData(p: Payload, env: Env)
      modifies this
      ensures props == WithShippingData(old(props), p, env)
    {
      var shipping := props.shipping;
      if p.virtual.Some? && p.virtual.value == Bool(true) {
        shipping := shipping.(weight := "", height := "", length := "", width := "");
      } else {
        if p.weight.Some? { shipping := shipping.(weight := p.weight.value); }
        if p.dimensions.height.Some? { shipping := shipping.(height := p.dimensions.height.value); }
        if p.dimensions.width.Some? { shipping := shipping.(width := p.dimensions.width.value); }
        if p.dimensions.length.Some? { shipping := shipping.(length := p.dimensions.length.value); }
      }
      if p.shippingClass.Some? {
        shipping := shipping.(shippingClassId := env.shippingClassIdBySlug(env.clean(p.shippingClass.value)));
      }
      props := props.(shipping := shipping);
    }

    method SetSku(p: Payload, env: Env)
      modifies this
      ensures props == WithSku(old(props), p, env)
    {
      if p.sku.Some? { props := props.(general := props.general.(sku := env.clean(p.sku.value))); }
    }

    method SetAttributes(p: Payload, env: Env)
      modifies this
      ensures props == WithAttributes(old(props), p, env)
    {
      if p.attributes.Some? {
        var attributes := BuildAttributes(p.attributes.value, env);
        props := props.(attributes := props.attributes.(items := attributes));
      }
    }

    method SetPricing(p: Payload)
      modifies this
      ensures props == WithPricing(old(props), p)
    {
      var prices := props.prices;
      if props.kind == Variable || props.kind == Grouped {
        prices := prices.(regular := "");
        prices := prices.(sale := "");
        prices := prices.(saleTo := DateText(""));
        prices := prices.(saleFrom := DateText(""));
        prices := prices.(price := "");
      } else {
        prices := SetPostedPrices(prices, p);
      }
      props := props.(prices := prices);
    }

    method SetParentFields(p: Payload)
      modifies this
      ensures props == WithParentFields(old(props), p)
    {
      var links, stock := props.links, props.stock;
      if p.parentId.Some? { links := links.(parentId := p.parentId.value); }
      if p.soldIndividually.Some? { stock := stock.(soldIndividually := p.soldIndividually.value); }
      props := props.(links := links, stock := stock);
    }

    method SetStock(p: Payload, env: Env, s: Settings)
      modifies this
      ensures props == WithStock(old(props), p, env, s)
    {
      var stock := props.stock;
      var stockStatus := stock.status;
      if p.inStock.Some? {
        stockStatus := if p.inStock.value == Bool(true) then "instock" else "outofstock";
      }
      if s.manageStockOption == "yes" {
        if p.manageStock.Some? { stock := stock.(manage := p.manageStock.value); }
        if p.backorders.Some? { stock := stock.(backorders := p.backorders.value); }
        if props.kind == Grouped {
          stock := stock.(manage := false, backorders := "no", quantity := None, status := stockStatus);
        } else if props.kind == External {
          stock := stock.(manage := false, backorders := "no", quantity := None, status := "instock");
        } else if stock.manage {
          stock := SetManagedStock(stock, props.kind, p, env, stockStatus);
        } else {
          stock := stock.(manage := false, quantity := None, status := stockStatus);
        }
      } else if props.kind != Variable {
        stock := stock.(status := stockStatus);
      }
      props := props.(stock := stock);
    }

    method SetLinkedProducts(p: Payload)
      modifies this
      ensures props == WithLinkedProducts(old(props), p)
    {
      var links := props.links;
      if p.upsellIds.Some? {
        var upsells := KeepPositiveIds(p.upsellIds.value);
        links := links.(upsellIds := upsells);
      }
      if p.crossSellIds.Some? {
        var crosssells := KeepPositiveIds(p.crossSellIds.value);
        links := links.(crossSellIds := crosssells);
      }
      props := props.(links := links);
    }

    method SaveTaxonomyTerms(terms: seq<TermRef>, taxonomy: TermTaxonomy)
      modifies this
      ensures props == WithTaxonomyTerms(old(props), terms, taxonomy)
    {
      var termIds := TermIds(terms);
      match taxonomy {
        case Categories => props := props.(terms := props.terms.(categoryIds := termIds));
        case Tags => props := props.(terms := props.terms.(tagIds := termIds));
      }
    }

    method SaveDownloadableFiles(downloads: seq<RawDownload>, env: Env)
      modifies this
      ensures props == old(props).(files := old(props).files.(downloads := DownloadFiles(downloads, env)))
    {
      var files: seq<Download> := [];
      var key := 0;
      while key < |downloads|
        invariant 0 <= key <= |downloads|
        invariant files == DownloadFiles(downloads[..key], env)
      {
        var file := downloads[key];
        assert downloads[..key + 1] == downloads[..key] + [file];
        if file.file.Some? && Truthy(file.file.value) {
          var name := if file.name.Some? && Truthy(file.name.value) then file.name.value else env.filenameFromUrl(file.file.value);
          files := files + [Download(key, name, file.file.value)];
        }
        key := key + 1;
      }
      assert downloads[..|downloads|] == downloads;
      props := props.(files := props.files.(downloads := files));
    }

    method SetDownloadOptions(p: Payload, env: Env)
      modifies this
      ensures props == WithDownloadOptions(old(props), p, env)
    {
      if p.downloadable.Some? { props := props.(files := props.files.(downloadable := p.downloadable.value)); }
      if props.files.downloadable {
        if p.downloads.Some? { SaveDownloadableFiles(p.downloads.value, env); }
        var files := props.files;
        if p.downloadLimit.Some? { files := files.(limit := p.downloadLimit.value); }
        if p.downloadExpiry.Some? { files := files.(expiry := p.downloadExpiry.value); }
        props := props.(files := files);
      }
    }

    method SetExternalLink(p: Payload)
      modifies this
      ensures props == WithExternalLink(old(props), p)
    {
      if props.kind == External {
        var links := props.links;
        if p.externalUrl.Some? { links := links.(productUrl := p.externalUrl.value); }
        if p.buttonText.Some? { links := links.(buttonText := p.buttonText.value); }
        props := props.(links := links);
      }
    }

    method SaveDefaultAttributes(p: Payload, env: Env)
      modifies this
      ensures props == WithDefaultAttributes(old(props), p, env)
    {
      if p.defaultAttributes.Some? {
        var entries := p.defaultAttributes.value;
        var attributes := props.attributes.items;
        var defaultAttributes: seq<(string, string)> := [];
        var i := 0;
        while i < |entries|
          invariant 0 <= i <= |entries|
          invariant defaultAttributes == DefaultsFrom(entries[..i], attributes, env)
        {
          var e := entries[i];
          assert entries[..i + 1] == entries[..i] + [e];
          var attributeId := PostedAttributeId(e.id);
          var attributeName := DefaultAttributeName(e, env);
          if attributeId != 0 || Truthy(attributeName) {
            var found := FindAttribute(attributes, attributeName, env.sanitizeTitle);
            if found.Some? && found.value.variation {
              var value := DefaultValue(e, found.value, attributeName, env);
              if Truthy(value) {
                defaultAttributes := Put(defaultAttributes, attributeName, value);
              }
            }
          }
          i := i + 1;
        }
        assert entries[..|entries|] == entries;
        props := props.(attributes := props.attributes.(defaults := defaultAttributes));
      }
    }

    method SetChildren(p: Payload)
      modifies this
      ensures props == WithChildren(old(props), p)
    {
      if props.kind == Grouped && p.groupedProducts.Some? {
        props := props.(links := props.links.(children := p.groupedProducts.value));
      }
    }

    /** set_product_images; on failure the object is dropped by the caller, so its state is not described. */
    method SetProductImages(images: seq<RawImage>, env: Env) returns (failure: Option<Failure>)
      modifies this
      ensures WithProductImages(old(props), images, env).Failure? <==> failure.Some?
      ensures failure.Some? ==> failure.value == WithProductImages(old(props), images, env).error
      ensures failure.None? ==> props == WithProductImages(old(props), images, env).value
    {
      var es := ImageEntries(images);
      if es == [] {
        props := props.(images := ImageFields(0, []));
        return None;
      }
      var walked := WalkImages(es, props.images.imageId, env);
      if walked.Failure? {
        return Some(walked.error);
      }
      props := props.(images := ImageFields(walked.value.imageId, walked.value.gallery));
      return None;
    }

    /** The setters from the title through stock. */
    method SetFields(p: Payload, env: Env, s: Settings)
      modifies this
      ensures props == WithFields(old(props), p, env, s)
    {
      SetContent(p, env);
      SetListing(p, env);
      SetTaxFields(p);
      SetNoteAndFeatured(p, env);
      SaveProductShippingData(p, env);
      SetSku(p, env);
      SetAttributes(p, env);
      SetPricing(p);
      SetParentFields(p);
      SetStock(p, env, s);
    }

    /** The setters from linked products through grouped children. */
    method SetRelations(p: Payload, env: Env)
      modifies this
      ensures props == WithRelations(old(props), p, env)
    {
      SetLinkedProducts(p);
      if p.categories.Some? {
        SaveTaxonomyTerms(p.categories.value, Categories);
      }
      if p.tags.Some? {
        SaveTaxonomyTerms(p.tags.value, Tags);
      }
      SetDownloadOptions(p, env);
      SetExternalLink(p);
      if props.kind == Variable {
        SaveDefaultAttributes(p, env);
      }
      SetChildren(p);
    }
  }

  /**
   * The image loop: each entry is uploaded when it has no id but a source,
   * checked to be an image, and becomes the featured image (position 0) or
   * joins the gallery; the first error ends the walk.
   */
  method WalkImages(es: seq<RawImage>, current: nat, env: Env) returns (r: Result<ImageState, Failure>)
    ensures r == AssignImages(es, current, env)
  {
    var imageId: nat := current;
    var gallery: seq<nat> := [];
    var i := 0;
    while i < |es|
      invariant 0 <= i <= |es|
      invariant AssignImages(es[..i], current, env) == Success(ImageState(imageId, gallery))
    {
      var e := es[i];
      assert es[..i + 1] == es[..i] + [e];
      assert es[..i + 1][..i] == es[..i];
      var resolution := ResolveEntry(e, env);
      match resolution {
        case Skipped =>
        case Failed(f) =>
          FailureStopsWalk(es, i + 1, current, env);
          return Failure(f);
        case Resolved(attachmentId) =>
          if IsPrimary(e) {
            imageId := attachmentId;
          } else {
            gallery := gallery + [attachmentId];
          }
      }
      i := i + 1;
    }
    assert es[..|es|] == es;
    return Success(ImageState(imageId, gallery));
  }

  /**
   * One image entry: an entry without an id but with a source is uploaded (a
   * failed upload is skipped when the suppress filter says so), and the
   * attachment must be an image.
   */
  method ResolveEntry(e: RawImage, env: Env) returns (res: Resolution)
    ensures res == ResolveImage(e, env)
  {
    var attachmentId := if e.id.Some? then AbsInt(e.id.value) else 0;
    if attachmentId == 0 && e.src.Some? {
      var upload := env.upload(e.src.value);
      if upload.None? {
        if !env.suppressUploadError(e.src.value) {
          return Failed(ImageUploadError);
        }
        return Skipped;
      }
      attachmentId := upload.value;
    }
    if !env.isImage(attachmentId) {
      return Failed(InvalidImageId(attachmentId));
    }
    return Resolved(attachmentId);
  }

  /** The attribute loop: every posted entry in order, each adding at most one attribute. */
  method BuildAttributes(raw: seq<RawAttribute>, env: Env) returns (attributes: seq<Attribute>)
    ensures attributes == NormalizeAttributes(raw, env)
  {
    attributes := [];
    var i := 0;
    while i < |raw|
      invariant 0 <= i <= |raw|
      invariant attributes == NormalizeAttributes(raw[..i], env)
    {
      assert raw[..i + 1] == raw[..i] + [raw[i]];
      var added := AttributeFromEntry(raw[i], env);
      attributes := attributes + added;
      i := i + 1;
    }
    assert raw[..|raw|] == raw;
  }

  /** The body of the attribute loop: the attribute one posted entry adds, if any. */
  method AttributeFromEntry(a: RawAttribute, env: Env) returns (added: seq<Attribute>)
    ensures added == NormalizeAttribute(a, env)
  {
    added := [];
    var attributeId := PostedAttributeId(a.id);
    var attributeName := "";
    if attributeId != 0 {
      attributeName := env.taxonomyNameById(attributeId);
    } else if a.name.Some? && Truthy(a.name.value) {
      attributeName := env.clean(a.name.value);
    }
    if attributeId == 0 && !Truthy(attributeName) {
      return;  // neither a global id nor a name
    }
    if attributeId != 0 {
      var values := TaxonomyValues(a.options, env);
      if values != [] {
        added := [Attribute(attributeId, attributeName, values, PositionOf(a.position), FlagOf(a.visible), FlagOf(a.variation))];
      }
    } else if a.options.Some? {
      var values := OptionValues(a.options.value);
      added := [Attribute(0, attributeName, values, PositionOf(a.position), FlagOf(a.visible), FlagOf(a.variation))];
    }
  }

  /** The price setters of a product that has its own prices; a UTC sale date is applied after the local one. */
  method SetPostedPrices(prices: PriceFields, p: Payload) returns (r: PriceFields)
    ensures r == PostedPrices(prices, p)
  {
    r := prices;
    if p.regularPrice.Some? { r := r.(regular := p.regularPrice.value); }
    if p.salePrice.Some? { r := r.(sale := p.salePrice.value); }
    if p.dateOnSaleFrom.Some? { r := r.(saleFrom := DateText(p.dateOnSaleFrom.value)); }
    if p.dateOnSaleFromGmt.Some? {
      r := r.(saleFrom := if Truthy(p.dateOnSaleFromGmt.value) then DateFromGmt(p.dateOnSaleFromGmt.value) else NullDate);
    }
    if p.dateOnSaleTo.Some? { r := r.(saleTo := DateText(p.dateOnSaleTo.value)); }
    if p.dateOnSaleToGmt.Some? {
      r := r.(saleTo := if Truthy(p.dateOnSaleToGmt.value) then DateFromGmt(p.dateOnSaleToGmt.value) else NullDate);
    }
  }

  /** A product that counts its own stock: its status unless it is variable (children decide), and its quantity. */
  method SetManagedStock(stock: StockFields, kind: Kind, p: Payload, env: Env, stockStatus: string) returns (r: StockFields)
    ensures r == ManagedStock(stock, kind, p, env, stockStatus)
  {
    r := stock;
    if kind != Variable {
      r := r.(status := stockStatus);
    }
    if p.stockQuantity.Some? {
      r := r.(quantity := Some(env.stockAmount(p.stockQuantity.value)));
    } else if p.inventoryDelta.Some? {
      var stockQuantity := StockAmountOf(r.quantity, env);
      stockQuantity := stockQuantity + env.stockAmount(p.inventoryDelta.value);
      r := r.(quantity := Some(env.stockAmount(stockQuantity)));
    }
  }

  /** A failure met on a prefix of the entries is the failure of the whole walk. */
  lemma {:induction false} FailureStopsWalk(es: seq<RawImage>, k: nat, current: nat, env: Env)
    requires k <= |es|
    requires AssignImages(es[..k], current, env).Failure?
    ensures AssignImages(es, current, env) == AssignImages(es[..k], current, env)
    decreases |es| - k
  {
    if k < |es| {
      assert es[..k + 1][..k] == es[..k];
      FailureStopsWalk(es, k + 1, current, env);
    } else {
      assert es[..k] == es;
    }
  }

  /** The loop shared by the upsell and cross-sell ids: keep the positive ones. */
  method KeepPositiveIds(ids: seq<int>) returns (kept: seq<int>)
    ensures kept == PositiveIds(ids)
  {
    kept := [];
    var i := 0;
    while i < |ids|
      invariant 0 <= i <= |ids|
      invariant kept == PositiveIds(ids[..i])
    {
      assert ids[..i + 1] == ids[..i] + [ids[i]];
      if ids[i] > 0 {
        kept := kept + [ids[i]];
      }
      i := i + 1;
    }
    assert ids[..|ids|] == ids;
  }

  /** The product object a request works on (the head of prepare_object_for_database). */
  method LoadProduct(p: Payload, env: Env) returns (r: Result<Product, Failure>)
    ensures ResolveProduct(p, env).Failure? ==> r == Failure(ResolveProduct(p, env).error)
    ensures ResolveProduct(p, env).Success? ==> r.Success? && fresh(r.value) && r.value.props == ResolveProduct(p, env).value
  {
    var id := RequestedId(p);
    var product: Product;
    if p.productType.Some? {
      var kind := KindFromType(p.productType.value);
      if id == 0 {
        product := new Product.Load(Blank(kind));
      } else {
        var stored := env.load(id);
        if stored.None? {
          return Failure(ProductNotLoaded);
        }
        product := new Product.Load(stored.value.(kind := kind));
      }
    } else if p.productId.Some? {
      var stored := env.load(id);
      if stored.None? {
        return Failure(ProductNotLoaded);
      }
      product := new Product.Load(stored.value);
    } else {
      product := new Product.Load(Blank(Simple));
    }
    return Success(product);
  }

  /**
   * prepare_object_for_database: builds or loads the product object, refuses
   * a variation, then runs every setter step in the controller's order.
   */
  method PrepareObjectForDatabase(p: Payload, env: Env, s: Settings) returns (r: Result<Product, Failure>)
    ensures Apply(p, env, s).Failure? ==> r == Failure(Apply(p, env, s).error)
    ensures Apply(p, env, s).Success? ==> r.Success? && fresh(r.value) && r.value.props == Apply(p, env, s).value
  {
    var loaded := LoadProduct(p, env);
    if loaded.Failure? {
      return Failure(loaded.error);
    }
    var product := loaded.value;
    if product.props.kind == Variation {
      return Failure(VariationNotAllowed);
    }
    product.SetFields(p, env, s);
    product.SetRelations(p, env);
    if p.images.Some? {
      var failure := product.SetProductImages(p.images.value, env);
      if failure.Some? {
        return Failure(failure.value);
      }
    }
    return Success(product);
  }
}
