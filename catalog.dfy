/**
 * The entities the product controller works with: the stored product, its
 * attributes, downloads and images, the request payload, the store settings,
 * the error codes, and the WordPress/WooCommerce services it calls.
 */
module Catalog {
  import opened Common
  import opened Php

  /** The product kinds; each is a WC_Product_* class. */
  datatype Kind = Simple | Variable | Grouped | External | Variation

  /** WC_Product::get_type() */
  function TypeName(k: Kind): string {
    match k
    case Simple => "simple"
    case Variable => "variable"
    case Grouped => "grouped"
    case External => "external"
    case Variation => "variation"
  }

  /**
   * The class WC_Product_Factory::get_classname_from_product_type picks for a
   * requested `type`, falling back to the simple product when no such class
   * exists. Class names are case-insensitive in PHP, so "Variable" and
   * "VARIABLE" also name the variable product.
   */
  function KindFromType(t: string): (k: Kind)
    ensures TypeName(k) == Lower(t) || (k == Simple && Lower(t) !in {"variable", "grouped", "external", "variation"})
  {
    var l := Lower(t);
    if l == "variable" then Variable
    else if l == "grouped" then Grouped
    else if l == "external" then External
    else if l == "variation" then Variation
    else Simple
  }

  /**
   * A WC_Product_Attribute. It is taxonomy-backed when its id is not 0; the
   * name is then the taxonomy name ("pa_colour"), otherwise the free-text name.
   */
  datatype Attribute = Attribute(id: nat, name: string, options: seq<string>, position: nat, visible: bool, variation: bool)
  {
    predicate IsTaxonomy() { id > 0 }
  }

  /** A WC_Product_Download: the key it was posted under, its display name and its file. */
  datatype Download = Download(key: nat, name: string, file: string)

  /**
   * The argument a sale-window setter received: a local date text (possibly
   * '' to clear it), the timestamp parsed from a UTC text, or null.
   * Parsing dates is not modelled, so the UTC text is kept as given.
   */
  datatype DateArg = NullDate | DateText(text: string) | DateFromGmt(gmt: string)

  /** The two product taxonomies the controller reads and writes: product_cat and product_tag. */
  datatype TermTaxonomy = Categories | Tags
  {
    /** The suffix the controller passes ('cat' or 'tag'); the taxonomy is "product_" followed by it. */
    function Suffix(): string {
      match this
      case Categories => "cat"
      case Tags => "tag"
    }
  }

  /** A term of the category or tag taxonomy as wc_get_object_terms returns it. */
  datatype Term = Term(termId: int, name: string, slug: string)

  /** What WordPress holds about an image attachment that resolves. */
  datatype AttachmentInfo = AttachmentInfo(src: string, title: string, alt: string)

  /** The post behind the product: title, slug, content, excerpt, status, menu order and comment status. */
  datatype PostFields = PostFields(
    name: string, slug: string, description: string, shortDescription: string,
    status: string, menuOrder: int, reviewsAllowed: bool)

  /** Visibility, the virtual flag, tax settings, purchase note and SKU. */
  datatype GeneralFields = GeneralFields(
    catalogVisibility: string, featured: bool, virtual: bool,
    taxStatus: string, taxClass: string, purchaseNote: string, sku: string)

  datatype ShippingFields = ShippingFields(weight: string, length: string, width: string, height: string, shippingClassId: int)

  /**
   * The attribute list, the default attributes of a variable product (an
   * attribute name to an option slug, in insertion order) and the attributes
   * a variation selects ("attribute_<name>" to its value).
   */
  datatype AttributeFields = AttributeFields(items: seq<Attribute>, defaults: seq<(string, string)>, selected: seq<(string, string)>)

  datatype PriceFields = PriceFields(regular: string, sale: string, price: string, saleFrom: DateArg, saleTo: DateArg)

  /** Inventory; a quantity of None is the '' WooCommerce stores when stock is not counted. */
  datatype StockFields = StockFields(manage: bool, backorders: string, quantity: Option<int>, status: string, soldIndividually: bool)

  /** The parent, linked products, grouped children and the external product's link. */
  datatype LinkFields = LinkFields(
    parentId: int, upsellIds: seq<int>, crossSellIds: seq<int>, children: seq<int>,
    productUrl: string, buttonText: string)

  datatype TermFields = TermFields(categoryIds: seq<int>, tagIds: seq<int>)

  datatype FileFields = FileFields(downloadable: bool, downloads: seq<Download>, limit: int, expiry: int)

  /** The featured image (0 when there is none) and the gallery. */
  datatype ImageFields = ImageFields(imageId: nat, galleryIds: seq<nat>)

  /** The properties of a product object that the controller sets or reads, grouped as WooCommerce's product editor groups them. */
  datatype ProductData = ProductData(
    id: nat,
    author: int,
    kind: Kind,
    post: PostFields,
    general: GeneralFields,
    shipping: ShippingFields,
    attributes: AttributeFields,
    prices: PriceFields,
    stock: StockFields,
    links: LinkFields,
    terms: TermFields,
    files: FileFields,
    images: ImageFields
  )

  /** A new product object of the given kind, with WooCommerce's defaults. */
  function Blank(kind: Kind): ProductData {
    ProductData(
      0, 0, kind,
      PostFields("", "", "", "", "", 0, true),
      GeneralFields("visible", false, false, "taxable", "", "", ""),
      ShippingFields("", "", "", "", 0),
      AttributeFields([], [], []),
      PriceFields("", "", "", NullDate, NullDate),
      StockFields(false, "no", None, "instock", false),
      LinkFields(0, [], [], [], "", ""),
      TermFields([], []),
      FileFields(false, [], -1, -1),
      ImageFields(0, []))
  }

  /** The last attribute of the list stored under the key `key` (attributes are keyed by sanitize_title of their name). */
  function FindAttribute(attrs: seq<Attribute>, key: string, sanitizeTitle: string -> string): (r: Option<Attribute>)
    ensures r.Some? ==> r.value in attrs && sanitizeTitle(r.value.name) == key
    ensures r.None? ==> forall a :: a in attrs ==> sanitizeTitle(a.name) != key
  {
    if attrs == [] then None
    else if sanitizeTitle(attrs[|attrs| - 1].name) == key then Some(attrs[|attrs| - 1])
    else FindAttribute(attrs[..|attrs| - 1], key, sanitizeTitle)
  }

  // ---------------------------------------------------------------------------
  // The request

  /** A loosely typed request value, for the fields the controller compares with `=== true`. */
  datatype Value = Bool(b: bool) | Int(i: int) | Str(s: string)

  /** `options` of a posted attribute: a list, or one string of '|'-separated values. */
  datatype OptionsField = OptionList(items: seq<string>) | OptionText(text: string)

  datatype RawAttribute = RawAttribute(
    id: Option<int>, name: Option<string>, options: Option<OptionsField>,
    position: Option<int>, visible: Option<bool>, variation: Option<bool>)

  datatype RawDefault = RawDefault(id: Option<int>, name: Option<string>, option: Option<string>)

  datatype RawDownload = RawDownload(name: Option<string>, file: Option<string>)

  /**
   * One entry of the posted `images` list. The five known keys are None when
   * not set (isset() is false, which includes a null value); `otherKeys` is
   * true when the entry holds anything else: an unknown key, a known key set
   * to null, or a truthy value that is not an array at all.
   */
  datatype RawImage = RawImage(
    id: Option<int>, src: Option<string>, position: Option<int>, alt: Option<string>, name: Option<string>,
    otherKeys: bool)

  datatype TermRef = TermRef(id: Option<int>)

  datatype Dimensions = Dimensions(length: Option<string>, width: Option<string>, height: Option<string>)

  /** The request parameters; None is a parameter that is not set (isset() is false). */
  datatype Payload = Payload(
    productId: Option<int>,
    productType: Option<string>,
    name: Option<string>,
    description: Option<string>,
    shortDescription: Option<string>,
    status: Option<string>,
    slug: Option<string>,
    menuOrder: Option<int>,
    reviewsAllowed: Option<bool>,
    virtual: Option<Value>,
    taxStatus: Option<string>,
    taxClass: Option<string>,
    catalogVisibility: Option<string>,
    purchaseNote: Option<string>,
    featured: Option<bool>,
    weight: Option<string>,
    dimensions: Dimensions,
    shippingClass: Option<string>,
    sku: Option<string>,
    attributes: Option<seq<RawAttribute>>,
    regularPrice: Option<string>,
    salePrice: Option<string>,
    dateOnSaleFrom: Option<string>,
    dateOnSaleFromGmt: Option<string>,
    dateOnSaleTo: Option<string>,
    dateOnSaleToGmt: Option<string>,
    parentId: Option<int>,
    soldIndividually: Option<bool>,
    inStock: Option<Value>,
    manageStock: Option<bool>,
    backorders: Option<string>,
    stockQuantity: Option<int>,
    inventoryDelta: Option<int>,
    upsellIds: Option<seq<int>>,
    crossSellIds: Option<seq<int>>,
    categories: Option<seq<TermRef>>,
    tags: Option<seq<TermRef>>,
    downloadable: Option<bool>,
    downloads: Option<seq<RawDownload>>,
    downloadLimit: Option<int>,
    downloadExpiry: Option<int>,
    externalUrl: Option<string>,
    buttonText: Option<string>,
    defaultAttributes: Option<seq<RawDefault>>,
    groupedProducts: Option<seq<int>>,
    images: Option<seq<RawImage>>
  )

  /** A request with no parameter set. */
  const EmptyPayload := Payload(
    None, None, None, None, None, None, None, None, None, None, None, None, None, None, None, None,
    Dimensions(None, None, None), None, None, None, None, None, None, None, None, None, None, None,
    None, None, None, None, None, None, None, None, None, None, None, None, None, None, None, None,
    None, None)

  // ---------------------------------------------------------------------------
  // Configuration, services and errors

  /** The two store options the controller reads. */
  datatype Settings = Settings(
    manageStockOption: string,  // get_option('woocommerce_manage_stock')
    categoryStyle: string       // dokan_get_option('product_category_style', 'dokan_selling', 'single')
  )

  /**
   * The WordPress and WooCommerce functions the controller calls, as
   * uninterpreted functions: each field stands for the named function.
   */
  datatype Env = Env(
    load: int -> Option<ProductData>,                // wc_get_product / new WC_Product_*($id)
    kses: string -> string,                          // wp_filter_post_kses
    clean: string -> string,                         // wc_clean
    stripSlashes: string -> string,                  // stripslashes
    sanitizeTitle: string -> string,                 // sanitize_title
    sanitizeTermText: string -> string,              // wc_sanitize_term_text_based
    isRegisteredStatus: string -> bool,              // get_post_status_object returns an object
    toBool: Value -> bool,                           // wc_string_to_bool inside set_virtual
    stockAmount: int -> int,                         // wc_stock_amount
    shippingClassIdBySlug: string -> int,            // data store get_shipping_class_id_by_slug
    taxonomyNameById: nat -> string,                 // wc_attribute_taxonomy_name_by_id
    taxonomyIdByName: string -> nat,                 // wc_attribute_taxonomy_id_by_name
    taxonomyLabel: string -> string,                 // attribute_label of the attribute taxonomy
    termSlugByName: (string, string) -> Option<string>, // get_term_by('name', value, taxonomy)->slug
    termNameBySlug: (string, string) -> Option<string>, // get_term_by('slug', value, taxonomy)->name
    filenameFromUrl: string -> string,               // wc_get_filename_from_url
    upload: string -> Option<nat>,                   // upload from URL and register as attachment; None on WP_Error
    suppressUploadError: string -> bool,             // 'woocommerce_rest_suppress_image_upload_error' filter
    isImage: nat -> bool,                            // wp_attachment_is_image
    attachment: nat -> Option<AttachmentInfo>,       // get_post + wp_get_attachment_image_src, None if either fails
    placeholderSrc: string,                          // wc_placeholder_img_src
    productTermNames: (nat, string) -> seq<string>,  // wc_get_product_terms(id, taxonomy, names)
    objectTerms: (nat, string) -> seq<Term>          // wc_get_object_terms(id, taxonomy)
  )

  /**
   * A loader that behaves as WooCommerce's does: nothing is loaded under id 0,
   * and a product that is loaded carries the id it was loaded under.
   */
  ghost predicate LoaderSound(env: Env) {
    env.load(0).None? && forall id :: env.load(id).Some? ==> env.load(id).value.id == id
  }

  /** The errors the controller reports, each with its WP_Error code ("" for the one that has none). */
  datatype Failure =
    | NoStoreFound
    | ProductExists
    | NoTitle
    | CategoryRequired
    | TooManyCategories
    | InvalidId
    | NotOwner
    | VariationNotAllowed
    | ProductNotLoaded   // the product asked for by id cannot be read; the source throws instead of returning an error
    | ImageUploadError
    | InvalidImageId(attachmentId: nat)
    | CannotDelete
  {
    function Code(): string {
      match this
      case NoStoreFound => "no_store_found"
      case ProductExists => "woocommerce_rest_product_exists"
      case NoTitle => "dokan_product_no_title_found"
      case CategoryRequired => "dokan_product_category"
      case TooManyCategories => "dokan_product_category_no_more_one"
      case InvalidId => "dokan_rest_product_invalid_id"
      case NotOwner => "dokan_rest_product_invalid_id"
      case VariationNotAllowed => "woocommerce_rest_invalid_product_id"
      case ProductNotLoaded => ""
      case ImageUploadError => "woocommerce_product_image_upload_error"
      case InvalidImageId(_) => "woocommerce_product_invalid_image_id"
      case CannotDelete => "dokan_rest_cannot_delete"
    }
  }
}
