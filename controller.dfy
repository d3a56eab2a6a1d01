/**
 * The guards of the create, update and delete handlers, and the page
 * numbers format_collection_response puts in the response headers.
 */
module Controller {
  import opened Common
  import opened Php
  import opened Catalog
  import opened Applier

  // ---------------------------------------------------------------------------
  // PHP's empty() on the request parameters the guards read

  /** empty() of an integer parameter: not set, or 0. */
  predicate Unset(x: Option<int>) {
    x.None? || x.value == 0
  }

  /** empty() of a text parameter: not set, "" or "0". */
  predicate EmptyText(x: Option<string>) {
    x.None? || !Truthy(x.value)
  }

  /** empty() of the category list: not set, or no entry. */
  predicate NoCategories(x: Option<seq<TermRef>>) {
    x.None? || x.value == []
  }

  // ---------------------------------------------------------------------------
  // Create

  /**
   * The checks create_product makes before it builds anything, in its order:
   * the store id (the request's `id`), no existing `product_id`, a name, at
   * least one category, and at most one category when the store's category
   * style is 'single'. None when every check passes.
   */
  function ValidateCreate(storeId: Option<int>, p: Payload, s: Settings): Option<Failure> {
    if Unset(storeId) then Some(NoStoreFound)
    else if !Unset(p.productId) then Some(ProductExists)
    else if EmptyText(p.name) then Some(NoTitle)
    else if NoCategories(p.categories) then Some(CategoryRequired)
    else if s.categoryStyle == "single" && |p.categories.value| > 1 then Some(TooManyCategories)
    else None
  }

  /**
   * create_product: the product about to be saved, its author set to the
   * store; or the error of the first failing check or of the applier.
   */
  function CreateProduct(storeId: Option<int>, p: Payload, env: Env, s: Settings): (r: Result<ProductData, Failure>)
    ensures ValidateCreate(storeId, p, s).Some? ==> r == Failure(ValidateCreate(storeId, p, s).value)
    ensures ValidateCreate(storeId, p, s).None? && r.Success? ==>
      Apply(p, env, s).Success? && r.value == Apply(p, env, s).value.(author := storeId.value)
  {
    match ValidateCreate(storeId, p, s)
    case Some(f) => Failure(f)
    case None =>
      match Apply(p, env, s)
      case Failure(f) => Failure(f)
      case Success(d) => Success(d.(author := storeId.value))
  }

  // ---------------------------------------------------------------------------
  // Update and delete

  /** The product stored under an id, unless it cannot be loaded or has id 0. */
  function Existing(id: int, env: Env): Option<ProductData> {
    match env.load(id)
    case None => None
    case Some(d) => if d.id == 0 then None else Some(d)
  }

  /** The id the handlers load: (int) of `product_id`, 0 when it is not set. */
  function RouteId(p: Payload): int {
    if p.productId.Some? then p.productId.value else 0
  }

  /**
   * update_product: the current user must be a store, the product must
   * exist, and the store must be its author; then the applier runs on the
   * request. `currentUser` is dokan_get_current_user_id(), 0 when nobody is
   * logged in.
   */
  function UpdateProduct(currentUser: int, p: Payload, env: Env, s: Settings): Result<ProductData, Failure> {
    if currentUser == 0 then Failure(NoStoreFound)
    else
      match Existing(RouteId(p), env)
      case None => Failure(InvalidId)
      case Some(d) =>
        if d.author != currentUser then Failure(NotOwner)
        else Apply(p, env, s)
  }

  /**
   * delete_product: the product must exist and the current user must be its
   * author (there is no store check). `deleted` tells whether delete(true)
   * left the object with id 0. The result is the product as it was, which
   * the handler returns.
   */
  function DeleteProduct(currentUser: int, productId: Option<int>, env: Env, deleted: bool): Result<ProductData, Failure> {
    var id := if productId.Some? then productId.value else 0;
    match Existing(id, env)
    case None => Failure(InvalidId)
    case Some(d) =>
      if d.author != currentUser then Failure(NotOwner)
      else if !deleted then Failure(CannotDelete)
      else Success(d)
  }

  // ---------------------------------------------------------------------------
  // Pagination

  /** The numbers behind the collection headers: X-WP-Total, X-WP-TotalPages and the prev/next page links. */
  datatype Pages = Pages(total: nat, totalPages: int, prev: Option<int>, next: Option<int>)

  /** ceil(a / b) of PHP's float division, for a non-zero divisor. */
  function CeilDiv(a: nat, b: int): (r: int)
    requires b != 0
    ensures b > 0 ==> (r - 1) * b < a <= r * b
    ensures b < 0 ==> r * b <= a < (r - 1) * b
  {
    if b > 0 then (a + b - 1) / b else -(a / -b)
  }

  /** `per_page`, 20 when empty. */
  function PerPage(perPage: Option<int>): (r: int)
    ensures r != 0
  {
    if Unset(perPage) then 20 else perPage.value
  }

  /** `page`, 1 when empty. */
  function PageNumber(page: Option<int>): (r: int)
    ensures r != 0
  {
    if Unset(page) then 1 else page.value
  }

  /**
   * format_collection_response: nothing is added for an empty collection;
   * otherwise the total, the page count, a previous page when the page is
   * past the first (clamped to the last page), and a next page when there
   * are more pages.
   */
  function CollectionPages(total: nat, perPage: Option<int>, page: Option<int>): Option<Pages> {
    if total == 0 then None
    else
      var size := PerPage(perPage);
      var current := PageNumber(page);
      var maxPages := CeilDiv(total, size);
      var prev := if current > 1 then Some(if current - 1 > maxPages then maxPages else current - 1) else None;
      var next := if maxPages > current then Some(current + 1) else None;
      Some(Pages(total, maxPages, prev, next))
  }
}
