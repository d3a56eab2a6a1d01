/**
 * What the guards of create, update and delete promise, and the arithmetic
 * of the collection headers.
 */
module ControllerProperties {
  import opened Common
  import opened Php
  import opened Catalog
  import opened Applier
  import opened ApplierProperties
  import opened Controller

  // ---------------------------------------------------------------------------
  // Create

  /**
   * A create request passes every check exactly when it names a store, names
   * no existing product, has a non-empty name and one or more categories, and
   * exactly one category when the store allows only a single one.
   */
  lemma CreateAcceptedIff(storeId: Option<int>, p: Payload, s: Settings)
    ensures ValidateCreate(storeId, p, s).None? <==>
      storeId.Some? && storeId.value != 0 &&
      (p.productId.None? || p.productId.value == 0) &&
      p.name.Some? && p.name.value != "" && p.name.value != "0" &&
      p.categories.Some? && |p.categories.value| >= 1 &&
      (s.categoryStyle == "single" ==> |p.categories.value| == 1)
  {
  }

  /** The checks run in order: each error is reported only when every earlier check passed. */
  lemma CreateCheckOrder(storeId: Option<int>, p: Payload, s: Settings)
    ensures ValidateCreate(storeId, p, s) == Some(ProductExists) ==> !Unset(storeId)
    ensures ValidateCreate(storeId, p, s) == Some(NoTitle) ==> !Unset(storeId) && Unset(p.productId)
    ensures ValidateCreate(storeId, p, s) == Some(CategoryRequired) ==>
      !Unset(storeId) && Unset(p.productId) && !EmptyText(p.name)
    ensures ValidateCreate(storeId, p, s) == Some(TooManyCategories) ==>
      !Unset(storeId) && Unset(p.productId) && !EmptyText(p.name) && p.categories.Some? &&
      |p.categories.value| >= 2 && s.categoryStyle == "single"
    ensures Unset(storeId) ==> ValidateCreate(storeId, p, s) == Some(NoStoreFound)
  {
  }

  /**
   * A create request that passes the checks and gives no type and no
   * product id builds a new simple product; one that gives a type builds a
   * new product of that type, since the product id is then 0.
   */
  lemma CreateStartsFromBlank(storeId: Option<int>, p: Payload, env: Env, s: Settings)
    requires ValidateCreate(storeId, p, s).None?
    requires p.productType.Some? || p.productId.None?
    ensures ResolveProduct(p, env) ==
      Success(Blank(if p.productType.Some? then KindFromType(p.productType.value) else Simple))
    ensures ResolveProduct(p, env).value.id == 0
  {
    assert RequestedId(p) == 0;
  }

  /**
   * The product that create returns is owned by the store named in the
   * request, is never a variation, and is new (id 0) when no product id was
   * given; with a loader that loads nothing under id 0 it is always new.
   */
  lemma CreatedProduct(storeId: Option<int>, p: Payload, env: Env, s: Settings)
    requires CreateProduct(storeId, p, env, s).Success?
    ensures storeId.Some? && storeId.value != 0
    ensures CreateProduct(storeId, p, env, s).value.author == storeId.value
    ensures CreateProduct(storeId, p, env, s).value.kind != Variation
    ensures p.productId.None? ==> CreateProduct(storeId, p, env, s).value.id == 0
    ensures LoaderSound(env) ==> CreateProduct(storeId, p, env, s).value.id == 0
  {
    AppliedProduct(p, env, s);
    if p.productType.Some? || p.productId.None? {
      CreateStartsFromBlank(storeId, p, env, s);
    } else {
      assert RequestedId(p) == 0;
    }
  }

  /**
   * A create request with `product_id` 0 and no type passes the checks but
   * loads nothing: the request fails instead of creating a product.
   */
  lemma CreateWithZeroIdAndNoTypeFails(storeId: Option<int>, p: Payload, env: Env, s: Settings)
    requires LoaderSound(env)
    requires ValidateCreate(storeId, p, s).None?
    requires p.productType.None? && p.productId == Some(0)
    ensures CreateProduct(storeId, p, env, s) == Failure(ProductNotLoaded)
  {
    assert RequestedId(p) == 0;
  }

  /** Creating with type 'variation' passes the checks and is then refused by the applier. */
  lemma CreateVariationRefused(storeId: Option<int>, p: Payload, env: Env, s: Settings)
    requires ValidateCreate(storeId, p, s).None?
    requires p.productType.Some? && Lower(p.productType.value) == "variation"
    ensures CreateProduct(storeId, p, env, s) == Failure(VariationNotAllowed)
  {
    CreateStartsFromBlank(storeId, p, env, s);
    VariationIsRejected(p, env, s);
  }

  // ---------------------------------------------------------------------------
  // Update and delete

  /**
   * An update that succeeds was made by a logged-in store on a product that
   * exists and that the store authored; the applier worked on that same
   * product, and the result keeps its id and its author. (The route admits
   * only digits; id 0 is left aside because WooCommerce loads nothing under
   * it, while the model's loader is unconstrained.)
   */
  lemma UpdateOnlyByOwner(currentUser: int, p: Payload, env: Env, s: Settings)
    requires p.productId.Some? && p.productId.value > 0
    requires UpdateProduct(currentUser, p, env, s).Success?
    ensures currentUser != 0
    ensures Existing(RouteId(p), env).Some?
    ensures Existing(RouteId(p), env).value.author == currentUser
    ensures UpdateProduct(currentUser, p, env, s).value.id == Existing(RouteId(p), env).value.id != 0
    ensures UpdateProduct(currentUser, p, env, s).value.author == currentUser
  {
    var d := Existing(RouteId(p), env).value;
    AppliedProduct(p, env, s);
    assert RequestedId(p) == RouteId(p);
    assert env.load(RequestedId(p)) == Some(d);
    assert ResolveProduct(p, env).value.id == d.id;
  }

  /** Update reports its errors in order: no store, then no product, then another store's product. */
  lemma UpdateCheckOrder(currentUser: int, p: Payload, env: Env, s: Settings)
    ensures currentUser == 0 ==> UpdateProduct(currentUser, p, env, s) == Failure(NoStoreFound)
    ensures currentUser != 0 && Existing(RouteId(p), env).None? ==>
      UpdateProduct(currentUser, p, env, s) == Failure(InvalidId)
    ensures currentUser != 0 && Existing(RouteId(p), env).Some? ==>
      (Existing(RouteId(p), env).value.author != currentUser ==> UpdateProduct(currentUser, p, env, s) == Failure(NotOwner))
    ensures currentUser != 0 && Existing(RouteId(p), env).Some? ==>
      (Existing(RouteId(p), env).value.author == currentUser ==> UpdateProduct(currentUser, p, env, s) == Apply(p, env, s))
  {
  }

  /**
   * Delete succeeds exactly when the product exists, the current user is its
   * author and the deletion took; it returns the product as it was.
   */
  lemma DeleteOnlyByOwner(currentUser: int, productId: Option<int>, env: Env, deleted: bool)
    ensures DeleteProduct(currentUser, productId, env, deleted).Success? <==>
      var id := if productId.Some? then productId.value else 0;
      Existing(id, env).Some? && Existing(id, env).value.author == currentUser && deleted
    ensures DeleteProduct(currentUser, productId, env, deleted).Success? ==>
      var d := DeleteProduct(currentUser, productId, env, deleted).value;
      d.id != 0 && d.author == currentUser &&
      env.load(if productId.Some? then productId.value else 0) == Some(d)
    ensures DeleteProduct(currentUser, productId, env, deleted) != Failure(NoStoreFound)
  {
  }

  /**
   * Delete does not check for a store: with nobody logged in (user 0), a
   * stored product whose author is 0 is deleted.
   */
  lemma DeleteWithoutStore(productId: int, env: Env, d: ProductData)
    requires env.load(productId) == Some(d) && d.id != 0 && d.author == 0
    ensures DeleteProduct(0, Some(productId), env, true) == Success(d)
  {
  }

  // ---------------------------------------------------------------------------
  // Pagination

  /**
   * For a positive page size, X-WP-TotalPages is the least number of pages
   * of that size that hold every item, and is at least 1.
   */
  lemma TotalPagesHoldEveryItem(total: nat, perPage: Option<int>, page: Option<int>)
    requires total > 0 && PerPage(perPage) > 0
    ensures CollectionPages(total, perPage, page).Some?
    ensures var n := CollectionPages(total, perPage, page).value.totalPages;
      n >= 1 && (n - 1) * PerPage(perPage) < total <= n * PerPage(perPage)
  {
    var n := CollectionPages(total, perPage, page).value.totalPages;
    var size := PerPage(perPage);
    assert n == CeilDiv(total, size);
  }

  /** The headers are written exactly for a non-empty collection, and X-WP-Total is its size. */
  lemma HeadersOnlyForItems(total: nat, perPage: Option<int>, page: Option<int>)
    ensures CollectionPages(total, perPage, page).Some? <==> total > 0
    ensures CollectionPages(total, perPage, page).Some? ==> CollectionPages(total, perPage, page).value.total == total
  {
  }

  /**
   * There is a previous-page link exactly when the page is past the first;
   * it names the page before, or the last page when the request is beyond
   * the end, so it is never past the last page nor at or after the current one.
   */
  lemma PrevLink(total: nat, perPage: Option<int>, page: Option<int>)
    requires total > 0
    ensures var r := CollectionPages(total, perPage, page).value;
      var current := PageNumber(page);
      (r.prev.Some? <==> current > 1) &&
      (r.prev.Some? ==> (r.prev.value < current && r.prev.value <= r.totalPages)) &&
      (r.prev.Some? && current - 1 <= r.totalPages ==> r.prev.value == current - 1) &&
      (r.prev.Some? && current - 1 > r.totalPages ==> r.prev.value == r.totalPages)
  {
  }

  /** There is a next-page link exactly when pages remain after the current one; it names the page after. */
  lemma NextLink(total: nat, perPage: Option<int>, page: Option<int>)
    requires total > 0
    ensures var r := CollectionPages(total, perPage, page).value;
      var current := PageNumber(page);
      (r.next.Some? <==> current < r.totalPages) &&
      (r.next.Some? ==> r.next.value == current + 1 <= r.totalPages)
  {
  }

  /**
   * With neither `per_page` nor `page`, the first page of 20 is shown: no
   * previous link, and a next link exactly when there are more than 20 items.
   */
  lemma DefaultPaging(total: nat)
    requires total > 0
    ensures var r := CollectionPages(total, None, None).value;
      r.prev.None? && (r.next.Some? <==> total > 20) && (r.next.Some? ==> r.next.value == 2)
  {
    var r := CollectionPages(total, None, None).value;
    TotalPagesHoldEveryItem(total, None, None);
    assert r.totalPages > 1 <==> total > 20;
  }

  /** 45 items at 20 a page make 3 pages; page 2 links to pages 1 and 3, and page 5 back to page 3 only. */
  lemma PagingExample()
    ensures CollectionPages(45, Some(20), Some(2)) == Some(Pages(45, 3, Some(1), Some(3)))
    ensures CollectionPages(45, Some(20), Some(5)) == Some(Pages(45, 3, Some(3), None))
    ensures CollectionPages(45, Some(20), Some(3)) == Some(Pages(45, 3, Some(2), None))
  {
  }
}
