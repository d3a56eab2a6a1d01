/**
 * What prepare_object_for_database promises, proved of the applier's
 * specification functions: kind resolution and variation rejection, the
 * status fallback, virtual products, attribute normalisation, pricing by
 * kind, the stock policy, linked ids, terms, downloads, default attributes
 * and image assignment.
 */
module ApplierProperties {
  import opened Common
  import opened Php
  import opened Catalog
  import opened Applier

  // ---------------------------------------------------------------------------
  // Kind resolution and variation rejection

  /** Which product the request works on, and when it cannot be loaded. */
  lemma ResolvedProduct(p: Payload, env: Env)
    ensures ResolveProduct(p, env).Failure? <==>
      (p.productType.Some? || p.productId.Some?) &&
      (p.productType.Some? ==> RequestedId(p) != 0) &&
      env.load(RequestedId(p)).None?
    ensures ResolveProduct(p, env).Success? && p.productType.Some? ==>
      ResolveProduct(p, env).value.kind == KindFromType(p.productType.value)
    ensures p.productType.None? && p.productId.None? ==> ResolveProduct(p, env) == Success(Blank(Simple))
    ensures p.productType.None? && p.productId.Some? && env.load(RequestedId(p)).Some? ==>
      ResolveProduct(p, env) == Success(env.load(RequestedId(p)).value)
  {
  }

  /** An unknown `type` gives a simple product. */
  lemma UnknownTypeIsSimple(p: Payload, env: Env)
    requires p.productType.Some?
    requires Lower(p.productType.value) !in {"simple", "variable", "grouped", "external", "variation"}
    ensures ResolveProduct(p, env).Success? ==> ResolveProduct(p, env).value.kind == Simple
  {
    var k := KindFromType(p.productType.value);
    assert TypeName(k) != Lower(p.productType.value) by {
      assert TypeName(k) in {"simple", "variable", "grouped", "external", "variation"};
    }
  }

  /** The image walk fails only with one of the two image errors. */
  lemma {:induction false} ImageWalkFailsOnlyOnImages(es: seq<RawImage>, current: nat, env: Env)
    ensures AssignImages(es, current, env).Failure? ==>
      AssignImages(es, current, env).error == ImageUploadError || AssignImages(es, current, env).error.InvalidImageId?
  {
    if es != [] {
      ImageWalkFailsOnlyOnImages(es[..|es| - 1], current, env);
    }
  }

  /** After the kind check the applier fails only on images. */
  lemma ApplyFieldsFailsOnlyOnImages(d: ProductData, p: Payload, env: Env, s: Settings)
    ensures ApplyFields(d, p, env, s).Failure? ==>
      p.images.Some? && (ApplyFields(d, p, env, s).error == ImageUploadError || ApplyFields(d, p, env, s).error.InvalidImageId?)
  {
    var r := WithRelations(WithFields(d, p, env, s), p, env);
    if p.images.Some? && ImageEntries(p.images.value) != [] {
      ImageWalkFailsOnlyOnImages(ImageEntries(p.images.value), r.images.imageId, env);
    }
  }

  /**
   * A request fails with woocommerce_rest_invalid_product_id exactly when the
   * product it resolves to is a variation; nothing is set on it.
   */
  lemma VariationIsRejected(p: Payload, env: Env, s: Settings)
    ensures Apply(p, env, s) == Failure(VariationNotAllowed) <==>
      ResolveProduct(p, env).Success? && ResolveProduct(p, env).value.kind == Variation
  {
    if ResolveProduct(p, env).Success? && ResolveProduct(p, env).value.kind != Variation {
      ApplyFieldsFailsOnlyOnImages(ResolveProduct(p, env).value, p, env, s);
    }
  }

  /** The setters from title through stock keep the kind, the id and the author, and set the status as posted. */
  lemma FieldsKeepIdentity(d: ProductData, p: Payload, env: Env, s: Settings)
    ensures WithFields(d, p, env, s).kind == d.kind
    ensures WithFields(d, p, env, s).id == d.id && WithFields(d, p, env, s).author == d.author
    ensures WithFields(d, p, env, s).post.status == (if p.status.Some? then PostStatus(p.status.value, env) else d.post.status)
  {
  }

  /** The setters from linked products through grouped children keep the identity, the post and the prices. */
  lemma RelationsKeepIdentity(d: ProductData, p: Payload, env: Env)
    ensures WithRelations(d, p, env).kind == d.kind
    ensures WithRelations(d, p, env).id == d.id && WithRelations(d, p, env).author == d.author
    ensures WithRelations(d, p, env).post == d.post && WithRelations(d, p, env).prices == d.prices
  {
  }

  /**
   * A successful request keeps the resolved kind (never a variation), the
   * product id and its author; a posted status is stored when registered and
   * becomes "draft" otherwise.
   */
  lemma AppliedProduct(p: Payload, env: Env, s: Settings)
    requires Apply(p, env, s).Success?
    ensures ResolveProduct(p, env).Success?
    ensures Apply(p, env, s).value.kind == ResolveProduct(p, env).value.kind != Variation
    ensures Apply(p, env, s).value.id == ResolveProduct(p, env).value.id
    ensures Apply(p, env, s).value.author == ResolveProduct(p, env).value.author
    ensures p.status.Some? && env.isRegisteredStatus(p.status.value) ==> Apply(p, env, s).value.post.status == p.status.value
    ensures p.status.Some? && !env.isRegisteredStatus(p.status.value) ==> Apply(p, env, s).value.post.status == "draft"
    ensures p.status.None? ==> Apply(p, env, s).value.post.status == ResolveProduct(p, env).value.post.status
  {
    var d0 := ResolveProduct(p, env).value;
    var d1 := WithFields(d0, p, env, s);
    FieldsKeepIdentity(d0, p, env, s);
    RelationsKeepIdentity(d1, p, env);
    assert Apply(p, env, s) == ApplyFields(d0, p, env, s);
    if p.images.Some? {
      ImagesOnlyTouchImages(WithRelations(d1, p, env), p.images.value, env);
    }
  }

  /** The images step changes the featured image and the gallery, and nothing else. */
  lemma ImagesOnlyTouchImages(d: ProductData, images: seq<RawImage>, env: Env)
    ensures WithProductImages(d, images, env).Success? ==>
      WithProductImages(d, images, env).value == d.(images := WithProductImages(d, images, env).value.images)
  {
  }

  // ---------------------------------------------------------------------------
  // Virtual products

  /**
   * A request whose `virtual` is the boolean true clears all four dimensions;
   * any other request leaves each dimension as posted or as it was.
   */
  lemma VirtualClearsDimensions(sh: ShippingFields, p: Payload, env: Env)
    ensures VirtualRequested(p) ==>
      var r := ShippingAfter(sh, p, env);
      r.weight == "" && r.height == "" && r.length == "" && r.width == ""
    ensures !VirtualRequested(p) ==>
      var r := ShippingAfter(sh, p, env);
      r.weight == (if p.weight.Some? then p.weight.value else sh.weight) &&
      r.height == (if p.dimensions.height.Some? then p.dimensions.height.value else sh.height) &&
      r.length == (if p.dimensions.length.Some? then p.dimensions.length.value else sh.length) &&
      r.width == (if p.dimensions.width.Some? then p.dimensions.width.value else sh.width)
    ensures ShippingAfter(sh, p, env).shippingClassId ==
      (if p.shippingClass.Some? then env.shippingClassIdBySlug(env.clean(p.shippingClass.value)) else sh.shippingClassId)
  {
  }

  /** save_product_shipping_data touches the shipping fields only. */
  lemma ShippingDataOnlyTouchesShipping(d: ProductData, p: Payload, env: Env)
    ensures WithShippingData(d, p, env).(shipping := d.shipping) == d
  {
  }

  // ---------------------------------------------------------------------------
  // Attributes

  /** The shape every stored attribute has. */
  predicate WellFormedAttribute(a: Attribute) {
    (a.IsTaxonomy() ==> a.options != [] && forall i :: 0 <= i < |a.options| ==> a.options[i] != "") &&
    (!a.IsTaxonomy() ==> Truthy(a.name))
  }

  /** array_filter keeps nothing of a list of empty strings. */
  lemma {:induction false} DropEmptyOfBlanks(xs: seq<string>)
    requires forall k :: 0 <= k < |xs| ==> xs[k] == ""
    ensures DropEmpty(xs) == []
  {
    if xs != [] {
      var init := xs[..|xs| - 1];
      assert forall k :: 0 <= k < |init| ==> init[k] == xs[k];
      DropEmptyOfBlanks(init);
    }
  }

  /** Some term value survives sanitising and filtering iff some option sanitises to a non-empty text. */
  lemma SomeOptionSurvives(opts: seq<string>, env: Env)
    ensures DropEmpty(SanitizeTermTexts(opts, env)) != [] <==> exists x :: x in opts && env.sanitizeTermText(x) != ""
  {
    var sanitized := SanitizeTermTexts(opts, env);
    if exists x :: x in opts && env.sanitizeTermText(x) != "" {
      var x :| x in opts && env.sanitizeTermText(x) != "";
      var i :| 0 <= i < |opts| && opts[i] == x;
      assert sanitized[i] == env.sanitizeTermText(x);
      assert env.sanitizeTermText(x) in DropEmpty(sanitized);
    } else {
      forall k | 0 <= k < |sanitized| ensures sanitized[k] == "" {
        assert opts[k] in opts;
      }
      DropEmptyOfBlanks(sanitized);
    }
  }

  /**
   * One posted entry: a global attribute survives iff some option sanitises
   * to a non-empty value; a custom one survives iff it has a name that stays
   * non-empty after wc_clean and an `options` key, and keeps its options
   * verbatim. Position, visibility and variation default to 0, off, off.
   */
  lemma AttributeEntry(a: RawAttribute, env: Env)
    ensures |NormalizeAttribute(a, env)| <= 1
    ensures PostedAttributeId(a.id) != 0 ==>
      (NormalizeAttribute(a, env) != [] <==>
        a.options.Some? && exists x :: x in OptionValues(a.options.value) && env.sanitizeTermText(x) != "")
    ensures PostedAttributeId(a.id) == 0 ==>
      (NormalizeAttribute(a, env) != [] <==>
        a.options.Some? && a.name.Some? && Truthy(a.name.value) && Truthy(env.clean(a.name.value)))
    ensures PostedAttributeId(a.id) == 0 && NormalizeAttribute(a, env) != [] ==>
      NormalizeAttribute(a, env)[0] ==
        Attribute(0, env.clean(a.name.value), OptionValues(a.options.value), PositionOf(a.position), FlagOf(a.visible), FlagOf(a.variation))
    ensures NormalizeAttribute(a, env) != [] ==>
      var r := NormalizeAttribute(a, env)[0];
      r.id == PostedAttributeId(a.id) && WellFormedAttribute(r) &&
      (a.position.None? ==> r.position == 0) && (a.visible.None? ==> !r.visible) && (a.variation.None? ==> !r.variation)
  {
    if PostedAttributeId(a.id) != 0 && a.options.Some? {
      SomeOptionSurvives(OptionValues(a.options.value), env);
    }
  }

  /** Every stored attribute is well formed, and there are never more than posted entries. */
  lemma {:induction false} NormalizedAttributesWellFormed(raw: seq<RawAttribute>, env: Env)
    ensures |NormalizeAttributes(raw, env)| <= |raw|
    ensures forall a :: a in NormalizeAttributes(raw, env) ==> WellFormedAttribute(a)
  {
    if raw != [] {
      NormalizedAttributesWellFormed(raw[..|raw| - 1], env);
      AttributeEntry(raw[|raw| - 1], env);
    }
  }

  /** The last posted entry is normalised last. */
  lemma NormalizeAttributesLast(xs: seq<RawAttribute>, ys: seq<RawAttribute>, env: Env)
    requires ys != []
    ensures NormalizeAttributes(xs + ys, env) ==
      NormalizeAttributes(xs + ys[..|ys| - 1], env) + NormalizeAttribute(ys[|ys| - 1], env)
  {
    assert (xs + ys)[..|xs + ys| - 1] == xs + ys[..|ys| - 1];
    assert (xs + ys)[|xs + ys| - 1] == ys[|ys| - 1];
  }

  /** Normalising is entry by entry: the stored list follows the posted order. */
  lemma {:induction false} NormalizeAttributesAppend(xs: seq<RawAttribute>, ys: seq<RawAttribute>, env: Env)
    ensures NormalizeAttributes(xs + ys, env) == NormalizeAttributes(xs, env) + NormalizeAttributes(ys, env)
    decreases |ys|
  {
    if ys == [] {
      assert xs + ys == xs;
    } else {
      var init, last := ys[..|ys| - 1], ys[|ys| - 1];
      NormalizeAttributesAppend(xs, init, env);
      NormalizeAttributesLast(xs, ys, env);
      assert NormalizeAttributes(ys, env) == NormalizeAttributes(init, env) + NormalizeAttribute(last, env);
    }
  }

  // ---------------------------------------------------------------------------
  // Prices

  /**
   * Variable and grouped products lose every price and both sale bounds;
   * other kinds keep `price`, take the posted prices, and take the UTC sale
   * date over the local one, a false UTC value clearing the bound.
   */
  lemma PricingByKind(d: ProductData, p: Payload)
    ensures HasChildPrices(d.kind) ==>
      var r := WithPricing(d, p).prices;
      r.regular == "" && r.sale == "" && r.price == "" && r.saleFrom == DateText("") && r.saleTo == DateText("")
    ensures !HasChildPrices(d.kind) ==>
      var r := WithPricing(d, p).prices;
      r.price == d.prices.price &&
      r.regular == (if p.regularPrice.Some? then p.regularPrice.value else d.prices.regular) &&
      r.sale == (if p.salePrice.Some? then p.salePrice.value else d.prices.sale) &&
      (p.dateOnSaleFromGmt.Some? ==> r.saleFrom == (if Truthy(p.dateOnSaleFromGmt.value) then DateFromGmt(p.dateOnSaleFromGmt.value) else NullDate)) &&
      (p.dateOnSaleFromGmt.None? ==> r.saleFrom == (if p.dateOnSaleFrom.Some? then DateText(p.dateOnSaleFrom.value) else d.prices.saleFrom)) &&
      (p.dateOnSaleToGmt.Some? ==> r.saleTo == (if Truthy(p.dateOnSaleToGmt.value) then DateFromGmt(p.dateOnSaleToGmt.value) else NullDate)) &&
      (p.dateOnSaleToGmt.None? ==> r.saleTo == (if p.dateOnSaleTo.Some? then DateText(p.dateOnSaleTo.value) else d.prices.saleTo))
    ensures WithPricing(d, p).(prices := d.prices) == d
  {
  }

  // ---------------------------------------------------------------------------
  // Stock

  /** `in_stock` must be the boolean true itself to mean "instock". */
  lemma DesiredStatus(current: string, inStock: Option<Value>)
    ensures DesiredStockStatus(current, inStock) == "instock" <==>
      inStock == Some(Bool(true)) || (inStock.None? && current == "instock")
    ensures inStock.Some? && inStock != Some(Bool(true)) ==> DesiredStockStatus(current, inStock) == "outofstock"
    ensures inStock.None? ==> DesiredStockStatus(current, inStock) == current
  {
  }

  /** With store stock management on, grouped and external products never count stock; external ones are always in stock. */
  lemma ParentlessStock(st: StockFields, kind: Kind, p: Payload, env: Env, s: Settings)
    requires ManagesStock(s) && (kind == Grouped || kind == External)
    ensures var r := StockAfter(st, kind, p, env, s);
      !r.manage && r.backorders == "no" && r.quantity.None? &&
      r.status == (if kind == External then "instock" else DesiredStockStatus(st.status, p.inStock))
  {
  }

  /** Without store stock management only the status changes, and a variable product's not even that. */
  lemma UnmanagedStoreStock(st: StockFields, kind: Kind, p: Payload, env: Env, s: Settings)
    requires !ManagesStock(s)
    ensures StockAfter(st, kind, p, env, s) == st.(status := if kind == Variable then st.status else DesiredStockStatus(st.status, p.inStock))
  {
  }

  /**
   * A variable product's stock status is left to its children when store
   * stock management is off or the product counts its own stock.
   */
  lemma VariableStockStatusKept(st: StockFields, p: Payload, env: Env, s: Settings)
    requires ManagesStock(s) ==> StockFlags(st, p).manage
    ensures StockAfter(st, Variable, p, env, s).status == st.status
  {
  }

  /**
   * But when store stock management is on and it does not count its stock,
   * the desired status is stored: a posted `in_stock` false turns a product
   * that was in stock out of stock.
   */
  lemma VariableUnmanagedStockStatusSet(st: StockFields, p: Payload, env: Env, s: Settings)
    requires ManagesStock(s) && !StockFlags(st, p).manage
    ensures StockAfter(st, Variable, p, env, s).status == DesiredStockStatus(st.status, p.inStock)
    ensures st.status == "instock" && p.inStock == Some(Bool(false)) ==>
      StockAfter(st, Variable, p, env, s).status == "outofstock" != st.status
  {
  }

  /**
   * With store stock management on, a simple or variable product that does
   * not count its stock loses its quantity; one that does takes the posted
   * quantity verbatim, else adds the delta to the stored quantity. The
   * desired status is stored, except on a variable product that counts its
   * stock, which keeps its status.
   */
  lemma ManagedQuantityRules(st: StockFields, kind: Kind, p: Payload, env: Env, s: Settings)
    requires ManagesStock(s) && kind != Grouped && kind != External
    requires forall n :: env.stockAmount(n) == n
    ensures var r := StockAfter(st, kind, p, env, s);
      r.manage == StockFlags(st, p).manage && r.backorders == StockFlags(st, p).backorders
    ensures !StockFlags(st, p).manage ==> StockAfter(st, kind, p, env, s).quantity.None?
    ensures StockFlags(st, p).manage && p.stockQuantity.Some? ==> StockAfter(st, kind, p, env, s).quantity == p.stockQuantity
    ensures StockFlags(st, p).manage && p.stockQuantity.None? && p.inventoryDelta.Some? ==>
      StockAfter(st, kind, p, env, s).quantity == Some((if st.quantity.Some? then st.quantity.value else 0) + p.inventoryDelta.value)
    ensures StockFlags(st, p).manage && p.stockQuantity.None? && p.inventoryDelta.None? ==>
      StockAfter(st, kind, p, env, s).quantity == st.quantity
    ensures StockAfter(st, kind, p, env, s).status ==
      (if kind == Variable && StockFlags(st, p).manage then st.status else DesiredStockStatus(st.status, p.inStock))
  {
    if StockFlags(st, p).manage {
      if p.stockQuantity.Some? {
        assert env.stockAmount(p.stockQuantity.value) == p.stockQuantity.value;
      } else if p.inventoryDelta.Some? {
        var base := if st.quantity.Some? then st.quantity.value else 0;
        assert StockAmountOf(st.quantity, env) == base;
        assert env.stockAmount(p.inventoryDelta.value) == p.inventoryDelta.value;
        assert env.stockAmount(base + p.inventoryDelta.value) == base + p.inventoryDelta.value;
      }
    }
  }

  /** A stored 10 with an `inventory_delta` of -3 becomes 7. */
  lemma InventoryDeltaExample(st: StockFields, p: Payload, env: Env, s: Settings)
    requires ManagesStock(s) && st.manage && st.quantity == Some(10)
    requires p.manageStock.None? && p.stockQuantity.None? && p.inventoryDelta == Some(-3)
    requires forall n :: env.stockAmount(n) == n
    ensures StockAfter(st, Simple, p, env, s).quantity == Some(7)
  {
    ManagedQuantityRules(st, Simple, p, env, s);
  }

  /** Repeating a request with a non-zero `inventory_delta` moves the stock again: such a request is not idempotent. */
  lemma InventoryDeltaNotIdempotent(st: StockFields, p: Payload, env: Env, s: Settings)
    requires ManagesStock(s) && st.manage
    requires p.manageStock.None? && p.stockQuantity.None? && p.inventoryDelta.Some? && p.inventoryDelta.value != 0
    requires forall n :: env.stockAmount(n) == n
    ensures StockAfter(StockAfter(st, Simple, p, env, s), Simple, p, env, s).quantity != StockAfter(st, Simple, p, env, s).quantity
  {
    var once := StockAfter(st, Simple, p, env, s);
    ManagedQuantityRules(st, Simple, p, env, s);
    ManagedQuantityRules(once, Simple, p, env, s);
  }

  // ---------------------------------------------------------------------------
  // Linked products

  /** The kept ids are exactly the posted positive ones. */
  lemma {:induction false} PositiveIdsMembers(ids: seq<int>)
    ensures forall x :: x in PositiveIds(ids) <==> x in ids && x > 0
  {
    if ids != [] {
      var init := ids[..|ids| - 1];
      PositiveIdsMembers(init);
      assert ids == init + [ids[|ids| - 1]];
    }
  }

  /** Filtering is id by id, so posted order is kept. */
  lemma {:induction false} PositiveIdsAppend(xs: seq<int>, ys: seq<int>)
    ensures PositiveIds(xs + ys) == PositiveIds(xs) + PositiveIds(ys)
    decreases |ys|
  {
    if ys == [] {
      assert xs + ys == xs;
    } else {
      var init := ys[..|ys| - 1];
      PositiveIdsAppend(xs, init);
      assert (xs + ys)[..|xs + ys| - 1] == xs + init;
      assert (xs + ys)[|xs + ys| - 1] == ys[|ys| - 1];
    }
  }

  /** A list of positive ids is kept as it is; hence filtering twice is filtering once. */
  lemma {:induction false} PositiveIdsIdempotent(ids: seq<int>)
    ensures PositiveIds(PositiveIds(ids)) == PositiveIds(ids)
  {
    var r := PositiveIds(ids);
    PositiveIdsMembers(ids);
    assert forall i :: 0 <= i < |r| ==> r[i] in r;
    PositiveKept(r);
  }

  lemma {:induction false} PositiveKept(ids: seq<int>)
    requires forall i :: 0 <= i < |ids| ==> ids[i] > 0
    ensures PositiveIds(ids) == ids
  {
    if ids != [] {
      PositiveKept(ids[..|ids| - 1]);
      assert ids == ids[..|ids| - 1] + [ids[|ids| - 1]];
    }
  }

  // ---------------------------------------------------------------------------
  // Terms

  /** The stored term ids are the ids the posted entries carry, in order. */
  lemma {:induction false} TermIdsMembers(terms: seq<TermRef>)
    ensures |TermIds(terms)| <= |terms|
    ensures forall x :: x in TermIds(terms) <==> exists i :: 0 <= i < |terms| && terms[i].id == Some(x)
  {
    if terms != [] {
      var init := terms[..|terms| - 1];
      TermIdsMembers(init);
      forall x
        ensures (exists i :: 0 <= i < |terms| && terms[i].id == Some(x)) <==>
                (exists i :: 0 <= i < |init| && init[i].id == Some(x)) || terms[|terms| - 1].id == Some(x)
      {
        if exists i :: 0 <= i < |terms| && terms[i].id == Some(x) {
          var i :| 0 <= i < |terms| && terms[i].id == Some(x);
          if i < |init| {
            assert init[i] == terms[i];
          }
        }
        if exists i :: 0 <= i < |init| && init[i].id == Some(x) {
          var i :| 0 <= i < |init| && init[i].id == Some(x);
          assert terms[i] == init[i];
        }
      }
    }
  }

  /** Posted categories replace the category ids, posted tags the tag ids; nothing else changes. */
  lemma TermsTarget(d: ProductData, p: Payload)
    ensures WithTerms(d, p).terms.categoryIds == (if p.categories.Some? then TermIds(p.categories.value) else d.terms.categoryIds)
    ensures WithTerms(d, p).terms.tagIds == (if p.tags.Some? then TermIds(p.tags.value) else d.terms.tagIds)
    ensures WithTerms(d, p).(terms := d.terms) == d
  {
  }

  // ---------------------------------------------------------------------------
  // Downloads

  /** The stored download made from a posted entry. */
  predicate DownloadFromEntry(dl: Download, downloads: seq<RawDownload>, env: Env) {
    dl.key < |downloads| &&
    downloads[dl.key].file == Some(dl.file) && Truthy(dl.file) &&
    dl.name == (if downloads[dl.key].name.Some? && Truthy(downloads[dl.key].name.value) then downloads[dl.key].name.value
                else env.filenameFromUrl(dl.file))
  }

  /** Every stored download comes from the posted entry whose index is its key. */
  lemma {:induction false} DownloadsComeFromEntries(downloads: seq<RawDownload>, env: Env)
    ensures forall i :: 0 <= i < |DownloadFiles(downloads, env)| ==> DownloadFromEntry(DownloadFiles(downloads, env)[i], downloads, env)
  {
    if downloads != [] {
      var n := |downloads| - 1;
      var init := downloads[..n];
      DownloadsComeFromEntries(init, env);
      var before := DownloadFiles(init, env);
      var r := DownloadFiles(downloads, env);
      assert r == before + DownloadOf(n, downloads[n], env);
      forall i | 0 <= i < |before|
        ensures DownloadFromEntry(r[i], downloads, env)
      {
        assert DownloadFromEntry(before[i], init, env);
        assert init[before[i].key] == downloads[before[i].key];
      }
    }
  }

  /** The stored downloads keep the posted order: their keys strictly increase. */
  lemma {:induction false} DownloadKeysIncrease(downloads: seq<RawDownload>, env: Env)
    ensures forall i, j :: 0 <= i < j < |DownloadFiles(downloads, env)| ==> DownloadFiles(downloads, env)[i].key < DownloadFiles(downloads, env)[j].key
  {
    if downloads != [] {
      var n := |downloads| - 1;
      var init := downloads[..n];
      DownloadKeysIncrease(init, env);
      DownloadsComeFromEntries(init, env);
      var before := DownloadFiles(init, env);
      var r := DownloadFiles(downloads, env);
      assert r == before + DownloadOf(n, downloads[n], env);
      assert forall i :: 0 <= i < |before| ==> r[i] == before[i] && before[i].key < n;
    }
  }

  /** Some stored download carries key k. */
  predicate StoredUnderKey(files: seq<Download>, k: int) {
    exists i :: 0 <= i < |files| && files[i].key == k
  }

  /** Every posted entry with a (true) file is stored. */
  lemma {:induction false} EveryFileIsStored(downloads: seq<RawDownload>, env: Env)
    ensures forall k :: 0 <= k < |downloads| && downloads[k].file.Some? && Truthy(downloads[k].file.value) ==>
      StoredUnderKey(DownloadFiles(downloads, env), k)
  {
    if downloads != [] {
      var n := |downloads| - 1;
      var init := downloads[..n];
      EveryFileIsStored(init, env);
      var before := DownloadFiles(init, env);
      var r := DownloadFiles(downloads, env);
      assert r == before + DownloadOf(n, downloads[n], env);
      forall k | 0 <= k < |downloads| && downloads[k].file.Some? && Truthy(downloads[k].file.value)
        ensures StoredUnderKey(r, k)
      {
        if k < n {
          assert init[k] == downloads[k];
          var i :| 0 <= i < |before| && before[i].key == k;
          assert r[i] == before[i];
        } else {
          assert r[|before|].key == n;
        }
      }
    }
  }

  /** The files, limit and expiry are only set on a product that is downloadable once the flag is applied. */
  lemma DownloadOptionsOnlyWhenDownloadable(f: FileFields, p: Payload, env: Env)
    ensures var r := FilesAfter(f, p, env);
      r.downloadable == (if p.downloadable.Some? then p.downloadable.value else f.downloadable) &&
      (!r.downloadable ==> r.downloads == f.downloads && r.limit == f.limit && r.expiry == f.expiry) &&
      (r.downloadable ==> r.downloads == (if p.downloads.Some? then DownloadFiles(p.downloads.value, env) else f.downloads)) &&
      (r.downloadable ==> r.limit == (if p.downloadLimit.Some? then p.downloadLimit.value else f.limit)) &&
      (r.downloadable ==> r.expiry == (if p.downloadExpiry.Some? then p.downloadExpiry.value else f.expiry))
  {
  }

  // ---------------------------------------------------------------------------
  // Kind-specific fields

  /** The product URL and button text change only on an external product, and nothing else does. */
  lemma ExternalFieldsOnlyForExternal(d: ProductData, p: Payload)
    ensures d.kind != External ==> WithExternalLink(d, p) == d
    ensures d.kind == External ==> WithExternalLink(d, p).links.productUrl == (if p.externalUrl.Some? then p.externalUrl.value else d.links.productUrl)
    ensures d.kind == External ==> WithExternalLink(d, p).links.buttonText == (if p.buttonText.Some? then p.buttonText.value else d.links.buttonText)
    ensures WithExternalLink(d, p).(links := d.links) == d
  {
  }

  /** Children are set only on a grouped product, and then replaced by the posted list. */
  lemma ChildrenOnlyForGrouped(d: ProductData, p: Payload)
    ensures d.kind != Grouped || p.groupedProducts.None? ==> WithChildren(d, p) == d
    ensures d.kind == Grouped && p.groupedProducts.Some? ==> WithChildren(d, p).links.children == p.groupedProducts.value
  {
  }

  /** Default attributes are saved only on a variable product, from the posted entries and the product's attributes. */
  lemma DefaultsOnlyForVariable(d: ProductData, p: Payload, env: Env)
    ensures d.kind != Variable ==> WithRelations(d, p, env).attributes == d.attributes
    ensures d.kind == Variable && p.defaultAttributes.Some? ==>
      WithRelations(d, p, env).attributes.defaults == DefaultsFrom(p.defaultAttributes.value, d.attributes.items, env)
  {
  }

  // ---------------------------------------------------------------------------
  // Default attributes

  /** A stored default names an attribute of the product that is used for variations, with a non-empty value. */
  predicate ValidDefault(kv: (string, string), attrs: seq<Attribute>, env: Env) {
    Truthy(kv.1) &&
    FindAttribute(attrs, kv.0, env.sanitizeTitle).Some? &&
    FindAttribute(attrs, kv.0, env.sanitizeTitle).value.variation
  }

  /** The default-attribute map has one entry per attribute name, each of them valid. */
  lemma {:induction false} DefaultsWellFormed(entries: seq<RawDefault>, attrs: seq<Attribute>, env: Env)
    ensures KeysUnique(DefaultsFrom(entries, attrs, env))
    ensures forall kv :: kv in DefaultsFrom(entries, attrs, env) ==> ValidDefault(kv, attrs, env)
  {
    if entries != [] {
      var init := entries[..|entries| - 1];
      DefaultsWellFormed(init, attrs, env);
    }
  }

  /** A later entry for the same attribute overwrites an earlier one. */
  lemma LaterDefaultWins(entries: seq<RawDefault>, e: RawDefault, attrs: seq<Attribute>, env: Env)
    requires DefaultEntry(e, attrs, env).Some?
    ensures Lookup(DefaultsFrom(entries + [e], attrs, env), DefaultEntry(e, attrs, env).value.0) == Some(DefaultEntry(e, attrs, env).value.1)
  {
    assert (entries + [e])[..|entries + [e]| - 1] == entries;
  }

  /** A taxonomy attribute's default is the slug of the term named by the posted option, else sanitize_title of it. */
  lemma TaxonomyDefaultIsSlug(e: RawDefault, a: Attribute, name: string, env: Env)
    requires a.IsTaxonomy()
    ensures var option := if e.option.Some? then env.clean(env.stripSlashes(e.option.value)) else "";
      DefaultValue(e, a, name, env) ==
        (if env.termSlugByName(option, name).Some? then env.termSlugByName(option, name).value else env.sanitizeTitle(option))
  {
  }

  // ---------------------------------------------------------------------------
  // Images

  /** A request with no non-empty image entry clears the featured image and the gallery. */
  lemma NoImagesClearImages(d: ProductData, images: seq<RawImage>, env: Env)
    requires forall i :: 0 <= i < |images| ==> !IsImageEntry(images[i])
    ensures WithProductImages(d, images, env) == Success(d.(images := ImageFields(0, [])))
  {
    NoImageEntries(images);
  }

  lemma {:induction false} NoImageEntries(images: seq<RawImage>)
    requires forall i :: 0 <= i < |images| ==> !IsImageEntry(images[i])
    ensures ImageEntries(images) == []
  {
    if images != [] {
      NoImageEntries(images[..|images| - 1]);
    }
  }

  /**
   * An entry that holds something but neither an id nor a src survives the
   * filter, resolves to attachment 0, and is rejected as an invalid image when
   * attachment 0 is not an image.
   */
  lemma EntryWithoutIdOrSrcIsRejected(d: ProductData, e: RawImage, env: Env)
    requires e.id.None? && e.src.None? && e.otherKeys && !env.isImage(0)
    ensures WithProductImages(d, [e], env) == Failure(InvalidImageId(0))
  {
    assert [e][..0] == [];
    assert ImageEntries([e]) == [e];
    assert AssignImages([e], d.images.imageId, env) == Failure(InvalidImageId(0));
  }

  /** An entry is skipped exactly when its upload failed and the failure is suppressed. */
  lemma SkippedIsSuppressedUploadFailure(e: RawImage, env: Env)
    ensures ResolveImage(e, env) == Skipped <==>
      (e.id.None? || AbsInt(e.id.value) == 0) && e.src.Some? &&
      env.upload(e.src.value).None? && env.suppressUploadError(e.src.value)
  {
  }

  /** A skipped entry changes nothing. */
  lemma SkippedEntryChangesNothing(es: seq<RawImage>, e: RawImage, current: nat, env: Env)
    requires ResolveImage(e, env) == Skipped
    ensures AssignImages(es + [e], current, env) == AssignImages(es, current, env)
  {
    assert (es + [e])[..|es + [e]| - 1] == es;
  }

  /** The walk fails iff some entry fails, and then with the error of the first failing entry. */
  lemma {:induction false} FirstImageFailureWins(es: seq<RawImage>, current: nat, env: Env)
    ensures AssignImages(es, current, env).Failure? <==> exists i :: 0 <= i < |es| && ResolveImage(es[i], env).Failed?
    ensures AssignImages(es, current, env).Failure? ==>
      exists i :: 0 <= i < |es| && ResolveImage(es[i], env) == Failed(AssignImages(es, current, env).error) &&
        forall j :: 0 <= j < i ==> !ResolveImage(es[j], env).Failed?
  {
    if es != [] {
      var n := |es| - 1;
      var init := es[..n];
      FirstImageFailureWins(init, current, env);
      assert forall i :: 0 <= i < n ==> init[i] == es[i];
      if AssignImages(init, current, env).Failure? {
        var i :| 0 <= i < n && ResolveImage(init[i], env) == Failed(AssignImages(init, current, env).error) &&
          forall j :: 0 <= j < i ==> !ResolveImage(init[j], env).Failed?;
        assert ResolveImage(es[i], env).Failed?;
      } else if ResolveImage(es[n], env).Failed? {
        assert forall j :: 0 <= j < n ==> !ResolveImage(es[j], env).Failed? by {
          forall j | 0 <= j < n ensures !ResolveImage(es[j], env).Failed? {
            assert init[j] == es[j];
          }
        }
      } else {
        forall i | 0 <= i < |es| ensures !ResolveImage(es[i], env).Failed? {
          if i < n {
            assert init[i] == es[i];
          }
        }
      }
    }
  }

  /** Entry i is at position 0 and resolved to the given id. */
  predicate PrimaryResolvedTo(es: seq<RawImage>, i: int, id: nat, env: Env)
    requires 0 <= i < |es|
  {
    IsPrimary(es[i]) && ResolveImage(es[i], env) == Resolved(id)
  }

  /** No entry from index `from` on is at position 0 and resolved. */
  predicate NoPrimaryFrom(es: seq<RawImage>, from: int, env: Env) {
    forall j :: from <= j < |es| && 0 <= j ==> !(IsPrimary(es[j]) && ResolveImage(es[j], env).Resolved?)
  }

  /**
   * After a successful walk the featured image is the last entry at
   * position 0 that resolved, or the old one when there is none.
   */
  lemma {:induction false} FeaturedIsLastPrimary(es: seq<RawImage>, current: nat, env: Env)
    requires AssignImages(es, current, env).Success?
    ensures var id := AssignImages(es, current, env).value.imageId;
      (id == current && NoPrimaryFrom(es, 0, env)) ||
      (exists i :: 0 <= i < |es| && PrimaryResolvedTo(es, i, id, env) && NoPrimaryFrom(es, i + 1, env))
  {
    if es != [] {
      var n := |es| - 1;
      var init := es[..n];
      FeaturedIsLastPrimary(init, current, env);
      var id := AssignImages(es, current, env).value.imageId;
      if IsPrimary(es[n]) && ResolveImage(es[n], env).Resolved? {
        assert PrimaryResolvedTo(es, n, id, env);
      } else {
        assert id == AssignImages(init, current, env).value.imageId;
        if exists i :: 0 <= i < n && PrimaryResolvedTo(init, i, id, env) && NoPrimaryFrom(init, i + 1, env) {
          var i :| 0 <= i < n && PrimaryResolvedTo(init, i, id, env) && NoPrimaryFrom(init, i + 1, env);
          assert init[i] == es[i];
          assert PrimaryResolvedTo(es, i, id, env);
          assert NoPrimaryFrom(es, i + 1, env) by {
            forall j | i + 1 <= j < |es| ensures !(IsPrimary(es[j]) && ResolveImage(es[j], env).Resolved?) {
              if j < n { assert init[j] == es[j]; }
            }
          }
        } else {
          assert NoPrimaryFrom(es, 0, env) by {
            forall j | 0 <= j < |es| ensures !(IsPrimary(es[j]) && ResolveImage(es[j], env).Resolved?) {
              if j < n { assert init[j] == es[j]; }
            }
          }
        }
      }
    }
  }

  /** The gallery by an independent definition: the ids of the resolved entries not at position 0, front to back. */
  function GalleryIds(es: seq<RawImage>, env: Env): seq<nat> {
    if es == [] then []
    else
      (if !IsPrimary(es[0]) && ResolveImage(es[0], env).Resolved? then [ResolveImage(es[0], env).attachmentId] else [])
      + GalleryIds(es[1..], env)
  }

  lemma {:induction false} GalleryIdsAppend(es: seq<RawImage>, e: RawImage, env: Env)
    ensures GalleryIds(es + [e], env) ==
      GalleryIds(es, env) + (if !IsPrimary(e) && ResolveImage(e, env).Resolved? then [ResolveImage(e, env).attachmentId] else [])
  {
    if es != [] {
      assert (es + [e])[1..] == es[1..] + [e];
      GalleryIdsAppend(es[1..], e, env);
    } else {
      assert es + [e] == [e];
    }
  }

  /** After a successful walk the gallery is exactly the resolved ids of the other entries, in posted order. */
  lemma {:induction false} GalleryIsOtherEntries(es: seq<RawImage>, current: nat, env: Env)
    requires AssignImages(es, current, env).Success?
    ensures AssignImages(es, current, env).value.gallery == GalleryIds(es, env)
  {
    if es != [] {
      var n := |es| - 1;
      GalleryIsOtherEntries(es[..n], current, env);
      GalleryIdsAppend(es[..n], es[n], env);
      assert es[..n] + [es[n]] == es;
    }
  }

  // ---------------------------------------------------------------------------
  // A request that sets nothing

  /**
   * A request with no parameter leaves a simple product as it is, unless
   * store stock management is on and the product has a quantity without
   * counting its stock.
   */
  lemma EmptyRequestKeepsSimpleProduct(d: ProductData, env: Env, s: Settings)
    requires d.kind == Simple
    requires ManagesStock(s) && !d.stock.manage ==> d.stock.quantity.None?
    ensures ApplyFields(d, EmptyPayload, env, s) == Success(d)
  {
    var p := EmptyPayload;
    assert WithContent(d, p, env) == d;
    assert WithListing(d, p, env) == d;
    assert WithTaxFields(d, p) == d;
    assert WithNoteAndFeatured(d, p, env) == d;
    assert WithShippingData(d, p, env) == d;
    assert WithPricing(d, p) == d;
    assert WithParentFields(d, p) == d;
    assert WithStock(d, p, env, s) == d;
    assert WithLinkedProducts(d, p) == d;
    assert WithDownloadOptions(d, p, env) == d;
  }

  /** The same empty request clears the prices of a variable or grouped product. */
  lemma EmptyRequestClearsParentPrices(d: ProductData, env: Env, s: Settings)
    requires HasChildPrices(d.kind)
    ensures ApplyFields(d, EmptyPayload, env, s).Success?
    ensures ApplyFields(d, EmptyPayload, env, s).value.prices == ClearedPrices
  {
  }
}
