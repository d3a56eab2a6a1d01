# Dokan product REST controller, modelled in Dafny

This project models the core of Dokan's product REST controller
(`includes/api/class-product-controller.php`). A vendor store uses this
controller to create, update, delete and read its WooCommerce products
through `/dokan/v1/products`. The model has three parts.

- **The applier.** This is `prepare_object_for_database` with its helpers
  (shipping, downloadable files, taxonomy terms, default attributes,
  images). It turns a request into the product object that will be saved.
  - The object is the class `Applier.Product`. Its one field, `props`,
    holds the product's properties, in the way WooCommerce keeps a
    product's data array.
  - Each group of setters the controller calls becomes a method. Each
    method's `ensures` ties the new properties to a pure step function of
    the old ones (`WithContent`, `WithPricing`, `WithStock`, ...).
  - The loops of the source (over attributes, upsell and cross-sell ids,
    downloadable files, default attributes and images) are `while` loops
    proved against prefix-recursive functions.
  - `Applier.Apply` composes the steps in the controller's order.
    `ApplierProperties` proves what the steps promise.
- **The projector.** This is `get_product_data` with its helpers (terms,
  images, attribute names and options, default attributes, downloads).
  These are pure functions from a stored product to the response record.
  `ProjectorProperties` proves their properties.
- **The handlers' guards and the paging headers.** These are the checks
  in `create_product`, `update_product` and `delete_product`, and the page
  arithmetic of `format_collection_response` (module `Controller`). They
  are proved in `ControllerProperties`.

`RoundTrip` joins the applier and the projector. It states what a client
reads back after posting a request: its custom attribute options, its
download files, its prices, its external link and its featured image.

WordPress and WooCommerce services are fields of the datatype
`Catalog.Env`, each a function value. This covers loading a product,
`wp_filter_post_kses`, `wc_clean`, `sanitize_title`, term and taxonomy
lookups, image uploads, attachment lookups and `wc_stock_amount`. Every
property holds for every such environment, except where a lemma names
`Catalog.LoaderSound`: a loader that, like WooCommerce's, loads nothing
under id 0 and gives each product the id it was loaded under. PHP semantics are written out
in module `Php`:
- truthiness: `""` and `"0"` are false;
- `absint`;
- `explode` / `implode`;
- `trim`;
- `str_replace`.

Errors are values of the datatype `Catalog.Failure`, whose `Code()` is the
source's error code. The two `WC_REST_Exception`s thrown by
`set_product_images` are modelled as failures, because the handlers catch
them and return them as `WP_Error`.

Where the code and the specification of the system differ, the model
follows the code:
- A posted `in_stock` means "instock" only when it is the boolean `true`
  itself (line 956). Any other posted value means "outofstock".
- A new product gets no status unless one is posted (lines 786-788). The
  model keeps the blank product's status, the empty text. It does not
  default to "draft".
- `per_page` is not checked to be positive (line 457). A negative page
  size gives a page count of 0 or less (`Controller.CeilDiv`).
- `delete_product` does not check that the current user is a store
  (lines 271-282). Only create and update do.

## Model

| member | source | states |
|---|---|---|
| `Applier.Product.Load` | includes/api/class-product-controller.php:746-762 | the product object starts with the properties of the product it is built over |
| `Applier.LoadProduct` | includes/api/class-product-controller.php:746-762 | a `type` picks the class, built over the stored product when `product_id` is set; else the stored product is loaded; else a new simple product is made; a product that cannot be loaded is an error |
| `Applier.PrepareObjectForDatabase` | includes/api/class-product-controller.php:746-1117 | the object returned has exactly the properties of `Apply`, and fails exactly when `Apply` fails, with the same error |
| `Applier.Product.SetContent` | includes/api/class-product-controller.php:770-789 | name, description and excerpt go through kses; a posted status is kept when registered, else "draft"; nothing else changes |
| `Applier.Product.SetListing` | includes/api/class-product-controller.php:790-809 | slug, menu order, reviews and the virtual flag are set when posted |
| `Applier.Product.SetTaxFields` | includes/api/class-product-controller.php:810-824 | tax status, tax class and catalogue visibility are set when posted |
| `Applier.Product.SetNoteAndFeatured` | includes/api/class-product-controller.php:825-833 | purchase note (cleaned) and featured flag are set when posted |
| `Applier.Product.SaveProductShippingData` | includes/api/class-product-controller.php:1196-1232 | a request with `virtual` true clears weight and dimensions; otherwise each is set when posted; the shipping class is looked up by slug |
| `Applier.Product.SetSku` | includes/api/class-product-controller.php:838-841 | the SKU is the cleaned posted value |
| `Applier.Product.SetAttributes` | includes/api/class-product-controller.php:843-907 | posted attributes replace the attribute list, entry by entry |
| `Applier.BuildAttributes` | includes/api/class-product-controller.php:844-906 | the attribute loop builds exactly the normalised list of the posted entries |
| `Applier.AttributeFromEntry` | includes/api/class-product-controller.php:847-905 | one posted entry gives no attribute or one global or custom attribute, as the branches decide |
| `Applier.Product.SetPricing` | includes/api/class-product-controller.php:909-942 | variable and grouped products have every price and both sale dates cleared; others take the posted prices and sale window |
| `Applier.SetPostedPrices` | includes/api/class-product-controller.php:916-941 | the price setters of a product with its own prices, UTC sale dates applied after local ones |
| `Applier.Product.SetParentFields` | includes/api/class-product-controller.php:944-952 | parent id and sold-individually are set when posted |
| `Applier.Product.SetStock` | includes/api/class-product-controller.php:954-1005 | the stock fields become those of the stock step for the product's kind and the store's stock setting |
| `Applier.SetManagedStock` | includes/api/class-product-controller.php:983-996 | a product counting its stock: status unless variable, posted quantity, else stored quantity plus delta |
| `Applier.Product.SetLinkedProducts` | includes/api/class-product-controller.php:1007-1037 | posted upsell and cross-sell ids replace the stored ones, keeping only positive ids |
| `Applier.KeepPositiveIds` | includes/api/class-product-controller.php:1008-1021 | the id loop keeps exactly the positive ids, in posted order |
| `Applier.Product.SaveTaxonomyTerms` | includes/api/class-product-controller.php:1272-1282 | the plucked ids replace the category ids or the tag ids |
| `Applier.Product.SaveDownloadableFiles` | includes/api/class-product-controller.php:1242-1262 | the downloads become one file per posted entry that has a file, keyed by its index, named as posted or by the file name |
| `Applier.Product.SetDownloadOptions` | includes/api/class-product-controller.php:1049-1071 | the downloadable flag is set; files, limit and expiry only on a downloadable product |
| `Applier.Product.SetExternalLink` | includes/api/class-product-controller.php:1073-1082 | URL and button text are set only on an external product |
| `Applier.Product.SaveDefaultAttributes` | includes/api/class-product-controller.php:1293-1343 | posted defaults replace the default-attribute map, as the loop builds it |
| `Applier.Product.SetChildren` | includes/api/class-product-controller.php:1089-1092 | children are replaced only on a grouped product |
| `Applier.Product.SetProductImages` | includes/api/class-product-controller.php:1127-1187 | the images step fails exactly when the image walk fails, with its error; otherwise featured image and gallery are set as walked |
| `Applier.WalkImages` | includes/api/class-product-controller.php:1130-1180 | the loop over posted images gives the walk's featured id and gallery, or the first error |
| `Applier.ResolveEntry` | includes/api/class-product-controller.php:1134-1153 | one entry resolves to its id or uploaded attachment, is skipped on a suppressed upload failure, or fails with the upload or invalid-image error |
| `Applier.FailureStopsWalk` | includes/api/class-product-controller.php:1139-1153 | once a prefix of the entries fails, the whole walk fails with that error |
| `Applier.Product.SetFields` | includes/api/class-product-controller.php:770-1005 | the setters from title through stock, in the controller's order |
| `Applier.Product.SetRelations` | includes/api/class-product-controller.php:1007-1092 | the setters from linked products through grouped children, in the controller's order |
| `Applier.DropEmpty` | includes/api/class-product-controller.php:873-874 | `array_filter(..., 'strlen')` keeps exactly the non-empty strings |
| `Applier.Put` | includes/api/class-product-controller.php:1332-1334 | assigning a key of a PHP string-keyed array replaces an existing value in place, else appends |
| `Catalog.KindFromType` | includes/api/class-product-controller.php:750-757 | a known type name gives its class; any other name gives a simple product |
| `Catalog.FindAttribute` | includes/api/class-product-controller.php:1315-1316 | the attribute stored under a sanitised name, if any |
| `ApplierProperties.ResolvedProduct` | includes/api/class-product-controller.php:747-762 | which product a request works on, and exactly when it cannot be loaded |
| `ApplierProperties.UnknownTypeIsSimple` | includes/api/class-product-controller.php:750-756 | an unknown `type` falls back to a simple product |
| `ApplierProperties.ImageWalkFailsOnlyOnImages` | includes/api/class-product-controller.php:1139-1153 | the image walk fails only with the upload error or the invalid-image error |
| `ApplierProperties.ApplyFieldsFailsOnlyOnImages` | includes/api/class-product-controller.php:770-1117 | after the kind check, only posted images can make the request fail |
| `ApplierProperties.VariationIsRejected` | includes/api/class-product-controller.php:764-768 | the request fails with woocommerce_rest_invalid_product_id exactly when the product is a variation |
| `ApplierProperties.FieldsKeepIdentity` | includes/api/class-product-controller.php:770-1005 | the field setters keep kind, id and author |
| `ApplierProperties.RelationsKeepIdentity` | includes/api/class-product-controller.php:1007-1092 | the relation setters keep kind, id, author, post fields and prices |
| `ApplierProperties.AppliedProduct` | includes/api/class-product-controller.php:746-1117 | a successful request keeps the resolved kind (never variation), id and author; a posted status is stored when registered, else "draft" |
| `ApplierProperties.VirtualClearsDimensions` | includes/api/class-product-controller.php:1198-1223 | `virtual` true clears all four dimensions; otherwise each is as posted or as it was |
| `ApplierProperties.ShippingDataOnlyTouchesShipping` | includes/api/class-product-controller.php:1196-1232 | the shipping helper changes nothing outside the shipping fields |
| `ApplierProperties.SomeOptionSurvives` | includes/api/class-product-controller.php:865-879 | a global attribute's values are non-empty exactly when some posted option sanitises to a non-empty term text |
| `ApplierProperties.AttributeEntry` | includes/api/class-product-controller.php:847-905 | a global entry survives iff an option sanitises to non-empty; a custom one iff it has a cleaned name and options, which it keeps verbatim; position, visible and variation default to 0, off, off |
| `ApplierProperties.NormalizedAttributesWellFormed` | includes/api/class-product-controller.php:844-907 | every stored attribute is well formed, and there are no more than posted |
| `ApplierProperties.NormalizeAttributesAppend` | includes/api/class-product-controller.php:847-905 | attributes are built entry by entry, in posted order |
| `ApplierProperties.PricingByKind` | includes/api/class-product-controller.php:909-942 | parent kinds lose every price; others keep `price`, take posted prices, and prefer a UTC sale date, where a false one clears the bound; nothing else changes |
| `ApplierProperties.DesiredStatus` | includes/api/class-product-controller.php:954-959 | `in_stock` means "instock" only when it is the boolean true |
| `ApplierProperties.ParentlessStock` | includes/api/class-product-controller.php:973-982 | with store stock management on, grouped and external products never count stock; external ones are in stock |
| `ApplierProperties.UnmanagedStoreStock` | includes/api/class-product-controller.php:1003-1005 | with store stock management off only the status changes, and not for a variable product |
| `ApplierProperties.VariableStockStatusKept` | includes/api/class-product-controller.php:983-988 | a variable product counting its stock keeps its status |
| `ApplierProperties.VariableUnmanagedStockStatusSet` | includes/api/class-product-controller.php:997-1002 | with store management on, a variable product not counting its stock stores the desired status (so `in_stock` false turns "instock" into "outofstock") |
| `ApplierProperties.ManagedQuantityRules` | includes/api/class-product-controller.php:962-1002 | manage and backorders flags as posted; no quantity when not counting; posted quantity verbatim, else stored plus delta; the desired status is stored, except that a variable product counting its stock keeps its own |
| `ApplierProperties.InventoryDeltaExample` | includes/api/class-product-controller.php:992-996 | a stored 10 with delta -3 becomes 7 |
| `ApplierProperties.InventoryDeltaNotIdempotent` | includes/api/class-product-controller.php:992-996 | repeating a request with a non-zero delta moves the stock again |
| `ApplierProperties.PositiveIdsMembers` | includes/api/class-product-controller.php:1008-1021 | the kept ids are exactly the posted positive ones |
| `ApplierProperties.PositiveIdsAppend` | includes/api/class-product-controller.php:1013-1017 | filtering is id by id, so posted order is kept |
| `ApplierProperties.PositiveIdsIdempotent` | includes/api/class-product-controller.php:1008-1037 | filtering twice is filtering once |
| `ApplierProperties.PositiveKept` | includes/api/class-product-controller.php:1013-1017 | a list of positive ids is kept as it is |
| `ApplierProperties.TermIdsMembers` | includes/api/class-product-controller.php:1273 | the stored term ids are the posted ids, in order |
| `ApplierProperties.TermsTarget` | includes/api/class-product-controller.php:1039-1047 | categories replace the category ids and tags the tag ids; nothing else changes |
| `ApplierProperties.DownloadsComeFromEntries` | includes/api/class-product-controller.php:1248-1258 | each stored file comes from the posted entry whose index is its key: that entry's file, and its name or else the file name taken from the URL |
| `ApplierProperties.DownloadKeysIncrease` | includes/api/class-product-controller.php:1248-1258 | the stored files keep the posted order: their keys strictly increase |
| `ApplierProperties.EveryFileIsStored` | includes/api/class-product-controller.php:1248-1258 | every posted entry with a non-empty file is stored under its index |
| `ApplierProperties.DownloadOptionsOnlyWhenDownloadable` | includes/api/class-product-controller.php:1049-1071 | files, limit and expiry change only when the product is downloadable after the flag is applied |
| `ApplierProperties.ExternalFieldsOnlyForExternal` | includes/api/class-product-controller.php:1073-1082 | URL and button text change only on an external product; nothing else changes |
| `ApplierProperties.ChildrenOnlyForGrouped` | includes/api/class-product-controller.php:1089-1092 | children change only on a grouped product with posted children |
| `ApplierProperties.DefaultsOnlyForVariable` | includes/api/class-product-controller.php:1084-1087 | default attributes change only on a variable product |
| `ApplierProperties.DefaultsWellFormed` | includes/api/class-product-controller.php:1293-1343 | the default map has one entry per name, each naming a variation attribute with a non-empty value |
| `ApplierProperties.LaterDefaultWins` | includes/api/class-product-controller.php:1332-1334 | a later entry for the same attribute overwrites an earlier one |
| `ApplierProperties.TaxonomyDefaultIsSlug` | includes/api/class-product-controller.php:1319-1330 | a taxonomy default is the slug of the named term, else the sanitised option |
| `ApplierProperties.NoImagesClearImages` | includes/api/class-product-controller.php:1128-1184 | a list whose entries are all empty (falsy) clears the featured image and the gallery |
| `ApplierProperties.NoImageEntries` | includes/api/class-product-controller.php:1128 | `array_filter` drops every empty entry; an entry holding any key, even an unknown one, is kept |
| `ApplierProperties.EntryWithoutIdOrSrcIsRejected` | includes/api/class-product-controller.php:1128-1152 | a non-empty entry with neither `id` nor `src` resolves to attachment 0 and fails with the invalid-image error |
| `ApplierProperties.SkippedIsSuppressedUploadFailure` | includes/api/class-product-controller.php:1136-1145 | an entry is skipped exactly when its upload failed and the failure is suppressed |
| `ApplierProperties.SkippedEntryChangesNothing` | includes/api/class-product-controller.php:1139-1145 | a skipped entry changes neither featured image nor gallery |
| `ApplierProperties.FirstImageFailureWins` | includes/api/class-product-controller.php:1133-1153 | the walk fails iff some entry fails, with the first failing entry's error |
| `ApplierProperties.FeaturedIsLastPrimary` | includes/api/class-product-controller.php:1155-1159 | the featured image is the last resolved entry at position 0, or the old one when there is none |
| `ApplierProperties.GalleryIdsAppend` | includes/api/class-product-controller.php:1157-1159 | the independent gallery definition grows entry by entry |
| `ApplierProperties.GalleryIsOtherEntries` | includes/api/class-product-controller.php:1133-1182 | the gallery is exactly the resolved ids of the entries not at position 0, in posted order |
| `ApplierProperties.EmptyRequestKeepsSimpleProduct` | includes/api/class-product-controller.php:770-1117 | an empty request leaves a simple product unchanged, unless store stock management drops an unmanaged quantity |
| `ApplierProperties.EmptyRequestClearsParentPrices` | includes/api/class-product-controller.php:909-915 | an empty request still clears the prices of a variable or grouped product |
| `Projector.GetTaxonomyTerms` | includes/api/class-product-controller.php:492-504 | one entry per assigned term, with its id, name and slug |
| `Projector.GetImages` | includes/api/class-product-controller.php:512-565 | never empty: the resolvable attachments, or the placeholder alone |
| `Projector.AttributeTaxonomyName` | includes/api/class-product-controller.php:590-607 | an unknown slug shows with every "pa_" removed |
| `Projector.GetAttributes` | includes/api/class-product-controller.php:664-706 | fails exactly for a variation whose parent cannot be loaded and that selects something |
| `Projector.GetDefaultAttributes` | includes/api/class-product-controller.php:615-637 | only a variable product has default attributes |
| `Projector.GetDownloads` | includes/api/class-product-controller.php:714-728 | a downloadable product shows each stored file under its key; other products show none |
| `Projector.AbsIds` | includes/api/class-product-controller.php:423-424 | each id is shown as its absolute value |
| `Projector.GetProductData` | includes/api/class-product-controller.php:364-439 | the record exists exactly when its attributes can be built, and carries them |
| `ProjectorProperties.ImagesComeFromIds` | includes/api/class-product-controller.php:524-546 | at most one image per id; each entry is the attachment of the id at its position |
| `ProjectorProperties.ImagePositionsIncrease` | includes/api/class-product-controller.php:524-546 | image entries follow the order of the ids: positions strictly increase |
| `ProjectorProperties.EveryResolvableIdShown` | includes/api/class-product-controller.php:524-546 | every id that resolves to an attachment is shown at its index |
| `ProjectorProperties.NothingResolves` | includes/api/class-product-controller.php:524-535 | no image is built exactly when no attachment resolves |
| `ProjectorProperties.FirstIdFirst` | includes/api/class-product-controller.php:524-546 | a resolvable first id is shown first, at position 0 |
| `ProjectorProperties.ProjectedImages` | includes/api/class-product-controller.php:512-565 | the placeholder exactly when nothing resolves; otherwise only images of the product's attachments |
| `ProjectorProperties.FeaturedImageFirst` | includes/api/class-product-controller.php:516-546 | a resolvable featured image comes first; the rest are gallery images at their gallery position plus one |
| `ProjectorProperties.NameFallbackStripsPrefix` | includes/api/class-product-controller.php:593-595 | an unknown "pa_" slug shows as its bare name |
| `ProjectorProperties.NameOfKnownAttribute` | includes/api/class-product-controller.php:597-606 | a known attribute shows its taxonomy label, or its own name when custom |
| `ProjectorProperties.CustomOptionsRoundTrip` | includes/api/class-product-controller.php:646-656 | custom options stored trimmed and free of '\|' come back as stored; none come back as one empty option; taxonomy options are the term names |
| `ProjectorProperties.FullAttributesShape` | includes/api/class-product-controller.php:692-703 | a non-variation shows one entry per attribute, with id, name, position, flags and options |
| `ProjectorProperties.ChosenOptionsSound` | includes/api/class-product-controller.php:669-689 | every option shown for a variation comes from a selected true value |
| `ProjectorProperties.ChosenOptionsComplete` | includes/api/class-product-controller.php:669-689 | every selected true value is shown |
| `ProjectorProperties.ChosenOptionsOfNothing` | includes/api/class-product-controller.php:672-674 | without a true value nothing is shown |
| `ProjectorProperties.ChosenOptionByPrefix` | includes/api/class-product-controller.php:670-688 | a "pa_" selection shows its taxonomy id and term name; a custom one shows id 0 and the value |
| `ProjectorProperties.DefaultViewsSound` | includes/api/class-product-controller.php:619-633 | every default shown comes from a stored default with a non-empty value |
| `ProjectorProperties.DefaultViewsComplete` | includes/api/class-product-controller.php:619-633 | every stored default with a non-empty value is shown |
| `ProjectorProperties.DefaultViewsWellFormed` | includes/api/class-product-controller.php:615-637 | every default shown has a non-empty option and comes from a stored default |
| `ProjectorProperties.ProjectionFailsOnlyForOrphanVariation` | includes/api/class-product-controller.php:664-690 | the response fails exactly for a variation with an unloadable parent that selects something |
| `ProjectorProperties.KindNeutralFields` | includes/api/class-product-controller.php:384-433 | URL and button text only for external products; no variations or grouped products listed; false sale price shown as ""; upsell and cross-sell ids shown one for one as their absolute values, so positive ids as stored |
| `ProjectorProperties.DownloadsShown` | includes/api/class-product-controller.php:394-395 | downloads shown only for a downloadable product, one per stored file, under its key |
| `Controller.CreateProduct` | includes/api/class-product-controller.php:169-216 | a failing check gives its error; otherwise the applier's product with the store as author |
| `Controller.CeilDiv` | includes/api/class-product-controller.php:462 | ceil of the float division, for either sign of the divisor |
| `Controller.PerPage` | includes/api/class-product-controller.php:457 | `per_page` is never 0: empty gives 20 |
| `Controller.PageNumber` | includes/api/class-product-controller.php:458 | `page` is never 0: empty gives 1 |
| `ControllerProperties.CreateAcceptedIff` | includes/api/class-product-controller.php:169-195 | create passes exactly with a store, no product id, a true name, and one or more categories (exactly one under the 'single' style) |
| `ControllerProperties.CreateCheckOrder` | includes/api/class-product-controller.php:173-195 | each create error is reported only when every earlier check passed |
| `ControllerProperties.CreateStartsFromBlank` | includes/api/class-product-controller.php:177-179 | an accepted create builds a new product (id 0) of the posted type, or simple |
| `ControllerProperties.CreatedProduct` | includes/api/class-product-controller.php:197-208 | a created product is authored by the store and is never a variation; it is new (id 0) when no id was posted, and always new under a sound loader |
| `ControllerProperties.CreateWithZeroIdAndNoTypeFails` | includes/api/class-product-controller.php:747-764 | a create request with `product_id` 0 and no type passes the checks but loads nothing, and fails |
| `ControllerProperties.CreateVariationRefused` | includes/api/class-product-controller.php:197-202 | creating a variation passes the checks, then fails in the applier |
| `ControllerProperties.UpdateOnlyByOwner` | includes/api/class-product-controller.php:225-249 | a successful update was made by a store on an existing product it authored; the applier edited that same product and kept its author |
| `ControllerProperties.UpdateCheckOrder` | includes/api/class-product-controller.php:228-249 | update reports no store, then invalid id, then not owner, then the applier's result |
| `ControllerProperties.DeleteOnlyByOwner` | includes/api/class-product-controller.php:270-300 | delete succeeds iff the product exists, the user authored it and deletion took; never the no-store error |
| `ControllerProperties.DeleteWithoutStore` | includes/api/class-product-controller.php:271-282 | with nobody logged in, a product whose author is 0 is deleted |
| `ControllerProperties.TotalPagesHoldEveryItem` | includes/api/class-product-controller.php:457-465 | the page count is the least number of pages that hold every item, and at least 1 |
| `ControllerProperties.HeadersOnlyForItems` | includes/api/class-product-controller.php:452-460 | headers exactly for a non-empty collection; X-WP-Total is its size |
| `ControllerProperties.PrevLink` | includes/api/class-product-controller.php:467-474 | a previous link iff past page 1: the page before, clamped to the last page |
| `ControllerProperties.NextLink` | includes/api/class-product-controller.php:475-480 | a next link iff pages remain: the page after |
| `ControllerProperties.DefaultPaging` | includes/api/class-product-controller.php:457-480 | no parameters: no previous link, and a next link iff there are more than 20 items |
| `ControllerProperties.PagingExample` | includes/api/class-product-controller.php:451-483 | 45 items at 20 a page make 3 pages; page 2 links to 1 and 3; pages 3 and 5 link back only |
| `RoundTrip.FieldsGroups` | includes/api/class-product-controller.php:770-1005 | the field setters give the posted attributes and the priced product, and leave files and images alone |
| `RoundTrip.RelationsGroups` | includes/api/class-product-controller.php:1007-1092 | the relation setters change files and the external link only as posted, and leave attributes, prices and images alone |
| `RoundTrip.ImagesComeLast` | includes/api/class-product-controller.php:1094-1097 | the images step changes nothing but the images |
| `RoundTrip.AppliedGroups` | includes/api/class-product-controller.php:746-1117 | the attribute list, prices, download fields and external link a successful request stores |
| `RoundTrip.NormalizedEntryKept` | includes/api/class-product-controller.php:844-907 | the attribute a posted entry yields is in the stored list |
| `RoundTrip.CustomAttributeRoundTrip` | includes/api/class-product-controller.php:890-905 | a custom attribute posted with a clean option list reads back with id 0 and exactly those options |
| `RoundTrip.DownloadsRoundTrip` | includes/api/class-product-controller.php:1055-1061 | downloads posted on a downloadable product read back one per entry with a file |
| `RoundTrip.PricesRoundTrip` | includes/api/class-product-controller.php:909-942 | parent kinds read back empty prices; others the posted regular price and the true posted sale price |
| `RoundTrip.ExternalLinkRoundTrip` | includes/api/class-product-controller.php:1073-1082 | an external product reads back the posted URL and button text; others read back "" |
| `RoundTrip.FeaturedImageRoundTrip` | includes/api/class-product-controller.php:1155-1159 | the first image read back is the last resolved entry at position 0, or the earlier featured image |
| `Php.Explode` | includes/api/class-product-controller.php:652 | `explode` gives at least one piece, none holding the separator |
| `Php.RemoveAll` | includes/api/class-product-controller.php:594 | `str_replace` removes every occurrence of the needle |
| `Php.OptionsRoundTrip` | includes/api/class-product-controller.php:652 | options joined with " \| ", split on '\|' and trimmed come back as they were, if trimmed, free of '\|' and non-empty |
| `Php.EmptyOptionsComeBackAsOneEmptyOption` | includes/api/class-product-controller.php:652 | no options come back as one empty option |
| `Php.RemoveAllStripsPrefix` | includes/api/class-product-controller.php:594 | removing a prefix that occurs nowhere else gives the rest |

## Left out

- `get_products` and `get_product`, the list query and the single read, are not modelled. They are queries over the database. Only their paging headers are modelled (`format_collection_response`).
- Saving is not modelled: `save()`, id assignment, `wp_update_post` of the author, `update_additional_fields_for_object`, and `delete(true)`. `Controller.CreateProduct` returns the product to be saved with its author set. `Controller.DeleteProduct` takes whether the deletion took as a parameter.
- Permission callbacks, route registration and the `dokan_rest_delete_product_object` action are left out.
- HTTP statuses and messages are left out. Errors keep their codes.
- The `woocommerce_rest_pre_insert_product_object`, `woocommerce_file_download_path` and `woocommerce_short_description` filters are left out, as are other hooks. They are taken as the identity.
- `meta_data` is left out: it is neither written (line 1100) nor shown (line 435).
- Dates are left out. The sale dates are kept as the posted text or timestamp request (`DateArg`) without parsing. `date_created`, `date_modified` and the `*_gmt` fields of the response are left out.
- Response fields that WooCommerce computes are left out: `permalink`, `price_html`, `on_sale`, `purchasable`, `total_sales`, `manage_stock`, `in_stock`, `backorders_allowed`, `backordered`, `shipping_required`, `shipping_taxable`, `shipping_class` (the slug), `average_rating`, `rating_count` and `related_ids`.
- The 'view' rendering of the description, excerpt and purchase note (`wpautop`, `do_shortcode`) is left out. These are parameters of type `Presentation`.
- The side effects of posted images on the attachments are left out: the alt text, the title and the `_wc_attachment_source` meta (lines 1161-1178). An upload is a lookup in `Env.upload`.
- The placeholder's name and alt are the untranslated text "Placeholder".
- `has_post_thumbnail` is read as "the featured image id is not 0".
- `Applier.LoadProduct`: a product that cannot be loaded ends the request without a REST error in the source. With a `type`, `new $classname($id)` throws an `Exception` ('Invalid product.') from the data store, which the handlers do not catch. Without one, `wc_get_product` gives false and the next method call fails fatally. The model returns `ProductNotLoaded` in both cases, a failure with an empty code.
- `Projector.GetProductData`: a variation whose parent cannot be loaded and that selects something fails fatally in the source. The model returns `None`.
- `Applier.Product.SetProductImages` does not describe the object after a failure. The source throws, and the handler drops the object.
- `ControllerProperties.UpdateOnlyByOwner` requires a positive `product_id`. The route admits only digits. For id 0, WooCommerce loads nothing, but the model's loader is not constrained unless `Catalog.LoaderSound` is assumed, and under it an update of id 0 cannot succeed.
- `ApplierProperties.TermIdsMembers`: `wp_list_pluck` on an entry without an `id` is read as skipping that entry.
- `Controller.CeilDiv`: PHP computes the page count in floating point. The model uses exact integers, which agree for every count and page size that fit in a float's mantissa.
- WooCommerce's setters are taken as plain writes. In WooCommerce, `set_regular_price`, `set_sale_price` and `set_weight` pass the value through `wc_format_decimal`, and `set_tax_class` keeps only a valid class. `set_sku`, `set_catalog_visibility`, `set_tax_status` and `set_downloads` can throw `WC_Data_Exception`, which the handlers turn into an error (lines 211 and 256). So the round-trip lemmas (`RoundTrip.PricesRoundTrip` and the others) describe the controller's own logic over plain setters, not every normalisation WooCommerce adds.
- Integers are unbounded. PHP's integer overflow in the inventory delta and in `absint` is not modelled.
