# Cosmetics storefront: a Dafny model of its cart, checkout, catalogue and admin logic

This project models the core logic of a small cosmetics web shop that sells in
Algeria. The shop is written in TypeScript and React and keeps its data in a
hosted database. The model covers these parts:

- **Cart store** (`src/store/cartStore.ts`). A client-side store holding the cart
  lines and an open/closed flag for the cart panel. Its operations are:
  - add (merges with an existing line of the same id);
  - remove;
  - update a quantity (zero or less removes the line);
  - toggle the panel and clear the cart;
  - two folds: total price and unit count.
- **Checkout page** (`src/pages/Checkout.tsx`). The page holds these tables:
  - the 58 wilayas (provinces) offered in the drop-down;
  - the wilaya-to-zone map (four zones);
  - the tariff table (home delivery or "bureau" pick-up).

  It also models the shipping-cost effect, including its case-insensitive
  fallback lookup, and the order the submit handler builds and inserts.
- **Admin product form** (`src/pages/adminstrator/components/ProductForm.tsx`). The
  image editor works on two lists: previews, which mix stored URLs and `blob:`
  URLs of new files, and the pending files. It also holds a thumbnail index.
  The form enforces the 5-image limit, removes an image together with its file,
  and on submit merges stored and uploaded URLs and splits off the thumbnail.
- **Public catalogue** (`src/pages/ProductCatalog.tsx`). Covers:
  - the row-to-card mapping with its image fallback;
  - the search and category filters and the effect that re-runs them;
  - pagination at 9 products per page, with JavaScript `slice` semantics;
  - add-to-cart.
- **Product detail page** (`src/pages/ProductDetail.tsx`). Covers:
  - normalising a row: benefits parsing and the gallery fallback;
  - the quantity stepper;
  - the stock and original-price guards;
  - add-to-cart.
- **Home page product grid** (`src/components/ProductGrid.tsx`). The row mapping
  falls back to the category "Autres". Then come the category filter and
  add-to-cart.
- **Admin products page** (`src/pages/adminstrator/pages/Products.tsx`). A search
  over name, description and category, the dialogs, and the delete flow.
- **Admin orders page** (`src/pages/adminstrator/pages/Orders.tsx`). The three
  statuses and the optimistic status change, which reverts on error.
- **Analytics page** (`src/pages/adminstrator/pages/Analytics.tsx`). The
  category histogram starts from a fallback list of five names. Also the
  distinct-category count and the five most recent activities.

Modules follow the source files: `CartStore`, `Checkout`, `ProductForm`,
`Catalog`, `ProductDetail`, `ProductGrid`, `AdminProducts`, `Orders`,
`Analytics`. A few small shared modules support them:
- `Maybe`: the option type;
- `Text`: JavaScript `toLowerCase`, `includes`, `startsWith` and number-to-string;
- `ListOps`: `filter`, `map` and `slice` with their laws, and subsequences;
- `ProductRows`: the stored product row and its image fallback.

How the model is built:
- React state and the store become classes whose fields the methods reassign.
- Pure computations become functions with lemmas.
- A database call becomes a parameter carrying its outcome: success or failure,
  and the rows returned.

The source and its own description differ on one point. The description
suggests every region has a price. The code charges **0** when the selected
name is not in the zone map, not even case-insensitively. `Checkout.ShippingCost`
follows the code, and `Checkout.UnmappedCost` states that case. The drop-down
only offers mapped names (`Checkout.DropdownCovered`), so from the form the
cost is always at least 350.

## Model

| member | source | states |
|---|---|---|
| Text.Lower | src/pages/Checkout.tsx:76 | lowercasing keeps the length and lowercases each character (ASCII and Latin-1 capitals), nothing else |
| Text.LowerIdempotent | src/pages/Checkout.tsx:76 | lowercasing twice is the same as lowercasing once |
| Text.Includes | src/pages/ProductCatalog.tsx:58 | `includes` is true exactly when the needle occurs at some position of the text |
| Text.IntToString | src/pages/adminstrator/components/ProductForm.tsx:55 | a non-negative price becomes decimal digits whose value is the price, with no leading zero; a negative one becomes '-' followed by the text of its magnitude |
| ProductRows.ImageUrlOf | src/pages/ProductCatalog.tsx:45 | the card image is the thumbnail when set, else the first gallery URL, else the empty string |
| ProductRows.ImageUrlIsStored | src/components/ProductGrid.tsx:51 | the card image is empty or one of the row's own stored URLs |
| ListOps.Filter | src/pages/ProductCatalog.tsx:58 | `filter` keeps exactly the elements satisfying the predicate and never grows the list |
| ListOps.Map | src/components/ProductGrid.tsx:46-55 | `map` keeps the length and transforms each position |
| ListOps.FilterIsSubsequence | src/pages/ProductCatalog.tsx:58 | a filtered list keeps the original relative order (it is a subsequence) |
| ListOps.FilterAppend | src/pages/ProductCatalog.tsx:58 | filtering distributes over concatenation |
| ListOps.FilterKeepsAll | src/pages/ProductCatalog.tsx:62-64 | filtering with a predicate every element satisfies returns the list unchanged |
| ListOps.FilterTwice | src/pages/ProductCatalog.tsx:54-64 | two successive filters equal one filter by the conjunction |
| ListOps.SlicePosition | src/pages/ProductCatalog.tsx:73 | a `slice` bound is clamped into 0..length, exactly so for non-negative bounds |
| ListOps.Slice | src/pages/ProductCatalog.tsx:73 | a slice is no longer than the list and only holds its elements |
| ListOps.SliceWindow | src/pages/ProductCatalog.tsx:73 | with non-negative bounds, `slice` is the window `start..min(end, length)`, empty past the end |
| CartStore.Increment | src/store/cartStore.ts:35-37 | lines with the id gain `delta` units, every other line is unchanged, length kept |
| CartStore.SetQuantityOf | src/store/cartStore.ts:55-59 | lines with the id get the new quantity, every other line is unchanged, length kept |
| CartStore.RemoveLine | src/store/cartStore.ts:44-46 | no line with the removed id is left, and the cart never grows |
| CartStore.AddLine | src/store/cartStore.ts:30-42 | after an add, the id has a line; the line count grows only for a new id; the existing lines keep their ids in order |
| CartStore.UpdateLine | src/store/cartStore.ts:48-60 | an update to zero or less leaves no line with the id; a positive one keeps every line and id and sets the id's quantity |
| CartStore.Total | src/store/cartStore.ts:64-66 | the fold of price times quantity; its meaning is stated by TotalAppend, AddTotal, IncrementTotal, AddNewTotal and FoldsNonNegative |
| CartStore.ItemCount | src/store/cartStore.ts:68-70 | the fold of quantities; its meaning is stated by TotalAppend, AddCounts, FoldsBasics and FoldsNonNegative |
| CartStore.RemoveMembers | src/store/cartStore.ts:44-46 | the kept lines are exactly the lines of other ids |
| CartStore.TotalAppend | src/store/cartStore.ts:64-70 | total, unit count, per-id quantity and per-id line count are additive over concatenation |
| CartStore.LinesWithZero | src/store/cartStore.ts:31 | no line carries the id exactly when `find` finds nothing; then the id holds no units |
| CartStore.AddExisting | src/store/cartStore.ts:31-39 | adding a present id keeps the line count and every name, price and thumbnail, adds the quantity to that id's line only |
| CartStore.AddNew | src/store/cartStore.ts:41 | adding a new id appends the item as the last line and keeps the earlier lines |
| CartStore.AddKeepsInvariants | src/store/cartStore.ts:30-42 | adding keeps ids unique, and keeps quantities positive when the added quantity is positive |
| CartStore.AddCounts | src/store/cartStore.ts:30-42 | adding raises the unit count and the id's quantity by the added quantity, leaves other ids alone, and leaves one line for the id |
| CartStore.IncrementCounts | src/store/cartStore.ts:35-37 | incrementing the one line of an id changes the unit count and that id's quantity by `delta` only |
| CartStore.IncrementNone | src/store/cartStore.ts:35-37 | incrementing an absent id changes nothing |
| CartStore.AddTotal | src/store/cartStore.ts:30-39 | merging into an existing line raises the total by the stored price times the added quantity |
| CartStore.IncrementTotal | src/store/cartStore.ts:35-37 | incrementing a line raises the total by its price times `delta` |
| CartStore.AddNewTotal | src/store/cartStore.ts:41 | appending a new line raises the total by its price times its quantity |
| CartStore.RepeatedAdds | src/store/cartStore.ts:30-42 | any sequence of adds of one id leaves one line holding the sum of the added quantities |
| CartStore.RemovePresent | src/store/cartStore.ts:44-46 | with unique ids, removing a line's id deletes exactly that line |
| CartStore.RemoveAbsent | src/store/cartStore.ts:44-46 | removing an absent id leaves the cart unchanged |
| CartStore.TailUnique | src/store/cartStore.ts:30-42 | the lines after the first have unique ids, none equal to the first id |
| CartStore.RemoveKeepsUnique | src/store/cartStore.ts:44-46 | removing keeps ids unique |
| CartStore.RemoveKeepsPositive | src/store/cartStore.ts:44-46 | removing keeps quantities positive |
| CartStore.UpdateNonPositiveIsRemove | src/store/cartStore.ts:49-53 | an update to zero or less is the same as removing the id |
| CartStore.UpdatePositive | src/store/cartStore.ts:55-59 | a positive update sets that line's quantity, touches nothing else, is a no-op for an absent id, and keeps both invariants |
| CartStore.DecrementLastUnitRemoves | src/components/CartSidebar.tsx:42 | the panel's "-" button on a line with one unit removes exactly that line |
| CartStore.FoldsBasics | src/store/cartStore.ts:64-70 | both folds are 0 on the empty cart, and with positive quantities the unit count is at least the number of lines |
| CartStore.FoldsNonNegative | src/store/cartStore.ts:64-70 | with no negative price or quantity neither the total nor the unit count is negative |
| CartStore.CountExample | src/store/cartStore.ts:68-70 | two units of one product plus three of another count as five |
| CartStore.UniqueLinesWith | src/store/cartStore.ts:30-42 | with unique ids an id is on at most one line |
| CartStore.Cart.constructor | src/store/cartStore.ts:27-28 | the store starts with no lines and the panel closed |
| CartStore.Cart.AddToCart | src/store/cartStore.ts:30-42 | the lines become the add of the item, the panel flag is unchanged, and both invariants are kept |
| CartStore.Cart.RemoveFromCart | src/store/cartStore.ts:44-46 | the lines become the removal of the id, the panel flag is unchanged, and both invariants are kept |
| CartStore.Cart.UpdateQuantity | src/store/cartStore.ts:48-60 | the lines become the update (removal at zero or less), the panel flag is unchanged, and both invariants are kept |
| CartStore.Cart.ToggleCart | src/store/cartStore.ts:62 | the panel flag flips and the lines are unchanged |
| CartStore.Cart.ClearCart | src/store/cartStore.ts:72 | the lines are emptied and the panel flag is unchanged |
| CartStore.Cart.GetCartTotal | src/store/cartStore.ts:64-66 | the total of an empty cart is 0 |
| CartStore.Cart.GetCartItemCount | src/store/cartStore.ts:68-70 | the unit count of an empty cart is 0, and is at least the line count when quantities are positive |
| CartStore.ToggleTwice | src/store/cartStore.ts:62 | toggling twice restores the panel flag and never touches the lines |
| Checkout.GroupOf | src/pages/Checkout.tsx:40-52 | a zone is found exactly for the mapped wilaya names, and is one of 1..4 |
| Checkout.Tariff | src/pages/Checkout.tsx:35-38 | every zone's price is at least 350, and a missing zone costs 0 |
| Checkout.FindIgnoringCase | src/pages/Checkout.tsx:75-76 | a match is a key equal to the name ignoring case; nothing is found exactly when no key matches |
| Checkout.ShippingCost | src/pages/Checkout.tsx:66-88 | no selection costs 0, a mapped wilaya costs its zone's tariff, and every cost is 0 or at least 350 |
| Checkout.DropdownCovered | src/pages/Checkout.tsx:22-52 | every wilaya offered in the drop-down is in the zone map |
| Checkout.MappedCost | src/pages/Checkout.tsx:67-72 | a mapped wilaya costs its zone's tariff, at least 350 |
| Checkout.DropdownShippingAtLeast350 | src/pages/Checkout.tsx:66-88 | any wilaya chosen from the drop-down costs at least 350 |
| Checkout.OranDomicile | src/pages/Checkout.tsx:37-44 | Oran (zone 2) with home delivery costs 600 |
| Checkout.AdrarBureau | src/pages/Checkout.tsx:36-48 | Adrar (zone 4) with pick-up costs 750 |
| Checkout.AlgerDomicile | src/pages/Checkout.tsx:37-41 | Alger (zone 1) with home delivery costs 600 |
| Checkout.UnmappedCost | src/pages/Checkout.tsx:73-87 | no selection costs 0; an unmapped name costs its case-insensitive match's tariff, or 0 when nothing matches |
| Checkout.CostIsACell | src/pages/Checkout.tsx:66-88 | the shipping cost is 0 or one cell of the tariff table |
| Checkout.ScreenFor | src/pages/Checkout.tsx:136 | the order form is shown exactly when the cart has lines |
| Checkout.CheckoutPage.constructor | src/pages/Checkout.tsx:55-59 | empty name, phone and selection, home delivery, cost 0, consistent with the effect |
| Checkout.CheckoutPage.RecomputeShipping | src/pages/Checkout.tsx:66-88 | after the effect the stored cost is the lookup's cost for the current selection and type, the inputs unchanged |
| Checkout.CheckoutPage.SelectWilaya | src/pages/Checkout.tsx:57-88 | choosing a wilaya stores it and re-runs the cost effect |
| Checkout.CheckoutPage.SetLivraisonType | src/pages/Checkout.tsx:58-88 | choosing a delivery type stores it and re-runs the cost effect |
| Checkout.CheckoutPage.OrderTotal | src/pages/Checkout.tsx:90-91 | the order total is the cart total plus the shipping cost of the current selection |
| Checkout.CheckoutPage.HandleOrderSubmit | src/pages/Checkout.tsx:98-134 | no wilaya gives an error and no order; otherwise the record copies the form, the cost, the cart total plus cost and the lines, with status "en attente"; only a successful insert clears the cart |
| Checkout.SnapshotItems | src/pages/Checkout.tsx:114-120 | the order's lines are a field-by-field copy of the cart lines |
| Checkout.OranExample | src/pages/Checkout.tsx:90-91 | two units at 1000 delivered home to Oran total 2600 |
| ProductForm.BlobCount | src/pages/adminstrator/components/ProductForm.tsx:95 | the number of `blob:` previews is at most the number of previews |
| ProductForm.StoredUrls | src/pages/adminstrator/components/ProductForm.tsx:125 | the kept URLs are exactly the non-`blob:` previews, and with the blobs they account for every preview |
| ProductForm.NonEmpty | src/pages/adminstrator/components/ProductForm.tsx:59 | `filter(Boolean)` keeps exactly the non-empty URLs |
| ProductForm.WithoutIndex | src/pages/adminstrator/components/ProductForm.tsx:92 | filtering out an index in range drops exactly that position; an index out of range changes nothing |
| ProductForm.BlobCountAppend | src/pages/adminstrator/components/ProductForm.tsx:83-125 | blob count and kept URLs are additive over concatenation |
| ProductForm.NoBlobs | src/pages/adminstrator/components/ProductForm.tsx:125 | with no blob previews every preview is kept |
| ProductForm.AllBlobs | src/pages/adminstrator/components/ProductForm.tsx:84-85 | new previews are all blobs, so none is kept as a stored URL |
| ProductForm.SplitAtStored | src/pages/adminstrator/components/ProductForm.tsx:125-132 | when blobs come last, the previews are the stored URLs followed by the blobs |
| ProductForm.FirstBlob | src/pages/adminstrator/components/ProductForm.tsx:125 | the position of the first blob preview, with only stored URLs before it |
| ProductForm.SubmitUrlsMatchPreviews | src/pages/adminstrator/components/ProductForm.tsx:121-132 | the merged URL list lines up with the previews: a stored URL stays, each blob is replaced by its file's upload |
| ProductForm.ThumbnailFollowsImage | src/pages/adminstrator/components/ProductForm.tsx:99-103 | removing another image keeps the thumbnail index on the same image |
| ProductForm.RemoveBlobKeepsPairing | src/pages/adminstrator/components/ProductForm.tsx:90-96 | removing a blob preview drops one blob, and its file index is in range; removing a stored URL keeps the blob count |
| ProductForm.RemoveKeepsConsistent | src/pages/adminstrator/components/ProductForm.tsx:89-104 | removing an image keeps files paired with blob previews, blobs last, and the thumbnail in range |
| ProductForm.AddKeepsConsistent | src/pages/adminstrator/components/ProductForm.tsx:83-85 | appending new files with their blob previews keeps the editor consistent |
| ProductForm.EditInitConsistent | src/pages/adminstrator/components/ProductForm.tsx:59-62 | loading a stored product gives a consistent editor whose first preview is its thumbnail |
| ProductForm.SplitThumbnail | src/pages/adminstrator/components/ProductForm.tsx:140-141 | the thumbnail and the other URLs partition the merged list |
| ProductForm.ProductEditor.constructor | src/pages/adminstrator/components/ProductForm.tsx:38-46 | an empty form with no images and thumbnail 0 |
| ProductForm.ProductEditor.ResetForm | src/pages/adminstrator/components/ProductForm.tsx:69-74 | empties every field and image list and sets the thumbnail to 0 |
| ProductForm.ProductEditor.LoadForEdit | src/pages/adminstrator/components/ProductForm.tsx:52-62 | copies the product's fields, price as text, previews from thumbnail and gallery, no files, thumbnail 0 |
| ProductForm.ProductEditor.HandleFileChange | src/pages/adminstrator/components/ProductForm.tsx:76-87 | files are accepted exactly when the total stays within 5; accepted files and previews are appended, rejected ones change nothing |
| ProductForm.ProductEditor.RemoveImage | src/pages/adminstrator/components/ProductForm.tsx:89-104 | drops the preview, drops the matching file only for a blob, moves the thumbnail as the source does, and keeps consistency |
| ProductForm.ProductEditor.SetThumbnail | src/pages/adminstrator/components/ProductForm.tsx:46 | stores the index and changes nothing else |
| ProductForm.ProductEditor.Submit | src/pages/adminstrator/components/ProductForm.tsx:121-150 | a failed upload aborts; no image at all is refused; otherwise the thumbnail is the chosen image of the merged list and the gallery is the rest |
| Catalog.ToCatalog | src/pages/ProductCatalog.tsx:43-46 | a card copies the row's id, name, price, description and category, and its image is empty or one of the row's stored URLs |
| Catalog.Visible | src/pages/ProductCatalog.tsx:53-66 | the filtered list is no longer than the loaded one, holds only loaded products, and only of the selected category unless "Tous" |
| Catalog.VisibleIsFilter | src/pages/ProductCatalog.tsx:53-66 | the two successive filters equal one filter by "matches the query and the category" |
| Catalog.VisibleMembers | src/pages/ProductCatalog.tsx:53-66 | a shown product is a loaded one matching query and category; every matching product is shown |
| Catalog.VisibleOrder | src/pages/ProductCatalog.tsx:53-66 | shown products keep the loaded order; an empty query with "Tous" shows everything |
| Catalog.SearchIgnoresQueryCase | src/pages/ProductCatalog.tsx:58 | the search gives the same result for a query and its lowercase form |
| Catalog.Page | src/pages/ProductCatalog.tsx:71-73 | a page holds only products of the list, at most 9 of them for page numbers from 1 |
| Catalog.TotalPages | src/pages/ProductCatalog.tsx:74 | the page count is the ceiling of length / 9: enough pages, no empty last page, zero only for no products |
| Catalog.PageWindow | src/pages/ProductCatalog.tsx:71-73 | page p (from 1) shows at most 9 products, exactly positions 9(p-1) up to 9p |
| Catalog.PagesPrefix | src/pages/ProductCatalog.tsx:71-73 | the first k pages concatenated are the first 9k products |
| Catalog.PagesCoverList | src/pages/ProductCatalog.tsx:71-74 | the pages up to the page count together are exactly the filtered list |
| Catalog.PageBeyondLast | src/pages/ProductCatalog.tsx:71-74 | a page past the last one is empty |
| Catalog.CatalogPage.constructor | src/pages/ProductCatalog.tsx:24-30 | no products, category "Tous", empty query, page 1 |
| Catalog.CatalogPage.ApplyFilters | src/pages/ProductCatalog.tsx:53-68 | the effect sets the shown list to the filtered products and goes back to page 1 |
| Catalog.CatalogPage.LoadProducts | src/pages/ProductCatalog.tsx:35-51 | loaded rows are mapped to cards, refiltered and page 1 is shown; a failed fetch changes nothing |
| Catalog.CatalogPage.SetSearchQuery | src/pages/ProductCatalog.tsx:53-68 | a new query refilters and returns to page 1; the same query changes nothing |
| Catalog.CatalogPage.SetCategory | src/pages/ProductCatalog.tsx:53-68 | a new category refilters and returns to page 1; the same category changes nothing |
| Catalog.CatalogPage.Paginate | src/pages/ProductCatalog.tsx:76 | stores the page number and changes nothing else |
| Catalog.CatalogPage.CurrentProducts | src/pages/ProductCatalog.tsx:71-73 | the current page holds at most 9 products, all from the filtered list |
| Catalog.AddFromCatalog | src/pages/ProductCatalog.tsx:81-89 | adds one unit of the card's product, so the unit count and its quantity rise by one |
| ProductDetail.BenefitsAsWritten | src/pages/ProductDetail.tsx:70-82 | the value stored as written is an array, or, for a non-empty benefits string, whatever `JSON.parse` returned |
| ProductDetail.RenderThrows | src/pages/ProductDetail.tsx:271-277 | the benefits render throws when the guard `benefits && benefits.length > 0` passes and then `map` is missing (a string or an object) or an item is an object React refuses as a child; the cases are listed by RenderThrowsCases |
| ProductDetail.RenderThrowsCases | src/pages/ProductDetail.tsx:271-277 | the render throws exactly for a non-empty string, an object with a positive `length`, or a non-empty array holding an object somewhere; numbers, booleans, null, "" and [] never throw |
| ProductDetail.Rendered | src/pages/ProductDetail.tsx:271-277 | the list shown for a value whose render does not throw: one entry per array item, with the text React shows for it, and nothing when the guard fails |
| ProductDetail.BenefitsAsWrittenCanThrow | src/pages/ProductDetail.tsx:70-82 | a benefits string that parses to a JSON string is kept and reaches the list render, which throws |
| ProductDetail.ObjectWithLengthThrows | src/pages/ProductDetail.tsx:70-82 | a benefits string that parses to an object with a positive `length` is kept, passes the length test and the render throws at `map` |
| ProductDetail.ArrayWithObjectThrows | src/pages/ProductDetail.tsx:70-82 | a benefits string that parses to an array holding an object is kept and the render throws on that item |
| ProductDetail.Texts | src/pages/ProductDetail.tsx:271-277 | an array React can show becomes one text per item, a string array is kept verbatim, and an array with an unshowable item becomes [] |
| ProductDetail.Benefits | src/pages/ProductDetail.tsx:70-82 | benefits are the texts of the stored array or of the parsed array of a non-empty string, and empty in every other case |
| ProductDetail.BenefitsCorrected | src/pages/ProductDetail.tsx:70-82 | the corrected list is what the source's page shows whenever its render does not throw and empty where it throws; the source's render throws exactly for a non-empty string whose parsed value throws or a stored array holding an object |
| ProductDetail.ImageUrls | src/pages/ProductDetail.tsx:87 | a missing gallery becomes the one-element list of the thumbnail; a stored gallery is kept |
| ProductDetail.Normalise | src/pages/ProductDetail.tsx:84-88 | the stored product copies the row's fields, takes the gallery or the thumbnail alone, and holds benefits equal to what the source shows whenever its render does not throw |
| ProductDetail.NormaliseGallery | src/pages/ProductDetail.tsx:84-88 | a product without gallery shows exactly its thumbnail |
| ProductDetail.DisabledIffOutOfStock | src/pages/ProductDetail.tsx:230-264 | the add button is disabled exactly when the badge says out of stock; an unknown stock counts as in stock |
| ProductDetail.ShowsOriginalPrice | src/pages/ProductDetail.tsx:217 | the old price is shown only when that price is present and above the price |
| ProductDetail.OriginalPriceShownIffHigher | src/pages/ProductDetail.tsx:217 | for a non-negative price the old price is shown exactly when it is present and higher |
| ProductDetail.DetailPage.constructor | src/pages/ProductDetail.tsx:34-37 | no product and quantity 1 |
| ProductDetail.DetailPage.LoadProduct | src/pages/ProductDetail.tsx:69-89 | a fetched row is stored normalised with the corrected benefits, which equal what the source shows whenever its render does not throw; no row keeps the previous product; the quantity is unchanged |
| ProductDetail.DetailPage.Decrement | src/pages/ProductDetail.tsx:246 | the quantity drops by one but never below 1 |
| ProductDetail.DetailPage.Increment | src/pages/ProductDetail.tsx:255 | the quantity rises by one |
| ProductDetail.DetailPage.HandleAddToCart | src/pages/ProductDetail.tsx:97-112 | without a product nothing happens; otherwise the chosen quantity of the product is added, keeping the cart invariants |
| ProductDetail.StepDownUp | src/pages/ProductDetail.tsx:246-255 | "-" then "+" restores any quantity above 1, and takes 1 to 2 |
| ProductGrid.ToGrid | src/components/ProductGrid.tsx:46-55 | a card copies id, name and price, never has an empty category, keeps a non-empty one, shows a stored image or none, and sets no flag |
| ProductGrid.MapRows | src/components/ProductGrid.tsx:46-55 | one card per row, in the rows' order |
| ProductGrid.MapRowsSpec | src/components/ProductGrid.tsx:46-55 | each card copies id, name and price, has category "Autres" when the row has none, the image fallback, and no flags |
| ProductGrid.FilterSpec | src/components/ProductGrid.tsx:93-101 | "Tous" shows everything; another category shows exactly its products; order is kept |
| ProductGrid.UncategorisedOnlyUnderAll | src/components/ProductGrid.tsx:93-101 | a product without category shows under "Tous" and under no named tab |
| ProductGrid.AddFromGrid | src/components/ProductGrid.tsx:106-119 | adds one unit of the card's product, so the unit count and its quantity rise by one |
| AdminProducts.SearchProducts | src/pages/adminstrator/pages/Products.tsx:37-46 | the search keeps the list for an empty term, and otherwise returns only listed products matching the term |
| AdminProducts.SearchSpec | src/pages/adminstrator/pages/Products.tsx:37-46 | an empty term lists everything; otherwise exactly the products matching name, description or category, in order |
| AdminProducts.SearchFindsName | src/pages/adminstrator/pages/Products.tsx:40 | a product whose name contains the term, ignoring case, is listed, also for the lowercased term |
| AdminProducts.ProductsPage.constructor | src/pages/adminstrator/pages/Products.tsx:24-29 | no products, empty term, both dialogs closed, nothing selected |
| AdminProducts.ProductsPage.FetchProducts | src/pages/adminstrator/pages/Products.tsx:48-58 | fetched rows replace the list and are refiltered; an error changes nothing |
| AdminProducts.ProductsPage.SetSearchTerm | src/pages/adminstrator/pages/Products.tsx:37-46 | a new term refilters; the same term changes nothing |
| AdminProducts.ProductsPage.OpenEditDialog | src/pages/adminstrator/pages/Products.tsx:80-83 | selects the product and opens the form |
| AdminProducts.ProductsPage.OpenAddDialog | src/pages/adminstrator/pages/Products.tsx:85-88 | clears the selection and opens the form |
| AdminProducts.ProductsPage.OpenDeleteDialog | src/pages/adminstrator/pages/Products.tsx:90-93 | selects the product and opens the delete dialog |
| AdminProducts.ProductsPage.HandleDeleteProduct | src/pages/adminstrator/pages/Products.tsx:60-78 | nothing selected is a no-op; a failed delete keeps the state; a success refetches, closes the dialog and clears the selection |
| Orders.ParseStatus | src/pages/adminstrator/pages/Orders.tsx:119-125 | a parsed status has exactly the chosen value |
| Orders.StatusOptionsComplete | src/pages/adminstrator/pages/Orders.tsx:36-43 | the select offers the three statuses once each, and values and statuses correspond one to one |
| Orders.SetStatus | src/pages/adminstrator/pages/Orders.tsx:71 | orders with the id get the new status, all others are unchanged, length kept |
| Orders.SetStatusTwice | src/pages/adminstrator/pages/Orders.tsx:71 | two status changes of one order equal the last one |
| Orders.SetSameStatus | src/pages/adminstrator/pages/Orders.tsx:71 | setting an order to its own status changes nothing |
| Orders.LineAmount | src/pages/adminstrator/pages/Orders.tsx:220 | the amount shown for one order line; LineAmountsAddUp relates it to the cart total |
| Orders.SumAmounts | src/pages/adminstrator/pages/Orders.tsx:218-220 | the sum of the line amounts shown for an order; LineAmountsAddUp proves it equals the cart total |
| Orders.LineAmountsAddUp | src/pages/adminstrator/pages/Orders.tsx:218-220 | the line amounts shown in the order details add up to the cart total the order was built from |
| Orders.OrdersPage.constructor | src/pages/adminstrator/pages/Orders.tsx:46 | no orders |
| Orders.OrdersPage.FetchOrders | src/pages/adminstrator/pages/Orders.tsx:50-66 | fetched orders replace the list; an error keeps it |
| Orders.OrdersPage.HandleStatusChange | src/pages/adminstrator/pages/Orders.tsx:68-85 | the optimistic list is the status change; it stays on success and reverts to the old list on error |
| Analytics.Occurrences | src/pages/adminstrator/pages/Analytics.tsx:51-54 | the count of a category is at most the number of products |
| Analytics.SumOverOther | src/pages/adminstrator/pages/Analytics.tsx:53 | changing a key outside the list leaves the list's sum alone |
| Analytics.SumOverBump | src/pages/adminstrator/pages/Analytics.tsx:53 | bumping one listed key raises the sum by one |
| Analytics.ZeroedSpec | src/pages/adminstrator/pages/Analytics.tsx:50 | seeding the fallback names gives those keys in order, each at 0 |
| Analytics.FallbackDistinct | src/pages/adminstrator/pages/Analytics.tsx:9-15 | the five fallback names are distinct |
| Analytics.AppendDistinct | src/pages/adminstrator/pages/Analytics.tsx:53 | appending a new key keeps the keys distinct |
| Analytics.TallyWellFormed | src/pages/adminstrator/pages/Analytics.tsx:52-53 | counting one product keeps the histogram well formed, adds one to its sum, and keeps the key order |
| Analytics.CountAll | src/pages/adminstrator/pages/Analytics.tsx:49-54 | the histogram after both loops; its meaning is stated by CountAllShape, CountAllPrefix, CountAllKeys and CountAllCounts |
| Analytics.CountAllShape | src/pages/adminstrator/pages/Analytics.tsx:49-54 | the histogram is well formed and its values add up to the number of products |
| Analytics.CountAllPrefix | src/pages/adminstrator/pages/Analytics.tsx:50-55 | the histogram starts with the five fallback names in order |
| Analytics.PrefixKept | src/pages/adminstrator/pages/Analytics.tsx:53 | inserting a key keeps every earlier key in place |
| Analytics.CountAllKeys | src/pages/adminstrator/pages/Analytics.tsx:49-54 | the keys are the fallback names plus the products' categories ("Non catégorisé" for none) |
| Analytics.CountAllCounts | src/pages/adminstrator/pages/Analytics.tsx:49-54 | each key's value is the number of products in it |
| Analytics.CountCategories | src/pages/adminstrator/pages/Analytics.tsx:49-55 | the two loops build the histogram: fallback names first, keys in insertion order, counts per category, summing to the product count |
| Analytics.BucketIn | src/pages/adminstrator/pages/Analytics.tsx:52 | every product's bucket is among the products' buckets and is a key of the histogram |
| Analytics.OccurrencesAbsent | src/pages/adminstrator/pages/Analytics.tsx:52-53 | a name no product falls into has count 0 |
| Analytics.TotalCategoriesSpec | src/pages/adminstrator/pages/Analytics.tsx:57 | the distinct-category count ignores missing categories, only counts histogram keys, and is at most the product count |
| Analytics.CardinalityAtMostLength | src/pages/adminstrator/pages/Analytics.tsx:57 | there are at most as many distinct categories as products |
| Analytics.ActivityOf | src/pages/adminstrator/pages/Analytics.tsx:79-81 | an activity keeps the order's customer and date, and names a non-empty product: the first item's name or the fallback "un produit" |
| Analytics.RecentActivities | src/pages/adminstrator/pages/Analytics.tsx:78-82 | at most the five first orders, each with its customer, its date and its first item's name, or "un produit" when there is no item or its name is empty |

## Left out

- Database access is not modelled. Every fetch, insert, update, delete and upload
  becomes a parameter carrying its outcome (`Option` rows, a success flag). The
  order in which the database returns rows is therefore an input.
- The cart store's persistence to browser storage is not modelled. It only
  mirrors the state.
- Prices entered in the product form stay text: `ProductData.priceText` stands
  for the value `parseFloat` would read. Floating point is not modelled, and
  prices are integers throughout.
- The discount percentage shown beside an old price (`Math.round` of a ratio)
  is floating point and is not modelled.
- `JSON.parse` is a parameter of type `Parser`. A thrown parse error is the
  `None` result.
- The analytics page's order count (`orders.length`, src/pages/adminstrator/pages/Analytics.tsx:66)
  is the length of the fetched order rows, the same list `Analytics.RecentActivities` takes. It has
  no member of its own.
- Month names, locale formatting and the monthly order chart of the analytics
  page are not modelled. They depend on the clock and the locale.
- Object URLs, generated upload file names and the `Promise.all` over uploads
  are not modelled. `HandleFileChange` receives the new previews, and `Submit`
  receives either all uploaded URLs or `None` when any upload failed.
- Admin login, the route guard, the dashboard shell, and the view-only
  components are not part of this model. These are the header, footer, hero,
  testimonials, newsletter, animations and transitions.
- Toasts, navigation, loading flags, the success dialog and the image carousel
  selection have no effect on the modelled state and are left out.
- `Text.Lower` only lowercases ASCII and Latin-1 capitals. That covers every
  wilaya and category name used. Other Unicode case mappings are not modelled.
- Analytics.CountCategories: `Object.entries` lists integer-like keys first.
  The model keeps plain insertion order, which agrees for every non-numeric
  category name.
- The form input setters (`handleInputChange`, the form's `formData` setters)
  only store text and are not modelled separately.
- The analytics page's error path (a failed fetch leaves the fallback chart) is
  not modelled. The functions start from the fetched rows.
- The detail page's redirect when the URL has no id, and its redirect on a fetch
  error, are navigation and are not modelled. `LoadProduct` covers the row (or
  no row) that comes back.
- React batching and concurrent functional updates are not modelled. Each
  handler runs to completion on the state it read.
- Catalog.CatalogPage.Paginate: page buttons only pass page numbers from 1. A
  smaller number is accepted and stored, and then `Slice` follows JavaScript's
  negative-index rule. Still, `CurrentProducts` only promises at most 9
  products for pages from 1.
- ProductDetail.DetailPage.LoadProduct stores the corrected benefits, not the raw `JSON.parse` value the
  source stores. The two differ only where the source's render throws (`RenderThrowsCases`): a parsed
  non-empty string, an object with a positive `length`, or an array holding an object, recorded under
  Findings. Everywhere else the stored list is what the source shows.
- ProductDetail.Json keeps a parsed number as the text JavaScript prints for it, and of a parsed
  object only whether its `length` member compares greater than 0. That is all the guard at
  src/pages/ProductDetail.tsx:271 and the `map` call after it look at; a parsed object never holds a
  function, so its `map` is never callable.
- ProductForm.ProductEditor.Submit requires the editor invariant `Valid()`.
  That means files are paired with blob previews, blobs come last and the
  thumbnail is in range. Every other editor method keeps it. It also requires
  that an upload returns one URL per file. The source has no such check, and
  with a mismatched upload it would index past the list.
- ProductForm.ProductEditor.LoadForEdit ensures `Valid()` only when no stored
  URL of the product starts with `blob:`. Stored URLs are public URLs, so this
  holds for rows the form itself saved.
- ProductForm.ProductEditor.HandleFileChange requires the previews it receives
  to be `blob:` URLs, one per file. This is what `URL.createObjectURL` returns.
- Checkout.CheckoutPage.HandleOrderSubmit ties the stored cost to the lookup
  only under `Valid()`. That is the state after the cost effect has run, which
  every page method restores.

## Findings

| source | as written | input that shows it | evidently intended | confidence | as-written member | corrected member |
|---|---|---|---|---|---|---|
| src/pages/ProductDetail.tsx:70-82 | a `benefits` string is stored as whatever `JSON.parse` returns, even when that is not an array; the render at lines 271-275 then calls `.map` on it | `benefits = "\"Hydrate\""` parses to the string `Hydrate`, which has a length, so the page calls `.map` on a string and the render throws; `"{\"length\":1}"` and `"[{\"a\":1}]"` throw too | keep the parsed value only when it is an array React can show, otherwise show no benefits | not executed | ProductDetail.BenefitsAsWrittenCanThrow | ProductDetail.BenefitsCorrected |
