# Pharmacy storefront: product form stock rule and category table

This project models two parts of a pharmacy e-commerce storefront in Dafny.

**The admin client's product form** (`ProductForm` module, `product_form.dfy`).
Submitting the form runs checks in a fixed order:
1. A blank manufacturer is refused.
2. In create mode, an initial quantity below 1 is refused.
3. In edit mode, a stock level that would end below 1 is refused.

The stock level sent is one of two things:
- create mode: the entered quantity;
- edit mode: the record's `stock_level` with a non-negative adjustment added ("Add") or subtracted (any other operation).

A request is sent only after every check passes: PUT for an edit, POST for a create.

The form itself is the class `ProductForm.Form`, with one field per piece of component state. Its handlers are methods:
- the number inputs, which normalise with `parseInt(...) || 0` and, for the adjustment, `Math.max(0, ...)`;
- replacing and appending image URL fields;
- submission.

`Validate` is the pure rule behind submission, and the lemmas state its properties. One of them is that no sequence of edit-form submissions can take a stock level of at least 1 below 1.

**The server's category controller** (`Categories` module, `categories.dfy`).
The class `Categories.CategoryStore` holds:
- a map from id to category (name, description, image);
- a counter that hands out fresh ids;
- the product collection, which is only read.

Each controller handler is a method. It returns the HTTP status with a body, or the error status with its message.

Two things about the handlers:
- An update field replaces the stored one only when it is truthy in JavaScript's sense. Absent and `""` keep the old value.
- Name uniqueness is checked only on create. Deletion removes the entry unconditionally: no in-use check and no cascade.

`wrappers.dfy` holds `Option` and JavaScript truthiness for optional strings.

Three behaviours of the code that a reader might not expect:
- Deleting a category that products still use succeeds. There is no in-use check and no cascade.
- A duplicate category name on create gives 400.
- The edit form computes the new stock level in the browser, from the `product` record it was opened with. The server is sent the result, not the adjustment.

The edit form's quantity field starts from `product.quantity` (ProductForm.js line 8). The stock computation reads `product.stock_level` (line 60). Edit mode never reads the quantity field, so the mismatch does not change what is sent. `Product` carries both fields.

A record's `stock_level` has three cases in the model: a number, absent, or `null`.
- Absent: line 60 computes `undefined` plus a number, which is NaN. The floor check at line 67 compares with `<`, which is false for NaN, so the check passes. The PUT then carries `stock_level: null`, because JSON writes NaN as null. The payload's level is `None` in exactly this case.
- `null`: this is what the server holds after such a PUT, if it stores the level as sent. JavaScript's `+` and `-` read `null` as 0. So "Add 3" stores 3, and any "Subtract" is refused by the floor check.

Whenever the payload carries a number, that number is at least 1.

## Model

| member | source | states |
|---|---|---|
| `ProductForm.AdjustedStock` | client/src/components/products/ProductForm.js:58-62 | create mode gives the entered quantity; edit mode gives NaN (None) exactly when the record has no stock level, and otherwise moves the stored level (a stored null read as 0) by exactly `change`, upwards for "Add" and downwards for any other operation when `change` is non-negative |
| `ProductForm.Validate` | client/src/components/products/ProductForm.js:49-80 | a blank manufacturer is refused with "Manufacturer is required." whatever else holds; every request built carries the adjusted level, which is at least 1 whenever it is a number and is null only for a record without a stock level; PUT to the product's id when editing, POST when creating; the other fields pass through unchanged; a refusal carries one of the three messages |
| `ProductForm.CreateMode` | client/src/components/products/ProductForm.js:58-66 | create mode sends a request exactly when quantity is at least 1, with stock level equal to the quantity; below 1 it is refused with "Initial quantity must be at least 1." |
| `ProductForm.UpdateMode` | client/src/components/products/ProductForm.js:58-70 | with a stored number or null (read as 0), edit mode sends a request exactly when stock_level + change ("Add") or stock_level - change (otherwise) is at least 1, carrying that level; below 1 it is refused with "Stock level cannot be reduced below 1."; without a stored level the floor check passes and the request carries null |
| `ProductForm.AddAlwaysAccepted` | client/src/components/products/ProductForm.js:58-70 | from a stored level of at least 1, adding a non-negative amount is always sent, with level stock_level + change |
| `ProductForm.SubtractAcceptedIff` | client/src/components/products/ProductForm.js:58-70 | with a stored number, subtracting is sent if and only if change is at most stock_level - 1 (a null or absent level is covered by `UpdateMode`) |
| `ProductForm.UntouchedCreateRejected` | client/src/components/products/ProductForm.js:64-66 | a new-product draft with quantity 0, the default of line 8, is refused with the quantity message once a manufacturer is set |
| `ProductForm.AddOnValidFormAccepted` | client/src/components/products/ProductForm.js:58-70 | on an edit form whose handlers kept the adjustment non-negative, "Add" from a level of at least 1 is always sent |
| `ProductForm.ParsedOrZero` | client/src/components/products/ProductForm.js:157 | the parseInt-or-0 normalisation gives the parsed number when there is one and 0 for NaN |
| `ProductForm.ClampedChange` | client/src/components/products/ProductForm.js:178 | the adjustment is never negative: the parsed number when it is non-negative, 0 for NaN and for negatives |
| `ProductForm.ErrorAfter` | client/src/components/products/ProductForm.js:90-97 | after a sent request the error text is the generic save-failure message for an exception, the response's `error` field itself when that field is truthy, and "" otherwise; it is non-empty after an answer exactly when `Saved` (onSave runs, lines 90-94) is false |
| `ProductForm.AfterSubmit` | client/src/components/products/ProductForm.js:58-88 | a refused submission leaves the record as it was; an accepted one stores exactly the payload's stock level, a number or null; from a number or null the result is either unchanged or a number of at least 1; from an absent level it is either unchanged or null |
| `ProductForm.EditsKeepFloor` | client/src/components/products/ProductForm.js:58-80 | a numeric stock level of at least 1 stays a number of at least 1 through any sequence of edit-form submissions |
| `ProductForm.Operand` | client/src/components/products/ProductForm.js:60-61 | the number `+` and `-` read from a stored level: the number itself, 0 for null, NaN (None) exactly when the level is absent |
| `ProductForm.MissingLevelScenario` | client/src/components/products/ProductForm.js:58-80 | from a record with no level, "Add 3" sends null, which is stored; a second "Add 3" then stores 3; a "Subtract" from the stored null is refused with the floor message |
| `ProductForm.StockScenario` | client/src/components/products/ProductForm.js:58-80 | create with 5 gives 5; Add 3 gives 8; Subtract 10 is refused and 8 stays; Subtract 7 gives exactly 1 |
| `ProductForm.Form.constructor` | client/src/components/products/ProductForm.js:5-21 | a new-product form starts blank with quantity 0 and image list `[""]`; an edit form starts from the record, with images `[]` when the record has none; adjustment 0, operation "Add", no error |
| `ProductForm.Form.HandleImageChange` | client/src/components/products/ProductForm.js:39-43 | the image list keeps its length, entry `index` becomes the new value, every other entry is unchanged |
| `ProductForm.Form.AddImageField` | client/src/components/products/ProductForm.js:45-47 | exactly one `""` is appended and all earlier entries are kept |
| `ProductForm.Form.SetQuantity` | client/src/components/products/ProductForm.js:157 | the initial quantity becomes the normalised number |
| `ProductForm.Form.SetQuantityChange` | client/src/components/products/ProductForm.js:178 | the adjustment becomes the clamped number, so it stays non-negative |
| `ProductForm.Form.SetQuantityOperation` | client/src/components/products/ProductForm.js:165-172 | the operation becomes the selected value |
| `ProductForm.Form.SetManufacturer` | client/src/components/products/ProductForm.js:127-138 | the manufacturer becomes the selected value, "" for the blank option |
| `ProductForm.Form.HandleSubmit` | client/src/components/products/ProductForm.js:49-98 | a refused draft sends nothing, does not call onSave and shows its message; otherwise the request that `Validate` builds is sent; `onSave` runs exactly when `Saved` holds, that is when the reply is an answer with no truthy `error` field; the error text follows the reply; no other field changes |
| `Categories.Merge` | server/controllers/categoryController.js:37-39 | each of name, description and image takes the supplied value when it is truthy and keeps the stored one otherwise |
| `Categories.ProductsIn` | server/controllers/categoryController.js:69-72 | a product is in the result if and only if it is in the collection and filed under the id; each product filed under the id occurs as often as in the collection and no other occurs; the result keeps the collection's order (a subsequence); it is no longer than the collection |
| `Categories.CreateKeepsUniqueNames` | server/controllers/categoryController.js:12-27 | creating under a name no category has, at an unused id, keeps names unique |
| `Categories.UpdateCanDuplicateName` | server/controllers/categoryController.js:31-42 | renaming one category to another's non-empty name leaves two categories with the same name: update does not preserve uniqueness |
| `Categories.UpdateIdempotent` | server/controllers/categoryController.js:37-42 | applying the same update twice gives the same table as applying it once |
| `Categories.CategoryStore.GetCategories` | server/controllers/categoryController.js:6-9 | returns every stored record with its id, each exactly once, and nothing else |
| `Categories.CategoryStore.CreateCategory` | server/controllers/categoryController.js:12-28 | a taken name, one that `NameTaken` finds as `findOne({ name })` does, gives 400 "Category already exists" and the table is unchanged; otherwise 201 and the table gains exactly one entry, under an id not in use, holding the given name, description and image, with all other entries unchanged |
| `Categories.CategoryStore.UpdateCategory` | server/controllers/categoryController.js:31-47 | unknown id gives 404 "Category not found" and no change; otherwise 200 with the merged record, which replaces only that entry |
| `Categories.CategoryStore.DeleteCategory` | server/controllers/categoryController.js:50-59 | a known id is removed with 200 "Category removed", with no in-use check; unknown id gives 404 and no change; the products are never modified |
| `Categories.CategoryStore.GetProductsByCategory` | server/controllers/categoryController.js:63-77 | unknown id gives 404; otherwise 200 with exactly the products filed under that id, possibly none |
| `Categories.CategoryStore.GetCategoryById` | server/controllers/categoryController.js:80-88 | the stored record with 200, or 404 "Category not found"; nothing changes |
| `Categories.DeleteInUseExample` | server/controllers/categoryController.js:50-77 | a category still used by a product is deleted with 200, and the product lookup by that id then answers 404 |

## Left out

- Page rendering (ProductForm.js lines 100-217) is not modelled. Neither are the fetches of the category and manufacturer lists (lines 23-37), which only fill the select options.
- The network is a parameter. `HandleSubmit` takes the reply as either an answer whose body may carry an `error` field or a thrown exception. The reply does not depend on the request. The axios instance and its token interceptor (client/src/services/api.js) are not part of this model.
- `parseInt` is a JavaScript builtin. The model takes its result as `Option<int>`, with `None` standing for NaN.
- Numbers are unbounded integers. JavaScript's double-precision numbers, with their loss of precision above 2^53, are not modelled.
- The plain text handlers for name, category, price and description (lines 112, 117, 145, 188) only store the typed text. They are not modelled as methods. Those fields are carried unchanged into the payload.
- `ProductForm.Form.HandleImageChange`: requires an index inside the list. Its only caller passes the index of an existing field. JavaScript would grow a sparse array for a larger index.
- React's batching of state updates is not modelled. Handlers run one at a time and see each other's writes.
- The server's product controller is not part of this model. `AfterSubmit` and `EditsKeepFloor` assume the server stores the payload's stock level as sent.
- Two requests are not modelled running at the same time, so a lost update between them is not captured. The form computes the new level from the record it was opened with.
- Persistence is a map. The model leaves out:
  - ObjectIds, which are natural numbers here;
  - `populate("category", "name")`;
  - schema validation;
  - save failures, which answer 500;
  - a `name` absent from a create request, which is modelled as a string;
  - JSON values in update fields other than strings and absence.
- `Categories.CategoryStore.GetCategories`: returns the records in an unspecified order. The collection's natural order is not modelled.
- The OCR controller (server/controllers/ocrController.js) is an external call to a text-recognition service. It is not part of this model.
