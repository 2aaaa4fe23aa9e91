# Storefront core — a Dafny model

This project models the logic of a single-product storefront for a 3-in-1
power bank charger, written in TypeScript/React. The model covers:

- **Checkout** (the purchase modal):
  - the two-tier price (S/ 159.90, and S/ 149.90 from two units on);
  - the quantity stepper and the typed quantity field, both kept in [1, 5];
  - the cascading department → province → district selectors over the ubigeo tree;
  - the form schema;
  - the submit handler, up to the purchase payload it builds.
- **Purchase hook**: four remote calls, each awaited before the next:
  - create the customer;
  - create the order in state `pending`;
  - link the customer to the order;
  - link the order to the customer.

  The first failure aborts the purchase. The error message is chosen here, and the hook's `loading`/`error` state is kept here.
- **Admin orders table**:
  - the local list updates after a shipping-status change and after a customer edit;
  - the text of the Cliente, Cantidad, Color, Fecha and Envío cells.
- **Customer modal**: view, edit a draft copy, cancel, or save the draft.
- **Colour selector**:
  - the fixed catalog;
  - which swatches are disabled;
  - the click guard;
  - the tooltip;
  - the selected colour's name.
- **Product hook**:
  - the id-over-SKU query choice;
  - the active-variant filter;
  - the per-colour stock lookup and the `hasStock` test.
- **Online-users widget**: the labels each presence row shows and the home-page count.
- **Before/after slider**: the position in [0, 100], moved by mouse drag, click or arrow keys.
- **Top bar**: the looping tickers built from repeated copies of a message list.

Modelling choices:

- Money is kept in integer cents.
- Slider positions are exact reals.
- JavaScript behaviour the code relies on is modelled explicitly:
  - `parseInt`;
  - `includes`;
  - ASCII-only case-insensitive regular expressions;
  - `replace` of the first occurrence;
  - the default string order of `Array.prototype.sort`;
  - truthiness of optional strings.
- Remote calls are inputs, not computations:
  - an outcome per call (`Purchase.Response`, `Domain.RemoteOutcome`);
  - the fetched rows (`ProductCatalog.FetchResult`).
- Clock and layout readings are inputs too:
  - elapsed seconds;
  - the pointer's percentage offset;
  - the measured copy ratio.

Modules: `Options`, `Decimal`, `Strings`, `Domain`, `Pricing`, `Geography`, `Purchase`, `Checkout`,
`CustomerEditor`, `Dashboard`, `ColorSelector`, `ProductCatalog`, `OnlineUsers`,
`ComparisonSlider`, `Ticker`.

## Model

| member | source | states |
|---|---|---|
| Decimal.Text | src/components/ColorSelector.tsx:65 | The printed text of a number is non-empty, all digits, has no leading zero, and reads back as the number. |
| Decimal.TextInjective | src/components/TopBar.tsx:181 | Distinct numbers print differently. |
| Decimal.ParseInt | src/components/PurchaseModal.tsx:665 | `parseInt` is NaN exactly when no digit follows the optional sign. |
| Decimal.ParseText | src/components/PurchaseModal.tsx:665 | Parsing a printed number gives the number back. |
| Decimal.DigitPrefixStops | src/components/PurchaseModal.tsx:665 | Parsing stops at the first non-digit, so trailing text is ignored. |
| Strings.Includes | src/components/OnlineUsersWidget.tsx:80-89 | `includes` holds exactly when the pattern occurs at some index. |
| Strings.UpperIdempotent | src/components/OnlineUsersWidget.tsx:92-93 | Case folding applied twice is the same as once. |
| Strings.IndexOf | src/pages/admin/Dashboard.tsx:32 | Gives the first index of the character; none exactly when the character is absent. |
| Strings.ReplaceFirst | src/pages/admin/Dashboard.tsx:32 | The first occurrence is replaced. Everything before and after it is kept. With no occurrence the string is unchanged. |
| Strings.LeTotal | src/components/PurchaseModal.tsx:111 | The default sort order is total. |
| Strings.LeAntisymmetric | src/components/PurchaseModal.tsx:111 | The default sort order is antisymmetric. |
| Strings.LeTransitive | src/components/PurchaseModal.tsx:111 | The default sort order is transitive. |
| Strings.SortedKeys | src/components/PurchaseModal.tsx:109-112 | `Object.keys(..).sort()` lists every key exactly once, in strictly increasing order. |
| Domain.PaymentWireInjective | src/types/order.ts:25-29 | Distinct payment states are stored as distinct column values. |
| Domain.ShippingWireInjective | src/types/order.ts:31-36 | Distinct shipping states are stored as distinct column values. |
| Pricing.UnitPrice | src/components/PurchaseModal.tsx:125-128 | The unit price is 14990 cents exactly when qty ≥ 2, and 15990 cents exactly when qty < 2. |
| Pricing.QuoteFor | src/components/PurchaseModal.tsx:129-138 | Subtotal = 15990·qty and total = unit·qty. Savings per unit is 1000 from two units on and 0 below. Total savings = subtotal − total, which is never negative. |
| Pricing.QuoteExamples | src/components/PurchaseModal.tsx:125-138 | One unit costs 159.90 and saves nothing. Two cost 299.80 and save 20.00. Five cost 749.50 and save 50.00. |
| Pricing.TotalIncreasing | src/components/PurchaseModal.tsx:125-130 | Despite the price break, more units always cost strictly more. |
| Pricing.Step | src/components/PurchaseModal.tsx:267-273 | Plus gives min(q+1, 5) and minus gives max(q−1, 1) for every q, including a quantity above five from the `initialQuantity` prop. Both keep a quantity in [1, 5]. |
| Pricing.ButtonEnabledIffEffective | src/components/PurchaseModal.tsx:645-678 | Within range, a stepper button is enabled exactly when pressing it changes the quantity. |
| Pricing.StepRoundTrip | src/components/PurchaseModal.tsx:267-273 | Away from the bounds, plus then minus (or minus then plus) returns to the start. |
| Pricing.TypedQuantity | src/components/PurchaseModal.tsx:661-668 | Any text maps into [1, 5]. NaN, 0 and negatives give 1, values above 5 give 5, and values in range are kept. |
| Pricing.TypedQuantityOfText | src/components/PurchaseModal.tsx:661-668 | Typing the digits of an allowed quantity selects it. |
| Pricing.TypedQuantityIdempotent | src/components/PurchaseModal.tsx:660-668 | Re-reading the quantity shown in the field changes nothing. |
| Pricing.TypedQuantityTruncates | src/components/PurchaseModal.tsx:661-668 | "3.7" or "3e2" selects 3: only the integer prefix counts. |
| Geography.DepartmentOptions | src/components/PurchaseModal.tsx:109-112 | Lists every department once, sorted; nothing before the tree is loaded. |
| Geography.ProvinceOptions | src/components/PurchaseModal.tsx:114-117 | Lists exactly the provinces of the selected department, sorted. |
| Geography.DistrictOptions | src/components/PurchaseModal.tsx:119-122 | Lists exactly the districts of the selected province, sorted. |
| Geography.NoProvincesIff | src/components/PurchaseModal.tsx:114-117 | The province list is empty exactly when the department is empty, unknown, or has no provinces. |
| Geography.NoDistrictsIff | src/components/PurchaseModal.tsx:119-122 | The district list is empty exactly when the selection reaches no province that has districts. |
| Checkout.Initial | src/components/PurchaseModal.tsx:73-106 | The form opens with empty name, phone and address fields, quantity `initialQuantity ?? 1`, and the current colour set to the `selectedColor` prop, or "Silvery" when it is not given. |
| Checkout.DepartmentChanged | src/components/PurchaseModal.tsx:275-293 | Sets the region and Departamento and clears the province, Provincia and Distrito. Nothing else changes. |
| Checkout.ProvinceChanged | src/components/PurchaseModal.tsx:295-307 | Sets the province and Provincia and clears Distrito. The department is kept. |
| Checkout.DistrictChanged | src/components/PurchaseModal.tsx:587-590 | Sets only Distrito. |
| Checkout.DepartmentChangeRefreshesOptions | src/components/PurchaseModal.tsx:275-293 | After a department change, the new department's provinces are offered and no districts are. |
| Checkout.ReselectingDepartmentClears | src/components/PurchaseModal.tsx:275-307 | Department, province, district, then another department: the province and district are cleared. |
| Checkout.QuantityStepped | src/components/PurchaseModal.tsx:267-273 | The stepper changes only the quantity. |
| Checkout.QuantityTyped | src/components/PurchaseModal.tsx:661-668 | The typed field changes only the quantity, and keeps it in [1, 5]. |
| Checkout.InitialQuantityChanged | src/components/PurchaseModal.tsx:140-142 | A new `initialQuantity` prop resets only the quantity. |
| Checkout.ColorChosen | src/components/PurchaseModal.tsx:88-90 | The chosen colour replaces only the current colour. |
| Checkout.TextEntered | src/components/PurchaseModal.tsx:427-505 | Typing into the name, surname, phone, address or reference input sets that field. The address selections and the quantity are kept. |
| Checkout.Apply | src/components/PurchaseModal.tsx:508-609 | A department, province or district that its selector does not list cannot be picked, and neither can anything from a hidden district selector; such a pick changes nothing. An offered district is recorded. Every input keeps Distrito empty or one of the offered districts. |
| Checkout.Run | src/components/PurchaseModal.tsx:508-609 | Over any sequence of inputs, Distrito stays empty or one of the offered districts. |
| Checkout.SchemaErrors | src/components/PurchaseModal.tsx:42-57 | The form passes exactly when every field rule holds: names of ≥ 2 chars, a phone of ≥ 9 digits only, an address of ≥ 5, department/province/district non-empty, qty ≥ 1. The district is always required. |
| Checkout.PayloadOf | src/components/PurchaseModal.tsx:164-186 | The payload copies the form fields and the current colour, prices the sale at the tier unit price, and totals it at unit × quantity. |
| Checkout.Submit | src/components/PurchaseModal.tsx:146-186 | The schema's errors come first. A submitted purchase carries exactly the form's payload. |
| Checkout.SubmittedPayloadIsValid | src/components/PurchaseModal.tsx:146-186 | The purchase hook only ever receives a well-formed customer and a correctly priced sale. |
| Checkout.DistrictCheckUnreachable | src/components/PurchaseModal.tsx:146-154 | As written, the handler's own district check never fires. |
| Checkout.ProvinceWithoutDistrictsBlocksSubmit | src/components/PurchaseModal.tsx:51-54 | As written, a province with no districts can never be submitted. In every state reachable from the opened modal where no district is offered, Distrito is empty and its field is hidden, and the schema rejects the form with a Distrito error. |
| Checkout.DistrictlessProvinceExample | src/components/PurchaseModal.tsx:51-54 | A concrete order: valid name, phone and address, department "Lima", and a province "Huaral" with no districts. It reaches a state with the district field hidden. There, the schema reports only Distrito, and the intended rule submits the order. |
| Checkout.IntendedErrors | src/components/PurchaseModal.tsx:51-54 | With the intended rule, the district is required exactly when districts are offered; otherwise the errors are the schema's. |
| Checkout.IntendedSubmit | src/components/PurchaseModal.tsx:146-154 | A submission under the intended rule carries the form's payload. |
| Checkout.IntendedSubmitAcceptsDistrictlessProvince | src/components/PurchaseModal.tsx:146-154 | A province without districts, with the form otherwise complete, is submitted. |
| Checkout.IntendedSubmitAgreesWhenDistrictsExist | src/components/PurchaseModal.tsx:146-154 | Where districts exist, the intended submit behaves exactly like the written one. |
| Purchase.ErrorMessage | src/hooks/usePurchase.ts:139-142 | The error is the backend's message when an HTTP error carries one, otherwise "Error procesando compra". |
| Purchase.RequestFor | src/hooks/usePurchase.ts:86-133 | Each phase issues the request of its own step. |
| Purchase.Advance | src/hooks/usePurchase.ts:93-116 | An answer moves to the next step or ends the run. |
| Purchase.Drive | src/hooks/usePurchase.ts:85-137 | Requests go out in step order, at most one per step. |
| Purchase.Mutate | src/hooks/usePurchase.ts:78-137 | At most four requests, strictly in the fixed order, starting with the customer create. |
| Purchase.AdvanceAccepted | src/hooks/usePurchase.ts:93-133 | An accepted answer at step k moves the run to step k+1 and records the created entity. |
| Purchase.DriveIssuesPlan | src/hooks/usePurchase.ts:85-133 | From any step, the requests issued are the rest of the plan, built from the created documentIds. |
| Purchase.DriveFailure | src/hooks/usePurchase.ts:138-146 | A failed run stopped at the first rejected answer, with that answer's message. |
| Purchase.DriveSuccess | src/hooks/usePurchase.ts:135-137 | A run succeeds exactly when every remaining step accepts its answer, and its result holds the created entities. |
| Purchase.DriveInFlight | src/hooks/usePurchase.ts:82-83 | A pending run has had every answer accepted and awaits exactly one more. |
| Purchase.MutateIssuesPlan | src/hooks/usePurchase.ts:100-133 | The order body is the sale plus `state: "pending"`. The links use exactly the documentIds the creates returned. |
| Purchase.MutateAbortsAtFirstFailure | src/hooks/usePurchase.ts:138-149 | A failure at step k means: no later request is issued; `mutate` resolves to null; `onError` runs and `onSuccess` does not; `error` is the answer's message; `loading` is false. |
| Purchase.MutateSucceedsIff | src/hooks/usePurchase.ts:135-137 | Success happens exactly when all four steps accept. Then `onSuccess` runs once with the created customer and sale, that value is returned, and the error is cleared. |
| Purchase.MutatePending | src/hooks/usePurchase.ts:82-83 | While a call is outstanding, `loading` is true, `error` is null and no callback has run. |
| Purchase.MutateSettles | src/hooks/usePurchase.ts:147-149 | Once all answers are in, `loading` is false and the promise has resolved. |
| CustomerEditor.SyncUser | src/components/CustomerModal.tsx:37-41 | A given customer prop becomes the displayed customer; a null prop changes nothing. |
| CustomerEditor.Edit | src/components/CustomerModal.tsx:45-48 | The draft starts as a copy of the displayed customer, or of the prop. |
| CustomerEditor.Cancel | src/components/CustomerModal.tsx:50-53 | Drops the draft and leaves edit mode; the displayed customer is kept. |
| CustomerEditor.EditKeepsShown | src/components/CustomerModal.tsx:109 | Entering edit mode does not change the customer on screen. |
| CustomerEditor.EditCancelRestores | src/components/CustomerModal.tsx:45-53 | Edit followed by cancel restores the modal's state. |
| CustomerEditor.Set | src/components/CustomerModal.tsx:106 | `{ ...c, [f]: v }` sets field f to v and keeps every other field. |
| CustomerEditor.FieldsDetermineCustomer | src/types/customer.ts:1-12 | Customers that agree on every field are equal. |
| CustomerEditor.InputChange | src/components/CustomerModal.tsx:104-107 | Typing changes only that field of the draft; without a draft nothing happens. |
| CustomerEditor.InputChangeOverwrites | src/components/CustomerModal.tsx:104-107 | The last value typed into a field wins. |
| CustomerEditor.BodyOf | src/components/CustomerModal.tsx:70-79 | The update writes the eight editable columns from the draft. |
| CustomerEditor.BodyIgnoresIdAndDni | src/components/CustomerModal.tsx:70-79 | The update body never depends on the id or the DNI. |
| CustomerEditor.BeginSave | src/components/CustomerModal.tsx:55-66 | Without a draft nothing happens. Without a prop id no call is made. Otherwise the update is sent to the prop's id, with loading set. |
| CustomerEditor.FinishSave | src/components/CustomerModal.tsx:83-101 | Success shows and reports the captured draft and leaves edit mode. Failure keeps everything. Loading ends false either way. |
| CustomerEditor.Save | src/components/CustomerModal.tsx:55-101 | A save with a draft and an id sends exactly one update and ends not loading; otherwise nothing happens. |
| CustomerEditor.SaveSuccessShowsDraft | src/components/CustomerModal.tsx:88-95 | After success the draft is shown and passed to `onUpdate`, and edit mode ends. |
| CustomerEditor.SaveFailureKeepsDraft | src/components/CustomerModal.tsx:96-101 | After failure the draft stays on screen and edit mode continues. |
| CustomerEditor.EditsDuringSaveAreDropped | src/components/CustomerModal.tsx:92-95 | Typing during an in-flight save is lost: the draft captured at "Guardar" is what ends up displayed. |
| Dashboard.MapOrders | src/pages/admin/Dashboard.tsx:69-71 | `map` keeps the length and transforms each row in place. |
| Dashboard.UpdateEnvio | src/pages/admin/Dashboard.tsx:67-72 | Rows with the id get the new shipping status and nothing else changes. Every other row is unchanged. |
| Dashboard.UpdateEnvioIgnoresRemote | src/pages/admin/Dashboard.tsx:67-72 | The local list update does not depend on the database's answer. |
| Dashboard.UpdateEnvioIdempotent | src/pages/admin/Dashboard.tsx:67-72 | Choosing the same status twice is choosing it once. |
| Dashboard.UpdateEnvioCommutes | src/pages/admin/Dashboard.tsx:67-72 | Status changes to different orders commute. |
| Dashboard.HandleUserUpdate | src/pages/admin/Dashboard.tsx:74-83 | Rows whose customer id matches the updated customer's id carry the updated customer; all other rows are unchanged. |
| Dashboard.HandleUserUpdateKeepsStatuses | src/pages/admin/Dashboard.tsx:74-83 | A customer edit keeps every row's id, payment and shipping state. |
| Dashboard.SavedCustomerReachesRows | src/pages/admin/Dashboard.tsx:219-224 | After a successful save in the customer modal, every row of that customer shows the saved draft. |
| Dashboard.SumUnitsAppend | src/pages/admin/Dashboard.tsx:151-154 | The summed quantity of two item lists is the sum of their sums. |
| Dashboard.SumOfSingleUnits | src/pages/admin/Dashboard.tsx:151-154 | With one unit per item, the quantity equals the item count. |
| Dashboard.SumBoundsEachItem | src/pages/admin/Dashboard.tsx:151-154 | With non-negative quantities, the total is at least each item's quantity. |
| Dashboard.SumNonNegative | src/pages/admin/Dashboard.tsx:151-154 | Non-negative quantities add up to a non-negative total. |
| Dashboard.QuantityCellOf | src/pages/admin/Dashboard.tsx:148-156 | A dash exactly when the items are missing or empty, else the summed quantities. |
| Dashboard.ColorCellOf | src/pages/admin/Dashboard.tsx:161-166 | A dash; the only colour; or the first colour, " +", and the count of the others. |
| Dashboard.ColorCellCountsOthers | src/pages/admin/Dashboard.tsx:165 | The number after " +" reads back as the count of the other items. |
| Dashboard.CustomerCellOf | src/pages/admin/Dashboard.tsx:104-123 | "Sin usuario" exactly when there is no customer, else a link to that customer labelled with the full name. |
| Dashboard.ShippingOptionsComplete | src/pages/admin/Dashboard.tsx:204-210 | The dropdown offers every shipping status exactly once. |
| Dashboard.StatusCellOf | src/pages/admin/Dashboard.tsx:190-213 | Nothing exactly when the order has no id, else a dropdown preset to its status. |
| Dashboard.NormalizeTimestamp | src/pages/admin/Dashboard.tsx:29-32 | The first space becomes 'T' and a 'Z' is appended; everything else is kept. |
| Dashboard.NormalizeTimestampInvertible | src/pages/admin/Dashboard.tsx:32 | Dropping the 'Z' and restoring the space gives back the input. |
| Dashboard.DateCellInput | src/pages/admin/Dashboard.tsx:171-179 | A dash exactly when there is no creation time, else the normalised timestamp. |
| ColorSelector.CatalogValues | src/components/ColorSelector.tsx:17-22 | There are four catalog colours: White, Gray, Black and Silvery, with distinct values. |
| ColorSelector.NoPropsNothingDisabled | src/components/ColorSelector.tsx:36-42 | Without the optional props no swatch is disabled. |
| ColorSelector.Click | src/components/ColorSelector.tsx:48-49 | A click passes nothing exactly when the swatch is disabled, else passes its own value. |
| ColorSelector.Title | src/components/ColorSelector.tsx:61-67 | "name - Sin stock" when disabled; "name - Stock: n" with n > 0 when the stock is known; else the name. |
| ColorSelector.TitleStockReadsBack | src/components/ColorSelector.tsx:65 | The stock in the tooltip reads back as the stock. |
| ColorSelector.Find | src/components/ColorSelector.tsx:94 | `find` returns the first colour with the value, and nothing exactly when none has it. |
| ColorSelector.SelectedName | src/components/ColorSelector.tsx:91-96 | Shows the catalog name of the selected value, or nothing when the value is not in the catalog. |
| ProductCatalog.QueryFilter | src/hooks/useProduct.ts:22-27 | A truthy id wins; else a truthy SKU; else no filter. |
| ProductCatalog.ActiveOnly | src/hooks/useProduct.ts:35-40 | Keeps exactly the active variants. |
| ProductCatalog.ActiveOnlyAppend | src/hooks/useProduct.ts:37-39 | Filtering distributes over concatenation, so order is kept. |
| ProductCatalog.ActiveOnlyIdempotent | src/hooks/useProduct.ts:37-39 | Filtering twice is filtering once. |
| ProductCatalog.AfterFetch | src/hooks/useProduct.ts:29-49 | An error clears the product and sets the error's message, or "Error al cargar el producto" for a non-Error. Success keeps the product with only its active variants. Loading ends false. |
| ProductCatalog.FindActive | src/hooks/useProduct.ts:61-63 | Finds the first active variant of the colour; none exactly when there is no such variant. |
| ProductCatalog.StockByColor | src/hooks/useProduct.ts:57-68 | 0 without a product, variants or a matching active variant; else the first match's stock. |
| ProductCatalog.FindActiveIgnoresInactive | src/hooks/useProduct.ts:61-63 | The lookup gives the same answer on the filtered and the raw variant lists. |
| ProductCatalog.StockUnaffectedByFilter | src/hooks/useProduct.ts:35-65 | The stock reported after filtering equals the stock the raw row would give. |
| ProductCatalog.SelectorAgreesWithHasStock | src/hooks/useProduct.ts:70-76 | With the hook's stock lookup, a swatch is disabled exactly when `hasStock` is false. |
| OnlineUsers.PageName | src/components/OnlineUsersWidget.tsx:71-78 | The three named paths get their labels; any other path gets "📄 path". |
| OnlineUsers.PageNameInjective | src/components/OnlineUsersWidget.tsx:71-78 | The page label determines the path. |
| OnlineUsers.ListedRowsShowNoAdminPage | src/components/OnlineUsersWidget.tsx:33 | With admin paths excluded by the query, no row shows an admin page label. |
| OnlineUsers.BrowserLabelInjective | src/components/OnlineUsersWidget.tsx:80-89 | The browser labels are pairwise distinct. |
| OnlineUsers.BrowserOf | src/components/OnlineUsersWidget.tsx:80-89 | Each label is given exactly when its test holds and every earlier test fails. |
| OnlineUsers.BrowserTokenExclusions | src/components/OnlineUsersWidget.tsx:80-89 | "Edge" never reports Chrome. Safari only without "Chrome". Chrome + Edge without Firefox reports Edge. |
| OnlineUsers.DeviceOf | src/components/OnlineUsersWidget.tsx:91-95 | A phone exactly when any of Mobile/Android/iPhone/iPad/iPod/Tablet occurs, ignoring ASCII case. |
| OnlineUsers.DeviceIgnoresCase | src/components/OnlineUsersWidget.tsx:92-93 | Upper-casing the user agent does not change the device. |
| OnlineUsers.CountryFlag | src/components/OnlineUsersWidget.tsx:97-112 | Gives the flag of one of the eleven countries, and the globe for anything else, missing or empty. |
| OnlineUsers.FlagIdentifiesCountry | src/components/OnlineUsersWidget.tsx:97-112 | A flag other than the globe identifies the country. |
| OnlineUsers.Location | src/components/OnlineUsersWidget.tsx:114-122 | "city, country"; the country alone; or "Ubicación desconocida" without a country. |
| OnlineUsers.LocationEndsWithCountry | src/components/OnlineUsersWidget.tsx:114-122 | Whenever a country is known, the location ends with it and starts with a known city. |
| OnlineUsers.ElapsedSeconds | src/components/OnlineUsersWidget.tsx:163-165 | The whole seconds t of an elapsed time in milliseconds satisfy t·1000 ≤ ms < (t+1)·1000, which is `Math.floor(ms / 1000)`, also for a negative difference. |
| OnlineUsers.TimeAgoOfElapsed | src/components/OnlineUsersWidget.tsx:163-173 | In milliseconds, the label is "Ahora mismo" and the dot is green exactly below 60000. "Hace 1 minuto" covers exactly [60000, 120000), and the label is green exactly below 300000. |
| OnlineUsers.TimeAgoOf | src/components/OnlineUsersWidget.tsx:163-173 | Gives the buckets <60, <120, <300 and later, with whole minutes N·60 ≤ t < (N+1)·60. The label is green exactly when t < 300. |
| OnlineUsers.PluralMinutesAtLeastTwo | src/components/OnlineUsersWidget.tsx:171-173 | The plural "minutos" is only used for two or more. |
| OnlineUsers.MinutesMonotone | src/components/OnlineUsersWidget.tsx:163-173 | An older sighting never shows fewer minutes. |
| OnlineUsers.DotGreenImpliesGreenLabel | src/components/OnlineUsersWidget.tsx:182-187 | The green dot implies a green label. Between 60 and 300 s the dot is yellow but the label green. |
| OnlineUsers.HomeRows | src/components/OnlineUsersWidget.tsx:230 | Keeps exactly the rows on "/". |
| OnlineUsers.HomeCount | src/components/OnlineUsersWidget.tsx:230 | Is at most the row count, and is zero exactly when no row is on "/". |
| OnlineUsers.HomeCountAppend | src/components/OnlineUsersWidget.tsx:230 | The count over two lists is the sum of their counts. |
| ComparisonSlider.Clamp | src/components/ProblemSolution.tsx:20-22 | The result lies in [0, 100]; values in range are kept, and values out of range go to the nearer bound. |
| ComparisonSlider.Move | src/components/ProblemSolution.tsx:12-23 | Ignored unless dragging or a click; otherwise the clamped pointer position. |
| ComparisonSlider.Key | src/components/ProblemSolution.tsx:180-185 | ArrowLeft gives max(0, p−5) and ArrowRight gives min(100, p+5); other keys do nothing. |
| ComparisonSlider.HandleKeepsRange | src/components/ProblemSolution.tsx:12-27 | Every handler keeps the position in [0, 100]. |
| ComparisonSlider.RunKeepsRange | src/components/ProblemSolution.tsx:166-185 | Any event sequence keeps the position in [0, 100]. |
| ComparisonSlider.InitialInRange | src/components/ProblemSolution.tsx:9-10 | From the initial 50, every sequence of events stays in range. |
| ComparisonSlider.ReleaseStopsDragging | src/components/ProblemSolution.tsx:25-26 | After mouse up or mouse leave, a move changes nothing. |
| ComparisonSlider.ArrowRoundTrip | src/components/ProblemSolution.tsx:180-185 | Left then right returns to p when p ≥ 5. |
| ComparisonSlider.ClipRight | src/components/ProblemSolution.tsx:198-201 | The clip inset is 100 − p, within [0, 100]. |
| ComparisonSlider.CaptionOf | src/components/ProblemSolution.tsx:226 | "DESPUÉS →" exactly when p < 50. |
| ComparisonSlider.InitialCaption | src/components/ProblemSolution.tsx:9 | The slider opens showing "← ANTES". |
| ComparisonSlider.TouchDragIgnored | src/components/ProblemSolution.tsx:15 | As written, a touch drag never moves the handle. |
| ComparisonSlider.TouchDragFollowsFinger | src/components/ProblemSolution.tsx:166-172 | With touch start and end wired like mouse down and up, a touch drag puts the handle under the finger. |
| ComparisonSlider.TouchFixKeepsOtherEvents | src/components/ProblemSolution.tsx:166-185 | That correction changes nothing for mouse, click or key events. |
| Ticker.Repeat | src/components/TopBar.tsx:73-75 | n copies have length n·|msgs|, and item i is msgs[i mod |msgs|]. |
| Ticker.DivModUnique | src/components/TopBar.tsx:104 | The remainder of d·q + r is r, which places each item of the repeated list. |
| Ticker.Needed | src/components/TopBar.tsx:96-99 | The copy count is the measured one, but never below 2. |
| Ticker.Measure | src/components/TopBar.tsx:101-109 | Unmounted: nothing. Wrong count: new count and list, width kept. Right count: only the width. |
| Ticker.MeasureChangesOneThing | src/components/TopBar.tsx:126-134 | A measure never changes both the list and the width. |
| Ticker.MeasuresKeepConsistent | src/components/TopBar.tsx:101-106 | The list stays exactly `copies` copies, at least two, across any sequence of measures. |
| Ticker.InitialConsistent | src/components/TopBar.tsx:72-75 | The two initial copies start consistent and stay so. |
| Ticker.TickerLists | src/components/TopBar.tsx:79-81 | Both four-message lists give 4n items, with item i being message i mod 4. |
| Ticker.KeyShape | src/components/TopBar.tsx:231 | A key ends with a dash followed by the index's digits. |
| Ticker.KeyDeterminesIndex | src/components/TopBar.tsx:181 | Equal keys have equal indices, whatever the message ids. |
| Ticker.KeysDistinct | src/components/TopBar.tsx:229-232 | No two rendered items share a key. |

## Left out

- Network and storage:
  - the axios and Supabase calls are not modelled;
  - the realtime channel and the ten-second polling are not modelled;
  - the widget's server-side query is modelled only as the `/admin%` exclusion, without its five-minute window and ordering;
  - the order fetch and the logout in the admin table are not modelled.
- The presence-tracking hook (`usePresenceTracking.ts`) is not part of this model: it is timers, listeners and a third-party geolocation call.
- Post-submit side effects are not modelled:
  - the n8n webhook;
  - the Meta and TikTok pixels;
  - the toasts.

  They are fire-and-forget calls with no effect on the state that is modelled.
- The success screen after a purchase and the loading-disabled submit button are presentation only.
- `ProductCatalog.AfterFetch` covers one fetch; `refresh` repeats the same fetch.
- Floating point:
  - prices are integer cents, so `toFixed(2)` is exact;
  - the slider uses exact reals, so there is no double rounding.
- DOM geometry is given as inputs:
  - the pointer's percentage offset (`ComparisonSlider.Event.raw`);
  - the measured copy ratio and track width (`Ticker.Measure`);
  - the framer-motion animation values and durations.
- Locale date formatting (`toLocaleDateString` for America/Lima) is not modelled. Only the string normalisation before it is.
- `src/types/cart.ts` is not part of this model: nothing shown maintains a cart, and the sale sends a single colour.
- Loading the ubigeo tree: the tree is a fixed parameter of `Checkout.Apply` and `Checkout.Run`. Before it is loaded, no selector lists anything, so no address pick can happen; once loaded, it never changes.
- Blur-time validation messages are not modelled. Only the outcome of pressing submit is.
- `Decimal.ParseInt`: leading whitespace, `0x` prefixes and non-ASCII digits are not modelled, because a number input's value never contains them.
- `Checkout.SchemaErrors`: string lengths count Unicode scalar values, while zod counts UTF-16 code units. Characters outside the Basic Multilingual Plane count once here and twice in the source.
- `Strings.SortedKeys`: it orders by code point. JavaScript orders by UTF-16 code unit. The two differ only for characters outside the Basic Multilingual Plane.
- `Geography.ProvinceOptions`: lookups of inherited object properties are not modelled. For example, a department named "constructor" would find a function on the prototype.
- `OnlineUsers.PageName`: the same inherited-property lookups are not modelled, and neither are they for `OnlineUsers.CountryFlag`.
- `Ticker.Needed`: it takes the ceiling as an integer input. A zero-width track, where the ratio is Infinity, is not modelled.
- `ComparisonSlider.Move`: a zero-width container, where the position would be NaN, is not modelled.
- `Purchase.Mutate`: callbacks are assumed to return normally. An `onSuccess` that throws would make the source also set `error` and call `onError`.
- `Purchase.ErrorMessage`: the backend message is taken to be a string.
- `Dashboard.QuantityCellOf`: `cantidad` is modelled as optional, because the cell's `|| 0` treats a null column as zero, although the type declares it required.

## Findings

| source | as written | input that shows it | evidently intended | confidence | as-written member | corrected member |
|---|---|---|---|---|---|---|
| src/components/PurchaseModal.tsx:51 | The schema requires `Distrito` with `min(1)`. The district selector, along with the message for that field, is only rendered when the province has districts (lines 578-609). So for a province with no districts the field stays "", and submitting is blocked without any visible message. This also makes the handler's conditional check at line 148 dead. | Fill in name, surname, phone and address validly. Choose a department and a province whose district map is empty, then press submit: nothing is sent and no message appears, because the only error belongs to the hidden Distrito field. | The district is required only when the province has districts, as the comment at line 54 and the check at line 148 describe. | not executed | Checkout.ProvinceWithoutDistrictsBlocksSubmit | Checkout.IntendedSubmitAcceptsDistrictlessProvince |
| src/components/ProblemSolution.tsx:15 | Moves are ignored unless `isDragging`, and only `onMouseDown` sets it. A touch drag (touchstart, touchmove, touchend) therefore never moves the handle, and the touch branch at line 19 is never reached by a drag. | From the initial state, send touchstart, touchmove at 20%, touchend: the position stays 50. | Touch start and end set and clear the dragging flag, as mouse down and up do, so that `onTouchMove` (line 169) follows the finger. | not executed | ComparisonSlider.TouchDragIgnored | ComparisonSlider.TouchDragFollowsFinger |
