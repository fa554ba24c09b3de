# Quotation builder and tenant gating — a verified Dafny model

This project models the business rules of a multi-tenant factory front end.
Factories manage a product catalogue and build price quotations. Each
factory is reached through its own subdomain.

- **Quotations** (`quotations.dfy`): a line's total (quantity times the
  chosen variation's unit price, plus flat per-line fees), the three-tier
  volume discount with strict `>` boundaries, the aggregate total, discount
  and final amount. Also the builder's list of selected lines: add at the
  minimum order quantity (moq), remove by index, and the minus/plus buttons.
  The minus button is clamped at the moq.
- **Subdomain hook** (`subdomain.dfy`): the tenant label taken from the host
  name, the validity state (`null` until the lookup settles, then `true`,
  `false` or `undefined`), and the document title.
- **Router** (`app.dfy`): the choice between the spinner, the invalid-tenant
  page, the tenant dashboard on a catch-all route, and the six public routes.
- **Session** (`session.dfy`, `openroute.dfy`, `protectedroute.dfy`, and the
  session check in `products.dfy`): the stored token's dot-separated segments
  (the compact JWS shape of section 7.1 of RFC 7515). Also the claims read
  from segment 1 with no signature check, and the redirect decisions of the
  two route guards.
- **Catalogue page** (`products.dfy`): the session check, which chooses
  between the signed-in and the public catalogue. The token purge, the
  `factoryId` claim check, the case-insensitive search filter, the price and
  specification labels, the edit form defaults and the 5 MiB upload limit.
- **Product form** (`productmodal.dfy`): add, remove and change rows of the
  variations, fees and CBM-rate lists.
- **Sidebar** (`sidebar.dfy`): the admin/user menu, the active entry,
  navigation and logout.

The shared modules are `Wrappers` (Option), `Strings` (JavaScript `split`,
`join`, ASCII `toLowerCase`, `includes` and truthiness), `Lists` (the
`filter((_, i) => i !== idx)` removal) and `Catalog` (the product record).

Modelling choices:

- Money is Dafny `real`. The source computes with JavaScript doubles.
- A string field that may be missing is `Option<string>`. It is truthy when
  present and non-empty.
- HTTP calls are parameters describing their settled outcome: data, an
  error response with a status code, or an error without a response. The
  requests a component issues and the toasts it shows are kept as logs, so
  that "no request is made" can be stated.
- Local storage, `window.location.href` and `document.title` are plain
  fields.
- Decoding a token payload (`atob` followed by `JSON.parse`) is a function
  parameter `string -> Option<Claims>`. `None` means one of the two threw.
- A token without a dot has no segment 1. The source then calls
  `atob(undefined)`, which decodes the nine-character text "undefined". That
  is not valid base64 and throws, so the model treats it as a failed decode.
  Note that `atob` decodes standard base64 (section 4 of RFC 4648), not the
  base64url alphabet (section 5 of RFC 4648) that JWT payloads use. Which
  payloads decode is left to the decoder parameter.
- Class methods that start asynchronous work are modelled as running that
  work to completion. The model describes the settled state.
- The removal handlers use `filter` on the index, so an out-of-range index
  is a no-op. `Lists.WithoutFrom` writes the filter out as it runs, and
  `Lists.WithoutFromIsCut` proves that it cuts out exactly one element.
- The Sidebar's tenant label (src/components/Factory/Sidebar.jsx:34-37)
  repeats the hook's rule. `Sidebar.SidebarState.TenantLabel` calls
  `SubdomainValidation.Subdomain` rather than defining it a second time.

Behaviour a reader might expect to be different; the model follows the
code:

- `addProductToQuotation` copies all of the product's fields into the new
  line, fees included. It does not start the line with an empty fee list.
- A failed tenant lookup gives `false`. A reply without a `valid` field
  gives `undefined`, and that value reaches the public routes, not the
  invalid-tenant page. A reply whose `valid` is `null` is stored as it is,
  so the spinner stays up.
- An empty or missing token takes the public path and is not purged.
- `OpenRoute` does not recover from an undecodable payload: the error
  escapes.
- A host name starting with "." yields the empty label. The empty label is
  falsy, so no lookup is made and the public routes are shown
  (`AppRouter.LeadingDotHostIsPublic`).

## Model

| member | source | states |
|---|---|---|
| Quotations.FeeSum | src/components/Factory/Quotations.jsx:43 | the `reduce` over the line's fees, summed left to right; it is non-negative by FeeSumNonNegative |
| Quotations.LineTotal | src/components/Factory/Quotations.jsx:41-45 | calculateProductTotal: quantity × the chosen variation's price + the fee sum; how it moves with the quantity is LineTotalLinearInQuantity |
| Quotations.SumLineTotals | src/components/Factory/Quotations.jsx:100 | the `reduce` of line totals over the selection; additive over concatenation by SumLineTotalsAppend |
| Quotations.NewLine | src/components/Factory/Quotations.jsx:59-65 | the line added for a product: its fields, the chosen variation, quantity = moq |
| Quotations.Decremented | src/components/Factory/Quotations.jsx:213-216 | the selection after the minus button on line idx; characterised by DecrementedSpec |
| Quotations.Incremented | src/components/Factory/Quotations.jsx:224-227 | the selection after the plus button on line idx; its total by TotalAfterIncrement |
| Quotations.LineTotalLinearInQuantity | src/components/Factory/Quotations.jsx:41-45 | a line with k more units costs exactly k times the unit price more: fees are charged once per line, never multiplied by the quantity |
| Quotations.FeeSumNonNegative | src/components/Factory/Quotations.jsx:43 | the fee sum is non-negative when every fee amount is |
| Quotations.DiscountRate | src/components/Factory/Quotations.jsx:52-57 | the rate is always between 0 and 0.15 |
| Quotations.DiscountTiers | src/components/Factory/Quotations.jsx:52-57 | the rate is 0 up to 2000, 0.05 up to 5000, 0.10 up to 10000 and 0.15 above; each boundary value gets the lower tier |
| Quotations.DiscountRateMonotone | src/components/Factory/Quotations.jsx:52-57 | a larger total never gets a smaller rate |
| Quotations.DiscountAmountMonotoneWithinTier | src/components/Factory/Quotations.jsx:99-103 | within one tier, the discount amount does not decrease as the total grows |
| Quotations.FinalAmountDropsAtTierBoundary | src/components/Factory/Quotations.jsx:99-109 | crossing a tier boundary can lower the amount payable: a total of 2001 pays less than a total of 2000 |
| Quotations.Summarize | src/components/Factory/Quotations.jsx:101-103 | final amount = total − discount; for a non-negative total, 0 ≤ discount ≤ 0.15·total and 0.85·total ≤ final ≤ total; up to 2000 nothing is discounted |
| Quotations.CalculateTotalAmount | src/components/Factory/Quotations.jsx:99-109 | the total is the sum of the line totals, final = total − discount, and an empty selection gives three zeros |
| Quotations.ScenarioOneLine | src/components/Factory/Quotations.jsx:41-57 | 1000 units at 5 with one fee of 50 total 5050, fall in the 10% tier, and leave 4545 to pay |
| Quotations.DecrementedSpec | src/components/Factory/Quotations.jsx:213-216 | the minus button changes only the quantity of line idx, setting it to max(moq, quantity − increment); every other line is unchanged |
| Quotations.DecrementedKeepsMoq | src/components/Factory/Quotations.jsx:213-216 | after the minus button every line is still at or above its moq |
| Quotations.IncrementedKeepsMoq | src/components/Factory/Quotations.jsx:224-227 | the plus button keeps every line at or above its moq when the increment is not negative |
| Quotations.AppendKeepsMoq | src/components/Factory/Quotations.jsx:59-65 | a line appended at the moq keeps every line at or above its moq |
| Quotations.WithoutKeepsMoq | src/components/Factory/Quotations.jsx:47-50 | removing a line keeps every remaining line at or above its moq |
| Quotations.SumLineTotalsAppend | src/components/Factory/Quotations.jsx:100 | the total of two concatenated line lists is the sum of their totals |
| Quotations.TotalAfterAdd | src/components/Factory/Quotations.jsx:59-65 | adding a product raises the total by moq × unit price + that product's fees |
| Quotations.TotalAfterRemove | src/components/Factory/Quotations.jsx:47-50 | removing line idx lowers the total by that line's total; an out-of-range idx leaves the total unchanged |
| Quotations.TotalAfterIncrement | src/components/Factory/Quotations.jsx:224-227 | the plus button raises the total by increment × unit price |
| Quotations.QuotationBuilder.constructor | src/components/Factory/Quotations.jsx:6 | the selection starts empty |
| Quotations.QuotationBuilder.Totals | src/components/Factory/Quotations.jsx:99-111 | the displayed total is the sum of the selection's line totals; final = total − discount; for a non-negative total the discount is at most 15% and the final amount at least 85% of the total; nothing is discounted up to 2000 |
| Quotations.QuotationBuilder.AddProduct | src/components/Factory/Quotations.jsx:59-65 | exactly one line is appended at the end, with the product's fields, the chosen variation and quantity = moq; earlier lines are unchanged and the moq invariant is kept |
| Quotations.QuotationBuilder.RemoveProduct | src/components/Factory/Quotations.jsx:47-50 | the other lines remain, in order, and the length drops by one; an out-of-range index changes nothing |
| Quotations.QuotationBuilder.Decrease | src/components/Factory/Quotations.jsx:213-216 | the selection becomes the decremented one; the line ends at or above its moq, and the invariant is kept |
| Quotations.QuotationBuilder.Increase | src/components/Factory/Quotations.jsx:224-227 | the selection becomes the incremented one, and the total rises by increment × unit price |
| Lists.WithoutFromIsCut | src/components/Factory/Quotations.jsx:48 | the index filter equals cutting out the element at idx when idx is in range, and is the identity otherwise |
| Lists.WithoutSpec | src/components/Factory/ProductModal.jsx:26-31 | removal at an in-range index shortens by one and shifts the later elements down by one; an out-of-range index is a no-op |
| Lists.AppendThenWithoutLast | src/components/Factory/ProductModal.jsx:19-31 | appending a row and removing the last index restores the list |
| Strings.Split | src/hooks/useSubdomainValidation.js:6 | a split always has at least one part |
| Strings.JoinSplit | src/hooks/useSubdomainValidation.js:6 | joining the parts of a split with the separator gives back the string |
| Strings.SplitPartsHaveNoSeparator | src/hooks/useSubdomainValidation.js:6 | no part of a split contains the separator |
| Strings.SplitCount | src/components/Factory/Products.jsx:58 | a split has one more part than the string has separators |
| Strings.SplitFirstPart | src/hooks/useSubdomainValidation.js:9 | the first part is the longest prefix without a separator |
| Strings.CountPositive | src/hooks/useSubdomainValidation.js:6 | a character occurs in a string exactly when its count is positive |
| Strings.IncludesIffOccurs | src/components/Factory/Products.jsx:292-294 | `includes` holds exactly when the needle occurs at some position |
| SubdomainValidation.Subdomain | src/hooks/useSubdomainValidation.js:6-9 | the tenant label: the first dot-separated label when there are more than two labels, or two and the host is not "localhost"; characterised by SubdomainIsTextBeforeFirstDot |
| SubdomainValidation.SubdomainIsFirstOfSeveralLabels | src/hooks/useSubdomainValidation.js:6-9 | because "localhost" is a single label, the rule is simply "the first label when there is more than one label" |
| SubdomainValidation.SubdomainIsTextBeforeFirstDot | src/hooks/useSubdomainValidation.js:6-9 | a subdomain exists exactly when the host name has a dot, and it is the text before the first dot |
| SubdomainValidation.SubdomainOfDotted | src/hooks/useSubdomainValidation.js:6-9 | "first.rest", where first has no dot, yields first |
| SubdomainValidation.LocalhostHasNoSubdomain | src/hooks/useSubdomainValidation.js:7-9 | "localhost" yields no subdomain |
| SubdomainValidation.SubdomainExamples | src/hooks/useSubdomainValidation.js:6-9 | "a.localhost" yields "a", "acme.quotely.shop" yields "acme", and "quotely.shop" yields "quotely" |
| SubdomainValidation.Settle | src/hooks/useSubdomainValidation.js:17-33 | the state is null after settling exactly when the lookup replied `valid: null`; it is true without a usable subdomain, false when the lookup threw, undefined when the reply has no `valid` field, and b when the reply is `valid: b` |
| SubdomainValidation.StoredValue | src/hooks/useSubdomainValidation.js:22 | `data?.valid` stored as it is: a missing field as undefined, `null` as null, a boolean as itself |
| SubdomainValidation.TitleAfter | src/hooks/useSubdomainValidation.js:11-15 | the title after the title effect; characterised by TitleAfterSpec |
| SubdomainValidation.TitleAfterSpec | src/hooks/useSubdomainValidation.js:11-15 | the title changes only when the validity is true and the subdomain is non-empty, and is then the subdomain followed by " - Dashboard" |
| SubdomainValidation.SubdomainHook.constructor | src/hooks/useSubdomainValidation.js:4-9 | the state starts null (pending), with the subdomain derived from the host name and no lookups made |
| SubdomainValidation.SubdomainHook.CheckSubdomain | src/hooks/useSubdomainValidation.js:17-33 | the state takes its settled value, and stays null only for a `valid: null` reply; exactly one lookup is made when the subdomain is usable, none otherwise |
| SubdomainValidation.SubdomainHook.SyncTitle | src/hooks/useSubdomainValidation.js:11-15 | the title becomes "<subdomain> - Dashboard" only for a true validity and a non-empty subdomain |
| AppRouter.Render | src/App.jsx:15-42 | the view for the hook's state: spinner, invalid-tenant page, the dashboard on a catch-all route, or the public routes; characterised by RenderCases |
| AppRouter.RenderCases | src/App.jsx:18-40 | spinner exactly when the state is null; invalid-tenant page exactly when the state is false and the subdomain non-empty; dashboard exactly when it is true and the subdomain non-empty; public routes otherwise |
| AppRouter.TrimTrailingSlashes | src/App.jsx:29-42 | the result is a prefix of the path that does not end in "/", and only slashes were removed |
| AppRouter.PathKey | src/App.jsx:29-42 | the key the router compares: the path lower-cased, without trailing slashes |
| AppRouter.PathMatches | src/App.jsx:29-42 | a route path matches a pathname when it is the catch-all or the two keys are equal |
| AppRouter.PathMatchesAsPattern | src/App.jsx:29-42 | a route path other than the catch-all matches exactly the pathnames that are the route path in any letter case followed by any number of slashes |
| AppRouter.Match | src/App.jsx:29-42 | a matched page comes from a route that matches the pathname; there is no match exactly when no route matches |
| AppRouter.MatchSkips | src/App.jsx:29-42 | routes ahead of the first matching one do not affect which page is shown |
| AppRouter.MatchIsFirst | src/App.jsx:29-42 | the page shown is that of the first matching route |
| AppRouter.PublicRouteKeys | src/App.jsx:33-40 | the keys of the six public paths are "", "/support", "/contact", "/terms", "/privacy" and "/refund", and none is the catch-all |
| AppRouter.PublicKeysDistinct | src/App.jsx:33-40 | the six public keys are pairwise distinct |
| AppRouter.PublicRoutesMatchAtMostOne | src/App.jsx:33-40 | no pathname matches two public routes, so first match and best match agree |
| AppRouter.PublicRouteShown | src/App.jsx:33-40 | a pathname with the key of public route i shows that route's page |
| AppRouter.SupportPaths | src/App.jsx:33-34 | "/" and "/Support/" both show Support |
| AppRouter.PublicRoutesUnmatched | src/App.jsx:33-40 | a pathname whose key is none of the six public keys shows nothing |
| AppRouter.DashboardCatchesAll | src/App.jsx:30-31 | a valid tenant's dashboard is shown for every path |
| AppRouter.SettledRouting | src/App.jsx:16-31 | once the hook settles the spinner is gone unless the reply was `valid: null`; no subdomain gives the public routes, a thrown lookup or `valid: false` the invalid page, a reply without `valid` the public routes, and `valid: true` the dashboard |
| AppRouter.LeadingDotHostIsPublic | src/App.jsx:22-31 | a host name beginning with "." has an empty, falsy label and is served the public routes |
| Session.Segments | src/components/Factory/Products.jsx:58 | a token always has at least one segment |
| Session.ThreeSegmentsIffTwoDots | src/components/Factory/Products.jsx:58-59 | a token has three segments exactly when it contains exactly two dots |
| Session.Payload | src/components/Factory/Products.jsx:105-107 | the claims decoded from segment 1, or none when there is no segment 1 or decoding throws; by PayloadNeedsDot a token with claims has a dot |
| Session.PayloadNeedsDot | src/components/auth/OpenRoute.jsx:10 | claims can only be decoded from a token that contains a dot, hence a non-empty one |
| OpenRoute.OpenRoute | src/components/auth/OpenRoute.jsx:5-17 | the guard's outcome for the stored token; characterised by OpenRouteOutcomes |
| OpenRoute.OpenRouteOutcomes | src/components/auth/OpenRoute.jsx:7-15 | with no token the pages are shown; an undecodable payload throws; otherwise role "customer" redirects to /customer and any other role, or none, to /factory |
| OpenRoute.ChildrenOnlyWithoutToken | src/components/auth/OpenRoute.jsx:7-15 | the pages are shown exactly when no token is stored: the `: children` fallbacks cannot be reached |
| ProtectedRoute.ProtectedRoute | src/components/auth/ProtectedRoute.jsx:5-10 | the guard's outcome for the stored token; characterised by ProtectedRouteOutcomes |
| ProtectedRoute.ProtectedRouteOutcomes | src/components/auth/ProtectedRoute.jsx:6-9 | a non-empty token shows the pages; a missing or empty one redirects to /factory/login, replacing the history entry |
| ProtectedRoute.ContentsIgnored | src/components/auth/ProtectedRoute.jsx:6-9 | any two non-empty tokens give the same outcome |
| Products.AuthPathOf | src/components/Factory/Products.jsx:53-73 | the public path exactly for a missing or empty token; the invalid-token path exactly for a non-empty token without three segments; the missing-claim path exactly for a three-segment token without a decoded, non-empty factoryId; the authenticated path, with that factoryId, exactly otherwise |
| Products.HasFactoryClaim | src/components/Factory/Products.jsx:105-111 | decoded claims whose `factoryId` is present and non-empty |
| Products.TooLarge | src/components/Factory/Products.jsx:258-262 | a file is rejected when its size exceeds the limit |
| Products.UploadLimit | src/components/Factory/Products.jsx:257-262 | the limit is 5242880 bytes: exactly 5 MiB is accepted, one byte more is rejected |
| Products.EditForm | src/components/Factory/Products.jsx:132-147 | the edit form always has specifications; they are defaulted only when missing, and nothing else changes |
| Products.Matches | src/components/Factory/Products.jsx:291-295 | the search test on name, category and material type; with an empty term by EmptyTermMatches |
| Products.FilteredProducts | src/components/Factory/Products.jsx:291-295 | the result is no longer than the list, and every kept product matches |
| Products.FilteredProductsAppend | src/components/Factory/Products.jsx:291-295 | filtering distributes over concatenation, so kept products keep their original order |
| Products.FilteredProductsMembers | src/components/Factory/Products.jsx:291-295 | a product is kept exactly when it is in the list and its name, category or material type contains the term, ignoring case |
| Products.EmptyTermMatches | src/components/Factory/Products.jsx:291-295 | with an empty term, a product is kept exactly when it has a name, a category or a material type |
| Products.BasePrice | src/components/Factory/Products.jsx:298-307 | a price is shown only when it is non-zero and comes from the first variation or the first fee; "Contact for pricing" exactly when both are missing or zero |
| Products.BasePriceReadsFirstOnly | src/components/Factory/Products.jsx:298-307 | rows after the first variation and the first fee do not affect the label |
| Products.BasePricePrecedence | src/components/Factory/Products.jsx:300-301 | a non-zero first variation price wins over the fees |
| Products.SpecsSummary | src/components/Factory/Products.jsx:310-318 | the material type, then "<gsm>gsm", joined by ", "; "Specifications not available" when neither is set |
| Products.VendorProducts.constructor | src/components/Factory/Products.jsx:10-45 | the page starts signed out and loading, with no products, an empty search term and the modal closed; the form is the fixed blank form: every text field "", unit "pcs", one blank variation, fee and CBM rate, default specifications |
| Products.VendorProducts.FetchPublicProducts | src/components/Factory/Products.jsx:85-100 | one public request for the shop; the products are the reply, or empty with a toast on error; loading ends |
| Products.VendorProducts.HandleInvalidToken | src/components/Factory/Products.jsx:76-82 | the stored token is removed, the session is signed out, a session-expired toast is shown and the public catalogue is loaded |
| Products.VendorProducts.FetchProducts | src/components/Factory/Products.jsx:102-130 | without a decodable, non-empty factoryId no request is made; otherwise one authenticated request; a 401 purges the session, other errors only toast |
| Products.VendorProducts.CheckAuthentication | src/components/Factory/Products.jsx:53-74 | the full new state for each path: a missing or empty token goes public without a purge; a malformed one is purged; a missing claim toasts without a request; a good token requests the factory's products, and then the reply is shown, a 401 purges and loads the public catalogue, and other errors only toast |
| Products.ProductAt | src/components/Factory/Products.jsx:134-136 | `products[key]` reads a product exactly for an in-range position, and then the one at that position |
| Products.EditButtonMissesItsRow | src/components/Factory/ProductTable.jsx:49 | for a one-product list, the row's position reads the product but its id reads nothing |
| Products.VendorProducts.HandleEditByKey | src/components/Factory/Products.jsx:132-152 | the form opens, on the product at that position, exactly when the key is an in-range position; for any other key, such as the id the table passes, nothing changes |
| Products.RowSource | src/components/Factory/Products.jsx:291-295 | a row of the filtered list comes from a position at or after it in the full list, holding the same product |
| Products.VendorProducts.TableRows | src/components/Factory/Products.jsx:291-295 | the table (which is given the filtered list) shows exactly the products of the list that match the search term |
| Products.VendorProducts.HandleSearch | src/components/Factory/Products.jsx:344-345 | typing in the search box sets the search term |
| Products.VendorProducts.HandleEdit | src/components/Factory/Products.jsx:132-152 | for a row the table shows, the form becomes that row's product with defaulted specifications, the modal opens, and the editing index is that product's position in the full list |
| Products.VendorProducts.HandleFileUpload | src/components/Factory/Products.jsx:252-284 | no file does nothing; an oversize file is rejected before any request; otherwise one upload, and the image is set only when an address is returned; uploading ends |
| ProductModal.AddVariation | src/components/Factory/ProductModal.jsx:19-24 | one blank variation is appended, earlier rows are unchanged, and every other form field is unchanged |
| ProductModal.RemoveVariation | src/components/Factory/ProductModal.jsx:26-31 | exactly row index is dropped, keeping order; an out-of-range index is a no-op; other form fields are unchanged |
| ProductModal.ChangeVariation | src/components/Factory/ProductModal.jsx:33-37 | only the named field of row index changes |
| ProductModal.AddThenRemoveVariation | src/components/Factory/ProductModal.jsx:19-31 | adding a variation and removing the last one restores the form |
| ProductModal.AddFee | src/components/Factory/ProductModal.jsx:39-44 | one blank fee is appended; everything else is unchanged |
| ProductModal.RemoveFee | src/components/Factory/ProductModal.jsx:46-51 | exactly fee index is dropped, keeping order; an out-of-range index is a no-op |
| ProductModal.ChangeFee | src/components/Factory/ProductModal.jsx:53-57 | only the named field of fee index changes |
| ProductModal.AddThenRemoveFee | src/components/Factory/ProductModal.jsx:39-51 | adding a fee and removing the last one restores the form |
| ProductModal.AddCbmRate | src/components/Factory/ProductModal.jsx:59-64 | one blank CBM rate is appended; everything else is unchanged |
| ProductModal.RemoveCbmRate | src/components/Factory/ProductModal.jsx:66-71 | exactly rate index is dropped, keeping order; an out-of-range index is a no-op |
| ProductModal.ChangeCbmRate | src/components/Factory/ProductModal.jsx:73-77 | only the named field of rate index changes |
| ProductModal.AddThenRemoveCbmRate | src/components/Factory/ProductModal.jsx:59-71 | adding a CBM rate and removing the last one restores the form |
| ProductModal.EditsTouchOneField | src/components/Factory/ProductModal.jsx:33-77 | setting one field of a row keeps the row's other field |
| Sidebar.IsAdmin | src/components/Factory/Sidebar.jsx:45-55 | admin exactly when a non-empty token is stored |
| Sidebar.MenuItems | src/components/Factory/Sidebar.jsx:89-107 | the admin menu for an admin, the user menu otherwise |
| Sidebar.IsActive | src/components/Factory/Sidebar.jsx:145-146 | an entry is active when its path is the current path |
| Sidebar.MenuPathsDistinct | src/components/Factory/Sidebar.jsx:89-107 | both menus have five entries with pairwise distinct paths |
| Sidebar.AtMostOneActive | src/components/Factory/Sidebar.jsx:145-146 | no two menu entries are active for the same path |
| Sidebar.SidebarState.constructor | src/components/Factory/Sidebar.jsx:27-41 | the sidebar starts as a non-admin one with no toasts shown |
| Sidebar.SidebarState.TenantLabel | src/components/Factory/Sidebar.jsx:34-37 | the tenant label exists exactly when the host name has a dot, and is then the text before the first dot |
| Sidebar.SidebarState.SyncAdmin | src/components/Factory/Sidebar.jsx:45-55 | admin exactly when a non-empty token is stored, whatever its role |
| Sidebar.SidebarState.Menu | src/components/Factory/Sidebar.jsx:107 | the menu shown always has five entries |
| Sidebar.SidebarState.HandleLogout | src/components/Factory/Sidebar.jsx:57-68 | after the logout request succeeds, a success toast, the token removed, admin cleared and the login page loaded; on failure only an error toast, and nothing else changes |
| Sidebar.SidebarState.HandleNavigation | src/components/Factory/Sidebar.jsx:71-74 | the path changes, and the close callback is called once only if one was provided |

## Left out

- All HTTP traffic: the tenant lookup, the product, factory, logout and PDF endpoints, and the image upload service. Each is a parameter giving its settled outcome.
- Asynchronous interleaving. The intermediate values of `isLoading` while requests are in flight, and the order in which replies arrive, are not modelled.
- Floating-point money and `toFixed(2)` formatting. Amounts are exact reals, while the source uses JavaScript doubles.
- JavaScript coercion of form values. The form keeps prices, moq and increment as strings, so `+=` and `reduce` could concatenate. The model uses numbers and represents "" by 0, which is falsy like "".
- Quotations.QuotationBuilder.Decrease: does not model the aliasing of the line object. The source mutates `newProducts[idx]` in place, and that object is shared with the previous state array. The model replaces the line by value. The same applies to Quotations.QuotationBuilder.Increase.
- ProductModal.ChangeVariation: does not model that the row object is mutated in place and shared with the previous form. Rows are values here. The same applies to ProductModal.ChangeFee and ProductModal.ChangeCbmRate.
- The quotation page's own token decoding and its product and factory fetches (src/components/Factory/Quotations.jsx:16-32) are HTTP plumbing.
- The PDF download (src/components/Factory/Quotations.jsx:66-97) and the "Valid until" date (src/components/Factory/Quotations.jsx:184) are left out.
- Unicode case folding. `toLowerCase` is modelled for ASCII letters only.
- `NaN`. A price that does not parse is not modelled, and a price is treated as falsy exactly when it is 0.
- The Sidebar's shop fetch and the two quick-action buttons. They are HTTP and close-callback plumbing; the close-callback rule is the one modelled by HandleNavigation.
- The submit, delete and reset handlers of the catalogue page. They are HTTP plumbing around the form.
- The 3D mockup viewer, the dashboard panel, the profile page, the product table (apart from the key its edit button passes) and the detail views, the legal and marketing pages, the loading and error pages, the dashboard route table and the build configuration. They are presentation.
- The `try`/`catch` around the segment check in checkAuthentication. `split` cannot throw, so that path is unreachable and is not modelled.
- SubdomainValidation.Settle: a `valid` field holding a number, a string or an object is not modelled. The field is taken to be missing, `null` or a boolean.
- AppRouter.Match: picks the first matching route, while the router ranks routes. The two agree for both route sets here: the dashboard set has one route, and no pathname matches two public routes (AppRouter.PublicRoutesMatchAtMostOne). Percent-decoding of the pathname and non-ASCII case folding are not modelled.

## Findings

| source | as written | input that shows it | evidently intended | confidence | as-written member | corrected member |
|---|---|---|---|---|---|---|
| src/components/Factory/ProductTable.jsx:49 with src/components/Factory/Products.jsx:132-136 | the edit button calls `handleEdit(product._id)`, and handleEdit reads `products[index]`; an id is not an array index, so that is `undefined` and reading its `specifications` throws a TypeError, so the form never opens | a list with one product whose id is "652f0c1e9b1d8a0012345678"; pressing its edit button reads `products["652f0c1e9b1d8a0012345678"]` | open the form on the product in the pressed row; the table lists the products the search term matches, so a row is a position in that filtered list, not in the full one | high, not executed | Products.VendorProducts.HandleEditByKey, Products.EditButtonMissesItsRow | Products.VendorProducts.HandleEdit |
