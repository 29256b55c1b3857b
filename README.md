# Vendor dashboard core, modelled in Dafny

This project models the decision logic of a Next.js storefront and vendor
dashboard:

- the Zod validation schemas for products, categories, collections, uploads and
  list filters;
- the slug generator of the product forms;
- the object-storage helpers: file-name sanitising, object keys, the type
  allow-list and the size limit;
- the parameterised SQL built by `getProducts` and `updateProduct`;
- the access middleware;
- role filtering of the navigation configuration;
- the sidebar and mobile navigation's active and badge rules;
- the upload widget, the product form and the navigation context, as classes
  whose methods change their fields;
- the two product API routes and the upload route;
- the invoices pagination;
- the setup-check page;
- the header's unread counter and initials;
- the products list page.

Each source file has one module:

| module | models |
|---|---|
| `Validations` | the schemas, as predicates and as the list of issues a parse reports |
| `SlugGenerator`, `BasicSection` | the slug generator and `handleTitleChange` |
| `CreateProductPage` | the create page |
| `ObjectStorage` | the storage helpers |
| `ProductQueries` | the SQL builders |
| `Middleware` | the access middleware |
| `NavigationConfig` | the navigation configuration and its role filter |
| `Sidebar`, `MobileNav`, `BadgeView` | the navigation components |
| `FileUpload` | the upload widget |
| `ProductFormContent` | the product form |
| `NavigationContext` | the navigation context |
| `ApiProducts`, `ApiUpload` | the API routes |
| `InvoicesPage` | the invoices pagination |
| `SetupCheck` | the setup-check page |
| `Header` | the header |
| `ProductsPage` | the products list page |

Small shared modules model the JavaScript and web-platform behaviour the code
relies on:

- `Js`: truthiness, `||` fallbacks, numbers that may be `NaN`, and `parseInt`;
- `UrlParams`: `URLSearchParams` `get`, `append`, `set` and serialisation;
- `Text`: string helpers;
- `PathMatch`: the "path is at or under a route" test;
- `Wrappers`: `Option`.

Everything outside the process is a parameter of the function or method that
uses it:

- the database and its results;
- the presigner and the upload's outcome;
- the session;
- `fetch` results;
- `localStorage` contents;
- the clock and the window width;
- the opaque Zod `url()`/`uuid()` checks;
- `Number()`, `toString` and percent-encoding.

Some quirks of the code as written are stated as lemmas:

- The `/admin` check has no `/` boundary, so `/administrator` is admin-only.
- The public route `/` makes public only `/` itself and paths starting with
  `//`.
- Public routes get none of the security headers.
- An unset bucket URL gives file URLs starting with `undefined/`.
- A non-numeric `MAX_FILE_SIZE` rejects every size.
- The upload widget offers ten extensions, but the upload route accepts only
  the two video types among them.
- On the "Add New" page the sidebar highlights two sub-rows.
- On a products page the mobile bar marks two tabs as current.
- The "Pending" orders link is never highlighted.
- A parent item that is active only by prefix may start closed.
- A zero count renders a stray "0" instead of a badge.
- A sub-item hides a negative count, while a top-level item shows it.
- In `updateProduct`, an update that only sets `categoryIds` or
  `collectionIds` builds no `UPDATE` and changes no links
  (`ProductQueries.LinksOnlyPatchIsIgnored`).
- The invoices page keeps a negative or fractional page number.
- On the setup-check page, a missing bucket, region, secret key or bucket URL
  gets no specific next step.
- On the products page:
  - a status or sort change refetches with the search text typed so far, even
    if it was not submitted;
  - a delete is local only.

## Model

| member | source | states |
|---|---|---|
| Validations.StringIssues | src/lib/validations/product.ts:10-47 | every chained string rule of a field is tried; no issue iff every rule holds; at most one issue per rule, each at the field's path |
| Validations.ElementIssues | src/lib/validations/product.ts:42-43 | an array field has no issue iff every element passes every element rule |
| Validations.NumberIssues | src/lib/validations/product.ts:32-35 | a number field has no issue iff it is a number (not NaN) and passes every range rule |
| Validations.TitleIssues | src/lib/validations/product.ts:11-14 | the title is accepted iff its length is 3..255 |
| Validations.ProductSlugIssues | src/lib/validations/product.ts:16-20 | the slug is accepted iff its length is 3..255 and it is over [a-z0-9-] |
| Validations.PriceIssues | src/lib/validations/product.ts:32-35 | the price is accepted iff it lies in [0, 999999.99] |
| Validations.MaxLengthIssues | src/lib/validations/product.ts:22-30 | an optional text is accepted iff it is absent or within its maximum length |
| Validations.FormatIssues | src/lib/validations/product.ts:40 | an optional URL is accepted iff it is absent or satisfies the URL check |
| Validations.IdListIssues | src/lib/validations/product.ts:42-43 | an optional id list is accepted iff it is absent or every id is a UUID |
| Validations.SortOrderIssues | src/lib/validations/product.ts:64 | `sortOrder` is accepted iff it is absent or a non-negative integer |
| Validations.ProductFormIssues | src/lib/validations/product.ts:10-47 | the product form has no issue iff it satisfies every field rule, status one of draft/published/archived |
| Validations.GroupNameIssues | src/lib/validations/product.ts:51-54 | a category or collection name is accepted iff its length is 2..100 |
| Validations.GroupSlugIssues | src/lib/validations/product.ts:56-60 | a category or collection slug is accepted iff its length is 2..100 and it is over [a-z0-9-] |
| Validations.CategoryFormIssues | src/lib/validations/product.ts:50-66 | the category form has no issue iff every field rule holds |
| Validations.CollectionFormIssues | src/lib/validations/product.ts:69-85 | the collection form has no issue iff every field rule holds |
| Validations.FileUploadIssues | src/lib/validations/product.ts:88-92 | an upload record is accepted iff the name and type are non-empty and the size is positive |
| Validations.ProductFiltersIssues | src/lib/validations/product.ts:95-104 | filters are accepted iff sortBy, sortOrder and status are in their enums, ids are UUIDs, page is a positive integer and pageSize a positive integer at most 100 |
| Validations.ThreeStringChecks | src/lib/validations/product.ts:11-14 | a three-rule chain passes iff each of its three rules passes |
| SlugGenerator.DropSeparators | src/components/products/form-sections/basic-section.tsx:24 | skipping a run of separators keeps a suffix that starts with a letter or digit and keeps every letter and digit |
| SlugGenerator.CollapseSeparators | src/components/products/form-sections/basic-section.tsx:24 | after replacing runs of other characters by '-', only [a-z0-9-] remain, never two '-' in a row, and the letters and digits are kept in order |
| SlugGenerator.Slugify | src/components/products/form-sections/basic-section.tsx:22-25 | the slug is over [a-z0-9-], has no '-' at either end and no doubled '-', and is no longer than the title |
| SlugGenerator.TrimKeepsShape | src/components/products/form-sections/basic-section.tsx:25 | trimming the edge '-' of a collapsed string leaves slug characters with no edge or doubled '-' |
| SlugGenerator.AlnumsAppend | src/components/products/form-sections/basic-section.tsx:22-25 | the letters and digits of a concatenation are those of the parts |
| SlugGenerator.TrimKeepsAlnums | src/components/products/form-sections/basic-section.tsx:25 | trimming keeps every letter and digit |
| SlugGenerator.SlugKeepsAlnums | src/components/products/form-sections/basic-section.tsx:22-25 | the slug's letters and digits are exactly those of the lower-cased title, in order |
| SlugGenerator.LowerOfSlugChars | src/components/products/form-sections/basic-section.tsx:23 | lower-casing leaves slug characters unchanged |
| SlugGenerator.CollapseOfCollapsed | src/components/products/form-sections/basic-section.tsx:24 | the collapse step leaves a well-formed slug unchanged |
| SlugGenerator.CollapseTail | src/components/products/form-sections/basic-section.tsx:24 | a well-formed tail starting with '-' collapses to itself |
| SlugGenerator.SlugifyIdempotent | src/components/products/form-sections/basic-section.tsx:21-27 | generating a slug from a slug gives it back |
| SlugGenerator.SlugMatchesPattern | src/components/products/form-sections/basic-section.tsx:21-27 | every non-empty generated slug matches the slug pattern of the schema |
| SlugGenerator.SlugOfValidTitle | src/components/products/form-sections/basic-section.tsx:21-27 | a generated slug of 3 or more characters from a valid title passes the slug rule |
| SlugGenerator.ShortTitleGivesRejectedSlug | src/components/products/form-sections/basic-section.tsx:21-27 | the title "Hi" gives the slug "hi", which matches the pattern but is refused as too short |
| BasicSection.HandleTitleChange | src/components/products/form-sections/basic-section.tsx:21-27 | only the slug changes, and it is the well-formed slug of the typed title |
| BasicSection.RetypingSlugIsStable | src/components/products/form-sections/basic-section.tsx:21-27 | typing the generated slug as the title leaves the form as it is |
| BasicSection.TitleChangeSlugPattern | src/components/products/form-sections/basic-section.tsx:21-27 | a non-empty slug from a title change matches the pattern, and passes the slug rule when 3 or more long and the title is valid |
| CreateProductPage.WrittenDefaultsNeverValidate | src/app/dashboard/products/create/page.tsx:43-52 | with the defaults as written no form the page can produce is valid, because the thumbnail URL stays '' |
| CreateProductPage.DefaultsAreIncomplete | src/app/dashboard/products/create/page.tsx:43-52 | the corrected defaults are empty texts, price 0 and status draft, and are refused as they stand |
| CreateProductPage.SlugOfKit | src/app/dashboard/products/create/page.tsx:56-62 | the title "Kit" gives the slug "kit" |
| CreateProductPage.DefaultsCanBeCompleted | src/app/dashboard/products/create/page.tsx:43-52 | with the corrected defaults, typing a three-letter title yields a valid form |
| CreateProductPage.SubmitOutcome | src/app/dashboard/products/create/page.tsx:70-93 | the page navigates to the list iff the response was ok, shown with a success toast; an error response shows its error or the fallback text; a thrown error shows its message |
| CreateProductPage.Page.constructor | src/app/dashboard/products/create/page.tsx:38-53 | the page starts not submitting, with no file path and the defaults as written, `thumbnailUrl` '' included |
| CreateProductPage.Page.EditTitle | src/app/dashboard/products/create/page.tsx:126-133 | the title input sets the title and regenerates the slug from it, changing nothing else |
| CreateProductPage.Page.HandleFileUpload | src/app/dashboard/products/create/page.tsx:64-68 | the storage key, not the file URL, becomes the file path of the page and of the form, with a success toast |
| CreateProductPage.Page.OnSubmit | src/app/dashboard/products/create/page.tsx:70-93 | submitting is over afterwards whatever the outcome; one toast; navigation only on success |
| CreateProductPage.Page.HandleSubmit | src/app/dashboard/products/create/page.tsx:114 | the zod resolver (lines 40-42) checks the whole form first: a valid form goes through the submit handler, an invalid one changes nothing |
| CreateProductPage.WrittenPageNeverSubmits | src/app/dashboard/products/create/page.tsx:43-52 | on the page as written, typing a title, uploading a file and submitting leaves only the upload toast and never navigates |
| ObjectStorage.SanitizeFileName | src/lib/s3.ts:35 | same length; allowed characters kept, every other one becomes '_' |
| ObjectStorage.SanitizeIdempotent | src/lib/s3.ts:35 | sanitising a sanitised name changes nothing |
| ObjectStorage.ObjectKeySegments | src/lib/s3.ts:36 | for a vendor id without '/', the key has exactly the segments vendors, the vendor id, products and the file segment |
| ObjectStorage.KeyLayout | src/lib/s3.ts:36 | the key is "vendors/" + vendor id + "/products/" + file segment |
| ObjectStorage.FileSegmentHasNoSlash | src/lib/s3.ts:34-36 | the timestamped, sanitised file segment contains no '/' |
| ObjectStorage.ObjectKeyInjective | src/lib/s3.ts:34-36 | two keys of one vendor are equal only for equal timestamps and equal sanitised names |
| ObjectStorage.FileUrl | src/lib/s3.ts:45 | the file URL ends in "/" + key; an unset bucket URL gives "undefined/" + key |
| ObjectStorage.GenerateUploadUrl | src/lib/s3.ts:28-48 | the result carries the key for this vendor, time and name, the upload URL signed for that key and type, and that key's public URL |
| ObjectStorage.AllowedTypesAreMedia | src/lib/s3.ts:86-105 | every allowed type is an image or video type |
| ObjectStorage.DocumentsRejected | src/lib/s3.ts:86-105 | application/pdf and application/zip are refused |
| ObjectStorage.DefaultSizeLimit | src/lib/s3.ts:112-115 | with the variable unset or empty a size is allowed iff it is at most 104857600 |
| ObjectStorage.DefaultLimitText | src/lib/s3.ts:113 | the default limit is written 104857600 |
| ObjectStorage.NonNumericLimitRejectsAll | src/lib/s3.ts:112-115 | a limit that parses to NaN refuses every size |
| ObjectStorage.FormatFileSize | src/lib/s3.ts:122-130 | zero bytes is "0 Bytes" |
| ProductQueries.ActiveHas | src/lib/products.ts:35-63 | a filter kind has a condition iff its slot holds a value |
| ProductQueries.SortColumnOf | src/lib/products.ts:71-74 | createdAt, title and price select their own column; anything else sorts by downloads |
| ProductQueries.ApplyFilters | src/lib/products.ts:25-63 | the vendor condition is $1 with the vendor id first; each truthy filter adds one condition whose placeholder is its parameter's 1-based position, in source order |
| ProductQueries.BuildListQuery | src/lib/products.ts:19-81 | the count query reuses exactly the filter parameters; every placeholder binds its condition's value; the sort column and upper-cased direction follow the filters or the defaults; LIMIT and OFFSET are the last two parameters, pageSize and (page-1)*pageSize |
| ProductQueries.ActiveValues | src/lib/products.ts:35-63 | each active slot holds the value its condition compares against |
| ProductQueries.LayoutBinds | src/lib/products.ts:35-63 | the layout the builder keeps binds every placeholder to its condition's value |
| ProductQueries.BindsExtend | src/lib/products.ts:79-81 | appending LIMIT and OFFSET values leaves every earlier binding intact |
| ProductQueries.ListFilterCount | src/lib/products.ts:35-63 | there are exactly as many filter conditions as truthy filters |
| ProductQueries.ActiveSorted | src/lib/products.ts:35-63 | the active conditions keep the order of their kinds |
| ProductQueries.ListFilterPresence | src/lib/products.ts:35-63 | a filter has a condition iff it is truthy, in the order status, search, category, collection, after the vendor |
| ProductQueries.ListDefaults | src/lib/products.ts:19-22 | with no filters the list is sorted by creation time, descending, from offset 0 |
| ProductQueries.CollectAssignments | src/lib/products.ts:155-204 | one `column = $k` per defined field in field order with k counting from 1, with its value at position k; `published_at = NOW()` iff the status is exactly 'published', right after the status, with no parameter |
| ProductQueries.StatusField | src/lib/products.ts:180-188 | only the sixth field is the status column |
| ProductQueries.AppendField | src/lib/products.ts:155-204 | appending the next defined field keeps SET entries and values numbered in step |
| ProductQueries.BuildUpdate | src/lib/products.ts:155-216 | no UPDATE but a fetch by id iff no column field is defined; otherwise the SET list as above, with product id and vendor id as the last two values at $n+1 and $n+2 |
| ProductQueries.ActiveEmptyIffNothing | src/lib/products.ts:206-208 | no SET entry iff no column field is defined |
| ProductQueries.ActiveEmpty | src/lib/products.ts:155-204 | no active entry iff no slot holds a value |
| ProductQueries.LinkActions | src/lib/products.ts:220-238 | nothing when no row was updated; otherwise the links of each defined id list are deleted and, for a non-empty list, the new ones inserted |
| ProductQueries.UpdateProduct | src/lib/products.ts:150-241 | a fetch by id iff no column field is defined, and then no link statement at all; otherwise the link statements follow whether the UPDATE returned a row |
| ProductQueries.LinksOnlyPatchIsIgnored | src/lib/products.ts:206-208 | a patch with only category and collection ids builds no UPDATE and produces no link statement |
| ProductQueries.ActiveFrom | src/lib/products.ts:155-204 | every active entry comes from a slot with the same key and value |
| ProductQueries.UpdateCoversDefinedFields | src/lib/products.ts:155-204 | every SET entry binds its own column's value from the patch, and every defined column has one |
| Middleware.EffectiveRole | middleware.ts:54 | a missing or empty role is 'customer' |
| Middleware.LoginRedirect | middleware.ts:45-50 | the redirect goes to /login with callbackUrl set to the requested path and the rest of the query kept |
| Middleware.Decide | middleware.ts:23-87 | a public path continues without headers; without a session it redirects to login; otherwise it continues iff the role may enter, then with the three security headers; a non-admin in the /admin area goes to /dashboard, else a refused /dashboard path goes to /, else (the /editor area) to /dashboard, each with an empty query |
| Middleware.RootRouteIsNotACatchAll | middleware.ts:36-38 | '/' does not make /dashboard, /admin or /editor public; /login/reset is public and /loginx is not |
| Middleware.NotUnder | middleware.ts:36-38 | a path that differs from a route early is not under it |
| Middleware.NotPublic | middleware.ts:23-38 | a path that differs early from every listed route except '/' is not public |
| Middleware.AdministratorIsAdminOnly | middleware.ts:59-64 | /administrator sends a non-admin to /dashboard |
| Middleware.MissingRoleIsCustomer | middleware.ts:54-72 | a user without a role, or with an empty one, is sent from the dashboard to / |
| Middleware.DashboardIsNotPublic | middleware.ts:23-38 | paths starting with /dashboard are not public |
| Middleware.AdminEntersEverywhere | middleware.ts:54-87 | a signed-in admin is never redirected |
| Middleware.RoleRedirectsSettle | middleware.ts:54-79 | a role redirect never loops: its target admits the user or redirects once more to /, which is public |
| PathMatch.AtOrUnderIsSegmentPrefix | src/components/navigation/sidebar.tsx:86 | a path is at or under a route iff it equals it or extends it at a '/' boundary |
| PathMatch.SiblingDoesNotMatch | src/components/navigation/sidebar.tsx:86 | a path sharing only a string prefix with the route does not match |
| PathMatch.AtOrUnderTransitive | src/components/navigation/sidebar.tsx:86 | below a sub-route is below the route |
| PathMatch.RootMatchesOnlyRoot | middleware.ts:36-38 | the route '/' matches only '/' and paths starting with '//' |
| PathMatch.DashboardProducts2IsNotUnderProducts | src/components/navigation/mobile-nav.tsx:34 | /dashboard/products2 is not under /dashboard/products |
| NavigationConfig.Filter | src/config/navigation.tsx:399-401 | the filter keeps exactly the elements that pass, and no more than the input |
| NavigationConfig.FilterIsSubsequence | src/config/navigation.tsx:399-412 | the filter keeps its survivors in their original order |
| NavigationConfig.FilterAllKept | src/config/navigation.tsx:399-412 | a list whose elements all pass is unchanged |
| NavigationConfig.FilterIdempotent | src/config/navigation.tsx:399-412 | filtering twice equals filtering once |
| NavigationConfig.MapGroups | src/config/navigation.tsx:405-408 | each kept group keeps its other fields and has its items filtered, while sub-items are not filtered |
| NavigationConfig.FilterNavByRole | src/config/navigation.tsx:394-414 | every item left in mainNav and mobileNav is visible to the role; items without roles are always kept; a group is kept iff visible, with its items filtered |
| NavigationConfig.FilterNavKeepsOrder | src/config/navigation.tsx:399-412 | every output list is an order-preserving subsequence of its input |
| NavigationConfig.FilterNavIdempotent | src/config/navigation.tsx:394-414 | filtering by the same role twice equals filtering once |
| NavigationConfig.FilterNavParts | src/config/navigation.tsx:394-414 | the filter is the three list filters put together |
| NavigationConfig.VendorOnlyItems | src/config/navigation.tsx:35-203 | every sidebar item of the vendor dashboard is restricted to vendors |
| NavigationConfig.UnrestrictedParts | src/config/navigation.tsx:35-231 | the vendor groups and mobile items carry no role list, so every role keeps them |
| NavigationConfig.FilterVendorNavigation | src/config/navigation.tsx:35-231 | for any role, both groups and the whole mobile bar are kept |
| NavigationConfig.CustomerSeesEmptyVendorSidebar | src/config/navigation.tsx:394-414 | a customer keeps both sidebar groups with no items, and every mobile item |
| NavigationConfig.CustomerGroupsEmptied | src/config/navigation.tsx:402-409 | for a customer both vendor groups lose all their items |
| NavigationConfig.VendorSeesEverything | src/config/navigation.tsx:394-414 | a vendor keeps the whole vendor navigation |
| NavigationConfig.VendorGroupsKept | src/config/navigation.tsx:402-409 | a vendor keeps both groups whole |
| NavigationConfig.NoneVisible | src/config/navigation.tsx:399-401 | items restricted to vendors all disappear for another role |
| Sidebar.AnySubActive | src/components/navigation/sidebar.tsx:79 | true iff some sub-item is active for the path |
| Sidebar.InitiallyOpen | src/components/navigation/sidebar.tsx:76-83 | a parent starts open iff the path is its href or some sub-item is active |
| Sidebar.SubRows | src/components/navigation/sidebar.tsx:145-170 | one sub-row per sub-item, highlighted iff active, with the sub-item badge rule |
| Sidebar.Render | src/components/navigation/sidebar.tsx:85-209 | disabled first, then items with sub-items, then links; the collapsible is open iff not collapsed and open; external links get _blank and noopener noreferrer, others neither; badges only when not collapsed |
| Sidebar.OpenParentShowsActiveSub | src/components/navigation/sidebar.tsx:76-170 | a parent that starts open for a path other than its href shows a highlighted sub-row |
| Sidebar.StoreRowActiveButClosed | src/components/navigation/sidebar.tsx:76-86 | "Store Settings" is highlighted on /dashboard/store/domains yet starts closed |
| Sidebar.CreatePageHighlightsTwoSubRows | src/components/navigation/sidebar.tsx:150-156 | on the "Add New" page both "All Products" and "Add New" are highlighted |
| Sidebar.QueryHrefNeverActive | src/components/navigation/sidebar.tsx:155 | a sub-item whose href has a query string is never highlighted |
| Sidebar.PendingOrdersNeverActive | src/config/navigation.tsx:97-100 | the "Pending" orders link is never highlighted |
| BadgeView.AndBadge | src/components/navigation/mobile-nav.tsx:50-57 | a badge element is rendered iff the badge is truthy; a zero or NaN count renders as stray text |
| BadgeView.SubBadge | src/components/navigation/sidebar.tsx:162 | a sub-item badge is shown iff defined and a positive number or a non-empty text, and never as stray text |
| BadgeView.SubBadgeImpliesTruthy | src/components/navigation/sidebar.tsx:162 | the sub-item rule shows a badge only where the top-level rule would, and agrees on texts |
| BadgeView.NegativeCountDiffers | src/components/navigation/sidebar.tsx:162 | a negative count shows at the top level but not on a sub-item |
| BadgeView.ZeroCountRendersZero | src/components/navigation/sidebar.tsx:199-203 | a zero count renders the text "0"; an empty text renders nothing |
| MobileNav.RenderTab | src/components/navigation/mobile-nav.tsx:33-57 | a tab is active iff the path is at or under its href; aria-current is 'page' exactly then; the badge shows iff truthy |
| MobileNav.Render | src/components/navigation/mobile-nav.tsx:33 | one tab per item, in order |
| MobileNav.SiblingTabNotCurrent | src/components/navigation/mobile-nav.tsx:34-44 | a path sharing only a string prefix with the href is not current |
| MobileNav.ProductsPageMarksTwoTabs | src/components/navigation/mobile-nav.tsx:34-44 | on /dashboard/products both "Home" and "Products" are current |
| FileUpload.UploadFailure | src/components/products/file-upload.tsx:82-116 | an upload succeeds iff a URL was granted and the PUT was answered ok; a refused URL fails with its error or the fallback text; a failed PUT fails with the S3 message |
| FileUpload.Widget.constructor | src/components/products/file-upload.tsx:23-31 | no file, not uploading, no progress, no messages, no highlight |
| FileUpload.Widget.HandleDrag | src/components/products/file-upload.tsx:34-42 | enter and over light the drop zone, leave darkens it, any other event leaves it |
| FileUpload.Widget.HandleFileSelect | src/components/products/file-upload.tsx:54-65 | clears success; an oversized file sets the error and keeps the old file; otherwise the file is taken and the error cleared |
| FileUpload.Widget.HandleDrop | src/components/products/file-upload.tsx:44-52 | the drop zone goes dark and only the first dropped file, if any, is selected |
| FileUpload.Widget.HandleUpload | src/components/products/file-upload.tsx:73-121 | without a file nothing changes; success ends at 100 with one completion call carrying key and URL; failure ends at 0 with the error and no call; never uploading afterwards |
| FileUpload.Widget.HandleRemove | src/components/products/file-upload.tsx:123-131 | resets file, progress, error and success and keeps the highlight |
| FileUpload.LimitIsInclusive | src/components/products/file-upload.tsx:23 | with the default limit a file of exactly 104857600 bytes is taken and one byte more is not |
| FileUpload.AdvertisedButRefused | src/components/products/file-upload.tsx:22 | of the ten offered extensions the upload route allows only the two video types |
| ProductFormContent.InitialValues | src/components/products/product-form-content.tsx:57-75 | the product's fields with missing texts as '', or the empty form with price 0 and status draft |
| ProductFormContent.Toggle | src/components/products/product-form-content.tsx:121-129 | flips membership of exactly the given section |
| ProductFormContent.ToggleTwice | src/components/products/product-form-content.tsx:121-129 | toggling twice restores the set |
| ProductFormContent.TogglesCommute | src/components/products/product-form-content.tsx:121-129 | toggles of two sections commute |
| ProductFormContent.SubmitTarget | src/components/products/product-form-content.tsx:143-147 | create posts to /api/products; edit patches /api/products/{id}, with "undefined" for a missing product |
| ProductFormContent.SubmitFailure | src/components/products/product-form-content.tsx:155-171 | the save fails unless the response is ok; an error response fails with its error or the fallback text |
| ProductFormContent.RestoreOver | src/components/products/product-form-content.tsx:109-112 | every field the draft holds is written over the form; a field it leaves out keeps the form's value |
| ProductFormContent.RestoreOfSavedIsIdentity | src/components/products/product-form-content.tsx:94-112 | restoring a draft over the form it was saved from gives that form back |
| ProductFormContent.RestoreOverDefaults | src/components/products/product-form-content.tsx:66-112 | a draft saved from a create form restores all of it over the empty defaults |
| ProductFormContent.Form.constructor | src/components/products/product-form-content.tsx:47-76 | all four sections expanded, 'basic' active, not saving or submitting, the initial values |
| ProductFormContent.Form.LoadDraft | src/components/products/product-form-content.tsx:104-119 | in create mode a parseable stored draft is written over the form with an info toast; otherwise nothing changes |
| ProductFormContent.Form.ToggleSection | src/components/products/product-form-content.tsx:121-129 | the expanded set becomes the toggled set and nothing else changes |
| ProductFormContent.Form.ScrollToSection | src/components/products/product-form-content.tsx:131-137 | the section becomes the active one and nothing else changes |
| ProductFormContent.Form.SetValues | src/components/products/product-form-content.tsx:78 | a user edit replaces the values only |
| ProductFormContent.Form.AutoSaveDraft | src/components/products/product-form-content.tsx:88-101 | nothing at all while saving or submitting (the early return leaves the saving flag as it was); otherwise the values are stored with the time unless storage throws, and the saving flag is cleared again; sections, values, toasts and callbacks are untouched |
| ProductFormContent.Form.OnDebouncedValues | src/components/products/product-form-content.tsx:82-86 | autosave runs only in create mode with a non-empty title, and then stores the draft and the save time unless it is skipped or storage throws; edit mode never writes the draft; nothing else changes |
| ProductFormContent.Form.OnSubmit | src/components/products/product-form-content.tsx:139-174 | on success a toast, the draft removed in create mode only and one onSuccess call; on failure an error toast; submitting is over either way |
| ProductFormContent.Form.HandleSubmit | src/components/products/product-form-content.tsx:55-56 | the resolver validates the whole form before `onSubmit` (both submit paths, lines 232 and 315); a valid form gets OnSubmit's outcome, and an invalid one changes nothing |
| ProductFormContent.WrittenInitialValuesNeverValidate | src/components/products/product-form-content.tsx:57-75 | a create form, or an edit form whose product has no thumbnail, starts with thumbnailUrl '', which no section edits, so no edited form of it is valid while '' is not a URL |
| ProductFormContent.WrittenCreateFormNeverSubmits | src/components/products/product-form-content.tsx:55-75 | whatever the sections hold, submitting a new form shows no toast, calls onSuccess zero times and keeps the stored draft |
| ProductFormContent.IntendedInitialValues | src/components/products/product-form-content.tsx:57-75 | the written defaults with a missing thumbnail left undefined; a product with a thumbnail keeps exactly the written defaults |
| ProductFormContent.IntendedCreateFormCanBeCompleted | src/components/products/product-form-content.tsx:55-75 | with the intended defaults, a new form with only a title and slug entered is valid |
| NavigationContext.LoadCollapsed | src/contexts/navigation-context.tsx:29-34 | a stored value sets collapsed to whether it is exactly "true"; no stored value keeps the default |
| NavigationContext.LoadOfSaved | src/contexts/navigation-context.tsx:29-39 | loading what was saved gives back the saved flag |
| NavigationContext.OnlyTrueLoadsCollapsed | src/contexts/navigation-context.tsx:32 | any stored text other than "true" loads as not collapsed |
| NavigationContext.UseNavigation | src/contexts/navigation-context.tsx:103-108 | outside a provider the hook throws; inside it returns the provider's value |
| NavigationContext.Provider.constructor | src/contexts/navigation-context.tsx:24-39 | sidebar open, mobile menu closed, collapsed as loaded from storage or the default |
| NavigationContext.Provider.ToggleSidebar | src/contexts/navigation-context.tsx:41-43 | flips only the sidebar flag |
| NavigationContext.Provider.CollapseSidebar | src/contexts/navigation-context.tsx:45-47 | collapsed becomes true and "true" is stored; no other flag changes |
| NavigationContext.Provider.ExpandSidebar | src/contexts/navigation-context.tsx:49-51 | collapsed becomes false and "false" is stored; no other flag changes |
| NavigationContext.Provider.ToggleMobileMenu | src/contexts/navigation-context.tsx:53-80 | flips only the mobile flag; body overflow is 'hidden' iff the menu is open |
| NavigationContext.Provider.Resize | src/contexts/navigation-context.tsx:58-67 | a width of 768 or more closes the mobile menu; a narrower one leaves it |
| NavigationContext.TogglesUndo | src/contexts/navigation-context.tsx:41-55 | toggling either flag twice restores every flag; collapsing twice equals collapsing once |
| NavigationContext.RemountKeepsCollapsed | src/contexts/navigation-context.tsx:29-39 | a remount reads back the collapsed flag the previous provider stored |
| ApiProducts.VendorId | src/app/api/products/route.ts:20 | the user's id, or 'default-vendor' when it is missing or empty |
| ApiProducts.ReadFilters | src/app/api/products/route.ts:24-33 | empty values become undefined; sortBy, sortOrder, page and pageSize default to createdAt, desc, 1 and 20, the last two through parseInt |
| ApiProducts.PageCount | src/app/api/products/route.ts:52 | the ceiling of total / pageSize |
| ApiProducts.Get | src/app/api/products/route.ts:12-61 | 401 iff no session; 400 iff the filters are invalid, with their issues; a listing only when the data layer answered, carrying its products and total, the parsed page and page size, and totalPages the ceiling of total over page size |
| ApiProducts.UnauthorizedFirst | src/app/api/products/route.ts:14-17 | without a session neither the query nor the data layer affects the answer |
| ApiProducts.InvalidFiltersNeverQuery | src/app/api/products/route.ts:36-42 | invalid filters give 400 without consulting the data layer |
| ApiProducts.EmptyQueryDefaults | src/app/api/products/route.ts:24-33 | an empty query string gives newest first, page 1 of 20 |
| ApiProducts.NonNumericPageRefused | src/app/api/products/route.ts:31-42 | a page that parses to NaN gives 400 |
| ApiProducts.IssueSummary | src/app/api/products/route.ts:90 | the "path: message" lines joined by ", " |
| ApiProducts.CatchError | src/app/api/products/route.ts:106-124 | 409 iff the message contains 'unique', otherwise 500 with the message |
| ApiProducts.Post | src/app/api/products/route.ts:66-126 | 401 iff no session; 400 iff the body is invalid, with its issues and joined message; 201 iff valid and created, carrying the created product; a body that fails to parse, or a failed create, goes to the catch block with its message (409 when it mentions 'unique', else 500) |
| ApiProducts.ShortTitleIssues | src/lib/validations/product.ts:11-14 | a short title gives exactly the one "at least 3 characters" issue |
| ApiProducts.ShortTitleSummary | src/app/api/products/route.ts:90 | its message is "title: Title must be at least 3 characters" |
| ApiProducts.ShortTitleMessage | src/app/api/products/route.ts:84-93 | a form refused only for its title is answered with that issue and message |
| ApiUpload.Post | src/app/api/upload/route.ts:12-73 | 401 iff no session; a grant iff the schema, type and size checks pass and signing works; refusals name the failed check |
| ApiUpload.GrantedCarriesTarget | src/app/api/upload/route.ts:52-66 | a grant carries exactly the URLs and key URL generation returned, for the user's id or 'default-vendor' |
| ApiUpload.FirstFailureDecides | src/app/api/upload/route.ts:24-48 | the checks run in order schema, type, size, and the first failure decides |
| ApiUpload.PdfRefused | src/app/api/upload/route.ts:35-40 | a PDF is refused as a type however small |
| InvoicesPage.CurrentPage | src/app/dashboard/invoices/page.tsx:43 | the page number when truthy, otherwise 1 |
| InvoicesPage.PageParams | src/app/dashboard/invoices/page.tsx:46-51 | the query parameter only when the search is non-empty, always the page, the page last |
| InvoicesPage.PageUrl | src/app/dashboard/invoices/page.tsx:45-50 | a page link always goes to the invoices path; its exact query is given by PageUrlWithoutQuery and PageUrlWithQuery |
| InvoicesPage.PageUrlWithoutQuery | src/app/dashboard/invoices/page.tsx:46-51 | without a search the link carries the page alone |
| InvoicesPage.PageUrlWithQuery | src/app/dashboard/invoices/page.tsx:46-51 | with a search the query comes before the page |
| InvoicesPage.ClassifyPosition | src/app/dashboard/invoices/page.tsx:83-88 | the successive overwrites give '...' middle anywhere, then single for one entry, then last, then first |
| InvoicesPage.Items | src/app/dashboard/invoices/page.tsx:82-104 | one item per entry; an ellipsis iff the entry is '...'; a link is active iff its entry is the current page number |
| InvoicesPage.AtMostOneActive | src/app/dashboard/invoices/page.tsx:97 | with distinct page numbers at most one link is active |
| InvoicesPage.OtherLabelsBecomeLinks | src/app/dashboard/invoices/page.tsx:92-100 | a label other than '...' becomes an inactive link named after it |
| InvoicesPage.EndsOfLongList | src/app/dashboard/invoices/page.tsx:83-88 | in a list of two or more the ends are first and last and inner entries have no position |
| InvoicesPage.RenderArrows | src/app/dashboard/invoices/page.tsx:76-110 | previous is disabled iff the page is at most 1, next iff it is at least the page count, linking to the neighbouring pages |
| InvoicesPage.ArrowsEnabledStrictlyInside | src/app/dashboard/invoices/page.tsx:76-110 | both arrows are enabled iff the page lies strictly between 1 and the count |
| InvoicesPage.NegativePageKept | src/app/dashboard/invoices/page.tsx:43-110 | page -3 is kept, with previous disabled and next enabled |
| SetupCheck.MissingCount | src/app/dashboard/setup-check/page.tsx:57 | the number of required checks without a value, at most the number of checks |
| SetupCheck.AllRequiredIffNoneMissing | src/app/dashboard/setup-check/page.tsx:56-57 | everything required is set iff nothing is missing |
| SetupCheck.MissingAtMostRequired | src/app/dashboard/setup-check/page.tsx:57 | at most the required checks are missing, and all of them when none is set |
| SetupCheck.SevenRequired | src/app/dashboard/setup-check/page.tsx:9-54 | seven of the eight checks are required; only MAX_FILE_SIZE is not |
| SetupCheck.OptionalIgnored | src/app/dashboard/setup-check/page.tsx:50-57 | setting or clearing MAX_FILE_SIZE changes neither the verdict nor the count |
| SetupCheck.DisplayValue | src/app/dashboard/setup-check/page.tsx:103-106 | unset shows 'Not set'; a set masked value shows bullets, never the value; otherwise the value |
| SetupCheck.SummaryPlural | src/app/dashboard/setup-check/page.tsx:87 | "variable" for one missing, "variables" otherwise |
| SetupCheck.NextSteps | src/app/dashboard/setup-check/page.tsx:146-190 | a step for each of a missing database URL, access key or auth secret, then restart and migrate |
| SetupCheck.StepsContain | src/app/dashboard/setup-check/page.tsx:146-190 | each conditional step is listed iff its condition holds, and the two fixed steps end the list |
| SetupCheck.Render | src/app/dashboard/setup-check/page.tsx:56-214 | complete iff nothing is missing; the next-steps card iff incomplete, the success card iff complete; one row per check with its set state and required badge |
| SetupCheck.MissingBucketHasNoStep | src/app/dashboard/setup-check/page.tsx:146-190 | a missing bucket alone makes the page incomplete yet lists only the two fixed steps |
| SetupCheck.MissingCountOfChecks | src/app/dashboard/setup-check/page.tsx:57 | the count over the page's list, check by check |
| Header.UnreadCount | src/components/navigation/header.tsx:102 | the number of unread notifications, at most the list length |
| Header.NoUnreadIffAllRead | src/components/navigation/header.tsx:102 | the count is 0 iff every notification is read |
| Header.AllUnreadIffFullCount | src/components/navigation/header.tsx:102 | the count is the length iff none is read |
| Header.RenderBell | src/components/navigation/header.tsx:109-166 | both unread badges show iff the count is positive; "No notifications" iff the list is empty; "View all" iff it is not |
| Header.SampleHasTwoUnread | src/components/navigation/header.tsx:78-102 | the sample list shows two unread |
| Header.FirstCharsLength | src/components/navigation/header.tsx:175-176 | one character per non-empty word |
| Header.Initials | src/components/navigation/header.tsx:173-178 | at most two characters, as many as there are non-empty words up to two |
| Header.InitialsOfFirstChars | src/components/navigation/header.tsx:173-178 | the initials are the first two first characters, upper-cased |
| Header.SplitTwoWords | src/components/navigation/header.tsx:174 | a name of two words splits into those two |
| Header.SplitMoreWords | src/components/navigation/header.tsx:174 | a longer name splits into its first two words and the rest |
| Header.InitialsOfTwoWords | src/components/navigation/header.tsx:173-178 | two words give their upper-cased first characters |
| Header.LaterWordsIgnored | src/components/navigation/header.tsx:173-178 | words after the second do not change the initials |
| Header.FirstCharsAppend | src/components/navigation/header.tsx:175-176 | the first characters of two word lists put together |
| Header.FirstCharsCons | src/components/navigation/header.tsx:175-176 | an empty word contributes nothing |
| Header.DoubleSpaceIgnored | src/components/navigation/header.tsx:173-176 | a doubled space adds no initial |
| Header.Render | src/components/navigation/header.tsx:43-70 | search and notifications show unless switched off; the user menu iff a user is given, with their initials |
| ProductsPage.FetchParams | src/app/dashboard/products/page.tsx:36-40 | status unless 'all', sortBy, sortOrder desc, search only when non-empty, and no paging |
| ProductsPage.FetchParamsGet | src/app/dashboard/products/page.tsx:36-40 | each parameter of the built query reads back as appended |
| ProductsPage.GetCons | src/app/dashboard/products/page.tsx:36-40 | reading a parameter from a query with a known first pair |
| ProductsPage.EndpointReadsPageFilters | src/app/dashboard/products/page.tsx:36-42 | the list endpoint reads the page's filters back, with page 1 of 20 |
| ProductsPage.Remove | src/app/dashboard/products/page.tsx:63 | exactly the products with another id remain |
| ProductsPage.RemoveMultiplicity | src/app/dashboard/products/page.tsx:63 | every product with another id stays exactly as many times as the list held it, and every product with that id is gone |
| ProductsPage.RemoveKeepsOrder | src/app/dashboard/products/page.tsx:63 | the remaining products keep their order |
| ProductsPage.RemoveIdempotent | src/app/dashboard/products/page.tsx:63 | deleting twice is deleting once |
| ProductsPage.RemoveAbsent | src/app/dashboard/products/page.tsx:63 | deleting an absent id changes nothing |
| ProductsPage.EmptyMessage | src/app/dashboard/products/page.tsx:135-137 | the "no match" text iff a search or status filter is set |
| ProductsPage.CountLabel | src/app/dashboard/products/page.tsx:159-163 | singular iff exactly one product |
| ProductsPage.Page.constructor | src/app/dashboard/products/page.tsx:23-31 | default filters, one fetch with them, loading over, products from the answer or [] with an error toast |
| ProductsPage.Page.FetchProducts | src/app/dashboard/products/page.tsx:33-55 | sends the current filters; products replaced only by a successful answer, else an error toast; loading over either way |
| ProductsPage.Page.SetSearch | src/app/dashboard/products/page.tsx:93 | typing changes the search only and fetches nothing |
| ProductsPage.Page.HandleSearch | src/app/dashboard/products/page.tsx:57-60 | submitting refetches with the current inputs: the list is replaced by a successful answer, else kept with an error toast; the filters stay |
| ProductsPage.Page.SetStatus | src/app/dashboard/products/page.tsx:103 | a new status refetches with it and the typed search (list replaced on success, error toast otherwise); the same status again sends nothing and changes nothing else |
| ProductsPage.Page.SetSortBy | src/app/dashboard/products/page.tsx:116 | a new sort column refetches with it (list replaced on success, error toast otherwise); the same column again sends nothing and changes nothing else |
| ProductsPage.Page.HandleDelete | src/app/dashboard/products/page.tsx:62-65 | the product leaves the list with a toast and no request |
| ProductsPage.Page.Render | src/app/dashboard/products/page.tsx:130-163 | skeleton while loading, then the empty message or the grid with its count |
| ProductsPage.ProductsOrEmpty | src/app/dashboard/products/page.tsx:48 | the answer's products or [] |
| ProductsPage.DeleteLastProduct | src/app/dashboard/products/page.tsx:62-137 | deleting the only product leaves the "create your first product" message |

## Left out

- The database, object storage, `auth()`, `fetch`, `localStorage`, timers, the router and toasts' UI are not modelled. Each appears as a parameter or as a recorded request, toast or call.
- What the generated SQL does in the database, the row mapping `mapProductFromDb`, `createProduct`, `getProductById`, `deleteProduct`, `getDraftCount` and the interpolated link inserts are not modelled. The SQL builders produce their conditions, SET entries and parameters as sequences.
- ObjectStorage.FormatFileSize: only the zero case is stated. Other sizes go through floating-point `Math.log`/`toFixed`, which is a parameter.
- ObjectStorage.GenerateUploadUrl: the presigner `getSignedUrl` is a parameter, and the one-hour expiry is not modelled.
- `Number()`, `toString` of a number, percent-encoding and `URLSearchParams.toString` are parameters. `parseInt` is modelled as leading blanks, an optional sign and the longest run of decimal digits, read as an unbounded integer: the double-precision range (a long digit run that becomes `Infinity`, which the products route would refuse with 400) and the rounding of runs beyond 2^53 are not modelled.
- Case mapping and regular expressions are modelled on ASCII characters; `n[0]` is taken per character, not per UTF-16 code unit.
- `generatePagination`, `fetchInvoicesPages` and the rest of `src/lib/utils` and `src/lib/data` are not part of this model; the page list and the page count are parameters.
- The JSON bodies are assumed to have the shape the handlers read. A body that fails to parse is its own case; a body of another shape is not modelled.
- The Zod `url()` and `uuid()` checks are parameters.
- React rendering beyond the values listed (class names, icons, layout), the debounce delay, state batching and the timing of effects are left out. Effects run in order, right after the change that triggers them.
- ProductFormContent.Form.ScrollToSection: the scrolling itself is left out (DOM).
- FileUpload.Widget.HandleUpload: `onUploadComplete` is assumed not to throw, and the progress is not modelled between 0 and 100.
- The header's notifications are the component's fixed sample; the search box and the command palette are left out.
- Landing pages, skeletons, tables, cards, logos, the form section renderers other than the slug generator, and the login and sign-up forms have no logic worth stating and are left out.

## Findings

| source | as written | input that shows it | evidently intended | confidence | as-written member | corrected member |
|---|---|---|---|---|---|---|
| src/app/dashboard/products/create/page.tsx:51 | the create page's defaults set `thumbnailUrl: ''`; the schema's `url().optional()` at src/lib/validations/product.ts:40 refuses '', and the page has no thumbnail input | any title, slug, price and status entered on the page: validation fails on `thumbnailUrl` and the submit handler never runs | leave `thumbnailUrl` undefined by default, so that a form with a valid title and slug can be submitted | not executed | CreateProductPage.WrittenDefaultsNeverValidate | CreateProductPage.DefaultsCanBeCompleted |
| src/components/products/product-form-content.tsx:74 | the product form's defaults set `thumbnailUrl: ''` for a new product (and `product.thumbnailUrl \|\| ''` at line 65 for a product without one); the resolver at line 56 applies `url().optional()` from src/lib/validations/product.ts:40, which refuses '', and no section of the form edits the thumbnail | a new product with any title, slug, price and status: both submit paths (lines 232 and 315) stop at validation and `onSubmit` never runs | leave `thumbnailUrl` undefined when there is no thumbnail, so that a form with a valid title and slug can be submitted | not executed | ProductFormContent.WrittenCreateFormNeverSubmits | ProductFormContent.IntendedCreateFormCanBeCompleted |
