# Bunaken boat rentals: a Dafny model of the web client's core

The Bunaken boat-rental site is a React client. It shows bilingual
(Indonesian / English) boat-tour packages and add-ons, and it has an admin
dashboard for editing them. This project models the client's core in Dafny:

- **The package repository** (`PackageContext`). It normalises the package
  and add-on records the API sends: route coercion, the canonical `id`/`ID`,
  and Indonesian fields falling back to the legacy single-language fields.
  It builds the create and partial-update request bodies. It keeps its
  collections when a fetch fails. `PackageStore` is a class whose `packages`
  and `addOns` fields the operations replace.
- **The admin session** (`AdminContext`). `AdminSession` is a class holding
  the authenticated flag and the stored bearer token. It has login, logout,
  the effect of a 401 answer, and `changePassword`, which picks a message.
- **The admin dashboard** (`AdminDashboard`). The pure helpers are:
  - `transformRoutesForEdit` and the draft built by `handleEdit`;
  - the `handleSave` payload and where it is sent;
  - image-URL resolution;
  - the list edits;
  - the image and password validators.

  `Dashboard` is a class holding the dashboard's state variables: the draft
  being edited, the selected route, the add-on draft, the dialogs, the
  password form, the image preview and the active language tab. Each handler
  is a method with a field-level `modifies` clause.
- **The route guard** (`ProtectedRoute`). It decides between rendering the
  page and redirecting to the login page.
- **Cloudinary helpers** (`Cloudinary`). `getOptimizedImageUrl` inserts a
  transformation after `/upload/`. The module also has the two stubs.
- **Booking links** (`PackagesSection`). A WhatsApp message is built from a
  template by placeholder substitution, then opened through a `wa.me` link.

Two support modules define the JavaScript semantics the code relies on.

- `Js` gives the truthiness behind `a || b`:
  - `""` and `0` fall through;
  - an array, even an empty one, does not.

  Undefined fields are `Option`s. `FirstTruthy` is a reference definition of
  a `||` chain over strings, and lemmas relate the inline chains to it.
- `JsString` models `includes`, `indexOf`, `startsWith`, `replace` with a
  string pattern (first occurrence only), `join`, `String(n)` on integers
  (with a parse-back round trip) and `trim`.

Requests and their outcomes are parameters:
- a fetch either `Failed`, answered `NotAnArray`, or returned `Records`;
- a mutation is `accepted` or not, and the fetch that follows a success is
  also a parameter;
- the login, password and upload replies are datatypes.

Each state-changing method states its whole new state and the request it
sends. The properties are proved about the functions that specify them.

## Model

| member | source | states |
|---|---|---|
| `PackageContext.PriceString` | src/contexts/PackageContext.tsx:104-107 | A route price is its text when it is text, "" when missing or null, and the decimal text of a number, which reads back as the same number. |
| `PackageContext.TransformRoute` | src/contexts/PackageContext.tsx:100-116 | A non-object element becomes an all-empty route. An object route's name is the first non-empty of `name`, `name_id`, `name_en`. `name_id` falls back to `name`, and so does `name_en`. The price is coerced to text. |
| `PackageContext.TransformEach` | src/contexts/PackageContext.tsx:100-116 | One route per input element, in order, each the transform of its element. |
| `PackageContext.TransformRoutes` | src/contexts/PackageContext.tsx:98-117 | A missing or non-array input gives no routes. Otherwise there is one route per element, each the transform of its element. |
| `PackageContext.CanonicalId` | src/contexts/PackageContext.tsx:133-134 | The canonical id is the first non-zero of `ID` and `id`, else 0. It is 0 exactly when both are 0 or absent, and a non-zero result is one of the two. |
| `PackageContext.NormalizePackage` | src/contexts/PackageContext.tsx:95-167 | See the list below the table. |
| `PackageContext.NormalizeAll` | src/contexts/PackageContext.tsx:94-95 | Every record is normalised in order; every result is displayable and has `id == ID`. |
| `PackageContext.NormalizeAddOn` | src/contexts/PackageContext.tsx:187-190 | An add-on gets `id` by the same canonical-id rule; every other field is kept as sent. |
| `PackageContext.NormalizeAddOns` | src/contexts/PackageContext.tsx:186-191 | Every add-on record is normalised in order. |
| `PackageContext.RouteEntryOf` | src/contexts/PackageContext.tsx:227-231 | A route is sent as `name_id`, `name_en` and `price` only. Each localised name falls back to the display name. |
| `PackageContext.RouteEntries` | src/contexts/PackageContext.tsx:226-232 | One entry per route, in order. |
| `PackageContext.EntriesOf` | src/contexts/PackageContext.tsx:226-239 | A route list is sent exactly when it is defined, as its entries. |
| `PackageContext.BuildUpdatePayload` | src/contexts/PackageContext.tsx:215-276 | See the list below the table. |
| `PackageContext.ImageKeptByUpdate` | src/contexts/PackageContext.tsx:271-278 | Under the server's keep-absent-keys merge, an update whose image URL is undefined or empty keeps the stored image. A non-empty one replaces it. |
| `PackageContext.EmptyPatchChangesNothing` | src/contexts/PackageContext.tsx:215-276 | A patch that defines nothing sends `{}`, and the stored package is unchanged. |
| `PackageContext.CreateRoutesId` | src/contexts/PackageContext.tsx:301-315 | The create body's `routes_id` is the non-empty `routes_id`, else the non-empty `routes`, else empty. It is empty exactly when both lists are missing or empty. |
| `PackageContext.BuildCreatePayload` | src/contexts/PackageContext.tsx:292-353 | The create body carries every key, with "" or `[]` where the data is unset. Each legacy field and its Indonesian counterpart fall back to each other. English fields fall back to nothing. `is_popular` is `popular \|\| false`. |
| `PackageContext.CreateBodyComplete` | src/contexts/PackageContext.tsx:295-336 | A create body defines every name and description key. Each is the first non-empty value among its own field and the other-language or legacy one. |
| `PackageContext.CreateLegacyRoutesMirror` | src/contexts/PackageContext.tsx:337-345 | When the legacy routes are missing or empty, the legacy `routes` sent equal the `routes_id` sent. |
| `PackageContext.AddOnUpdateBody` | src/contexts/PackageContext.tsx:379-381 | The add-on update body is the data without `id` and `ID`; restoring them gives back the data. |
| `PackageContext.PackageStore.constructor` | src/contexts/PackageContext.tsx:84-85 | Both collections start empty. |
| `PackageContext.PackageStore.FetchPackages` | src/contexts/PackageContext.tsx:88-181 | Requests `/packages?lang=en` for English and `lang=id` otherwise. An array response replaces `packages` by its normalisation. A failure or a non-array leaves `packages` unchanged. |
| `PackageContext.PackageStore.FetchAddOns` | src/contexts/PackageContext.tsx:183-202 | The same keep-on-failure rule for `addOns`. |
| `PackageContext.PackageStore.UpdatePackage` | src/contexts/PackageContext.tsx:213-288 | Sends `PUT /admin/packages/<id>` with the partial body. After success the collection is re-fetched; after failure it is unchanged and the error is reported. |
| `PackageContext.PackageStore.AddPackage` | src/contexts/PackageContext.tsx:290-363 | Sends `POST /admin/packages` with the full create body. It re-fetches after success and leaves the collection unchanged on failure. |
| `PackageContext.PackageStore.DeletePackage` | src/contexts/PackageContext.tsx:365-375 | Sends `DELETE /admin/packages/<id>` with the same success and failure rule. |
| `PackageContext.PackageStore.UpdateAddOn` | src/contexts/PackageContext.tsx:377-391 | Sends `PUT /admin/addons/<id>` with the data minus its ids, then re-fetches the add-ons on success. |
| `PackageContext.PackageStore.AddAddOn` | src/contexts/PackageContext.tsx:393-403 | Sends `POST /admin/addons` with the data as given, then re-fetches the add-ons on success. |
| `PackageContext.PackageStore.RemoveAddOn` | src/contexts/PackageContext.tsx:405-415 | Sends `DELETE /admin/addons/<id>`, then re-fetches the add-ons on success. |
| `AdminContext.AdminSession.constructor` | src/contexts/AdminContext.tsx:19-21 | The session is authenticated exactly when a non-empty token is stored. |
| `AdminContext.AdminSession.Login` | src/contexts/AdminContext.tsx:23-37 | Login succeeds exactly when the answer carries a non-empty token. Then that token is stored and the session is authenticated. A 401 refusal ends the session as `Unauthorized` does. Any other failure leaves the flag and the token untouched. Both failures return false. |
| `AdminContext.AdminSession.Logout` | src/contexts/AdminContext.tsx:39-42 | Logout clears the flag and removes the token, with no request. |
| `AdminContext.AdminSession.Unauthorized` | src/lib/api.ts:52-55 | A 401 answer removes the token and reloads the login page, so the session is unauthenticated. |
| `AdminContext.AdminSession.ChangePassword` | src/contexts/AdminContext.tsx:44-70 | Never fails. Success is exactly an answered request, carrying the message only when it is non-empty. A failure carries the first non-empty of the response's message, the error's message and "Gagal mengubah password", so its message is never empty. |
| `ProtectedRoute.Access` | src/components/ProtectedRoute.tsx:8-21 | The page renders exactly when the session flag is set or the session-storage entry is exactly "true". Anything else is a replacing redirect to `/admin/login`. |
| `Cloudinary.DeleteFromCloudinary` | src/lib/cloudinary.ts:57-61 | Always throws, with the fixed message. |
| `Cloudinary.GetCloudName` | src/lib/cloudinary.ts:95 | Returns the fixed cloud name "donzu56gt". |
| `Cloudinary.Transforms` | src/lib/cloudinary.ts:78-84 | `w_` and `h_` appear only for a present, non-zero width and height. `q_` and `f_` (default "auto") are always last, in the order `w_`, `h_`, `q_`, `f_`. |
| `Cloudinary.TransformString` | src/lib/cloudinary.ts:86 | The comma-joined segments contain no `$`, so they are inserted literally. |
| `Cloudinary.JoinHasNoDollar` | src/lib/cloudinary.ts:86 | Joining `$`-free parts with a `$`-free separator gives a `$`-free string. |
| `Cloudinary.GetOptimizedImageUrl` | src/lib/cloudinary.ts:68-91 | A URL without "cloudinary.com" is returned unchanged, and so is a Cloudinary URL without "/upload/". |
| `Cloudinary.InsertAfterUpload` | src/lib/cloudinary.ts:87 | The transformation lands after the first "/upload/". The text before and after it, later "/upload/"s included, is kept. |
| `Cloudinary.OptimizedUrlShape` | src/lib/cloudinary.ts:77-88 | A Cloudinary URL `p + "/upload/" + q`, whose first "/upload/" follows `p`, becomes `p + "/upload/" + t + "/" + q`. |
| `Cloudinary.DefaultTransformation` | src/lib/cloudinary.ts:78-86 | With no options the transformation is "q_auto,f_auto". |
| `PackagesSection.BookingMessage` | src/components/PackagesSection.tsx:99-102 | A template without "{packageName}" is kept. Otherwise one placeholder is replaced by the name. |
| `PackagesSection.AddOnMessage` | src/components/PackagesSection.tsx:110 | The same for "{addOnName}". |
| `PackagesSection.WhatsAppLink` | src/components/PackagesSection.tsx:103-106 | The link is "https://wa.me/6282196659515?text=" followed by the encoded message. |
| `PackagesSection.BookNowLink` | src/components/PackagesSection.tsx:98-107 | The booking link starts with the WhatsApp prefix. A template without "{packageName}" is sent as it is. |
| `PackagesSection.AddOnInquiryLink` | src/components/PackagesSection.tsx:109-115 | The same for the add-on inquiry link and "{addOnName}". |
| `PackagesSection.BookNowLinkFills` | src/components/PackagesSection.tsx:98-107 | Take a template `p + "{packageName}" + q` whose text `p` has no '{'. The booking link opens the chat with the encoded `p + name + q`. |
| `PackagesSection.AddOnInquiryLinkFills` | src/components/PackagesSection.tsx:109-115 | The same for an add-on inquiry. |
| `PackagesSection.NoEarlierPlaceholder` | src/components/PackagesSection.tsx:99-102 | A placeholder cannot start inside text that has no '{'. |
| `PackagesSection.BookingMessageFills` | src/components/PackagesSection.tsx:99-102 | Take a template `p + "{packageName}" + q` whose text `p` has no '{'. It becomes `p + name + q`, so later placeholders stay verbatim. |
| `PackagesSection.AddOnMessageFills` | src/components/PackagesSection.tsx:110 | The same for the add-on template. |
| `AdminDashboard.RouteForEdit` | src/pages/AdminDashboard.tsx:104-110 | An edited route's name is the first non-empty of its names. Each localised name falls back to the display name. The price is kept. |
| `AdminDashboard.RoutesForEdit` | src/pages/AdminDashboard.tsx:102-111 | One edited route per route, in order. |
| `AdminDashboard.EditFillsRouteNames` | src/pages/AdminDashboard.tsx:104-110 | A fetched route opened in the editor keeps its name and price. Its `name_id` becomes the first non-empty of the raw `name_id`, `name`, `name_en`, and `name_en` the first non-empty of `name_en`, `name`, `name_id`. |
| `AdminDashboard.EditKeepsBlankRoute` | src/pages/AdminDashboard.tsx:104-110 | A route that was not an object opens unchanged. |
| `AdminDashboard.EditKeepsRouteEntry` | src/pages/AdminDashboard.tsx:104-110 | Opening a fetched route in the editor does not change the entry that is sent for it. |
| `AdminDashboard.EditKeepsRouteEntries` | src/pages/AdminDashboard.tsx:117-119 | The same for a whole route list. |
| `AdminDashboard.EditDraft` | src/pages/AdminDashboard.tsx:113-127 | See the list below the table. |
| `AdminDashboard.SavePatch` | src/pages/AdminDashboard.tsx:146-171 | See the list below the table. |
| `AdminDashboard.UntouchedSaveKeepsText` | src/pages/AdminDashboard.tsx:113-171 | Opening a fetched package and saving it untouched sends back the same names and descriptions in both languages, and the same image, popular flag, capacity and duration. |
| `AdminDashboard.UntouchedSaveKeepsLists` | src/pages/AdminDashboard.tsx:113-171 | It also sends back the same feature and include lists in both languages, and the same route entries. |
| `AdminDashboard.CreatedFromEditorMirrorsLegacy` | src/pages/AdminDashboard.tsx:163-180 | A package created from the editor reaches the server with each legacy field equal to its Indonesian counterpart: name, description, routes, features and excludes. |
| `AdminDashboard.SaveKeepsStoredImage` | src/pages/AdminDashboard.tsx:169-171 | Updating from a draft without an image keeps the stored image on the server. A draft with an image replaces it. |
| `AdminDashboard.SaveTargetOf` | src/pages/AdminDashboard.tsx:178-188 | A save creates exactly when both `id` and `ID` are 0 or absent. Otherwise it updates under `id \|\| ID`, which is non-zero and is one of the two. |
| `AdminDashboard.NewDraftIsCreated` | src/pages/AdminDashboard.tsx:210-235 | The empty draft of `handleNewPackage` (id 0) is saved with `addPackage`. |
| `AdminDashboard.FetchedPackageIsUpdated` | src/pages/AdminDashboard.tsx:178-188 | A fetched package with a non-zero canonical id is saved as an update under that id. |
| `AdminDashboard.ResolveImageUrl` | src/pages/AdminDashboard.tsx:471-479 | No image gives none. A URL starting with "http" is kept. Any other URL gets the API host in front. |
| `AdminDashboard.HostIsAbsolute` | src/pages/AdminDashboard.tsx:477 | The API host starts with "http". |
| `AdminDashboard.ResolveIsIdempotent` | src/pages/AdminDashboard.tsx:132-139 | Resolving a resolved URL changes nothing. |
| `AdminDashboard.RemoveAt` | src/pages/AdminDashboard.tsx:287 | Removing index `i` drops exactly that element when `i` is in range and keeps the list otherwise. |
| `AdminDashboard.LegacyRoutesOf` | src/pages/AdminDashboard.tsx:741-744 | The legacy routes rebuilt from the Indonesian ones: one per route, named `name_id \|\| name`, with its price and no localised names. |
| `AdminDashboard.WithIdItems` | src/pages/AdminDashboard.tsx:840-852 | Writing an Indonesian list writes its legacy mirror too and no other list. |
| `AdminDashboard.WithEnItems` | src/pages/AdminDashboard.tsx:1121-1133 | Writing an English list leaves the other lists and the Indonesian and legacy ones alone. |
| `AdminDashboard.WithLegacyItems` | src/pages/AdminDashboard.tsx:315-328 | Writing one legacy list leaves the other alone. |
| `AdminDashboard.WithIdRouteField` | src/pages/AdminDashboard.tsx:729-771 | Typing a route name on the Indonesian tab makes the route send exactly that Indonesian name and keeps its English name and price. Typing a price changes only the price sent. |
| `AdminDashboard.WithEnRouteField` | src/pages/AdminDashboard.tsx:1035-1068 | Typing a route name on the English tab makes the route send exactly that English name. |
| `AdminDashboard.CheckImage` | src/pages/AdminDashboard.tsx:390-415 | An upload passes exactly when its type is jpeg, jpg, png, gif or webp and its size is at most 5·1024·1024 bytes. The type is checked first. |
| `AdminDashboard.CheckPassword` | src/pages/AdminDashboard.tsx:2577-2592 | A password change is sent exactly when the new password has at least 6 characters and equals its confirmation. Length is checked first. |
| `AdminDashboard.DialogName` | src/pages/AdminDashboard.tsx:244 | The delete dialog shows the trimmed name, or "Package" when it is blank. The shown name is never empty and never starts or ends with whitespace. |
| `AdminDashboard.Dashboard.constructor` | src/pages/AdminDashboard.tsx:67-92 | Nothing is being edited, every dialog is closed, the password form is empty and the Indonesian tab is active. |
| `AdminDashboard.Dashboard.HandleLogout` | src/pages/AdminDashboard.tsx:94-97 | The session ends. |
| `AdminDashboard.Dashboard.HandleEdit` | src/pages/AdminDashboard.tsx:99-140 | Opens the filled draft on the Indonesian tab with no route selected. The preview is the package's resolved image. |
| `AdminDashboard.Dashboard.HandleSave` | src/pages/AdminDashboard.tsx:142-200 | A new draft is created with the save payload; an existing one is updated under its id. On success the editor closes; on failure it stays open and the collection is unchanged. Without a draft nothing is sent. |
| `AdminDashboard.Dashboard.HandleCancel` | src/pages/AdminDashboard.tsx:203-208 | Closes the editor and clears the selection and the preview. |
| `AdminDashboard.Dashboard.HandleNewPackage` | src/pages/AdminDashboard.tsx:210-239 | Opens the empty draft on the Indonesian tab with no preview. |
| `AdminDashboard.Dashboard.HandleDeletePackage` | src/pages/AdminDashboard.tsx:241-252 | Opens the dialog on a copy with the dialog name and with each id falling back to the other. The copy has no usable id exactly when the package has none. |
| `AdminDashboard.Dashboard.ConfirmDeletePackage` | src/pages/AdminDashboard.tsx:254-272 | With no package or no non-zero id, nothing happens. Otherwise the package is deleted under `id \|\| ID` and the dialog closes whatever the outcome. |
| `AdminDashboard.Dashboard.HandleAddRoute` | src/pages/AdminDashboard.tsx:274-282 | Acts only on the draft with that id. It appends one blank route and selects it, at the old length. |
| `AdminDashboard.Dashboard.HandleRemoveRoute` | src/pages/AdminDashboard.tsx:284-294 | Acts only on the draft with that id. It removes that index and clears the selection if it pointed there. |
| `AdminDashboard.Dashboard.HandleUpdateRoute` | src/pages/AdminDashboard.tsx:296-313 | Acts only on the draft with that id. It sets the name or price of that route only. |
| `AdminDashboard.Dashboard.HandleAddLegacyItem` | src/pages/AdminDashboard.tsx:330-337 | Acts only on the draft with that id. It appends "" to the features or the excludes. |
| `AdminDashboard.Dashboard.HandleRemoveLegacyItem` | src/pages/AdminDashboard.tsx:339-348 | Acts only on the draft with that id. It removes that index of the features or the excludes. |
| `AdminDashboard.Dashboard.HandleUpdateLegacyItem` | src/pages/AdminDashboard.tsx:315-328 | Acts only on the draft with that id. It replaces that index of the features or the excludes. |
| `AdminDashboard.Dashboard.SetLangTab` | src/pages/AdminDashboard.tsx:627 | Switches the tab. |
| `AdminDashboard.Dashboard.SetIndonesianText` | src/pages/AdminDashboard.tsx:652-676 | The Indonesian name or description is written to the legacy field as well. |
| `AdminDashboard.Dashboard.SetEnglishText` | src/pages/AdminDashboard.tsx:969-990 | The English name or description is written alone. |
| `AdminDashboard.Dashboard.AddIdRoute` | src/pages/AdminDashboard.tsx:692-714 | Appends a blank route to the Indonesian routes. The legacy routes become the Indonesian routes plus a blank legacy route. |
| `AdminDashboard.Dashboard.SetIdRoute` | src/pages/AdminDashboard.tsx:729-771 | Changes one Indonesian route and rebuilds the legacy routes from the Indonesian ones, so the two stay in sync. |
| `AdminDashboard.Dashboard.RemoveIdRoute` | src/pages/AdminDashboard.tsx:779-796 | Removes one Indonesian route and rebuilds the legacy routes from the rest. |
| `AdminDashboard.Dashboard.AddEnRoute` | src/pages/AdminDashboard.tsx:1004-1019 | Appends a blank route to the English routes only. |
| `AdminDashboard.Dashboard.SetEnRoute` | src/pages/AdminDashboard.tsx:1035-1068 | Changes one English route only. |
| `AdminDashboard.Dashboard.RemoveEnRoute` | src/pages/AdminDashboard.tsx:1073-1082 | Removes one English route only. |
| `AdminDashboard.Dashboard.AddIdItem` | src/pages/AdminDashboard.tsx:815-825 | Appends "" to an Indonesian list and its legacy mirror. |
| `AdminDashboard.Dashboard.SetIdItem` | src/pages/AdminDashboard.tsx:840-852 | Replaces one item of an Indonesian list and its legacy mirror. |
| `AdminDashboard.Dashboard.RemoveIdItem` | src/pages/AdminDashboard.tsx:860-873 | Removes one item of an Indonesian list and its legacy mirror. |
| `AdminDashboard.Dashboard.AddEnItem` | src/pages/AdminDashboard.tsx:1102-1109 | Appends "" to an English list only. |
| `AdminDashboard.Dashboard.SetEnItem` | src/pages/AdminDashboard.tsx:1121-1133 | Replaces one item of an English list only. |
| `AdminDashboard.Dashboard.RemoveEnItem` | src/pages/AdminDashboard.tsx:1140-1149 | Removes one item of an English list only. |
| `AdminDashboard.Dashboard.SetCapacity` | src/pages/AdminDashboard.tsx:1167-1171 | Sets the capacity. |
| `AdminDashboard.Dashboard.SetDuration` | src/pages/AdminDashboard.tsx:1180-1184 | Sets the duration. |
| `AdminDashboard.Dashboard.SetPopular` | src/pages/AdminDashboard.tsx:1194-1198 | Sets the popular flag. |
| `AdminDashboard.Dashboard.HandleRemoveImage` | src/pages/AdminDashboard.tsx:460-468 | The draft's image becomes "" and the preview is cleared. |
| `AdminDashboard.Dashboard.HandleImageUpload` | src/pages/AdminDashboard.tsx:385-458 | Without a file, or with a rejected one, nothing changes. Otherwise the file is previewed. A non-empty URL in the answer becomes the draft's image; a thrown upload clears the preview. |
| `AdminDashboard.Dashboard.HandleNewAddOn` | src/pages/AdminDashboard.tsx:482-485 | Opens an empty add-on draft with id 0. |
| `AdminDashboard.Dashboard.HandleEditAddOn` | src/pages/AdminDashboard.tsx:488-490 | Edits a copy of the add-on. |
| `AdminDashboard.Dashboard.HandleCancelAddOn` | src/pages/AdminDashboard.tsx:493-496 | Closes the add-on form. |
| `AdminDashboard.Dashboard.SetAddOnText` | src/pages/AdminDashboard.tsx:2236-2268 | Sets the add-on's name, price or description. |
| `AdminDashboard.Dashboard.HandleSaveAddOn` | src/pages/AdminDashboard.tsx:499-524 | An add-on with both ids 0 or absent is created without its ids. Any other is updated under `id \|\| ID`, which is non-zero. On success the form closes; on failure it stays open. |
| `AdminDashboard.Dashboard.HandleDeleteAddOn` | src/pages/AdminDashboard.tsx:527-529 | Opens the dialog for that add-on. |
| `AdminDashboard.Dashboard.ConfirmDeleteAddOn` | src/pages/AdminDashboard.tsx:531-545 | Without an add-on nothing happens. Otherwise the add-on is removed and the dialog closes whatever the outcome. |
| `AdminDashboard.Dashboard.OpenChangePassword` | src/pages/AdminDashboard.tsx:561 | Opens the password dialog. |
| `AdminDashboard.Dashboard.SetPasswordField` | src/pages/AdminDashboard.tsx:2520-2558 | Sets one field of the form. |
| `AdminDashboard.Dashboard.CancelChangePassword` | src/pages/AdminDashboard.tsx:2563-2572 | Closes the dialog and clears the form. |
| `AdminDashboard.Dashboard.SubmitPassword` | src/pages/AdminDashboard.tsx:2575-2617 | See the list below the table. |

What the longer contracts state:

- `PackageContext.NormalizePackage`:
  - the names, descriptions, feature lists, include lists and routes of both languages are defined;
  - `id == ID` is the canonical id;
  - `name_id`, `description_id`, `features_id` and `includes_id` fall back to the legacy fields;
  - English fields fall back to nothing;
  - `routes_id` and `routes_en` are their own transformed lists;
  - legacy `routes` is its own transformed list when non-empty, else the transformed `routes_id`;
  - `popular` is `is_popular === true`;
  - `excludes_id` and `excludes_en` are kept as sent.
- `PackageContext.BuildUpdatePayload`:
  - a key is sent exactly for a field the patch defines;
  - `exclude` is renamed `excludes` and `popular` is renamed `is_popular`;
  - routes are sent as entries;
  - `image_url` is sent only when defined and non-empty.
- `AdminDashboard.EditDraft`:
  - every localised field is filled, the exclude lists included;
  - `name_id` falls back to `name`, and `name_en` to "";
  - a defined `routes_id` wins over `routes` even when it is empty;
  - `includes_id` falls back to `include`, and `excludes_id` to `exclude`;
  - every other field of the package is kept.
- `AdminDashboard.SavePatch`:
  - legacy `name`, `description`, `routes`, `features` and `exclude` equal the Indonesian values sent;
  - those values fall back to the legacy fields;
  - English fields fall back to nothing;
  - `include` is not sent;
  - `popular` is `popular === true`, and `image_url` is the image or "".
- `AdminDashboard.Dashboard.SubmitPassword`:
  - a short new password is refused first, then a mismatched confirmation, with their notices and no request;
  - otherwise the change is requested;
  - success closes the dialog and clears the form, with the server's message or the default notice;
  - failure keeps the form and shows the session's failure message.

The session's failure message is never empty. So the dashboard's own
fallback text, "Gagal mengubah password. Pastikan password lama benar.", is
never shown.

## Left out

- Network I/O. `fetch`, `api.ts` and `uploadToCloudinary` are left out. Their outcomes are parameters. Of `src/lib/api.ts` only the 401 rule is modelled, as `AdminSession.Unauthorized`.
- Toasts, navigation, JSX rendering and `window.open` have no observable state in the model.
- Concurrency:
  - the model does not capture the order in which asynchronous callbacks land;
  - `FileReader` may set the preview after a failed upload has cleared it;
  - `handleImageUpload` writes the image into the draft it saw when the upload started, which can drop edits made during the upload;
  - a language switch re-fetches while another fetch is still running.

  Each handler is modelled as running to completion in one step.
- `uploadingImage` is set at the start of an upload and cleared at its end, so it is never left set. It is not modelled.
- `resetPackages`, `resetAddOns`, `refreshPackages` and `refreshAddOns` are the fetch operations. `savePackages` and `saveAddOns` do nothing. The model has no separate members for them.
- `PackageContext.ServerMerge`: the server keeps the stored value of every key a `PUT` body leaves out. The client's comments promise this, but the server is not part of this model, so it is stated as an assumption, not derived.
- `JsString.IntToString`: models `String(n)` for integers only. Fractional prices and numbers of 10^21 or more, which JavaScript writes differently, are not modelled.
- `JsString.Trim`: removes space, tab, line feed, carriage return, vertical tab, form feed, no-break space and the byte-order mark. The other Unicode space characters that `trim` also removes are not modelled.
- `AdminDashboard.CheckPassword`: counts characters, where JavaScript's `length` counts UTF-16 code units.
- `PackagesSection.BookingMessage`: requires a package name with no `$`. JavaScript's `replace` gives `$&`, `$$` and similar in the replacement a special meaning, which is not modelled.
- `PackagesSection.WhatsAppLink`: `encodeURIComponent` is a function parameter with no properties.
- `PackagesSection.AddOnMessage`: the same `$`-free requirement, on the add-on name.
- `PackagesSection.BookNowLink` and `PackagesSection.AddOnInquiryLink`: the same `$`-free requirement, through the messages they build.
- `AdminDashboard.Dashboard.HandleUpdateRoute`: requires the route index to be in range. Assigning past the end of a JavaScript array would extend it with holes; the inputs only ever pass rendered indices.
- `AdminDashboard.Dashboard.HandleUpdateLegacyItem`: requires the item index to be in range, for the same reason.
- `AdminDashboard.Dashboard.SetIdRoute`: requires an open draft and an Indonesian route index in range, because the inputs are rendered only for existing routes of an open draft.
- `AdminDashboard.Dashboard.SetEnRoute`: requires an open draft and an English route index in range, for the same reason.
- `AdminDashboard.Dashboard.SetIdItem`: requires an open draft and an item index in range, for the same reason.
- `AdminDashboard.Dashboard.SetEnItem`: requires an open draft and an item index in range, for the same reason.
- `AdminDashboard.Dashboard.SetIndonesianText`, `SetEnglishText`, `AddIdRoute`, `RemoveIdRoute`, `AddEnRoute`, `RemoveEnRoute`, `AddIdItem`, `RemoveIdItem`, `AddEnItem`, `RemoveEnItem`, `SetCapacity`, `SetDuration` and `SetPopular`: require an open package draft, because their inputs are rendered only inside the package editor.
- `AdminDashboard.Dashboard.SetAddOnText`: requires an open add-on draft, because its inputs are rendered only inside the add-on form.
- `AdminDashboard.Dashboard.SubmitPassword`: the "Ubah Password" button is a Radix `AlertDialogAction`, which closes the dialog by itself when pressed. The model keeps the dialog open after a refusal or a failure, as the handler's own code does.
- `AdminDashboard.Dashboard.ConfirmDeletePackage`: when there is no package or no usable id, the Radix action button still closes the dialog by itself; the model leaves the dialog as it was.
- `AdminDashboard.Dashboard.ConfirmDeleteAddOn`: when no add-on is selected, the Radix action button still closes the dialog by itself; the model leaves the dialog as it was.
- `AdminContext.AdminSession.ChangePassword`: a 401 answer to the password change also removes the token and reloads the login page (src/lib/api.ts:101-105). The method does not change the session; that effect is `AdminSession.Unauthorized`, which it does not call.
- `PackageContext.PackageStore.UpdatePackage`, `AddPackage`, `DeletePackage`, `UpdateAddOn`, `AddAddOn` and `RemoveAddOn`: a 401 answer also ends the session. The store does not hold the session, so that effect is left to `AdminSession.Unauthorized`.
- Handlers keyed by package id (`handleAddRoute`, `handleRemoveRoute`, `handleUpdateRoute` and the feature and exclude handlers) are not referenced by the rendered editors. They are modelled as written.
- Behaviour of the client worth knowing:
  - fallbacks use `||`, so "" falls through;
  - English fields do not fall back to the legacy ones;
  - the client has no minimum-route-price, thousands-separator or popular-to-centre logic;
  - `admin_authenticated` is read by `ProtectedRoute` and never written by the client.
