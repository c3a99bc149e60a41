/** The admin dashboard: a draft editor over one package (with an
    Indonesian and an English tab), the add-on editor, the delete dialogs and
    the password dialog. The drafts are plain values; the dashboard holds them
    in fields that its handlers replace. */
module AdminDashboard {
  import opened Js
  import opened JsString
  import opened PackageContext
  import opened AdminContext

  // ---------------------------------------------------------------------
  // Drafts
  // ---------------------------------------------------------------------

  /** One route of `transformRoutesForEdit`, on a route that is already a
      `Route` (its price is text, so `String(price)` keeps it). */
  function RouteForEdit(r: Route): (e: Route)
    ensures e.name == FirstTruthy([Some(r.name), r.nameId, r.nameEn])
    ensures e.nameId == Some(FirstTruthy([r.nameId, Some(r.name)]))
    ensures e.nameEn == Some(FirstTruthy([r.nameEn, Some(r.name)]))
    ensures e.price == r.price
  {
    FirstTruthyOfThree(Some(r.name), r.nameId, r.nameEn);
    FirstTruthyOfTwo(r.nameId, Some(r.name));
    FirstTruthyOfTwo(r.nameEn, Some(r.name));
    Route(OrStr(Some(r.name), OrStr(r.nameId, OrStr(r.nameEn, ""))),
          r.price,
          Some(OrStr(r.nameId, OrStr(Some(r.name), ""))),
          Some(OrStr(r.nameEn, OrStr(Some(r.name), ""))))
  }

  /** `transformRoutesForEdit`: one route per route, in order. */
  function RoutesForEdit(rs: seq<Route>): (es: seq<Route>)
    ensures |es| == |rs|
    ensures forall i :: 0 <= i < |rs| ==> es[i] == RouteForEdit(rs[i])
  {
    if rs == [] then [] else [RouteForEdit(rs[0])] + RoutesForEdit(rs[1..])
  }

  /** Opening a fetched route in the editor keeps its display name and price
      and fills an empty localised name from the other names: `name_id`
      becomes the first non-empty of `name_id`, `name`, `name_en` of the
      record as sent, and `name_en` the first non-empty of `name_en`,
      `name`, `name_id`. */
  lemma EditFillsRouteNames(r: RawRoute)
    requires r.RouteObject?
    ensures var t := TransformRoute(r);
            RouteForEdit(t) == Route(t.name, t.price,
                                     Some(FirstTruthy([r.nameId, r.name, r.nameEn])),
                                     Some(FirstTruthy([r.nameEn, r.name, r.nameId])))
  {
  }

  /** A route that was not an object opens as it was. */
  lemma EditKeepsBlankRoute()
    ensures RouteForEdit(TransformRoute(NotAnObject)) == TransformRoute(NotAnObject)
  {
  }

  /** `fullPackage` in `handleEdit`: every localised field is filled, the
      Indonesian ones from the legacy ones, and the rest of the package is
      kept. A defined `routes_id` wins over `routes` even when it is empty. */
  function EditDraft(pkg: PackageData): (d: PackageData)
    ensures Displayable(d)
    ensures d.nameId == Some(FirstTruthy([pkg.nameId, Some(pkg.name)]))
    ensures d.nameEn == Some(OrStr(pkg.nameEn, ""))
    ensures d.descriptionId == Some(FirstTruthy([pkg.descriptionId, pkg.description]))
    ensures d.descriptionEn == Some(OrStr(pkg.descriptionEn, ""))
    ensures pkg.routesId.Some? ==> d.routesId == Some(RoutesForEdit(pkg.routesId.value))
    ensures pkg.routesId.None? ==> d.routesId == Some(RoutesForEdit(pkg.routes))
    ensures d.routes == RoutesForEdit(pkg.routes)
    ensures d.featuresId == Some(if pkg.featuresId.Some? then pkg.featuresId.value else pkg.features)
    ensures d.includesId == Some(if pkg.includesId.Some? then pkg.includesId.value
                                 else if pkg.legacyInclude.Some? then pkg.legacyInclude.value else [])
    ensures d.excludesId == Some(if pkg.excludesId.Some? then pkg.excludesId.value else pkg.exclude)
    ensures d.(nameId := pkg.nameId, nameEn := pkg.nameEn,
               descriptionId := pkg.descriptionId, descriptionEn := pkg.descriptionEn,
               routesId := pkg.routesId, routesEn := pkg.routesEn, routes := pkg.routes,
               featuresId := pkg.featuresId, featuresEn := pkg.featuresEn,
               includesId := pkg.includesId, includesEn := pkg.includesEn,
               excludesId := pkg.excludesId, excludesEn := pkg.excludesEn) == pkg
  {
    FirstTruthyOfTwo(pkg.nameId, Some(pkg.name));
    FirstTruthyOfTwo(pkg.descriptionId, pkg.description);
    pkg.(nameId := Some(OrStr(pkg.nameId, OrStr(Some(pkg.name), ""))),
         nameEn := Some(OrStr(pkg.nameEn, "")),
         descriptionId := Some(OrStr(pkg.descriptionId, OrStr(pkg.description, ""))),
         descriptionEn := Some(OrStr(pkg.descriptionEn, "")),
         routesId := Some(RoutesForEdit(OrList(pkg.routesId, pkg.routes))),
         routesEn := Some(RoutesForEdit(OrList(pkg.routesEn, []))),
         routes := RoutesForEdit(pkg.routes),
         featuresId := Some(OrList(pkg.featuresId, pkg.features)),
         featuresEn := Some(OrList(pkg.featuresEn, [])),
         includesId := Some(OrList(pkg.includesId, OrList(pkg.legacyInclude, []))),
         includesEn := Some(OrList(pkg.includesEn, [])),
         excludesId := Some(OrList(pkg.excludesId, pkg.exclude)),
         excludesEn := Some(OrList(pkg.excludesEn, [])))
  }

  /** The draft `handleNewPackage` opens: id 0 and every field empty. */
  const NewPackageDraft := PackageData(
    ID := None, id := Some(0),
    name := "", description := Some(""),
    nameId := Some(""), nameEn := Some(""),
    descriptionId := Some(""), descriptionEn := Some(""),
    duration := "", capacity := "",
    features := [], featuresId := Some([]), featuresEn := Some([]),
    legacyInclude := Some([]), includesId := Some([]), includesEn := Some([]),
    exclude := [], excludesId := Some([]), excludesEn := Some([]),
    routes := [], routesId := Some([]), routesEn := Some([]),
    popular := Some(false),
    imageUrl := Some(""))

  /** `packageData` in `handleSave`: the Indonesian values, each falling back
      to its legacy field, are sent under both their own keys and the legacy
      ones; the English values have no fallback; `include` is not sent. */
  function SavePatch(d: PackageData): (r: PackagePatch)
    ensures r.name == r.nameId && r.description == r.descriptionId && r.routes == r.routesId
    ensures r.features == r.featuresId && r.exclude == r.excludesId
    ensures r.nameId == Some(FirstTruthy([d.nameId, Some(d.name)]))
    ensures r.descriptionId == Some(FirstTruthy([d.descriptionId, d.description]))
    ensures r.nameEn == Some(OrStr(d.nameEn, "")) && r.descriptionEn == Some(OrStr(d.descriptionEn, ""))
    ensures r.routesId == Some(if d.routesId.Some? then d.routesId.value else d.routes)
    ensures r.featuresId == Some(if d.featuresId.Some? then d.featuresId.value else d.features)
    ensures r.excludesId == Some(if d.excludesId.Some? then d.excludesId.value else d.exclude)
    ensures r.legacyInclude.None?
    ensures r.popular == Some(d.popular == Some(true))
    ensures r.imageUrl == Some(OrStr(d.imageUrl, ""))
  {
    FirstTruthyOfTwo(d.nameId, Some(d.name));
    FirstTruthyOfTwo(d.descriptionId, d.description);
    var nameId := OrStr(d.nameId, OrStr(Some(d.name), ""));
    var descriptionId := OrStr(d.descriptionId, OrStr(d.description, ""));
    var routesId := OrList(d.routesId, d.routes);
    var featuresId := OrList(d.featuresId, d.features);
    var excludesId := OrList(d.excludesId, d.exclude);
    PackagePatch(
      name := Some(nameId), description := Some(descriptionId),
      nameId := Some(nameId), nameEn := Some(OrStr(d.nameEn, "")),
      descriptionId := Some(descriptionId), descriptionEn := Some(OrStr(d.descriptionEn, "")),
      duration := Some(OrStr(Some(d.duration), "")), capacity := Some(OrStr(Some(d.capacity), "")),
      features := Some(featuresId), featuresId := Some(featuresId),
      featuresEn := Some(OrList(d.featuresEn, [])),
      legacyInclude := None,
      includesId := Some(OrList(d.includesId, OrList(d.legacyInclude, []))),
      includesEn := Some(OrList(d.includesEn, [])),
      exclude := Some(excludesId), excludesId := Some(excludesId),
      excludesEn := Some(OrList(d.excludesEn, [])),
      routes := Some(routesId), routesId := Some(routesId),
      routesEn := Some(OrList(d.routesEn, [])),
      popular := Some(OrBool(d.popular, false)),
      imageUrl := Some(OrStr(d.imageUrl, "")))
  }

  /** A package created from the editor reaches the server with each legacy
      field equal to its Indonesian counterpart. */
  lemma CreatedFromEditorMirrorsLegacy(d: PackageData, b: PackageBody)
    requires IsCreatePayload(SavePatch(d), b)
    ensures b.name == b.nameId && b.description == b.descriptionId
    ensures b.routes == b.routesId && b.features == b.featuresId && b.excludes == b.excludesId
  {
  }

  /** Saving an existing package whose draft has no image does not clear the
      image the server holds; a draft with one replaces it. */
  lemma SaveKeepsStoredImage(stored: PackageBody, d: PackageData, b: PackageBody)
    requires IsUpdatePayload(SavePatch(d), b)
    ensures !Truthy(d.imageUrl) ==> ServerMerge(stored, b).imageUrl == stored.imageUrl
    ensures Truthy(d.imageUrl) ==> ServerMerge(stored, b).imageUrl == d.imageUrl
  {
  }

  /** A route that came from the API is sent with the same entry after the
      editor has filled its names: opening it changes nothing the server
      sees. */
  lemma EditKeepsRouteEntry(raw: RawRoute)
    ensures RouteEntryOf(RouteForEdit(TransformRoute(raw))) == RouteEntryOf(TransformRoute(raw))
  {
  }

  /** The same for a whole route list. */
  lemma EditKeepsRouteEntries(raws: Option<seq<RawRoute>>)
    ensures RouteEntries(RoutesForEdit(TransformRoutes(raws))) == RouteEntries(TransformRoutes(raws))
  {
  }

  /** Opening a fetched package and saving it untouched sends back the
      texts, the image and the flag it was fetched with. */
  lemma UntouchedSaveKeepsText(raw: RawPackage)
    ensures var n := NormalizePackage(raw); var p := SavePatch(EditDraft(n));
            && p.nameId == n.nameId && p.descriptionId == n.descriptionId
            && p.nameEn == n.nameEn && p.descriptionEn == n.descriptionEn
            && p.imageUrl == n.imageUrl && p.popular == n.popular
            && p.capacity == Some(n.capacity) && p.duration == Some(n.duration)
  {
  }

  /** ... and the same feature and include lists and route entries. */
  lemma UntouchedSaveKeepsLists(raw: RawPackage)
    ensures var n := NormalizePackage(raw); var p := SavePatch(EditDraft(n));
            && p.featuresId == n.featuresId && p.includesId == n.includesId
            && p.featuresEn == n.featuresEn && p.includesEn == n.includesEn
            && EntriesOf(p.routesId) == EntriesOf(n.routesId)
            && EntriesOf(p.routesEn) == EntriesOf(n.routesEn)
  {
    EditKeepsRouteEntries(raw.routesId);
    EditKeepsRouteEntries(raw.routesEn);
  }

  /** Where a save goes. */
  datatype SaveTarget = CreateNew | UpdateExisting(id: int)

  /** A draft is new exactly when both `id` and `ID` are 0 or absent; an
      existing one is updated under `id || ID`, which is never 0. */
  function SaveTargetOf(d: PackageData): (t: SaveTarget)
    ensures t.CreateNew? <==> NumFalsy(d.id) && NumFalsy(d.ID)
    ensures t.UpdateExisting? ==> t.id != 0 && (Some(t.id) == d.id || Some(t.id) == d.ID)
    ensures t.UpdateExisting? && !NumFalsy(d.id) ==> t.id == d.id.value
  {
    if NumFalsy(d.id) && NumFalsy(d.ID) then CreateNew
    else UpdateExisting(OrNum(d.id, OrNum(d.ID, 0)))
  }

  /** The draft of `handleNewPackage` is saved with `addPackage`. */
  lemma NewDraftIsCreated()
    ensures SaveTargetOf(NewPackageDraft) == CreateNew
  {
  }

  /** A fetched package with a non-zero id is saved as an update under that id. */
  lemma FetchedPackageIsUpdated(raw: RawPackage)
    requires CanonicalId(raw.ID, raw.id) != 0
    ensures SaveTargetOf(EditDraft(NormalizePackage(raw))) == UpdateExisting(CanonicalId(raw.ID, raw.id))
  {
  }

  /** The request `handleSave` sends for a draft: `addPackage`'s create body
      for a new draft, `updatePackage`'s partial body under the draft's id
      for an existing one. */
  predicate SendsDraft(d: PackageData, req: Request) {
    && (req.Post? || req.Put?) && req.body.PackageJson?
    && (SaveTargetOf(d).CreateNew? ==> req.Post? && IsCreatePayload(SavePatch(d), req.body.package))
    && (SaveTargetOf(d).UpdateExisting? ==>
          && req.Put? && req.path == "/admin/packages/" + IntToString(SaveTargetOf(d).id)
          && IsUpdatePayload(SavePatch(d), req.body.package))
  }

  /** `getPackageImageUrl` and the preview in `handleEdit`: no image gives
      none, an absolute URL is kept, a server path gets the API host. */
  const ImageHost := "https://bunakencharter.up.railway.app"

  function ResolveImageUrl(url: Option<string>): (r: Option<string>)
    ensures r.None? <==> !Truthy(url)
    ensures Truthy(url) && StartsWith(url.value, "http") ==> r == url
    ensures Truthy(url) && !StartsWith(url.value, "http") ==>
              r == Some(ImageHost + url.value)
  {
    if !Truthy(url) then None
    else if StartsWith(url.value, "http") then url
    else Some(ImageHost + url.value)
  }

  lemma HostPrefix()
    ensures ImageHost[0..4] == "http"
  {
    var h := ImageHost[0..4];
    assert |h| == 4;
    assert h[0] == ImageHost[0] == 'h';
    assert h[1] == ImageHost[1] == 't';
    assert h[2] == ImageHost[2] == 't';
    assert h[3] == ImageHost[3] == 'p';
  }

  /** The API host is an absolute URL. */
  lemma HostIsAbsolute()
    ensures StartsWith(ImageHost, "http")
  {
    HostPrefix();
  }

  /** Resolving twice changes nothing: every resolved URL is absolute. */
  lemma ResolveIsIdempotent(url: Option<string>)
    ensures ResolveImageUrl(ResolveImageUrl(url)) == ResolveImageUrl(url)
  {
    if Truthy(url) && !StartsWith(url.value, "http") {
      var s := ImageHost + url.value;
      HostIsAbsolute();
      assert s[0..4] == ImageHost[0..4];
    }
  }

  // ---------------------------------------------------------------------
  // List edits
  // ---------------------------------------------------------------------

  /** `xs.filter((_, idx) => idx !== i)`: the element at `i` goes, when
      there is one. */
  function RemoveAt<T>(xs: seq<T>, i: int): (r: seq<T>)
    ensures 0 <= i < |xs| ==> r == xs[..i] + xs[i + 1..]
    ensures !(0 <= i < |xs|) ==> r == xs
    decreases |xs|
  {
    if xs == [] then []
    else if i == 0 then xs[1..]
    else [xs[0]] + RemoveAt(xs[1..], i - 1)
  }

  /** The legacy routes the Indonesian tab writes after an edit or a
      removal: each route's name is its Indonesian name, else its name, and
      only the price is kept besides. */
  function LegacyRoutesOf(rs: seq<Route>): (r: seq<Route>)
    ensures |r| == |rs|
    ensures forall i :: 0 <= i < |rs| ==>
              r[i].name == FirstTruthy([rs[i].nameId, Some(rs[i].name)]) && r[i].price == rs[i].price
              && r[i].nameId.None? && r[i].nameEn.None?
  {
    if rs == [] then []
    else
      FirstTruthyOfTwo(rs[0].nameId, Some(rs[0].name));
      [Route(OrStr(rs[0].nameId, OrStr(Some(rs[0].name), "")), rs[0].price, None, None)]
      + LegacyRoutesOf(rs[1..])
  }

  /** The route the editors append on the localised tabs. */
  const BlankLocalRoute := Route("", "", Some(""), Some(""))

  /** The route the legacy editor appends. */
  const BlankRoute := Route("", "", None, None)

  /** The routes the Indonesian tab shows and edits. */
  function IdRoutes(d: PackageData): seq<Route> {
    OrList(d.routesId, d.routes)
  }

  /** The routes the English tab shows and edits. */
  function EnRoutes(d: PackageData): seq<Route> {
    OrList(d.routesEn, [])
  }

  /** The legacy routes are what the Indonesian routes map to. */
  predicate RoutesSynced(d: PackageData) {
    d.routesId.Some? && d.routes == LegacyRoutesOf(d.routesId.value)
  }

  /** The text lists of the Indonesian tab, each with a legacy mirror. */
  datatype IdList = IdFeatures | IdIncludes

  /** The text lists of the English tab. */
  datatype EnList = EnFeatures | EnIncludes

  /** The legacy text lists the by-id handlers edit. */
  datatype LegacyList = LegacyFeatures | LegacyExcludes

  function IdItems(d: PackageData, l: IdList): seq<string> {
    match l
    case IdFeatures => OrList(d.featuresId, d.features)
    case IdIncludes => OrList(d.includesId, OrList(d.legacyInclude, []))
  }

  /** An Indonesian list and its legacy mirror hold the same items. */
  predicate IdMirrored(d: PackageData, l: IdList) {
    match l
    case IdFeatures => d.featuresId == Some(d.features)
    case IdIncludes => d.includesId.Some? && d.legacyInclude == d.includesId
  }

  /** Writes an Indonesian list and its legacy mirror, nothing else. */
  function WithIdItems(d: PackageData, l: IdList, xs: seq<string>): (r: PackageData)
    ensures IdItems(r, l) == xs && IdMirrored(r, l)
    ensures forall l' :: l' != l ==> IdItems(r, l') == IdItems(d, l')
  {
    match l
    case IdFeatures => d.(featuresId := Some(xs), features := xs)
    case IdIncludes => d.(includesId := Some(xs), legacyInclude := Some(xs))
  }

  function EnItems(d: PackageData, l: EnList): seq<string> {
    match l
    case EnFeatures => OrList(d.featuresEn, [])
    case EnIncludes => OrList(d.includesEn, [])
  }

  /** Writes an English list, nothing else. */
  function WithEnItems(d: PackageData, l: EnList, xs: seq<string>): (r: PackageData)
    ensures EnItems(r, l) == xs
    ensures forall l' :: l' != l ==> EnItems(r, l') == EnItems(d, l')
    ensures r.features == d.features && r.featuresId == d.featuresId && r.legacyInclude == d.legacyInclude
  {
    match l
    case EnFeatures => d.(featuresEn := Some(xs))
    case EnIncludes => d.(includesEn := Some(xs))
  }

  function LegacyItems(d: PackageData, l: LegacyList): seq<string> {
    match l
    case LegacyFeatures => d.features
    case LegacyExcludes => d.exclude
  }

  /** Writes a legacy list, nothing else. */
  function WithLegacyItems(d: PackageData, l: LegacyList, xs: seq<string>): (r: PackageData)
    ensures LegacyItems(r, l) == xs
    ensures forall l' :: l' != l ==> LegacyItems(r, l') == LegacyItems(d, l')
  {
    match l
    case LegacyFeatures => d.(features := xs)
    case LegacyExcludes => d.(exclude := xs)
  }

  // ---------------------------------------------------------------------
  // Validation
  // ---------------------------------------------------------------------

  const ValidImageTypes: seq<string> := ["image/jpeg", "image/jpg", "image/png", "image/gif", "image/webp"]
  const MaxImageBytes := 5 * 1024 * 1024

  datatype ImageCheck = ImageAccepted | UnsupportedType | TooLarge

  /** The checks before an upload: the type first, then the size. */
  function CheckImage(mimeType: string, size: int): (c: ImageCheck)
    ensures c.ImageAccepted? <==> mimeType in ValidImageTypes && size <= 5242880
    ensures c.UnsupportedType? <==> mimeType !in ValidImageTypes
  {
    if mimeType !in ValidImageTypes then UnsupportedType
    else if size > MaxImageBytes then TooLarge
    else ImageAccepted
  }

  datatype PasswordCheck = PasswordTooShort | PasswordMismatch | PasswordReady

  /** The checks before a password change: the length first, then the
      confirmation. */
  function CheckPassword(newPassword: string, confirmPassword: string): (c: PasswordCheck)
    ensures c.PasswordReady? <==> |newPassword| >= 6 && newPassword == confirmPassword
    ensures c.PasswordTooShort? <==> |newPassword| < 6
  {
    if |newPassword| < 6 then PasswordTooShort
    else if newPassword != confirmPassword then PasswordMismatch
    else PasswordReady
  }

  const PasswordTooShortNotice := "Password baru minimal 6 karakter"
  const PasswordMismatchNotice := "Password baru dan konfirmasi tidak cocok"
  const PasswordChangedNotice := "Password berhasil diubah"
  const PasswordFailedNotice := "Gagal mengubah password. Pastikan password lama benar."

  /** The name shown in the delete dialog: the trimmed name, else "Package". */
  function DialogName(name: string): (r: string)
    ensures r != "" && !IsWhitespace(r[0]) && !IsWhitespace(r[|r| - 1])
    ensures !AllWhitespace(name) ==> r == Trim(name)
    ensures AllWhitespace(name) ==> r == "Package"
  {
    OrStr(Some(Trim(name)), "Package")
  }

  // ---------------------------------------------------------------------
  // Edits of one field of the draft
  // ---------------------------------------------------------------------

  /** The two inputs of a route row. */
  datatype RouteField = RouteName | RoutePrice

  /** A route row of the Indonesian tab after typing `v`: the name goes to
      both `name_id` and `name`, so the route is sent with exactly that
      Indonesian name; the English name and the price are kept. */
  function WithIdRouteField(r: Route, f: RouteField, v: string): (e: Route)
    ensures f.RouteName? ==> RouteEntryOf(e).nameId == v && e.nameEn == r.nameEn && e.price == r.price
    ensures f.RoutePrice? ==> RouteEntryOf(e) == RouteEntryOf(r).(price := v)
  {
    match f
    case RouteName => FirstTruthyOfTwo(Some(v), Some(v)); r.(nameId := Some(v), name := v)
    case RoutePrice => r.(price := v)
  }

  /** A route row of the English tab after typing `v`: the name goes to both
      `name_en` and `name`, so the route is sent with exactly that English
      name. */
  function WithEnRouteField(r: Route, f: RouteField, v: string): (e: Route)
    ensures f.RouteName? ==> RouteEntryOf(e).nameEn == v && e.nameId == r.nameId && e.price == r.price
    ensures f.RoutePrice? ==> RouteEntryOf(e) == RouteEntryOf(r).(price := v)
  {
    match f
    case RouteName => FirstTruthyOfTwo(Some(v), Some(v)); r.(nameEn := Some(v), name := v)
    case RoutePrice => r.(price := v)
  }

  /** The text inputs of a language tab. */
  datatype TextField = NameText | DescriptionText

  /** The inputs of the add-on form. */
  datatype AddOnField = AddOnName | AddOnPrice | AddOnDescription

  /** The inputs of the password dialog. */
  datatype PasswordField = OldPassword | NewPassword | ConfirmPassword

  // ---------------------------------------------------------------------
  // The dashboard
  // ---------------------------------------------------------------------

  datatype PackageDialog = PackageDialog(open: bool, package: Option<PackageData>)
  datatype AddOnDialog = AddOnDialog(open: bool, addOnId: Option<int>)
  datatype PasswordForm = PasswordForm(oldPassword: string, newPassword: string, confirmPassword: string)
  datatype LangTab = TabId | TabEn

  const EmptyPasswordForm := PasswordForm("", "", "")

  /** The file chosen for upload: its MIME type and size in bytes. */
  datatype ImageFile = ImageFile(mimeType: string, size: int)

  /** What the upload request produced: it threw, or it answered with
      `data.image_url`. */
  datatype UploadReply = UploadThrew | UploadAnswered(imageUrl: Option<string>)

  /** The draft of `handleNewAddOn`. */
  const NewAddOnDraft := AddOnData(None, Some(0), Some(""), Some(""), Some(""), None, None, None, None)

  /** `AdminDashboard`: its state variables, over the package store and the
      admin session it uses. Outcomes of requests are parameters. */
  class Dashboard {
    const store: PackageStore
    const session: AdminSession
    var editingPackage: Option<PackageData>
    var editingRouteIndex: Option<int>
    var editingAddOn: Option<AddOnData>
    var showAddAddOn: bool
    var showAddPackage: bool
    var deletePackageDialog: PackageDialog
    var deleteAddOnDialog: AddOnDialog
    var showChangePassword: bool
    var passwordData: PasswordForm
    var imagePreview: Option<string>
    var activeLangTab: LangTab

    constructor (store: PackageStore, session: AdminSession)
      ensures this.store == store && this.session == session
      ensures editingPackage.None? && editingRouteIndex.None? && editingAddOn.None?
      ensures !showAddAddOn && !showAddPackage && !showChangePassword
      ensures deletePackageDialog == PackageDialog(false, None)
      ensures deleteAddOnDialog == AddOnDialog(false, None)
      ensures passwordData == EmptyPasswordForm
      ensures imagePreview.None? && activeLangTab == TabId
    {
      this.store := store;
      this.session := session;
      editingPackage := None;
      editingRouteIndex := None;
      editingAddOn := None;
      showAddAddOn := false;
      showAddPackage := false;
      deletePackageDialog := PackageDialog(false, None);
      deleteAddOnDialog := AddOnDialog(false, None);
      showChangePassword := false;
      passwordData := EmptyPasswordForm;
      imagePreview := None;
      activeLangTab := TabId;
    }

    /** `handleLogout`: the session ends (the browser then goes to the login
        page). */
    method HandleLogout()
      requires session.Valid()
      modifies session
      ensures !session.isAuthenticated && session.storedToken.None? && session.Valid()
    {
      session.Logout();
    }

    /** `handleEdit`: opens the filled draft on the Indonesian tab, with no
        route selected and the package's image as preview. */
    method HandleEdit(pkg: PackageData)
      modifies this`editingPackage, this`editingRouteIndex, this`activeLangTab, this`imagePreview
      ensures editingPackage == Some(EditDraft(pkg))
      ensures editingRouteIndex.None? && activeLangTab == TabId
      ensures imagePreview == ResolveImageUrl(pkg.imageUrl)
    {
      editingPackage := Some(EditDraft(pkg));
      editingRouteIndex := None;
      activeLangTab := TabId;
      imagePreview := ResolveImageUrl(pkg.imageUrl);
    }

    /** `handleSave`: a new draft is created and an existing one updated
        under its id; on success the editor closes, on failure (the error
        comes back from the store) it stays open. Without a draft nothing
        is sent. */
    method HandleSave(accepted: bool, language: string, refetch: Fetched<RawPackage>)
      returns (request: Option<Request>)
      modifies store`packages, this`editingPackage, this`showAddPackage, this`imagePreview
      ensures old(editingPackage).None? ==>
                request.None? && unchanged(this) && store.packages == old(store.packages)
      ensures old(editingPackage).Some? ==> request.Some? && SendsDraft(old(editingPackage.value), request.value)
      ensures old(editingPackage).Some? && accepted ==>
                editingPackage.None? && imagePreview.None?
                && store.packages == (if refetch.Records? then NormalizeAll(refetch.items) else old(store.packages))
      ensures old(editingPackage).Some? && accepted && SaveTargetOf(old(editingPackage.value)).CreateNew? ==>
                !showAddPackage
      ensures old(editingPackage).Some? && accepted && SaveTargetOf(old(editingPackage.value)).UpdateExisting? ==>
                showAddPackage == old(showAddPackage)
      ensures !accepted ==>
                editingPackage == old(editingPackage) && imagePreview == old(imagePreview)
                && showAddPackage == old(showAddPackage) && store.packages == old(store.packages)
    {
      if editingPackage.None? {
        return None;
      }
      var d := editingPackage.value;
      var req, ok := SendDraft(d, accepted, language, refetch);
      if ok {
        editingPackage := None;
        imagePreview := None;
        if SaveTargetOf(d).CreateNew? {
          showAddPackage := false;
        }
      }
      request := Some(req);
    }

    /** The store call of `handleSave`: `addPackage` for a new draft,
        `updatePackage` under its id for an existing one. */
    method SendDraft(d: PackageData, accepted: bool, language: string, refetch: Fetched<RawPackage>)
      returns (req: Request, ok: bool)
      modifies store`packages
      ensures SendsDraft(d, req)
      ensures ok == accepted
      ensures store.packages == if ok && refetch.Records? then NormalizeAll(refetch.items) else old(store.packages)
    {
      var patch := SavePatch(d);
      match SaveTargetOf(d) {
        case CreateNew =>
          req, ok := store.AddPackage(patch, accepted, language, refetch);
        case UpdateExisting(id) =>
          req, ok := store.UpdatePackage(id, patch, accepted, language, refetch);
      }
    }

    /** `handleCancel`: closes the editor. */
    method HandleCancel()
      modifies this`editingPackage, this`editingRouteIndex, this`showAddPackage, this`imagePreview
      ensures editingPackage.None? && editingRouteIndex.None? && !showAddPackage && imagePreview.None?
    {
      editingPackage := None;
      editingRouteIndex := None;
      showAddPackage := false;
      imagePreview := None;
    }

    /** `handleNewPackage`: opens the empty draft on the Indonesian tab. */
    method HandleNewPackage()
      modifies this`editingPackage, this`showAddPackage, this`imagePreview, this`activeLangTab
      ensures editingPackage == Some(NewPackageDraft)
      ensures showAddPackage && imagePreview.None? && activeLangTab == TabId
    {
      editingPackage := Some(NewPackageDraft);
      showAddPackage := true;
      imagePreview := None;
      activeLangTab := TabId;
    }

    /** `handleDeletePackage`: opens the dialog on a copy whose name is the
        trimmed name or "Package" and whose two ids each fall back to the
        other. */
    method HandleDeletePackage(pkg: PackageData)
      modifies this`deletePackageDialog
      ensures deletePackageDialog.open && deletePackageDialog.package.Some?
      ensures deletePackageDialog.package.value ==
                pkg.(name := DialogName(pkg.name), id := OrNumOpt(pkg.id, pkg.ID), ID := OrNumOpt(pkg.ID, pkg.id))
      ensures NumFalsy(deletePackageDialog.package.value.id) <==> NumFalsy(pkg.id) && NumFalsy(pkg.ID)
    {
      deletePackageDialog := PackageDialog(true, Some(pkg.(name := DialogName(pkg.name),
                                                            id := OrNumOpt(pkg.id, pkg.ID),
                                                            ID := OrNumOpt(pkg.ID, pkg.id))));
    }

    /** `confirmDeletePackage`: nothing happens without a package or with a
        zero or missing id; otherwise the package is deleted under `id || ID`
        and the dialog closes, whether the deletion succeeded or not. */
    method ConfirmDeletePackage(accepted: bool, language: string, refetch: Fetched<RawPackage>)
      returns (request: Option<Request>)
      modifies store`packages, this`deletePackageDialog
      ensures var p := old(deletePackageDialog.package);
              request.None? <==> p.None? || NumFalsy(OrNumOpt(p.value.id, p.value.ID))
      ensures request.None? ==>
                deletePackageDialog == old(deletePackageDialog) && store.packages == old(store.packages)
      ensures request.Some? ==>
                var p := old(deletePackageDialog.package.value);
                && request.value == Delete("/admin/packages/" + IntToString(OrNumOpt(p.id, p.ID).value))
                && deletePackageDialog == PackageDialog(false, None)
                && store.packages == (if accepted && refetch.Records? then NormalizeAll(refetch.items)
                                      else old(store.packages))
    {
      if deletePackageDialog.package.None? {
        return None;
      }
      var p := deletePackageDialog.package.value;
      var packageId := OrNumOpt(p.id, p.ID);
      if NumFalsy(packageId) {
        return None;
      }
      var req, ok := store.DeletePackage(packageId.value, accepted, language, refetch);
      deletePackageDialog := PackageDialog(false, None);
      request := Some(req);
    }

    // -------------------------------------------------------------------
    // Handlers keyed by package id, on the legacy fields
    // -------------------------------------------------------------------

    /** The draft is the package with this id. */
    predicate Editing(packageId: int)
      reads this
    {
      editingPackage.Some? && editingPackage.value.id == Some(packageId)
    }

    /** `handleAddRoute`: appends an empty route and selects it. */
    method HandleAddRoute(packageId: int)
      modifies this`editingPackage, this`editingRouteIndex
      ensures !old(Editing(packageId)) ==>
                editingPackage == old(editingPackage) && editingRouteIndex == old(editingRouteIndex)
      ensures old(Editing(packageId)) ==>
                var d := old(editingPackage.value);
                && editingPackage == Some(d.(routes := d.routes + [BlankRoute]))
                && editingRouteIndex == Some(|d.routes|)
                && editingPackage.value.routes[editingRouteIndex.value] == BlankRoute
    {
      if Editing(packageId) {
        var d := editingPackage.value;
        editingPackage := Some(d.(routes := d.routes + [BlankRoute]));
        editingRouteIndex := Some(|d.routes|);
      }
    }

    /** `handleRemoveRoute`: removes the route and clears the selection if it
        was that route. */
    method HandleRemoveRoute(packageId: int, routeIndex: int)
      modifies this`editingPackage, this`editingRouteIndex
      ensures !old(Editing(packageId)) ==>
                editingPackage == old(editingPackage) && editingRouteIndex == old(editingRouteIndex)
      ensures old(Editing(packageId)) ==>
                var d := old(editingPackage.value);
                && editingPackage == Some(d.(routes := RemoveAt(d.routes, routeIndex)))
                && editingRouteIndex == (if old(editingRouteIndex) == Some(routeIndex) then None
                                         else old(editingRouteIndex))
    {
      if Editing(packageId) {
        var d := editingPackage.value;
        editingPackage := Some(d.(routes := RemoveAt(d.routes, routeIndex)));
        if editingRouteIndex == Some(routeIndex) {
          editingRouteIndex := None;
        }
      }
    }

    /** `handleUpdateRoute`: sets the name or the price of one route. */
    method HandleUpdateRoute(packageId: int, routeIndex: int, field: RouteField, value: string)
      requires Editing(packageId) ==> 0 <= routeIndex < |editingPackage.value.routes|
      modifies this`editingPackage
      ensures !old(Editing(packageId)) ==> editingPackage == old(editingPackage)
      ensures old(Editing(packageId)) ==>
                var d := old(editingPackage.value);
                var r := d.routes[routeIndex];
                editingPackage == Some(d.(routes := d.routes[routeIndex :=
                                          if field.RouteName? then r.(name := value) else r.(price := value)]))
    {
      if Editing(packageId) {
        var d := editingPackage.value;
        var r := d.routes[routeIndex];
        var e := if field.RouteName? then r.(name := value) else r.(price := value);
        editingPackage := Some(d.(routes := d.routes[routeIndex := e]));
      }
    }

    /** `handleAddFeature` and `handleAddExclude`: appends an empty item. */
    method HandleAddLegacyItem(packageId: int, list: LegacyList)
      modifies this`editingPackage
      ensures !old(Editing(packageId)) ==> editingPackage == old(editingPackage)
      ensures old(Editing(packageId)) ==>
                var d := old(editingPackage.value);
                editingPackage == Some(WithLegacyItems(d, list, LegacyItems(d, list) + [""]))
    {
      if Editing(packageId) {
        var d := editingPackage.value;
        editingPackage := Some(WithLegacyItems(d, list, LegacyItems(d, list) + [""]));
      }
    }

    /** `handleRemoveFeature` and `handleRemoveExclude`. */
    method HandleRemoveLegacyItem(packageId: int, list: LegacyList, index: int)
      modifies this`editingPackage
      ensures !old(Editing(packageId)) ==> editingPackage == old(editingPackage)
      ensures old(Editing(packageId)) ==>
                var d := old(editingPackage.value);
                editingPackage == Some(WithLegacyItems(d, list, RemoveAt(LegacyItems(d, list), index)))
    {
      if Editing(packageId) {
        var d := editingPackage.value;
        editingPackage := Some(WithLegacyItems(d, list, RemoveAt(LegacyItems(d, list), index)));
      }
    }

    /** `handleUpdateFeature` and `handleUpdateExclude`. */
    method HandleUpdateLegacyItem(packageId: int, list: LegacyList, index: int, value: string)
      requires Editing(packageId) ==> 0 <= index < |LegacyItems(editingPackage.value, list)|
      modifies this`editingPackage
      ensures !old(Editing(packageId)) ==> editingPackage == old(editingPackage)
      ensures old(Editing(packageId)) ==>
                var d := old(editingPackage.value);
                editingPackage == Some(WithLegacyItems(d, list, LegacyItems(d, list)[index := value]))
    {
      if Editing(packageId) {
        var d := editingPackage.value;
        editingPackage := Some(WithLegacyItems(d, list, LegacyItems(d, list)[index := value]));
      }
    }

    // -------------------------------------------------------------------
    // The language tabs of the editor
    // -------------------------------------------------------------------

    method SetLangTab(tab: LangTab)
      modifies this`activeLangTab
      ensures activeLangTab == tab
    {
      activeLangTab := tab;
    }

    /** The Indonesian name and description inputs also write the legacy
        field, so the two never differ after typing. */
    method SetIndonesianText(field: TextField, value: string)
      requires editingPackage.Some?
      modifies this`editingPackage
      ensures var d := old(editingPackage.value);
              editingPackage == Some(match field
                                     case NameText => d.(nameId := Some(value), name := value)
                                     case DescriptionText => d.(descriptionId := Some(value), description := Some(value)))
    {
      var d := editingPackage.value;
      match field
      case NameText => editingPackage := Some(d.(nameId := Some(value), name := value));
      case DescriptionText => editingPackage := Some(d.(descriptionId := Some(value), description := Some(value)));
    }

    /** The English inputs write only the English field. */
    method SetEnglishText(field: TextField, value: string)
      requires editingPackage.Some?
      modifies this`editingPackage
      ensures var d := old(editingPackage.value);
              editingPackage == Some(match field
                                     case NameText => d.(nameEn := Some(value))
                                     case DescriptionText => d.(descriptionEn := Some(value)))
    {
      var d := editingPackage.value;
      match field
      case NameText => editingPackage := Some(d.(nameEn := Some(value)));
      case DescriptionText => editingPackage := Some(d.(descriptionEn := Some(value)));
    }

    /** "Tambah Rute": appends an empty route to the Indonesian routes and
        an empty legacy route after them. */
    method AddIdRoute()
      requires editingPackage.Some?
      modifies this`editingPackage
      ensures var d := old(editingPackage.value); var cur := IdRoutes(d);
              editingPackage == Some(d.(routesId := Some(cur + [BlankLocalRoute]), routes := cur + [BlankRoute]))
      ensures |IdRoutes(editingPackage.value)| == |IdRoutes(old(editingPackage.value))| + 1
    {
      var d := editingPackage.value;
      var cur := IdRoutes(d);
      editingPackage := Some(d.(routesId := Some(cur + [BlankLocalRoute]), routes := cur + [BlankRoute]));
    }

    /** Typing in an Indonesian route row: that route changes and the legacy
        routes are rebuilt from the Indonesian ones. */
    method SetIdRoute(index: int, field: RouteField, value: string)
      requires editingPackage.Some? && 0 <= index < |IdRoutes(editingPackage.value)|
      modifies this`editingPackage
      ensures var d := old(editingPackage.value); var cur := IdRoutes(d);
              var rs := cur[index := WithIdRouteField(cur[index], field, value)];
              editingPackage == Some(d.(routesId := Some(rs), routes := LegacyRoutesOf(rs)))
      ensures RoutesSynced(editingPackage.value)
      ensures field.RouteName? ==> editingPackage.value.routes[index].name == value
    {
      var d := editingPackage.value;
      var cur := IdRoutes(d);
      var rs := cur[index := WithIdRouteField(cur[index], field, value)];
      editingPackage := Some(d.(routesId := Some(rs), routes := LegacyRoutesOf(rs)));
      assert field.RouteName? ==> rs[index].nameId == Some(value) && rs[index].name == value;
      FirstTruthyOfTwo(rs[index].nameId, Some(rs[index].name));
    }

    /** Removing an Indonesian route: the legacy routes are rebuilt from the
        remaining ones. */
    method RemoveIdRoute(index: int)
      requires editingPackage.Some?
      modifies this`editingPackage
      ensures var d := old(editingPackage.value); var rs := RemoveAt(IdRoutes(d), index);
              editingPackage == Some(d.(routesId := Some(rs), routes := LegacyRoutesOf(rs)))
      ensures RoutesSynced(editingPackage.value)
    {
      var d := editingPackage.value;
      var rs := RemoveAt(IdRoutes(d), index);
      editingPackage := Some(d.(routesId := Some(rs), routes := LegacyRoutesOf(rs)));
    }

    /** "Add Route" on the English tab. */
    method AddEnRoute()
      requires editingPackage.Some?
      modifies this`editingPackage
      ensures var d := old(editingPackage.value);
              editingPackage == Some(d.(routesEn := Some(EnRoutes(d) + [BlankLocalRoute])))
    {
      var d := editingPackage.value;
      editingPackage := Some(d.(routesEn := Some(EnRoutes(d) + [BlankLocalRoute])));
    }

    /** Typing in an English route row changes only the English routes. */
    method SetEnRoute(index: int, field: RouteField, value: string)
      requires editingPackage.Some? && 0 <= index < |EnRoutes(editingPackage.value)|
      modifies this`editingPackage
      ensures var d := old(editingPackage.value); var cur := EnRoutes(d);
              editingPackage == Some(d.(routesEn := Some(cur[index := WithEnRouteField(cur[index], field, value)])))
    {
      var d := editingPackage.value;
      var cur := EnRoutes(d);
      editingPackage := Some(d.(routesEn := Some(cur[index := WithEnRouteField(cur[index], field, value)])));
    }

    method RemoveEnRoute(index: int)
      requires editingPackage.Some?
      modifies this`editingPackage
      ensures var d := old(editingPackage.value);
              editingPackage == Some(d.(routesEn := Some(RemoveAt(EnRoutes(d), index))))
    {
      var d := editingPackage.value;
      editingPackage := Some(d.(routesEn := Some(RemoveAt(EnRoutes(d), index))));
    }

    /** "Tambah Fitur" / "Tambah Include": appends an empty item to the
        Indonesian list and its legacy mirror. */
    method AddIdItem(list: IdList)
      requires editingPackage.Some?
      modifies this`editingPackage
      ensures var d := old(editingPackage.value);
              editingPackage == Some(WithIdItems(d, list, IdItems(d, list) + [""]))
      ensures IdMirrored(editingPackage.value, list)
    {
      var d := editingPackage.value;
      editingPackage := Some(WithIdItems(d, list, IdItems(d, list) + [""]));
    }

    method SetIdItem(list: IdList, index: int, value: string)
      requires editingPackage.Some? && 0 <= index < |IdItems(editingPackage.value, list)|
      modifies this`editingPackage
      ensures var d := old(editingPackage.value);
              editingPackage == Some(WithIdItems(d, list, IdItems(d, list)[index := value]))
      ensures IdMirrored(editingPackage.value, list)
    {
      var d := editingPackage.value;
      editingPackage := Some(WithIdItems(d, list, IdItems(d, list)[index := value]));
    }

    method RemoveIdItem(list: IdList, index: int)
      requires editingPackage.Some?
      modifies this`editingPackage
      ensures var d := old(editingPackage.value);
              editingPackage == Some(WithIdItems(d, list, RemoveAt(IdItems(d, list), index)))
      ensures IdMirrored(editingPackage.value, list)
    {
      var d := editingPackage.value;
      editingPackage := Some(WithIdItems(d, list, RemoveAt(IdItems(d, list), index)));
    }

    /** "Add Feature" / "Add Include" on the English tab. */
    method AddEnItem(list: EnList)
      requires editingPackage.Some?
      modifies this`editingPackage
      ensures var d := old(editingPackage.value);
              editingPackage == Some(WithEnItems(d, list, EnItems(d, list) + [""]))
    {
      var d := editingPackage.value;
      editingPackage := Some(WithEnItems(d, list, EnItems(d, list) + [""]));
    }

    method SetEnItem(list: EnList, index: int, value: string)
      requires editingPackage.Some? && 0 <= index < |EnItems(editingPackage.value, list)|
      modifies this`editingPackage
      ensures var d := old(editingPackage.value);
              editingPackage == Some(WithEnItems(d, list, EnItems(d, list)[index := value]))
    {
      var d := editingPackage.value;
      editingPackage := Some(WithEnItems(d, list, EnItems(d, list)[index := value]));
    }

    method RemoveEnItem(list: EnList, index: int)
      requires editingPackage.Some?
      modifies this`editingPackage
      ensures var d := old(editingPackage.value);
              editingPackage == Some(WithEnItems(d, list, RemoveAt(EnItems(d, list), index)))
    {
      var d := editingPackage.value;
      editingPackage := Some(WithEnItems(d, list, RemoveAt(EnItems(d, list), index)));
    }

    /** The fields common to both languages. */
    method SetCapacity(value: string)
      requires editingPackage.Some?
      modifies this`editingPackage
      ensures editingPackage == Some(old(editingPackage.value).(capacity := value))
    {
      editingPackage := Some(editingPackage.value.(capacity := value));
    }

    method SetDuration(value: string)
      requires editingPackage.Some?
      modifies this`editingPackage
      ensures editingPackage == Some(old(editingPackage.value).(duration := value))
    {
      editingPackage := Some(editingPackage.value.(duration := value));
    }

    method SetPopular(checked: bool)
      requires editingPackage.Some?
      modifies this`editingPackage
      ensures editingPackage == Some(old(editingPackage.value).(popular := Some(checked)))
    {
      editingPackage := Some(editingPackage.value.(popular := Some(checked)));
    }

    // -------------------------------------------------------------------
    // The image
    // -------------------------------------------------------------------

    /** `handleRemoveImage`: the draft's image becomes "" and the preview
        goes. */
    method HandleRemoveImage()
      modifies this`editingPackage, this`imagePreview
      ensures old(editingPackage).Some? ==> editingPackage == Some(old(editingPackage.value).(imageUrl := Some("")))
      ensures old(editingPackage).None? ==> editingPackage.None?
      ensures imagePreview.None?
    {
      if editingPackage.Some? {
        editingPackage := Some(editingPackage.value.(imageUrl := Some("")));
      }
      imagePreview := None;
    }

    /** `handleImageUpload`: without a file, or with a file of another type
        or over 5 MB, nothing changes. Otherwise the preview shows the file
        (`dataUrl`) and the upload's answer decides: a non-empty
        `image_url` becomes the draft's image; a thrown error removes the
        preview. */
    method HandleImageUpload(file: Option<ImageFile>, dataUrl: string, reply: UploadReply)
      returns (uploaded: bool)
      modifies this`editingPackage, this`imagePreview
      ensures uploaded <==> file.Some? && CheckImage(file.value.mimeType, file.value.size).ImageAccepted?
      ensures !uploaded ==> editingPackage == old(editingPackage) && imagePreview == old(imagePreview)
      ensures uploaded && reply.UploadThrew? ==> editingPackage == old(editingPackage) && imagePreview.None?
      ensures uploaded && reply.UploadAnswered? ==> imagePreview == Some(dataUrl)
      ensures uploaded && reply.UploadAnswered? && Truthy(reply.imageUrl) && old(editingPackage).Some? ==>
                editingPackage == Some(old(editingPackage.value).(imageUrl := reply.imageUrl))
      ensures uploaded && reply.UploadAnswered? && !(Truthy(reply.imageUrl) && old(editingPackage).Some?) ==>
                editingPackage == old(editingPackage)
    {
      if file.None? || !CheckImage(file.value.mimeType, file.value.size).ImageAccepted? {
        return false;
      }
      uploaded := true;
      imagePreview := Some(dataUrl);
      match reply {
        case UploadThrew =>
          imagePreview := None;
        case UploadAnswered(imageUrl) =>
          if Truthy(imageUrl) && editingPackage.Some? {
            editingPackage := Some(editingPackage.value.(imageUrl := imageUrl));
          }
      }
    }

    // -------------------------------------------------------------------
    // Add-ons
    // -------------------------------------------------------------------

    /** `handleNewAddOn`. */
    method HandleNewAddOn()
      modifies this`editingAddOn, this`showAddAddOn
      ensures editingAddOn == Some(NewAddOnDraft) && showAddAddOn
    {
      editingAddOn := Some(NewAddOnDraft);
      showAddAddOn := true;
    }

    /** `handleEditAddOn`: edits a copy of the add-on. */
    method HandleEditAddOn(addOn: AddOnData)
      modifies this`editingAddOn
      ensures editingAddOn == Some(addOn)
    {
      editingAddOn := Some(addOn);
    }

    /** `handleCancelAddOn`. */
    method HandleCancelAddOn()
      modifies this`editingAddOn, this`showAddAddOn
      ensures editingAddOn.None? && !showAddAddOn
    {
      editingAddOn := None;
      showAddAddOn := false;
    }

    /** Typing in the add-on form. */
    method SetAddOnText(field: AddOnField, value: string)
      requires editingAddOn.Some?
      modifies this`editingAddOn
      ensures var a := old(editingAddOn.value);
              editingAddOn == Some(match field
                                   case AddOnName => a.(name := Some(value))
                                   case AddOnPrice => a.(price := Some(value))
                                   case AddOnDescription => a.(description := Some(value)))
    {
      var a := editingAddOn.value;
      match field
      case AddOnName => editingAddOn := Some(a.(name := Some(value)));
      case AddOnPrice => editingAddOn := Some(a.(price := Some(value)));
      case AddOnDescription => editingAddOn := Some(a.(description := Some(value)));
    }

    /** `handleSaveAddOn`: an add-on whose ids are both 0 or missing is
        created without them; any other is updated under `id || ID`. On
        success the form closes; on failure it stays. */
    method HandleSaveAddOn(accepted: bool, refetch: Fetched<AddOnData>)
      returns (request: Option<Request>)
      modifies store`addOns, this`editingAddOn, this`showAddAddOn
      ensures old(editingAddOn).None? ==>
                request.None? && unchanged(this) && store.addOns == old(store.addOns)
      ensures old(editingAddOn).Some? && NumFalsy(old(editingAddOn.value.id)) && NumFalsy(old(editingAddOn.value.ID)) ==>
                request == Some(Post("/admin/addons", AddOnJson(old(editingAddOn.value).(id := None, ID := None))))
                && (accepted ==> !showAddAddOn)
      ensures old(editingAddOn).Some? && !(NumFalsy(old(editingAddOn.value.id)) && NumFalsy(old(editingAddOn.value.ID))) ==>
                var a := old(editingAddOn.value);
                && request == Some(Put("/admin/addons/" + IntToString(OrNum(a.id, OrNum(a.ID, 0))),
                                       AddOnJson(AddOnUpdateBody(a))))
                && OrNum(a.id, OrNum(a.ID, 0)) != 0
                && showAddAddOn == old(showAddAddOn)
      ensures old(editingAddOn).Some? && accepted ==>
                editingAddOn.None?
                && store.addOns == (if refetch.Records? then NormalizeAddOns(refetch.items) else old(store.addOns))
      ensures !accepted ==>
                editingAddOn == old(editingAddOn) && showAddAddOn == old(showAddAddOn)
                && store.addOns == old(store.addOns)
    {
      if editingAddOn.None? {
        return None;
      }
      var a := editingAddOn.value;
      var req, ok;
      if NumFalsy(a.id) && NumFalsy(a.ID) {
        req, ok := store.AddAddOn(a.(id := None, ID := None), accepted, refetch);
        if ok {
          editingAddOn := None;
          showAddAddOn := false;
        }
      } else {
        req, ok := store.UpdateAddOn(OrNum(a.id, OrNum(a.ID, 0)), a, accepted, refetch);
        if ok {
          editingAddOn := None;
        }
      }
      request := Some(req);
    }

    /** `handleDeleteAddOn`: opens the dialog for this add-on. */
    method HandleDeleteAddOn(id: int)
      modifies this`deleteAddOnDialog
      ensures deleteAddOnDialog == AddOnDialog(true, Some(id))
    {
      deleteAddOnDialog := AddOnDialog(true, Some(id));
    }

    /** `confirmDeleteAddOn`: without an add-on nothing happens; otherwise it
        is removed and the dialog closes, whether the removal succeeded or
        not. */
    method ConfirmDeleteAddOn(accepted: bool, refetch: Fetched<AddOnData>)
      returns (request: Option<Request>)
      modifies store`addOns, this`deleteAddOnDialog
      ensures request.None? <==> old(deleteAddOnDialog.addOnId).None?
      ensures request.None? ==>
                deleteAddOnDialog == old(deleteAddOnDialog) && store.addOns == old(store.addOns)
      ensures request.Some? ==>
                && request.value == Delete("/admin/addons/" + IntToString(old(deleteAddOnDialog.addOnId.value)))
                && deleteAddOnDialog == AddOnDialog(false, None)
                && store.addOns == (if accepted && refetch.Records? then NormalizeAddOns(refetch.items)
                                    else old(store.addOns))
    {
      if deleteAddOnDialog.addOnId.None? {
        return None;
      }
      var req, ok := store.RemoveAddOn(deleteAddOnDialog.addOnId.value, accepted, refetch);
      deleteAddOnDialog := AddOnDialog(false, None);
      request := Some(req);
    }

    // -------------------------------------------------------------------
    // The password dialog
    // -------------------------------------------------------------------

    method OpenChangePassword()
      modifies this`showChangePassword
      ensures showChangePassword
    {
      showChangePassword := true;
    }

    method SetPasswordField(field: PasswordField, value: string)
      modifies this`passwordData
      ensures passwordData == match field
                              case OldPassword => old(passwordData).(oldPassword := value)
                              case NewPassword => old(passwordData).(newPassword := value)
                              case ConfirmPassword => old(passwordData).(confirmPassword := value)
    {
      match field
      case OldPassword => passwordData := passwordData.(oldPassword := value);
      case NewPassword => passwordData := passwordData.(newPassword := value);
      case ConfirmPassword => passwordData := passwordData.(confirmPassword := value);
    }

    /** "Batal": closes the dialog and clears the form. */
    method CancelChangePassword()
      modifies this`showChangePassword, this`passwordData
      ensures !showChangePassword && passwordData == EmptyPasswordForm
    {
      showChangePassword := false;
      passwordData := EmptyPasswordForm;
    }

    /** "Ubah Password": a new password under 6 characters or different from
        its confirmation is refused before any request; otherwise the change
        is requested, and on success the dialog closes and the form is
        cleared. The notice shown on failure is always the session's own
        message, which is never empty, so the dashboard's own fallback text
        is never needed. */
    method SubmitPassword(reply: PasswordReply) returns (request: Option<AuthRequest>, notice: string)
      modifies this`showChangePassword, this`passwordData
      ensures var f := old(passwordData);
              request.Some? <==> CheckPassword(f.newPassword, f.confirmPassword).PasswordReady?
      ensures request.None? ==> showChangePassword == old(showChangePassword) && passwordData == old(passwordData)
      ensures var f := old(passwordData);
              CheckPassword(f.newPassword, f.confirmPassword).PasswordTooShort? ==> notice == PasswordTooShortNotice
      ensures var f := old(passwordData);
              CheckPassword(f.newPassword, f.confirmPassword).PasswordMismatch? ==> notice == PasswordMismatchNotice
      ensures request.Some? ==> request.value == ChangePasswordRequest(old(passwordData).oldPassword, old(passwordData).newPassword)
      ensures request.Some? && reply.PasswordChanged? ==>
                !showChangePassword && passwordData == EmptyPasswordForm
                && notice == (if Truthy(reply.message) then reply.message.value else PasswordChangedNotice)
      ensures request.Some? && reply.PasswordFailed? ==>
                showChangePassword == old(showChangePassword) && passwordData == old(passwordData)
                && notice == FirstTruthy([reply.responseMessage, reply.errorMessage, Some(DefaultPasswordError)])
    {
      match CheckPassword(passwordData.newPassword, passwordData.confirmPassword) {
        case PasswordTooShort =>
          return None, PasswordTooShortNotice;
        case PasswordMismatch =>
          return None, PasswordMismatchNotice;
        case PasswordReady =>
      }
      var req, result := session.ChangePassword(passwordData.oldPassword, passwordData.newPassword, reply);
      request := Some(req);
      if result.success {
        notice := OrStr(result.message, PasswordChangedNotice);
        showChangePassword := false;
        passwordData := EmptyPasswordForm;
      } else {
        notice := OrStr(result.message, PasswordFailedNotice);
      }
    }
  }
}
