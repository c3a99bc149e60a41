/** The bilingual package and add-on repository of the web client.

    Records come from the REST API in a loose shape: legacy single-language
    fields (`name`, `routes`, ...) beside Indonesian (`_id`) and English
    (`_en`) variants, ids under `ID` or `id`, and route prices as text or as
    numbers. The repository normalises them into `PackageData`, builds the
    bodies of the create and update requests, and keeps its in-memory
    collections when a fetch fails. */
module PackageContext {
  import opened Js
  import opened JsString

  // ---------------------------------------------------------------------
  // Records as the API sends them
  // ---------------------------------------------------------------------

  /** A route's `price` as the API may send it. */
  datatype RawPrice = PriceMissing | PriceNull | PriceText(text: string) | PriceNumber(n: int)

  /** One element of a route array in an API record. */
  datatype RawRoute =
    | RouteObject(name: Option<string>, nameId: Option<string>, nameEn: Option<string>, price: RawPrice)
    | NotAnObject

  /** A package record as the API sends it. A list field that is missing or
      is not an array is `None`. */
  datatype RawPackage = RawPackage(
    ID: Option<int>, id: Option<int>,
    name: Option<string>, nameId: Option<string>, nameEn: Option<string>,
    description: Option<string>, descriptionId: Option<string>, descriptionEn: Option<string>,
    duration: Option<string>, capacity: Option<string>,
    features: Option<seq<string>>, featuresId: Option<seq<string>>, featuresEn: Option<seq<string>>,
    includes: Option<seq<string>>, includesId: Option<seq<string>>, includesEn: Option<seq<string>>,
    excludes: Option<seq<string>>, excludesId: Option<seq<string>>, excludesEn: Option<seq<string>>,
    routes: Option<seq<RawRoute>>, routesId: Option<seq<RawRoute>>, routesEn: Option<seq<RawRoute>>,
    isPopular: Option<bool>,
    imageUrl: Option<string>)

  // ---------------------------------------------------------------------
  // The client's view model
  // ---------------------------------------------------------------------

  /** A route variant of a package. Entries created in the editor carry only
      `name` and `price`, so the localised names are optional. */
  datatype Route = Route(name: string, price: string, nameId: Option<string>, nameEn: Option<string>)

  /** `PackageData`: the normalised package. Fields the interface marks as
      optional are `Option`s. */
  datatype PackageData = PackageData(
    ID: Option<int>, id: Option<int>,
    name: string, description: Option<string>,
    nameId: Option<string>, nameEn: Option<string>,
    descriptionId: Option<string>, descriptionEn: Option<string>,
    duration: string, capacity: string,
    features: seq<string>, featuresId: Option<seq<string>>, featuresEn: Option<seq<string>>,
    legacyInclude: Option<seq<string>>, includesId: Option<seq<string>>, includesEn: Option<seq<string>>,
    exclude: seq<string>, excludesId: Option<seq<string>>, excludesEn: Option<seq<string>>,
    routes: seq<Route>, routesId: Option<seq<Route>>, routesEn: Option<seq<Route>>,
    popular: Option<bool>,
    imageUrl: Option<string>)

  /** `Partial<PackageData>`: what a caller hands to `updatePackage` and,
      through a cast, to `addPackage`. Every field may be undefined. */
  datatype PackagePatch = PackagePatch(
    name: Option<string>, description: Option<string>,
    nameId: Option<string>, nameEn: Option<string>,
    descriptionId: Option<string>, descriptionEn: Option<string>,
    duration: Option<string>, capacity: Option<string>,
    features: Option<seq<string>>, featuresId: Option<seq<string>>, featuresEn: Option<seq<string>>,
    legacyInclude: Option<seq<string>>, includesId: Option<seq<string>>, includesEn: Option<seq<string>>,
    exclude: Option<seq<string>>, excludesId: Option<seq<string>>, excludesEn: Option<seq<string>>,
    routes: Option<seq<Route>>, routesId: Option<seq<Route>>, routesEn: Option<seq<Route>>,
    popular: Option<bool>,
    imageUrl: Option<string>)

  /** `AddOnData`, which is also the shape of a raw add-on record and of a
      partial add-on update: every field may be undefined. */
  datatype AddOnData = AddOnData(
    ID: Option<int>, id: Option<int>,
    name: Option<string>, price: Option<string>, description: Option<string>,
    nameId: Option<string>, nameEn: Option<string>,
    descriptionId: Option<string>, descriptionEn: Option<string>)

  // ---------------------------------------------------------------------
  // Normalisation of fetched records
  // ---------------------------------------------------------------------

  /** The price text of a route: `String(r.price)` when the price is present
      and not null, else "". A numeric price becomes its decimal text, which
      reads back as the same number. */
  function PriceString(p: RawPrice): (r: string)
    ensures p.PriceText? ==> r == p.text
    ensures (p.PriceMissing? || p.PriceNull?) ==> r == ""
    ensures p.PriceNumber? ==> r == IntToString(p.n) && ParseInt(IntToString(p.n)) == p.n
  {
    match p
    case PriceMissing => ""
    case PriceNull => ""
    case PriceText(t) => t
    case PriceNumber(n) =>
      IntToStringRoundTrip(n);
      IntToString(n)
  }

  /** One element of `transformRoutes`. The display name is the first
      non-empty of `name`, `name_id`, `name_en`; each localised name falls
      back to `name`; an element that is not an object becomes an all-empty
      route. */
  function TransformRoute(r: RawRoute): (t: Route)
    ensures r.NotAnObject? ==> t == Route("", "", Some(""), Some(""))
    ensures r.RouteObject? ==>
      && t.name == FirstTruthy([r.name, r.nameId, r.nameEn])
      && t.nameId == Some(FirstTruthy([r.nameId, r.name]))
      && t.nameEn == Some(FirstTruthy([r.nameEn, r.name]))
      && t.price == PriceString(r.price)
  {
    match r
    case NotAnObject => Route("", "", Some(""), Some(""))
    case RouteObject(name, nameId, nameEn, price) =>
      FirstTruthyOfThree(name, nameId, nameEn);
      FirstTruthyOfTwo(nameId, name);
      FirstTruthyOfTwo(nameEn, name);
      Route(OrStr(name, OrStr(nameId, OrStr(nameEn, ""))),
            PriceString(price),
            Some(OrStr(nameId, OrStr(name, ""))),
            Some(OrStr(nameEn, OrStr(name, ""))))
  }

  /** `routes.map(...)` in `transformRoutes`: one route per element, in order. */
  function TransformEach(rs: seq<RawRoute>): (r: seq<Route>)
    ensures |r| == |rs|
    ensures forall i :: 0 <= i < |rs| ==> r[i] == TransformRoute(rs[i])
  {
    if rs == [] then [] else [TransformRoute(rs[0])] + TransformEach(rs[1..])
  }

  /** `transformRoutes`: a missing or non-array input gives no routes. */
  function TransformRoutes(routes: Option<seq<RawRoute>>): (r: seq<Route>)
    ensures routes.None? ==> r == []
    ensures routes.Some? ==> |r| == |routes.value|
    ensures routes.Some? ==> forall i :: 0 <= i < |r| ==> r[i] == TransformRoute(routes.value[i])
  {
    if routes.None? then [] else TransformEach(routes.value)
  }

  /** The canonical id of a record: the first non-zero of `ID` and `id`, else 0. */
  function CanonicalId(upper: Option<int>, lower: Option<int>): (r: int)
    ensures r != 0 ==> Some(r) == upper || Some(r) == lower
    ensures r == 0 <==> NumFalsy(upper) && NumFalsy(lower)
    ensures !NumFalsy(upper) ==> r == upper.value
  {
    OrNum(upper, OrNum(lower, 0))
  }

  /** The names, descriptions, feature lists, include lists and routes of
      both languages are defined, so each language has a displayable value;
      the exclude lists are not covered. */
  predicate Displayable(p: PackageData) {
    && p.nameId.Some? && p.nameEn.Some?
    && p.descriptionId.Some? && p.descriptionEn.Some?
    && p.featuresId.Some? && p.featuresEn.Some?
    && p.includesId.Some? && p.includesEn.Some?
    && p.routesId.Some? && p.routesEn.Some?
  }

  /** The per-record mapping in `fetchPackages`. Fields it does not mention
      (`excludes_id`, `excludes_en`) are kept as sent, by the spread. */
  function NormalizePackage(pkg: RawPackage): (p: PackageData)
    ensures Displayable(p)
    ensures p.id == p.ID == Some(CanonicalId(pkg.ID, pkg.id))
    // Indonesian fields fall back to the legacy fields ...
    ensures p.nameId == Some(FirstTruthy([pkg.nameId, pkg.name]))
    ensures p.descriptionId == Some(FirstTruthy([pkg.descriptionId, pkg.description]))
    ensures p.featuresId == Some(if pkg.featuresId.Some? then pkg.featuresId.value
                                 else if pkg.features.Some? then pkg.features.value else [])
    ensures p.includesId == Some(if pkg.includesId.Some? then pkg.includesId.value
                                 else if pkg.includes.Some? then pkg.includes.value else [])
    // ... English fields do not
    ensures p.nameEn == Some(FirstTruthy([pkg.nameEn]))
    ensures p.descriptionEn == Some(FirstTruthy([pkg.descriptionEn]))
    ensures p.featuresEn == Some(if pkg.featuresEn.Some? then pkg.featuresEn.value else [])
    ensures p.includesEn == Some(if pkg.includesEn.Some? then pkg.includesEn.value else [])
    // routes: the localised lists are their own; legacy falls back to `routes_id`
    ensures p.routesId == Some(TransformRoutes(pkg.routesId))
    ensures p.routesEn == Some(TransformRoutes(pkg.routesEn))
    ensures p.routes == if pkg.routes.Some? && |pkg.routes.value| > 0
                        then TransformRoutes(pkg.routes) else TransformRoutes(pkg.routesId)
    ensures p.popular == Some(pkg.isPopular == Some(true))
    ensures p.excludesId == pkg.excludesId && p.excludesEn == pkg.excludesEn
  {
    assert [pkg.nameId, pkg.name][1..] == [pkg.name];
    assert [pkg.descriptionId, pkg.description][1..] == [pkg.description];
    var routesId := TransformRoutes(pkg.routesId);
    var routesEn := TransformRoutes(pkg.routesEn);
    var legacy := TransformRoutes(pkg.routes);
    var canonical := OrNum(pkg.ID, OrNum(pkg.id, 0));
    PackageData(
      ID := Some(canonical), id := Some(canonical),
      name := OrStr(pkg.name, ""),
      description := Some(OrStr(pkg.description, "")),
      nameId := Some(OrStr(pkg.nameId, OrStr(pkg.name, ""))),
      nameEn := Some(OrStr(pkg.nameEn, "")),
      descriptionId := Some(OrStr(pkg.descriptionId, OrStr(pkg.description, ""))),
      descriptionEn := Some(OrStr(pkg.descriptionEn, "")),
      duration := OrStr(pkg.duration, ""),
      capacity := OrStr(pkg.capacity, ""),
      features := OrList(pkg.features, []),
      featuresId := Some(OrList(pkg.featuresId, OrList(pkg.features, []))),
      featuresEn := Some(OrList(pkg.featuresEn, [])),
      legacyInclude := Some(OrList(pkg.includes, OrList(pkg.includesId, []))),
      includesId := Some(OrList(pkg.includesId, OrList(pkg.includes, []))),
      includesEn := Some(OrList(pkg.includesEn, [])),
      exclude := OrList(pkg.excludes, []),
      excludesId := pkg.excludesId,
      excludesEn := pkg.excludesEn,
      routes := if |legacy| > 0 then legacy else routesId,
      routesId := Some(routesId),
      routesEn := Some(routesEn),
      popular := Some(OrBool(pkg.isPopular, false)),
      imageUrl := Some(OrStr(pkg.imageUrl, "")))
  }

  /** `response.data.map(...)` in `fetchPackages`. */
  function NormalizeAll(records: seq<RawPackage>): (ps: seq<PackageData>)
    ensures |ps| == |records|
    ensures forall i :: 0 <= i < |records| ==> ps[i] == NormalizePackage(records[i])
    ensures forall i :: 0 <= i < |ps| ==> Displayable(ps[i]) && ps[i].id == ps[i].ID
  {
    if records == [] then [] else [NormalizePackage(records[0])] + NormalizeAll(records[1..])
  }

  /** The per-record mapping in `fetchAddOns`: `id` becomes the canonical id,
      everything else stays as sent. */
  function NormalizeAddOn(a: AddOnData): (r: AddOnData)
    ensures r.id == Some(CanonicalId(a.ID, a.id))
    ensures r.(id := a.id) == a
  {
    a.(id := Some(OrNum(a.ID, OrNum(a.id, 0))))
  }

  function NormalizeAddOns(records: seq<AddOnData>): (rs: seq<AddOnData>)
    ensures |rs| == |records|
    ensures forall i :: 0 <= i < |records| ==> rs[i] == NormalizeAddOn(records[i])
  {
    if records == [] then [] else [NormalizeAddOn(records[0])] + NormalizeAddOns(records[1..])
  }

  // ---------------------------------------------------------------------
  // Request bodies
  // ---------------------------------------------------------------------

  /** A route as the API receives it: only the two localised names and the price. */
  datatype RouteEntry = RouteEntry(nameId: string, nameEn: string, price: string)

  /** The route mapping in `updatePackage` and `addPackage`: each localised
      name falls back to the display name. */
  function RouteEntryOf(r: Route): (e: RouteEntry)
    ensures e.nameId == FirstTruthy([r.nameId, Some(r.name)])
    ensures e.nameEn == FirstTruthy([r.nameEn, Some(r.name)])
    ensures e.price == r.price
  {
    assert [r.nameId, Some(r.name)][1..] == [Some(r.name)];
    assert [r.nameEn, Some(r.name)][1..] == [Some(r.name)];
    RouteEntry(OrStr(r.nameId, r.name), OrStr(r.nameEn, r.name), r.price)
  }

  function RouteEntries(rs: seq<Route>): (es: seq<RouteEntry>)
    ensures |es| == |rs|
    ensures forall i :: 0 <= i < |rs| ==> es[i] == RouteEntryOf(rs[i])
  {
    if rs == [] then [] else [RouteEntryOf(rs[0])] + RouteEntries(rs[1..])
  }

  /** `rs.map(...)` for a list that may be undefined. */
  function EntriesOf(rs: Option<seq<Route>>): (es: Option<seq<RouteEntry>>)
    ensures es.Some? <==> rs.Some?
    ensures rs.Some? ==> es.value == RouteEntries(rs.value)
  {
    if rs.Some? then Some(RouteEntries(rs.value)) else None
  }

  /** The JSON object sent to create or update a package. Each field holds
      the value sent under the key named beside it, or `None` when the body
      does not carry that key. */
  datatype PackageBody = PackageBody(
    nameId: Option<string>,             // name_id
    nameEn: Option<string>,             // name_en
    descriptionId: Option<string>,      // description_id
    descriptionEn: Option<string>,      // description_en
    routesId: Option<seq<RouteEntry>>,  // routes_id
    routesEn: Option<seq<RouteEntry>>,  // routes_en
    featuresId: Option<seq<string>>,    // features_id
    featuresEn: Option<seq<string>>,    // features_en
    includesId: Option<seq<string>>,    // includes_id
    includesEn: Option<seq<string>>,    // includes_en
    excludesId: Option<seq<string>>,    // excludes_id
    excludesEn: Option<seq<string>>,    // excludes_en
    name: Option<string>,               // name
    description: Option<string>,        // description
    routes: Option<seq<RouteEntry>>,    // routes
    features: Option<seq<string>>,      // features
    excludes: Option<seq<string>>,      // excludes
    isPopular: Option<bool>,            // is_popular
    capacity: Option<string>,           // capacity
    duration: Option<string>,           // duration
    imageUrl: Option<string>)           // image_url

  /** `{}`: a body without any key. */
  const EmptyBody := PackageBody(None, None, None, None, None, None, None, None, None, None, None,
                                 None, None, None, None, None, None, None, None, None, None)

  /** What `updatePackage` sends for a patch: a key only for a field the patch
      defines, `exclude` renamed `excludes`, `popular` renamed `is_popular`,
      and `image_url` only when it is defined and not empty. */
  predicate IsUpdatePayload(patch: PackagePatch, b: PackageBody) {
    && b.nameId == patch.nameId && b.nameEn == patch.nameEn
    && b.descriptionId == patch.descriptionId && b.descriptionEn == patch.descriptionEn
    && b.routesId == EntriesOf(patch.routesId) && b.routesEn == EntriesOf(patch.routesEn)
    && b.featuresId == patch.featuresId && b.featuresEn == patch.featuresEn
    && b.includesId == patch.includesId && b.includesEn == patch.includesEn
    && b.excludesId == patch.excludesId && b.excludesEn == patch.excludesEn
    && b.name == patch.name && b.description == patch.description
    && b.routes == EntriesOf(patch.routes)
    && b.features == patch.features && b.excludes == patch.exclude
    && b.isPopular == patch.popular
    && b.capacity == patch.capacity && b.duration == patch.duration
    && b.imageUrl == (if Truthy(patch.imageUrl) then patch.imageUrl else None)
  }

  /** A stored value after a partial update: the sent value when the body
      carries the key, else the stored one. */
  function Over<T>(sent: Option<T>, stored: Option<T>): (r: Option<T>)
    ensures sent.Some? ==> r == sent
    ensures sent.None? ==> r == stored
  {
    if sent.Some? then sent else stored
  }

  /** The body `updatePackage` fills key by key; each step sets its key
      when the patch defines the field and leaves the body as it is
      otherwise. An image URL is never sent empty. */
  method BuildUpdatePayload(patch: PackagePatch) returns (p: PackageBody)
    ensures IsUpdatePayload(patch, p)
    ensures p.imageUrl.Some? ==> p.imageUrl.value != ""
  {
    p := EmptyBody;
    p := p.(nameId := Over(patch.nameId, p.nameId));
    p := p.(nameEn := Over(patch.nameEn, p.nameEn));
    p := p.(descriptionId := Over(patch.descriptionId, p.descriptionId));
    p := p.(descriptionEn := Over(patch.descriptionEn, p.descriptionEn));
    p := p.(routesId := Over(EntriesOf(patch.routesId), p.routesId));
    p := p.(routesEn := Over(EntriesOf(patch.routesEn), p.routesEn));
    p := p.(featuresId := Over(patch.featuresId, p.featuresId));
    p := p.(featuresEn := Over(patch.featuresEn, p.featuresEn));
    p := p.(includesId := Over(patch.includesId, p.includesId));
    p := p.(includesEn := Over(patch.includesEn, p.includesEn));
    p := p.(excludesId := Over(patch.excludesId, p.excludesId));
    p := p.(excludesEn := Over(patch.excludesEn, p.excludesEn));
    // legacy fields
    p := p.(name := Over(patch.name, p.name));
    p := p.(description := Over(patch.description, p.description));
    p := p.(routes := Over(EntriesOf(patch.routes), p.routes));
    p := p.(features := Over(patch.features, p.features));
    p := p.(excludes := Over(patch.exclude, p.excludes));
    p := p.(isPopular := Over(patch.popular, p.isPopular));
    // common fields
    p := p.(capacity := Over(patch.capacity, p.capacity));
    p := p.(duration := Over(patch.duration, p.duration));
    p := p.(imageUrl := Over(if Truthy(patch.imageUrl) then patch.imageUrl else None, p.imageUrl));
  }

  /** The server-side effect the client relies on for a partial update: keys
      the body carries are overwritten, every other stored value is kept. */
  function ServerMerge(stored: PackageBody, body: PackageBody): PackageBody {
    PackageBody(
      Over(body.nameId, stored.nameId), Over(body.nameEn, stored.nameEn),
      Over(body.descriptionId, stored.descriptionId), Over(body.descriptionEn, stored.descriptionEn),
      Over(body.routesId, stored.routesId), Over(body.routesEn, stored.routesEn),
      Over(body.featuresId, stored.featuresId), Over(body.featuresEn, stored.featuresEn),
      Over(body.includesId, stored.includesId), Over(body.includesEn, stored.includesEn),
      Over(body.excludesId, stored.excludesId), Over(body.excludesEn, stored.excludesEn),
      Over(body.name, stored.name), Over(body.description, stored.description),
      Over(body.routes, stored.routes), Over(body.features, stored.features),
      Over(body.excludes, stored.excludes), Over(body.isPopular, stored.isPopular),
      Over(body.capacity, stored.capacity), Over(body.duration, stored.duration),
      Over(body.imageUrl, stored.imageUrl))
  }

  /** A patch that leaves the image URL undefined or empty does not change
      the stored image, and one with a non-empty URL replaces it. */
  lemma ImageKeptByUpdate(stored: PackageBody, patch: PackagePatch, body: PackageBody)
    requires IsUpdatePayload(patch, body)
    ensures !Truthy(patch.imageUrl) ==> ServerMerge(stored, body).imageUrl == stored.imageUrl
    ensures Truthy(patch.imageUrl) ==> ServerMerge(stored, body).imageUrl == patch.imageUrl
  {
  }

  /** An update whose patch defines nothing sends `{}` and changes nothing. */
  lemma EmptyPatchChangesNothing(stored: PackageBody, body: PackageBody)
    requires IsUpdatePayload(PackagePatch(None, None, None, None, None, None, None, None, None, None,
                                          None, None, None, None, None, None, None, None, None, None,
                                          None, None), body)
    ensures body == EmptyBody
    ensures ServerMerge(stored, body) == stored
  {
  }

  /** `routes_id` of a create body: the non-empty `routes_id`, else the
      non-empty legacy `routes`, else none. */
  function CreateRoutesId(patch: PackagePatch): (es: seq<RouteEntry>)
    ensures patch.routesId.Some? && |patch.routesId.value| > 0 ==> es == RouteEntries(patch.routesId.value)
    ensures es == [] <==> ((patch.routesId.None? || patch.routesId.value == [])
                           && (patch.routes.None? || patch.routes.value == []))
  {
    if patch.routesId.Some? && |patch.routesId.value| > 0 then RouteEntries(patch.routesId.value)
    else if patch.routes.Some? && |patch.routes.value| > 0 then RouteEntries(patch.routes.value)
    else []
  }

  /** What `addPackage` sends: every key, with "" or an empty list for what
      the data leaves unset; each legacy field mirrors the Indonesian one when
      it is itself unset, and the other way round. English fields have no
      fallback. */
  predicate IsCreatePayload(patch: PackagePatch, b: PackageBody) {
    && b.nameId == Some(OrStr(patch.nameId, OrStr(patch.name, "")))
    && b.nameEn == Some(OrStr(patch.nameEn, ""))
    && b.descriptionId == Some(OrStr(patch.descriptionId, OrStr(patch.description, "")))
    && b.descriptionEn == Some(OrStr(patch.descriptionEn, ""))
    && b.routesId == Some(CreateRoutesId(patch))
    && b.routesEn == Some(if patch.routesEn.Some? then RouteEntries(patch.routesEn.value) else [])
    && b.featuresId == Some(OrList(patch.featuresId, OrList(patch.features, [])))
    && b.featuresEn == Some(OrList(patch.featuresEn, []))
    && b.includesId == Some(OrList(patch.includesId, OrList(patch.legacyInclude, [])))
    && b.includesEn == Some(OrList(patch.includesEn, []))
    && b.excludesId == Some(OrList(patch.excludesId, OrList(patch.exclude, [])))
    && b.excludesEn == Some(OrList(patch.excludesEn, []))
    && b.name == Some(OrStr(patch.name, OrStr(patch.nameId, "")))
    && b.description == Some(OrStr(patch.description, OrStr(patch.descriptionId, "")))
    && b.routes == Some(if patch.routes.Some? && |patch.routes.value| > 0
                        then RouteEntries(patch.routes.value) else CreateRoutesId(patch))
    && b.features == Some(OrList(patch.features, OrList(patch.featuresId, [])))
    && b.excludes == Some(OrList(patch.exclude, OrList(patch.excludesId, [])))
    && b.isPopular == Some(patch.popular == Some(true))
    && b.capacity == Some(OrStr(patch.capacity, ""))
    && b.duration == Some(OrStr(patch.duration, ""))
    && b.imageUrl == Some(OrStr(patch.imageUrl, ""))
  }

  /** The body `addPackage` fills key by key. */
  method BuildCreatePayload(patch: PackagePatch) returns (p: PackageBody)
    ensures IsCreatePayload(patch, p)
  {
    p := EmptyBody;
    p := p.(nameId := Some(OrStr(patch.nameId, OrStr(patch.name, ""))));
    p := p.(nameEn := Some(OrStr(patch.nameEn, "")));
    p := p.(descriptionId := Some(OrStr(patch.descriptionId, OrStr(patch.description, ""))));
    p := p.(descriptionEn := Some(OrStr(patch.descriptionEn, "")));

    p := p.(routesId := Some(if patch.routesId.Some? && |patch.routesId.value| > 0
                             then RouteEntries(patch.routesId.value)
                             else if patch.routes.Some? && |patch.routes.value| > 0
                             then RouteEntries(patch.routes.value)
                             else []));
    p := p.(routesEn := Some(if patch.routesEn.Some? && |patch.routesEn.value| > 0
                             then RouteEntries(patch.routesEn.value) else []));

    p := p.(featuresId := Some(OrList(patch.featuresId, OrList(patch.features, []))));
    p := p.(featuresEn := Some(OrList(patch.featuresEn, [])));
    p := p.(includesId := Some(OrList(patch.includesId, OrList(patch.legacyInclude, []))));
    p := p.(includesEn := Some(OrList(patch.includesEn, [])));
    p := p.(excludesId := Some(OrList(patch.excludesId, OrList(patch.exclude, []))));
    p := p.(excludesEn := Some(OrList(patch.excludesEn, [])));

    // legacy fields
    p := p.(name := Some(OrStr(patch.name, OrStr(patch.nameId, ""))));
    p := p.(description := Some(OrStr(patch.description, OrStr(patch.descriptionId, ""))));
    p := p.(routes := if patch.routes.Some? && |patch.routes.value| > 0
                      then Some(RouteEntries(patch.routes.value))
                      else if p.routesId.Some? then p.routesId else Some([]));
    p := p.(features := Some(OrList(patch.features, OrList(patch.featuresId, []))));
    p := p.(excludes := Some(OrList(patch.exclude, OrList(patch.excludesId, []))));
    p := p.(isPopular := Some(OrBool(patch.popular, false)));

    // common fields
    p := p.(capacity := Some(OrStr(patch.capacity, "")));
    p := p.(duration := Some(OrStr(patch.duration, "")));
    p := p.(imageUrl := Some(OrStr(patch.imageUrl, "")));
  }

  /** A create body carries every key, and each localised name and
      description is the first non-empty of its own value and the legacy one. */
  lemma CreateBodyComplete(patch: PackagePatch, b: PackageBody)
    requires IsCreatePayload(patch, b)
    ensures b.nameId.Some? && b.nameEn.Some? && b.descriptionId.Some? && b.descriptionEn.Some?
    ensures b.name.Some? && b.description.Some? && b.routes.Some? && b.routesId.Some?
    ensures b.nameId.value == FirstTruthy([patch.nameId, patch.name])
    ensures b.name.value == FirstTruthy([patch.name, patch.nameId])
    ensures b.descriptionId.value == FirstTruthy([patch.descriptionId, patch.description])
    ensures b.description.value == FirstTruthy([patch.description, patch.descriptionId])
    ensures b.nameEn.value == FirstTruthy([patch.nameEn])
  {
    FirstTruthyOfTwo(patch.nameId, patch.name);
    FirstTruthyOfTwo(patch.name, patch.nameId);
    FirstTruthyOfTwo(patch.descriptionId, patch.description);
    FirstTruthyOfTwo(patch.description, patch.descriptionId);
    FirstTruthyOfOne(patch.nameEn);
  }

  /** A create body sends the Indonesian routes as the legacy routes as well
      whenever the legacy list is missing or empty. */
  lemma CreateLegacyRoutesMirror(patch: PackagePatch, b: PackageBody)
    requires IsCreatePayload(patch, b)
    requires patch.routes.None? || patch.routes.value == []
    ensures b.routes == b.routesId
    ensures patch.routesId.Some? ==> b.routes == Some(RouteEntries(patch.routesId.value))
  {
    if patch.routesId.Some? && patch.routesId.value == [] {
      assert RouteEntries([]) == [];
    }
  }

  /** The body of `updateAddOn`: the data as given, without `id` and `ID`. */
  function AddOnUpdateBody(a: AddOnData): (b: AddOnData)
    ensures b.ID.None? && b.id.None?
    ensures b.(ID := a.ID, id := a.id) == a
  {
    a.(ID := None, id := None)
  }

  // ---------------------------------------------------------------------
  // The repository state
  // ---------------------------------------------------------------------

  /** The outcome of a GET: the request threw, `data` was not an array, or
      `data` held these records. */
  datatype Fetched<T> = Failed | NotAnArray | Records(items: seq<T>)

  /** A request the repository sends. */
  datatype Request = Get(path: string) | Post(path: string, body: Body)
                   | Put(path: string, body: Body) | Delete(path: string)

  /** A request body: a package object or an add-on object. */
  datatype Body = PackageJson(package: PackageBody) | AddOnJson(addOn: AddOnData)

  /** The `lang` query parameter: English when the language is "en", else Indonesian. */
  function LanguageParam(language: string): string {
    if language == "en" then "en" else "id"
  }

  /** `PackageProvider`: the `packages` and `addOns` collections and the
      operations on them. The result of each request is a parameter; a
      mutation's `accepted` says whether the request succeeded, and
      `refetch` is what the re-fetch after a success returned. */
  class PackageStore {
    var packages: seq<PackageData>
    var addOns: seq<AddOnData>

    constructor ()
      ensures packages == [] && addOns == []
    {
      packages := [];
      addOns := [];
    }

    /** `fetchPackages`: replaces the collection when the response holds an
        array, and keeps it when the request fails or `data` is not an array. */
    method FetchPackages(language: string, response: Fetched<RawPackage>) returns (request: Request)
      modifies this`packages
      ensures request == Get("/packages?lang=" + LanguageParam(language))
      ensures response.Records? ==> packages == NormalizeAll(response.items)
      ensures !response.Records? ==> packages == old(packages)
    {
      request := Get("/packages?lang=" + LanguageParam(language));
      if response.Records? {
        packages := NormalizeAll(response.items);
      }
    }

    /** `fetchAddOns`, with the same keep-on-failure rule. */
    method FetchAddOns(response: Fetched<AddOnData>) returns (request: Request)
      modifies this`addOns
      ensures request == Get("/addons")
      ensures response.Records? ==> addOns == NormalizeAddOns(response.items)
      ensures !response.Records? ==> addOns == old(addOns)
    {
      request := Get("/addons");
      if response.Records? {
        addOns := NormalizeAddOns(response.items);
      }
    }

    /** `updatePackage`: sends the partial body; after a success the
        collection is re-fetched, after a failure it is unchanged and the
        error goes back to the caller. */
    method UpdatePackage(id: int, patch: PackagePatch, accepted: bool,
                         language: string, refetch: Fetched<RawPackage>)
      returns (request: Request, ok: bool)
      modifies this`packages
      ensures request.Put? && request.path == "/admin/packages/" + IntToString(id)
      ensures request.body.PackageJson? && IsUpdatePayload(patch, request.body.package)
      ensures ok == accepted
      ensures packages == if ok && refetch.Records? then NormalizeAll(refetch.items) else old(packages)
    {
      var body := BuildUpdatePayload(patch);
      request := Put("/admin/packages/" + IntToString(id), PackageJson(body));
      ok := accepted;
      if ok {
        var _ := FetchPackages(language, refetch);
      }
    }

    /** `addPackage`: sends the full create body, then re-fetches. */
    method AddPackage(patch: PackagePatch, accepted: bool, language: string, refetch: Fetched<RawPackage>)
      returns (request: Request, ok: bool)
      modifies this`packages
      ensures request.Post? && request.path == "/admin/packages"
      ensures request.body.PackageJson? && IsCreatePayload(patch, request.body.package)
      ensures ok == accepted
      ensures packages == if ok && refetch.Records? then NormalizeAll(refetch.items) else old(packages)
    {
      var body := BuildCreatePayload(patch);
      request := Post("/admin/packages", PackageJson(body));
      ok := accepted;
      if ok {
        var _ := FetchPackages(language, refetch);
      }
    }

    /** `deletePackage`. */
    method DeletePackage(id: int, accepted: bool, language: string, refetch: Fetched<RawPackage>)
      returns (request: Request, ok: bool)
      modifies this`packages
      ensures request == Delete("/admin/packages/" + IntToString(id))
      ensures ok == accepted
      ensures packages == if ok && refetch.Records? then NormalizeAll(refetch.items) else old(packages)
    {
      request := Delete("/admin/packages/" + IntToString(id));
      ok := accepted;
      if ok {
        var _ := FetchPackages(language, refetch);
      }
    }

    /** `updateAddOn`: the data as given, without its ids. */
    method UpdateAddOn(id: int, data: AddOnData, accepted: bool, refetch: Fetched<AddOnData>)
      returns (request: Request, ok: bool)
      modifies this`addOns
      ensures request == Put("/admin/addons/" + IntToString(id), AddOnJson(AddOnUpdateBody(data)))
      ensures ok == accepted
      ensures addOns == if ok && refetch.Records? then NormalizeAddOns(refetch.items) else old(addOns)
    {
      request := Put("/admin/addons/" + IntToString(id), AddOnJson(AddOnUpdateBody(data)));
      ok := accepted;
      if ok {
        var _ := FetchAddOns(refetch);
      }
    }

    /** `addAddOn`: the data is sent as given. */
    method AddAddOn(data: AddOnData, accepted: bool, refetch: Fetched<AddOnData>)
      returns (request: Request, ok: bool)
      modifies this`addOns
      ensures request == Post("/admin/addons", AddOnJson(data))
      ensures ok == accepted
      ensures addOns == if ok && refetch.Records? then NormalizeAddOns(refetch.items) else old(addOns)
    {
      request := Post("/admin/addons", AddOnJson(data));
      ok := accepted;
      if ok {
        var _ := FetchAddOns(refetch);
      }
    }

    /** `removeAddOn`. */
    method RemoveAddOn(id: int, accepted: bool, refetch: Fetched<AddOnData>)
      returns (request: Request, ok: bool)
      modifies this`addOns
      ensures request == Delete("/admin/addons/" + IntToString(id))
      ensures ok == accepted
      ensures addOns == if ok && refetch.Records? then NormalizeAddOns(refetch.items) else old(addOns)
    {
      request := Delete("/admin/addons/" + IntToString(id));
      ok := accepted;
      if ok {
        var _ := FetchAddOns(refetch);
      }
    }
  }
}
