/**
 * The offerings parser: assembles the offerings catalog from the offerings
 * JSON document and the store products found for it.
 *
 * The parser itself holds no state. Its store-specific product matching and
 * the three sub-document decoders are collaborators, supplied as a `Parser`
 * value. A failed required read aborts the whole assembly (`Err`); everything
 * else that is missing or undecodable is dropped or left empty.
 */
module OfferingParser {
  import opened Json
  import opened Purchases

  /** The store products the store layer returned, by product identifier. */
  type ProductsById = map<string, seq<StoreProduct>>

  /**
   * The parser's collaborators: the store-specific `findMatchingProduct`, and
   * the decoders of `ui_config`, `paywall` and `paywall_components`, each of
   * which yields `None` where decoding throws.
   */
  datatype Parser = Parser(
    findMatchingProduct: (ProductsById, JsonObject) -> Option<StoreProduct>,
    decodeUiConfig: JsonObject -> Option<UiConfig>,
    decodePaywallData: JsonObject -> Option<PaywallData>,
    decodePaywallComponentsData: JsonObject -> Option<PaywallComponentsData>)

  /** Package identifiers starting with this prefix are reserved for well-known types. */
  const ReservedPrefix: string := "$rc_"

  // ---------------------------------------------------------------------------
  // Package types

  /** `firstOrNull { it.identifier == identifier }` over `types`. */
  function FirstWithIdentifier(types: seq<PackageType>, identifier: string): (r: Option<PackageType>)
    ensures r.Some? ==> r.value in types && r.value.Identifier() == Some(identifier)
    ensures r.None? ==> forall t :: t in types ==> t.Identifier() != Some(identifier)
  {
    if types == [] then None
    else if types[0].Identifier() == Some(identifier) then Some(types[0])
    else FirstWithIdentifier(types[1..], identifier)
  }

  /**
   * `toPackageType`: the type whose identifier is `identifier`; failing that,
   * UNKNOWN for a reserved identifier and CUSTOM for any other.
   */
  function ToPackageType(identifier: string): (r: PackageType)
    ensures forall t: PackageType :: t.Identifier() == Some(identifier) ==> r == t
    ensures (forall t: PackageType :: t.Identifier() != Some(identifier)) ==>
      r == (if ReservedPrefix <= identifier then UNKNOWN else CUSTOM)
  {
    PackageTypeTable();
    match FirstWithIdentifier(PackageTypeValues, identifier)
    case Some(t) => t
    case None => if ReservedPrefix <= identifier then UNKNOWN else CUSTOM
  }

  // ---------------------------------------------------------------------------
  // Packages

  /**
   * `createPackage`: fails when the node has no string `identifier`; otherwise
   * a package exactly when a product matches, bound to a copy of that product
   * annotated with `context`.
   */
  function CreatePackage(p: Parser, packageJson: JsonObject, productsById: ProductsById, context: PresentedOfferingContext)
    : (r: Result<Option<Package>>)
    ensures r.Err? <==> !("identifier" in packageJson && packageJson["identifier"].JStr?)
    ensures r.Ok? ==> (r.value.Some? <==> p.findMatchingProduct(productsById, packageJson).Some?)
    ensures r.Ok? && r.value.Some? ==>
      var pkg := r.value.value;
      && packageJson["identifier"] == JStr(pkg.identifier)
      && pkg.packageType == ToPackageType(pkg.identifier)
      && pkg.presentedOfferingContext == context
      && pkg.product == CopyWithPresentedOfferingContext(p.findMatchingProduct(productsById, packageJson).value, context)
  {
    var packageIdentifier :- GetString(packageJson, "identifier");
    var product := p.findMatchingProduct(productsById, packageJson);
    var packageType := ToPackageType(packageIdentifier);
    match product
    case None => Ok(None)
    case Some(prod) => Ok(Some(Package(packageIdentifier, packageType, CopyWithPresentedOfferingContext(prod, context), context)))
  }

  /** The `i`-th node of a `packages` array: `getJSONObject(i)`, then `createPackage`. */
  function PackageAt(p: Parser, jsonPackages: seq<Json>, i: nat, productsById: ProductsById, context: PresentedOfferingContext)
    : Result<Option<Package>>
    requires i < |jsonPackages|
  {
    var packageJson :- GetObjectAt(jsonPackages, i);
    CreatePackage(p, packageJson, productsById, context)
  }

  /**
   * The packages the loop of `createOffering` collects from `jsonPackages`: the
   * matched packages in document order, or the first error.
   */
  function PackagesOf(p: Parser, jsonPackages: seq<Json>, productsById: ProductsById, context: PresentedOfferingContext)
    : Result<seq<Package>>
    decreases |jsonPackages|
  {
    if jsonPackages == [] then Ok([])
    else
      var n := |jsonPackages| - 1;
      var earlier :- PackagesOf(p, jsonPackages[..n], productsById, context);
      var pkg :- PackageAt(p, jsonPackages, n, productsById, context);
      Ok(if pkg.Some? then earlier + [pkg.value] else earlier)
  }

  /** Once a prefix of the packages fails, the whole array fails with the same error. */
  lemma {:induction false} PackagesOfStopsAtError(p: Parser, jsonPackages: seq<Json>, i: nat, productsById: ProductsById, context: PresentedOfferingContext)
    requires i <= |jsonPackages|
    requires PackagesOf(p, jsonPackages[..i], productsById, context).Err?
    ensures PackagesOf(p, jsonPackages, productsById, context) == PackagesOf(p, jsonPackages[..i], productsById, context)
    decreases |jsonPackages|
  {
    if i == |jsonPackages| {
      assert jsonPackages[..i] == jsonPackages;
    } else {
      var n := |jsonPackages| - 1;
      assert jsonPackages[..n][..i] == jsonPackages[..i];
      PackagesOfStopsAtError(p, jsonPackages[..n], i, productsById, context);
    }
  }

  // ---------------------------------------------------------------------------
  // Offerings

  /** `optJSONObject(key)?.let { try decode(it) catch null }`. */
  function DecodeOptional<T>(json: Option<JsonObject>, decode: JsonObject -> Option<T>): (r: Option<T>)
    ensures r.Some? <==> json.Some? && decode(json.value).Some?
    ensures r.Some? ==> r == decode(json.value)
  {
    match json
    case None => None
    case Some(o) => decode(o)
  }

  /** The offering's `metadata` object, or the empty map when it has none. */
  function MetadataOf(offeringJson: JsonObject): (r: JsonObject)
    ensures OptObject(offeringJson, "metadata").None? ==> r == map[]
    ensures OptObject(offeringJson, "metadata").Some? ==> offeringJson["metadata"] == JObj(r)
  {
    match OptObject(offeringJson, "metadata")
    case None => map[]
    case Some(m) => m
  }

  /** The paywall components: both the components decode and the UI configuration are needed. */
  function PaywallComponentsOf(componentsData: Option<PaywallComponentsData>, uiConfig: Option<UiConfig>): (r: Option<PaywallComponents>)
    ensures r.Some? <==> componentsData.Some? && uiConfig.Some?
    ensures r.Some? ==> r.value.uiConfig == uiConfig.value && r.value.data == componentsData.value
  {
    if componentsData.Some? && uiConfig.Some? then Some(PaywallComponents(uiConfig.value, componentsData.value)) else None
  }

  /**
   * The rest of `createOffering` once its packages are collected: decode the
   * paywall sub-documents, and build the offering if any package matched
   * (only then is `description` read).
   */
  function AssembleOffering(p: Parser, offeringJson: JsonObject, offeringIdentifier: string,
                            availablePackages: seq<Package>, uiConfig: Option<UiConfig>)
    : Result<Option<Offering>>
  {
    var paywallData := DecodeOptional(OptObject(offeringJson, "paywall"), p.decodePaywallData);
    var componentsData := DecodeOptional(OptObject(offeringJson, "paywall_components"), p.decodePaywallComponentsData);
    var paywallComponents := PaywallComponentsOf(componentsData, uiConfig);
    if |availablePackages| == 0 then Ok(None)
    else
      var description :- GetString(offeringJson, "description");
      Ok(Some(Offering(offeringIdentifier, description, MetadataOf(offeringJson), availablePackages, paywallData, paywallComponents)))
  }

  /** What `createOffering` returns for `offeringJson`. */
  function OfferingOf(p: Parser, offeringJson: JsonObject, productsById: ProductsById, uiConfig: Option<UiConfig>)
    : Result<Option<Offering>>
  {
    var offeringIdentifier :- GetString(offeringJson, "identifier");
    var jsonPackages :- GetArray(offeringJson, "packages");
    var context := PresentedOfferingContext(offeringIdentifier, None, None);
    var availablePackages :- PackagesOf(p, jsonPackages, productsById, context);
    AssembleOffering(p, offeringJson, offeringIdentifier, availablePackages, uiConfig)
  }

  /**
   * `createOffering`: reads the identifier and the packages array, collects
   * the matched packages in a loop, then assembles the offering.
   */
  method CreateOffering(p: Parser, offeringJson: JsonObject, productsById: ProductsById, uiConfig: Option<UiConfig>)
    returns (r: Result<Option<Offering>>)
    ensures r == OfferingOf(p, offeringJson, productsById, uiConfig)
  {
    var offeringIdentifier :- GetString(offeringJson, "identifier");
    var jsonPackages :- GetArray(offeringJson, "packages");
    var context := PresentedOfferingContext(offeringIdentifier, None, None);

    var availablePackages: seq<Package> := [];
    var i := 0;
    while i < |jsonPackages|
      invariant i <= |jsonPackages|
      invariant PackagesOf(p, jsonPackages[..i], productsById, context) == Ok(availablePackages)
    {
      var pkg := PackageAt(p, jsonPackages, i, productsById, context);
      assert jsonPackages[..i + 1][..i] == jsonPackages[..i];
      if pkg.Err? {
        PackagesOfStopsAtError(p, jsonPackages, i + 1, productsById, context);
        return Err(pkg.error);
      }
      if pkg.value.Some? {
        availablePackages := availablePackages + [pkg.value.value];
      }
      i := i + 1;
    }
    assert jsonPackages[..i] == jsonPackages;
    r := AssembleOffering(p, offeringJson, offeringIdentifier, availablePackages, uiConfig);
  }

  // ---------------------------------------------------------------------------
  // The catalog

  /** The `i`-th node of the `offerings` array: `getJSONObject(i)`, then `createOffering`. */
  function OfferingAt(p: Parser, jsonOfferings: seq<Json>, i: nat, productsById: ProductsById, uiConfig: Option<UiConfig>)
    : Result<Option<Offering>>
    requires i < |jsonOfferings|
  {
    var offeringJson :- GetObjectAt(jsonOfferings, i);
    OfferingOf(p, offeringJson, productsById, uiConfig)
  }

  /**
   * The map the loop of `createOfferings` fills from `jsonOfferings`: each
   * built offering stored under its identifier, later ones overwriting earlier
   * ones; or the first error.
   */
  function OfferingMapOf(p: Parser, jsonOfferings: seq<Json>, productsById: ProductsById, uiConfig: Option<UiConfig>)
    : Result<map<string, Offering>>
    decreases |jsonOfferings|
  {
    if jsonOfferings == [] then Ok(map[])
    else
      var n := |jsonOfferings| - 1;
      var earlier :- OfferingMapOf(p, jsonOfferings[..n], productsById, uiConfig);
      var offering :- OfferingAt(p, jsonOfferings, n, productsById, uiConfig);
      Ok(if offering.Some? then earlier[offering.value.identifier := offering.value] else earlier)
  }

  /** Once a prefix of the offerings fails, the whole array fails with the same error. */
  lemma {:induction false} OfferingMapOfStopsAtError(p: Parser, jsonOfferings: seq<Json>, i: nat, productsById: ProductsById, uiConfig: Option<UiConfig>)
    requires i <= |jsonOfferings|
    requires OfferingMapOf(p, jsonOfferings[..i], productsById, uiConfig).Err?
    ensures OfferingMapOf(p, jsonOfferings, productsById, uiConfig) == OfferingMapOf(p, jsonOfferings[..i], productsById, uiConfig)
    decreases |jsonOfferings|
  {
    if i == |jsonOfferings| {
      assert jsonOfferings[..i] == jsonOfferings;
    } else {
      var n := |jsonOfferings| - 1;
      assert jsonOfferings[..n][..i] == jsonOfferings[..i];
      OfferingMapOfStopsAtError(p, jsonOfferings[..n], i, productsById, uiConfig);
    }
  }

  /** The `targeting` object, kept only when both its `revision` and its `rule_id` are present. */
  function TargetingOf(offeringsJson: JsonObject): (r: Option<Targeting>)
    ensures r.Some? <==>
      && "targeting" in offeringsJson && offeringsJson["targeting"].JObj?
      && var t := offeringsJson["targeting"].fields;
      && "revision" in t && t["revision"].JInt?
      && "rule_id" in t && t["rule_id"].JStr?
    ensures r.Some? ==>
      var t := offeringsJson["targeting"].fields;
      t["revision"] == JInt(r.value.revision) && t["rule_id"] == JStr(r.value.ruleId)
  {
    match OptObject(offeringsJson, "targeting")
    case None => None
    case Some(t) =>
      var revision := OptNullableInt(t, "revision");
      var ruleId := OptNullableString(t, "rule_id");
      if revision.Some? && ruleId.Some? then Some(Targeting(revision.value, ruleId.value)) else None
  }

  /** One value of `offering_ids_by_placement`: JSON null becomes an explicit `None`. */
  function PlacementOfferingId(value: Json): Option<string> {
    if value.JStr? then Some(value.s) else None
  }

  /**
   * The `placements` object, kept exactly when its `offering_ids_by_placement`
   * object is present; a missing fallback id leaves the fallback `None`.
   */
  function PlacementsOf(offeringsJson: JsonObject): (r: Option<Placements>)
    ensures r.Some? <==>
      && "placements" in offeringsJson && offeringsJson["placements"].JObj?
      && var pl := offeringsJson["placements"].fields;
      && "offering_ids_by_placement" in pl && pl["offering_ids_by_placement"].JObj?
    ensures r.Some? ==>
      var pl := offeringsJson["placements"].fields;
      var byPlacement := pl["offering_ids_by_placement"].fields;
      && r.value.fallbackOfferingId == OptNullableString(pl, "fallback_offering_id")
      && r.value.offeringIdsByPlacement.Keys == byPlacement.Keys
      && (forall k :: k in byPlacement && byPlacement[k] == JNull ==> r.value.offeringIdsByPlacement[k] == None)
      && (forall k :: k in byPlacement && byPlacement[k].JStr? ==> r.value.offeringIdsByPlacement[k] == Some(byPlacement[k].s))
  {
    match OptObject(offeringsJson, "placements")
    case None => None
    case Some(pl) =>
      var fallbackOfferingId := OptNullableString(pl, "fallback_offering_id");
      match OptObject(pl, "offering_ids_by_placement")
      case None => None
      case Some(byPlacement) =>
        Some(Placements(fallbackOfferingId, map k | k in byPlacement :: PlacementOfferingId(byPlacement[k])))
  }

  /** The current offering: the one stored under `currentOfferingId`, re-annotated with the targeting. */
  function CurrentOf(all: map<string, Offering>, currentOfferingId: string, targeting: Option<Targeting>): Option<Offering> {
    if currentOfferingId in all then Some(WithPresentedContext(all[currentOfferingId], None, targeting)) else None
  }

  /** What `createOfferings` returns for the offerings document. */
  function OfferingsOf(p: Parser, offeringsJson: JsonObject, productsById: ProductsById): Result<Offerings> {
    var jsonOfferings :- GetArray(offeringsJson, "offerings");
    var currentOfferingId :- GetString(offeringsJson, "current_offering_id");
    var uiConfig := DecodeOptional(OptObject(offeringsJson, "ui_config"), p.decodeUiConfig);
    var all :- OfferingMapOf(p, jsonOfferings, productsById, uiConfig);
    var targeting := TargetingOf(offeringsJson);
    Ok(Offerings(CurrentOf(all, currentOfferingId, targeting), all, PlacementsOf(offeringsJson), targeting))
  }

  /**
   * `createOfferings`: reads the required fields, decodes `ui_config` once,
   * fills the offerings map in a loop, then resolves the current offering,
   * the targeting and the placements.
   */
  method CreateOfferings(p: Parser, offeringsJson: JsonObject, productsById: ProductsById) returns (r: Result<Offerings>)
    ensures r == OfferingsOf(p, offeringsJson, productsById)
  {
    var jsonOfferings :- GetArray(offeringsJson, "offerings");
    var currentOfferingId :- GetString(offeringsJson, "current_offering_id");
    var uiConfig := DecodeOptional(OptObject(offeringsJson, "ui_config"), p.decodeUiConfig);

    var offerings: map<string, Offering> := map[];
    var i := 0;
    while i < |jsonOfferings|
      invariant i <= |jsonOfferings|
      invariant OfferingMapOf(p, jsonOfferings[..i], productsById, uiConfig) == Ok(offerings)
    {
      assert jsonOfferings[..i + 1][..i] == jsonOfferings[..i];
      var offeringJson := GetObjectAt(jsonOfferings, i);
      if offeringJson.Err? {
        OfferingMapOfStopsAtError(p, jsonOfferings, i + 1, productsById, uiConfig);
        return Err(offeringJson.error);
      }
      var offering := CreateOffering(p, offeringJson.value, productsById, uiConfig);
      if offering.Err? {
        OfferingMapOfStopsAtError(p, jsonOfferings, i + 1, productsById, uiConfig);
        return Err(offering.error);
      }
      if offering.value.Some? {
        offerings := offerings[offering.value.value.identifier := offering.value.value];
      }
      i := i + 1;
    }
    assert jsonOfferings[..i] == jsonOfferings;

    var targeting := TargetingOf(offeringsJson);
    var placements := PlacementsOf(offeringsJson);
    return Ok(Offerings(CurrentOf(offerings, currentOfferingId, targeting), offerings, placements, targeting));
  }
}
