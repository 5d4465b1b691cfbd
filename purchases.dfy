/**
 * The catalog values the offerings parser builds: offerings, packages, the
 * package types, the store products they are bound to, and the optional
 * targeting and placement data. The store product's pricing and store data,
 * and the three independently versioned paywall sub-documents, are kept
 * abstract.
 */
module Purchases {
  import opened Json

  /** The decoded `ui_config` sub-document. */
  type UiConfig(==)
  /** The decoded legacy `paywall` sub-document. */
  type PaywallData(==)
  /** The decoded `paywall_components` sub-document. */
  type PaywallComponentsData(==)
  /** Everything a store product carries apart from its presentation context. */
  type ProductDetails(==)

  datatype TargetingContext = TargetingContext(revision: int, ruleId: string)

  /** The offering (and placement and targeting) a product was presented under. */
  datatype PresentedOfferingContext = PresentedOfferingContext(
    offeringIdentifier: string,
    placementIdentifier: Option<string>,
    targetingContext: Option<TargetingContext>)

  datatype StoreProduct = StoreProduct(
    details: ProductDetails,
    presentedOfferingContext: Option<PresentedOfferingContext>)

  /**
   * `copyWithPresentedOfferingContext`: a copy of the product annotated with
   * a context; the original (possibly shared) product is left as it was.
   */
  function CopyWithPresentedOfferingContext(product: StoreProduct, context: PresentedOfferingContext): (r: StoreProduct)
    ensures r.details == product.details
    ensures r.presentedOfferingContext == Some(context)
  {
    product.(presentedOfferingContext := Some(context))
  }

  datatype PackageType =
    | UNKNOWN
    | CUSTOM
    | LIFETIME
    | ANNUAL
    | SIX_MONTH
    | THREE_MONTH
    | TWO_MONTH
    | MONTHLY
    | WEEKLY
  {
    /** The well-known package identifier of the type; UNKNOWN and CUSTOM have none. */
    function Identifier(): Option<string> {
      match this
      case UNKNOWN => None
      case CUSTOM => None
      case LIFETIME => Some("$rc_lifetime")
      case ANNUAL => Some("$rc_annual")
      case SIX_MONTH => Some("$rc_six_month")
      case THREE_MONTH => Some("$rc_three_month")
      case TWO_MONTH => Some("$rc_two_month")
      case MONTHLY => Some("$rc_monthly")
      case WEEKLY => Some("$rc_weekly")
    }
  }

  /** `PackageType.values()`, in declaration order. */
  const PackageTypeValues: seq<PackageType> :=
    [UNKNOWN, CUSTOM, LIFETIME, ANNUAL, SIX_MONTH, THREE_MONTH, TWO_MONTH, MONTHLY, WEEKLY]

  /** Every package type is listed once, and no two share an identifier. */
  lemma PackageTypeTable()
    ensures forall t: PackageType :: t in PackageTypeValues
    ensures forall t: PackageType, u: PackageType :: t.Identifier().Some? && t.Identifier() == u.Identifier() ==> t == u
  {
    forall t: PackageType ensures t in PackageTypeValues {
      var i := match t
        case UNKNOWN => 0 case CUSTOM => 1 case LIFETIME => 2 case ANNUAL => 3 case SIX_MONTH => 4
        case THREE_MONTH => 5 case TWO_MONTH => 6 case MONTHLY => 7 case WEEKLY => 8;
      assert PackageTypeValues[i] == t;
    }
  }

  datatype Package = Package(
    identifier: string,
    packageType: PackageType,
    product: StoreProduct,
    presentedOfferingContext: PresentedOfferingContext)

  datatype PaywallComponents = PaywallComponents(uiConfig: UiConfig, data: PaywallComponentsData)

  datatype Offering = Offering(
    identifier: string,
    serverDescription: string,
    metadata: JsonObject,
    availablePackages: seq<Package>,
    paywall: Option<PaywallData>,
    paywallComponents: Option<PaywallComponents>)

  datatype Targeting = Targeting(revision: int, ruleId: string)

  /** Per-placement offering ids; a `None` value means "no offering for this placement". */
  datatype Placements = Placements(
    fallbackOfferingId: Option<string>,
    offeringIdsByPlacement: map<string, Option<string>>)

  datatype Offerings = Offerings(
    current: Option<Offering>,
    all: map<string, Offering>,
    placements: Option<Placements>,
    targeting: Option<Targeting>)

  /**
   * `withPresentedContext(placementId, targeting)`: the offering with each
   * package's context (and its product's) re-annotated with the placement and
   * the targeting it is presented under.
   */
  function WithPresentedContext(offering: Offering, placementId: Option<string>, targeting: Option<Targeting>): (r: Offering)
    ensures r.identifier == offering.identifier
    ensures r.serverDescription == offering.serverDescription && r.metadata == offering.metadata
    ensures r.paywall == offering.paywall && r.paywallComponents == offering.paywallComponents
    ensures |r.availablePackages| == |offering.availablePackages|
    ensures forall i :: 0 <= i < |r.availablePackages| ==>
      var before := offering.availablePackages[i];
      var after := r.availablePackages[i];
      && after.identifier == before.identifier
      && after.packageType == before.packageType
      && after.product.details == before.product.details
      && after.presentedOfferingContext.offeringIdentifier == before.presentedOfferingContext.offeringIdentifier
      && after.presentedOfferingContext.placementIdentifier == placementId
      && after.presentedOfferingContext.targetingContext == TargetingContextOf(targeting)
      && after.product.presentedOfferingContext == Some(after.presentedOfferingContext)
  {
    var packages := offering.availablePackages;
    offering.(availablePackages := seq(|packages|, i requires 0 <= i < |packages| => PackageWithContext(packages[i], placementId, targeting)))
  }

  function TargetingContextOf(targeting: Option<Targeting>): Option<TargetingContext> {
    match targeting
    case None => None
    case Some(t) => Some(TargetingContext(t.revision, t.ruleId))
  }

  function PackageWithContext(pkg: Package, placementId: Option<string>, targeting: Option<Targeting>): Package {
    var context := pkg.presentedOfferingContext.(placementIdentifier := placementId, targetingContext := TargetingContextOf(targeting));
    pkg.(product := CopyWithPresentedOfferingContext(pkg.product, context), presentedOfferingContext := context)
  }
}
