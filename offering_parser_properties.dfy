/**
 * What the offerings parser promises, proved about the functions that
 * specify `createOffering` and `createOfferings`: which packages and
 * offerings are kept and which are dropped, which reads are fatal, how
 * duplicate offering identifiers are resolved, and how the current offering,
 * the paywall data and the components relate to the document.
 */
module OfferingParserProperties {
  import opened Json
  import opened Purchases
  import opened OfferingParser

  // ---------------------------------------------------------------------------
  // Package types

  /** A well-known identifier resolves to its type. */
  lemma WellKnownIdentifierExample()
    ensures ToPackageType("$rc_monthly") == MONTHLY
  {
    assert MONTHLY.Identifier() == Some("$rc_monthly");
  }

  /** An unlisted identifier with the reserved prefix resolves to UNKNOWN, any other to CUSTOM. */
  lemma FallbackExamples()
    ensures ToPackageType("$rc_quarterly") == UNKNOWN
    ensures ToPackageType("pro_bundle") == CUSTOM
  {
    forall t: PackageType ensures t.Identifier() != Some("$rc_quarterly") && t.Identifier() != Some("pro_bundle") {
      if t.Identifier().Some? {
        var s := t.Identifier().value;
        assert s[4] != "$rc_quarterly"[4] || s[5] != "$rc_quarterly"[5];
        assert s[0] != "pro_bundle"[0];
      }
    }
    assert ReservedPrefix <= "$rc_quarterly";
    assert !(ReservedPrefix <= "pro_bundle") by { assert "pro_bundle"[0] != ReservedPrefix[0]; }
  }

  /** The type of an identifier outside the table is UNKNOWN or CUSTOM, never a well-known type. */
  lemma {:induction false} UnlistedIdentifierFallsBack(identifier: string)
    requires forall t: PackageType :: t.Identifier() != Some(identifier)
    ensures ToPackageType(identifier).Identifier().None?
    ensures ToPackageType(identifier) == UNKNOWN <==> ReservedPrefix <= identifier
  {
  }

  // ---------------------------------------------------------------------------
  // Packages: the loop of `createOffering` is a filter

  /** The present values of `xs`, in order. */
  function Somes<T>(xs: seq<Option<T>>): seq<T> {
    if xs == [] then []
    else (if xs[0].Some? then [xs[0].value] else []) + Somes(xs[1..])
  }

  lemma {:induction false} SomesAppend<T>(xs: seq<Option<T>>, x: Option<T>)
    ensures Somes(xs + [x]) == Somes(xs) + (if x.Some? then [x.value] else [])
  {
    var tail := if x.Some? then [x.value] else [];
    if xs == [] {
      assert xs + [x] == [x];
      assert Somes([x]) == tail + Somes([]);
    } else {
      var ys := xs + [x];
      var head := if xs[0].Some? then [xs[0].value] else [];
      assert ys[0] == xs[0] && ys[1..] == xs[1..] + [x];
      SomesAppend(xs[1..], x);
      calc {
        Somes(ys);
        head + Somes(xs[1..] + [x]);
        head + (Somes(xs[1..]) + tail);
        (head + Somes(xs[1..])) + tail;
        Somes(xs) + tail;
      }
    }
  }

  /** The outcome of a result of an optional value, with failure read as absence. */
  function Found<T>(r: Result<Option<T>>): Option<T> {
    if r.Ok? then r.value else None
  }

  /** What `createPackage` gives for each node of the array, failures read as absence. */
  function PackageResults(p: Parser, jsonPackages: seq<Json>, productsById: ProductsById, context: PresentedOfferingContext)
    : (r: seq<Option<Package>>)
    ensures |r| == |jsonPackages|
  {
    seq(|jsonPackages|, i requires 0 <= i < |jsonPackages| => Found(PackageAt(p, jsonPackages, i, productsById, context)))
  }

  /** The loop fails exactly when some node is not an object or has no string identifier. */
  lemma {:induction false} PackagesOfOkIff(p: Parser, jsonPackages: seq<Json>, productsById: ProductsById, context: PresentedOfferingContext)
    ensures PackagesOf(p, jsonPackages, productsById, context).Ok? <==>
      forall i :: 0 <= i < |jsonPackages| ==> PackageAt(p, jsonPackages, i, productsById, context).Ok?
    decreases |jsonPackages|
  {
    if jsonPackages != [] {
      var n := |jsonPackages| - 1;
      PackagesOfOkIff(p, jsonPackages[..n], productsById, context);
      PackageAtPrefix(p, jsonPackages, n, productsById, context);
    }
  }

  lemma PackageAtPrefix(p: Parser, jsonPackages: seq<Json>, n: nat, productsById: ProductsById, context: PresentedOfferingContext)
    requires n <= |jsonPackages|
    ensures forall i :: 0 <= i < n ==>
      PackageAt(p, jsonPackages[..n], i, productsById, context) == PackageAt(p, jsonPackages, i, productsById, context)
  {
    forall i | 0 <= i < n
      ensures PackageAt(p, jsonPackages[..n], i, productsById, context) == PackageAt(p, jsonPackages, i, productsById, context)
    {
      assert jsonPackages[..n][i] == jsonPackages[i];
    }
  }

  /**
   * The collected packages are exactly the non-null `createPackage` results,
   * in document order.
   */
  lemma {:induction false} PackagesOfIsFilter(p: Parser, jsonPackages: seq<Json>, productsById: ProductsById, context: PresentedOfferingContext)
    requires PackagesOf(p, jsonPackages, productsById, context).Ok?
    ensures PackagesOf(p, jsonPackages, productsById, context).value == Somes(PackageResults(p, jsonPackages, productsById, context))
    decreases |jsonPackages|
  {
    if jsonPackages != [] {
      var n := |jsonPackages| - 1;
      var prefix := jsonPackages[..n];
      PackagesOfIsFilter(p, prefix, productsById, context);
      PackageAtPrefix(p, jsonPackages, n, productsById, context);
      var last := PackageAt(p, jsonPackages, n, productsById, context);
      assert PackagesOf(p, jsonPackages, productsById, context).value ==
        PackagesOf(p, prefix, productsById, context).value + (if last.value.Some? then [last.value.value] else []);
      var all := PackageResults(p, jsonPackages, productsById, context);
      var earlier := PackageResults(p, prefix, productsById, context);
      var extended := earlier + [Found(last)];
      forall i | 0 <= i <= n ensures all[i] == extended[i] {
        if i < n {
          assert PackageAt(p, prefix, i, productsById, context) == PackageAt(p, jsonPackages, i, productsById, context);
        }
      }
      assert all == extended;
      SomesAppend(earlier, Found(last));
    }
  }

  /**
   * Every collected package carries the offering's context, its product is
   * annotated with that context, and its type is derived from its identifier.
   */
  lemma {:induction false} PackagesCarryContext(p: Parser, jsonPackages: seq<Json>, productsById: ProductsById, context: PresentedOfferingContext)
    requires PackagesOf(p, jsonPackages, productsById, context).Ok?
    ensures forall pkg :: pkg in PackagesOf(p, jsonPackages, productsById, context).value ==>
      && pkg.presentedOfferingContext == context
      && pkg.product.presentedOfferingContext == Some(context)
      && pkg.packageType == ToPackageType(pkg.identifier)
    decreases |jsonPackages|
  {
    if jsonPackages != [] {
      PackagesCarryContext(p, jsonPackages[..|jsonPackages| - 1], productsById, context);
    }
  }

  /** The collected packages depend on the parser only through its product matching. */
  lemma {:induction false} PackagesOfUsesOnlyMatching(p: Parser, q: Parser, jsonPackages: seq<Json>, productsById: ProductsById, context: PresentedOfferingContext)
    requires p.findMatchingProduct == q.findMatchingProduct
    ensures PackagesOf(p, jsonPackages, productsById, context) == PackagesOf(q, jsonPackages, productsById, context)
    decreases |jsonPackages|
  {
    if jsonPackages != [] {
      PackagesOfUsesOnlyMatching(p, q, jsonPackages[..|jsonPackages| - 1], productsById, context);
    }
  }

  // ---------------------------------------------------------------------------
  // Offerings

  /**
   * A built offering has at least one package, the packages the loop
   * collected under its own context, the node's identifier and description,
   * its metadata, the decoded legacy paywall, and components exactly when both
   * the components decode and the UI configuration are present.
   */
  lemma BuiltOffering(p: Parser, offeringJson: JsonObject, productsById: ProductsById, uiConfig: Option<UiConfig>)
    requires OfferingOf(p, offeringJson, productsById, uiConfig).Ok?
    requires OfferingOf(p, offeringJson, productsById, uiConfig).value.Some?
    ensures var o := OfferingOf(p, offeringJson, productsById, uiConfig).value.value;
      && |o.availablePackages| > 0
      && offeringJson["identifier"] == JStr(o.identifier)
      && offeringJson["description"] == JStr(o.serverDescription)
      && "packages" in offeringJson && offeringJson["packages"].JArr?
      && PackagesOf(p, offeringJson["packages"].items, productsById, PresentedOfferingContext(o.identifier, None, None)) == Ok(o.availablePackages)
      && o.metadata == MetadataOf(offeringJson)
      && o.paywall == DecodeOptional(OptObject(offeringJson, "paywall"), p.decodePaywallData)
      && (o.paywallComponents.Some? <==>
           uiConfig.Some? && DecodeOptional(OptObject(offeringJson, "paywall_components"), p.decodePaywallComponentsData).Some?)
  {
  }

  /** An offering node is dropped (without error) exactly when none of its packages matched. */
  lemma DroppedOffering(p: Parser, offeringJson: JsonObject, productsById: ProductsById, uiConfig: Option<UiConfig>)
    ensures OfferingOf(p, offeringJson, productsById, uiConfig) == Ok(None) <==>
      && "identifier" in offeringJson && offeringJson["identifier"].JStr?
      && "packages" in offeringJson && offeringJson["packages"].JArr?
      && var context := PresentedOfferingContext(offeringJson["identifier"].s, None, None);
      && PackagesOf(p, offeringJson["packages"].items, productsById, context) == Ok([])
  {
  }

  /**
   * Reads that abort `createOffering`: the identifier, the packages array, any
   * package node, and the description, which is read only when some package
   * matched.
   */
  lemma OfferingErrors(p: Parser, offeringJson: JsonObject, productsById: ProductsById, uiConfig: Option<UiConfig>)
    ensures !("identifier" in offeringJson && offeringJson["identifier"].JStr?) ==>
      OfferingOf(p, offeringJson, productsById, uiConfig).Err?
    ensures !("packages" in offeringJson && offeringJson["packages"].JArr?) ==>
      OfferingOf(p, offeringJson, productsById, uiConfig).Err?
    ensures "identifier" in offeringJson && offeringJson["identifier"].JStr? && "packages" in offeringJson && offeringJson["packages"].JArr? ==>
      var context := PresentedOfferingContext(offeringJson["identifier"].s, None, None);
      var packages := PackagesOf(p, offeringJson["packages"].items, productsById, context);
      && (packages.Err? ==> OfferingOf(p, offeringJson, productsById, uiConfig) == Err(packages.error))
      && (packages.Ok? && packages.value != [] && !("description" in offeringJson && offeringJson["description"].JStr?) ==>
            OfferingOf(p, offeringJson, productsById, uiConfig).Err?)
      && (packages == Ok([]) ==> OfferingOf(p, offeringJson, productsById, uiConfig) == Ok(None))
  {
  }

  /**
   * The legacy paywall decode never decides whether the offering is built:
   * with any other paywall decoder (one that always fails, say) the outcome
   * is the same offering with only its paywall data changed.
   */
  lemma {:induction false} PaywallDecodeIsIsolated(p: Parser, decode: JsonObject -> Option<PaywallData>, offeringJson: JsonObject,
                                                   productsById: ProductsById, uiConfig: Option<UiConfig>)
    ensures var q := p.(decodePaywallData := decode);
      var before := OfferingOf(p, offeringJson, productsById, uiConfig);
      var after := OfferingOf(q, offeringJson, productsById, uiConfig);
      && (before.Ok? <==> after.Ok?)
      && (before.Ok? ==> (before.value.Some? <==> after.value.Some?))
      && (before.Ok? && before.value.Some? ==>
            after.value.value == before.value.value.(paywall := DecodeOptional(OptObject(offeringJson, "paywall"), decode)))
  {
    var q := p.(decodePaywallData := decode);
    if "identifier" in offeringJson && offeringJson["identifier"].JStr? && "packages" in offeringJson && offeringJson["packages"].JArr? {
      var context := PresentedOfferingContext(offeringJson["identifier"].s, None, None);
      PackagesOfUsesOnlyMatching(p, q, offeringJson["packages"].items, productsById, context);
    }
  }

  /** Without a UI configuration no offering carries paywall components. */
  lemma NoUiConfigNoComponents(p: Parser, offeringJson: JsonObject, productsById: ProductsById)
    requires OfferingOf(p, offeringJson, productsById, None).Ok?
    requires OfferingOf(p, offeringJson, productsById, None).value.Some?
    ensures OfferingOf(p, offeringJson, productsById, None).value.value.paywallComponents == None
  {
  }

  // ---------------------------------------------------------------------------
  // The offerings map: keys, duplicates, failure

  /** The `j`-th offering node builds an offering with identifier `identifier`. */
  predicate Yields(p: Parser, jsonOfferings: seq<Json>, j: nat, productsById: ProductsById, uiConfig: Option<UiConfig>, identifier: string)
    requires j < |jsonOfferings|
  {
    var r := OfferingAt(p, jsonOfferings, j, productsById, uiConfig);
    r.Ok? && r.value.Some? && r.value.value.identifier == identifier
  }

  lemma OfferingAtPrefix(p: Parser, jsonOfferings: seq<Json>, n: nat, productsById: ProductsById, uiConfig: Option<UiConfig>)
    requires n <= |jsonOfferings|
    ensures forall j :: 0 <= j < n ==>
      OfferingAt(p, jsonOfferings[..n], j, productsById, uiConfig) == OfferingAt(p, jsonOfferings, j, productsById, uiConfig)
  {
    forall j | 0 <= j < n
      ensures OfferingAt(p, jsonOfferings[..n], j, productsById, uiConfig) == OfferingAt(p, jsonOfferings, j, productsById, uiConfig)
    {
      assert jsonOfferings[..n][j] == jsonOfferings[j];
    }
  }

  /** The map is built exactly when every offering node is an object that builds without error. */
  lemma {:induction false} OfferingMapOkIff(p: Parser, jsonOfferings: seq<Json>, productsById: ProductsById, uiConfig: Option<UiConfig>)
    ensures OfferingMapOf(p, jsonOfferings, productsById, uiConfig).Ok? <==>
      forall j :: 0 <= j < |jsonOfferings| ==> OfferingAt(p, jsonOfferings, j, productsById, uiConfig).Ok?
    decreases |jsonOfferings|
  {
    if jsonOfferings != [] {
      var n := |jsonOfferings| - 1;
      OfferingMapOkIff(p, jsonOfferings[..n], productsById, uiConfig);
      OfferingAtPrefix(p, jsonOfferings, n, productsById, uiConfig);
    }
  }

  /** Every entry is stored under its own identifier and has at least one package. */
  lemma {:induction false} OfferingMapKeys(p: Parser, jsonOfferings: seq<Json>, productsById: ProductsById, uiConfig: Option<UiConfig>)
    requires OfferingMapOf(p, jsonOfferings, productsById, uiConfig).Ok?
    ensures var all := OfferingMapOf(p, jsonOfferings, productsById, uiConfig).value;
      forall k :: k in all ==> all[k].identifier == k && |all[k].availablePackages| > 0
    decreases |jsonOfferings|
  {
    if jsonOfferings != [] {
      var n := |jsonOfferings| - 1;
      OfferingMapKeys(p, jsonOfferings[..n], productsById, uiConfig);
      var last := OfferingAt(p, jsonOfferings, n, productsById, uiConfig);
      if last.value.Some? {
        BuiltOffering(p, jsonOfferings[n].fields, productsById, uiConfig);
      }
    }
  }

  /** An identifier is a key exactly when some offering node builds an offering with it. */
  lemma {:induction false} OfferingMapMembership(p: Parser, jsonOfferings: seq<Json>, productsById: ProductsById, uiConfig: Option<UiConfig>, identifier: string)
    requires OfferingMapOf(p, jsonOfferings, productsById, uiConfig).Ok?
    ensures identifier in OfferingMapOf(p, jsonOfferings, productsById, uiConfig).value <==>
      exists j :: 0 <= j < |jsonOfferings| && Yields(p, jsonOfferings, j, productsById, uiConfig, identifier)
    decreases |jsonOfferings|
  {
    if jsonOfferings != [] {
      var n := |jsonOfferings| - 1;
      var prefix := jsonOfferings[..n];
      OfferingMapMembership(p, prefix, productsById, uiConfig, identifier);
      OfferingAtPrefix(p, jsonOfferings, n, productsById, uiConfig);
      if identifier in OfferingMapOf(p, jsonOfferings, productsById, uiConfig).value {
        if !Yields(p, jsonOfferings, n, productsById, uiConfig, identifier) {
          var j :| 0 <= j < n && Yields(p, prefix, j, productsById, uiConfig, identifier);
          assert Yields(p, jsonOfferings, j, productsById, uiConfig, identifier);
        }
      } else {
        forall j | 0 <= j < |jsonOfferings|
          ensures !Yields(p, jsonOfferings, j, productsById, uiConfig, identifier)
        {
          if j < n {
            assert !Yields(p, prefix, j, productsById, uiConfig, identifier);
          }
        }
      }
    }
  }

  /**
   * Duplicate identifiers: the offering built from node `j` is the one kept
   * under its identifier when no later node builds one with the same
   * identifier.
   */
  lemma {:induction false} OfferingMapLastWins(p: Parser, jsonOfferings: seq<Json>, productsById: ProductsById, uiConfig: Option<UiConfig>,
                                               j: nat, offering: Offering)
    requires OfferingMapOf(p, jsonOfferings, productsById, uiConfig).Ok?
    requires j < |jsonOfferings|
    requires OfferingAt(p, jsonOfferings, j, productsById, uiConfig) == Ok(Some(offering))
    requires forall k :: j < k < |jsonOfferings| ==> !Yields(p, jsonOfferings, k, productsById, uiConfig, offering.identifier)
    ensures offering.identifier in OfferingMapOf(p, jsonOfferings, productsById, uiConfig).value
    ensures OfferingMapOf(p, jsonOfferings, productsById, uiConfig).value[offering.identifier] == offering
    decreases |jsonOfferings|
  {
    var n := |jsonOfferings| - 1;
    if j < n {
      OfferingAtPrefix(p, jsonOfferings, n, productsById, uiConfig);
      assert forall k :: j < k < n ==>
        Yields(p, jsonOfferings[..n], k, productsById, uiConfig, offering.identifier) == Yields(p, jsonOfferings, k, productsById, uiConfig, offering.identifier);
      OfferingMapLastWins(p, jsonOfferings[..n], productsById, uiConfig, j, offering);
      assert !Yields(p, jsonOfferings, n, productsById, uiConfig, offering.identifier);
    }
  }

  /** Without a UI configuration no offering in the map carries paywall components. */
  lemma {:induction false} OfferingMapWithoutUiConfig(p: Parser, jsonOfferings: seq<Json>, productsById: ProductsById)
    requires OfferingMapOf(p, jsonOfferings, productsById, None).Ok?
    ensures var all := OfferingMapOf(p, jsonOfferings, productsById, None).value;
      forall k :: k in all ==> all[k].paywallComponents == None
    decreases |jsonOfferings|
  {
    if jsonOfferings != [] {
      var n := |jsonOfferings| - 1;
      OfferingMapWithoutUiConfig(p, jsonOfferings[..n], productsById);
      var last := OfferingAt(p, jsonOfferings, n, productsById, None);
      if last.value.Some? {
        NoUiConfigNoComponents(p, jsonOfferings[n].fields, productsById);
      }
    }
  }

  // ---------------------------------------------------------------------------
  // The catalog

  /** The two fatal reads: the `offerings` array, then the `current_offering_id` string. */
  lemma CatalogFatalReads(p: Parser, offeringsJson: JsonObject, productsById: ProductsById)
    ensures !("offerings" in offeringsJson && offeringsJson["offerings"].JArr?) ==>
      OfferingsOf(p, offeringsJson, productsById) == Err(GetArray(offeringsJson, "offerings").error)
    ensures "offerings" in offeringsJson && offeringsJson["offerings"].JArr? &&
            !("current_offering_id" in offeringsJson && offeringsJson["current_offering_id"].JStr?) ==>
      OfferingsOf(p, offeringsJson, productsById) == Err(GetString(offeringsJson, "current_offering_id").error)
  {
  }

  /** An empty `offerings` array gives an empty map and no current offering. */
  lemma NoOfferings(p: Parser, offeringsJson: JsonObject, productsById: ProductsById)
    requires "offerings" in offeringsJson && offeringsJson["offerings"] == JArr([])
    requires "current_offering_id" in offeringsJson && offeringsJson["current_offering_id"].JStr?
    ensures OfferingsOf(p, offeringsJson, productsById).Ok?
    ensures OfferingsOf(p, offeringsJson, productsById).value.all == map[]
    ensures OfferingsOf(p, offeringsJson, productsById).value.current == None
  {
  }

  /**
   * The assembled catalog: `all` is the map the loop builds (every key its
   * offering's identifier, every offering non-empty); `current` is present
   * exactly when `current_offering_id` is a key, and then it is that entry
   * re-annotated with the targeting; targeting and placements are decoded
   * from the document on their own.
   */
  lemma {:induction false} Catalog(p: Parser, offeringsJson: JsonObject, productsById: ProductsById)
    requires OfferingsOf(p, offeringsJson, productsById).Ok?
    ensures var offerings := OfferingsOf(p, offeringsJson, productsById).value;
      var currentOfferingId := offeringsJson["current_offering_id"].s;
      && offeringsJson["current_offering_id"].JStr?
      && "offerings" in offeringsJson && offeringsJson["offerings"].JArr?
      && OfferingMapOf(p, offeringsJson["offerings"].items, productsById,
           DecodeOptional(OptObject(offeringsJson, "ui_config"), p.decodeUiConfig)) == Ok(offerings.all)
      && (forall k :: k in offerings.all ==> offerings.all[k].identifier == k && |offerings.all[k].availablePackages| > 0)
      && (offerings.current.Some? <==> currentOfferingId in offerings.all)
      && (offerings.current.Some? ==>
            && offerings.current.value.identifier == currentOfferingId
            && offerings.current.value == WithPresentedContext(offerings.all[currentOfferingId], None, offerings.targeting))
      && offerings.targeting == TargetingOf(offeringsJson)
      && offerings.placements == PlacementsOf(offeringsJson)
  {
    var jsonOfferings := offeringsJson["offerings"].items;
    var uiConfig := DecodeOptional(OptObject(offeringsJson, "ui_config"), p.decodeUiConfig);
    OfferingMapKeys(p, jsonOfferings, productsById, uiConfig);
  }

  /**
   * A `ui_config` that is absent or fails to decode leaves every offering of
   * the catalog, the current one included, without paywall components.
   */
  lemma {:induction false} CatalogWithoutUiConfig(p: Parser, offeringsJson: JsonObject, productsById: ProductsById)
    requires OfferingsOf(p, offeringsJson, productsById).Ok?
    requires DecodeOptional(OptObject(offeringsJson, "ui_config"), p.decodeUiConfig) == None
    ensures var offerings := OfferingsOf(p, offeringsJson, productsById).value;
      && (forall k :: k in offerings.all ==> offerings.all[k].paywallComponents == None)
      && (offerings.current.Some? ==> offerings.current.value.paywallComponents == None)
  {
    OfferingMapWithoutUiConfig(p, offeringsJson["offerings"].items, productsById);
  }
}
