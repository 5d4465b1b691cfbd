# Offerings parser and paywall events, modelled in Dafny

This project models the part of the purchases SDK that turns the offerings
document from the backend into the typed catalog. The catalog holds the
offerings, each offering's packages bound to store products, the current
offering, and the optional targeting and placements. It also models the
paywall event record and its projection to the flat record that is posted
with a receipt.

- `json.dfy` (`Json`): a JSON tree, and the `org.json` accessors the parser
  uses. A `get…` read fails (`Err`) when the field is missing or has the wrong
  type. An `opt…` read gives `None` instead. On Android, `org.json`'s
  `getString` throws only on a missing key and turns any other value into
  text; the model deliberately treats every non-string value as a failure.
- `purchases.dfy` (`Purchases`): the catalog values: `Offering`, `Package`,
  `PackageType` with its identifier table, `StoreProduct`, the presented
  offering context, `Targeting`, `Placements` and `Offerings`.
- `offering_parser.dfy` (`OfferingParser`): `createPackage` and `toPackageType`
  as functions. `createOffering` and `createOfferings` are methods with the
  source's loops. Each method is proved equal to a specification function
  (`OfferingOf`, `OfferingsOf`). The parser holds no state. Its collaborators
  are fields of a `Parser` value: the store-specific `findMatchingProduct` and
  the three `kotlinx.serialization` decoders of `ui_config`, `paywall` and
  `paywall_components`. Each decoder gives `None` where decoding throws.
- `offering_parser_properties.dfy` (`OfferingParserProperties`): what the
  parser promises, proved about those specification functions.
- `uuid.dfy` (`Uuid`): a UUID as its 32 hexadecimal digits, and
  `UUID.toString()` in the 8-4-4-4-12 lower-case form, proved injective.
- `paywall_event.dfy` (`PaywallEvents`): `PaywallEventType` with its tags,
  the event records, and `toPaywallPostReceiptData`.

Errors: the source's exceptions from `getString`, `getJSONArray` and
`getJSONObject` are not caught anywhere in `OfferingParser.kt`. So they abort
the whole `createOfferings` call. The model returns the first such error, in
the source's order of evaluation.

A malformed package or offering node is not skipped. A package node without a
string `identifier`, an array element that is not an object, or an offering
without `identifier`, `packages` or (when some package matched) `description`
throws, and nothing in `OfferingParser.kt` catches it. The model returns `Err`
for all of these (`OfferingErrors`, `PackagesOfOkIff`, `OfferingMapOkIff`).

The warning at `OfferingParser.kt:59-61` (an offering stored with no
packages) cannot fire. `OfferingMapKeys` proves that every stored offering
has at least one package.

## Model

| member | source | states |
|---|---|---|
| `Purchases.PackageTypeTable` | purchases/src/main/kotlin/com/revenuecat/purchases/common/OfferingParser.kt:186 | `PackageType.values()` lists every type, and no two types share an identifier |
| `Purchases.CopyWithPresentedOfferingContext` | purchases/src/main/kotlin/com/revenuecat/purchases/common/OfferingParser.kt:178 | the copy keeps the product's store data and carries the given context |
| `Purchases.WithPresentedContext` | purchases/src/main/kotlin/com/revenuecat/purchases/common/OfferingParser.kt:94 | the re-annotated offering keeps its identifier, description, metadata, paywall data and components. Each package keeps its identifier, type and product data. Its context, and its product's context, now carry the placement and the targeting |
| `OfferingParser.FirstWithIdentifier` | purchases/src/main/kotlin/com/revenuecat/purchases/common/OfferingParser.kt:186 | `firstOrNull` finds a listed type with exactly that identifier, or reports that no listed type has it |
| `OfferingParser.ToPackageType` | purchases/src/main/kotlin/com/revenuecat/purchases/common/OfferingParser.kt:185-187 | a type's own identifier resolves to that type. An identifier no type has resolves to UNKNOWN when it starts with `$rc_`, and to CUSTOM otherwise. The function is total |
| `OfferingParserProperties.UnlistedIdentifierFallsBack` | purchases/src/main/kotlin/com/revenuecat/purchases/common/OfferingParser.kt:187 | an identifier outside the table never resolves to a well-known type. It resolves to UNKNOWN exactly when it has the reserved prefix |
| `OfferingParserProperties.WellKnownIdentifierExample` | purchases/src/main/kotlin/com/revenuecat/purchases/common/OfferingParser.kt:186 | `$rc_monthly` resolves to MONTHLY |
| `OfferingParserProperties.FallbackExamples` | purchases/src/main/kotlin/com/revenuecat/purchases/common/OfferingParser.kt:187 | `$rc_quarterly` resolves to UNKNOWN, and `pro_bundle` resolves to CUSTOM |
| `OfferingParser.CreatePackage` | purchases/src/main/kotlin/com/revenuecat/purchases/common/OfferingParser.kt:165-182 | fails exactly when the node has no string `identifier`. Otherwise it gives a package exactly when `findMatchingProduct` finds one. That package has the node's identifier, the type derived from it, the given context, and the matched product copied with that context |
| `OfferingParser.PackagesOfStopsAtError` | purchases/src/main/kotlin/com/revenuecat/purchases/common/OfferingParser.kt:113-119 | once a package node fails, the whole package loop fails with that same error |
| `OfferingParserProperties.PackagesOfOkIff` | purchases/src/main/kotlin/com/revenuecat/purchases/common/OfferingParser.kt:113-119 | the package loop succeeds exactly when every node is an object that `createPackage` accepts |
| `OfferingParserProperties.PackagesOfIsFilter` | purchases/src/main/kotlin/com/revenuecat/purchases/common/OfferingParser.kt:113-119 | the collected packages are exactly the non-null `createPackage` results, in document order |
| `OfferingParserProperties.PackagesCarryContext` | purchases/src/main/kotlin/com/revenuecat/purchases/common/OfferingParser.kt:111-119 | every collected package, and its product, carries the owning offering's context. Its type is the one derived from its identifier |
| `OfferingParserProperties.PackagesOfUsesOnlyMatching` | purchases/src/main/kotlin/com/revenuecat/purchases/common/OfferingParser.kt:113-119 | the packages depend on the parser only through `findMatchingProduct`, and never on the decoders |
| `OfferingParser.DecodeOptional` | purchases/src/main/kotlin/com/revenuecat/purchases/common/OfferingParser.kt:121-142 | a sub-document is decoded exactly when it is present and its decoder succeeds. Otherwise the result is null and nothing is thrown |
| `OfferingParser.MetadataOf` | purchases/src/main/kotlin/com/revenuecat/purchases/common/OfferingParser.kt:109 | absent `metadata` gives the empty map. Otherwise the result is the object's fields |
| `OfferingParser.PaywallComponentsOf` | purchases/src/main/kotlin/com/revenuecat/purchases/common/OfferingParser.kt:144-148 | components exist exactly when both the components decode and the UI configuration exist, and then they hold both |
| `OfferingParser.CreateOffering` | purchases/src/main/kotlin/com/revenuecat/purchases/common/OfferingParser.kt:103-162 | the method and its package loop compute `OfferingOf`: the result, or the first error |
| `OfferingParserProperties.BuiltOffering` | purchases/src/main/kotlin/com/revenuecat/purchases/common/OfferingParser.kt:150-161 | a built offering has at least one package and the node's identifier and description. Its packages are the ones the loop collected under its own context. Its metadata and paywall are decoded as above. It has components exactly when the components decode and the UI configuration both exist |
| `OfferingParserProperties.DroppedOffering` | purchases/src/main/kotlin/com/revenuecat/purchases/common/OfferingParser.kt:150-161 | an offering is dropped (null, no error) exactly when its identifier and packages array are readable and no package matched |
| `OfferingParserProperties.OfferingErrors` | purchases/src/main/kotlin/com/revenuecat/purchases/common/OfferingParser.kt:108-153 | a missing identifier or packages array fails, and so does any failing package node. A missing description fails only when some package matched. With no package matched, the offering is null |
| `OfferingParserProperties.PaywallDecodeIsIsolated` | purchases/src/main/kotlin/com/revenuecat/purchases/common/OfferingParser.kt:121-131 | swapping in a different legacy paywall decoder (one that always fails, say) changes only the offering's paywall data. It never changes whether the offering exists or errs |
| `OfferingParserProperties.NoUiConfigNoComponents` | purchases/src/main/kotlin/com/revenuecat/purchases/common/OfferingParser.kt:144-148 | without a UI configuration, a built offering has no paywall components |
| `OfferingParser.OfferingMapOfStopsAtError` | purchases/src/main/kotlin/com/revenuecat/purchases/common/OfferingParser.kt:53-63 | once an offering node fails, the whole offerings loop fails with that same error |
| `OfferingParserProperties.OfferingMapOkIff` | purchases/src/main/kotlin/com/revenuecat/purchases/common/OfferingParser.kt:53-63 | the offerings loop succeeds exactly when every node is an object that `createOffering` accepts |
| `OfferingParserProperties.OfferingMapKeys` | purchases/src/main/kotlin/com/revenuecat/purchases/common/OfferingParser.kt:53-63 | every key of `all` is its offering's identifier, and every stored offering has at least one package |
| `OfferingParserProperties.OfferingMapMembership` | purchases/src/main/kotlin/com/revenuecat/purchases/common/OfferingParser.kt:53-63 | an identifier is a key exactly when some node builds an offering with that identifier |
| `OfferingParserProperties.OfferingMapLastWins` | purchases/src/main/kotlin/com/revenuecat/purchases/common/OfferingParser.kt:56-57 | for duplicate identifiers, the map keeps the offering from the last node that builds one with that identifier |
| `OfferingParserProperties.OfferingMapWithoutUiConfig` | purchases/src/main/kotlin/com/revenuecat/purchases/common/OfferingParser.kt:53-63 | without a UI configuration, no offering in the map has paywall components |
| `OfferingParser.TargetingOf` | purchases/src/main/kotlin/com/revenuecat/purchases/common/OfferingParser.kt:65-75 | targeting exists exactly when the `targeting` object has both an integer `revision` and a string `rule_id`, and then it holds those two values. It is never partly filled |
| `OfferingParser.PlacementsOf` | purchases/src/main/kotlin/com/revenuecat/purchases/common/OfferingParser.kt:77-91 | placements exist exactly when the `placements` object has an `offering_ids_by_placement` object. A missing fallback id gives a null fallback. The map has that object's keys. A JSON null value becomes an entry with a null value, and a string value becomes that string |
| `OfferingParser.CreateOfferings` | purchases/src/main/kotlin/com/revenuecat/purchases/common/OfferingParser.kt:35-99 | the method and its offerings loop compute `OfferingsOf`: the catalog, or the first error |
| `OfferingParserProperties.CatalogFatalReads` | purchases/src/main/kotlin/com/revenuecat/purchases/common/OfferingParser.kt:38-39 | a missing or ill-typed `offerings` array fails the call. So does a missing or ill-typed `current_offering_id`, which is read after the array |
| `OfferingParserProperties.NoOfferings` | purchases/src/main/kotlin/com/revenuecat/purchases/common/OfferingParser.kt:53-63 | an empty `offerings` array gives an empty `all` and a null `current` |
| `OfferingParserProperties.Catalog` | purchases/src/main/kotlin/com/revenuecat/purchases/common/OfferingParser.kt:93-98 | `all` is exactly the map the offerings loop builds from the `offerings` array with the decoded `ui_config`. Every key of `all` is its offering's identifier, and no offering is empty. `current` exists exactly when `current_offering_id` is a key of `all`. Then it has that identifier and is that entry re-annotated with the targeting. The targeting and the placements are decoded from the document |
| `OfferingParserProperties.CatalogWithoutUiConfig` | purchases/src/main/kotlin/com/revenuecat/purchases/common/OfferingParser.kt:41-51 | a `ui_config` that is absent or fails to decode leaves every offering without paywall components, the current one included |
| `PaywallEvents.PaywallEventTypeValuesDistinct` | purchases/src/main/kotlin/com/revenuecat/purchases/paywalls/events/PaywallEvent.kt:15-30 | no two event types share a tag (`paywall_impression`, `paywall_cancel`, `paywall_close`) |
| `PaywallEvents.PaywallEvent.ToPaywallPostReceiptData` | purchases/src/main/kotlin/com/revenuecat/purchases/paywalls/events/PaywallEvent.kt:62-71 | the record copies the revision, display mode, dark mode flag, locale and offering id unchanged. The session id is the 36-character string form of the session UUID |
| `PaywallEvents.ReceiptDataDependsOnlyOnData` | purchases/src/main/kotlin/com/revenuecat/purchases/paywalls/events/PaywallEvent.kt:62-71 | events with the same data give the same record, whatever their creation data or type |
| `PaywallEvents.ReceiptDataDeterminesData` | purchases/src/main/kotlin/com/revenuecat/purchases/paywalls/events/PaywallEvent.kt:62-71 | two events with the same record have the same data, so every field survives the flattening |
| `Uuid.ToString` | purchases/src/main/kotlin/com/revenuecat/purchases/paywalls/events/PaywallEvent.kt:64 | the string form has 36 characters. It has dashes at positions 8, 13, 18 and 23, and each hexadecimal digit of the UUID sits at its own position |
| `Uuid.ToStringInjective` | purchases/src/main/kotlin/com/revenuecat/purchases/paywalls/events/PaywallEvent.kt:64 | distinct UUIDs have distinct string forms |
| `Json.GetString` | purchases/src/main/kotlin/com/revenuecat/purchases/common/OfferingParser.kt:39 | `getString` succeeds exactly when the field is a string, and then gives that string |
| `Json.GetArray` | purchases/src/main/kotlin/com/revenuecat/purchases/common/OfferingParser.kt:38 | `getJSONArray` succeeds exactly when the field is an array, and then gives its elements |
| `Json.GetObjectAt` | purchases/src/main/kotlin/com/revenuecat/purchases/common/OfferingParser.kt:55 | `getJSONObject(i)` succeeds exactly when the element is an object |
| `Json.OptObject` | purchases/src/main/kotlin/com/revenuecat/purchases/common/OfferingParser.kt:41 | `optJSONObject` gives the field exactly when it is an object |
| `Json.OptNullableInt` | purchases/src/main/kotlin/com/revenuecat/purchases/common/OfferingParser.kt:66 | `optNullableInt` gives the field exactly when it is an integer |
| `Json.OptNullableString` | purchases/src/main/kotlin/com/revenuecat/purchases/common/OfferingParser.kt:67 | `optNullableString` and `getNullableString` give the field exactly when it is a string |

## Left out

- Logging (`log`, `errorLog`, `warnLog` and the `OfferingStrings` messages) is not modelled. It is a diagnostic side channel only.
- The `kotlinx.serialization` decoding of `UiConfig`, `PaywallData` and `PaywallComponentsData` is not modelled. These decoders are parameters (`Parser`), the decoded types are abstract, and a thrown exception is a `None` result. The paywall decode in the source catches only `Exception`, not `Throwable`, so a JVM `Error` from it would escape. The model does not distinguish the two.
- `findMatchingProduct` is a parameter. The store-specific implementations are not part of this model, and the model assumes they do not throw.
- `StoreProduct` internals (pricing, store data) are the abstract `ProductDetails`. `Offering`, `Offerings` and `withPresentedContext` are not part of this model. Their shapes here follow how `OfferingParser.kt` uses them. `Purchases.WithPresentedContext` overwrites each package's placement and targeting context with the given values.
- `PackageType.kt` is not part of this model. The nine package types and the seven `$rc_…` identifiers in `Purchases.PackageType` are taken from the SDK's `PackageType` enum and are an assumption of the model. `OfferingParser.ToPackageType`'s contract holds for any such table in which UNKNOWN and CUSTOM have no identifier and the other identifiers are unique (`Purchases.PackageTypeTable`); only `OfferingParserProperties.WellKnownIdentifierExample` and `OfferingParserProperties.FallbackExamples` depend on the particular strings.
- Json.GetString: on Android, `org.json`'s `getString` throws only when the key is missing. Any other value becomes text through `String.valueOf`: a number or boolean its digits or word, JSON null the text `"null"`, an object or array its JSON text. The model deliberately treats every non-string value as a type mismatch, so `"current_offering_id": null` is an `Err` here where Android looks up the offering id `"null"` (normally finding none, so the catalog has no current offering).
- `Offerings.all` is a Kotlin `mutableMapOf`, which keeps insertion order (a duplicate identifier keeps its first position with the last value). The Dafny `map` has no order, so the order of `all` is not modelled.
- Json.OptNullableInt: only JSON integers are read. No string or floating-point coercion and no 32-bit truncation of `revision` is modelled.
- Json.OptNullableString: only JSON strings are read, for both `optNullableString` and `getNullableString`. No coercion of other values to text is modelled.
- OfferingParser.PlacementsOf: a placement value that is neither a string nor JSON null also becomes a null entry. The source keeps whatever `toMap` produced.
- OfferingParser.MetadataOf: `toMap(deep = true)` becomes the object's JSON fields, kept as a JSON tree rather than converted to Kotlin maps and lists.
- Parsing the document text into a JSON tree is not modelled: the model starts from the tree.
- `UUIDSerializer`, `DateSerializer` and the `FeatureEvent` interface are serialization plumbing. `Date` is kept as milliseconds since the epoch. `PaywallPostReceiptData` is not part of this model. Its fields are the ones `toPaywallPostReceiptData` fills.
- `GetCustomerCenterConfigCallback.kt` is an asynchronous callback interface with no logic.
