# XDS.b request builders, modelled in Dafny

This project models the metadata request builders of the MARC.IHE.Xds library. They build the requests of three IHE XDS.b transactions:

- Provide and Register Document Set-b (ITI-41);
- Registry Stored Query (ITI-18);
- Retrieve Document Set (ITI-43).

The requests are made of ebXML Registry Information Model 3.0 objects: submission sets (`RegistryPackage`), document entries (`ExtrinsicObject`), classifications, external identifiers, associations and slots. The project also models the two catalogs of constants those builders use.

| file | module | models |
|---|---|---|
| `wrappers.dfy` | `Wrappers` | `Option` for a null reference or an unset field, `Result` for a thrown exception |
| `string_format.dfy` | `StringFormat` | `String.Format(format, arg)` with the `{0}` format item, and lemmas about it |
| `xds_guid_type.dfy` | `XdsGuids` | `XdsGuidType`: the (guid, name) pair, `ToString`, `Equals`, and the catalog of 21 well-known identifiers |
| `xds_confidentiality_code_type.dfy` | `XdsConfidentiality` | `XdsConfidentialityCodeType`: the three confidentiality codes |
| `registry_model.dfy` | `RegistryModel` | the wire objects, reduced to the fields the builders touch, and predicates over a submission's object list |
| `xds_util.dfy` | `XdsUtil` | the current builders (`XdsUtil`) |
| `legacy_util.dfy` | `LegacyUtil` | the older builders (`Util`) and how they differ from the current ones |

Design of the model:

- **Fresh guids.** `Guid.NewGuid()` becomes a parameter `guid`: the text of the fresh guid. So every id property is stated as `id == "urn:uuid:" + guid`.
- **Ids are unique when guids are.** `XdsUtil.MintIdInjective` proves that distinct guids give distinct ids. Guid collisions are the library's concern and are not modelled.
- **Classes where the source mutates.** Classifications and external identifiers are classes, and only their back-reference (`classifiedObject`, `registryObject`) is a `var`. `CreateExtrinsicObject` overwrites that back-reference on the caller's own objects, through the caller's arrays. Its `modifies` clause names exactly that field of exactly those objects.
- **Values elsewhere.** Every other wire object is a datatype, because the builders only create it and hand it on.
- **String.Format.** It is modelled once, as `StringFormat.Format`. Both uses of it follow from that model:
  - `XdsGuidType.ToString` formats `"urn:uuid:{0}"`, which gives the prefix followed by the guid;
  - `Util` formats `"urn:uuid:%s"`, which has no format item and so gives that literal text for every guid.
- **Behaviour of the code that is easy to misread:**
  - A name wrapper is created whenever the name is non-null, so an empty name still gets one.
  - The attached external identifier takes its display name from the scheme whenever the scheme's name is non-null. Catalog entries built from a guid alone have the name `""`, so they give a wrapper holding `""`.
  - `XdsGuidType.Equals` compares URN forms only when the argument is a string. For any other argument, including another `XdsGuidType` with the same guid, it is reference identity.

## Model

| member | source | states |
|---|---|---|
| `StringFormat.FormatWithoutItems` | MARC.IHE.Xds/Util.cs:70 | a format string without any brace comes out of `String.Format` unchanged, whatever the argument |
| `StringFormat.FormatPrefixThenItem` | MARC.IHE.Xds/XdsGuidType.cs:180 | formatting a brace-free prefix followed by `{0}` gives the prefix followed by the argument |
| `XdsGuids.FromGuidAndName` | MARC.IHE.Xds/XdsGuidType.cs:136-163 | the two-argument constructor: the `Guid` and `Name` getters give back the two arguments, a null name included, and the URN form depends on the guid alone |
| `XdsGuids.XdsGuidType.Equals` | MARC.IHE.Xds/XdsGuidType.cs:168-173 | for a string argument, equal if and only if the string is `"urn:uuid:"` followed by the guid; for any other argument, equal if and only if it is this very instance |
| `XdsGuids.XdsGuidType.ToString` | MARC.IHE.Xds/XdsGuidType.cs:178-182 | the rendering is exactly `"urn:uuid:"` followed by the guid |
| `XdsGuids.FromGuid` | MARC.IHE.Xds/XdsGuidType.cs:125-129 | the one-argument constructor keeps the guid and sets the name to `""`, never null |
| `XdsGuids.ToStringInjective` | MARC.IHE.Xds/XdsGuidType.cs:178-182 | two identifiers render to the same URN if and only if their guids are equal; the name plays no part |
| `XdsGuids.EqualsString` | MARC.IHE.Xds/XdsGuidType.cs:168-173 | `Equals` on a string holds if and only if the string is `"urn:uuid:"` followed by the guid |
| `XdsGuids.EqualsRejectsBareGuid` | MARC.IHE.Xds/XdsGuidType.cs:168-173 | the bare guid text, without the URN prefix, is never equal |
| `XdsGuids.EqualsStringDeterminesGuid` | MARC.IHE.Xds/XdsGuidType.cs:168-173 | two identifiers equal to the same string have the same guid |
| `XdsGuids.StoredQueryUrns` | MARC.IHE.Xds/XdsGuidType.cs:107-115 | FindDocuments, FindSubmissionSets and GetAll render to `urn:uuid:` followed by their registered guids |
| `XdsGuids.CatalogNames` | MARC.IHE.Xds/XdsGuidType.cs:35-115 | no catalog name is null; exactly the submission-set patientId, sourceId and uniqueId and the document-entry patientId and uniqueId have non-empty names, with their literal values |
| `XdsGuids.LimitedMetaDataTrailingSpace` | MARC.IHE.Xds/XdsGuidType.cs:59 | the submission-set limited-metadata URN is 46 characters long and ends in the space kept from its guid literal |
| `XdsConfidentiality.XdsConfidentialityCodeType.Code` | MARC.IHE.Xds/XdsConfidentialityCodeType.cs:32-59 | the code each value is constructed with: an OID of three digits under the arc `1.3.6.1.4.1.21367.2006.7.` |
| `XdsConfidentiality.XdsConfidentialityCodeType.Scheme` | MARC.IHE.Xds/XdsConfidentialityCodeType.cs:32-65 | the scheme each value is constructed with, which for every value is `Connect-a-thon confidentialityCodes` |
| `XdsConfidentiality.PublishedCodes` | MARC.IHE.Xds/XdsConfidentialityCodeType.cs:32-42 | Normal, Restricted and EmergencyOnly carry the codes ending in .107, .109 and .110 |
| `XdsConfidentiality.SharedScheme` | MARC.IHE.Xds/XdsConfidentialityCodeType.cs:32-42 | every value has the scheme `Connect-a-thon confidentialityCodes` |
| `XdsConfidentiality.CodesDistinct` | MARC.IHE.Xds/XdsConfidentialityCodeType.cs:32-65 | two values have the same code if and only if they are the same value, so a code identifies one of the three |
| `XdsUtil.MintId` | MARC.IHE.Xds/XdsUtil.cs:73 | the interpolated id of a new object (also at lines 98, 134, 167, 198, 246, 298 and 331): the nine characters `urn:uuid:` followed by exactly the guid |
| `XdsUtil.MintIdInjective` | MARC.IHE.Xds/XdsUtil.cs:73 | two minted ids are equal if and only if their guids are |
| `XdsUtil.MintIdIsGuidUrn` | MARC.IHE.Xds/XdsUtil.cs:331 | a minted id is the URN that an `XdsGuidType` of the same guid renders to |
| `XdsUtil.OptionalName` | MARC.IHE.Xds/XdsUtil.cs:103-113 | a name wrapper exists if and only if a name is given, and then it holds exactly one localized string with that name |
| `XdsUtil.CreateAdhocQueryRequest` | MARC.IHE.Xds/XdsUtil.cs:37-59 | the query id is the query's URN; the parameter slots are the given ones, same order; composed objects are returned at leaf-class granularity |
| `XdsUtil.AdhocQueryIdentifiesStoredQuery` | MARC.IHE.Xds/XdsUtil.cs:51 | two query requests carry the same query id if and only if their stored queries have the same guid |
| `XdsUtil.FindDocumentsQuery` | MARC.IHE.Xds/XdsUtil.cs:37-59 | a FindDocuments request with one slot has id `urn:uuid:14d4debf-…` and exactly that slot |
| `XdsUtil.CreateSlot` | MARC.IHE.Xds/XdsUtil.cs:375-385 | the slot keeps the name and the value list, null included |
| `XdsUtil.CreateAssociation` | MARC.IHE.Xds/XdsUtil.cs:69-84 | fresh id; source and target are the two objects' ids; the association type is the relation; exactly one slot, `SubmissionSetStatus`, with values `[status]` |
| `XdsUtil.CreateClassification` | MARC.IHE.Xds/XdsUtil.cs:94-119 | a new object with a fresh id, scheme URN and node representation; not attached; named if and only if a name is given; the given slots |
| `XdsUtil.CreateAttachedClassification` | MARC.IHE.Xds/XdsUtil.cs:130-154 | the same, but attached to the classified object's id |
| `XdsUtil.CreateExternalIdentifier` | MARC.IHE.Xds/XdsUtil.cs:163-185 | a new object with a fresh id, scheme URN and value; not attached; named if and only if a name is given |
| `XdsUtil.CreateAttachedExternalIdentifier` | MARC.IHE.Xds/XdsUtil.cs:194-217 | attached to the object's id; named after the scheme if and only if the scheme's name is non-null (an empty name gives a wrapper of `""`) |
| `XdsUtil.CreateExtrinsicObject` | MARC.IHE.Xds/XdsUtil.cs:242-286 | fresh id, object type URN, mime type, optional name and slots; it shares the caller's arrays, null staying null; every classification and external identifier in them now points at the new id, whatever it pointed at before; only those back-references change |
| `XdsUtil.AttachClassifications` | MARC.IHE.Xds/XdsUtil.cs:269-275 | every element of a non-null array of classifications points at the id; only that field of those objects changes |
| `XdsUtil.AttachExternalIdentifiers` | MARC.IHE.Xds/XdsUtil.cs:277-283 | every element of a non-null array of external identifiers points at the id; only that field of those objects changes |
| `XdsUtil.CreateExtrinsicObjectWithSlots` | MARC.IHE.Xds/XdsUtil.cs:227-230 | the six-argument builder with null classifications and null external identifiers: same fields, both arrays null, nothing modified |
| `XdsUtil.CreateNodeClassification` | MARC.IHE.Xds/XdsUtil.cs:294-304 | a new object with a fresh id, the node URN and the classified object's id; no scheme, node representation, name or slots |
| `XdsUtil.CreateProvideAndRegisterRequest` | MARC.IHE.Xds/XdsUtil.cs:312-321 | the metadata request and the documents are returned as given, with no check that they match |
| `XdsUtil.CreateRegistryPackage` | MARC.IHE.Xds/XdsUtil.cs:327-335 | a submission set whose id is `"urn:uuid:"` followed by the guid |
| `XdsUtil.RetrieveRequestsEntries` | MARC.IHE.Xds/XdsUtil.cs:352-364 | one document request per id, the i-th carrying the i-th id and the shared repository and home community ids |
| `XdsUtil.CreateRetrieveDocumentSetRequest` | MARC.IHE.Xds/XdsUtil.cs:345-367 | fails with `ArgumentNull("docIds", …)` if and only if the id array is null; otherwise it returns a new array of one request per id, in order, so an empty array gives an empty result |
| `XdsUtil.CreateSubmitObjectsRequest` | MARC.IHE.Xds/XdsUtil.cs:392-400 | the object list is the given one, with nothing lost, added or reordered |
| `XdsUtil.SubmissionSetGraph` | MARC.IHE.Xds/XdsUtil.cs:392-400 | a submission set, a document entry and the association between them, submitted together: exactly those three objects, with pairwise distinct ids when the guids differ, and both ends of the association among them |
| `LegacyUtil.LegacyId` | MARC.IHE.Xds/Util.cs:70 | `String.Format("urn:uuid:%s", guid)` is the literal `urn:uuid:%s`, whatever the guid |
| `LegacyUtil.AlwaysName` | MARC.IHE.Xds/Util.cs:73-81 | the name wrapper always exists and holds exactly one localized string with the given value, null included |
| `LegacyUtil.CreateSubmitObjectsRequest` | MARC.IHE.Xds/Util.cs:38-46 | the object list is the given one |
| `LegacyUtil.CreateProvideAndRegisterRequest` | MARC.IHE.Xds/Util.cs:52-61 | the metadata request and the documents are returned as given |
| `LegacyUtil.CreateExtrinsicObject` | MARC.IHE.Xds/Util.cs:66-88 | the id is the literal `urn:uuid:%s`; object type URN, mime type and slots as given; always named, even with a null name; no classifications or external identifiers |
| `LegacyUtil.CreateRegistryPackage` | MARC.IHE.Xds/Util.cs:93-98 | the id is the literal `urn:uuid:%s` |
| `LegacyUtil.CreateSlot` | MARC.IHE.Xds/Util.cs:103-111 | the slot keeps the name and the value list |
| `LegacyUtil.CreateAssociation` | MARC.IHE.Xds/Util.cs:116-127 | literal id; source and target ids; exactly one `SubmissionSetStatus` slot with `[status]`; no association type |
| `LegacyUtil.CreateClassification` | MARC.IHE.Xds/Util.cs:132-152 | literal id; attached to the classified object; scheme URN, node representation and slots; always named, null or not |
| `LegacyUtil.CreateNodeClassification` | MARC.IHE.Xds/Util.cs:158-165 | literal id; only the node URN and the classified object's id are set |
| `LegacyUtil.CreateExternalIdentifier` | MARC.IHE.Xds/Util.cs:170-189 | literal id; attached to the object; scheme URN and value; always named after the scheme, even when the scheme's name is null |
| `LegacyUtil.PackagesShareId` | MARC.IHE.Xds/Util.cs:93-98 | two submission sets built here from any two guids share an id, where the current builder's ids differ for different guids |
| `LegacyUtil.SubmissionSetHasDuplicateIds` | MARC.IHE.Xds/Util.cs:66-127 | the submission of `XdsUtil.SubmissionSetGraph`, built here, has three objects with the one id `urn:uuid:%s`, so its ids are not unique |
| `LegacyUtil.NullNameIsWrapped` | MARC.IHE.Xds/Util.cs:73-81 | a document entry built with no name still gets a name wrapper of one null string |

## Findings

| source | as written | input that shows it | evidently intended | confidence | as-written member | corrected member |
|---|---|---|---|---|---|---|
| MARC.IHE.Xds/Util.cs:70 | `String.Format("urn:uuid:%s", guid)`: `%s` is not a .NET format item, so the guid is dropped (also at lines 96, 120, 136, 161, 174) | any two guids, e.g. packages from guids `a` and `b`: both ids are `urn:uuid:%s` | `urn:uuid:` followed by the guid | high; not executed | `LegacyUtil.SubmissionSetHasDuplicateIds` | `XdsUtil.SubmissionSetGraph` |
| MARC.IHE.Xds/Util.cs:73-81 | the name wrapper is created even when `name` is null | `CreateExtrinsicObject(g, "text/xml", null, t)` gives a name of one null localized string | no name wrapper when no name is given | medium; not executed | `LegacyUtil.NullNameIsWrapped` | `XdsUtil.CreateExtrinsicObjectWithSlots` |
| MARC.IHE.Xds/Util.cs:116-127 | the association's `associationType` is never set | any call, e.g. `CreateAssociation(p, e, "Approved")` | an association type given by the caller, as the current builder sets it | medium; not executed | `LegacyUtil.CreateAssociation` | `XdsUtil.CreateAssociation` |

The rest of the model uses the current builders in `XdsUtil`.

## Left out

- `Guid.NewGuid()` is left out: its randomness becomes the `guid` parameter. Collision freedom of guids is not modelled. Only "distinct guids give distinct ids" is proved.
- Null strings that the builders only copy are not modelled. These are `mimeType`, `value`, `status`, `relation`, `nodeRepresentation`, slot names and the elements of a value list or of `docIds`. They are plain strings in the model.
- A null guid given to the `XdsGuidType` constructors is left out: every use in the source passes a literal.
- Null arguments are left out where the source would throw `NullReferenceException` by reading a member. These are `source`, `target`, `registryObject`, `classifiedObject`, `queryId`, `scheme`, `objectType`, `classificationScheme`, `identifierType` and `classificationNode`. Null elements inside the arrays given to `CreateExtrinsicObject`, where the source would throw part way through, are left out too.
- Arrays that the builders only store are modelled as values: the slot, parameter, object-list and document arrays (`Option<seq<…>>`). Sharing those arrays with the caller is not modelled. The arrays the builders read element by element or change are real arrays: classifications, external identifiers and document ids.
- Classifications and external identifiers keep every field except the back-reference `const`. The builders set those fields once; changes by other code are not modelled.
- Registry objects are given their `id` as a plain string. A caller-built object with a null id is not modelled. The registry-object kinds are the five the builders produce.
- The generated wire types are reduced to the fields the builders touch. Their XML serialization and other schema fields are left out, as are SOAP/MTOM transport, schema validation and document storage.
- `CreateProvideAndRegisterRequest` performs no dangling-reference check and no payload/entry alignment check, so none is modelled as a postcondition. `SubmissionSetGraph` only proves that one particular submission is closed.
- `GetHashCode` is not overridden in the source and is left out. `base.Equals` is object identity; it is modelled as `OtherArgument(sameInstance)`, where the caller states whether the argument is this very instance.
- `lang` and `charset` of localized strings are never set and are left out.
- The private `XdsConfidentialityCodeType` constructor is folded into a three-valued datatype. `Code` and `Scheme` return the arguments each value is constructed with, so the closed set of three values is explicit.
- `String.Format` is modelled for the `{0}` item only. Escaped braces and the `FormatException` for malformed format strings are left out, because neither format string in the model has them.
- `XdsGuids.CatalogNames`: names the non-empty entries by their positions in `Catalog()`, not by set membership, because comparing the literal entries as wholes is beyond the verifier's budget.
