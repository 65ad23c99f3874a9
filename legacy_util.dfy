/**
 * `Util`: the older revision of the XDS builders. Its id format string has no
 * format item, so `String.Format` ignores the fresh guid and every id it
 * assigns is the literal text `urn:uuid:%s`. It wraps a name even when the
 * name is null, and its association carries no association type. The
 * association, classification, node-classification and external-identifier
 * builders are private in the source.
 */
module LegacyUtil {
  import opened Wrappers
  import opened RegistryModel
  import opened XdsGuids
  import StringFormat
  import XdsUtil

  /** The format string of every id in this revision: a `%s` where `{0}` was meant. */
  const IdFormat: string := "urn:uuid:%s"

  /** `String.Format("urn:uuid:%s", guid)`: the format string itself, whatever the guid. */
  function LegacyId(guid: string): (id: string)
    ensures id == IdFormat
  {
    assert IdFormat == ['u', 'r', 'n', ':', 'u', 'u', 'i', 'd', ':', '%', 's'];
    StringFormat.FormatWithoutItems(IdFormat, guid);
    StringFormat.Format(IdFormat, guid)
  }

  /** The unconditional name wrapper: one localized string holding `name`, null or not. */
  function AlwaysName(name: Option<string>): (n: Option<InternationalString>)
    ensures NamedExactly(n, name)
  {
    Some(InternationalString([LocalizedString(name)]))
  }

  /** A submission's flat object list, as given; the same as the current builder. */
  function CreateSubmitObjectsRequest(objects: Option<seq<RegistryObject>>): (r: SubmitObjectsRequest)
    ensures r.registryObjectList == objects
  {
    XdsUtil.CreateSubmitObjectsRequest(objects)
  }

  /** A Provide and Register Document Set-b request, as given; the same as the current builder. */
  function CreateProvideAndRegisterRequest(registryRequest: Option<SubmitObjectsRequest>,
                                           document: Option<seq<Document>>): (r: ProvideAndRegisterRequest)
    ensures r.submitObjectsRequest == registryRequest && r.documents == document
  {
    XdsUtil.CreateProvideAndRegisterRequest(registryRequest, document)
  }

  /** A document entry, always named, with no classifications and no external identifiers. */
  function CreateExtrinsicObject(guid: string, mimeType: string, name: Option<string>,
                                 objectType: XdsGuidType, slots: Option<seq<Slot>>): (e: ExtrinsicObject)
    ensures e.id == IdFormat
    ensures e.objectType == UrnUuidPrefix + objectType.Guid && e.mimeType == mimeType
    ensures NamedExactly(e.name, name)
    ensures e.slots == slots
    ensures e.classifications == null && e.externalIdentifiers == null
  {
    ExtrinsicObject(
      id := LegacyId(guid),
      objectType := objectType.ToString(),
      mimeType := mimeType,
      name := AlwaysName(name),
      slots := slots,
      classifications := null,
      externalIdentifiers := null)
  }

  /** A submission set; its id is the literal text, whatever the guid. */
  function CreateRegistryPackage(guid: string): (p: RegistryPackage)
    ensures p.id == IdFormat
  {
    RegistryPackage(LegacyId(guid))
  }

  /** A slot with the given name and value list; the same as the current builder. */
  function CreateSlot(slotName: string, value: Option<seq<string>>): (s: Slot)
    ensures s.name == slotName && s.values == value
  {
    XdsUtil.CreateSlot(slotName, value)
  }

  /** An association from `source` to `target` with the submission-set status and no association type. */
  function CreateAssociation(guid: string, source: RegistryObject, target: ExtrinsicObject,
                             status: string): (a: Association)
    ensures a.id == IdFormat
    ensures a.sourceObject == source.Id() && a.targetObject == target.id
    ensures a.associationType == None
    ensures |a.slots| == 1 && a.slots[0].name == "SubmissionSetStatus" && a.slots[0].values == Some([status])
  {
    Association(
      id := LegacyId(guid),
      sourceObject := source.Id(),
      targetObject := target.id,
      associationType := None,
      slots := [CreateSlot("SubmissionSetStatus", Some([status]))])
  }

  /** A scheme classification of `classifiedObject`, always named. */
  method CreateClassification(guid: string, classifiedObject: RegistryObject, scheme: XdsGuidType,
                              nodeRepresentation: string, name: Option<string>,
                              slots: Option<seq<Slot>>) returns (c: Classification)
    ensures fresh(c)
    ensures c.id == IdFormat
    ensures c.classificationScheme == Some(UrnUuidPrefix + scheme.Guid)
    ensures c.classifiedObject == Some(classifiedObject.Id())
    ensures c.nodeRepresentation == Some(nodeRepresentation) && c.classificationNode == None
    ensures NamedExactly(c.name, name)
    ensures c.slots == slots
  {
    c := new Classification(LegacyId(guid), Some(scheme.ToString()), None, Some(nodeRepresentation),
                            AlwaysName(name), slots, Some(classifiedObject.Id()));
  }

  /** A node classification of `registryObject`. */
  method CreateNodeClassification(guid: string, registryObject: RegistryObject,
                                  classificationNode: XdsGuidType) returns (c: Classification)
    ensures fresh(c)
    ensures c.id == IdFormat
    ensures c.classificationNode == Some(UrnUuidPrefix + classificationNode.Guid)
    ensures c.classifiedObject == Some(registryObject.Id())
    ensures c.classificationScheme == None && c.nodeRepresentation == None
    ensures c.name == None && c.slots == None
  {
    c := new Classification(LegacyId(guid), None, Some(classificationNode.ToString()), None, None, None,
                            Some(registryObject.Id()));
  }

  /** An external identifier of `registryObject`, always named after the scheme, null name or not. */
  method CreateExternalIdentifier(guid: string, registryObject: RegistryObject, scheme: XdsGuidType,
                                  value: string) returns (x: ExternalIdentifier)
    ensures fresh(x)
    ensures x.id == IdFormat
    ensures x.registryObject == Some(registryObject.Id())
    ensures x.identificationScheme == UrnUuidPrefix + scheme.Guid && x.value == value
    ensures NamedExactly(x.name, scheme.Name)
  {
    x := new ExternalIdentifier(LegacyId(guid), scheme.ToString(), value, AlwaysName(scheme.Name),
                                Some(registryObject.Id()));
  }

  // Where this revision departs from the current builders.

  /** Two submission sets built from different guids get the same id. */
  lemma PackagesShareId(g1: string, g2: string)
    ensures CreateRegistryPackage(g1).id == CreateRegistryPackage(g2).id
    ensures g1 != g2 ==> XdsUtil.CreateRegistryPackage(g1).id != XdsUtil.CreateRegistryPackage(g2).id
  {
    XdsUtil.MintIdInjective(g1, g2);
  }

  /**
   * The submission of `XdsUtil.SubmissionSetGraph`, built here: whatever the
   * guids, its three objects share one id, so the graph is not well formed.
   */
  lemma SubmissionSetHasDuplicateIds(packageGuid: string, entryGuid: string, associationGuid: string,
                                     mimeType: string, name: Option<string>, objectType: XdsGuidType,
                                     status: string)
    ensures var p := CreateRegistryPackage(packageGuid);
            var e := CreateExtrinsicObject(entryGuid, mimeType, name, objectType, None);
            var a := CreateAssociation(associationGuid, PackageObject(p), e, status);
            && p.id == e.id == a.id == IdFormat
            && !UniqueIds([PackageObject(p), DocumentEntryObject(e), AssociationObject(a)])
  {
    var p := CreateRegistryPackage(packageGuid);
    var e := CreateExtrinsicObject(entryGuid, mimeType, name, objectType, None);
    var a := CreateAssociation(associationGuid, PackageObject(p), e, status);
    SharedIdNotUnique(p, e, a);
  }

  /** A package, an entry and an association that carry one id do not form a list of unique ids. */
  lemma SharedIdNotUnique(p: RegistryPackage, e: ExtrinsicObject, a: Association)
    requires p.id == e.id == a.id
    ensures !UniqueIds([PackageObject(p), DocumentEntryObject(e), AssociationObject(a)])
  {
    var objects := [PackageObject(p), DocumentEntryObject(e), AssociationObject(a)];
    assert objects[0].Id() == objects[1].Id();
  }

  /** With no name, this revision still attaches a name wrapper, holding one null string. */
  lemma NullNameIsWrapped(guid: string, mimeType: string, objectType: XdsGuidType, slots: Option<seq<Slot>>)
    ensures CreateExtrinsicObject(guid, mimeType, None, objectType, slots).name
            == Some(InternationalString([LocalizedString(None)]))
  {
  }
}
