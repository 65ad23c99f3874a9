/**
 * `XdsUtil`: the builders of XDS.b requests (Provide and Register Document
 * Set-b, Registry Stored Query, Retrieve Document Set) and of the ebXML
 * objects they carry.
 *
 * `Guid.NewGuid()` is not modelled: every builder that mints an id takes the
 * text of the fresh guid as its first parameter `guid`.
 */
module XdsUtil {
  import opened Wrappers
  import opened RegistryModel
  import opened XdsGuids
  import StringFormat

  /** The interpolated id `$"urn:uuid:{guid}"` of a new object: the URN prefix, then the guid. */
  function MintId(guid: string): (id: string)
    ensures |id| == |UrnUuidPrefix| + |guid|
    ensures id[..|UrnUuidPrefix|] == UrnUuidPrefix && id[|UrnUuidPrefix|..] == guid
  {
    UrnUuidPrefix + guid
  }

  /** Distinct guids give distinct ids: ids are as unique as the guids they are minted from. */
  lemma MintIdInjective(g1: string, g2: string)
    ensures MintId(g1) == MintId(g2) <==> g1 == g2
  {
    if MintId(g1) == MintId(g2) {
      StringFormat.PrefixCancels(UrnUuidPrefix, g1, g2);
    }
  }

  /** A minted id is the URN an `XdsGuidType` of the same guid renders to. */
  lemma MintIdIsGuidUrn(guid: string)
    ensures MintId(guid) == FromGuid(guid).ToString()
  {
  }

  /** The `if (name != null) x.Name = …` step: a one-string name wrapper, only when a name is given. */
  function OptionalName(name: Option<string>): (n: Option<InternationalString>)
    ensures n.Some? <==> name.Some?
    ensures name.Some? ==> NamedExactly(n, name)
  {
    if name.Some? then Some(InternationalString([LocalizedString(name)])) else None
  }

  /** A Registry Stored Query request for `queryId`, returning leaf-class objects, composed. */
  function CreateAdhocQueryRequest(queryId: XdsGuidType, parameters: Option<seq<Slot>>): (r: AdhocQueryRequest)
    ensures r.adhocQuery.id == UrnUuidPrefix + queryId.Guid
    ensures r.adhocQuery.slots == parameters
    ensures r.responseOption.returnComposedObjects && r.responseOption.returnType == LeafClass
  {
    AdhocQueryRequest(
      ResponseOption(returnComposedObjects := true, returnType := LeafClass),
      AdhocQuery(queryId.ToString(), parameters))
  }

  /** The query id of a request names its stored query: two requests agree on it exactly when their guids do. */
  lemma AdhocQueryIdentifiesStoredQuery(q1: XdsGuidType, p1: Option<seq<Slot>>, q2: XdsGuidType, p2: Option<seq<Slot>>)
    ensures CreateAdhocQueryRequest(q1, p1).adhocQuery.id == CreateAdhocQueryRequest(q2, p2).adhocQuery.id
            <==> q1.Guid == q2.Guid
  {
    ToStringInjective(q1, q2);
  }

  /** A FindDocuments query with one parameter. */
  lemma FindDocumentsQuery(parameter: Slot)
    ensures var r := CreateAdhocQueryRequest(RegistryStoredQuery_FindDocuments, Some([parameter]));
            r.adhocQuery.id == "urn:uuid:" + "14d4debf-8f97-4251-9a74-a90016b0af0d" &&
            r.adhocQuery.slots == Some([parameter])
  {
  }

  /** A slot with the given name and value list. */
  function CreateSlot(slotName: string, value: Option<seq<string>>): (s: Slot)
    ensures s.name == slotName && s.values == value
  {
    Slot(slotName, value)
  }

  /** An association from `source` to `target` carrying the submission-set status. */
  function CreateAssociation(guid: string, source: RegistryObject, target: ExtrinsicObject,
                             status: string, relation: string): (a: Association)
    ensures a.id == UrnUuidPrefix + guid
    ensures a.sourceObject == source.Id() && a.targetObject == target.id
    ensures a.associationType == Some(relation)
    ensures |a.slots| == 1 && a.slots[0].name == "SubmissionSetStatus" && a.slots[0].values == Some([status])
  {
    Association(
      id := MintId(guid),
      sourceObject := source.Id(),
      targetObject := target.id,
      associationType := Some(relation),
      slots := [CreateSlot("SubmissionSetStatus", Some([status]))])
  }

  /** A scheme classification not yet attached to any object. */
  method CreateClassification(guid: string, classificationScheme: XdsGuidType, nodeRepresentation: string,
                              name: Option<string>, slots: Option<seq<Slot>>) returns (c: Classification)
    ensures fresh(c)
    ensures c.id == UrnUuidPrefix + guid
    ensures c.classificationScheme == Some(UrnUuidPrefix + classificationScheme.Guid)
    ensures c.nodeRepresentation == Some(nodeRepresentation)
    ensures c.classifiedObject == None && c.classificationNode == None
    ensures c.name.Some? <==> name.Some?
    ensures name.Some? ==> NamedExactly(c.name, name)
    ensures c.slots == slots
  {
    c := new Classification(MintId(guid), Some(classificationScheme.ToString()), None,
                            Some(nodeRepresentation), OptionalName(name), slots, None);
  }

  /** A scheme classification attached to `classifiedObject`. */
  method CreateAttachedClassification(guid: string, classifiedObject: RegistryObject, scheme: XdsGuidType,
                                      nodeRepresentation: string, name: Option<string>,
                                      slots: Option<seq<Slot>>) returns (c: Classification)
    ensures fresh(c)
    ensures c.id == UrnUuidPrefix + guid
    ensures c.classificationScheme == Some(UrnUuidPrefix + scheme.Guid)
    ensures c.classifiedObject == Some(classifiedObject.Id())
    ensures c.nodeRepresentation == Some(nodeRepresentation) && c.classificationNode == None
    ensures c.name.Some? <==> name.Some?
    ensures name.Some? ==> NamedExactly(c.name, name)
    ensures c.slots == slots
  {
    c := new Classification(MintId(guid), Some(scheme.ToString()), None, Some(nodeRepresentation),
                            OptionalName(name), slots, Some(classifiedObject.Id()));
  }

  /** An external identifier not yet attached to any object. */
  method CreateExternalIdentifier(guid: string, identifierType: XdsGuidType, value: string,
                                  name: Option<string>) returns (x: ExternalIdentifier)
    ensures fresh(x)
    ensures x.id == UrnUuidPrefix + guid
    ensures x.identificationScheme == UrnUuidPrefix + identifierType.Guid && x.value == value
    ensures x.registryObject == None
    ensures x.name.Some? <==> name.Some?
    ensures name.Some? ==> NamedExactly(x.name, name)
  {
    x := new ExternalIdentifier(MintId(guid), identifierType.ToString(), value, OptionalName(name), None);
  }

  /**
   * An external identifier attached to `registryObject`, named after the
   * scheme when the scheme's name is not null. An empty scheme name (every
   * catalog entry built from a guid alone) still gives a wrapper, holding "".
   */
  method CreateAttachedExternalIdentifier(guid: string, registryObject: RegistryObject, scheme: XdsGuidType,
                                          value: string) returns (x: ExternalIdentifier)
    ensures fresh(x)
    ensures x.id == UrnUuidPrefix + guid
    ensures x.registryObject == Some(registryObject.Id())
    ensures x.identificationScheme == UrnUuidPrefix + scheme.Guid && x.value == value
    ensures x.name.Some? <==> scheme.Name.Some?
    ensures scheme.Name.Some? ==> NamedExactly(x.name, scheme.Name)
  {
    x := new ExternalIdentifier(MintId(guid), scheme.ToString(), value, OptionalName(scheme.Name),
                                Some(registryObject.Id()));
  }

  /**
   * A document entry. Every classification and external identifier in the
   * given arrays is attached to it, overwriting its previous back-reference;
   * nothing else of those objects and nothing of the arrays changes.
   */
  method CreateExtrinsicObject(guid: string, mimeType: string, name: Option<string>, objectType: XdsGuidType,
                               slots: Option<seq<Slot>>, classifications: array?<Classification>,
                               externalIds: array?<ExternalIdentifier>) returns (e: ExtrinsicObject)
    modifies ClassificationsIn(classifications)`classifiedObject
    modifies IdentifiersIn(externalIds)`registryObject
    ensures e.id == UrnUuidPrefix + guid
    ensures e.objectType == UrnUuidPrefix + objectType.Guid && e.mimeType == mimeType
    ensures e.name.Some? <==> name.Some?
    ensures name.Some? ==> NamedExactly(e.name, name)
    ensures e.slots == slots
    ensures e.classifications == classifications && e.externalIdentifiers == externalIds
    ensures classifications != null ==>
              forall i :: 0 <= i < classifications.Length ==> classifications[i].classifiedObject == Some(e.id)
    ensures externalIds != null ==>
              forall i :: 0 <= i < externalIds.Length ==> externalIds[i].registryObject == Some(e.id)
  {
    e := ExtrinsicObject(
      id := MintId(guid),
      objectType := objectType.ToString(),
      mimeType := mimeType,
      name := OptionalName(name),
      slots := slots,
      classifications := classifications,
      externalIdentifiers := externalIds);

    AttachClassifications(classifications, e.id);
    AttachExternalIdentifiers(externalIds, e.id);
  }

  /** The first `foreach` of `CreateExtrinsicObject`: point every classification at `id`. */
  method AttachClassifications(classifications: array?<Classification>, id: string)
    modifies ClassificationsIn(classifications)`classifiedObject
    ensures classifications != null ==>
              forall i :: 0 <= i < classifications.Length ==> classifications[i].classifiedObject == Some(id)
  {
    if classifications != null {
      var k := 0;
      while k < classifications.Length
        invariant 0 <= k <= classifications.Length
        invariant forall i :: 0 <= i < k ==> classifications[i].classifiedObject == Some(id)
      {
        classifications[k].classifiedObject := Some(id);
        k := k + 1;
      }
    }
  }

  /** The second `foreach` of `CreateExtrinsicObject`: point every external identifier at `id`. */
  method AttachExternalIdentifiers(externalIds: array?<ExternalIdentifier>, id: string)
    modifies IdentifiersIn(externalIds)`registryObject
    ensures externalIds != null ==>
              forall i :: 0 <= i < externalIds.Length ==> externalIds[i].registryObject == Some(id)
  {
    if externalIds != null {
      var k := 0;
      while k < externalIds.Length
        invariant 0 <= k <= externalIds.Length
        invariant forall i :: 0 <= i < k ==> externalIds[i].registryObject == Some(id)
      {
        externalIds[k].registryObject := Some(id);
        k := k + 1;
      }
    }
  }

  /** A document entry with no classifications and no external identifiers (both null). */
  method CreateExtrinsicObjectWithSlots(guid: string, mimeType: string, name: Option<string>,
                                        objectType: XdsGuidType, slots: Option<seq<Slot>>) returns (e: ExtrinsicObject)
    ensures e.id == UrnUuidPrefix + guid
    ensures e.objectType == UrnUuidPrefix + objectType.Guid && e.mimeType == mimeType
    ensures e.name.Some? <==> name.Some?
    ensures name.Some? ==> NamedExactly(e.name, name)
    ensures e.slots == slots
    ensures e.classifications == null && e.externalIdentifiers == null
  {
    e := CreateExtrinsicObject(guid, mimeType, name, objectType, slots, null, null);
  }

  /** A node classification of `registryObject`: no scheme, no node representation. */
  method CreateNodeClassification(guid: string, registryObject: RegistryObject,
                                  classificationNode: XdsGuidType) returns (c: Classification)
    ensures fresh(c)
    ensures c.id == UrnUuidPrefix + guid
    ensures c.classificationNode == Some(UrnUuidPrefix + classificationNode.Guid)
    ensures c.classifiedObject == Some(registryObject.Id())
    ensures c.classificationScheme == None && c.nodeRepresentation == None
    ensures c.name == None && c.slots == None
  {
    c := new Classification(MintId(guid), None, Some(classificationNode.ToString()), None, None, None,
                            Some(registryObject.Id()));
  }

  /** A Provide and Register Document Set-b request: the metadata and the documents, as given. */
  function CreateProvideAndRegisterRequest(registryRequest: Option<SubmitObjectsRequest>,
                                           document: Option<seq<Document>>): (r: ProvideAndRegisterRequest)
    ensures r.submitObjectsRequest == registryRequest && r.documents == document
  {
    ProvideAndRegisterRequest(registryRequest, document)
  }

  /** A submission set with a fresh id and nothing else set. */
  function CreateRegistryPackage(guid: string): (p: RegistryPackage)
    ensures p.id == UrnUuidPrefix + guid
  {
    RegistryPackage(MintId(guid))
  }

  /** The document requests for `docIds`, in order, each with the same repository and home community. */
  function RetrieveRequests(repositoryId: string, homeCommunityId: string, docIds: seq<string>): seq<DocumentRequest>
  {
    if docIds == [] then []
    else [DocumentRequest(docIds[0], homeCommunityId, repositoryId)]
         + RetrieveRequests(repositoryId, homeCommunityId, docIds[1..])
  }

  /** One request per id, the i-th for the i-th id. */
  lemma {:induction false} RetrieveRequestsEntries(repositoryId: string, homeCommunityId: string, docIds: seq<string>)
    ensures |RetrieveRequests(repositoryId, homeCommunityId, docIds)| == |docIds|
    ensures forall i :: 0 <= i < |docIds| ==>
              RetrieveRequests(repositoryId, homeCommunityId, docIds)[i]
              == DocumentRequest(docIds[i], homeCommunityId, repositoryId)
  {
    if docIds != [] {
      RetrieveRequestsEntries(repositoryId, homeCommunityId, docIds[1..]);
    }
  }

  /** A Retrieve Document Set request, one entry per document id; a null id array is rejected. */
  method CreateRetrieveDocumentSetRequest(repositoryId: string, homeCommunityId: string,
                                          docIds: array?<string>) returns (r: Result<array<DocumentRequest>, XdsError>)
    ensures r.Failure? <==> docIds == null
    ensures r.Failure? ==> r.error == ArgumentNull("docIds", "Value cannot be null")
    ensures r.Success? ==> fresh(r.value) && r.value[..] == RetrieveRequests(repositoryId, homeCommunityId, docIds[..])
  {
    if docIds == null {
      return Failure(ArgumentNull("docIds", "Value cannot be null"));
    }
    var retVal := new DocumentRequest[docIds.Length];
    var i := 0;
    while i < docIds.Length
      invariant 0 <= i <= docIds.Length
      invariant forall k :: 0 <= k < i ==> retVal[k] == DocumentRequest(docIds[k], homeCommunityId, repositoryId)
    {
      retVal[i] := DocumentRequest(docIds[i], homeCommunityId, repositoryId);
      i := i + 1;
    }
    RetrieveRequestsEntries(repositoryId, homeCommunityId, docIds[..]);
    assert retVal[..] == RetrieveRequests(repositoryId, homeCommunityId, docIds[..]);
    return Success(retVal);
  }

  /** A submission's flat object list, as given. */
  function CreateSubmitObjectsRequest(objects: Option<seq<RegistryObject>>): (r: SubmitObjectsRequest)
    ensures r.registryObjectList == objects
  {
    SubmitObjectsRequest(objects)
  }

  /**
   * A submission set, one document entry and the association between them,
   * submitted together: the list holds exactly those three objects, their ids
   * are pairwise distinct when their guids are, and both ends of the
   * association are objects of the submission.
   */
  lemma SubmissionSetGraph(packageGuid: string, entryGuid: string, associationGuid: string,
                           entry: ExtrinsicObject, status: string, relation: string)
    requires entry.id == MintId(entryGuid)
    requires packageGuid != entryGuid && packageGuid != associationGuid && entryGuid != associationGuid
    ensures var p := CreateRegistryPackage(packageGuid);
            var a := CreateAssociation(associationGuid, PackageObject(p), entry, status, relation);
            var objects := [PackageObject(p), DocumentEntryObject(entry), AssociationObject(a)];
            && CreateSubmitObjectsRequest(Some(objects)).registryObjectList == Some(objects)
            && |objects| == 3
            && UniqueIds(objects)
            && AssociationsResolve(objects)
  {
    var p := CreateRegistryPackage(packageGuid);
    var a := CreateAssociation(associationGuid, PackageObject(p), entry, status, relation);
    var objects := [PackageObject(p), DocumentEntryObject(entry), AssociationObject(a)];
    MintIdInjective(packageGuid, entryGuid);
    MintIdInjective(packageGuid, associationGuid);
    MintIdInjective(entryGuid, associationGuid);
    assert objects[0].Id() == p.id && objects[1].Id() == entry.id && objects[2].Id() == a.id;
    assert ListsId(objects, a.sourceObject) by { assert objects[0].Id() == a.sourceObject; }
    assert ListsId(objects, a.targetObject) by { assert objects[1].Id() == a.targetObject; }
  }
}
