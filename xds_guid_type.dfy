/**
 * `XdsGuidType`: an immutable (guid, name) pair naming an XDS classification
 * scheme, external-identifier scheme, object type or stored query, and the
 * fixed catalog of such identifiers.
 */
module XdsGuids {
  import opened Wrappers
  import StringFormat

  /** The URN scheme every rendered identifier starts with. */
  const UrnUuidPrefix: string := "urn:uuid:"

  /** The format string `ToString` hands to `String.Format`. */
  const ToStringFormat: string := "urn:uuid:{0}"

  /**
   * What `Equals(Object obj)` can be handed: a string, or any other reference
   * (null included), of which only whether it is this very instance matters.
   */
  datatype EqualsArgument =
    | StringArgument(text: string)
    | OtherArgument(sameInstance: bool)

  /**
   * The two-argument constructor `XdsGuidType(queryGuid, name)`; `Guid` and
   * `Name` are its read-only properties. `Name` may be null (`None`).
   */
  datatype XdsGuidType = XdsGuidType(Guid: string, Name: Option<string>)
  {
    /** The URN form `urn:uuid:<guid>`. */
    function ToString(): (s: string)
      ensures s == UrnUuidPrefix + Guid
    {
      assert ToStringFormat == UrnUuidPrefix + StringFormat.Placeholder;
      StringFormat.FormatPrefixThenItem(UrnUuidPrefix, Guid);
      StringFormat.Format(ToStringFormat, Guid)
    }

    /** A string is equal when it is the URN form; anything else only when it is this instance. */
    predicate Equals(obj: EqualsArgument)
      ensures obj.StringArgument? ==> (Equals(obj) <==> obj.text == UrnUuidPrefix + Guid)
      ensures obj.OtherArgument? ==> (Equals(obj) <==> obj.sameInstance)
    {
      match obj
      case StringArgument(text) => ToString() == text
      case OtherArgument(sameInstance) => sameInstance
    }
  }

  /**
   * The two-argument constructor `XdsGuidType(queryGuid, name)`: the getters
   * give back both arguments, null included, and the URN form depends on the
   * guid alone.
   */
  function FromGuidAndName(queryGuid: string, name: Option<string>): (t: XdsGuidType)
    ensures t.Guid == queryGuid && t.Name == name
    ensures t.ToString() == UrnUuidPrefix + queryGuid
  {
    XdsGuidType(queryGuid, name)
  }

  /** The one-argument constructor `XdsGuidType(queryGuid)`: the name is empty, never null. */
  function FromGuid(queryGuid: string): (t: XdsGuidType)
    ensures t.Guid == queryGuid && t.Name == Some("")
  {
    XdsGuidType(queryGuid, Some(""))
  }

  /** Two identifiers render to the same URN exactly when their guids agree; the name plays no part. */
  lemma ToStringInjective(a: XdsGuidType, b: XdsGuidType)
    ensures a.ToString() == b.ToString() <==> a.Guid == b.Guid
  {
    if a.ToString() == b.ToString() {
      StringFormat.PrefixCancels(UrnUuidPrefix, a.Guid, b.Guid);
    }
  }

  /** `Equals` on a string holds exactly for the URN form of the guid. */
  lemma EqualsString(t: XdsGuidType, s: string)
    ensures t.Equals(StringArgument(s)) <==> s == UrnUuidPrefix + t.Guid
  {
  }

  /** The bare guid text, without the URN prefix, is never equal. */
  lemma EqualsRejectsBareGuid(t: XdsGuidType)
    ensures !t.Equals(StringArgument(t.Guid))
  {
    assert |t.ToString()| == |UrnUuidPrefix| + |t.Guid|;
  }

  /** Two identifiers equal to one and the same string carry the same guid. */
  lemma EqualsStringDeterminesGuid(a: XdsGuidType, b: XdsGuidType, s: string)
    requires a.Equals(StringArgument(s)) && b.Equals(StringArgument(s))
    ensures a.Guid == b.Guid
  {
    ToStringInjective(a, b);
  }

  // The catalog of well-known identifiers.

  const XDSSubmissionSet := FromGuid("a54d6aa5-d40d-43f9-88c5-b4633d873bdd")
  const XDSSubmissionSet_Author := FromGuid("a7058bb9-b4e4-4307-ba5b-e3f0ab85e12d")
  const XDSSubmissionSet_ContentType := FromGuid("aa543740-bdda-424e-8c96-df4873be8500")
  const XDSSubmissionSet_PatientId := XdsGuidType("6b5aea1a-874d-4603-a4bc-96a0a7b38446", Some("XDSSubmissionSet.patientId"))
  const XDSSubmissionSet_SourceId := XdsGuidType("554ac39e-e3fe-47fe-b233-965d2a147832", Some("XDSSubmissionSet.sourceId"))
  const XDSSubmissionSet_UniqueId := XdsGuidType("96fdda7c-d067-4183-912e-bf5ee74998a8", Some("XDSSubmissionSet.uniqueId"))
  /** The guid literal of this entry ends in a space, kept verbatim. */
  const XDSSubmissionSet_LimitedMetaData := FromGuid("5003a9db-8d8d-49e6-bf0c-990e34ac7707 ")
  const XDSDocumentEntry := FromGuid("7edca82f-054d-47f2-a032-9b2a5b5186c1")
  const XDSDocumentEntry_Author := FromGuid("93606bcf-9494-43ec-9b4e-a7748d1a838d")
  const XDSDocumentEntry_ClassCode := FromGuid("41a5887f-8865-4c09-adf7-e362475b143a")
  const XDSDocumentEntry_ConfidentialityCode := FromGuid("f4f85eac-e6cb-4883-b524-f2705394840f")
  const XDSDocumentEntry_EventCodeList := FromGuid("2c6b8cb7-8b2a-4051-b291-b1ae6a575ef4")
  const XDSDocumentEntry_FormatCode := FromGuid("a09d5840-386c-46f2-b5ad-9c3699a4309d")
  const XDSDocumentEntry_PatientId := XdsGuidType("58a6f841-87b3-4a3e-92fd-a8ffeff98427", Some("XDSDocumentEntry.patientId"))
  const XDSDocumentEntry_PracticeSettingCode := FromGuid("cccf5598-8b07-4b77-a05e-ae952c785ead")
  const XDSDocumentEntry_TypeCode := FromGuid("f0306f51-975f-434e-a61c-c59651d33983")
  const XDSDocumentEntry_UniqueId := XdsGuidType("2e82c1f6-a085-4c72-9da3-8640a32e42ab", Some("XDSDocumentEntry.uniqueId"))
  const XDSDocumentEntry_LimitedMetaData := FromGuid("ab9b591b-83ab-4d03-8f5d-f93b1fb92e85")
  const RegistryStoredQuery_FindDocuments := FromGuid("14d4debf-8f97-4251-9a74-a90016b0af0d")
  const RegistryStoredQuery_FindSubmissionSets := FromGuid("f26abbcb-ac74-4422-8a30-edb644bbc1a9")
  const RegistryStoredQuery_GetAll := FromGuid("10b545ea-725c-446d-9b95-8aeb444eddf3")

  /** Every entry of the catalog, in declaration order. */
  function Catalog(): seq<XdsGuidType>
  {
    [
    XDSSubmissionSet, XDSSubmissionSet_Author, XDSSubmissionSet_ContentType,
    XDSSubmissionSet_PatientId, XDSSubmissionSet_SourceId, XDSSubmissionSet_UniqueId,
    XDSSubmissionSet_LimitedMetaData,
    XDSDocumentEntry, XDSDocumentEntry_Author, XDSDocumentEntry_ClassCode,
    XDSDocumentEntry_ConfidentialityCode, XDSDocumentEntry_EventCodeList, XDSDocumentEntry_FormatCode,
    XDSDocumentEntry_PatientId, XDSDocumentEntry_PracticeSettingCode, XDSDocumentEntry_TypeCode,
    XDSDocumentEntry_UniqueId, XDSDocumentEntry_LimitedMetaData,
    RegistryStoredQuery_FindDocuments, RegistryStoredQuery_FindSubmissionSets, RegistryStoredQuery_GetAll
    ]
  }

  /** The three stored queries render to their registered URNs. */
  lemma StoredQueryUrns()
    ensures RegistryStoredQuery_FindDocuments.ToString() == "urn:uuid:" + "14d4debf-8f97-4251-9a74-a90016b0af0d"
    ensures RegistryStoredQuery_FindSubmissionSets.ToString() == "urn:uuid:" + "f26abbcb-ac74-4422-8a30-edb644bbc1a9"
    ensures RegistryStoredQuery_GetAll.ToString() == "urn:uuid:" + "10b545ea-725c-446d-9b95-8aeb444eddf3"
  {
  }

  /**
   * No entry has a null name, and the non-empty names are exactly those of the
   * entries at positions 3, 4, 5 (submission-set patientId, sourceId, uniqueId)
   * and 13, 16 (document-entry patientId, uniqueId).
   */
  lemma CatalogNames()
    ensures forall i :: 0 <= i < |Catalog()| ==> Catalog()[i].Name.Some?
    ensures forall i :: 0 <= i < |Catalog()| ==> (Catalog()[i].Name != Some("") <==> i in {3, 4, 5, 13, 16})
    ensures XDSSubmissionSet_PatientId.Name == Some("XDSSubmissionSet.patientId")
    ensures XDSSubmissionSet_SourceId.Name == Some("XDSSubmissionSet.sourceId")
    ensures XDSSubmissionSet_UniqueId.Name == Some("XDSSubmissionSet.uniqueId")
    ensures XDSDocumentEntry_PatientId.Name == Some("XDSDocumentEntry.patientId")
    ensures XDSDocumentEntry_UniqueId.Name == Some("XDSDocumentEntry.uniqueId")
  {
  }

  /** The limited-metadata submission-set URN ends in the space its guid literal carries. */
  lemma LimitedMetaDataTrailingSpace()
    ensures var s := XDSSubmissionSet_LimitedMetaData.ToString(); |s| == 46 && s[45] == ' '
  {
  }
}
