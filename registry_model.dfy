/**
 * The ebXML Registry Information Model 3.0 objects the XDS builders fill in,
 * reduced to the fields the builders touch. A C# reference that may be null,
 * or a field the builders leave unset, is an `Option`.
 *
 * Classifications and external identifiers are classes: `CreateExtrinsicObject`
 * overwrites their back-reference on the caller's own objects. Their other
 * fields are set once, when the object is built, and are `const`. Every other
 * object is only built and handed on, and is a datatype.
 */
module RegistryModel {
  import opened Wrappers

  /** `LocalizedStringType`: one localized value (lang and charset are never set). */
  datatype LocalizedString = LocalizedString(value: Option<string>)

  /** `InternationalStringType`: the name wrapper of a registry object. */
  datatype InternationalString = InternationalString(localizedStrings: seq<LocalizedString>)

  /** `SlotType1`: a named, multi-valued attribute; `values` is `ValueList.Value`. */
  datatype Slot = Slot(name: string, values: Option<seq<string>>)

  /** A name wrapper holding exactly one localized string, with this value. */
  predicate NamedExactly(n: Option<InternationalString>, value: Option<string>)
  {
    n.Some? && |n.value.localizedStrings| == 1 && n.value.localizedStrings[0].value == value
  }

  /** `ClassificationType` */
  class Classification {
    const id: string
    const classificationScheme: Option<string>
    const classificationNode: Option<string>
    const nodeRepresentation: Option<string>
    const name: Option<InternationalString>
    const slots: Option<seq<Slot>>
    /** The id of the classified object: the back-reference that may be overwritten. */
    var classifiedObject: Option<string>

    constructor (id: string, classificationScheme: Option<string>, classificationNode: Option<string>,
                 nodeRepresentation: Option<string>, name: Option<InternationalString>,
                 slots: Option<seq<Slot>>, classifiedObject: Option<string>)
      ensures this.id == id && this.classificationScheme == classificationScheme
      ensures this.classificationNode == classificationNode && this.nodeRepresentation == nodeRepresentation
      ensures this.name == name && this.slots == slots && this.classifiedObject == classifiedObject
    {
      this.id := id;
      this.classificationScheme := classificationScheme;
      this.classificationNode := classificationNode;
      this.nodeRepresentation := nodeRepresentation;
      this.name := name;
      this.slots := slots;
      this.classifiedObject := classifiedObject;
    }
  }

  /** `ExternalIdentifierType` */
  class ExternalIdentifier {
    const id: string
    const identificationScheme: string
    const value: string
    const name: Option<InternationalString>
    /** The id of the identified object: the back-reference that may be overwritten. */
    var registryObject: Option<string>

    constructor (id: string, identificationScheme: string, value: string,
                 name: Option<InternationalString>, registryObject: Option<string>)
      ensures this.id == id && this.identificationScheme == identificationScheme && this.value == value
      ensures this.name == name && this.registryObject == registryObject
    {
      this.id := id;
      this.identificationScheme := identificationScheme;
      this.value := value;
      this.name := name;
      this.registryObject := registryObject;
    }
  }

  /** The objects an array of classifications refers to (none for a null array). */
  ghost function ClassificationsIn(a: array?<Classification>): set<Classification>
    reads a
  {
    if a == null then {} else set i | 0 <= i < a.Length :: a[i]
  }

  /** The objects an array of external identifiers refers to (none for a null array). */
  ghost function IdentifiersIn(a: array?<ExternalIdentifier>): set<ExternalIdentifier>
    reads a
  {
    if a == null then {} else set i | 0 <= i < a.Length :: a[i]
  }

  /**
   * `ExtrinsicObjectType`: one document entry. The two arrays are the caller's
   * own arrays, shared by reference.
   */
  datatype ExtrinsicObject = ExtrinsicObject(
    id: string,
    objectType: string,
    mimeType: string,
    name: Option<InternationalString>,
    slots: Option<seq<Slot>>,
    classifications: array?<Classification>,
    externalIdentifiers: array?<ExternalIdentifier>)

  /** `RegistryPackageType`: a submission set. */
  datatype RegistryPackage = RegistryPackage(id: string)

  /** `AssociationType1`: a directed edge between two registry objects. */
  datatype Association = Association(
    id: string,
    sourceObject: string,
    targetObject: string,
    associationType: Option<string>,
    slots: seq<Slot>)

  /** `RegistryObjectType` / `IdentifiableType`: any object that can be listed in a submission. */
  datatype RegistryObject =
    | PackageObject(package: RegistryPackage)
    | DocumentEntryObject(entry: ExtrinsicObject)
    | AssociationObject(association: Association)
    | ClassificationObject(classification: Classification)
    | ExternalIdentifierObject(identifier: ExternalIdentifier)
  {
    /** The object's `id`. */
    function Id(): string
    {
      match this
      case PackageObject(p) => p.id
      case DocumentEntryObject(e) => e.id
      case AssociationObject(a) => a.id
      case ClassificationObject(c) => c.id
      case ExternalIdentifierObject(x) => x.id
    }
  }

  /** Some object of the list has this id. */
  predicate ListsId(objects: seq<RegistryObject>, id: string)
  {
    exists j :: 0 <= j < |objects| && objects[j].Id() == id
  }

  /** No two objects of the list share an id. */
  predicate UniqueIds(objects: seq<RegistryObject>)
  {
    forall i, j :: 0 <= i < j < |objects| ==> objects[i].Id() != objects[j].Id()
  }

  /** Both ends of every association in the list are objects of the same list. */
  predicate AssociationsResolve(objects: seq<RegistryObject>)
  {
    forall i :: 0 <= i < |objects| && objects[i].AssociationObject? ==>
      ListsId(objects, objects[i].association.sourceObject) &&
      ListsId(objects, objects[i].association.targetObject)
  }

  /** `SubmitObjectsRequest`: the flat list of objects of one submission. */
  datatype SubmitObjectsRequest = SubmitObjectsRequest(registryObjectList: Option<seq<RegistryObject>>)

  /** `ProvideAndRegisterDocumentSetRequestTypeDocument`: the content of one document entry. */
  datatype Document = Document(id: string, value: seq<bv8>)

  /** `ProvideAndRegisterDocumentSetRequestType` (ITI-41). */
  datatype ProvideAndRegisterRequest = ProvideAndRegisterRequest(
    submitObjectsRequest: Option<SubmitObjectsRequest>,
    documents: Option<seq<Document>>)

  /** `ResponseOptionTypeReturnType`: how much of each matching object a query returns. */
  datatype ReturnType = ObjectRef | RegistryObjectReturn | LeafClass | LeafClassWithRepositoryItem

  /** `ResponseOptionType` */
  datatype ResponseOption = ResponseOption(returnComposedObjects: bool, returnType: ReturnType)

  /** `AdhocQueryType`: a stored-query id and its parameter slots. */
  datatype AdhocQuery = AdhocQuery(id: string, slots: Option<seq<Slot>>)

  /** `AdhocQueryRequest` (ITI-18). */
  datatype AdhocQueryRequest = AdhocQueryRequest(responseOption: ResponseOption, adhocQuery: AdhocQuery)

  /** `RetrieveDocumentSetRequestTypeDocumentRequest`: one document to fetch (ITI-43). */
  datatype DocumentRequest = DocumentRequest(
    documentUniqueId: string,
    homeCommunityId: string,
    repositoryUniqueId: string)

  /** The exceptions the builders throw. */
  datatype XdsError = ArgumentNull(paramName: string, message: string)
}
