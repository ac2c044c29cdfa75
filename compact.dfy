/**
 * The compact projection of a decoded asset: package indices become
 * (package, name) pairs and property tags become a map from property name
 * to (type, value).
 */
module Compact {
  import opened Wrappers
  import opened PakTypes

  const ThisPackage := "{{THIS PACKAGE}}"
  const BrokenExport := "{{BROKEN/MISSING EXPORT}}"
  const BoolProperty := "BoolProperty"
  const EnumProperty := "EnumProperty"
  const StructProperty := "StructProperty"
  const ReferenceType := "reference"

  datatype CompactReference = CompactReference(package: string, name: string)

  datatype CompactProperty = CompactProperty(typeName: string, value: CompactValue)

  /** What a compact property's value can hold after projection. */
  datatype CompactValue =
    | CNil
    | CList(items: seq<CompactValue>)
    | CProperty(property: CompactProperty)
    | CMap(properties: map<string, CompactProperty>)
    | CReference(reference: Option<CompactReference>)
    | CTagData(tagData: TagData)
    | CScalar(scalar: Scalar)
    | CRaw(raw: Value)

  datatype CompactExport = CompactExport(
    name: string,
    classRef: Option<CompactReference>,
    superRef: Option<CompactReference>,
    templateRef: Option<CompactReference>,
    outerRef: Option<CompactReference>,
    properties: map<string, CompactProperty>)

  datatype CompactEntry = CompactEntry(fileName: string, guid: Guid, exports: seq<CompactExport>)

  /** The names of a tag list. */
  function TagNames(tags: seq<PropertyTag>): set<string> {
    set i | 0 <= i < |tags| :: tags[i].name
  }

  // Preconditions: the Go code type-asserts on these shapes and panics otherwise.

  predicate WellFormedRef(index: Ref) {
    index.Import? ==> index.imported.outerPackage.Import?
  }

  predicate WellFormedTag(tag: PropertyTag)
    decreases tag, 1
  {
    if tag.tag.SimpleStruct? then true
    else if tag.propertyType == BoolProperty then true
    else if tag.propertyType == EnumProperty then tag.tagData.NameData?
    else if tag.propertyType == StructProperty then
      tag.tagData.StructData? && (tag.tag.TagList? ==> WellFormedTags(tag.tag.tags))
    else WellFormedValue(tag.tag)
  }

  predicate WellFormedTags(tags: seq<PropertyTag>)
    decreases tags, 0
  {
    forall i :: 0 <= i < |tags| ==> WellFormedTag(tags[i])
  }

  predicate WellFormedValue(v: Value)
    decreases v, 0
  {
    match v
    case List(items) => forall i :: 0 <= i < |items| ==> WellFormedValue(items[i])
    case ArrayStruct(innerTagData, body) =>
      body.SimpleElements? || (innerTagData.StructData? && WellFormedTags(body.tags))
    case PackageIndex(index) => WellFormedRef(index)
    case _ => true
  }

  predicate WellFormedExport(e: PakExportSet) {
    && WellFormedRef(e.objectExport.classIndex)
    && WellFormedRef(e.objectExport.superIndex)
    && WellFormedRef(e.objectExport.templateIndex)
    && WellFormedRef(e.objectExport.outerIndex)
    && WellFormedTags(e.properties)
  }

  predicate WellFormedEntry(entry: PakEntrySet) {
    forall i :: 0 <= i < |entry.exports| ==> WellFormedExport(entry.exports[i])
  }

  /** Compacts every export of an asset, in order, into a freshly made buffer;
      the file name and GUID are copied unchanged. */
  method MakeCompactEntry(entry: PakEntrySet) returns (r: CompactEntry)
    requires WellFormedEntry(entry)
    ensures r.fileName == entry.summary.fileName && r.guid == entry.summary.guid
    ensures |r.exports| == |entry.exports|
    ensures forall i :: 0 <= i < |entry.exports| ==> r.exports[i] == MakeCompactExport(entry.exports[i])
  {
    var exports := new CompactExport[|entry.exports|];
    for i := 0 to |entry.exports|
      invariant forall j :: 0 <= j < i ==> exports[j] == MakeCompactExport(entry.exports[j])
    {
      exports[i] := MakeCompactExport(entry.exports[i]);
    }
    r := CompactEntry(entry.summary.fileName, entry.summary.guid, exports[..]);
  }

  /** The export keeps its name; each of its four package indices becomes a
      compact reference and its tags become a property map. */
  function MakeCompactExport(e: PakExportSet): (r: CompactExport)
    requires WellFormedExport(e)
    ensures r.name == e.objectExport.objectName
    ensures r.classRef == MakeCompactReference(e.objectExport.classIndex)
    ensures r.superRef == MakeCompactReference(e.objectExport.superIndex)
    ensures r.templateRef == MakeCompactReference(e.objectExport.templateIndex)
    ensures r.outerRef == MakeCompactReference(e.objectExport.outerIndex)
    ensures r.properties == PropertyMap(e.properties)
    ensures r.properties.Keys == TagNames(e.properties)
  {
    var x := e.objectExport;
    CompactExport(
      x.objectName,
      MakeCompactReference(x.classIndex),
      MakeCompactReference(x.superIndex),
      MakeCompactReference(x.templateIndex),
      MakeCompactReference(x.outerIndex),
      PropertyMap(e.properties))
  }

  function MakeCompactReference(index: Ref): (r: Option<CompactReference>)
    requires WellFormedRef(index)
    ensures r.None? <==> index.NoRef?
    ensures index.Import? ==>
      r == Some(CompactReference(index.imported.outerPackage.imported.objectName, index.imported.objectName))
    ensures index.Export? ==> r.Some? && r.value.package == ThisPackage
    ensures index.Export? && index.exported.Some? ==> r.value.name == index.exported.value.objectName
    ensures index == Export(None) ==> r.value.name == BrokenExport
  {
    match index
    case NoRef => None
    case Import(imported) =>
      Some(CompactReference(imported.outerPackage.imported.objectName, imported.objectName))
    case Export(None) => Some(CompactReference(ThisPackage, BrokenExport))
    case Export(Some(exported)) => Some(CompactReference(ThisPackage, exported.objectName))
  }

  /** Fills a fresh map tag by tag, so a later tag overwrites an earlier one
      with the same name. */
  method MakePropertyMap(tags: seq<PropertyTag>) returns (properties: map<string, CompactProperty>)
    requires WellFormedTags(tags)
    ensures properties == PropertyMap(tags)
  {
    properties := map[];
    for i := 0 to |tags|
      invariant properties == PropertyMap(tags[..i])
    {
      assert tags[..i + 1][..i] == tags[..i];
      properties := properties[tags[i].name := MakeCompactProperty(tags[i])];
    }
    assert tags[..|tags|] == tags;
  }

  /** The property map of a tag list, folded left to right: last write wins. */
  function PropertyMap(tags: seq<PropertyTag>): (r: map<string, CompactProperty>)
    requires WellFormedTags(tags)
    ensures r.Keys == TagNames(tags)
    decreases tags, 0
  {
    if tags == [] then map[]
    else
      var last := tags[|tags| - 1];
      PropertyMap(tags[..|tags| - 1])[last.name := MakeCompactProperty(last)]
  }

  /** Dispatch order: a simple-struct payload wins over every type tag, then
      bool, enum and struct tags; any other tag keeps its declared type and
      has its payload compacted. */
  function MakeCompactProperty(tag: PropertyTag): (r: CompactProperty)
    requires WellFormedTag(tag)
    ensures tag.tag.SimpleStruct? ==>
      r == CompactProperty(tag.tag.structValue.structType, CScalar(tag.tag.structValue.value))
    ensures !tag.tag.SimpleStruct? && tag.propertyType == BoolProperty ==>
      r == CompactProperty(BoolProperty, CTagData(tag.tagData))
    ensures !tag.tag.SimpleStruct? && tag.propertyType == EnumProperty ==>
      r == CompactProperty(tag.tagData.name, CRaw(tag.tag))
    ensures !tag.tag.SimpleStruct? && tag.propertyType == StructProperty ==>
      && r.typeName == tag.tagData.structType
      && (tag.tag.TagList? ==> r.value.CMap? && r.value.properties == PropertyMap(tag.tag.tags))
      && (tag.tag.TagList? ==> r.value.properties.Keys == TagNames(tag.tag.tags))
      && (!tag.tag.TagList? ==> r.value == CNil)
    ensures !tag.tag.SimpleStruct? && tag.propertyType !in {BoolProperty, EnumProperty, StructProperty} ==>
      r == CompactProperty(tag.propertyType, MakePropertyValue(tag.tag))
    decreases tag, 1
  {
    if tag.tag.SimpleStruct? then
      CompactProperty(tag.tag.structValue.structType, CScalar(tag.tag.structValue.value))
    else if tag.propertyType == BoolProperty then
      CompactProperty(tag.propertyType, CTagData(tag.tagData))
    else if tag.propertyType == EnumProperty then
      CompactProperty(tag.tagData.name, CRaw(tag.tag))
    else if tag.propertyType == StructProperty then
      CompactProperty(tag.tagData.structType,
                      if tag.tag.TagList? then CMap(PropertyMap(tag.tag.tags)) else CNil)
    else
      CompactProperty(tag.propertyType, MakePropertyValue(tag.tag))
  }

  /** Element-wise compaction of a list payload, order preserved. */
  function CompactValues(items: seq<Value>): (r: seq<CompactValue>)
    requires forall i :: 0 <= i < |items| ==> WellFormedValue(items[i])
    ensures |r| == |items|
    ensures forall i :: 0 <= i < |items| ==> r[i] == MakePropertyValue(items[i])
    decreases items, 0
  {
    if items == [] then []
    else [MakePropertyValue(items[0])] + CompactValues(items[1..])
  }

  /** The list branch of the value compaction: a fresh buffer of the same
      length, filled element by element. */
  method MakeListValues(items: seq<Value>) returns (values: seq<CompactValue>)
    requires forall i :: 0 <= i < |items| ==> WellFormedValue(items[i])
    ensures |values| == |items|
    ensures forall i :: 0 <= i < |items| ==> values[i] == MakePropertyValue(items[i])
  {
    var buffer := new CompactValue[|items|];
    for i := 0 to |items|
      invariant forall j :: 0 <= j < i ==> buffer[j] == MakePropertyValue(items[j])
    {
      buffer[i] := MakePropertyValue(items[i]);
    }
    values := buffer[..];
  }

  function MakePropertyValue(v: Value): (r: CompactValue)
    requires WellFormedValue(v)
    ensures r.CNil? <==> v.Nil?
    ensures r.CList? <==> v.List?
    ensures v.List? ==> |r.items| == |v.items|
    ensures v.List? ==> forall i :: 0 <= i < |v.items| ==> r.items[i] == MakePropertyValue(v.items[i])
    ensures v.ArrayStruct? && v.properties.SimpleElements? ==> r == CRaw(SimpleStruct(v.properties.simple))
    ensures v.ArrayStruct? && v.properties.TagElements? ==>
      && r.CProperty?
      && r.property.typeName == v.innerTagData.structType
      && r.property.value.CMap?
      && r.property.value.properties == PropertyMap(v.properties.tags)
      && r.property.value.properties.Keys == TagNames(v.properties.tags)
    ensures v.PackageIndex? ==>
      r == CProperty(CompactProperty(ReferenceType, CReference(MakeCompactReference(v.ref))))
    ensures v.SimpleStruct? || v.TagList? || v.Opaque? ==> r == CRaw(v)
    decreases v, 1
  {
    match v
    case Nil => CNil
    case List(items) => CList(CompactValues(items))
    case ArrayStruct(innerTagData, body) =>
      if body.SimpleElements? then CRaw(SimpleStruct(body.simple))
      else CProperty(CompactProperty(innerTagData.structType, CMap(PropertyMap(body.tags))))
    case PackageIndex(index) => CProperty(CompactProperty(ReferenceType, CReference(MakeCompactReference(index))))
    case _ => CRaw(v)
  }
}
