/**
 * The decoded asset records that the compact projection reads.
 *
 * The parser that produces them (package-index resolution, the property-tag
 * reader) is not part of this model; only the fields that the projection
 * reads are kept, and Go's `interface{}` payloads are replaced by closed
 * datatypes.
 */
module PakTypes {
  import opened Wrappers

  /** 128-bit asset identity: four 32-bit words, copied through unchanged. */
  datatype Guid = Guid(a: bv32, b: bv32, c: bv32, d: bv32)

  /** A resolved package index: no reference, an import, or an export slot.
      `Export(None)` is a typed nil export pointer (a slot that failed to
      decode), which Go does not compare equal to a nil reference. */
  datatype Ref =
    | NoRef
    | Import(imported: ObjectImport)
    | Export(exported: Option<ObjectExport>)

  /** An import record: its own name and the package index of its outer
      object (normally another import naming the package). */
  datatype ObjectImport = ObjectImport(objectName: string, outerPackage: Ref)

  /** An export record: its name and its four package-index fields. */
  datatype ObjectExport = ObjectExport(
    objectName: string,
    classIndex: Ref,
    superIndex: Ref,
    templateIndex: Ref,
    outerIndex: Ref)

  /** Scalar payloads, passed through the projection without inspection;
      floating-point data is kept as its raw bytes. */
  datatype Scalar =
    | Number(n: int)
    | Text(s: string)
    | Flag(b: bool)
    | RawBytes(bytes: seq<bv8>)

  /** A simple (builtin) struct value: its struct type name and raw value. */
  datatype StructType = StructType(structType: string, value: Scalar)

  /** Type-specific side data of a tag: the bool of a bool property, the enum
      type name of an enum property, the struct type of a struct property. */
  datatype TagData =
    | NoTagData
    | BoolData(b: bool)
    | NameData(name: string)
    | StructData(structType: string)

  /** The elements of an array of structs: one simple struct value, or the
      property list of a complex struct. */
  datatype ArrayStructBody =
    | SimpleElements(simple: StructType)
    | TagElements(tags: seq<PropertyTag>)

  /** A decoded property payload (the `Tag` of a property tag). */
  datatype Value =
    | Nil
    | SimpleStruct(structValue: StructType)
    | TagList(tags: seq<PropertyTag>)
    | List(items: seq<Value>)
    | ArrayStruct(innerTagData: TagData, properties: ArrayStructBody)
    | PackageIndex(ref: Ref)
    | Opaque(scalar: Scalar)

  /** One decoded property: name, declared type tag, side data, payload. */
  datatype PropertyTag = PropertyTag(
    name: string,
    propertyType: string,
    tagData: TagData,
    tag: Value)

  /** One export together with its decoded properties. */
  datatype PakExportSet = PakExportSet(objectExport: ObjectExport, properties: seq<PropertyTag>)

  /** The asset summary fields the projection reads. */
  datatype AssetSummary = AssetSummary(fileName: string, guid: Guid)

  /** One decoded asset. */
  datatype PakEntrySet = PakEntrySet(summary: AssetSummary, exports: seq<PakExportSet>)
}
