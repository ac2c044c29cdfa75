# Compact projection of decoded Unreal pak assets

This project models the compact projection of the ue4pak parser
(`parser/compact.go`). The projection takes one decoded asset (a
`PakEntrySet`: the asset's file name and GUID plus its exports, each with four
package-index references and a list of property tags) and produces a smaller,
human-readable shape:

- every package index becomes an optional (package, name) pair;
- every export's property tags become a map from property name to
  (type, value), with nested struct tag lists, array-of-struct elements and
  object references compacted recursively.

Modules:

- `Wrappers` (`wrappers.dfy`): `Option`, standing for Go's nil-able pointers.
- `PakTypes` (`pak_types.dfy`): the decoded records the projection reads,
  keeping only the fields it reads. Go's `interface{}` payloads become closed
  datatypes: `Ref` (no reference, an import, or an export slot that may be
  empty), `Value` (the property payload tree), `TagData` (a tag's side data).
- `Compact` (`compact.dfy`): the output types and the projection. The pure
  parts are functions. The three loops of the source are methods. The loop
  that fills the property map is proved equal to the function `PropertyMap`.
  The loop that fills a list's value slice is proved to give element i as the
  compaction of element i, as `CompactValues` does. The loop that fills the
  export slice is proved to copy the file name and GUID and to give element i
  as `MakeCompactExport` of export i.
- `CompactLemmas` (`compact_lemmas.dfy`): the last-write-wins reading of the
  property map, how it composes and how many entries it keeps, and the worked
  examples of the projection.

The Go code panics on a failed type assertion. The model turns each of those
panics into a precondition: `WellFormedRef`, `WellFormedTag`, `WellFormedTags`,
`WellFormedValue`, `WellFormedExport` and `WellFormedEntry`. These demand only
what the code asserts:

- an import's outer reference is itself an import (`parser/compact.go:61`);
- an enum tag's side data is a string (`:117`);
- a complex struct tag's side data is a struct type (`:123`);
- a non-simple array of structs carries a struct type in its inner tag data
  (`:164`).

Because `Ref` has exactly three variants, the "Unknown reference type" panic
at `:87` cannot be reached. The assertion at `:167` cannot fail either,
because `ArrayStructBody` is either a simple struct or a tag list.

## Model

| member | source | states |
|---|---|---|
| Compact.MakeCompactEntry | parser/compact.go:30-41 | one compact export per input export, same count and order, element i is the compaction of export i; file name and GUID copied unchanged; loop invariants prove it |
| Compact.MakeCompactExport | parser/compact.go:43-52 | name kept; class, super, template and outer are the compact references of the matching indices; properties are the property map of the export's tags, whose key set is the set of tag names |
| Compact.MakeCompactReference | parser/compact.go:54-88 | absent exactly when there is no reference; an import gives (its outer import's name, its own name); an export gives ("{{THIS PACKAGE}}", its name); an empty export slot gives ("{{THIS PACKAGE}}", "{{BROKEN/MISSING EXPORT}}") |
| Compact.MakePropertyMap | parser/compact.go:90-97 | the map built by inserting tags one at a time, in order, equals the property map `PropertyMap` |
| Compact.PropertyMap | parser/compact.go:90-97 | the key set of the property map is exactly the set of tag names |
| Compact.MakeCompactProperty | parser/compact.go:99-141 | dispatch order: a simple-struct payload wins over every type tag and gives (struct type, raw value); then BoolProperty gives (BoolProperty, side data); EnumProperty gives (enum type name, payload); StructProperty gives (struct type, nested map keyed by the nested tag names, or nil when the payload is not a tag list); any other tag keeps its type and compacts its payload |
| Compact.CompactValues | parser/compact.go:148-155 | a list compacts to a list of the same length whose element i is the compaction of element i |
| Compact.MakeListValues | parser/compact.go:150-154 | the loop that fills a fresh buffer gives the same length and element-wise compaction, order preserved |
| Compact.MakePropertyValue | parser/compact.go:143-180 | nil exactly for nil; a list exactly for a list, of the same length, whose element i is the compaction of element i, in order; a simple array-of-struct returns its struct unchanged; a complex array-of-struct gives (inner struct type, property map of its tags); a package index gives ("reference", compact reference); simple structs, tag lists and scalars pass through unchanged |
| CompactLemmas.LastWriteWins | parser/compact.go:92-94 | a tag that no later tag shadows is the one the map keeps under its name |
| CompactLemmas.PropertyMapIsLastWrite | parser/compact.go:90-97 | the property map equals the independent last-write map: keys are the tag names, each mapped to the compaction of the last tag with that name |
| CompactLemmas.PropertyMapConcat | parser/compact.go:92-94 | compacting a concatenation of tag lists is the right-biased union of the two maps: later duplicates overwrite earlier ones |
| CompactLemmas.PropertyMapSize | parser/compact.go:91-94 | the map has at most as many entries as there are tags, and exactly as many when names are distinct |
| CompactLemmas.CompactValuesConcat | parser/compact.go:150-153 | list compaction distributes over concatenation |
| CompactLemmas.ExportOuterNotFollowed | parser/compact.go:69-85 | an export reference depends only on the export's name, never on its own class, super, template or outer indices |
| CompactLemmas.BoolPropertyScenario | parser/compact.go:108-113 | a single BoolProperty "bEnabled" = true compacts to {"bEnabled": (BoolProperty, true)} |
| CompactLemmas.ImportReferenceScenario | parser/compact.go:59-66 | an import "Material" whose outer import is "/Script/Engine" compacts to ("/Script/Engine", "Material") |
| CompactLemmas.NullIndexScenario | parser/compact.go:55-57 | the null index compacts to no reference, not to a sentinel pair |
| CompactLemmas.BrokenExportScenario | parser/compact.go:72-77 | an empty export slot compacts to the broken-export sentinel pair |

## Left out

- `cmd/extract.go`: command-line flags, glob matching of pak paths and asset patterns, opening files, JSON marshalling and writing the output file. These are I/O and third-party library calls.
- The binary decoder that produces `PakEntrySet` (pak index, asset summary, name/import/export tables, property-tag reader) and package-index resolution. Their source is not part of this model. The model starts from already-resolved references.
- Go panics are not modelled as runtime failures. Each type assertion that can panic becomes a `WellFormed*` precondition, as listed above.
- The nil-dereference panics are excluded by the datatypes, not by preconditions. `Import` always carries a record, so the model has no nil import slot, either as a reference (`parser/compact.go:59-61`) or as an import's outer reference (`:61-64`). Tag lists hold tags, not nil pointers (`:93`), and the inner tag data of an array of structs is always present (`:164`). Unlike a nil export slot (`Export(None)`), which gives the broken-export sentinel pair, a nil import slot crashes the source.
- Pointer identity and sharing. Inputs and outputs are values, and import/export records are finite trees. The projection reads at most one step along an import's outer reference and never follows an export's, so cycles in the source's pointer graph do not change its result. The `&export` loop-variable address at `parser/compact.go:33` is only read during the call, so no aliasing arises.
- Go distinguishes a nil map stored in an interface from a nil interface. For a struct tag whose payload is not a tag list, the model gives `CNil`; both serialise as JSON `null`.
- The contents of simple structs and scalar payloads (vectors and colours hold floats). They are kept as opaque `Scalar` values and only passed through.
- The asset summary is reduced to the two fields read here (`Summary.Record.FileName`, `Summary.GUID`). The GUID pointer is copied as a value.
- The pure functions `MakeCompactExport` and `MakeCompactProperty` use the specification function `PropertyMap`, because a function cannot call a method. The loop method `MakePropertyMap` is proved equal to `PropertyMap`. Likewise, `MakePropertyValue` uses `CompactValues`, and `MakeListValues` is proved equal to it element by element.
