/** The records the parsers produce and the detector consumes (`lib.d.ts`). */
module Data {
  import opened OrderedMap

  /** A key of an exports map. The parsers read names off syntax nodes; a node
      that is not an identifier has no name and yields JavaScript `undefined`,
      which a `Map` stores as a key like any other. */
  datatype Key = Name(name: string) | Undefined

  /** `ExportData`: where a name is exported and whether it is marked private. */
  datatype ExportData = ExportData(line: int, isPrivate: bool)

  /** `ExportsData = Map<string, ExportData>` */
  type ExportsData = Entries<Key, ExportData>

  /** `ImportData`: one binding introduced by an import declaration. */
  datatype ImportData = ImportData(fileDirname: string, from: string, isDefault: bool, isRenamed: bool, name: string)

  /** `ParseFileReturn`: what a file adapter returns. */
  datatype ParseFileReturn = ParseFileReturn(exports: ExportsData, imports: seq<ImportData>)

  /** One sighting of an exported name: `{ uri, line }`. */
  datatype Occurrence = Occurrence(uri: string, line: int)

  /** `{ line }`: what the first-generation parsers record per name. */
  datatype LineData = LineData(line: int)

  /** `Map.<string, { line: number }>` */
  type LinesData = Entries<Key, LineData>
}
