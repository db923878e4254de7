// What a dump consists of: the manifest's artifacts, and the objects they name.

module DumpFormat {
  import opened Common

  datatype ArtifactKind = Meta | Structural | ViewDefinition | Content

  datatype Artifact = Artifact(
    path: string, kind: ArtifactKind, vpack: bool,
    collection: Option<string>, view: Option<string>, database: Option<string>)

  datatype Manifest = Manifest(database: string, createdAt: string, encrypted: bool, artifacts: seq<Artifact>)

  datatype Index = Index(name: string, kind: string)

  // A collection's parameters and indexes. Only the name and the type are read.
  datatype Structure = Structure(name: string, isEdge: bool, indexes: seq<Index>)

  // A view definition: its type, the collections its links name, and the indexes it
  // lists as collection and index name.
  datatype View = View(name: Option<string>, kind: string, links: seq<string>, indexes: seq<(string, string)>)

  datatype Object = StructureObject(structure: Structure) | DataObject(body: Bytes) | ViewObject(view: View)

  type Objects = map<string, Object>

  predicate IsSearchAlias(v: View) { v.kind == "search-alias" }

  // The primary and edge indexes come with the collection.
  predicate Implicit(i: Index) { i.kind == "primary" || i.kind == "edge" }

  function OwnIndexes(indexes: seq<Index>): seq<Index> {
    if indexes == [] then []
    else OwnIndexes(indexes[..|indexes| - 1]) + if Implicit(indexes[|indexes| - 1]) then [] else [indexes[|indexes| - 1]]
  }

  // Identity of a dump for the resume checkpoint.
  function PathList(artifacts: seq<Artifact>): string {
    if artifacts == [] then [] else PathList(artifacts[..|artifacts| - 1]) + artifacts[|artifacts| - 1].path + ","
  }

  function Fingerprint(m: Manifest): string { m.database + "|" + m.createdAt + "|" + PathList(m.artifacts) }
}
