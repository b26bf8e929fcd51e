/** A dependency of the generated C file: a header, either a system header
    (`<...>`) or a source header (`"..."`), optionally with a library to
    link against. */
module CDependencies {
  import opened Options

  datatype DependencyType = System | Source

  /** Equality of dependencies is datatype equality: type, include and link. */
  datatype Dependency = Dependency(kind: DependencyType, includePath: string, link: Option<string>)
  {
    predicate RequiresLink() { link.Some? }
  }

  /** `Dependency(type, include)`: nothing to link. */
  function Unlinked(kind: DependencyType, includePath: string): (d: Dependency)
    ensures d.kind == kind && d.includePath == includePath
    ensures !d.RequiresLink() && d.link == None
  {
    Dependency(kind, includePath, None)
  }

  /** `Dependency(type, include, link)`: links against `link`. */
  function Linked(kind: DependencyType, includePath: string, link: string): (d: Dependency)
    ensures d.kind == kind && d.includePath == includePath
    ensures d.RequiresLink() && d.link == Some(link)
  {
    Dependency(kind, includePath, Some(link))
  }

  /** Two dependencies are equal exactly when their type, include and link
      are; so a linked and an unlinked dependency are never equal. */
  lemma EqualityIsFieldwise(a: Dependency, b: Dependency)
    ensures a == b <==> a.kind == b.kind && a.includePath == b.includePath && a.link == b.link
    ensures a.RequiresLink() != b.RequiresLink() ==> a != b
  {
  }
}
