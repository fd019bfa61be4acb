/** The vocabulary of the ISelectorGenerator callback interface: one value
    per operation the selector parser reports, with that operation's
    arguments. The productions follow W3C Selectors Level 3. */
module SelectorEvents {
  import opened Wrappers

  /** An optional namespace binding attached to a qualified name. The tee
      only passes it along and never looks inside it, so it is kept as an
      opaque value: `text` is None when no prefix was written. */
  datatype NamespacePrefix = NamespacePrefix(text: Option<string>)

  const NoPrefix := NamespacePrefix(None)

  /** One call of the ISelectorGenerator interface. */
  datatype Event =
      // lifecycle of one parse
    | OnInit
    | OnClose
      // start of each selector in a comma-separated group
    | OnSelector
      // type and universal selectors
    | Type(prefix: NamespacePrefix, name: string)
    | Universal
      // id and class selectors
    | Id(id: string)
    | Class(clazz: string)
      // the seven attribute selectors of section 6.3 of Selectors Level 3
    | AttributeExists(prefix: NamespacePrefix, name: string)
    | AttributeExact(prefix: NamespacePrefix, name: string, value: string)
    | AttributeIncludes(prefix: NamespacePrefix, name: string, value: string)
    | AttributeDashMatch(prefix: NamespacePrefix, name: string, value: string)
    | AttributePrefixMatch(prefix: NamespacePrefix, name: string, value: string)
    | AttributeSuffixMatch(prefix: NamespacePrefix, name: string, value: string)
    | AttributeSubstring(prefix: NamespacePrefix, name: string, value: string)
      // structural pseudo-classes of section 6.6.5
    | FirstChild
    | LastChild
    | NthChild(a: int, b: int)
    | OnlyChild
    | Empty
      // the four combinators of section 8
    | Child
    | Descendant
    | Adjacent
    | GeneralSibling
}
