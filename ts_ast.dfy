/** The top-level statements of a TypeScript source file, as far as the
    export extractors look at them. The TypeScript parser is not modelled:
    a parsed file is a `seq<Statement>`, and every node already carries its
    identifiers' `escapedText` and the 0-based line on which its position
    (`pos`) falls. */
module TsAst {
  import opened Base

  /** An identifier with the 0-based line of its position. */
  datatype Identifier = Identifier(escapedText: string, posLine: nat)

  /** The named declarations that are recorded under their `name`. */
  datatype DeclarationKind = ClassDeclaration | EnumDeclaration | FunctionDeclaration | InterfaceDeclaration

  /** The qualifier of an `import("…").Q` type: an identifier or a dotted name. */
  datatype EntityName = QualifierIdentifier(escapedText: string) | QualifiedName

  /** The aliased type of a type alias; only `import("…")` types matter. */
  datatype TypeNode = ImportTypeNode(qualifier: Option<EntityName>) | OtherTypeNode

  /** The name of a variable declarator: an identifier or a destructuring pattern. */
  datatype BindingName = BindingIdentifier(escapedText: string) | BindingPattern

  /** One declarator of a variable statement, with the line of its own position. */
  datatype VariableDeclaration = VariableDeclaration(name: BindingName, posLine: nat)

  /** `name` or `propertyName as name` inside `import { … }`. */
  datatype ImportSpecifier = ImportSpecifier(propertyName: Option<string>, name: string)

  /** `{ … }` or `* as name` after the default binding of an import. */
  datatype NamedImportBindings =
    | NamedImports(elements: seq<ImportSpecifier>)
    | NamespaceImport(name: string)

  /** The clause of an import: the default binding and the named bindings. */
  datatype ImportClause = ImportClause(name: Option<string>, namedBindings: Option<NamedImportBindings>)

  /** `name` or `propertyName as name` inside `export { … }`; the line is
      that of the specifier's own position. */
  datatype ExportSpecifier = ExportSpecifier(propertyName: Option<string>, name: string, posLine: nat)

  /** `{ … }` or `* as name` of an export declaration. */
  datatype ExportClause =
    | NamedExports(elements: seq<ExportSpecifier>)
    | NamespaceExport(name: string)

  /** The statement kinds. An `ImportDeclaration`'s `moduleSpecifier` is
      `None` when the parser did not find a string literal there; an
      `ExportDeclaration`'s is `None` when there is no `from` clause.
      `OtherStatement` carries the number of its syntax kind. */
  datatype Node =
    | ImportDeclaration(importClause: Option<ImportClause>, moduleSpecifier: Option<string>)
    | NamedDeclaration(declarationKind: DeclarationKind, name: Option<Identifier>)
    | TypeAliasDeclaration(aliasName: Identifier, aliasedType: TypeNode)
    | VariableStatement(declarations: seq<VariableDeclaration>)
    | ExportDeclaration(exportClause: Option<ExportClause>, moduleSpecifier: Option<string>)
    | OtherStatement(syntaxKind: int)

  /** A statement: its node, whether an `export` keyword is among its
      modifiers, whether a JSDoc `@private` tag is attached to it, and the
      0-based line of the statement's own position. */
  datatype Statement = Statement(node: Node, hasExportModifier: bool, isPrivate: bool, posLine: nat)

  /** An export declaration, or a statement with the `export` modifier. */
  predicate IsExported(st: Statement) {
    st.node.ExportDeclaration? || st.hasExportModifier
  }
}
