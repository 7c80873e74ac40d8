/** The top-level statements of a JavaScript (Flow) module as the Babel parser
    produces them, reduced to what the export extractors read. The parser is
    not modelled: a parsed file is a `seq<Statement>` whose nodes already
    carry their names and the 1-based start line of their location (`None`
    when a node has no location). */
module BabelAst {
  import opened Base
  import opened Data

  /** The name in an import or export specifier: an identifier or, in
      `export { x as "string name" }`, a string literal. */
  datatype ModuleExportName =
    | Identifier(name: string, loc: Option<nat>)
    | StringLiteral(value: string, loc: Option<nat>)

  /** The Map key that reading `.name` off the node yields: string literals
      have no `name`, so they yield `undefined`. */
  function NameKey(n: ModuleExportName): (k: Key)
    ensures k.Name? <==> n.Identifier?
    ensures n.Identifier? ==> k.name == n.name
  {
    if n.Identifier? then Name(n.name) else Undefined
  }

  /** `import x`, `import { imported as local }`, `import * as local`. */
  datatype ImportSpecifierNode =
    | ImportDefaultSpecifier(local: string)
    | ImportSpecifier(imported: ModuleExportName, local: string)
    | ImportNamespaceSpecifier(local: string)

  /** `export { local as exported }`, and the two specifier forms of the
      export-extension proposals: `export v from "…"` and `export * as ns from "…"`. */
  datatype ExportSpecifierNode =
    | ExportSpecifier(local: ModuleExportName, exported: ModuleExportName)
    | ExportDefaultSpecifier(exported: ModuleExportName)
    | ExportNamespaceSpecifier(exported: ModuleExportName)

  /** The binding of a variable declarator: an identifier or a pattern
      (`ObjectPattern`, `ArrayPattern`, …) with its node type. */
  datatype Pattern = IdentifierPattern(name: string) | OtherPattern(patternType: string)

  datatype VariableDeclarator = VariableDeclarator(id: Pattern, loc: Option<nat>)

  /** What follows `export` or `export default`. `OtherDeclaration` is any
      other node — an expression after `export default`, a `declare`
      statement, … — with its Babel `type`. */
  datatype Declaration =
    | VariableDeclaration(declarations: seq<VariableDeclarator>)
    | FunctionDeclaration(id: Option<string>, loc: Option<nat>)
    | ClassDeclaration(id: Option<string>, loc: Option<nat>)
    | TypeAlias(aliasId: string, loc: Option<nat>)
    | InterfaceDeclaration(aliasId: string, loc: Option<nat>)
    | OtherDeclaration(nodeType: string, loc: Option<nat>)

  /** The Babel `type` of a declaration node. */
  function DeclarationType(d: Declaration): string {
    match d
    case VariableDeclaration(_) => "VariableDeclaration"
    case FunctionDeclaration(_, _) => "FunctionDeclaration"
    case ClassDeclaration(_, _) => "ClassDeclaration"
    case TypeAlias(_, _) => "TypeAlias"
    case InterfaceDeclaration(_, _) => "InterfaceDeclaration"
    case OtherDeclaration(t, _) => t
  }

  /** Top-level statements. `leadingComments` holds the text of each comment
      before the statement, or `None` when Babel attaches none. */
  datatype Statement =
    | ImportDeclaration(importSource: string, importSpecifiers: seq<ImportSpecifierNode>)
    | ExportNamedDeclaration(declaration: Option<Declaration>, specifiers: seq<ExportSpecifierNode>,
                             source: Option<string>, leadingComments: Option<seq<string>>)
    | ExportDefaultDeclaration(defaultDeclaration: Declaration, leadingComments: Option<seq<string>>)
    | ExportAllDeclaration(allSource: string)
    | OtherStatement(statementType: string)
}
