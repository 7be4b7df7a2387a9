/**
 * The slice of a Babel syntax tree that the fact detectors look at.
 *
 * A parsed file is represented by the sequence of node events that a
 * traversal visits, in traversal order; each event keeps only the fields of
 * its node that some detector reads. A child node has its own event after its
 * parent's (an exported function declaration gives an ExportDefault event and
 * then a Function event); nothing ties the two together here.
 */
module AstNodes {
  import opened JsText

  /** The `.value` of a StringLiteral, NumericLiteral or BooleanLiteral, by its typeof. */
  datatype Lit = LStr(str: string) | LNum(num: int) | LBool(b: bool)

  /** An expression, as far as the detectors look into it. */
  datatype Expr =
    | Ident(name: string)
    | ThisExpr
    | Literal(value: Lit)
    | NullLiteral
    | ObjectExpr(props: seq<ObjProp>)
    | ArrayExpr(elements: seq<Option<Expr>>)  // None is a hole: `[a, , b]`
    | MemberExpr(obj: Expr, prop: Expr, computed: bool)
    | OtherExpr

  /**
   * A member of an object literal: an ObjectProperty with its key already
   * turned into a property name (`key.name || key.value`), or a method or
   * spread element, which has no `value`.
   */
  datatype ObjProp = Property(key: string, value: Expr) | NoValueMember

  /** A property of an ObjectPattern: `{ a, b: c, "d": e }` or `...rest`. */
  datatype PatProp = KeyProp(keyName: Option<string>) | RestProp

  /** A binding pattern: a declarator's id or a function parameter. */
  datatype Pattern =
    | PIdent(name: string)
    | PObject(props: seq<PatProp>)
    | PArray(first: Option<string>)  // the name of the first element, if it is an identifier
    | POther                         // AssignmentPattern, RestElement, ...

  /**
   * The tag name of a JSX opening element; `<X.Provider>` is a member
   * expression, and `<a:b>` a namespaced name, whose `name` is itself an
   * identifier node rather than a string.
   */
  datatype JsxName = JIdent(name: string) | JMember | JNamespaced

  /** A node handed to getJSXElementName. */
  datatype JsxNode = JsxElement(opening: JsxName) | JsxFragment | OtherNode

  datatype FnKind = FnDeclaration | FnExpression | FnArrow

  /** The `init` of a variable declarator. */
  datatype Init =
    | NoInit
    | CallInit(callee: Expr, args: seq<Expr>)
    | FunctionInit(kind: FnKind, params: seq<Pattern>)
    | OtherInit

  /** The declaration of `export default ...`. */
  datatype DefaultDecl =
    | DFunction(kind: FnKind, id: Option<string>, params: seq<Pattern>)
    | DClass(id: Option<string>)
    | DIdent(name: string)
    | DCall(callee: Expr, args: seq<Expr>)
    | DOther

  /** The declaration of `export ...` (absent for `export { a, b }`). */
  datatype NamedDecl =
    | NFunction(id: Option<string>, params: seq<Pattern>)
    | NClass(id: Option<string>)
    | NVariables(declarators: seq<Declarator>)
    | NOther

  datatype Declarator = Declarator(id: Pattern, init: Init)

  /** One visited node. */
  datatype Event =
    | ImportDecl(source: string, locals: seq<string>)
    | ExportDefault(defaultDecl: DefaultDecl)
    | ExportNamed(namedDecl: Option<NamedDecl>, exported: seq<Option<string>>)
    | VarDecl(d: Declarator)
    | Call(callee: Expr, args: seq<Expr>, declaredAs: Option<Pattern>)  // declaredAs: the id when the call is a declarator's init
    | Binary(op: string, left: Expr, right: Expr)
    | SwitchCase(discriminant: Expr, caseTest: Option<Expr>)
    | AssignPattern(target: Pattern, defaultExpr: Expr)
    | Unary(op: string, argument: Expr)
    | If(condition: Expr)
    | Member(m: Expr)  // always a MemberExpr
    | JsxOpen(name: JsxName)
    | Function(kind: FnKind, params: seq<Pattern>)
    | OtherEvent

  /** `node.name`: defined for identifiers only. */
  function NameOf(e: Expr): (r: Option<string>)
    ensures r.Some? <==> e.Ident?
  {
    if e.Ident? then Some(e.name) else None
  }

  /** `node.value`: defined for the three literal kinds only. */
  function ValueOf(e: Expr): (r: Option<Lit>)
    ensures r.Some? <==> e.Literal?
  {
    if e.Literal? then Some(e.value) else None
  }

  /** `pattern.name`: defined for an identifier pattern only. */
  function PatternName(p: Pattern): (r: Option<string>)
    ensures r.Some? <==> p.PIdent?
  {
    if p.PIdent? then Some(p.name) else None
  }

  /** The text JavaScript uses for an absent name used as a property key. */
  function KeyOf(name: Option<string>): string
  {
    if name.Some? then name.value else "undefined"
  }

  /** A JavaScript string is truthy when it is not empty. */
  predicate Truthy(name: Option<string>)
  {
    name.Some? && name.value != ""
  }
}
