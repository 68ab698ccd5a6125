/** The part of Python's syntax tree that the runner inspects.  `ast.parse`
    and `ast.walk` are not modelled: a parse outcome carries the nodes in the
    order `ast.walk` yields them (breadth first, not source order). */
module Syntax {
  import opened Python

  /** The `func` of an `ast.Call`. */
  datatype Callee =
    | Name(id: string)        // f(...)
    | Attribute(attr: string) // obj.f(...)
    | OtherCallee             // (lambda: 0)(), xs[0](), ...

  /** A syntax node; only calls and imports matter, every other node is `Other`.
      Import aliases are kept by their dotted `name` (the `as` name plays no part). */
  datatype Node =
    | Call(func: Callee)
    | Import(names: seq<string>)                           // import a.b, c as d
    | ImportFrom(fromModule: Option<string>, names: seq<string>) // from a.b import c, d
    | Other

  /** What `ast.parse` gives: the message of its `SyntaxError`, or the walked tree. */
  datatype ParseOutcome = SyntaxError(msg: string) | Parsed(nodes: seq<Node>)
}
