/** `AgentRun.safety_check`: a deny-list scan over the walked syntax tree that
    reports the first offending node, followed by the restricted-compile pass
    (RestrictedPython), whose verdict is an input here. */
module Safety {
  import opened Python
  import opened Syntax

  const UnsafeModules: set<string> := {"os", "sys", "subprocess", "builtins"}
  const UnsafeFunctions: set<string> :=
    {"exec", "eval", "compile", "open", "input", "__import__", "getattr", "setattr", "delattr", "hasattr"}
  const DangerousBuiltins: set<string> := {"globals", "locals", "vars", "dir", "eval", "exec", "compile"}

  const SafeMessage := "The code is safe to execute."
  function SyntaxErrorMsg(msg: string): string { "Syntax error: " + msg }
  function DangerousBuiltinMsg(name: string): string { "Use of dangerous built-in function: " + name }
  function UnsafeImportMsg(name: string): string { "Unsafe module import: " + name }
  function UnsafeCallMsg(name: string): string { "Unsafe function call: " + name }
  function RestrictedMsg(msg: string): string { "RestrictedPython detected " + "an unsafe pattern: " + msg }

  /** The `{"safe": ..., "message": ...}` dictionary. */
  datatype SafetyResult = SafetyResult(safe: bool, message: string)

  /** `module_name and module_name.split(".")[0] in unsafe_modules` */
  predicate ModuleUnsafe(fromModule: Option<string>) {
    fromModule.Some? && fromModule.value != "" && TopSegment(fromModule.value) in UnsafeModules
  }

  predicate AliasUnsafe(name: string) {
    TopSegment(name) in UnsafeModules
  }

  /** The loop over `node.names`: each alias first tests the `from` module, then itself. */
  function ImportViolation(fromModule: Option<string>, names: seq<string>): (r: Option<string>)
    ensures r.None? <==> names == [] || (!ModuleUnsafe(fromModule) && forall i :: 0 <= i < |names| ==> !AliasUnsafe(names[i]))
    ensures names != [] && ModuleUnsafe(fromModule) ==> r == Some(UnsafeImportMsg(fromModule.value))
    ensures !ModuleUnsafe(fromModule) && r.Some? ==>
      exists i :: 0 <= i < |names| && AliasUnsafe(names[i]) && r == Some(UnsafeImportMsg(names[i]))
                  && forall j :: 0 <= j < i ==> !AliasUnsafe(names[j])
  {
    if names == [] then None
    else if ModuleUnsafe(fromModule) then Some(UnsafeImportMsg(fromModule.value))
    else if AliasUnsafe(names[0]) then Some(UnsafeImportMsg(names[0]))
    else
      var rest := ImportViolation(fromModule, names[1..]);
      assert forall i :: 1 <= i < |names| ==> names[i] == names[1..][i - 1];
      rest
  }

  /** The checks made on one node, in the order the source makes them. */
  function NodeViolation(n: Node): Option<string> {
    match n
    case Call(Name(id)) =>
      if id in DangerousBuiltins then Some(DangerousBuiltinMsg(id))
      else if id in UnsafeFunctions then Some(UnsafeCallMsg(id))
      else None
    case Call(Attribute(attr)) =>
      if attr in UnsafeFunctions then Some(UnsafeCallMsg(attr)) else None
    case Call(OtherCallee) => None
    case Import(names) => ImportViolation(None, names)
    case ImportFrom(fromModule, names) => ImportViolation(fromModule, names)
    case Other => None
  }

  /** The position, in walk order, of the first node that violates. */
  function FirstViolating(nodes: seq<Node>): (r: Option<nat>)
    ensures r.None? <==> forall i :: 0 <= i < |nodes| ==> NodeViolation(nodes[i]).None?
    ensures r.Some? ==> r.value < |nodes| && NodeViolation(nodes[r.value]).Some?
                        && forall j :: 0 <= j < r.value ==> NodeViolation(nodes[j]).None?
  {
    if nodes == [] then None
    else if NodeViolation(nodes[0]).Some? then Some(0)
    else
      var rest := FirstViolating(nodes[1..]);
      assert forall i :: 1 <= i < |nodes| ==> nodes[i] == nodes[1..][i - 1];
      match rest
      case None => None
      case Some(k) => Some(k + 1)
  }

  /** `safety_check` on code whose parse is `parsed` and whose restricted
      compilation raises with message `restricted` (None: it compiles). */
  function SafetyCheck(parsed: ParseOutcome, restricted: Option<string>): (r: SafetyResult)
    ensures parsed.SyntaxError? ==> r == SafetyResult(false, SyntaxErrorMsg(parsed.msg))
    ensures r.safe <==> parsed.Parsed? && restricted.None?
                        && forall i :: 0 <= i < |parsed.nodes| ==> NodeViolation(parsed.nodes[i]).None?
    ensures r.safe ==> r.message == SafeMessage
    ensures parsed.Parsed? ==>
      forall i :: 0 <= i < |parsed.nodes| && NodeViolation(parsed.nodes[i]).Some?
                  && (forall j :: 0 <= j < i ==> NodeViolation(parsed.nodes[j]).None?)
                  ==> r == SafetyResult(false, NodeViolation(parsed.nodes[i]).value)
    ensures parsed.Parsed? && restricted.Some?
            && (forall i :: 0 <= i < |parsed.nodes| ==> NodeViolation(parsed.nodes[i]).None?)
            ==> r == SafetyResult(false, RestrictedMsg(restricted.value))
  {
    match parsed
    case SyntaxError(msg) => SafetyResult(false, SyntaxErrorMsg(msg))
    case Parsed(nodes) =>
      match FirstViolating(nodes)
      case Some(i) => SafetyResult(false, NodeViolation(nodes[i]).value)
      case None =>
        if restricted.Some? then SafetyResult(false, RestrictedMsg(restricted.value))
        else SafetyResult(true, SafeMessage)
  }

  /** A bare call to eval, exec or compile is reported as a dangerous built-in,
      and its message is not an "Unsafe function call" message for any name. */
  lemma BareEvalIsDangerousBuiltin(id: string, other: string)
    requires id in {"eval", "exec", "compile"}
    ensures NodeViolation(Call(Name(id))) == Some(DangerousBuiltinMsg(id))
    ensures DangerousBuiltinMsg(id) != UnsafeCallMsg(other)
  {
    assert DangerousBuiltinMsg(id)[2] == 'e';
    assert UnsafeCallMsg(other)[2] == 's';
  }

  /** A bare call is tested against the dangerous built-ins first, then against
      the unsafe functions; a name on neither list passes. */
  lemma BareCallReported(id: string)
    ensures id in DangerousBuiltins ==> NodeViolation(Call(Name(id))) == Some(DangerousBuiltinMsg(id))
    ensures id !in DangerousBuiltins && id in UnsafeFunctions ==> NodeViolation(Call(Name(id))) == Some(UnsafeCallMsg(id))
    ensures NodeViolation(Call(Name(id))).None? <==> id !in DangerousBuiltins && id !in UnsafeFunctions
  {
  }

  /** A call through an attribute (`obj.eval(...)`, `f.open(...)`) is reported
      as an unsafe function call naming the attribute; dangerous built-ins are
      only recognised as bare names. */
  lemma AttributeCallReportsUnsafeFunction(attr: string)
    ensures attr in UnsafeFunctions ==> NodeViolation(Call(Attribute(attr))) == Some(UnsafeCallMsg(attr))
    ensures attr !in UnsafeFunctions ==> NodeViolation(Call(Attribute(attr))).None?
  {
  }

  /** `from M import ...` with an unsafe top segment of M reports the whole of M,
      whatever the aliases are; `import A` reports the whole alias string. */
  lemma ImportMessagesReportFullNames(m: string, names: seq<string>, alias: string)
    requires names != [] && m != "" && TopSegment(m) in UnsafeModules
    requires AliasUnsafe(alias)
    ensures NodeViolation(ImportFrom(Some(m), names)) == Some(UnsafeImportMsg(m))
    ensures NodeViolation(Import([alias])) == Some(UnsafeImportMsg(alias))
  {
  }

  /** The safe message and the five rejection message families are told apart
      by their text. */
  lemma MessageFamiliesDistinct(a: string, b: string)
    ensures DangerousBuiltinMsg(a) != UnsafeCallMsg(b)
    ensures DangerousBuiltinMsg(a) != UnsafeImportMsg(b)
    ensures UnsafeImportMsg(a) != UnsafeCallMsg(b)
    ensures SyntaxErrorMsg(a) != RestrictedMsg(b)
    ensures SafeMessage != SyntaxErrorMsg(a) && SafeMessage != RestrictedMsg(a)
    ensures SafeMessage != DangerousBuiltinMsg(a) && SafeMessage != UnsafeImportMsg(a) && SafeMessage != UnsafeCallMsg(a)
    ensures SyntaxErrorMsg(a) != DangerousBuiltinMsg(b) && SyntaxErrorMsg(a) != UnsafeImportMsg(b)
            && SyntaxErrorMsg(a) != UnsafeCallMsg(b)
    ensures RestrictedMsg(a) != DangerousBuiltinMsg(b) && RestrictedMsg(a) != UnsafeImportMsg(b)
            && RestrictedMsg(a) != UnsafeCallMsg(b)
  {
    assert DangerousBuiltinMsg(a)[2] == 'e' && UnsafeCallMsg(b)[2] == 's' && UnsafeImportMsg(b)[2] == 's';
    assert UnsafeImportMsg(a)[7] == 'm' && UnsafeCallMsg(b)[7] == 'f';
    assert DangerousBuiltinMsg(a)[0] == 'U' && UnsafeImportMsg(a)[0] == 'U' && UnsafeCallMsg(a)[0] == 'U';
    assert DangerousBuiltinMsg(b)[0] == 'U' && UnsafeImportMsg(b)[0] == 'U' && UnsafeCallMsg(b)[0] == 'U';
    assert SyntaxErrorMsg(a)[0] == 'S';
    assert RestrictedMsg(b)[0] == 'R';
    assert RestrictedMsg(a)[0] == 'R';
    assert SafeMessage[0] == 'T';
  }

  // Cases from the project's own tests, with the nodes in ast.walk order.

  /** `from os import path` is reported by its module. */
  lemma FromOsImportExample()
    ensures SafetyCheck(Parsed([ImportFrom(Some("os"), ["path"]), Other, Call(Name("print"))]), None)
            == SafetyResult(false, "Unsafe module import: os")
  {
    assert TopSegment("os") == "os";
    assert NodeViolation(ImportFrom(Some("os"), ["path"])) == Some(UnsafeImportMsg("os"));
  }

  /** `import os.path` is reported with the full alias. */
  lemma ImportOsPathExample()
    ensures SafetyCheck(Parsed([Import(["os.path"]), Other, Call(Name("print")), Call(Attribute("join"))]), None)
            == SafetyResult(false, "Unsafe module import: os.path")
  {
    assert NodeViolation(Import(["os.path"])) == Some(UnsafeImportMsg("os.path")) by {
      assert "os.path" == "os" + "." + "path";
      TopSegmentOfDotted("os", "path");
      assert AliasUnsafe(["os.path"][0]);
    }
    assert UnsafeImportMsg("os.path") == "Unsafe module import: os.path";
  }

  /** `eval('...', {'os': __import__('os')})`: the outer call is walked first,
      so the dangerous built-in wins over the nested `__import__` call. */
  lemma EvalBeforeNestedImportExample()
    ensures SafetyCheck(Parsed([Other, Call(Name("eval")), Call(Name("__import__"))]), None)
            == SafetyResult(false, "Use of dangerous built-in function: eval")
  {
    assert NodeViolation(Other).None?;
    assert NodeViolation(Call(Name("eval"))) == Some(DangerousBuiltinMsg("eval"));
  }

  /** The texts of the messages the examples below expect. */
  lemma ExampleMessageTexts()
    ensures UnsafeCallMsg("__import__") == "Unsafe function call: __import__"
    ensures UnsafeCallMsg("open") == "Unsafe function call: open"
    ensures DangerousBuiltinMsg("globals") == "Use of dangerous built-in function: globals"
  {
  }

  /** `__import__(mod_name).system('ls')`: the outer method call passes, and the
      bare `__import__` call is an unsafe function call. */
  lemma DunderImportExample()
    ensures SafetyCheck(Parsed([Other, Other, Call(Attribute("system")), Call(Name("__import__"))]), None)
            == SafetyResult(false, "Unsafe function call: __import__")
  {
    var nodes := [Other, Other, Call(Attribute("system")), Call(Name("__import__"))];
    assert NodeViolation(nodes[2]).None?;
    assert NodeViolation(nodes[3]) == Some(UnsafeCallMsg("__import__"));
    assert forall j :: 0 <= j < 3 ==> NodeViolation(nodes[j]).None?;
    assert SafetyCheck(Parsed(nodes), None) == SafetyResult(false, UnsafeCallMsg("__import__"));
    ExampleMessageTexts();
  }

  /** `globals()[chr(111)+chr(115)].system(...)`: `globals` is a dangerous built-in. */
  lemma GlobalsExample()
    ensures SafetyCheck(Parsed([Other, Call(Attribute("system")), Other, Call(Name("globals")), Call(Name("chr"))]), None)
            == SafetyResult(false, "Use of dangerous built-in function: globals")
  {
    var nodes := [Other, Call(Attribute("system")), Other, Call(Name("globals")), Call(Name("chr"))];
    assert NodeViolation(nodes[1]).None?;
    assert NodeViolation(nodes[3]) == Some(DangerousBuiltinMsg("globals"));
    assert forall j :: 0 <= j < 3 ==> NodeViolation(nodes[j]).None?;
    assert SafetyCheck(Parsed(nodes), None) == SafetyResult(false, DangerousBuiltinMsg("globals"));
    ExampleMessageTexts();
  }

  /** `with open('secret_file.txt', 'r') as file: ...`: `open` is an unsafe function. */
  lemma OpenExample()
    ensures SafetyCheck(Parsed([Other, Other, Other, Other, Call(Name("open")), Other, Call(Name("print"))]), None)
            == SafetyResult(false, "Unsafe function call: open")
  {
    var nodes := [Other, Other, Other, Other, Call(Name("open")), Other, Call(Name("print"))];
    assert NodeViolation(nodes[4]) == Some(UnsafeCallMsg("open"));
    assert forall j :: 0 <= j < 4 ==> NodeViolation(nodes[j]).None?;
    assert SafetyCheck(Parsed(nodes), None) == SafetyResult(false, UnsafeCallMsg("open"));
    ExampleMessageTexts();
  }
}
