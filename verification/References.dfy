/**
  The generator of light references (refs.py): from the syntax tree of a module to the lines of the
  generated one, and what evaluating those lines binds.
 */
module References {
  import opened Wrappers

  // ---- Source modules -------------------------------------------------------------------------------

  /**
    What an expression evaluates to when the module is imported: a string, None, a dictionary with string keys,
    something with a module and a name of its own (a function, a class), or anything else.  Things that Python finds
    equal have one `id`.
   */
  datatype Value =
    | Text(s: string)
    | Nothing
    | Dict(entries: map<string, Value>)
    | Named(id: nat, fullName: string)
    | Thing(id: nat, hashable: bool)

  /** The generator sees string literals and nothing else; importing sees the value. */
  datatype Expr = Literal(s: string) | Computed(value: Value)

  /** `arg` is missing for `**expr`. */
  datatype Keyword = Keyword(arg: Option<string>, value: Expr)

  /**
    A plain name, a call of a plain name, or anything else.  `positional` are the values passed by
    position, starred ones unpacked; the generator does not look at them.
   */
  datatype Decorator =
    | Bare(id: string)
    | Called(id: string, positional: seq<Value>, keywords: seq<Keyword>)
    | Unnamed

  /** A top-level statement: a function definition with its decorators, outermost first, or anything else. */
  datatype Stmt = Function(name: string, decorators: seq<Decorator>) | NotAFunction

  type Source = seq<Stmt>

  datatype Result<T> = Ok(value: T) | ValueError

  datatype Kind = Rpc | Queue | Broadcast

  datatype Task = Task(kind: Kind, namespace: string, name: string)

  function KeywordsOf(d: Decorator): seq<Keyword> { if d.Called? then d.keywords else [] }

  predicate IsOption(k: Keyword) { k.arg == Some("name") || k.arg == Some("namespace") }

  // ---- The generator --------------------------------------------------------------------------------

  datatype Reference = Reference(functionName: string, factory: string, task: string, namespace: Option<string>)

  datatype Info = Info(factory: string, options: map<string, string>)

  function FactoryOf(id: string): Option<string>
  {
    if id == "atask" then Some("ataskref")
    else if id == "atask_queue" then Some("atask_qref")
    else if id == "atask_broadcast" then Some("atask_bref")
    else None
  }

  function Options(keywords: seq<Keyword>): Result<map<string, string>>
  {
    if keywords == [] then Ok(map[])
    else
      var k, before := keywords[|keywords| - 1], Options(keywords[..|keywords| - 1]);
      if before.ValueError? || !IsOption(k) then before
      else if k.value.Literal? then Ok(before.value[k.arg.value := k.value.s])
      else ValueError
  }

  function DecoratorInfo(d: Decorator): Result<Option<Info>>
  {
    if d.Unnamed? || FactoryOf(d.id).None? then Ok(None)
    else
      match Options(KeywordsOf(d))
      case ValueError => ValueError
      case Ok(options) => Ok(Some(Info(FactoryOf(d.id).value, options)))
  }

  function FirstInfo(ds: seq<Decorator>): Result<Option<Info>>
  {
    if ds == [] then Ok(None)
    else if DecoratorInfo(ds[0]) == Ok(None) then FirstInfo(ds[1..])
    else DecoratorInfo(ds[0])
  }

  function ReferenceOf(moduleName: string, name: string, info: Info): Reference
  {
    Reference(name, info.factory,
              if "name" in info.options then info.options["name"] else moduleName + "." + name,
              if "namespace" in info.options then Some(info.options["namespace"]) else None)
  }

  function StmtReferences(moduleName: string, stmt: Stmt): Result<seq<Reference>>
  {
    if stmt.NotAFunction? then Ok([])
    else
      match FirstInfo(stmt.decorators)
      case ValueError => ValueError
      case Ok(None) => Ok([])
      case Ok(Some(info)) => Ok([ReferenceOf(moduleName, stmt.name, info)])
  }

  function SourceReferences(moduleName: string, source: Source): Result<seq<Reference>>
  {
    if source == [] then Ok([])
    else
      var before := SourceReferences(moduleName, source[..|source| - 1]);
      if before.ValueError? then ValueError
      else
        match StmtReferences(moduleName, source[|source| - 1])
        case ValueError => ValueError
        case Ok(more) => Ok(before.value + more)
  }

  lemma {:induction false} OptionsFail(keywords: seq<Keyword>, k: nat)
    requires k <= |keywords| && Options(keywords[..k]).ValueError?
    ensures Options(keywords).ValueError?
    decreases |keywords|
  {
    if k == |keywords| {
      assert keywords[..k] == keywords;
    } else {
      assert keywords[..|keywords| - 1][..k] == keywords[..k];
      OptionsFail(keywords[..|keywords| - 1], k);
    }
  }

  lemma {:induction false} SourceFails(moduleName: string, source: Source, k: nat)
    requires k <= |source| && SourceReferences(moduleName, source[..k]).ValueError?
    ensures SourceReferences(moduleName, source).ValueError?
    decreases |source|
  {
    if k == |source| {
      assert source[..k] == source;
    } else {
      assert source[..|source| - 1][..k] == source[..k];
      SourceFails(moduleName, source[..|source| - 1], k);
    }
  }

  /** refs.py:15-34 */
  method FindDecoratorInfo(d: Decorator) returns (r: Result<Option<Info>>)
    ensures r == DecoratorInfo(d)
  {
    if d.Unnamed? || FactoryOf(d.id).None? {
      return Ok(None);
    }
    var keywords := if d.Called? then d.keywords else [];
    var options: map<string, string> := map[];
    for i := 0 to |keywords|
      invariant Options(keywords[..i]) == Ok(options)
    {
      assert keywords[..i + 1][..i] == keywords[..i];
      if IsOption(keywords[i]) {
        if !keywords[i].value.Literal? {
          OptionsFail(keywords, i + 1);
          return ValueError;
        }
        options := options[keywords[i].arg.value := keywords[i].value.s];
      }
    }
    assert keywords[..|keywords|] == keywords;
    r := Ok(Some(Info(FactoryOf(d.id).value, options)));
  }

  /** refs.py:37-55 */
  method TaskReferences(moduleName: string, source: Source) returns (r: Result<seq<Reference>>)
    ensures r == SourceReferences(moduleName, source)
  {
    var references: seq<Reference> := [];
    for i := 0 to |source|
      invariant SourceReferences(moduleName, source[..i]) == Ok(references)
    {
      assert source[..i + 1][..i] == source[..i];
      var node := source[i];
      assert references + [] == references;
      if node.NotAFunction? { continue; }
      assert node.decorators[0..] == node.decorators;
      ghost var first := FirstInfo(node.decorators);
      var j := 0;
      while j < |node.decorators|
        invariant 0 <= j <= |node.decorators|
        invariant FirstInfo(node.decorators[j..]) == first
        invariant SourceReferences(moduleName, source[..i]) == Ok(references)
      {
        assert node.decorators[j..][1..] == node.decorators[j + 1..];
        var info := FindDecoratorInfo(node.decorators[j]);
        match info {
          case ValueError =>
            SourceFails(moduleName, source, i + 1);
            return ValueError;
          case Ok(None) =>
            j := j + 1;
          case Ok(Some(found)) =>
            assert StmtReferences(moduleName, node) == Ok([ReferenceOf(moduleName, node.name, found)]);
            references := references + [ReferenceOf(moduleName, node.name, found)];
            break;
        }
      }
      if j == |node.decorators| {
        assert node.decorators[j..] == [];
        assert StmtReferences(moduleName, node) == Ok([]);
      }
    }
    assert source[..|source|] == source;
    r := Ok(references);
  }

  // ---- The rendered module --------------------------------------------------------------------------

  /** A line of the generated module. */
  datatype Line =
    | Comment(text: string)
    | Empty
    | ImportFactories                     // from atasks.refs import atask_bref, atask_qref, ataskref
    | Assign(target: string, factory: string, namespace: Option<string>, task: string)

  function AssignOf(r: Reference): Line { Assign(r.functionName, r.factory, r.namespace, r.task) }

  function Assignments(references: seq<Reference>): seq<Line>
  {
    if references == [] then []
    else
      var last := references[|references| - 1];
      Assignments(references[..|references| - 1]) + [AssignOf(last)]
  }

  function Comments(texts: seq<string>): (r: seq<Line>)
    ensures |r| == |texts| && forall i :: 0 <= i < |r| ==> r[i] == Comment(texts[i])
  {
    seq(|texts|, i requires 0 <= i < |texts| => Comment(texts[i]))
  }

  function Listed(sources: seq<string>): seq<string>
  {
    seq(|sources|, i requires 0 <= i < |sources| => "- " + sources[i])
  }

  function HeaderTexts(sources: seq<string>): seq<string>
  {
    (if |sources| == 1 then ["Generated by atasks refs from " + sources[0] + "."]
     else ["Generated by atasks refs from these source files:"] + Listed(sources))
    + ["This file contains lightweight references to the tasks declared there.",
       "Do not edit this file: changes will be overwritten by the next generation."]
  }

  const IMPORT: seq<Line> := [Empty, ImportFactories, Empty]

  function Header(sources: seq<string>): seq<Line> { Comments(HeaderTexts(sources)) + IMPORT }

  function Rendered(references: seq<Reference>, sources: seq<string>): seq<Line>
  {
    Header(sources) + Assignments(references)
  }

  /** refs.py:72-91 */
  method RenderReferences(references: seq<Reference>, sources: seq<string>) returns (lines: seq<Line>)
    ensures lines == Rendered(references, sources)
  {
    lines := Header(sources);
    for i := 0 to |references|
      invariant lines == Header(sources) + Assignments(references[..i])
    {
      assert references[..i + 1][..i] == references[..i];
      var r := references[i];
      lines := lines + [Assign(r.functionName, r.factory, r.namespace, r.task)];
    }
    assert references[..|references|] == references;
  }

  // ---- Evaluating it --------------------------------------------------------------------------------

  datatype Binding = Factory(kind: Kind) | Bound(task: Task)

  type Env = map<string, Binding>

  const FACTORIES: Env :=
    map["ataskref" := Factory(Rpc), "atask_qref" := Factory(Queue), "atask_bref" := Factory(Broadcast)]

  /** Indexing a factory makes a reference; indexing anything else is an error. */
  function EvalLine(env: Env, line: Line): Option<Env>
  {
    match line
    case Comment(_) => Some(env)
    case Empty => Some(env)
    case ImportFactories => Some(env + FACTORIES)
    case Assign(target, factory, namespace, task) =>
      if factory in env && env[factory].Factory? then
        var space := if namespace.None? then "default" else namespace.value;
        Some(env[target := Bound(Task(env[factory].kind, space, task))])
      else None
  }

  function Eval(env: Env, lines: seq<Line>): Option<Env>
  {
    if lines == [] then Some(env)
    else
      match Eval(env, lines[..|lines| - 1])
      case None => None
      case Some(env') => EvalLine(env', lines[|lines| - 1])
  }

  function Module(references: seq<Reference>, sources: seq<string>): Option<Env>
  {
    Eval(map[], Rendered(references, sources))
  }

  lemma {:induction false} EvalConcat(env: Env, a: seq<Line>, b: seq<Line>)
    ensures Eval(env, a + b) == match Eval(env, a) case None => None case Some(env') => Eval(env', b)
    decreases |b|
  {
    if b == [] {
      assert a + b == a;
    } else {
      assert (a + b)[..|a + b| - 1] == a + b[..|b| - 1];
      EvalConcat(env, a, b[..|b| - 1]);
    }
  }

  lemma {:induction false} CommentsBindNothing(env: Env, lines: seq<Line>)
    requires forall i :: 0 <= i < |lines| ==> lines[i].Comment?
    ensures Eval(env, lines) == Some(env)
    decreases |lines|
  {
    if lines != [] { CommentsBindNothing(env, lines[..|lines| - 1]); }
  }

  lemma HeaderImports(sources: seq<string>)
    ensures Eval(map[], Header(sources)) == Some(FACTORIES)
  {
    CommentsBindNothing(map[], Comments(HeaderTexts(sources)));
    EvalConcat(map[], Comments(HeaderTexts(sources)), IMPORT);
    ImportBinds();
  }

  lemma ImportBinds()
    ensures Eval(map[], IMPORT) == Some(FACTORIES)
  {
    assert IMPORT[..2][..1][..0] == [];
    assert Eval(map[], IMPORT[..2][..1]) == Some(map[]);
    assert map[] + FACTORIES == FACTORIES;
    assert Eval(map[], IMPORT[..2]) == Some(FACTORIES);
  }

  predicate WellMade(r: Reference) { r.factory in FACTORIES }

  /** What a reference stands for. */
  function Meaning(r: Reference): Task
    requires WellMade(r)
  {
    Task(FACTORIES[r.factory].kind, if r.namespace.None? then "default" else r.namespace.value, r.task)
  }

  /** No reference uses a factory whose name an earlier one has taken. */
  predicate NothingTaken(references: seq<Reference>)
  {
    forall i, j :: 0 <= i < j < |references| ==> references[i].functionName != references[j].factory
  }

  function LastFor(references: seq<Reference>, name: string): (r: Option<Reference>)
    ensures r.Some? ==> r.value in references && r.value.functionName == name
    ensures r.None? <==> forall i :: 0 <= i < |references| ==> references[i].functionName != name
  {
    if references == [] then None
    else
      var last := references[|references| - 1];
      if last.functionName == name then Some(last) else LastFor(references[..|references| - 1], name)
  }

  function Lookup(env: Env, name: string): Option<Binding> { if name in env then Some(env[name]) else None }

  predicate AllWellMade(references: seq<Reference>) { forall r :: r in references ==> WellMade(r) }

  /** A name means its last reference; without one, it is still what was imported. */
  function Expected(references: seq<Reference>, name: string): Option<Binding>
    requires AllWellMade(references)
  {
    match LastFor(references, name)
    case Some(r) => Some(Bound(Meaning(r)))
    case None => Lookup(FACTORIES, name)
  }

  ghost predicate Holds(env: Env, references: seq<Reference>)
    requires AllWellMade(references)
  {
    forall name :: Lookup(env, name) == Expected(references, name)
  }

  lemma {:induction false} AssignmentsBind(references: seq<Reference>)
    requires AllWellMade(references)
    ensures Eval(FACTORIES, Assignments(references)).Some? <==> NothingTaken(references)
    ensures NothingTaken(references) ==> Holds(Eval(FACTORIES, Assignments(references)).value, references)
    decreases |references|
  {
    hide LastFor, FACTORIES, Expected, Eval, EvalLine, Assignments, Holds, NothingTaken;
    if references == [] {
      NothingBound();
    } else {
      var init, last := references[..|references| - 1], references[|references| - 1];
      AssignmentsBind(init);
      assert references == init + [last];
      EvalNext(references);
      TakenNext(init, last);
      if NothingTaken(init) {
        LineBinds(Eval(FACTORIES, Assignments(init)).value, init, last);
      }
    }
  }

  lemma NothingBound()
    ensures Eval(FACTORIES, Assignments([])) == Some(FACTORIES) && NothingTaken([]) && Holds(FACTORIES, [])
  {
  }

  lemma EvalNext(references: seq<Reference>)
    requires references != []
    ensures Eval(FACTORIES, Assignments(references)) ==
            match Eval(FACTORIES, Assignments(references[..|references| - 1]))
            case None => None
            case Some(env) => EvalLine(env, AssignOf(references[|references| - 1]))
  {
    hide EvalLine;
    var lines := Assignments(references);
    assert lines[..|lines| - 1] == Assignments(references[..|references| - 1]);
  }

  lemma LineBinds(env: Env, init: seq<Reference>, last: Reference)
    requires AllWellMade(init + [last]) && AllWellMade(init) && Holds(env, init)
    ensures EvalLine(env, AssignOf(last)).Some? <==> LastFor(init, last.factory).None?
    ensures LastFor(init, last.factory).None? ==> Holds(EvalLine(env, AssignOf(last)).value, init + [last])
  {
    hide LastFor, Expected, Holds;
    assert WellMade(last);
    FactoryIsThere(env, init, last.factory);
    if LastFor(init, last.factory).None? { BindNext(env, init, last); }
  }

  lemma TakenNext(init: seq<Reference>, last: Reference)
    ensures NothingTaken(init + [last]) <==> NothingTaken(init) && LastFor(init, last.factory).None?
  {
    var references := init + [last];
    if NothingTaken(references) {
      forall i, j | 0 <= i < j < |init|
        ensures init[i].functionName != init[j].factory
      {
        assert references[i].functionName != references[j].factory;
      }
      forall i | 0 <= i < |init|
        ensures init[i].functionName != last.factory
      {
        assert references[i].functionName != references[|init|].factory;
      }
    }
  }

  lemma FactoryIsThere(env: Env, references: seq<Reference>, factory: string)
    requires AllWellMade(references) && Holds(env, references) && factory in FACTORIES
    ensures (factory in env && env[factory].Factory?) <==> LastFor(references, factory).None?
    ensures LastFor(references, factory).None? ==> factory in env && env[factory] == FACTORIES[factory]
  {
    hide LastFor;
    assert Lookup(env, factory) == Expected(references, factory);
  }

  lemma BindNext(env: Env, init: seq<Reference>, last: Reference)
    requires AllWellMade(init) && WellMade(last) && AllWellMade(init + [last]) && Holds(env, init)
    ensures Holds(env[last.functionName := Bound(Meaning(last))], init + [last])
  {
    assert (init + [last])[..|init|] == init;
    var env' := env[last.functionName := Bound(Meaning(last))];
    forall name
      ensures Lookup(env', name) == Expected(init + [last], name)
    {
      assert Lookup(env, name) == Expected(init, name);
    }
  }

  /**
    Evaluating the generated module succeeds exactly when no reference takes the name of a factory that a later one
    uses, and then every name is bound to what its last reference stands for.
   */
  lemma ModuleBinds(references: seq<Reference>, sources: seq<string>)
    requires AllWellMade(references)
    ensures Module(references, sources).Some? <==> NothingTaken(references)
    ensures NothingTaken(references) ==> Holds(Module(references, sources).value, references)
  {
    HeaderImports(sources);
    EvalConcat(map[], Header(sources), Assignments(references));
    AssignmentsBind(references);
  }
}
