/** Modules for which the generated references go wrong, and which of the conditions each one breaks. */
module ReferenceExamples {
  import opened Wrappers
  import opened Sequences
  import opened References
  import opened ModuleImport
  import opened ReferenceMeaning

  const PLAIN := Bare("atask")

  /** A function defined twice: the generated module binds its name, importing the source fails at the second one. */
  lemma DefinedTwiceFails(known: set<Key>)
    ensures var source := [Function("f", [PLAIN]), Function("f", [PLAIN])];
            && (forall stmt :: stmt in source ==> Simple(stmt))
            && SourceReferences("m", source) ==
               Ok([Reference("f", "ataskref", "m.f", None), Reference("f", "ataskref", "m.f", None)])
            && RegistryAfter(known, SourceEvents("m", source)).Failed?
            && (var tasks := Registrations(known, "m", source); tasks != [] && tasks[|tasks| - 1] == ("f", Otherwise))
            && !SourceTransparent(known, "m", source)
  {
    var stmt, r := Function("f", [PLAIN]), Reference("f", "ataskref", "m.f", None);
    var source := [stmt, stmt];
    PlainTask("f");
    assert "m." + "f" == "m.f";
    hide Simple, StmtReferences, WellMade, Meaning, SourceEvents, Clean, TasksApart;
    TwoStatements("m", stmt, stmt, r, r);
    SimpleEvents("m", source);
    RegistryMeaning(known, SourceEvents("m", source));
    SameTwice(known, r);
    CleanTasks(known, [r, r]);
    LastOtherwise(known, "m", source);
  }

  lemma SameTwice(known: set<Key>, r: Reference)
    requires WellMade(r)
    ensures AllWellMade([r, r]) && !TasksApart(known, [r, r])
  {
    assert [r, r][0] == [r, r][1];
  }

  lemma LastOtherwise(known: set<Key>, moduleName: string, source: Source)
    requires source != [] && RegistryAfter(known, SourceEvents(moduleName, source)).Failed?
    requires var last := source[|source| - 1]; last.Function? && TaskDecorators(last.decorators) != []
    ensures var tasks := Registrations(known, moduleName, source);
            tasks != [] && tasks[|tasks| - 1] == (source[|source| - 1].name, Otherwise)
  {
    hide SourceEvents;
  }

  /** A task function named like its decorator: later uses of the decorator are calls of that function's stub. */
  lemma TakenDecoratorMisleads(known: set<Key>)
    ensures var source := [Function("atask", [PLAIN]), Function("g", [PLAIN])];
            && SourceReferences("m", source) ==
               Ok([Reference("atask", "ataskref", "m.atask", None), Reference("g", "ataskref", "m.g", None)])
            && !SourceTransparent(known, "m", source)
  {
    var a, b := Function("atask", [PLAIN]), Function("g", [PLAIN]);
    var source := [a, b];
    PlainReference("atask");
    PlainReference("g");
    assert "m." + "atask" == "m.atask" && "m." + "g" == "m.g";
    TwoStatements("m", a, b, Reference("atask", "ataskref", "m.atask", None), Reference("g", "ataskref", "m.g", None));
    assert source[..1] == [a] && [a][..0] == [];
    assert "atask" in ScopeAfter("m", source[..1]);
    OneLive(PLAIN);
    hide Transparent, Clean;
    assert !StmtTransparent("m", ScopeAfter("m", source[..1]), source[1]);
  }

  lemma SingleStatement(known: set<Key>, moduleName: string, stmt: Stmt)
    requires StmtReferences(moduleName, stmt).Ok?
    ensures SourceReferences(moduleName, [stmt]) == StmtReferences(moduleName, stmt)
    ensures SourceEvents(moduleName, [stmt]) == StmtEvents(moduleName, map[], stmt)
    ensures Registrations(known, moduleName, [stmt]) ==
            StmtRegistrations(RegistryAfter(known, StmtEvents(moduleName, map[], stmt)), moduleName, map[], stmt)
  {
    hide StmtReferences, StmtRegistrations, StmtEvents;
    assert [stmt][..0] == [];
    var refs, events := StmtReferences(moduleName, stmt).value, StmtEvents(moduleName, map[], stmt);
    assert [] + refs == refs && [] + events == events;
    var tasks := StmtRegistrations(RegistryAfter(known, events), moduleName, map[], stmt);
    assert [] + tasks == tasks;
  }

  const HIDDEN_BY_KEYWORDS := Called("atask", [], [Keyword(None, Computed(Dict(map["name" := Text("x")])))])
  const HIDDEN_BY_POSITION := Called("atask", [Nothing, Text("x")], [])

  /** A name in a `**` dictionary or by position is overlooked: importing registers `x`, the reference says `m.f`. */
  lemma HiddenNameMisleads(d: Decorator)
    requires d == HIDDEN_BY_KEYWORDS || d == HIDDEN_BY_POSITION
    ensures var source := [Function("f", [d])];
            && SourceReferences("m", source) == Ok([Reference("f", "ataskref", "m.f", None)])
            && Registrations({}, "m", source) == [("f", Becomes(Task(Rpc, "default", "x")))]
            && !SourceTransparent({}, "m", source)
  {
    var stmt := Function("f", [d]);
    var r, t := Reference("f", "ataskref", "m.f", None), ("f", Becomes(Task(Rpc, "default", "x")));
    HiddenReference(d);
    HiddenRegistration(d);
    hide StmtReferences, StmtRegistrations, StmtEvents, SourceTransparent, HIDDEN_BY_KEYWORDS, HIDDEN_BY_POSITION;
    SingleStatement({}, "m", stmt);
    SourceMeaning({}, "m", [stmt]);
    OneAgrees(r, t);
  }

  lemma HiddenReference(d: Decorator)
    requires d == HIDDEN_BY_KEYWORDS || d == HIDDEN_BY_POSITION
    ensures StmtReferences("m", Function("f", [d])) == Ok([Reference("f", "ataskref", "m.f", None)])
  {
    assert DecoratorInfo(d) == Ok(Some(Info("ataskref", map[])));
    assert FirstInfo([d]) == Ok(Some(Info("ataskref", map[])));
    assert ReferenceOf("m", "f", Info("ataskref", map[])) == Reference("f", "ataskref", "m.f", None);
  }

  lemma HiddenRegistration(d: Decorator)
    requires d == HIDDEN_BY_KEYWORDS || d == HIDDEN_BY_POSITION
    ensures var stmt := Function("f", [d]);
            StmtRegistrations(RegistryAfter({}, StmtEvents("m", map[], stmt)), "m", map[], stmt)
            == [("f", Becomes(Task(Rpc, "default", "x")))]
  {
    HiddenNameApplies(d);
    hide Applied, Callable, Immediate, KeyOf, Events, TargetOf, HIDDEN_BY_KEYWORDS, HIDDEN_BY_POSITION;
    assert DefaultName("m", "f") == "m.f";
    OneDecorator(d, map[], "m.f");
    OneEvent(TaskKey(Task(Rpc, "default", "x")));
    OneLive(d);
  }

  lemma OneLive(d: Decorator)
    requires IsTask(d)
    ensures TaskDecorators([d]) == [d]
  {
    assert [d][1..] == [];
  }

  lemma OneEvent(key: Key)
    ensures RegistryAfter({}, [Registers(key)]).Going?
  {
    assert [Registers(key)][..0] == [];
  }

  lemma HiddenNameApplies(d: Decorator)
    requires d == HIDDEN_BY_KEYWORDS || d == HIDDEN_BY_POSITION
    ensures Callable(d) && !Immediate(d) && IsTask(d)
    ensures KeyOf(d, Some("m.f")) == Some(Key(Rpc, Text("default"), Text("x")))
    ensures Standing(Applied(d, map[], Plain("m.f"))) == Becomes(Task(Rpc, "default", "x"))
  {
    if d == HIDDEN_BY_KEYWORDS {
      forall key ensures Passed(KeywordsOf(d), key) == if key == "name" then [Text("x")] else [] {
        assert Passed(KeywordsOf(d), key) == [] + KeywordValues(KeywordsOf(d)[0], key);
      }
      hide Passed;
      assert Callable(d);
    } else {
      assert forall key :: Passed(KeywordsOf(d), key) == [];
      hide Passed;
      assert Callable(d);
    }
  }

  /** A task function named like a factory breaks the generated module once a later reference needs that factory. */
  lemma TakenFactoryBreaksTheModule()
    ensures var source := [Function("ataskref", [Bare("atask")]), Function("f", [Bare("atask")])];
            && (forall stmt :: stmt in source ==> Simple(stmt))
            && var references := SourceReferences("m", source);
               references.Ok? && Module(references.value, ["m.py"]) == None
  {
    var source := [Function("ataskref", [Bare("atask")]), Function("f", [Bare("atask")])];
    PlainTask("ataskref");
    PlainTask("f");
    var r0 := Reference("ataskref", "ataskref", "m." + "ataskref", None);
    var r1 := Reference("f", "ataskref", "m." + "f", None);
    hide Simple, StmtReferences;
    TwoStatements("m", source[0], source[1], r0, r1);
    TakenPairFails(r0, r1, ["m.py"]);
  }

  lemma TakenPairFails(r: Reference, t: Reference, sources: seq<string>)
    requires WellMade(r) && WellMade(t) && r.functionName == t.factory
    ensures Module([r, t], sources) == None
  {
    var references := [r, t];
    assert references[0].functionName == references[1].factory;
    assert AllWellMade(references);
    ModuleBinds(references, sources);
    assert !NothingTaken(references);
  }

  lemma TwoStatements(moduleName: string, a: Stmt, b: Stmt, r: Reference, t: Reference)
    requires StmtReferences(moduleName, a) == Ok([r]) && StmtReferences(moduleName, b) == Ok([t])
    ensures SourceReferences(moduleName, [a, b]) == Ok([r, t])
  {
    hide StmtReferences;
    assert [a, b][..1] == [a] && [a][..0] == [];
    assert [] + [r] == [r] && [r] + [t] == [r, t];
    assert SourceReferences(moduleName, [a]) == Ok([] + [r]);
  }

  lemma BareHasNoKeywords(id: string)
    ensures KeywordsOf(Bare(id)) == [] && PositionalOf(Bare(id)) == []
  {
  }

  lemma PlainTask(name: string)
    requires KindOf(name).None?
    ensures var stmt := Function(name, [Bare("atask")]);
            Simple(stmt) && StmtReferences("m", stmt) == Ok([Reference(name, "ataskref", "m." + name, None)])
  {
    BareHasNoKeywords("atask");
    OneLive(Bare("atask"));
    PlainReference(name);
  }

  lemma PlainReference(name: string)
    ensures StmtReferences("m", Function(name, [Bare("atask")])) == Ok([Reference(name, "ataskref", "m." + name, None)])
  {
    var d := Bare("atask");
    BareHasNoKeywords("atask");
    assert DecoratorInfo(d) == Ok(Some(Info("ataskref", map[])));
    assert FirstInfo([d]) == Ok(Some(Info("ataskref", map[])));
    var stmt := Function(name, [Bare("atask")]);
    assert StmtReferences("m", stmt) == Ok([ReferenceOf("m", name, Info("ataskref", map[]))]);
    assert ReferenceOf("m", name, Info("ataskref", map[])) == Reference(name, "ataskref", "m." + name, None);
  }
}
