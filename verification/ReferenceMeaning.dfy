/**
  What the generated references mean (tasks.py:13-54, refs.py:37-55): they name the very tasks that
  importing the source module registers - exactly when the import succeeds and no decorator hides an
  option from the generator.  `ModuleImport` says what is covered.
 */
module ReferenceMeaning {
  import opened Wrappers
  import opened Sequences
  import opened References
  import opened ModuleImport

  // ---- What is rejected -----------------------------------------------------------------------------

  predicate AllReadable(keywords: seq<Keyword>)
  {
    forall i :: 0 <= i < |keywords| && IsOption(keywords[i]) ==> keywords[i].value.Literal?
  }

  /** The options given by keyword are literals. */
  predicate Readable(d: Decorator) { AllReadable(KeywordsOf(d)) }

  /** Of several decorators the first task decorator decides. */
  lemma {:induction false} FirstTask(ds: seq<Decorator>)
    ensures FirstInfo(ds) == if TaskDecorators(ds) == [] then Ok(None) else DecoratorInfo(TaskDecorators(ds)[0])
    decreases |ds|
  {
    if ds != [] {
      if !IsTask(ds[0]) { FirstTask(ds[1..]); }
    }
  }

  lemma {:induction false} OptionsOk(keywords: seq<Keyword>)
    ensures Options(keywords).Ok? <==> AllReadable(keywords)
    decreases |keywords|
  {
    if keywords != [] {
      var init, last := keywords[..|keywords| - 1], keywords[|keywords| - 1];
      assert keywords == init + [last];
      OptionsOk(init);
    }
  }

  /** Keyword `i` is the last that gives `key`. */
  predicate LastGiven(keywords: seq<Keyword>, i: nat, key: string)
  {
    && i < |keywords| && keywords[i].arg == Some(key)
    && forall j :: i < j < |keywords| ==> keywords[j].arg != Some(key)
  }

  /** What is collected for an option is its last literal, and nothing is collected that is not given. */
  lemma {:induction false} OptionsMeaning(keywords: seq<Keyword>, key: string)
    requires Options(keywords).Ok? && (key == "name" || key == "namespace")
    ensures var options := Options(keywords).value;
            && (key in options <==> exists i :: 0 <= i < |keywords| && keywords[i].arg == Some(key))
            && forall i: nat :: LastGiven(keywords, i, key) ==>
                 key in options && keywords[i].value == Literal(options[key])
    decreases |keywords|
  {
    if keywords != [] {
      var init, last := keywords[..|keywords| - 1], keywords[|keywords| - 1];
      assert keywords == init + [last];
      OptionsMeaning(init, key);
      hide Options;
      if i :| 0 <= i < |init| && init[i].arg == Some(key) { assert keywords[i].arg == Some(key); }
      if last.arg == Some(key) { assert keywords[|init|].arg == Some(key); }
      forall i: nat | LastGiven(keywords, i, key) && i < |init|
        ensures LastGiven(init, i, key) && last.arg != Some(key)
      {
        assert last == keywords[|init|];
        assert forall j :: i < j < |init| ==> init[j] == keywords[j];
      }
    }
  }

  /** The deciding decorator of the statement, if any, has an option that is not a literal. */
  predicate Unreadable(stmt: Stmt)
  {
    stmt.Function? && TaskDecorators(stmt.decorators) != [] && !Readable(TaskDecorators(stmt.decorators)[0])
  }

  lemma DecoratorRejected(d: Decorator)
    requires IsTask(d)
    ensures DecoratorInfo(d).ValueError? <==> !Readable(d)
  {
    OptionsOk(KeywordsOf(d));
  }

  lemma StmtRejected(moduleName: string, stmt: Stmt)
    ensures StmtReferences(moduleName, stmt).ValueError? <==> Unreadable(stmt)
  {
    if stmt.Function? {
      FirstTask(stmt.decorators);
      if TaskDecorators(stmt.decorators) != [] {
        DecoratorRejected(TaskDecorators(stmt.decorators)[0]);
      }
    }
  }

  /** A module is rejected exactly for such a statement, wherever it stands. */
  lemma {:induction false} RejectedIff(moduleName: string, source: Source)
    ensures SourceReferences(moduleName, source).ValueError? <==> exists stmt :: stmt in source && Unreadable(stmt)
    decreases |source|
  {
    hide Unreadable, StmtReferences;
    if source != [] {
      var init, last := source[..|source| - 1], source[|source| - 1];
      assert source == init + [last];
      RejectedIff(moduleName, init);
      StmtRejected(moduleName, last);
    }
  }

  // ---- One decorator --------------------------------------------------------------------------------

  predicate Explicit(keywords: seq<Keyword>, key: string)
  {
    exists i :: 0 <= i < |keywords| && keywords[i].arg == Some(key)
  }

  /**
    The decorator hides nothing that matters: what is passed by position or inside a dictionary is what the
    generator assumes - no function, the default namespace, and the default name where `base` is not it.
   */
  ghost predicate Transparent(d: Decorator, base: Option<string>, default: string)
  {
    && (forall v :: v in AllPassed(d, "coro") ==> v == Nothing)
    && (!Explicit(KeywordsOf(d), "namespace") ==> forall v :: v in AllPassed(d, "namespace") ==> v == Text("default"))
    && (!Explicit(KeywordsOf(d), "name") ==>
          var name := AllPassed(d, "name");
          if name == [] || name[0] == Nothing then base == Some(default) else name[0] == Text(default))
  }

  /** An option the generator collected is among the values passed. */
  lemma {:induction false} CollectedIsPassed(keywords: seq<Keyword>, key: string)
    requires AllReadable(keywords) && (key == "name" || key == "namespace")
    ensures Options(keywords).Ok? && (key in Options(keywords).value <==> Explicit(keywords, key))
    ensures key in Options(keywords).value ==> Text(Options(keywords).value[key]) in Passed(keywords, key)
    decreases |keywords|
  {
    if keywords != [] {
      var init, last := keywords[..|keywords| - 1], keywords[|keywords| - 1];
      assert keywords == init + [last];
      CollectedIsPassed(init, key);
      ExplicitNext(init, last, key);
    }
  }

  lemma ExplicitNext(init: seq<Keyword>, last: Keyword, key: string)
    ensures Explicit(init + [last], key) <==> Explicit(init, key) || last.arg == Some(key)
  {
    var keywords := init + [last];
    if last.arg == Some(key) { assert keywords[|init|].arg == Some(key); }
    if Explicit(init, key) {
      var i :| 0 <= i < |init| && init[i].arg == Some(key);
      assert keywords[i].arg == Some(key);
    }
  }

  /** Where Python accepts the call, a collected option is the one value passed. */
  lemma CollectedIsTheValue(d: Decorator, key: string)
    requires Callable(d) && Readable(d) && (key == "name" || key == "namespace")
    ensures var options := Options(KeywordsOf(d));
            && options.Ok? && (key in options.value <==> Explicit(KeywordsOf(d), key))
            && (key in options.value ==> AllPassed(d, key) == [Text(options.value[key])])
  {
    CollectedIsPassed(KeywordsOf(d), key);
    var options := Options(KeywordsOf(d)).value;
    if key in options { OnlyMember(AllPassed(d, key), Text(options[key])); }
  }

  lemma OnlyMember(vs: seq<Value>, v: Value)
    requires |vs| <= 1 && v in vs
    ensures vs == [v]
  {
  }

  /**
    Where Python accepts the call, the reference made from a decorator names the task the decorated function then
    stands for exactly when the decorator is transparent.
   */
  lemma DecoratorMeaning(moduleName: string, name: string, scope: Scope, t: Target, d: Decorator)
    requires IsTask(d) && d.id !in scope && Readable(d) && Callable(d)
    ensures DecoratorInfo(d).Ok? && DecoratorInfo(d).value.Some?
    ensures var r := ReferenceOf(moduleName, name, DecoratorInfo(d).value.value);
            && WellMade(r) && r.functionName == name
            && (Standing(Applied(d, scope, t)) == Becomes(Meaning(r)) <==>
                Transparent(d, BaseOf(t), DefaultName(moduleName, name)))
  {
    var base := BaseOf(t);
    hide Options, AllPassed, Explicit, Callable, NameOf, NamespaceOf;
    OptionsOk(KeywordsOf(d));
    var r := ReferenceOf(moduleName, name, DecoratorInfo(d).value.value);
    NameMeaning(moduleName, name, base, d);
    NamespaceMeaning(moduleName, name, d);
    AtMostOne(d, "coro", Nothing);
    assert Meaning(r).kind == KindOf(d.id).value;
  }

  lemma NameMeaning(moduleName: string, name: string, base: Option<string>, d: Decorator)
    requires IsTask(d) && Readable(d) && Callable(d) && DecoratorInfo(d).Ok? && DecoratorInfo(d).value.Some?
    ensures var r := ReferenceOf(moduleName, name, DecoratorInfo(d).value.value);
            NameOf(d, base) == Some(Text(r.task)) <==>
              (!Explicit(KeywordsOf(d), "name") ==>
                 var vs, default := AllPassed(d, "name"), DefaultName(moduleName, name);
                 if vs == [] || vs[0] == Nothing then base == Some(default) else vs[0] == Text(default))
  {
    hide Options, AllPassed, Explicit, Callable;
    CollectedIsTheValue(d, "name");
  }

  lemma NamespaceMeaning(moduleName: string, name: string, d: Decorator)
    requires IsTask(d) && Readable(d) && Callable(d) && DecoratorInfo(d).Ok? && DecoratorInfo(d).value.Some?
    ensures var r := ReferenceOf(moduleName, name, DecoratorInfo(d).value.value);
            NamespaceOf(d) == Text(if r.namespace.None? then "default" else r.namespace.value) <==>
              (!Explicit(KeywordsOf(d), "namespace") ==>
                 forall v :: v in AllPassed(d, "namespace") ==> v == Text("default"))
  {
    hide Options, AllPassed, Explicit, Callable;
    CollectedIsTheValue(d, "namespace");
    AtMostOne(d, "namespace", Text("default"));
  }

  lemma AtMostOne(d: Decorator, key: string, w: Value)
    requires Callable(d)
    ensures (forall v :: v in AllPassed(d, key) ==> v == w) <==> (AllPassed(d, key) == [] || AllPassed(d, key)[0] == w)
  {
    var vs := AllPassed(d, key);
    assert |vs| <= 1;
    if vs != [] { assert vs[0] in vs; }
  }

  // ---- A whole module -------------------------------------------------------------------------------

  /** The reference and what importing makes of the function belong together. */
  predicate Agrees(r: Reference, t: (string, Outcome))
  {
    WellMade(r) && r.functionName == t.0 && t.1 == Becomes(Meaning(r))
  }

  predicate AllAgree(references: seq<Reference>, tasks: seq<(string, Outcome)>)
  {
    |references| == |tasks| && forall i :: 0 <= i < |tasks| ==> Agrees(references[i], tasks[i])
  }

  /** One well-made reference per registered function, under its name. */
  predicate Aligned(references: seq<Reference>, tasks: seq<(string, Outcome)>)
  {
    && |references| == |tasks|
    && forall i :: 0 <= i < |tasks| ==> WellMade(references[i]) && references[i].functionName == tasks[i].0
  }

  /** The outermost task decorator still has its name, and is transparent for what the ones inside it leave. */
  ghost predicate StmtTransparent(moduleName: string, scope: Scope, stmt: Stmt)
  {
    stmt.Function? && TaskDecorators(stmt.decorators) != [] ==>
      var ds, default := TaskDecorators(stmt.decorators), DefaultName(moduleName, stmt.name);
      && !ds[0].Unnamed? && ds[0].id !in scope
      && Transparent(ds[0], BaseOf(TargetOf(ds[1..], scope, Plain(default))), default)
  }

  ghost predicate EachTransparent(moduleName: string, source: Source)
  {
    forall i :: 0 <= i < |source| ==> StmtTransparent(moduleName, ScopeAfter(moduleName, source[..i]), source[i])
  }

  /**
    Importing into a process that knows `known` raises nothing - no task decorator is misused, no task is registered
    twice or known already, inner decorators included - and every function is transparent.
   */
  ghost predicate SourceTransparent(known: set<Key>, moduleName: string, source: Source)
  {
    Clean(known, SourceEvents(moduleName, source)) && EachTransparent(moduleName, source)
  }

  lemma KindsDiffer(a: string, b: string)
    requires KindOf(a).Some? && KindOf(b).Some? && a != b
    ensures KindOf(a) != KindOf(b)
  {
  }

  /** A task comes from a decorator of its kind whose name is not taken. */
  lemma {:induction false} StandsForAKind(ds: seq<Decorator>, scope: Scope, fullName: string)
    requires AllTasks(ds) && Standing(TargetOf(ds, scope, Plain(fullName))).Becomes?
    ensures exists d :: d in ds && IsTask(d) && d.id !in scope
                        && Standing(TargetOf(ds, scope, Plain(fullName))).task.kind == KindOf(d.id).value
    decreases |ds|
  {
    assert ds == [] || ds[0] in ds;
    if ds != [] && ds[0].id in scope { StandsForAKind(ds[1..], scope, fullName); }
  }

  /** What one statement contributes, once it is known whether the import has come that far. */
  lemma StmtMeaning(after: Registry, moduleName: string, scope: Scope, stmt: Stmt)
    requires StmtReferences(moduleName, stmt).Ok?
    requires after.Going? ==> Raises !in StmtEvents(moduleName, scope, stmt)
    ensures var refs := StmtReferences(moduleName, stmt).value;
            var tasks := StmtRegistrations(after, moduleName, scope, stmt);
            && Aligned(refs, tasks)
            && (refs == [] ==> StmtEvents(moduleName, scope, stmt) == [] && StmtTransparent(moduleName, scope, stmt))
            && (AllAgree(refs, tasks) <==> refs == [] || (after.Going? && StmtTransparent(moduleName, scope, stmt)))
  {
    hide Transparent, Meaning, WellMade, DecoratorInfo, Standing, TargetOf;
    if stmt.Function? {
      FirstTask(stmt.decorators);
      if TaskDecorators(stmt.decorators) != [] {
        hide Events;
        OuterReference(moduleName, stmt);
        var r := StmtReferences(moduleName, stmt).value[0];
        FunctionMeaning(after, moduleName, scope, stmt, r);
        OneAgrees(r, StmtRegistrations(after, moduleName, scope, stmt)[0]);
      }
    }
  }

  lemma FirstIsIn<T>(s: seq<T>)
    ensures s == [] || s[0] in s
  {
  }

  /** The one reference of a function is made from its outermost task decorator. */
  lemma OuterReference(moduleName: string, stmt: Stmt)
    requires stmt.Function? && TaskDecorators(stmt.decorators) != [] && StmtReferences(moduleName, stmt).Ok?
    ensures var outer := TaskDecorators(stmt.decorators)[0];
            && outer in stmt.decorators && IsTask(outer) && Readable(outer)
            && DecoratorInfo(outer).Ok? && DecoratorInfo(outer).value.Some?
            && StmtReferences(moduleName, stmt) ==
               Ok([ReferenceOf(moduleName, stmt.name, DecoratorInfo(outer).value.value)])
  {
    FirstIsIn(TaskDecorators(stmt.decorators));
    FirstTask(stmt.decorators);
    StmtRejected(moduleName, stmt);
    var info := DecoratorInfo(TaskDecorators(stmt.decorators)[0]).value.value;
    assert FirstInfo(stmt.decorators) == Ok(Some(info));
  }

  lemma FunctionMeaning(after: Registry, moduleName: string, scope: Scope, stmt: Stmt, r: Reference)
    requires stmt.Function? && TaskDecorators(stmt.decorators) != [] && StmtReferences(moduleName, stmt) == Ok([r])
    requires after.Going? ==> Raises !in StmtEvents(moduleName, scope, stmt)
    ensures WellMade(r) && r.functionName == stmt.name
    ensures |StmtRegistrations(after, moduleName, scope, stmt)| == 1
    ensures Agrees(r, StmtRegistrations(after, moduleName, scope, stmt)[0]) <==>
            after.Going? && StmtTransparent(moduleName, scope, stmt)
  {
    hide Transparent, Standing, TargetOf, Applied, Callable, StmtReferences, Evaluations, Applications, Options;
    var ds, t := TaskDecorators(stmt.decorators), Plain(DefaultName(moduleName, stmt.name));
    var outer := ds[0];
    OuterReference(moduleName, stmt);
    MadeWell(moduleName, stmt.name, outer);
    FirstIsIn(ds);
    if after.Going? {
      if outer.id in scope {
        OuterNameTaken(ds, scope, t.fullName);
      } else {
        if !Callable(outer) {
          UncallableRaises(ds, scope, outer);
          assert false;
        }
        DecoratorMeaning(moduleName, stmt.name, scope, TargetOf(ds[1..], scope, t), outer);
        TargetStep(ds, scope, t);
      }
    }
  }

  /** Where the outermost decorator's name is taken, what is left is no task of its kind. */
  lemma OuterNameTaken(ds: seq<Decorator>, scope: Scope, fullName: string)
    requires AllTasks(ds) && ds != [] && IsTask(ds[0]) && ds[0].id in scope
    ensures var outcome := Standing(TargetOf(ds, scope, Plain(fullName)));
            outcome.Becomes? ==> outcome.task.kind != KindOf(ds[0].id).value
  {
    hide Standing, TargetOf;
    if Standing(TargetOf(ds, scope, Plain(fullName))).Becomes? {
      StandsForAKind(ds, scope, fullName);
      var d :| d in ds && IsTask(d) && d.id !in scope
               && Standing(TargetOf(ds, scope, Plain(fullName))).task.kind == KindOf(d.id).value;
      KindsDiffer(ds[0].id, d.id);
    }
  }

  lemma TargetStep(ds: seq<Decorator>, scope: Scope, t: Target)
    requires AllTasks(ds) && ds != [] && IsTask(ds[0])
    ensures TargetOf(ds, scope, t) == Applied(ds[0], scope, TargetOf(ds[1..], scope, t))
  {
  }

  lemma MadeWell(moduleName: string, name: string, d: Decorator)
    requires IsTask(d) && DecoratorInfo(d).Ok? && DecoratorInfo(d).value.Some?
    ensures var r := ReferenceOf(moduleName, name, DecoratorInfo(d).value.value);
            WellMade(r) && r.functionName == name && Meaning(r).kind == KindOf(d.id).value
  {
    hide Options;
  }

  lemma OneAgrees(r: Reference, t: (string, Outcome))
    ensures AllAgree([r], [t]) <==> Agrees(r, t)
  {
    assert [r][0] == r && [t][0] == t;
    if AllAgree([r], [t]) { assert Agrees([r][0], [t][0]); }
  }

  lemma AgreeConcat(a: seq<Reference>, b: seq<Reference>, s: seq<(string, Outcome)>, t: seq<(string, Outcome)>)
    requires Aligned(a, s) && Aligned(b, t)
    ensures Aligned(a + b, s + t) && (AllAgree(a + b, s + t) <==> AllAgree(a, s) && AllAgree(b, t))
  {
    hide Agrees, WellMade;
    if AllAgree(a + b, s + t) {
      forall i | 0 <= i < |s| ensures Agrees(a[i], s[i]) { assert Agrees((a + b)[i], (s + t)[i]); }
      forall i | 0 <= i < |t| ensures Agrees(b[i], t[i]) { assert Agrees((a + b)[|a| + i], (s + t)[|s| + i]); }
    }
  }

  /**
    The references extracted from a module are, one by one, what importing it into a process makes of its functions -
    exactly when the import succeeds and every function is transparent.
   */
  lemma {:induction false} SourceMeaning(known: set<Key>, moduleName: string, source: Source)
    requires SourceReferences(moduleName, source).Ok?
    ensures var refs, tasks := SourceReferences(moduleName, source).value, Registrations(known, moduleName, source);
            Aligned(refs, tasks) && (AllAgree(refs, tasks) <==> SourceTransparent(known, moduleName, source))
    decreases |source|
  {
    hide Agrees, AllAgree, Aligned, StmtTransparent, EachTransparent, StmtReferences, StmtRegistrations, StmtEvents;
    hide Clean;
    if source == [] {
      NothingAgrees(known, moduleName);
    } else {
      var init, last := source[..|source| - 1], source[|source| - 1];
      assert source == init + [last];
      SourceMeaning(known, moduleName, init);
      var events, more := SourceEvents(moduleName, init), StmtEvents(moduleName, ScopeAfter(moduleName, init), last);
      RegistryMeaning(known, events + more);
      if Clean(known, events + more) { CleanPrefix(known, events, more); }
      var after := RegistryAfter(known, events + more);
      StmtMeaning(after, moduleName, ScopeAfter(moduleName, init), last);
      EachNext(moduleName, init, last);
      if more == [] { assert events + more == events; }
      AgreeConcat(SourceReferences(moduleName, init).value, StmtReferences(moduleName, last).value,
                  Registrations(known, moduleName, init),
                  StmtRegistrations(after, moduleName, ScopeAfter(moduleName, init), last));
    }
  }

  lemma EachNext(moduleName: string, init: Source, last: Stmt)
    ensures EachTransparent(moduleName, init + [last]) <==>
            EachTransparent(moduleName, init) && StmtTransparent(moduleName, ScopeAfter(moduleName, init), last)
  {
    hide StmtTransparent, ScopeAfter;
    var source := init + [last];
    assert forall i :: 0 <= i <= |init| ==> source[..i] == init[..i];
    if EachTransparent(moduleName, source) {
      forall i | 0 <= i < |init|
        ensures StmtTransparent(moduleName, ScopeAfter(moduleName, init[..i]), init[i])
      {
        assert StmtTransparent(moduleName, ScopeAfter(moduleName, source[..i]), source[i]);
      }
      assert StmtTransparent(moduleName, ScopeAfter(moduleName, source[..|init|]), source[|init|]);
      assert init[..|init|] == init;
    } else {
      assert init[..|init|] == init;
    }
  }

  lemma NothingAgrees(known: set<Key>, moduleName: string)
    ensures AllAgree([], []) && Aligned([], []) && SourceTransparent(known, moduleName, [])
  {
  }

  // ---- Documented usage -----------------------------------------------------------------------------

  predicate Named(keywords: seq<Keyword>)
  {
    && (forall i :: 0 <= i < |keywords| ==> keywords[i].arg.Some?)
    && (forall i, j :: 0 <= i < j < |keywords| ==> keywords[i].arg != keywords[j].arg)
  }

  /** At most one task decorator, options given by keyword only, none twice, string literals where it matters. */
  predicate Simple(stmt: Stmt)
  {
    stmt.Function? ==>
      && KindOf(stmt.name).None?
      && |TaskDecorators(stmt.decorators)| <= 1
      && forall d :: d in TaskDecorators(stmt.decorators) ==>
           PositionalOf(d) == [] && Named(KeywordsOf(d)) && !Explicit(KeywordsOf(d), "coro") && Readable(d)
  }

  lemma {:induction false} NamedPassed(keywords: seq<Keyword>, key: string)
    requires Named(keywords)
    ensures |Passed(keywords, key)| <= 1 && (Passed(keywords, key) == [] <==> !Explicit(keywords, key))
    decreases |keywords|
  {
    if keywords != [] {
      var init, last := keywords[..|keywords| - 1], keywords[|keywords| - 1];
      assert keywords == init + [last];
      NamedPassed(init, key);
      ExplicitNext(init, last, key);
    }
  }

  lemma SimpleDecorator(d: Decorator, default: string)
    requires PositionalOf(d) == [] && Named(KeywordsOf(d)) && !Explicit(KeywordsOf(d), "coro")
    ensures Callable(d) && !Immediate(d) && Transparent(d, Some(default), default)
  {
    hide Passed, Named, Explicit;
    forall key
      ensures |AllPassed(d, key)| <= 1 && (AllPassed(d, key) == [] <==> !Explicit(KeywordsOf(d), key))
    {
      NamedPassed(KeywordsOf(d), key);
    }
    assert forall i :: 0 <= i < |KeywordsOf(d)| ==> KeywordsOf(d)[i].arg.Some? by { NamedArgs(KeywordsOf(d)); }
  }

  lemma NamedArgs(keywords: seq<Keyword>)
    requires Named(keywords)
    ensures forall i :: 0 <= i < |keywords| ==> keywords[i].arg.Some?
  {
  }

  function TaskKey(t: Task): Key { Key(t.kind, Text(t.namespace), Text(t.name)) }

  /** No name of a task decorator is taken. */
  predicate NoneTaken(scope: Scope) { forall name :: name in scope ==> KindOf(name).None? }

  /** Used as documented, a function's one decorator is transparent, and registers just the task its reference names. */
  lemma SimpleIsTransparent(moduleName: string, scope: Scope, stmt: Stmt)
    requires Simple(stmt) && NoneTaken(scope)
    ensures StmtReferences(moduleName, stmt).Ok? && !Unreadable(stmt)
    ensures var refs := StmtReferences(moduleName, stmt).value;
            && StmtTransparent(moduleName, scope, stmt) && |refs| <= 1
            && (refs == [] ==> StmtEvents(moduleName, scope, stmt) == [])
            && (refs != [] ==>
                  WellMade(refs[0]) && StmtEvents(moduleName, scope, stmt) == [Registers(TaskKey(Meaning(refs[0])))])
  {
    hide Transparent, Named, Explicit, Meaning, WellMade, Callable, Immediate, StmtReferences;
    StmtRejected(moduleName, stmt);
    if stmt.Function? && TaskDecorators(stmt.decorators) != [] {
      SimpleFunction(moduleName, scope, stmt);
    } else {
      NoReference(moduleName, stmt);
    }
  }

  lemma NoReference(moduleName: string, stmt: Stmt)
    requires stmt.Function? ==> TaskDecorators(stmt.decorators) == []
    ensures StmtReferences(moduleName, stmt) == Ok([])
  {
    if stmt.Function? { FirstTask(stmt.decorators); }
  }

  lemma SimpleFunction(moduleName: string, scope: Scope, stmt: Stmt)
    requires stmt.Function? && Simple(stmt) && TaskDecorators(stmt.decorators) != [] && NoneTaken(scope)
    requires StmtReferences(moduleName, stmt).Ok?
    ensures var refs, t := StmtReferences(moduleName, stmt).value, Plain(DefaultName(moduleName, stmt.name));
            |refs| == 1 && WellMade(refs[0])
            && Events(TaskDecorators(stmt.decorators), scope, t) == [Registers(TaskKey(Meaning(refs[0])))]
    ensures var ds, default := TaskDecorators(stmt.decorators), DefaultName(moduleName, stmt.name);
            ds[1..] == [] && IsTask(ds[0]) && ds[0].id !in scope && Transparent(ds[0], Some(default), default)
  {
    hide Transparent, Named, Explicit, Meaning, WellMade, Callable, StmtReferences, Applied, Standing, Immediate;
    var ds, default := TaskDecorators(stmt.decorators), DefaultName(moduleName, stmt.name);
    OuterReference(moduleName, stmt);
    FirstIsIn(ds);
    assert ds[1..] == [] && ds == [ds[0]];
    SimpleDecorator(ds[0], default);
    DecoratorMeaning(moduleName, stmt.name, scope, Plain(default), ds[0]);
    OneDecorator(ds[0], scope, default);
  }

  lemma OneDecorator(d: Decorator, scope: Scope, base: string)
    requires IsTask(d) && d.id !in scope && Callable(d) && !Immediate(d)
    requires Standing(Applied(d, scope, Plain(base))).Becomes?
    ensures AllTasks([d])
    ensures Events([d], scope, Plain(base)) == [Registers(TaskKey(Standing(Applied(d, scope, Plain(base))).task))]
    ensures TargetOf([d], scope, Plain(base)) == Applied(d, scope, Plain(base))
  {
    hide AllPassed, NameOf, NamespaceOf, Callable, Immediate;
    assert [d][1..] == [];
    assert Evaluations([d], scope) == [] && TargetOf([], scope, Plain(base)) == Plain(base);
    assert Applications([d], scope, Plain(base)) == [EventOf(KeyOf(d, Some(base)))];
  }

  /** The tasks the references name are pairwise different and new to the process. */
  predicate TasksApart(known: set<Key>, references: seq<Reference>)
    requires AllWellMade(references)
  {
    && (forall i, j :: 0 <= i < j < |references| ==> Meaning(references[i]) != Meaning(references[j]))
    && (forall r :: r in references ==> TaskKey(Meaning(r)) !in known)
  }

  function TaskEvents(references: seq<Reference>): (events: seq<Event>)
    requires AllWellMade(references)
    ensures |events| == |references|
    ensures forall i :: 0 <= i < |events| ==>
              WellMade(references[i]) && events[i] == Registers(TaskKey(Meaning(references[i])))
  {
    if references == [] then []
    else
      assert forall r :: r in references[1..] ==> r in references;
      assert references[0] in references;
      [Registers(TaskKey(Meaning(references[0])))] + TaskEvents(references[1..])
  }

  lemma CleanTasks(known: set<Key>, references: seq<Reference>)
    requires AllWellMade(references)
    ensures Clean(known, TaskEvents(references)) <==> TasksApart(known, references)
  {
    var events := TaskEvents(references);
    if Clean(known, events) {
      forall i, j | 0 <= i < j < |references|
        ensures Meaning(references[i]) != Meaning(references[j])
      {
        assert events[i] != events[j];
      }
      forall r | r in references
        ensures TaskKey(Meaning(r)) !in known
      {
        var i :| 0 <= i < |references| && references[i] == r;
        assert events[i] in events;
      }
    }
    if TasksApart(known, references) {
      forall e | e in events
        ensures e.Registers? && e.key !in known
      {
        var i :| 0 <= i < |events| && events[i] == e;
        assert references[i] in references;
      }
    }
  }

  /** In a module used as documented what is registered can be read off the references. */
  lemma {:induction false} SimpleEvents(moduleName: string, source: Source)
    requires forall stmt :: stmt in source ==> Simple(stmt)
    ensures SourceReferences(moduleName, source).Ok? && EachTransparent(moduleName, source)
    ensures NoneTaken(ScopeAfter(moduleName, source))
    ensures var refs := SourceReferences(moduleName, source).value;
            AllWellMade(refs) && SourceEvents(moduleName, source) == TaskEvents(refs)
    decreases |source|
  {
    hide StmtReferences, StmtEvents, StmtTransparent, EachTransparent, WellMade, Meaning;
    if source == [] {
      NothingAgrees({}, moduleName);
    } else {
      var init, last := source[..|source| - 1], source[|source| - 1];
      assert source == init + [last] && last in source;
      SimpleEvents(moduleName, init);
      SimpleIsTransparent(moduleName, ScopeAfter(moduleName, init), last);
      EachNext(moduleName, init, last);
      var before, more := SourceReferences(moduleName, init).value, StmtReferences(moduleName, last).value;
      TaskEventsConcat(before, more);
    }
  }

  lemma TaskEventsConcat(a: seq<Reference>, b: seq<Reference>)
    requires AllWellMade(a) && |b| <= 1 && (b != [] ==> WellMade(b[0]))
    ensures AllWellMade(a + b)
    ensures TaskEvents(a + b) == TaskEvents(a) + if b == [] then [] else [Registers(TaskKey(Meaning(b[0])))]
  {
    hide WellMade, Meaning;
    if b == [] { assert a + b == a; }
    var events := TaskEvents(a + b);
    assert forall i :: 0 <= i < |a| ==> (a + b)[i] == a[i];
  }

  /** A module used as documented is transparent exactly when its references name different, new tasks. */
  lemma SimpleSourceIsTransparent(known: set<Key>, moduleName: string, source: Source)
    requires forall stmt :: stmt in source ==> Simple(stmt)
    ensures SourceReferences(moduleName, source).Ok?
    ensures var refs := SourceReferences(moduleName, source).value;
            AllWellMade(refs) && (SourceTransparent(known, moduleName, source) <==> TasksApart(known, refs))
  {
    hide EachTransparent, TasksApart, Clean, SourceReferences, SourceEvents;
    SimpleEvents(moduleName, source);
    CleanTasks(known, SourceReferences(moduleName, source).value);
  }

  // ---- One module or several ------------------------------------------------------------------------
  function Flat<T>(parts: seq<seq<T>>): seq<T>
  {
    if parts == [] then [] else Flat(parts[..|parts| - 1]) + parts[|parts| - 1]
  }

  predicate DistinctNames(references: seq<Reference>)
  {
    forall i, j :: 0 <= i < j < |references| ==> references[i].functionName != references[j].functionName
  }

  /** Into one output file: refused if two references have the same function name (refs.py:152-155). */
  function Combine(parsed: seq<seq<Reference>>): Result<seq<Reference>>
  {
    if DistinctNames(Flat(parsed)) then Ok(Flat(parsed)) else ValueError
  }

  predicate Before(i: nat, a: nat, j: nat, b: nat) { i < j || (i == j && a < b) }

  lemma {:induction false} FlatMember(parts: seq<seq<Reference>>, r: Reference)
    ensures r in Flat(parts) <==> exists i :: 0 <= i < |parts| && r in parts[i]
    decreases |parts|
  {
    if parts != [] {
      var n := |parts| - 1;
      FlatMember(parts[..n], r);
      if i :| 0 <= i < n && r in parts[..n][i] { assert r in parts[i]; }
      if i :| 0 <= i < |parts| && r in parts[i] { assert i < n ==> r in parts[..n][i]; }
    }
  }

  /** Somewhere in the parts a name occurs at two places. */
  ghost predicate Repeated(parts: seq<seq<Reference>>)
  {
    exists i: nat, a: nat, j: nat, b: nat ::
      i < |parts| && a < |parts[i]| && j < |parts| && b < |parts[j]| && Before(i, a, j, b)
      && parts[i][a].functionName == parts[j][b].functionName
  }

  ghost predicate NameIn(references: seq<Reference>, name: string)
  {
    exists r :: r in references && r.functionName == name
  }

  lemma DistinctConcat(a: seq<Reference>, b: seq<Reference>)
    ensures DistinctNames(a + b) <==>
            DistinctNames(a) && DistinctNames(b) && forall r :: r in b ==> !NameIn(a, r.functionName)
  {
    var s := a + b;
    if DistinctNames(s) {
      forall i, j | 0 <= i < j < |a| ensures a[i].functionName != a[j].functionName {
        assert s[i].functionName != s[j].functionName;
      }
      forall i, j | 0 <= i < j < |b| ensures b[i].functionName != b[j].functionName {
        assert s[|a| + i].functionName != s[|a| + j].functionName;
      }
      forall r | r in b ensures !NameIn(a, r.functionName) {
        var j :| 0 <= j < |b| && b[j] == r;
        forall q | q in a ensures q.functionName != r.functionName {
          var i :| 0 <= i < |a| && a[i] == q;
          assert s[i].functionName != s[|a| + j].functionName;
        }
      }
    }
  }

  lemma {:induction false} FlatDistinct(parts: seq<seq<Reference>>)
    ensures DistinctNames(Flat(parts)) <==> !Repeated(parts)
    decreases |parts|
  {
    if parts != [] {
      var n := |parts| - 1;
      FlatDistinct(parts[..n]);
      DistinctConcat(Flat(parts[..n]), parts[n]);
      RepeatedNext(parts);
    }
  }

  lemma RepeatedNext(parts: seq<seq<Reference>>)
    requires parts != []
    ensures var n := |parts| - 1;
            Repeated(parts) <==>
              Repeated(parts[..n]) || !DistinctNames(parts[n])
              || exists r: Reference :: r in parts[n] && NameIn(Flat(parts[..n]), r.functionName)
  {
    var n := |parts| - 1;
    var init, last := parts[..n], parts[n];
    if Repeated(parts) { RepeatedWhere(parts); }
    if Repeated(init) {
      var i: nat, a: nat, j: nat, b: nat :|
        i < |init| && a < |init[i]| && j < |init| && b < |init[j]| && Before(i, a, j, b)
        && init[i][a].functionName == init[j][b].functionName;
      assert parts[i][a].functionName == parts[j][b].functionName;
    }
    if !DistinctNames(last) {
      var a: nat, b: nat :| a < b < |last| && last[a].functionName == last[b].functionName;
      assert Before(n, a, n, b) && parts[n][a].functionName == parts[n][b].functionName;
    }
    if r: Reference :| r in last && NameIn(Flat(init), r.functionName) { RepeatedAcross(parts, r); }
  }

  lemma RepeatedWhere(parts: seq<seq<Reference>>)
    requires parts != [] && Repeated(parts)
    ensures var n := |parts| - 1;
            Repeated(parts[..n]) || !DistinctNames(parts[n])
            || exists r: Reference :: r in parts[n] && NameIn(Flat(parts[..n]), r.functionName)
  {
    hide Flat;
    var n := |parts| - 1;
    var init, last := parts[..n], parts[n];
    var i: nat, a: nat, j: nat, b: nat :|
      i < |parts| && a < |parts[i]| && j < |parts| && b < |parts[j]| && Before(i, a, j, b)
      && parts[i][a].functionName == parts[j][b].functionName;
    if j < n {
      assert init[i] == parts[i] && init[j] == parts[j];
    } else if i < n {
      FlatMember(init, parts[i][a]);
      assert parts[i][a] in init[i] && NameIn(Flat(init), last[b].functionName) && last[b] in last;
    }
  }

  lemma RepeatedAcross(parts: seq<seq<Reference>>, r: Reference)
    requires parts != [] && r in parts[|parts| - 1] && NameIn(Flat(parts[..|parts| - 1]), r.functionName)
    ensures Repeated(parts)
  {
    hide Flat;
    var n := |parts| - 1;
    var init, last := parts[..n], parts[n];
    var q: Reference :| q in Flat(init) && q.functionName == r.functionName;
    FlatMember(init, q);
    var i: nat :| i < |init| && q in init[i];
    var a: nat :| a < |init[i]| && init[i][a] == q;
    var b: nat :| b < |last| && last[b] == r;
    assert Before(i, a, n, b) && parts[i][a].functionName == parts[n][b].functionName;
  }

  /** Combining is refused exactly when a function name occurs twice, within one source or in two. */
  lemma CombineMeaning(parsed: seq<seq<Reference>>)
    ensures Combine(parsed).ValueError? <==>
            exists i: nat, a: nat, j: nat, b: nat ::
              i < |parsed| && a < |parsed[i]| && j < |parsed| && b < |parsed[j]| && Before(i, a, j, b)
              && parsed[i][a].functionName == parsed[j][b].functionName
    ensures Combine(parsed).Ok? ==>
              forall r :: r in Combine(parsed).value <==> exists i :: 0 <= i < |parsed| && r in parsed[i]
  {
    FlatDistinct(parsed);
    assert Combine(parsed).ValueError? <==> Repeated(parsed);
    forall r ensures r in Flat(parsed) <==> exists i :: 0 <= i < |parsed| && r in parsed[i] { FlatMember(parsed, r); }
  }

  /** `starts[k]` is what the process that imports source `k` knows by then; all sources may share a process or none. */
  ghost function AllRegistrations(starts: seq<set<Key>>, modules: seq<(string, Source)>): seq<(string, Outcome)>
    requires |starts| == |modules|
  {
    if modules == [] then []
    else
      var n := |modules| - 1;
      AllRegistrations(starts[..n], modules[..n]) + Registrations(starts[n], modules[n].0, modules[n].1)
  }

  ghost predicate Parsed(modules: seq<(string, Source)>, parsed: seq<seq<Reference>>)
  {
    && |parsed| == |modules|
    && forall i :: 0 <= i < |modules| ==> SourceReferences(modules[i].0, modules[i].1) == Ok(parsed[i])
  }

  ghost predicate AllTransparent(starts: seq<set<Key>>, modules: seq<(string, Source)>)
    requires |starts| == |modules|
  {
    forall i :: 0 <= i < |modules| ==> SourceTransparent(starts[i], modules[i].0, modules[i].1)
  }

  lemma {:induction false} CombinedAgree(starts: seq<set<Key>>, modules: seq<(string, Source)>,
                                         parsed: seq<seq<Reference>>)
    requires |starts| == |modules| && Parsed(modules, parsed)
    ensures var refs, tasks := Flat(parsed), AllRegistrations(starts, modules);
            Aligned(refs, tasks) && (AllAgree(refs, tasks) <==> AllTransparent(starts, modules))
    decreases |modules|
  {
    hide Agrees, AllAgree, Aligned, SourceTransparent, SourceReferences, Registrations;
    if modules == [] {
      NothingAgrees({}, "");
    } else {
      var n := |modules| - 1;
      CombinedAgree(starts[..n], modules[..n], parsed[..n]);
      assert SourceReferences(modules[n].0, modules[n].1) == Ok(parsed[n]);
      SourceMeaning(starts[n], modules[n].0, modules[n].1);
      AgreeConcat(Flat(parsed[..n]), parsed[n], AllRegistrations(starts[..n], modules[..n]),
                  Registrations(starts[n], modules[n].0, modules[n].1));
      assert AllTransparent(starts, modules) <==>
             AllTransparent(starts[..n], modules[..n]) && SourceTransparent(starts[n], modules[n].0, modules[n].1);
    }
  }

  lemma AlignedIsWellMade(references: seq<Reference>, tasks: seq<(string, Outcome)>)
    requires Aligned(references, tasks)
    ensures AllWellMade(references)
  {
  }

  /** The function becomes a task, and its name is bound to that very task. */
  predicate BoundRight(env: Env, t: (string, Outcome)) { t.1.Becomes? && Lookup(env, t.0) == Some(Bound(t.1.task)) }

  /** A reference that is the last of its name is bound right exactly when it agrees with the registration. */
  lemma LastIsBound(env: Env, references: seq<Reference>, tasks: seq<(string, Outcome)>, i: nat)
    requires Aligned(references, tasks) && AllWellMade(references) && Holds(env, references) && i < |references|
    requires LastFor(references, references[i].functionName) == Some(references[i])
    ensures BoundRight(env, tasks[i]) <==> Agrees(references[i], tasks[i])
  {
    hide LastFor, Meaning;
    assert Lookup(env, tasks[i].0) == Expected(references, tasks[i].0);
  }

  /**
    The combined module can be evaluated exactly when no function takes the name of a factory that a later reference
    uses; it then binds every task function of every source to the task importing makes of it - exactly when every
    source is transparent where it is imported.
   */
  lemma CombinedModulePreservesMeaning(starts: seq<set<Key>>, modules: seq<(string, Source)>,
                                       parsed: seq<seq<Reference>>, sources: seq<string>)
    requires |starts| == |modules| && Parsed(modules, parsed) && Combine(parsed).Ok?
    ensures var references, tasks := Combine(parsed).value, AllRegistrations(starts, modules);
            && (Module(references, sources).Some? <==> NothingTaken(references))
            && (NothingTaken(references) ==>
                  ((forall i :: 0 <= i < |tasks| ==> BoundRight(Module(references, sources).value, tasks[i])) <==>
                   AllTransparent(starts, modules)))
  {
    hide SourceReferences, Module, Holds, Agrees, BoundRight, Registrations, AllTransparent, Parsed;
    var references, tasks := Flat(parsed), AllRegistrations(starts, modules);
    CombinedAgree(starts, modules, parsed);
    AlignedIsWellMade(references, tasks);
    ModuleBinds(references, sources);
    if NothingTaken(references) {
      var env := Module(references, sources).value;
      forall i | 0 <= i < |tasks|
        ensures BoundRight(env, tasks[i]) <==> Agrees(references[i], tasks[i])
      {
        OnlyReference(references, i);
        LastIsBound(env, references, tasks, i);
      }
    }
  }

  lemma OnlyReference(references: seq<Reference>, i: nat)
    requires DistinctNames(references) && i < |references|
    ensures LastFor(references, references[i].functionName) == Some(references[i])
  {
    var r := LastFor(references, references[i].functionName);
    assert r.Some?;
    var j :| 0 <= j < |references| && references[j] == r.value;
  }

  /**
    One source, one module: of several references with one function name the last is bound, and it is bound right
    exactly when it agrees with what importing makes of its function - so always in a transparent source.
   */
  lemma SingleModulePreservesMeaning(known: set<Key>, moduleName: string, source: Source, references: seq<Reference>,
                                     sources: seq<string>, i: nat)
    requires SourceReferences(moduleName, source) == Ok(references) && NothingTaken(references)
    requires i < |Registrations(known, moduleName, source)|
    requires var tasks := Registrations(known, moduleName, source);
             forall j :: i < j < |tasks| ==> tasks[j].0 != tasks[i].0
    ensures var task, made := Registrations(known, moduleName, source)[i], Module(references, sources);
            && made.Some? && i < |references|
            && (BoundRight(made.value, task) <==> Agrees(references[i], task))
            && (SourceTransparent(known, moduleName, source) ==> BoundRight(made.value, task))
  {
    hide Module, SourceReferences, Registrations, SourceTransparent, Holds, WellMade, Agrees, BoundRight;
    SourceMeaning(known, moduleName, source);
    var tasks := Registrations(known, moduleName, source);
    AlignedIsWellMade(references, tasks);
    ModuleBinds(references, sources);
    forall j | i < j < |references|
      ensures references[j].functionName != references[i].functionName
    {
      assert references[j].functionName == tasks[j].0 && references[i].functionName == tasks[i].0;
    }
    LastReference(references, i);
    LastIsBound(Module(references, sources).value, references, tasks, i);
  }

  lemma {:induction false} LastReference(references: seq<Reference>, i: nat)
    requires i < |references|
    requires forall j :: i < j < |references| ==> references[j].functionName != references[i].functionName
    ensures LastFor(references, references[i].functionName) == Some(references[i])
    decreases |references|
  {
    if i < |references| - 1 { LastReference(references[..|references| - 1], i); }
  }

  // ---- Where the generator goes wrong ---------------------------------------------------------------

  /** A task registered twice within a module, by whatever decorators: the import fails and not all references agree. */
  lemma SameTaskTwiceFails(known: set<Key>, moduleName: string, source: Source, i: nat, j: nat)
    requires SourceReferences(moduleName, source).Ok?
    requires i < j < |SourceEvents(moduleName, source)|
    requires SourceEvents(moduleName, source)[i] == SourceEvents(moduleName, source)[j]
    ensures RegistryAfter(known, SourceEvents(moduleName, source)).Failed?
    ensures !AllAgree(SourceReferences(moduleName, source).value, Registrations(known, moduleName, source))
  {
    hide SourceReferences, SourceEvents, Registrations, AllAgree;
    RegistryMeaning(known, SourceEvents(moduleName, source));
    SourceMeaning(known, moduleName, source);
  }
}
