/**
  What importing a module registers (tasks.py:13-54, router.py:458-558, registry.py:54-70).

  A registry refuses a task it already has, and the first error ends the import.  Covered are the
  top-level functions whose task decorators are written with their plain imported names.
  `@tasks.atask`, an alias of `atask`, and functions defined inside a class or under an `if` register
  tasks as well, but the generator of references does not see them; here, whatever else the module does
  is taken to raise nothing, to register nothing and to rebind no name of a decorator, and other
  decorators - own functions named like a task decorator included - to raise nothing, to register nothing
  and to return something with module, name and meaning of what they are applied to.  No router is active
  during the import.
 */
module ModuleImport {
  import opened Wrappers
  import opened Sequences
  import opened References

  // ---- What reaches a decorator ---------------------------------------------------------------------

  function KindOf(id: string): Option<Kind>
  {
    if id == "atask" then Some(Rpc)
    else if id == "atask_queue" then Some(Queue)
    else if id == "atask_broadcast" then Some(Broadcast)
    else None
  }

  predicate IsTask(d: Decorator) { !d.Unnamed? && KindOf(d.id).Some? }

  function ValueOf(e: Expr): Value { match e case Literal(s) => Text(s) case Computed(v) => v }

  function KeywordValues(k: Keyword, key: string): seq<Value>
  {
    match k.arg
    case Some(a) => if a == key then [ValueOf(k.value)] else []
    case None =>
      var v := ValueOf(k.value);
      if v.Dict? && key in v.entries then [v.entries[key]] else []
  }

  function Passed(keywords: seq<Keyword>, key: string): seq<Value>
  {
    if keywords == [] then []
    else Passed(keywords[..|keywords| - 1], key) + KeywordValues(keywords[|keywords| - 1], key)
  }

  function PositionalOf(d: Decorator): seq<Value> { if d.Called? then d.positional else [] }

  function At(vs: seq<Value>, i: nat): seq<Value> { if i < |vs| then [vs[i]] else [] }

  /** Every value passed for parameter `key`, by position, by keyword or inside a `**` dictionary. */
  function AllPassed(d: Decorator, key: string): seq<Value>
  {
    (if key == "coro" then At(PositionalOf(d), 0)
     else if key == "name" then At(PositionalOf(d), 1)
     else if key == "namespace" then At(PositionalOf(d), 2)
     else [])
    + Passed(KeywordsOf(d), key)
  }

  /** Python accepts the call: three positional parameters, mappings behind `**`, nothing passed twice. */
  ghost predicate Callable(d: Decorator)
  {
    && |PositionalOf(d)| <= 3
    && (forall i :: 0 <= i < |KeywordsOf(d)| && KeywordsOf(d)[i].arg.None? ==> ValueOf(KeywordsOf(d)[i].value).Dict?)
    && forall key: string :: |AllPassed(d, key)| <= 1
  }

  // ---- The registries -------------------------------------------------------------------------------

  /** What a task is registered under; namespaces and names need not be strings. */
  datatype Key = Key(kind: Kind, namespace: Value, name: Value)

  predicate Hashable(v: Value) { !v.Dict? && (v.Thing? ==> v.hashable) }

  /** What happens during an import: a task is to be registered, or an error is raised. */
  datatype Event = Registers(key: Key) | Raises

  /** Registering under something unhashable, or under no name at all, is an error. */
  function EventOf(key: Option<Key>): Event
  {
    if key.Some? && Hashable(key.value.namespace) && Hashable(key.value.name) then Registers(key.value) else Raises
  }

  /** The tasks of the process, or the import has failed. */
  datatype Registry = Going(known: set<Key>) | Failed

  /** `RegisteringTwice` for a task that is known. */
  function Enter(r: Registry, e: Event): Registry
  {
    if r.Failed? || e.Raises? || e.key in r.known then Failed else Going(r.known + {e.key})
  }

  function RegistryAfter(known: set<Key>, events: seq<Event>): Registry
  {
    if events == [] then Going(known)
    else Enter(RegistryAfter(known, events[..|events| - 1]), events[|events| - 1])
  }

  /** No error, no task twice, no task that is there already. */
  ghost predicate Clean(known: set<Key>, events: seq<Event>)
  {
    && Distinct(events)
    && forall e :: e in events ==> e.Registers? && e.key !in known
  }

  /** An import succeeds exactly on a clean sequence of events, and then has added just their tasks. */
  lemma {:induction false} RegistryMeaning(known: set<Key>, events: seq<Event>)
    ensures RegistryAfter(known, events).Going? <==> Clean(known, events)
    ensures RegistryAfter(known, events).Going? ==>
              forall k :: k in RegistryAfter(known, events).known <==> k in known || Registers(k) in events
    decreases |events|
  {
    if events != [] {
      var init, last := events[..|events| - 1], events[|events| - 1];
      assert events == init + [last];
      RegistryMeaning(known, init);
      CleanNext(known, init, last);
    }
  }

  lemma CleanNext(known: set<Key>, init: seq<Event>, last: Event)
    ensures Clean(known, init + [last]) <==>
            Clean(known, init) && last.Registers? && last.key !in known && last !in init
  {
    var events := init + [last];
    if Clean(known, events) {
      assert forall i :: 0 <= i < |init| ==> init[i] == events[i] && events[i] != events[|init|];
      assert last in events;
      forall i, j | 0 <= i < j < |init| ensures init[i] != init[j] { assert events[i] != events[j]; }
      forall e | e in init ensures e in events {}
    }
  }

  lemma CleanPrefix(known: set<Key>, a: seq<Event>, b: seq<Event>)
    requires Clean(known, a + b)
    ensures Clean(known, a) && forall e :: e in b ==> e.Registers?
  {
    forall e | e in a || e in b ensures e in a + b {}
    forall i, j | 0 <= i < j < |a| ensures a[i] != a[j] { assert (a + b)[i] != (a + b)[j]; }
  }

  // ---- One decorator --------------------------------------------------------------------------------

  /** A function is passed along: it is registered at once, and the decorated one is only an argument of the stub. */
  predicate Immediate(d: Decorator) { AllPassed(d, "coro") != [] && AllPassed(d, "coro")[0] != Nothing }

  function NamespaceOf(d: Decorator): Value
  {
    var passed := AllPassed(d, "namespace");
    if passed == [] then Text("default") else passed[0]
  }

  /** The name passed, or the default name `base` - if what is registered has one. */
  function NameOf(d: Decorator, base: Option<string>): Option<Value>
  {
    var passed := AllPassed(d, "name");
    if passed != [] && passed[0] != Nothing then Some(passed[0])
    else match base case None => None case Some(b) => Some(Text(b))
  }

  function KeyOf(d: Decorator, base: Option<string>): Option<Key>
    requires IsTask(d)
  {
    match NameOf(d, base)
    case None => None
    case Some(name) => Some(Key(KindOf(d.id).value, NamespaceOf(d), name))
  }

  /**
    What a function has become under its decorators: still a function of its own, a stub - one of the functions `aioref`
    of atasks/router.py - that stands for a task, or no function any more.
   */
  datatype Target = Plain(fullName: string) | StubOf(key: Key) | NoFunction

  const STUB_NAME := "atasks.router.aioref"

  /** A coroutine object has no module. */
  function BaseOf(t: Target): Option<string>
  {
    match t case Plain(fullName) => Some(fullName) case StubOf(_) => Some(STUB_NAME) case NoFunction => None
  }

  /** The functions the module has defined so far; one of them may have taken the name of a decorator. */
  type Scope = map<string, Target>

  /**
    Applying the decorator.  A stub that has taken its name is merely called, which gives a coroutine object; an own
    function that has taken it is like any other decorator.
   */
  function Applied(d: Decorator, scope: Scope, t: Target): Target
    requires IsTask(d)
  {
    if d.id !in scope then
      if Immediate(d) then NoFunction
      else match KeyOf(d, BaseOf(t)) case None => NoFunction case Some(key) => StubOf(key)
    else if scope[d.id].Plain? then t else NoFunction
  }

  /** Evaluating the decorator expression. */
  ghost function Evaluation(d: Decorator, scope: Scope): seq<Event>
    requires IsTask(d)
  {
    if d.id in scope then if d.Called? && scope[d.id].NoFunction? then [Raises] else []
    else if !Callable(d) then [Raises]
    else if Immediate(d) then
      var coro := AllPassed(d, "coro")[0];
      [EventOf(KeyOf(d, if coro.Named? then Some(coro.fullName) else None))]
    else []
  }

  /** What happens when the decorator is applied to `t`; a coroutine object cannot be called. */
  function Application(d: Decorator, scope: Scope, t: Target): seq<Event>
    requires IsTask(d)
  {
    if d.id !in scope then if Immediate(d) then [] else [EventOf(KeyOf(d, BaseOf(t)))]
    else if scope[d.id].NoFunction? || (scope[d.id].StubOf? && d.Called?) then [Raises]
    else []
  }

  // ---- The decorators of a function -----------------------------------------------------------------

  predicate AllTasks(ds: seq<Decorator>) { forall d :: d in ds ==> IsTask(d) }

  /** Decorators are listed outermost first; the innermost is applied first. */
  function TargetOf(ds: seq<Decorator>, scope: Scope, t: Target): Target
    requires AllTasks(ds)
  {
    if ds == [] then t
    else
      assert ds[0] in ds;
      Applied(ds[0], scope, TargetOf(ds[1..], scope, t))
  }

  ghost function Evaluations(ds: seq<Decorator>, scope: Scope): seq<Event>
    requires AllTasks(ds)
  {
    if ds == [] then []
    else
      assert ds[0] in ds;
      Evaluation(ds[0], scope) + Evaluations(ds[1..], scope)
  }

  function Applications(ds: seq<Decorator>, scope: Scope, t: Target): seq<Event>
    requires AllTasks(ds)
  {
    if ds == [] then []
    else
      assert ds[0] in ds;
      Applications(ds[1..], scope, t) + Application(ds[0], scope, TargetOf(ds[1..], scope, t))
  }

  /** The expressions are evaluated from the outermost inwards, then the decorators are applied outwards. */
  ghost function Events(ds: seq<Decorator>, scope: Scope, t: Target): seq<Event>
    requires AllTasks(ds)
  {
    Evaluations(ds, scope) + Applications(ds, scope, t)
  }

  lemma {:induction false} UncallableRaises(ds: seq<Decorator>, scope: Scope, d: Decorator)
    requires AllTasks(ds) && d in ds && d.id !in scope && !Callable(d)
    ensures Raises in Evaluations(ds, scope)
    decreases |ds|
  {
    hide Callable;
    if d != ds[0] { UncallableRaises(ds[1..], scope, d); }
  }

  // ---- What one decorator does ----------------------------------------------------------------------

  const PARAMETERS: seq<string> := ["coro", "name", "namespace"]

  predicate Gives(k: Keyword, key: string, v: Value)
  {
    if k.arg.Some? then k.arg.value == key && v == ValueOf(k.value)
    else ValueOf(k.value).Dict? && key in ValueOf(k.value).entries && ValueOf(k.value).entries[key] == v
  }

  lemma {:induction false} PassedByKeyword(keywords: seq<Keyword>, key: string, v: Value)
    ensures v in Passed(keywords, key) <==> exists j :: 0 <= j < |keywords| && Gives(keywords[j], key, v)
    decreases |keywords|
  {
    if keywords != [] {
      var init, last := keywords[..|keywords| - 1], keywords[|keywords| - 1];
      assert keywords == init + [last];
      PassedByKeyword(init, key, v);
      hide Passed, Gives;
      LastGives(keywords, key, v);
    }
  }

  lemma LastGives(keywords: seq<Keyword>, key: string, v: Value)
    requires keywords != []
    ensures var init, last := keywords[..|keywords| - 1], keywords[|keywords| - 1];
            && (v in Passed(keywords, key) <==> v in Passed(init, key) || Gives(last, key, v))
            && ((exists j :: 0 <= j < |keywords| && Gives(keywords[j], key, v)) <==>
                (exists j :: 0 <= j < |init| && Gives(init[j], key, v)) || Gives(last, key, v))
  {
    var init, last := keywords[..|keywords| - 1], keywords[|keywords| - 1];
    assert forall j :: 0 <= j < |init| ==> init[j] == keywords[j];
    assert v in KeywordValues(last, key) <==> Gives(last, key, v);
    hide Gives;
    if j :| 0 <= j < |keywords| && Gives(keywords[j], key, v) { assert j < |init| ==> Gives(init[j], key, v); }
    if j :| 0 <= j < |init| && Gives(init[j], key, v) { assert Gives(keywords[j], key, v); }
  }

  /** A parameter is given by its position, by a keyword of its name or by an entry of a `**` dictionary. */
  lemma PassedMeaning(d: Decorator, key: string, v: Value)
    ensures v in AllPassed(d, key) <==>
              || (exists i :: 0 <= i < 3 && i < |PositionalOf(d)| && PARAMETERS[i] == key && PositionalOf(d)[i] == v)
              || (exists j :: 0 <= j < |KeywordsOf(d)| && Gives(KeywordsOf(d)[j], key, v))
  {
    hide Passed, Gives;
    PassedByKeyword(KeywordsOf(d), key, v);
    var ps := PositionalOf(d);
    assert PARAMETERS[0] == "coro" && PARAMETERS[1] == "name" && PARAMETERS[2] == "namespace";
    assert "coro"[0] == 'c' && "name" != "namespace";
  }

  function KindNamed(id: string): Kind
    requires id in {"atask", "atask_queue", "atask_broadcast"}
  {
    if id == "atask_queue" then Queue else if id == "atask_broadcast" then Broadcast else Rpc
  }

  predicate Unhashable(v: Value) { v.Dict? || (v.Thing? && !v.hashable) }

  /** What is given for a parameter, or `default` where nothing is. */
  predicate GivenOr(d: Decorator, key: string, v: Value, default: Value)
  {
    AllPassed(d, key) == [v] || (AllPassed(d, key) == [] && v == default)
  }

  /** The same for a name, where None counts as nothing. */
  predicate NameOr(d: Decorator, v: Value, default: Value)
  {
    (GivenOr(d, "name", v, default) && v != Nothing) || (AllPassed(d, "name") == [Nothing] && v == default)
  }

  function Registering(d: Decorator, space: Value, name: Value): Event
    requires IsTask(d)
  {
    if Unhashable(space) || Unhashable(name) then Raises else Registers(Key(KindNamed(d.id), space, name))
  }

  /**
    A decorator given no function registers what it is applied to, under what is given or the defaults, and makes a
    stub.
   */
  lemma DecoratorRegisters(d: Decorator, scope: Scope, base: string, space: Value, name: Value)
    requires IsTask(d) && d.id !in scope && Callable(d)
    requires AllPassed(d, "coro") == [] || AllPassed(d, "coro") == [Nothing]
    requires GivenOr(d, "namespace", space, Text("default")) && NameOr(d, name, Text(base))
    ensures Events([d], scope, Plain(base)) == [Registering(d, space, name)]
    ensures TargetOf([d], scope, Plain(base)) == StubOf(Key(KindNamed(d.id), space, name))
  {
    hide AllPassed, Callable;
    OneInTheStack(d, scope, Plain(base));
  }

  lemma OneInTheStack(d: Decorator, scope: Scope, t: Target)
    requires IsTask(d)
    ensures AllTasks([d])
    ensures Events([d], scope, t) == Evaluation(d, scope) + Application(d, scope, t)
    ensures TargetOf([d], scope, t) == Applied(d, scope, t)
  {
    hide Evaluation, Application, Applied;
    assert [d][1..] == [];
    assert Evaluations([d], scope) == Evaluation(d, scope) + [];
    assert Applications([d], scope, t) == [] + Application(d, scope, t);
  }

  /** A decorator given a function registers that one at once, whatever it is applied to, and leaves no function. */
  lemma GivenFunctionIsRegistered(d: Decorator, scope: Scope, t: Target, coro: Value, space: Value, name: Value)
    requires IsTask(d) && d.id !in scope && Callable(d) && AllPassed(d, "coro") == [coro] && coro.Named?
    requires GivenOr(d, "namespace", space, Text("default")) && NameOr(d, name, Text(coro.fullName))
    ensures Events([d], scope, t) == [Registering(d, space, name)]
    ensures TargetOf([d], scope, t) == NoFunction
  {
    hide AllPassed, Callable;
    OneInTheStack(d, scope, t);
  }

  /** Too many arguments, no mapping behind `**` or a parameter given twice: the first thing to happen is an error. */
  lemma MisuseRaises(d: Decorator, scope: Scope, t: Target)
    requires IsTask(d) && d.id !in scope
    requires |PositionalOf(d)| > 3 || (exists key: string :: |AllPassed(d, key)| > 1)
             || (exists k :: k in KeywordsOf(d) && k.arg.None? && !ValueOf(k.value).Dict?)
    ensures AllTasks([d]) && Events([d], scope, t) != [] && Events([d], scope, t)[0] == Raises
  {
    hide AllPassed;
    OneInTheStack(d, scope, t);
  }

  /**
    A decorator whose name was taken: an own function leaves the decorated one alone; the stub of a task is called, or
    cannot be with options; what is no function cannot be called at all.
   */
  lemma TakenNameDecorates(d: Decorator, scope: Scope, t: Target)
    requires IsTask(d) && d.id in scope
    ensures AllTasks([d])
    ensures scope[d.id].Plain? ==> Events([d], scope, t) == [] && TargetOf([d], scope, t) == t
    ensures scope[d.id].StubOf? ==>
              Events([d], scope, t) == (if d.Called? then [Raises] else []) && TargetOf([d], scope, t) == NoFunction
    ensures scope[d.id].NoFunction? ==> Raises in Events([d], scope, t) && TargetOf([d], scope, t) == NoFunction
  {
    OneInTheStack(d, scope, t);
  }

  /** Of two stacked decorators the outer one registers the inner one's stub, under the name all stubs have. */
  lemma StackedRegistersTheStub(base: string)
    ensures var d := Bare("atask");
            Events([d, d], map[], Plain(base))
            == [Registers(Key(Rpc, Text("default"), Text(base))),
                Registers(Key(Rpc, Text("default"), Text("atasks.router.aioref")))]
  {
    var d := Bare("atask");
    assert [d, d][1..] == [d];
    BareIsCallable("atask");
    DecoratorRegisters(d, map[], base, Text("default"), Text(base));
    hide AllPassed, Callable;
    OneInTheStack(d, map[], Plain(base));
    assert Events([d, d], map[], Plain(base))
           == Evaluation(d, map[]) + Evaluations([d], map[])
              + (Applications([d], map[], Plain(base)) + Application(d, map[], TargetOf([d], map[], Plain(base))));
  }

  lemma BareIsCallable(id: string)
    ensures Callable(Bare(id)) && forall key :: AllPassed(Bare(id), key) == []
  {
  }

  // ---- A module -------------------------------------------------------------------------------------

  /** The decorators written like task decorators. */
  function TaskDecorators(ds: seq<Decorator>): (r: seq<Decorator>)
    ensures AllTasks(r)
    ensures forall d :: d in r <==> d in ds && IsTask(d)
  {
    if ds == [] then [] else (if IsTask(ds[0]) then [ds[0]] else []) + TaskDecorators(ds[1..])
  }

  function DefaultName(moduleName: string, name: string): string { moduleName + "." + name }

  /** What a function definition makes of its function. */
  function FunctionTarget(moduleName: string, scope: Scope, stmt: Stmt): Target
    requires stmt.Function?
  {
    TargetOf(TaskDecorators(stmt.decorators), scope, Plain(DefaultName(moduleName, stmt.name)))
  }

  function ScopeAfter(moduleName: string, source: Source): Scope
  {
    if source == [] then map[]
    else
      var scope, last := ScopeAfter(moduleName, source[..|source| - 1]), source[|source| - 1];
      if last.Function? then scope[last.name := FunctionTarget(moduleName, scope, last)] else scope
  }

  ghost function StmtEvents(moduleName: string, scope: Scope, stmt: Stmt): seq<Event>
  {
    if stmt.NotAFunction? then []
    else Events(TaskDecorators(stmt.decorators), scope, Plain(DefaultName(moduleName, stmt.name)))
  }

  ghost function SourceEvents(moduleName: string, source: Source): seq<Event>
  {
    if source == [] then []
    else
      var init := source[..|source| - 1];
      SourceEvents(moduleName, init) + StmtEvents(moduleName, ScopeAfter(moduleName, init), source[|source| - 1])
  }

  /** The function is this task - or the import has failed, or the name stands for no task a string names. */
  datatype Outcome = Becomes(task: Task) | Otherwise

  function Standing(t: Target): Outcome
  {
    if t.StubOf? && t.key.namespace.Text? && t.key.name.Text?
    then Becomes(Task(t.key.kind, t.key.namespace.s, t.key.name.s)) else Otherwise
  }

  /** What a statement makes of its function, if it has a task decorator, where `after` is the registry then. */
  ghost function StmtRegistrations(after: Registry, moduleName: string, scope: Scope, stmt: Stmt)
    : seq<(string, Outcome)>
  {
    if stmt.NotAFunction? || TaskDecorators(stmt.decorators) == [] then []
    else [(stmt.name, if after.Failed? then Otherwise else Standing(FunctionTarget(moduleName, scope, stmt)))]
  }

  /** The functions written with a task decorator, in order, with what importing into a process makes of each. */
  ghost function Registrations(known: set<Key>, moduleName: string, source: Source): seq<(string, Outcome)>
  {
    if source == [] then []
    else
      var init := source[..|source| - 1];
      Registrations(known, moduleName, init) +
      StmtRegistrations(RegistryAfter(known, SourceEvents(moduleName, source)),
                        moduleName, ScopeAfter(moduleName, init), source[|source| - 1])
  }
}
