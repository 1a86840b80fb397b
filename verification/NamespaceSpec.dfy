/**
  The `key=value,...` argument that configures one namespace: the parser, a printer, and what the
  result does not depend on.
 */
module NamespaceSpec {
  import opened Wrappers
  import opened Strings
  import opened Sequences

  /** One entry per key of the option record; `None` is the missing optional value. */
  datatype Options = Options(
    name: string,
    mode: string,
    transport: string,
    url: Option<string>,
    hostname: Option<string>,
    maxTraceDepth: Option<int>,
    traceFilterModules: Option<seq<string>>,
    collectAwaitFrames: Option<bool>
  )

  datatype Problem = NotKeyValue | UnknownKey | GivenTwice | BadMode | BadTransport | BadDepth | BadCollect

  datatype Parsed = Ok(options: Options) | Err(problem: Problem)

  const NAME := "name"
  const MODE := "mode"
  const TRANSPORT := "transport"
  const URL := "url"
  const HOSTNAME := "hostname"
  const DEPTH := "max-trace-depth"
  const FILTER := "trace-filter-modules"
  const COLLECT := "collect-await-frames"

  const KEYS: seq<string> := [NAME, MODE, TRANSPORT, URL, HOSTNAME, DEPTH, FILTER, COLLECT]

  // ---- From the text to the raw dictionary ----------------------------------------------------------

  datatype Item = Blank | Malformed | Pair(key: string, value: string)

  function ItemOf(piece: string): Item
  {
    var item := Strip(piece);
    if item == "" then Blank
    else
      var k := Find(item, '=');
      if k == |item| then Malformed else Pair(Strip(item[..k]), Strip(item[k + 1..]))
  }

  function ItemsOf(pieces: seq<string>): (items: seq<Item>)
    ensures |items| == |pieces| && forall i :: 0 <= i < |items| ==> items[i] == ItemOf(pieces[i])
  {
    if pieces == [] then [] else ItemsOf(pieces[..|pieces| - 1]) + [ItemOf(pieces[|pieces| - 1])]
  }

  function Items(spec: string): seq<Item> { ItemsOf(Split(spec, ',')) }

  datatype Filling = Filled(raw: map<string, string>) | Bad(problem: Problem)

  /** What one item does to the dictionary. */
  function Add(f: Filling, item: Item): Filling
  {
    match f
    case Bad(_) => f
    case Filled(raw) =>
      match item
      case Blank => f
      case Malformed => Bad(NotKeyValue)
      case Pair(key, value) =>
        if key !in KEYS then Bad(UnknownKey)
        else if key in raw then Bad(GivenTwice)
        else Filled(raw[key := value])
  }

  function Fill(items: seq<Item>): Filling
  {
    if items == [] then Filled(map[]) else Add(Fill(items[..|items| - 1]), items[|items| - 1])
  }

  // ---- From the raw dictionary to the options -------------------------------------------------------

  function Get(raw: map<string, string>, key: string): Option<string>
  {
    if key in raw then Some(raw[key]) else None
  }

  function GetOr(raw: map<string, string>, key: string, default: string): string
  {
    if key in raw then raw[key] else default
  }

  /** `str.lower`, as far as comparing with ASCII words can tell. */
  function Lower(s: string): string
  {
    if s == "" then ""
    else [if 'A' <= s[0] <= 'Z' then (s[0] as int + 32) as char else s[0]] + Lower(s[1..])
  }

  function NonEmpty(ws: seq<string>): (r: seq<string>)
    ensures forall i :: 0 <= i < |r| ==> r[i] != "" && r[i] in ws
  {
    if ws == [] then [] else (if ws[0] != "" then [ws[0]] else []) + NonEmpty(ws[1..])
  }

  function Modules(value: string): seq<string> { NonEmpty(Split(value, ':')) }

  function ParseCollect(value: string): Option<bool>
  {
    var lowered := Lower(value);
    if lowered in ["true", "yes", "1"] then Some(true)
    else if lowered in ["false", "no", "0"] then Some(false)
    else None
  }

  function Read(raw: map<string, string>): Parsed
  {
    var mode := GetOr(raw, MODE, "loopback");
    var transport := GetOr(raw, TRANSPORT, "loopback");
    if mode !in ["client", "server", "loopback"] then Err(BadMode)
    else if transport !in ["loopback", "amqp"] then Err(BadTransport)
    else if DEPTH in raw && ParseInt(raw[DEPTH]) == None then Err(BadDepth)
    else if COLLECT in raw && ParseCollect(raw[COLLECT]) == None then Err(BadCollect)
    else
      Ok(Options(
           GetOr(raw, NAME, "default"), mode, transport, Get(raw, URL), Get(raw, HOSTNAME),
           if DEPTH in raw then ParseInt(raw[DEPTH]) else None,
           if FILTER in raw then Some(Modules(raw[FILTER])) else None,
           if COLLECT in raw then ParseCollect(raw[COLLECT]) else None))
  }

  function Finish(f: Filling): Parsed
  {
    match f case Bad(p) => Err(p) case Filled(raw) => Read(raw)
  }

  function Parse(spec: string): Parsed { Finish(Fill(Items(spec))) }

  // ---- The parser as it is written ------------------------------------------------------------------

  lemma {:induction false} BadStays(items: seq<Item>, k: nat)
    requires k <= |items| && Fill(items[..k]).Bad?
    ensures Fill(items) == Fill(items[..k])
    decreases |items|
  {
    if k < |items| {
      var init := items[..|items| - 1];
      assert init[..k] == items[..k];
      BadStays(init, k);
    } else {
      assert items[..k] == items;
    }
  }

  lemma FillNext(items: seq<Item>, k: nat)
    requires k < |items|
    ensures Fill(items[..k + 1]) == Add(Fill(items[..k]), items[k])
  {
    assert items[..k + 1][..k] == items[..k];
  }

  /** One item, seen by the loop: it changes the dictionary, or it decides the whole. */
  lemma LoopStep(pieces: seq<string>, i: nat, raw: map<string, string>)
    requires i < |pieces| && Fill(ItemsOf(pieces)[..i]) == Filled(raw)
    ensures Fill(ItemsOf(pieces)[..i + 1]) == Add(Filled(raw), ItemOf(pieces[i]))
    ensures Add(Filled(raw), ItemOf(pieces[i])).Bad? ==> Fill(ItemsOf(pieces)) == Add(Filled(raw), ItemOf(pieces[i]))
  {
    hide ItemOf, ItemsOf, Add, Fill;
    var items := ItemsOf(pieces);
    FillNext(items, i);
    if Add(Filled(raw), items[i]).Bad? { BadStays(items, i + 1); }
  }

  /** The loop over the items, with its early exits, reads off the dictionary what `Parse` says. */
  method ParseNamespaceSpec(spec: string) returns (r: Parsed)
    ensures r == Parse(spec)
  {
    hide Read, Strip, Find, Split, ItemsOf, Fill, KEYS;
    var raw: map<string, string> := map[];
    var pieces := Split(spec, ',');
    NothingFilled(pieces);
    for i := 0 to |pieces|
      invariant Fill(ItemsOf(pieces)[..i]) == Filled(raw)
    {
      LoopStep(pieces, i, raw);
      var item := Strip(pieces[i]);
      if item == "" { continue; }
      var eq := Find(item, '=');
      if eq == |item| {
        return Err(NotKeyValue);
      }
      var key := Strip(item[..eq]);
      if key !in KEYS {
        return Err(UnknownKey);
      }
      if key in raw {
        return Err(GivenTwice);
      }
      raw := raw[key := Strip(item[eq + 1..])];
    }
    assert ItemsOf(pieces)[..|pieces|] == ItemsOf(pieces);
    r := Read(raw);
  }

  lemma NothingFilled(pieces: seq<string>)
    ensures Fill(ItemsOf(pieces)[..0]) == Filled(map[])
  {
  }

  // ---- What is accepted -----------------------------------------------------------------------------

  predicate Known(key: string)
  {
    key in ["name", "mode", "transport", "url", "hostname", "max-trace-depth", "trace-filter-modules",
            "collect-await-frames"]
  }

  predicate Fits(item: Item) { item.Pair? ==> Known(item.key) }

  predicate SameKey(a: Item, b: Item) { a.Pair? && b.Pair? && a.key == b.key }

  /** No item is malformed, no key is unknown, and no two items have the same key. */
  predicate Acceptable(items: seq<Item>)
  {
    && (forall i :: 0 <= i < |items| ==> items[i] != Malformed && Fits(items[i]))
    && (forall i, j :: 0 <= i < j < |items| ==> !SameKey(items[i], items[j]))
  }

  /** The dictionary holds exactly the given pairs. */
  predicate Holds(raw: map<string, string>, items: seq<Item>)
  {
    && (forall i :: 0 <= i < |items| && items[i].Pair? ==> items[i].key in raw && raw[items[i].key] == items[i].value)
    && (forall k :: k in raw ==> exists i :: 0 <= i < |items| && items[i] == Pair(k, raw[k]))
  }

  /** The loop succeeds exactly on acceptable items, and then collects exactly their pairs. */
  lemma {:induction false} FillMeaning(items: seq<Item>)
    ensures Fill(items).Filled? <==> Acceptable(items)
    ensures Fill(items).Filled? ==> Holds(Fill(items).raw, items)
    decreases |items|
  {
    if items != [] {
      var init, last := items[..|items| - 1], items[|items| - 1];
      FillMeaning(init);
      if Acceptable(items) {
        assert Acceptable(init) by {
          forall i, j | 0 <= i < j < |init| ensures !SameKey(init[i], init[j]) { assert !SameKey(items[i], items[j]); }
        }
        LastIsNew(items, Fill(init).raw);
      } else if Acceptable(init) {
        LastClashes(items, Fill(init).raw);
      }
      if Fill(items).Filled? {
        HoldsNext(init, last, Fill(init).raw);
        assert items == init + [last];
      }
    }
  }

  lemma LastIsNew(items: seq<Item>, raw: map<string, string>)
    requires items != [] && Acceptable(items) && Holds(raw, items[..|items| - 1])
    ensures var last := items[|items| - 1]; last.Pair? ==> last.key !in raw
  {
    var n := |items| - 1;
    if items[n].Pair? && items[n].key in raw {
      var i :| 0 <= i < n && items[..n][i] == Pair(items[n].key, raw[items[n].key]);
      assert SameKey(items[i], items[n]);
    }
  }

  lemma LastClashes(items: seq<Item>, raw: map<string, string>)
    requires items != [] && !Acceptable(items) && Acceptable(items[..|items| - 1]) && Holds(raw, items[..|items| - 1])
    ensures Add(Filled(raw), items[|items| - 1]).Bad?
  {
    var n := |items| - 1;
    var last := items[n];
    if last != Malformed && Fits(last) {
      var i := ClashingItem(items);
      assert items[..n][i] == items[i];
      hide Acceptable, KEYS;
    }
  }

  /** The only item that can share its key with an earlier one is the last. */
  lemma ClashingItem(items: seq<Item>) returns (i: nat)
    requires items != [] && !Acceptable(items) && Acceptable(items[..|items| - 1])
    requires items[|items| - 1] != Malformed && Fits(items[|items| - 1])
    ensures i < |items| - 1 && SameKey(items[i], items[|items| - 1])
  {
    hide KEYS, Fits, SameKey;
    var n := |items| - 1;
    var init := items[..n];
    forall a, b | 0 <= a < b < n
      ensures !SameKey(items[a], items[b])
    {
      assert !SameKey(init[a], init[b]);
    }
    forall a | 0 <= a < n
      ensures items[a] != Malformed && Fits(items[a])
    {
      assert init[a] == items[a];
    }
    var k, j :| 0 <= k < j < |items| && SameKey(items[k], items[j]);
    i := k;
  }

  lemma HoldsNext(init: seq<Item>, last: Item, raw: map<string, string>)
    requires Holds(raw, init) && Add(Filled(raw), last).Filled?
    ensures Holds(Add(Filled(raw), last).raw, init + [last])
  {
    var raw', items := Add(Filled(raw), last).raw, init + [last];
    forall k | k in raw'
      ensures exists i :: 0 <= i < |items| && items[i] == Pair(k, raw'[k])
    {
      if k in raw {
        var i :| 0 <= i < |init| && init[i] == Pair(k, raw[k]);
        assert items[i] == Pair(k, raw'[k]);
      } else {
        assert items[|init|] == Pair(k, raw'[k]);
      }
    }
  }

  /** A key given twice is always rejected, wherever the two items stand and whatever else is given. */
  lemma DuplicatesAreRejected(spec: string, i: nat, j: nat)
    requires i < j < |Split(spec, ',')|
    requires SameKey(ItemOf(Split(spec, ',')[i]), ItemOf(Split(spec, ',')[j]))
    ensures Parse(spec).Err?
  {
    FillMeaning(Items(spec));
    assert SameKey(Items(spec)[i], Items(spec)[j]);
  }

  /** Is `value` acceptable for `key`? */
  predicate ValueFits(key: string, value: string)
  {
    && (key == "mode" ==> value in ["client", "server", "loopback"])
    && (key == "transport" ==> value in ["loopback", "amqp"])
    && (key == "max-trace-depth" ==> ParseInt(value).Some?)
    && (key == "collect-await-frames" ==> ParseCollect(value).Some?)
  }

  /** The option for `key` says what the text `value` says. */
  predicate Says(o: Options, key: string, value: string)
  {
    && (key == "name" ==> o.name == value)
    && (key == "mode" ==> o.mode == value)
    && (key == "transport" ==> o.transport == value)
    && (key == "url" ==> o.url == Some(value))
    && (key == "hostname" ==> o.hostname == Some(value))
    && (key == "max-trace-depth" ==> o.maxTraceDepth.Some? && ParseInt(value) == o.maxTraceDepth)
    && (key == "trace-filter-modules" ==> o.traceFilterModules == Some(Modules(value)))
    && (key == "collect-await-frames" ==> o.collectAwaitFrames.Some? && ParseCollect(value) == o.collectAwaitFrames)
  }

  predicate IsDefault(o: Options, key: string)
  {
    && (key == "name" ==> o.name == "default")
    && (key == "mode" ==> o.mode == "loopback")
    && (key == "transport" ==> o.transport == "loopback")
    && (key == "url" ==> o.url == None)
    && (key == "hostname" ==> o.hostname == None)
    && (key == "max-trace-depth" ==> o.maxTraceDepth == None)
    && (key == "trace-filter-modules" ==> o.traceFilterModules == None)
    && (key == "collect-await-frames" ==> o.collectAwaitFrames == None)
  }

  predicate Gives(items: seq<Item>, key: string)
  {
    exists i :: 0 <= i < |items| && items[i].Pair? && items[i].key == key
  }

  predicate ValuesFit(items: seq<Item>)
  {
    forall i :: 0 <= i < |items| && items[i].Pair? ==> ValueFits(items[i].key, items[i].value)
  }

  lemma ReadMeaning(raw: map<string, string>)
    ensures Read(raw).Ok? <==> forall k :: k in raw ==> ValueFits(k, raw[k])
    ensures Read(raw).Ok? ==>
              forall k :: k in KEYS ==>
                if k in raw then Says(Read(raw).options, k, raw[k]) else IsDefault(Read(raw).options, k)
  {
    hide ParseInt, ParseCollect, Modules;
    if forall k :: k in raw ==> ValueFits(k, raw[k]) {
      assert MODE in raw ==> ValueFits(MODE, raw[MODE]);
      assert TRANSPORT in raw ==> ValueFits(TRANSPORT, raw[TRANSPORT]);
      assert DEPTH in raw ==> ValueFits(DEPTH, raw[DEPTH]);
      assert COLLECT in raw ==> ValueFits(COLLECT, raw[COLLECT]);
    }
  }

  lemma HoldsFits(raw: map<string, string>, items: seq<Item>)
    requires Holds(raw, items)
    ensures (forall k :: k in raw ==> ValueFits(k, raw[k])) <==> ValuesFit(items)
    ensures forall k :: k in raw <==> Gives(items, k)
  {
    hide ValueFits;
    if ValuesFit(items) {
      forall k | k in raw
        ensures ValueFits(k, raw[k])
      {
        var i :| 0 <= i < |items| && items[i] == Pair(k, raw[k]);
        assert items[i].Pair?;
      }
    }
  }

  lemma KnownKeys()
    ensures forall key :: Known(key) <==> key in KEYS
  {
  }

  /**
    A text is accepted exactly when its items are acceptable and every value fits its key; then each option says what
    the item with its key says, and is the default where there is no such item.
   */
  lemma ParseMeaning(spec: string)
    ensures Parse(spec).Ok? <==> Acceptable(Items(spec)) && ValuesFit(Items(spec))
    ensures Parse(spec).Ok? ==>
              forall i :: 0 <= i < |Items(spec)| && Items(spec)[i].Pair? ==>
                Says(Parse(spec).options, Items(spec)[i].key, Items(spec)[i].value)
    ensures Parse(spec).Ok? ==>
              forall k :: k in KEYS && !Gives(Items(spec), k) ==> IsDefault(Parse(spec).options, k)
  {
    KnownKeys();
    hide Read, Says, IsDefault, ValuesFit, ValueFits, Items, Fill, KEYS, Known;
    FillMeaning(Items(spec));
    if Fill(Items(spec)).Filled? {
      var raw := Fill(Items(spec)).raw;
      HoldsFits(raw, Items(spec));
      ReadMeaning(raw);
    }
  }

  // ---- Which problem is reported --------------------------------------------------------------------

  /** Item `n` is the first one that makes the items unacceptable, for the reason `p`. */
  predicate FirstBad(items: seq<Item>, n: nat, p: Problem)
  {
    && n < |items| && Acceptable(items[..n])
    && match items[n]
       case Blank => false
       case Malformed => p == NotKeyValue
       case Pair(key, _) =>
         if key !in KEYS then p == UnknownKey
         else p == GivenTwice && exists i :: 0 <= i < n && SameKey(items[i], items[n])
  }

  lemma FirstBadIsReported(items: seq<Item>, n: nat, p: Problem)
    requires FirstBad(items, n, p)
    ensures Fill(items) == Bad(p)
  {
    hide KEYS;
    FillMeaning(items[..n]);
    FillNext(items, n);
    var raw := Fill(items[..n]).raw;
    if items[n].Pair? && p == GivenTwice {
      var i :| 0 <= i < n && SameKey(items[i], items[n]);
      assert items[..n][i] == items[i];
      assert items[n].key in raw;
    }
    BadStays(items, n + 1);
  }

  lemma {:induction false} ReportedIsFirstBad(items: seq<Item>) returns (n: nat)
    requires Fill(items).Bad?
    ensures FirstBad(items, n, Fill(items).problem)
    decreases |items|
  {
    var k := |items| - 1;
    if Fill(items[..k]).Bad? {
      n := ReportedIsFirstBad(items[..k]);
      assert items[..k][..n] == items[..n];
      assert items[..k][n] == items[n];
    } else {
      hide KEYS;
      n := k;
      FillMeaning(items[..k]);
      var raw := Fill(items[..k]).raw;
      if items[k].Pair? && items[k].key in raw {
        var i :| 0 <= i < k && items[..k][i] == Pair(items[k].key, raw[items[k].key]);
        assert SameKey(items[i], items[k]);
      }
    }
  }

  /** The keys with values that may not fit, in the order they are checked, and what each misfit is called. */
  const CHECKED: seq<string> := [MODE, TRANSPORT, DEPTH, COLLECT]
  const MISFITS: seq<Problem> := [BadMode, BadTransport, BadDepth, BadCollect]

  predicate Misfit(items: seq<Item>, key: string)
  {
    exists i :: 0 <= i < |items| && items[i].Pair? && items[i].key == key && !ValueFits(key, items[i].value)
  }

  predicate FirstMisfit(items: seq<Item>, n: nat, p: Problem)
  {
    n < 4 && p == MISFITS[n] && Misfit(items, CHECKED[n]) && forall m :: 0 <= m < n ==> !Misfit(items, CHECKED[m])
  }

  lemma MisfitMeaning(raw: map<string, string>, items: seq<Item>, key: string)
    requires Holds(raw, items)
    ensures Misfit(items, key) <==> key in raw && !ValueFits(key, raw[key])
  {
    hide ValueFits;
    if key in raw && !ValueFits(key, raw[key]) {
      var i :| 0 <= i < |items| && items[i] == Pair(key, raw[key]);
      assert items[i].key == key;
    }
  }

  lemma ReadProblem(raw: map<string, string>, items: seq<Item>, p: Problem)
    requires Holds(raw, items)
    ensures Read(raw) == Err(p) <==> exists n :: 0 <= n < 4 && FirstMisfit(items, n, p)
  {
    hide ParseInt, ParseCollect, Modules, Misfit;
    MisfitMeaning(raw, items, MODE);
    MisfitMeaning(raw, items, TRANSPORT);
    MisfitMeaning(raw, items, DEPTH);
    MisfitMeaning(raw, items, COLLECT);
    if Read(raw) == Err(p) {
      var n := if p == BadMode then 0 else if p == BadTransport then 1 else if p == BadDepth then 2 else 3;
      assert FirstMisfit(items, n, p);
    }
    if n :| 0 <= n < 4 && FirstMisfit(items, n, p) {
      assert CHECKED[0] == MODE && CHECKED[1] == TRANSPORT && CHECKED[2] == DEPTH && CHECKED[3] == COLLECT;
      assert forall m :: 0 <= m < n ==> !Misfit(items, CHECKED[m]);
    }
  }

  /**
    A text is rejected with the problem of its first bad item; or, if all its items are acceptable, with that of
    the first value that does not fit, in the order mode, transport, depth, flag - wherever it stands in the text.
   */
  lemma ProblemMeaning(spec: string, p: Problem)
    ensures Parse(spec) == Err(p) <==>
              || (exists n :: 0 <= n < |Items(spec)| && FirstBad(Items(spec), n, p))
              || (Acceptable(Items(spec)) && exists n :: 0 <= n < 4 && FirstMisfit(Items(spec), n, p))
  {
    hide Read, FirstMisfit, FirstBad, Items, Fill, Acceptable;
    var items := Items(spec);
    FillMeaning(items);
    if Fill(items).Filled? {
      ReadProblem(Fill(items).raw, items, p);
    } else {
      var n := ReportedIsFirstBad(items);
      BadIsInside(items, n, Fill(items).problem);
    }
    if n :| 0 <= n < |items| && FirstBad(items, n, p) {
      FirstBadIsReported(items, n, p);
    }
  }

  lemma BadIsInside(items: seq<Item>, n: nat, p: Problem)
    requires FirstBad(items, n, p)
    ensures n < |items|
  {
  }

  // ---- What the result does not depend on -----------------------------------------------------------

  /** The items without the blank ones. */
  function Solid(items: seq<Item>): seq<Item>
  {
    if items == [] then []
    else Solid(items[..|items| - 1]) + (if items[|items| - 1] == Blank then [] else [items[|items| - 1]])
  }

  lemma {:induction false} FillSolid(items: seq<Item>)
    ensures Fill(items) == Fill(Solid(items))
    decreases |items|
  {
    if items != [] {
      var init, last := items[..|items| - 1], items[|items| - 1];
      FillSolid(init);
      if last != Blank {
        assert Solid(items)[..|Solid(items)| - 1] == Solid(init);
      } else {
        assert Solid(items) == Solid(init);
      }
    }
  }

  /** Texts with the same items up to blank ones are parsed alike, down to the reported problem. */
  lemma BlankItemsDoNotMatter(s: string, t: string)
    requires Solid(Items(s)) == Solid(Items(t))
    ensures Parse(s) == Parse(t)
  {
    FillSolid(Items(s));
    FillSolid(Items(t));
  }

  /** Both rejected, or the same options. */
  predicate Alike(a: Parsed, b: Parsed) { a == b || (a.Err? && b.Err?) }

  predicate AlikeFilling(f: Filling, g: Filling) { f == g || (f.Bad? && g.Bad?) }

  lemma AddCommutes(f: Filling, a: Item, b: Item)
    ensures AlikeFilling(Add(Add(f, a), b), Add(Add(f, b), a))
  {
    if f.Filled? && a.Pair? && b.Pair? && a.key != b.key {
      assert f.raw[a.key := a.value][b.key := b.value] == f.raw[b.key := b.value][a.key := a.value];
    }
  }

  lemma {:induction false} MoveLast(items: seq<Item>, i: nat)
    requires i < |items|
    ensures AlikeFilling(Fill(items), Add(Fill(RemoveAt(items, i)), items[i]))
    decreases |items|
  {
    var init, last := items[..|items| - 1], items[|items| - 1];
    var rest := RemoveAt(items, i);
    if i == |init| {
      assert rest == init;
    } else {
      MoveLast(init, i);
      assert rest[..|rest| - 1] == RemoveAt(init, i);
      AddCommutes(Fill(RemoveAt(init, i)), items[i], last);
    }
  }

  lemma {:induction false} FillPermuted(items: seq<Item>, items': seq<Item>)
    requires multiset(items) == multiset(items')
    ensures AlikeFilling(Fill(items), Fill(items'))
    decreases |items|
  {
    if items == [] {
      assert |items'| == |multiset(items')| == 0;
    } else {
      hide AlikeFilling, Add;
      var i := LastElsewhere(items, items');
      FillPermuted(items[..|items| - 1], RemoveAt(items', i));
      MoveLast(items', i);
      AlikeAdds(Fill(items[..|items| - 1]), Fill(RemoveAt(items', i)), items'[i], Fill(items'));
    }
  }

  lemma AlikeAdds(f: Filling, g: Filling, item: Item, h: Filling)
    requires AlikeFilling(f, g) && AlikeFilling(h, Add(g, item))
    ensures AlikeFilling(Add(f, item), h)
  {
  }

  /** Where the last element stands in a permutation, and what is left on both sides. */
  lemma LastElsewhere<T>(s: seq<T>, s': seq<T>) returns (i: nat)
    requires s != [] && multiset(s) == multiset(s')
    ensures i < |s'| && s'[i] == s[|s| - 1] && multiset(s[..|s| - 1]) == multiset(RemoveAt(s', i))
  {
    var last := s[|s| - 1];
    assert s == s[..|s| - 1] + [last];
    assert last in multiset(s');
    i :| 0 <= i < |s'| && s'[i] == last;
    RemovedMultiset(s', i);
  }

  lemma RemovedMultiset<T>(s: seq<T>, i: nat)
    requires i < |s|
    ensures multiset(RemoveAt(s, i)) == multiset(s) - multiset{s[i]}
    ensures multiset(s) == multiset(RemoveAt(s, i)) + multiset{s[i]}
  {
    assert s == s[..i] + [s[i]] + s[i + 1..];
  }

  /** Reordering the items, and adding or dropping blank ones, changes neither acceptance nor the options. */
  lemma OrderDoesNotMatter(s: string, t: string)
    requires multiset(Solid(Items(s))) == multiset(Solid(Items(t)))
    ensures Alike(Parse(s), Parse(t))
  {
    FillSolid(Items(s));
    FillSolid(Items(t));
    FillPermuted(Solid(Items(s)), Solid(Items(t)));
  }

  lemma {:induction false} SolidConcat(a: seq<Item>, b: seq<Item>)
    ensures Solid(a + b) == Solid(a) + Solid(b)
    decreases |b|
  {
    if b == [] {
      assert a + b == a;
    } else {
      assert (a + b)[..|a + b| - 1] == a + b[..|b| - 1];
      SolidConcat(a, b[..|b| - 1]);
    }
  }

  lemma {:induction false} SolidPermuted(a: seq<Item>, b: seq<Item>)
    requires multiset(a) == multiset(b)
    ensures multiset(Solid(a)) == multiset(Solid(b))
  {
    SolidMultiset(a);
    SolidMultiset(b);
  }

  lemma {:induction false} SolidMultiset(a: seq<Item>)
    ensures multiset(Solid(a)) == multiset(a)[Blank := 0]
    decreases |a|
  {
    if a != [] {
      SolidMultiset(a[..|a| - 1]);
      assert a == a[..|a| - 1] + [a[|a| - 1]];
    }
  }

  /** Any permutation of the comma-separated pieces is accepted alike. */
  lemma PermutedPieces(pieces: seq<string>, pieces': seq<string>)
    requires multiset(pieces) == multiset(pieces') && pieces != []
    requires forall i :: 0 <= i < |pieces| ==> ',' !in pieces[i]
    ensures Alike(Parse(Join(pieces, ',')), Parse(Join(pieces', ',')))
  {
    assert forall p :: p in multiset(pieces) <==> p in pieces;
    assert forall p :: p in multiset(pieces') <==> p in pieces';
    assert pieces' != [] by { assert pieces[0] in multiset(pieces'); }
    forall i | 0 <= i < |pieces'| ensures ',' !in pieces'[i] { assert pieces'[i] in multiset(pieces); }
    SplitJoin(pieces, ',');
    SplitJoin(pieces', ',');
    ItemsPermuted(pieces, pieces');
    SolidPermuted(ItemsOf(pieces), ItemsOf(pieces'));
    OrderDoesNotMatter(Join(pieces, ','), Join(pieces', ','));
  }

  lemma {:induction false} ItemsPermuted(pieces: seq<string>, pieces': seq<string>)
    requires multiset(pieces) == multiset(pieces')
    ensures multiset(ItemsOf(pieces)) == multiset(ItemsOf(pieces'))
    decreases |pieces|
  {
    hide ItemOf;
    if pieces == [] {
      assert |pieces'| == |multiset(pieces')| == 0;
    } else {
      var i := LastElsewhere(pieces, pieces');
      ItemsPermuted(pieces[..|pieces| - 1], RemoveAt(pieces', i));
      ItemsRemoved(pieces', i);
    }
  }

  lemma ItemsRemoved(pieces: seq<string>, i: nat)
    requires i < |pieces|
    ensures multiset(ItemsOf(pieces)) == multiset(ItemsOf(RemoveAt(pieces, i))) + multiset{ItemOf(pieces[i])}
  {
    hide ItemOf, ItemsOf;
    RemovedMultiset(ItemsOf(pieces), i);
    ItemsOfRemoved(pieces, i);
  }

  lemma RemovedAt<T>(s: seq<T>, i: nat, k: nat)
    requires i < |s| && k < |s| - 1
    ensures RemoveAt(s, i)[k] == s[if k < i then k else k + 1]
  {
  }

  lemma ItemsOfRemoved(pieces: seq<string>, i: nat)
    requires i < |pieces|
    ensures RemoveAt(ItemsOf(pieces), i) == ItemsOf(RemoveAt(pieces, i))
  {
    hide ItemOf, ItemsOf;
    var a, b, rest := RemoveAt(ItemsOf(pieces), i), ItemsOf(RemoveAt(pieces, i)), RemoveAt(pieces, i);
    forall k | 0 <= k < |rest|
      ensures a[k] == b[k]
    {
      RemovedAt(pieces, i, k);
      RemovedAt(ItemsOf(pieces), i, k);
    }
  }

  /** Whitespace around an item, and around its key and its value, is not seen. */
  lemma PaddingIsNotSeen(a: string, key: string, b: string, c: string, value: string, d: string)
    requires AllSpace(a) && AllSpace(b) && AllSpace(c) && AllSpace(d)
    requires '=' !in key
    ensures ItemOf(a + key + b + "=" + c + value + d) == ItemOf(key + "=" + value) == Pair(Strip(key), Strip(value))
  {
    var left, right := a + key + b, c + value + d;
    SpacesHaveNoEquals(left, a, b, key);
    StripPadding(a, key, b);
    StripPadding(c, value, d);
    hide AllSpace, ItemOf, Strip;
    ItemOfPair(left, right);
    ItemOfPair(key, value);
    assert left + "=" + c + value + d == left + "=" + right;
  }

  lemma ItemOfPair(key: string, value: string)
    requires '=' !in key
    ensures ItemOf(key + "=" + value) == Pair(Strip(key), Strip(value))
  {
    hide Strip, Find;
    var item := LStrip(key) + ['='] + RStrip(value);
    StripAround(key, '=', value);
    LStripIsSuffix(key);
    FindAt(LStrip(key), '=', RStrip(value));
    assert item[..|LStrip(key)|] == LStrip(key) && item[|LStrip(key)| + 1..] == RStrip(value);
    StripOfLStrip(key);
    StripOfRStrip(value);
  }

  lemma SpacesHaveNoEquals(text: string, a: string, b: string, key: string)
    requires AllSpace(a) && AllSpace(b) && '=' !in key && text == a + key + b
    ensures '=' !in text
  {
  }

  lemma {:induction false} ItemsOfConcat(a: seq<string>, b: seq<string>)
    ensures ItemsOf(a + b) == ItemsOf(a) + ItemsOf(b)
  {
    hide ItemOf;
  }

  predicate NoComma(pieces: seq<string>) { forall i :: 0 <= i < |pieces| ==> ',' !in pieces[i] }

  lemma ParseOfPieces(pieces: seq<string>)
    requires pieces != [] && NoComma(pieces)
    ensures Items(Join(pieces, ',')) == ItemsOf(pieces)
  {
    SplitJoin(pieces, ',');
  }

  /** An empty or whitespace item can be inserted anywhere, without changing even the reported problem. */
  lemma InsertedBlank(before: seq<string>, blank: string, after: seq<string>)
    requires before + after != [] && NoComma(before) && NoComma(after) && AllSpace(blank)
    ensures Parse(Join(before + [blank] + after, ',')) == Parse(Join(before + after, ','))
  {
    hide Parse, Join, Items, Solid, ItemsOf, AllSpace;
    var with, without := before + [blank] + after, before + after;
    BlankItem(blank);
    ParseOfPieces(with);
    ParseOfPieces(without);
    SolidSkips(before, blank, after);
    BlankItemsDoNotMatter(Join(with, ','), Join(without, ','));
  }

  lemma SolidSkips(before: seq<string>, blank: string, after: seq<string>)
    requires AllSpace(blank)
    ensures Solid(ItemsOf(before + [blank] + after)) == Solid(ItemsOf(before + after))
  {
    hide Solid, ItemsOf, AllSpace;
    BlankItem(blank);
    var a, b := ItemsOf(before), ItemsOf(after);
    ItemsOfConcat(before + [blank], after);
    ItemsOfConcat(before, [blank]);
    ItemsOfConcat(before, after);
    SolidConcat(a + [Blank], b);
    SolidConcat(a, [Blank]);
    SolidConcat(a, b);
  }

  lemma BlankItem(blank: string)
    requires AllSpace(blank)
    ensures ItemsOf([blank]) == [Blank] && Solid([Blank]) == [] && ',' !in blank
  {
    LStripAllSpace(blank);
  }

  /** Padding any piece with whitespace changes nothing either. */
  lemma PaddedPiece(pieces: seq<string>, i: nat, a: string, b: string)
    requires i < |pieces| && NoComma(pieces) && AllSpace(a) && AllSpace(b)
    ensures Parse(Join(pieces[i := a + pieces[i] + b], ',')) == Parse(Join(pieces, ','))
  {
    hide Parse, Join, Items, Strip, AllSpace;
    var pieces' := pieces[i := a + pieces[i] + b];
    SpacesHaveNoComma(a, pieces[i], b);
    ParseOfPieces(pieces);
    ParseOfPieces(pieces');
    StripPadding(a, pieces[i], b);
    assert ItemsOf(pieces') == ItemsOf(pieces);
    BlankItemsDoNotMatter(Join(pieces', ','), Join(pieces, ','));
  }

  lemma SpacesHaveNoComma(a: string, piece: string, b: string)
    requires AllSpace(a) && AllSpace(b) && ',' !in piece
    ensures ',' !in a + piece + b
  {
  }

  // ---- What the values mean -------------------------------------------------------------------------

  /** Nothing, one module, and modules on both sides of a colon: this determines the list for every value. */
  lemma ModulesMeaning(m: string, a: string, b: string)
    requires m != "" && ':' !in m
    ensures Modules("") == [] && Modules(m) == [m]
    ensures Modules(a + ":" + b) == Modules(a) + Modules(b)
  {
    SplitWithout(m, ':');
    SplitOfConcat(a, b, ':');
    assert a + [':'] + b == a + ":" + b;
    NonEmptyConcat(Split(a, ':'), Split(b, ':'));
  }

  /** Equal but for ASCII upper case in `v`; `w` is a lower-case word. */
  predicate SpelledLike(v: string, w: string)
  {
    && |v| == |w|
    && forall i :: 0 <= i < |v| ==> v[i] == w[i] || ('A' <= v[i] <= 'Z' && v[i] as int + 32 == w[i] as int)
  }

  predicate LowerCase(w: string) { forall i :: 0 <= i < |w| ==> !('A' <= w[i] <= 'Z') }

  lemma {:induction false} LowerMeaning(v: string, w: string)
    requires LowerCase(w)
    ensures Lower(v) == w <==> SpelledLike(v, w)
    decreases |v|
  {
    if v != "" && w != "" {
      hide LowerCase, SpelledLike;
      TailLowerCase(w);
      LowerMeaning(v[1..], w[1..]);
      SpelledTail(v, w);
      var first := if 'A' <= v[0] <= 'Z' then (v[0] as int + 32) as char else v[0];
      assert Lower(v) == [first] + Lower(v[1..]) && w == [w[0]] + w[1..];
    }
  }

  lemma TailLowerCase(w: string)
    requires LowerCase(w) && w != ""
    ensures LowerCase(w[1..]) && !('A' <= w[0] <= 'Z')
  {
  }

  lemma SpelledTail(v: string, w: string)
    requires v != "" && w != "" && !('A' <= w[0] <= 'Z')
    ensures var first := if 'A' <= v[0] <= 'Z' then (v[0] as int + 32) as char else v[0];
            SpelledLike(v, w) <==> first == w[0] && SpelledLike(v[1..], w[1..])
  {
    assert forall i :: 0 < i < |v| ==> v[i] == v[1..][i - 1];
    assert forall i :: 0 < i < |w| ==> w[i] == w[1..][i - 1];
    if SpelledLike(v[1..], w[1..]) {
      assert |v| == |w| ==> forall i :: 0 < i < |v| ==>
               v[1..][i - 1] == w[1..][i - 1] || ('A' <= v[i] <= 'Z' && v[i] as int + 32 == w[i] as int);
    }
  }

  /** True and false are exactly their three words each, in any case; anything else is rejected. */
  lemma CollectMeaning(v: string)
    ensures ParseCollect(v) == Some(true) <==> SpelledLike(v, "true") || SpelledLike(v, "yes") || SpelledLike(v, "1")
    ensures ParseCollect(v) == Some(false) <==> SpelledLike(v, "false") || SpelledLike(v, "no") || SpelledLike(v, "0")
  {
    LowerMeaning(v, "true");
    LowerMeaning(v, "yes");
    LowerMeaning(v, "1");
    LowerMeaning(v, "false");
    LowerMeaning(v, "no");
    LowerMeaning(v, "0");
  }

  // ---- Printing -------------------------------------------------------------------------------------

  /** The modules between colons, so that no module is next to the end of the value. */
  function PrintModules(modules: seq<string>): string { ":" + Join(modules, ':') + ":" }

  function PrintCollect(b: bool): string { if b then "true" else "false" }

  /** The text of the value for `key`, if the options have one. */
  function ValueOf(o: Options, key: string): Option<string>
  {
    if key == NAME then Some(o.name)
    else if key == MODE then Some(o.mode)
    else if key == TRANSPORT then Some(o.transport)
    else if key == URL then o.url
    else if key == HOSTNAME then o.hostname
    else if key == DEPTH then (match o.maxTraceDepth case None => None case Some(d) => Some(PrintInt(d)))
    else if key == FILTER then (match o.traceFilterModules case None => None case Some(ms) => Some(PrintModules(ms)))
    else (match o.collectAwaitFrames case None => None case Some(b) => Some(PrintCollect(b)))
  }

  function PrintItems(o: Options, keys: seq<string>): seq<string>
  {
    if keys == [] then []
    else
      var n := |keys| - 1;
      PrintItems(o, keys[..n]) +
      match ValueOf(o, keys[n]) case None => [] case Some(v) => [keys[n] + "=" + v]
  }

  function Print(o: Options): string { Join(PrintItems(o, KEYS), ',') }

  predicate Clean(value: string) { Stripped(value) && ',' !in value }

  predicate CleanOption(value: Option<string>) { value.Some? ==> Clean(value.value) }

  predicate CleanModule(m: string) { m != "" && ':' !in m && ',' !in m }

  /** The options that have a text. */
  predicate Representable(o: Options)
  {
    && Clean(o.name) && o.mode in ["client", "server", "loopback"] && o.transport in ["loopback", "amqp"]
    && CleanOption(o.url) && CleanOption(o.hostname)
    && (o.traceFilterModules.Some? ==>
          forall i :: 0 <= i < |o.traceFilterModules.value| ==> CleanModule(o.traceFilterModules.value[i]))
  }

  // ---- Parsing undoes printing ----------------------------------------------------------------------

  lemma {:induction false} NonEmptyConcat(a: seq<string>, b: seq<string>)
    ensures NonEmpty(a + b) == NonEmpty(a) + NonEmpty(b)
    decreases |a|
  {
    if a == [] {
      assert a + b == b;
    } else {
      assert (a + b)[1..] == a[1..] + b;
      NonEmptyConcat(a[1..], b);
    }
  }

  lemma {:induction false} NonEmptyKeeps(ws: seq<string>)
    requires forall i :: 0 <= i < |ws| ==> ws[i] != ""
    ensures NonEmpty(ws) == ws
    decreases |ws|
  {
    if ws != [] { NonEmptyKeeps(ws[1..]); }
  }

  lemma ModulesOfPrinted(ms: seq<string>)
    requires forall i :: 0 <= i < |ms| ==> CleanModule(ms[i])
    ensures Modules(PrintModules(ms)) == ms
  {
    var joined := Join(ms, ':');
    SplitOfConcat("", joined + ":", ':');
    SplitOfConcat(joined, "", ':');
    assert "" + [':'] + (joined + ":") == PrintModules(ms) && joined + [':'] + "" == joined + ":";
    NonEmptyConcat([""], Split(joined, ':') + [""]);
    NonEmptyConcat(Split(joined, ':'), [""]);
    if ms != [] {
      SplitJoin(ms, ':');
      NonEmptyKeeps(ms);
    }
  }

  lemma {:induction false} JoinAvoids(ws: seq<string>, sep: char, c: char)
    requires c != sep && forall i :: 0 <= i < |ws| ==> c !in ws[i]
    ensures c !in Join(ws, sep)
    decreases |ws|
  {
    if |ws| > 1 { JoinAvoids(ws[1..], sep, c); }
  }

  lemma ValueIsClean(o: Options, key: string)
    requires Representable(o)
    ensures CleanOption(ValueOf(o, key))
  {
    hide PrintInt, Join, Stripped;
    CleanConstants();
    if o.traceFilterModules.Some? { PrintedModulesAreClean(o.traceFilterModules.value); }
    if o.maxTraceDepth.Some? { ParsePrintInt(o.maxTraceDepth.value); }
  }

  lemma CleanConstants()
    ensures Clean("client") && Clean("server") && Clean("loopback") && Clean("amqp") && Clean("true") && Clean("false")
  {
  }

  lemma PrintedModulesAreClean(ms: seq<string>)
    requires forall i :: 0 <= i < |ms| ==> CleanModule(ms[i])
    ensures Clean(PrintModules(ms))
  {
    JoinAvoids(ms, ':', ',');
  }

  lemma KeyIsPlain(key: string)
    requires key in KEYS
    ensures '=' !in key && ',' !in key && Strip(key) == key
  {
    hide Strip;
    StripOfStripped(key);
  }

  lemma PrintedItem(o: Options, key: string)
    requires Representable(o) && key in KEYS && ValueOf(o, key).Some?
    ensures var v := ValueOf(o, key).value;
            ',' !in key + "=" + v && ItemOf(key + "=" + v) == Pair(key, v)
  {
    hide Strip, ItemOf, ValueOf;
    KeyIsPlain(key);
    ValueIsClean(o, key);
    var v := ValueOf(o, key).value;
    ItemOfPair(key, v);
    StripOfStripped(v);
  }

  /** The dictionary holds the values of these keys and nothing else. */
  ghost predicate Covers(raw: map<string, string>, o: Options, keys: seq<string>)
  {
    && (forall k :: k in keys ==> Get(raw, k) == ValueOf(o, k))
    && (forall k :: k in raw ==> k in keys)
  }

  lemma CoversNext(raw: map<string, string>, o: Options, keys: seq<string>, key: string)
    requires Covers(raw, o, keys) && key !in keys
    ensures var v := ValueOf(o, key); Covers(if v.Some? then raw[key := v.value] else raw, o, keys + [key])
  {
    hide ValueOf;
  }

  lemma LastIsFresh(keys: seq<string>)
    requires keys != [] && Distinct(keys)
    ensures keys[|keys| - 1] !in keys[..|keys| - 1]
  {
  }

  ghost predicate Comma(pieces: seq<string>) { exists i :: 0 <= i < |pieces| && ',' in pieces[i] }

  lemma CommaSnoc(pieces: seq<string>, piece: string)
    requires !Comma(pieces) && ',' !in piece
    ensures !Comma(pieces + [piece])
  {
  }

  lemma PrintNext(o: Options, keys: seq<string>)
    requires keys != [] && Representable(o) && keys[|keys| - 1] in KEYS
    requires !Comma(PrintItems(o, keys[..|keys| - 1]))
    ensures var key, f := keys[|keys| - 1], Fill(ItemsOf(PrintItems(o, keys[..|keys| - 1])));
            && !Comma(PrintItems(o, keys))
            && Fill(ItemsOf(PrintItems(o, keys))) ==
                 match ValueOf(o, key) case None => f case Some(v) => Add(f, Pair(key, v))
  {
    hide ValueOf, ItemOf, Representable, Add, Fill, ItemsOf, Comma, KEYS;
    var key, before := keys[|keys| - 1], PrintItems(o, keys[..|keys| - 1]);
    match ValueOf(o, key) {
      case None =>
        assert PrintItems(o, keys) == before;
      case Some(v) =>
        PrintedItem(o, key);
        var piece := key + "=" + v;
        assert PrintItems(o, keys) == before + [piece];
        CommaSnoc(before, piece);
        ItemsOfSnoc(before, piece);
    }
  }

  /** The dictionary read back from the printed items holds the values of the keys and nothing else. */
  lemma {:induction false} PrintedItemsFill(o: Options, keys: seq<string>)
    requires Representable(o) && Distinct(keys) && forall i :: 0 <= i < |keys| ==> keys[i] in KEYS
    ensures !Comma(PrintItems(o, keys))
    ensures var f := Fill(ItemsOf(PrintItems(o, keys))); f.Filled? && Covers(f.raw, o, keys)
    decreases |keys|
  {
    hide ValueOf, ItemOf, Representable, PrintItems, ItemsOf, Fill, Covers;
    if keys == [] {
      NothingPrinted(o);
    } else {
      var n := |keys| - 1;
      PrintedItemsFill(o, keys[..n]);
      assert keys == keys[..n] + [keys[n]];
      LastIsFresh(keys);
      PrintNext(o, keys);
      var raw := Fill(ItemsOf(PrintItems(o, keys[..n]))).raw;
      CoversNext(raw, o, keys[..n], keys[n]);
      NotThere(raw, o, keys[..n], keys[n]);
    }
  }

  lemma NotThere(raw: map<string, string>, o: Options, keys: seq<string>, key: string)
    requires Covers(raw, o, keys) && key !in keys
    ensures key !in raw
  {
  }

  lemma NothingPrinted(o: Options)
    ensures PrintItems(o, []) == [] && Fill(ItemsOf([])) == Filled(map[]) && Covers(map[], o, [])
  {
  }

  lemma ItemsOfSnoc(pieces: seq<string>, piece: string)
    ensures ItemsOf(pieces + [piece]) == ItemsOf(pieces) + [ItemOf(piece)]
    ensures Fill(ItemsOf(pieces + [piece])) == Add(Fill(ItemsOf(pieces)), ItemOf(piece))
  {
    assert (pieces + [piece])[..|pieces|] == pieces;
    assert ItemsOf(pieces + [piece])[..|pieces|] == ItemsOf(pieces);
  }

  lemma ValuesOf(o: Options)
    ensures ValueOf(o, NAME) == Some(o.name) && ValueOf(o, MODE) == Some(o.mode)
    ensures ValueOf(o, TRANSPORT) == Some(o.transport) && ValueOf(o, URL) == o.url && ValueOf(o, HOSTNAME) == o.hostname
    ensures ValueOf(o, DEPTH) == if o.maxTraceDepth.None? then None else Some(PrintInt(o.maxTraceDepth.value))
    ensures ValueOf(o, FILTER) ==
            if o.traceFilterModules.None? then None else Some(PrintModules(o.traceFilterModules.value))
    ensures ValueOf(o, COLLECT) ==
            if o.collectAwaitFrames.None? then None else Some(PrintCollect(o.collectAwaitFrames.value))
  {
  }

  lemma Looked(raw: map<string, string>, o: Options, key: string)
    requires Covers(raw, o, KEYS) && key in KEYS
    ensures Get(raw, key) == ValueOf(o, key)
  {
  }

  lemma ReadBack(raw: map<string, string>, o: Options)
    requires Representable(o) && Covers(raw, o, KEYS)
    ensures Read(raw) == Ok(o)
  {
    hide Modules, PrintModules, ParseInt, PrintInt, ValueOf, Covers, ParseCollect, PrintCollect, Clean, CleanModule;
    ValuesOf(o);
    Looked(raw, o, NAME);
    Looked(raw, o, MODE);
    Looked(raw, o, TRANSPORT);
    Looked(raw, o, URL);
    Looked(raw, o, HOSTNAME);
    Looked(raw, o, DEPTH);
    Looked(raw, o, FILTER);
    Looked(raw, o, COLLECT);
    if o.maxTraceDepth.Some? { ParsePrintInt(o.maxTraceDepth.value); }
    if o.traceFilterModules.Some? { ModulesOfPrinted(o.traceFilterModules.value); }
    CollectReadBack();
  }

  lemma CollectReadBack()
    ensures ParseCollect(PrintCollect(true)) == Some(true) && ParseCollect(PrintCollect(false)) == Some(false)
  {
    assert Lower("true") == "true";
    assert Lower("false") == "false";
  }

  /** Parsing the printed options gives them back. */
  lemma RoundTrip(o: Options)
    requires Representable(o)
    ensures Parse(Print(o)) == Ok(o)
  {
    hide Read, ValueOf, Covers, PrintItems, Fill, Representable;
    var items := PrintItems(o, KEYS);
    PrintedItemsFill(o, KEYS);
    NamePrinted(o);
    SplitJoin(items, ',');
    ReadBack(Fill(ItemsOf(items)).raw, o);
  }

  lemma NamePrinted(o: Options)
    ensures PrintItems(o, KEYS) != []
  {
    PrintItemsFirst(o, KEYS);
  }

  lemma {:induction false} PrintItemsFirst(o: Options, keys: seq<string>)
    requires keys != [] && keys[0] == NAME
    ensures PrintItems(o, keys) != []
    decreases |keys|
  {
    if |keys| > 1 { PrintItemsFirst(o, keys[..|keys| - 1]); }
  }

  // ---- Everything the parser accepts has a text -----------------------------------------------------

  lemma ItemIsClean(piece: string)
    requires ',' !in piece && ItemOf(piece).Pair?
    ensures Clean(ItemOf(piece).value)
  {
    hide Strip, Find;
    var item := Strip(piece);
    StripIsStripped(piece);
    var k := Find(item, '=');
    StripIsStripped(item[k + 1..]);
    StripKeepsChars(piece, ',');
    StripKeepsChars(item[k + 1..], ',');
  }

  predicate AllClean(f: Filling) { f.Filled? ==> forall k :: k in f.raw ==> Clean(f.raw[k]) }

  lemma AddKeepsClean(f: Filling, item: Item)
    requires AllClean(f) && (item.Pair? ==> Clean(item.value))
    ensures AllClean(Add(f, item))
  {
    hide Clean;
  }

  lemma {:induction false} ValuesAreClean(pieces: seq<string>)
    requires NoComma(pieces)
    ensures AllClean(Fill(ItemsOf(pieces)))
    decreases |pieces|
  {
    hide ItemOf, Add, AllClean, Clean;
    if pieces == [] {
      NothingIsClean();
    } else {
      var init, last := pieces[..|pieces| - 1], pieces[|pieces| - 1];
      assert pieces == init + [last];
      hide ItemsOf, Fill;
      ItemsOfSnoc(init, last);
      ValuesAreClean(init);
      if ItemOf(last).Pair? { ItemIsClean(last); }
      AddKeepsClean(Fill(ItemsOf(init)), ItemOf(last));
    }
  }

  lemma NothingIsClean()
    ensures AllClean(Fill(ItemsOf([])))
  {
  }

  lemma {:induction false} SplitKeeps(s: string, sep: char, c: char)
    requires c !in s
    ensures forall i :: 0 <= i < |Split(s, sep)| ==> c !in Split(s, sep)[i]
    decreases |s|
  {
    if s != "" { SplitKeeps(s[1..], sep, c); }
  }

  lemma ModulesAreClean(value: string)
    requires Clean(value)
    ensures forall i :: 0 <= i < |Modules(value)| ==> CleanModule(Modules(value)[i])
  {
    SplitKeeps(value, ':', ',');
  }

  lemma DefaultIsClean()
    ensures Clean("default")
  {
  }

  /** Every option record the parser returns has a text. */
  lemma AcceptedIsRepresentable(spec: string)
    requires Parse(spec).Ok?
    ensures Representable(Parse(spec).options)
  {
    hide Modules, ParseInt, ParseCollect, Strip, Fill, Stripped, CleanModule;
    var raw := Fill(Items(spec)).raw;
    ValuesAreClean(Split(spec, ','));
    DefaultIsClean();
    if FILTER in raw { ModulesAreClean(raw[FILTER]); }
  }

  /** Options are what some text parses to exactly when they are representable. */
  lemma RepresentableIffParsed(o: Options)
    ensures Representable(o) <==> exists spec :: Parse(spec) == Ok(o)
  {
    if Representable(o) { RoundTrip(o); }
    if spec :| Parse(spec) == Ok(o) { AcceptedIsRepresentable(spec); }
  }

  /** Printing what was parsed and parsing again changes nothing, for every accepted text. */
  lemma ParsePrintParse(spec: string)
    requires Parse(spec).Ok?
    ensures Parse(Print(Parse(spec).options)) == Parse(spec)
  {
    AcceptedIsRepresentable(spec);
    RoundTrip(Parse(spec).options);
  }
}
