/** The assumptions on configurations, codecs and fleets can be met. */
module Witnesses {
  import opened Wrappers
  import opened Strings
  import opened InFlight
  import opened Protocol
  import opened Tasks
  import opened Codecs
  import opened Sequences
  import opened Network
  import Subscriptions
  import Topic

  lemma OneWord(s: string)
    requires '.' !in s && s != "*" && s != "#"
    ensures Topic.Plain(s) && |Topic.Words(s)| <= 2
  {
    SplitWithout(s, '.');
  }

  /** Decimal numerals as reply-queue names, one word each. */
  lemma ConfigExists()
    ensures exists cfg: Config :: ConfigOk(cfg)
  {
    hide Topic.Plain, Topic.Words, Decimal;
    var cfg := Config("atasks", (t: nat) => Decimal(t));
    forall t: nat
      ensures Topic.Plain(cfg.replyName(t)) && |Topic.Words(cfg.replyName(t))| <= 2
      ensures NumeralValue(cfg.replyName(t)) == t
    {
      NumeralOfDecimal(t);
      OneWord(Decimal(t));
    }
    OneWord("atasks");
    assert ConfigOk(cfg);
  }

  // ---- A lossless codec -----------------------------------------------------------------------------

  predicate IsCode(n: int) { 0 <= n < 0xd800 || 0xe000 <= n < 0x11_0000 }

  function At(b: Bytes, i: nat): int { if i < |b| then b[i] else 0 }

  function From(b: Bytes, i: nat): Bytes { if i <= |b| then b[i..] else [] }

  function PutString(s: string): Bytes
  {
    if s == "" then [0] else [1, s[0] as int] + PutString(s[1..])
  }

  function TakeString(b: Bytes): (string, Bytes)
    decreases |b|
  {
    if At(b, 0) == 0 || !IsCode(At(b, 1)) then ("", From(b, 1))
    else var (s, rest) := TakeString(From(b, 2)); ([At(b, 1) as char] + s, rest)
  }

  lemma {:induction false} StringBack(s: string, rest: Bytes)
    ensures TakeString(PutString(s) + rest) == (s, rest)
    decreases |s|
  {
    var b := PutString(s) + rest;
    if s == "" {
      assert From(b, 1) == rest;
    } else {
      assert From(b, 2) == PutString(s[1..]) + rest;
      StringBack(s[1..], rest);
      assert s == [s[0]] + s[1..];
    }
  }

  function PutChain(c: Chain): Bytes
  {
    if c == [] then [0]
    else [1, c[0].seqNo, if c[0].isRoot then 1 else 0] + (PutString(c[0].task) + PutChain(c[1..]))
  }

  /** `fuel` bounds the number of hops read. */
  function TakeChain(b: Bytes, fuel: nat): Chain
    decreases fuel
  {
    if At(b, 0) == 0 || At(b, 1) < 0 || fuel == 0 then []
    else
      var (task, rest) := TakeString(From(b, 3));
      [Hop(At(b, 1), task, At(b, 2) == 1)] + TakeChain(rest, fuel - 1)
  }

  lemma {:induction false} ChainBack(c: Chain, fuel: nat)
    requires |c| <= fuel
    ensures TakeChain(PutChain(c), fuel) == c
    decreases |c|
  {
    if c != [] {
      var b := PutChain(c);
      assert From(b, 3) == PutString(c[0].task) + PutChain(c[1..]);
      StringBack(c[0].task, PutChain(c[1..]));
      ChainBack(c[1..], fuel - 1);
      assert c == [c[0]] + c[1..];
    }
  }

  /** A chain with its length in front. */
  function PutCounted(c: Chain): Bytes { [|c|] + PutChain(c) }

  function TakeCounted(b: Bytes): Chain { TakeChain(From(b, 1), if At(b, 0) < 0 then 0 else At(b, 0)) }

  lemma CountedBack(c: Chain)
    ensures TakeCounted(PutCounted(c)) == c
  {
    assert From(PutCounted(c), 1) == PutChain(c);
    ChainBack(c, |c|);
  }

  function PutCall(x: CallContent): Bytes { [x.arg] + PutCounted(x.chain) }

  function TakeCall(b: Bytes): CallContent { CallContent(At(b, 0), TakeCounted(From(b, 1))) }

  function PutFault(f: Fault): (int, int)
  {
    match f
    case User(code) => (0, code)
    case StackTooDeep => (1, 0)
    case NotServed => (2, 0)
    case EmptyResponse => (3, 0)
    case LostConnection => (4, 0)
    case Timeout => (5, 0)
    case Cancellation => (6, 0)
    case NoException => (7, 0)
  }

  function TakeFault(kind: int, code: int): Fault
  {
    match kind
    case 0 => User(code)
    case 1 => StackTooDeep
    case 2 => NotServed
    case 3 => EmptyResponse
    case 4 => LostConnection
    case 5 => Timeout
    case 6 => Cancellation
    case _ => NoException
  }

  function PutResult(r: Res): Bytes
  {
    match r
    case Ok(v) => [0, v]
    case Err(e) =>
      var (kind, code) := PutFault(e.fault);
      match e.trace
      case None => [1, kind, code]
      case Some(c) => [2, kind, code] + PutCounted(c)
  }

  function TakeResult(b: Bytes): Res
  {
    if At(b, 0) == 0 then Ok(At(b, 1))
    else
      Err(Exc(TakeFault(At(b, 1), At(b, 2)), if At(b, 0) == 1 then None else Some(TakeCounted(From(b, 3)))))
  }

  lemma CallBack(x: CallContent)
    ensures TakeCall(PutCall(x)) == x
  {
    assert From(PutCall(x), 1) == PutCounted(x.chain);
    CountedBack(x.chain);
  }

  lemma ResultBack(r: Res)
    ensures TakeResult(PutResult(r)) == r && PutResult(r) != []
  {
    if r.Err? && r.exc.trace.Some? {
      var c := r.exc.trace.value;
      assert From(PutResult(r), 3) == PutCounted(c);
      CountedBack(c);
    }
  }

  /** A lossless codec whose encodings are never empty. */
  lemma CodecExists()
    ensures exists codec: Codec :: Lossless(codec)
  {
    var codec := Codec(PutCall, TakeCall, PutResult, TakeResult);
    forall x ensures codec.decodeCall(codec.encodeCall(x)) == x { CallBack(x); }
    forall x ensures codec.decodeResult(codec.encodeResult(x)) == x && codec.encodeResult(x) != [] { ResultBack(x); }
    assert Lossless(codec);
  }

  // ---- A fleet --------------------------------------------------------------------------------------

  lemma {:induction false} Listed(names: set<string>) returns (s: seq<string>)
    ensures Distinct(s) && forall x :: x in s <==> x in names
    decreases |names|
  {
    if names == {} {
      s := [];
    } else {
      var x :| x in names;
      s := Listed(names - {x});
      s := s + [x];
    }
  }

  /** One queue for each name, and the reply queue of the one instance. */
  function QueuesFor(names: seq<string>): (qs: seq<QueueId>)
    ensures |qs| == |names| + 1 && qs[|names|] == ReplyQ(0)
    ensures forall i :: 0 <= i < |names| ==> qs[i] == RequestQ(names[i])
  {
    seq(|names|, i requires 0 <= i < |names| => RequestQ(names[i])) + [ReplyQ(0)]
  }

  /** One instance that serves all tasks. */
  function Serving(names: seq<string>): Instance
  {
    var served := set q | q in QueuesFor(names);
    Instance(IDLE, None, served, served, Subscriptions.Names(names, [], []))
  }

  function ServingState(names: seq<string>): State
  {
    State([Serving(names)], [], QueuesFor(names), [], [], 0, multiset{}, multiset{}, multiset{})
  }

  lemma ServingIsWired(f: Fleet, names: seq<string>)
    requires Distinct(names) && (forall x :: x in names <==> x in f.program.tasks)
    requires forall x :: x in f.program.tasks ==> Topic.Plain(x)
    ensures Wired(f, ServingState(names)) && IdleInstance(0, Serving(names))
  {
    QueuesAreFine(names);
    hide QueuesFor;
    forall x | x in f.program.tasks
      ensures RequestQ(x) in QueuesFor(names) && Consumed(ServingState(names), RequestQ(x))
    {
      var i :| 0 <= i < |names| && names[i] == x;
      assert RequestQ(names[i]) in ServingState(names).ts[0].consumes;
    }
  }

  lemma QueuesAreFine(names: seq<string>)
    requires Distinct(names) && forall x :: x in names ==> Topic.Plain(x)
    ensures var qs := QueuesFor(names);
            && (forall i :: 0 <= i < |qs| ==>
                  PlainName(qs[i]) && (qs[i] == ReplyQ(0) || (qs[i].RequestQ? && qs[i].name in names)))
            && (forall i, j :: 0 <= i < j < |qs| ==> qs[i] != qs[j])
            && ReplyQ(0) in qs && forall i :: 0 <= i < |names| ==> RequestQ(names[i]) in qs
  {
    hide Topic.Plain;
    var qs := QueuesFor(names);
    assert qs[|names|] == ReplyQ(0);
    forall i | 0 <= i < |names| ensures RequestQ(names[i]) in qs { assert qs[i] == RequestQ(names[i]); }
  }

  /** Whatever tasks with wildcard-free names and whatever client bodies: a fleet that is ready to run them. */
  lemma FleetExists(f: Fleet, scripts: seq<Script>) returns (n: Net)
    requires ConfigOk(f.cfg) && Lossless(f.codec) && forall x :: x in f.program.tasks ==> Topic.Plain(x)
    ensures NetInit(f, n) && |n.clients| == |scripts|
    ensures forall i :: 0 <= i < |scripts| ==> n.clients[i].script == scripts[i]
  {
    hide ConfigOk, Lossless, Topic.Plain;
    var names := Listed(f.program.tasks.Keys);
    ServingIsWired(f, names);
    hide Wired, IdleInstance;
    n := Net(ServingState(names),
             seq(|scripts|, i requires 0 <= i < |scripts| => Proc(0, [], false, scripts[i], [], Active)), [], []);
  }
}
