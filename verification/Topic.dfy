/**
  Routing keys, queue names and AMQP topic matching.

  A topic exchange splits keys at dots into words; in a binding key the word `*` stands for exactly
  one word and `#` for zero or more (section 3.1.3.3 of AMQP 0-9-1).  The transport binds only exact
  keys, so the question is when matching is plain equality, and when the keys and queue names that
  string concatenation builds stay apart.
 */
module Topic {

  import Strings

  /** The words of a key: the dot-free pieces between its dots, in order. */
  function Words(s: string): (ws: seq<string>)
    ensures |ws| >= 1
  {
    Strings.Split(s, '.')
  }

  lemma WordsOfConcat(a: string, b: string)
    ensures Words(a + "." + b) == Words(a) + Words(b)
  {
    Strings.SplitOfConcat(a, b, '.');
  }

  // ---- Matching -------------------------------------------------------------------------------------

  predicate MatchWords(pattern: seq<string>, key: seq<string>)
    decreases |pattern| + |key|
  {
    if |pattern| == 0 then |key| == 0
    else if pattern[0] == "#" then
      MatchWords(pattern[1..], key) || (|key| > 0 && MatchWords(pattern, key[1..]))
    else
      |key| > 0 && (pattern[0] == "*" || pattern[0] == key[0]) && MatchWords(pattern[1..], key[1..])
  }

  /** Does a topic exchange route `key` over a binding made with `binding`? */
  predicate Matches(binding: string, key: string)
  {
    MatchWords(Words(binding), Words(key))
  }

  /** One word of a binding key stands for these words of a key. */
  predicate StandsFor(word: string, words: seq<string>)
  {
    word == "#" || (|words| == 1 && (word == "*" || word == words[0]))
  }

  function Joined(parts: seq<seq<string>>): seq<string>
  {
    if parts == [] then [] else parts[0] + Joined(parts[1..])
  }

  /** The key is cut into parts, one for each word of the pattern, and each word stands for its part. */
  predicate Cuts(pattern: seq<string>, key: seq<string>, parts: seq<seq<string>>)
  {
    |parts| == |pattern| && Joined(parts) == key && forall i :: 0 <= i < |parts| ==> StandsFor(pattern[i], parts[i])
  }

  lemma {:induction false} MatchGivesCut(pattern: seq<string>, key: seq<string>) returns (parts: seq<seq<string>>)
    requires MatchWords(pattern, key)
    ensures Cuts(pattern, key, parts)
    decreases |pattern| + |key|
  {
    if pattern == [] {
      parts := [];
    } else if pattern[0] != "#" {
      var rest := MatchGivesCut(pattern[1..], key[1..]);
      parts := [[key[0]]] + rest;
      assert parts[1..] == rest && key == [key[0]] + key[1..];
    } else if MatchWords(pattern[1..], key) {
      var rest := MatchGivesCut(pattern[1..], key);
      parts := [[]] + rest;
      assert parts[1..] == rest;
    } else {
      var more := MatchGivesCut(pattern, key[1..]);
      parts := [[key[0]] + more[0]] + more[1..];
      assert parts[1..] == more[1..] && key == [key[0]] + key[1..];
    }
  }

  lemma {:induction false} CutGivesMatch(pattern: seq<string>, key: seq<string>, parts: seq<seq<string>>)
    requires Cuts(pattern, key, parts)
    ensures MatchWords(pattern, key)
    decreases |pattern| + |key|
  {
    if pattern != [] {
      var rest := parts[1..];
      if pattern[0] == "#" && parts[0] != [] {
        var parts' := [parts[0][1..]] + rest;
        assert parts'[1..] == rest && key == [parts[0][0]] + Joined(parts');
        CutGivesMatch(pattern, key[1..], parts');
      } else if pattern[0] == "#" {
        assert key == Joined(rest);
        CutGivesMatch(pattern[1..], key, rest);
      } else {
        assert key == [parts[0][0]] + Joined(rest);
        CutGivesMatch(pattern[1..], key[1..], rest);
      }
    }
  }

  /** Matching in the words of the standard: the key falls into parts for which the words of the pattern stand. */
  lemma MatchMeaning(pattern: seq<string>, key: seq<string>)
    ensures MatchWords(pattern, key) <==> exists parts :: Cuts(pattern, key, parts)
  {
    if MatchWords(pattern, key) {
      var parts := MatchGivesCut(pattern, key);
    }
    if parts :| Cuts(pattern, key, parts) {
      CutGivesMatch(pattern, key, parts);
    }
  }

  predicate PlainWords(ws: seq<string>)
  {
    forall i :: 0 <= i < |ws| ==> ws[i] != "*" && ws[i] != "#"
  }

  /** No word of `s` is a wildcard. */
  predicate Plain(s: string)
  {
    PlainWords(Words(s))
  }

  lemma {:induction false} PlainWordsMatchExactly(pattern: seq<string>, key: seq<string>)
    requires PlainWords(pattern)
    ensures MatchWords(pattern, key) <==> pattern == key
    decreases |pattern|
  {
    if |pattern| > 0 && |key| > 0 {
      PlainWordsMatchExactly(pattern[1..], key[1..]);
      assert pattern == [pattern[0]] + pattern[1..];
      assert key == [key[0]] + key[1..];
    }
  }

  /** On a wildcard-free binding key, topic matching is equality of the whole strings. */
  lemma PlainMatchesExactly(binding: string, key: string)
    requires Plain(binding)
    ensures Matches(binding, key) <==> binding == key
  {
    PlainWordsMatchExactly(Words(binding), Words(key));
    Strings.JoinSplit(binding, '.');
    Strings.JoinSplit(key, '.');
  }

  // ---- The keys and names the transport builds ------------------------------------------------------

  datatype Traffic = Request | Event | Broadcast

  function Marker(k: Traffic): string
  {
    match k
    case Request => "r"
    case Event => "e"
    case Broadcast => "b"
  }

  function RoutingKey(prefix: string, k: Traffic, name: string): string
  {
    prefix + "." + (Marker(k) + "." + name)
  }

  lemma SingleLetterWord(s: string)
    requires |s| == 1 && s[0] != '.'
    ensures Words(s) == [s]
  {
    Strings.SplitWithout(s, '.');
  }

  lemma RoutingKeyWords(prefix: string, k: Traffic, name: string)
    ensures Words(RoutingKey(prefix, k, name)) == Words(prefix) + ([Marker(k)] + Words(name))
  {
    WordsOfConcat(prefix, Marker(k) + "." + name);
    WordsOfConcat(Marker(k), name);
    assert Words(Marker(k)) == [Marker(k)] by {
      SingleLetterWord(Marker(k));
    }
  }

  /** A routing key is wildcard-free exactly when the prefix and the task name are. */
  lemma RoutingKeyPlain(prefix: string, k: Traffic, name: string)
    ensures Plain(RoutingKey(prefix, k, name)) <==> Plain(prefix) && Plain(name)
  {
    RoutingKeyWords(prefix, k, name);
    var p, n, m := Words(prefix), Words(name), [Marker(k)];
    var ws := p + (m + n);
    if PlainWords(ws) {
      forall i | 0 <= i < |p| ensures p[i] != "*" && p[i] != "#" { assert ws[i] == p[i]; }
      forall i | 0 <= i < |n| ensures n[i] != "*" && n[i] != "#" { assert ws[|p| + 1 + i] == n[i]; }
    }
  }

  /** Under one prefix, the routing key determines the pattern and the task name. */
  lemma RoutingKeyInjective(prefix: string, k: Traffic, name: string, k': Traffic, name': string)
    ensures RoutingKey(prefix, k, name) == RoutingKey(prefix, k', name') <==> k == k' && name == name'
  {
    var a, b := RoutingKey(prefix, k, name), RoutingKey(prefix, k', name');
    if a == b {
      var p := |prefix|;
      assert a[p + 1] == Marker(k)[0] && b[p + 1] == Marker(k')[0];
      assert a[p + 3..] == name && b[p + 3..] == name';
    }
  }

  /**
    Requests, events, broadcasts and replies never cross-route, even on one shared exchange: a
    wildcard-free binding for one pattern and name receives a message published for another pattern
    or name exactly when both agree, and never one addressed to a reply queue (whose key, the queue's
    own name, has at most two words).
   */
  lemma TrafficNeverCrosses(prefix: string, k: Traffic, name: string, k': Traffic, name': string, reply: string)
    requires Plain(prefix) && Plain(name)
    requires Plain(reply) && |Words(reply)| <= 2
    ensures Matches(RoutingKey(prefix, k, name), RoutingKey(prefix, k', name')) <==> k == k' && name == name'
    ensures !Matches(RoutingKey(prefix, k, name), reply)
    ensures !Matches(reply, RoutingKey(prefix, k', name'))
  {
    RoutingKeyPlain(prefix, k, name);
    PlainMatchesExactly(RoutingKey(prefix, k, name), RoutingKey(prefix, k', name'));
    RoutingKeyInjective(prefix, k, name, k', name');
    PlainMatchesExactly(RoutingKey(prefix, k, name), reply);
    PlainMatchesExactly(reply, RoutingKey(prefix, k', name'));
    RoutingKeyWords(prefix, k, name);
    RoutingKeyWords(prefix, k', name');
  }

  /** The wildcard assumption is needed: a task named `#` would receive the requests for every name. */
  lemma WildcardNameSteals(prefix: string, name: string)
    requires Plain(prefix)
    ensures Matches(RoutingKey(prefix, Request, "#"), RoutingKey(prefix, Request, name))
  {
    RoutingKeyWords(prefix, Request, "#");
    RoutingKeyWords(prefix, Request, name);
    SingleLetterWord("#");
    HashMatchesAll(Words(name));
    SamePrefixMatches(Words(prefix) + ["r"], ["#"], Words(name));
    Reassociate(Words(prefix), ["r"], ["#"]);
    Reassociate(Words(prefix), ["r"], Words(name));
  }

  lemma Reassociate(a: seq<string>, b: seq<string>, c: seq<string>)
    ensures a + (b + c) == a + b + c
  {
  }

  lemma {:induction false} HashMatchesAll(key: seq<string>)
    ensures MatchWords(["#"], key)
    decreases |key|
  {
    if |key| > 0 { HashMatchesAll(key[1..]); }
  }

  lemma {:induction false} SamePrefixMatches(p: seq<string>, pattern: seq<string>, key: seq<string>)
    requires PlainWords(p)
    requires MatchWords(pattern, key)
    ensures MatchWords(p + pattern, p + key)
    decreases |p|
  {
    if |p| == 0 {
      assert p + pattern == pattern && p + key == key;
    } else {
      SamePrefixMatches(p[1..], pattern, key);
      assert (p + pattern)[1..] == p[1..] + pattern;
      assert (p + key)[1..] == p[1..] + key;
    }
  }

  // ---- Durable queue names --------------------------------------------------------------------------

  /** The two patterns with a durable queue per name, and the letter their queue names carry. */
  datatype Durable = RequestQueue | TaskQueue

  function QueueMarker(k: Durable): string
  {
    match k
    case RequestQueue => "r"
    case TaskQueue => "q"
  }

  function QueueName(queue: string, prefix: string, k: Durable, name: string): string
  {
    queue + "." + (prefix + "." + (QueueMarker(k) + "." + name))
  }

  /** Within one fleet (one queue and prefix setting) a durable queue name determines kind and task name. */
  lemma QueueNameInjective(queue: string, prefix: string, k: Durable, name: string, k': Durable, name': string)
    ensures QueueName(queue, prefix, k, name) == QueueName(queue, prefix, k', name') <==> k == k' && name == name'
  {
    var a, b := QueueName(queue, prefix, k, name), QueueName(queue, prefix, k', name');
    if a == b {
      var p := |queue| + 1 + |prefix|;
      assert a[p + 1] == QueueMarker(k)[0] && b[p + 1] == QueueMarker(k')[0];
      assert a[p + 3..] == name && b[p + 3..] == name';
    }
  }

  /** Between fleets, dot-free settings keep the names apart in all four parts... */
  lemma QueueNameInjectiveAcrossFleets(q: string, p: string, k: Durable, name: string,
                                       q': string, p': string, k': Durable, name': string)
    requires '.' !in q && '.' !in p && '.' !in q' && '.' !in p'
    requires QueueName(q, p, k, name) == QueueName(q', p', k', name')
    ensures q == q' && p == p' && k == k' && name == name'
  {
    FirstDot(q, p + "." + (QueueMarker(k) + "." + name), q', p' + "." + (QueueMarker(k') + "." + name'));
    FirstDot(p, QueueMarker(k) + "." + name, p', QueueMarker(k') + "." + name');
    QueueNameInjective(q, p, k, name, k', name');
  }

  lemma {:induction false} FirstDot(a: string, b: string, a': string, b': string)
    requires '.' !in a && '.' !in a'
    requires a + "." + b == a' + "." + b'
    ensures a == a' && b == b'
    decreases |a|
  {
    var s, s' := a + "." + b, a' + "." + b';
    assert s[0] == (if a == "" then '.' else a[0]) && s'[0] == (if a' == "" then '.' else a'[0]);
    if a == "" || a' == "" {
      assert a == "" && a' == "";
      assert s[1..] == b && s'[1..] == b';
    } else {
      assert s[1..] == a[1..] + "." + b && s'[1..] == a'[1..] + "." + b';
      FirstDot(a[1..], b, a'[1..], b');
      assert a == [a[0]] + a[1..] && a' == [a'[0]] + a'[1..];
    }
  }

  /** ...and a dotted prefix does not: two fleets whose settings differ share a queue and a routing key. */
  lemma DottedPrefixesCollide()
    ensures QueueName("atask", "a", RequestQueue, "r.x") == QueueName("atask", "a.r", RequestQueue, "x")
    ensures RoutingKey("a", Request, "r.x") == RoutingKey("a.r", Request, "x")
  {
    assert RoutingKey("a", Request, "r.x") == "a.r.r.x" == RoutingKey("a.r", Request, "x");
    assert QueueName("atask", "a", RequestQueue, "r.x") == "atask.a.r.r.x"
           == QueueName("atask", "a.r", RequestQueue, "x");
  }
}
