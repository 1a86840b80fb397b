/**
  The `HOST[:PORT][/PATH]` address of the health endpoint: the parser of the command line, a printer
  for it, and exactly which addresses the two agree on.
 */
module HealthAddress {
  import opened Wrappers
  import opened Strings

  datatype Address = Address(host: string, port: int, path: string)

  datatype Problem =
    | BadForm            // empty, or a character that cannot be part of an address
    | NoHost
    | NoClosingBracket
    | AfterBracket       // something else than a port follows the bracket
    | BareColons         // more than one colon outside brackets
    | PortNotInteger
    | PortOutOfRange

  datatype Parsed = Ok(address: Address) | Err(problem: Problem)

  const DEFAULT_PORT := "80"

  predicate HasForbidden(s: string) { '?' in s || '#' in s || '@' in s }

  datatype HostPort = HostPort(host: string, port: string) | Bad(problem: Problem)

  /** Split the part before the path into host and port text. */
  function SplitAddress(address: string): HostPort
    requires address != ""
  {
    if address[0] == '[' then
      var closing := Find(address, ']');
      if closing == |address| then Bad(NoClosingBracket)
      else
        var host, rest := address[1..closing], address[closing + 1..];
        if rest == "" then HostPort(host, DEFAULT_PORT)
        else if rest[0] == ':' then HostPort(host, rest[1..])
        else Bad(AfterBracket)
    else if Count(address, ':') <= 1 then
      var k := Find(address, ':');
      if k < |address| then HostPort(address[..k], address[k + 1..]) else HostPort(address, DEFAULT_PORT)
    else Bad(BareColons)
  }

  function Finish(hp: HostPort, path: string): Parsed
  {
    match hp
    case Bad(p) => Err(p)
    case HostPort(host, portText) =>
      if host == "" then Err(NoHost)
      else
        match ParseInt(portText)
        case None => Err(PortNotInteger)
        case Some(port) => if 1 <= port <= 65535 then Ok(Address(host, port, path)) else Err(PortOutOfRange)
  }

  function Parse(text: string): Parsed
  {
    var value := Strip(text);
    if value == "" || HasForbidden(value) then Err(BadForm)
    else
      var k := Find(value, '/');
      var address := value[..k];
      var path := if k < |value| then "/" + value[k + 1..] else "/";
      if address == "" then Err(NoHost) else Finish(SplitAddress(address), path)
  }

  /** Brackets, unless the host contains the closing one. */
  function PrintHost(host: string): string
  {
    if ']' in host then host else "[" + host + "]"
  }

  function Print(a: Address): string
  {
    PrintHost(a.host) + ":" + PrintInt(a.port) + a.path
  }

  /** The addresses that have a text. */
  predicate Representable(a: Address)
  {
    && a.host != "" && !HasForbidden(a.host) && '/' !in a.host
    && (']' in a.host ==> a.host[0] != '[' && ':' !in a.host && !IsSpace(a.host[0]))
    && 1 <= a.port <= 65535
    && a.path != "" && a.path[0] == '/' && !HasForbidden(a.path) && !IsSpace(a.path[|a.path| - 1])
  }

  // ---- Parsing undoes printing ----------------------------------------------------------------------

  lemma ForbiddenConcat(a: string, b: string)
    ensures HasForbidden(a + b) <==> HasForbidden(a) || HasForbidden(b)
  {
  }

  lemma PortText(port: int)
    requires 1 <= port
    ensures var p := PrintInt(port);
            !HasForbidden(p) && '/' !in p && ':' !in p && ParseInt(p) == Some(port) && p != "" && !IsSpace(p[0])
  {
    ParsePrintInt(port);
  }

  lemma BareSplits(host: string, p: string)
    requires host != "" && host[0] != '[' && ':' !in host && ':' !in p
    ensures SplitAddress(host + ":" + p) == HostPort(host, p)
  {
    hide Find;
    var text := host + ":" + p;
    assert text == host + [':'] + p;
    FindAt(host, ':', p);
    OneColon(host, p);
    assert text[0] == host[0] && text[..|host|] == host && text[|host| + 1..] == p;
  }

  lemma OneColon(a: string, b: string)
    requires ':' !in a && ':' !in b
    ensures Count(a + ":" + b, ':') == 1
  {
    CountConcat(a + ":", b, ':');
    CountConcat(a, ":", ':');
    CountZero(a, ':');
    CountZero(b, ':');
    assert Count("", ':') == 0 && ":"[1..] == "";
  }

  /** Cutting at the first slash finds the path. */
  lemma PathIsCut(text: string, path: string)
    requires '/' !in text && path != "" && path[0] == '/'
    ensures var value, k := text + path, Find(text + path, '/');
            k == |text| < |value| && value[..k] == text && "/" + value[k + 1..] == path
  {
    hide Find;
    var rest := path[1..];
    assert path == ['/'] + rest;
    assert text + path == text + ['/'] + rest;
    FindAt(text, '/', rest);
    assert (text + path)[|text| + 1..] == rest;
  }

  lemma PrintedHost(a: Address)
    requires Representable(a)
    ensures var h := PrintHost(a.host); h != "" && !IsSpace(h[0]) && !HasForbidden(h) && '/' !in h
  {
    if ']' !in a.host {
      ForbiddenConcat("[" + a.host, "]");
      ForbiddenConcat("[", a.host);
    }
  }

  /** What is printed is stripped, has no forbidden character and one part before the path. */
  lemma PrintedText(a: Address)
    requires Representable(a)
    ensures var text := PrintHost(a.host) + ":" + PrintInt(a.port);
            && text != "" && '/' !in text && Print(a) == text + a.path
            && Strip(Print(a)) == Print(a) && !HasForbidden(Print(a))
  {
    hide PrintInt, ParseInt, PrintHost, HasForbidden, Strip;
    PortText(a.port);
    PrintedHost(a);
    var h, p := PrintHost(a.host), PrintInt(a.port);
    ForbiddenConcat(h + ":" + p, a.path);
    ForbiddenConcat(h + ":", p);
    ForbiddenConcat(h, ":");
    ColonIsFine();
    StripOfStripped(h + ":" + p + a.path);
  }

  lemma ColonIsFine()
    ensures !HasForbidden(":")
  {
  }

  /** Parsing a printed address gives it back. */
  lemma RoundTrip(a: Address)
    requires Representable(a)
    ensures Parse(Print(a)) == Ok(a)
  {
    var f := Form(']' !in a.host, Some(PrintInt(a.port)), true);
    PortText(a.port);
    PrintedText(a);
    PrintedForm(a, f);
    hide Print, Text, Fits, Strip, HasForbidden, Representable, Parse;
    FormsParse(Print(a), a, f);
  }

  /** The printer uses one of the forms. */
  lemma PrintedForm(a: Address, f: Form)
    requires Representable(a) && f == Form(']' !in a.host, Some(PrintInt(a.port)), true)
    ensures Print(a) == Text(a, f) && Fits(a, f)
  {
    hide PrintInt, ParseInt, HasForbidden;
    PortText(a.port);
    var h, p := PrintHost(a.host), PrintInt(a.port);
    assert h == HostText(a.host, f.bracketed);
    assert h + ":" + p + a.path == h + (":" + p) + a.path;
  }

  // ---- Everything the parser accepts is representable -----------------------------------------------

  lemma PieceWithoutForbidden(s: string, i: nat, j: nat)
    requires i <= j <= |s| && !HasForbidden(s)
    ensures !HasForbidden(s[i..j])
  {
  }

  lemma HostOfAddress(address: string)
    requires address != "" && SplitAddress(address).HostPort? && SplitAddress(address).host != ""
    ensures var host := SplitAddress(address).host;
            && (exists i: nat, j: nat :: i <= j <= |address| && host == address[i..j])
            && (']' in host ==> host[0] == address[0] && host[0] != '[' && ':' !in host)
  {
    hide Count;
    var host := SplitAddress(address).host;
    if address[0] == '[' {
      var closing := Find(address, ']');
      assert host == address[1..closing];
      assert forall c :: c in host ==> c in address[..closing];
    } else {
      var k := Find(address, ':');
      if k < |address| {
        assert host == address[0..k];
      } else {
        assert host == address[0..|address|];
      }
    }
  }

  lemma HostIsRepresentable(value: string, address: string)
    requires Stripped(value) && !HasForbidden(value) && '/' !in address
    requires address != "" && |address| <= |value| && address == value[..|address|]
    requires SplitAddress(address).HostPort? && SplitAddress(address).host != ""
    ensures var host := SplitAddress(address).host;
            && !HasForbidden(host) && '/' !in host
            && (']' in host ==> host[0] != '[' && ':' !in host && !IsSpace(host[0]))
  {
    hide SplitAddress, HasForbidden;
    var host := SplitAddress(address).host;
    HostOfAddress(address);
    var i: nat, j: nat :| i <= j <= |address| && host == address[i..j];
    PieceOfPrefix(value, |address|, i, j);
    PieceWithoutForbidden(value, i, j);
  }

  lemma PieceOfPrefix(s: string, n: nat, i: nat, j: nat)
    requires i <= j <= n <= |s|
    ensures s[..n][i..j] == s[i..j]
  {
  }

  lemma PathIsRepresentable(value: string, k: nat)
    requires value != "" && Stripped(value) && !HasForbidden(value) && k == Find(value, '/')
    ensures var path := if k < |value| then "/" + value[k + 1..] else "/";
            && !HasForbidden(path) && !IsSpace(path[|path| - 1])
  {
    if k < |value| {
      assert "/" + value[k + 1..] == value[k..|value|];
      PieceWithoutForbidden(value, k, |value|);
    }
  }

  /** Every address the parser returns has a text. */
  lemma AcceptedIsRepresentable(text: string)
    requires Parse(text).Ok?
    ensures Representable(Parse(text).address)
  {
    hide Strip, SplitAddress, ParseInt, HasForbidden;
    var value := Strip(text);
    StripIsStripped(text);
    var k := Find(value, '/');
    PathIsRepresentable(value, k);
    HostIsRepresentable(value, value[..k]);
  }

  /** An address is what some text parses to exactly when it is representable. */
  lemma RepresentableIffParsed(a: Address)
    ensures Representable(a) <==> exists text :: Parse(text) == Ok(a)
  {
    if Representable(a) {
      RoundTrip(a);
    }
    if text :| Parse(text) == Ok(a) {
      AcceptedIsRepresentable(text);
    }
  }

  /** Printing what was parsed and parsing again changes nothing, for every accepted text. */
  lemma ParsePrintParse(text: string)
    requires Parse(text).Ok?
    ensures Parse(Print(Parse(text).address)) == Parse(text)
  {
    AcceptedIsRepresentable(text);
    RoundTrip(Parse(text).address);
  }

  // ---- What exactly is accepted ---------------------------------------------------------------------

  /** How an address may be written: host in brackets or not, port and path given or left to their defaults. */
  datatype Form = Form(bracketed: bool, port: Option<string>, withPath: bool)

  function HostText(host: string, bracketed: bool): string { if bracketed then "[" + host + "]" else host }

  function AuthorityText(host: string, f: Form): string
  {
    HostText(host, f.bracketed) + match f.port case None => "" case Some(p) => ":" + p
  }

  function Text(a: Address, f: Form): string { AuthorityText(a.host, f) + if f.withPath then a.path else "" }

  predicate HostFits(host: string, f: Form)
  {
    && host != "" && '/' !in host
    && (if f.bracketed then ']' !in host else host[0] != '[' && ':' !in host)
    && (f.port.Some? ==> '/' !in f.port.value && (!f.bracketed ==> ':' !in f.port.value))
  }

  predicate Fits(a: Address, f: Form)
  {
    && HostFits(a.host, f)
    && 1 <= a.port <= 65535
    && (if f.port.Some? then ParseInt(f.port.value) == Some(a.port) else a.port == 80)
    && (if f.withPath then a.path != "" && a.path[0] == '/' else a.path == "/")
  }

  lemma EightyIsTheDefault()
    ensures ParseInt(DEFAULT_PORT) == Some(80)
  {
    assert PrintInt(80) == DEFAULT_PORT by {
      assert Decimal(8) == "8";
    }
    ParsePrintInt(80);
  }

  /** The authority splits into the host and the port, or the default port. */
  lemma AuthoritySplits(host: string, f: Form)
    requires HostFits(host, f)
    ensures var t := AuthorityText(host, f);
            host != "" && t != "" && '/' !in t
            && SplitAddress(t) == HostPort(host, if f.port.Some? then f.port.value else DEFAULT_PORT)
  {
    match f.port {
      case None =>
        assert AuthorityText(host, f) == HostText(host, f.bracketed);
        if f.bracketed { BracketedAlone(host); } else { BareAlone(host); }
      case Some(p) =>
        assert host + (":" + p) == host + ":" + p;
        if f.bracketed { BracketedWithPort(host, p); } else { BareSplits(host, p); }
    }
  }

  lemma BracketedAlone(host: string)
    requires ']' !in host
    ensures SplitAddress("[" + host + "]") == HostPort(host, DEFAULT_PORT)
  {
    hide Find, Count;
    var text, open := "[" + host + "]", "[" + host;
    assert text == open + [']'] + "";
    FindAt(open, ']', "");
    assert text[0] == '[' && text[1..|open|] == host && text[|open| + 1..] == "";
  }

  lemma BareAlone(host: string)
    requires host != "" && host[0] != '[' && ':' !in host
    ensures SplitAddress(host) == HostPort(host, DEFAULT_PORT)
  {
    hide Find;
    CountZero(host, ':');
    assert Find(host, ':') == |host|;
  }

  lemma BracketedWithPort(host: string, p: string)
    requires ']' !in host
    ensures SplitAddress("[" + host + "]" + (":" + p)) == HostPort(host, p)
  {
    hide Find, Count;
    var open, rest := "[" + host, ":" + p;
    var text := "[" + host + "]" + (":" + p);
    assert text == open + [']'] + rest;
    FindAt(open, ']', rest);
    assert text[0] == '[' && text[1..|open|] == host && text[|open| + 1..] == rest && rest[1..] == p;
  }

  /** Every written form is parsed to the address it writes. */
  lemma FormsParse(text: string, a: Address, f: Form)
    requires Fits(a, f) && Strip(text) == Text(a, f) && !HasForbidden(Text(a, f))
    ensures Parse(text) == Ok(a)
  {
    hide Strip, SplitAddress, Find, HasForbidden, ParseInt, AuthorityText, HostFits;
    AuthoritySplits(a.host, f);
    EightyIsTheDefault();
    var t := AuthorityText(a.host, f);
    if f.withPath {
      PathIsCut(t, a.path);
    } else {
      assert Text(a, f) == t && t[..|t|] == t;
      assert Find(t, '/') == |t|;
    }
  }

  /** A text that splits was written in some form. */
  lemma SplitHasForm(t: string) returns (f: Form)
    requires t != "" && '/' !in t && SplitAddress(t).HostPort? && SplitAddress(t).host != ""
    ensures HostFits(SplitAddress(t).host, f) && AuthorityText(SplitAddress(t).host, f) == t
    ensures SplitAddress(t).port == if f.port.Some? then f.port.value else DEFAULT_PORT
  {
    if t[0] == '[' {
      f := BracketedHasForm(t);
    } else {
      f := BareHasForm(t);
    }
  }

  lemma BracketedHasForm(t: string) returns (f: Form)
    requires t != "" && t[0] == '[' && '/' !in t && SplitAddress(t).HostPort? && SplitAddress(t).host != ""
    ensures HostFits(SplitAddress(t).host, f) && AuthorityText(SplitAddress(t).host, f) == t
    ensures SplitAddress(t).port == if f.port.Some? then f.port.value else DEFAULT_PORT
  {
    hide Count, Find;
    var k := Find(t, ']');
    var host, rest := t[1..k], t[k + 1..];
    assert t == "[" + host + "]" + rest;
    assert forall c :: c in host ==> c in t[..k];
    if rest == "" {
      f := Form(true, None, false);
    } else {
      assert rest == ":" + rest[1..];
      f := Form(true, Some(rest[1..]), false);
    }
  }

  lemma BareHasForm(t: string) returns (f: Form)
    requires t != "" && t[0] != '[' && '/' !in t && SplitAddress(t).HostPort? && SplitAddress(t).host != ""
    ensures HostFits(SplitAddress(t).host, f) && AuthorityText(SplitAddress(t).host, f) == t
    ensures SplitAddress(t).port == if f.port.Some? then f.port.value else DEFAULT_PORT
  {
    hide Find;
    var k := Find(t, ':');
    if k < |t| {
      var host, p := t[..k], t[k + 1..];
      assert t == host + (":" + p);
      CountConcat(host, ":" + p, ':');
      assert (":" + p)[1..] == p;
      CountZero(p, ':');
      assert Count(":" + p, ':') == 1 + Count(p, ':');
      f := Form(false, Some(p), false);
    } else {
      f := Form(false, None, false);
    }
  }

  lemma AcceptedHasForm(text: string) returns (f: Form)
    requires Parse(text).Ok?
    ensures var a := Parse(text).address; Fits(a, f) && Strip(text) == Text(a, f) && !HasForbidden(Strip(text))
  {
    var value := Strip(text);
    var k := Find(value, '/');
    AcceptedParts(text);
    hide Strip, Parse, SplitAddress, HasForbidden, ParseInt, AuthorityText, HostFits, Find;
    EightyIsTheDefault();
    var g := SplitHasForm(value[..k]);
    AuthorityIgnoresPath(Parse(text).address.host, g, k < |value|);
    f := g.(withPath := k < |value|);
    CutAgain(value, k);
  }

  /** What an accepted text was taken apart into. */
  lemma AcceptedParts(text: string)
    requires Parse(text).Ok?
    ensures var value, a := Strip(text), Parse(text).address;
            var k := Find(value, '/');
            && !HasForbidden(value) && value[..k] != ""
            && SplitAddress(value[..k]).HostPort? && SplitAddress(value[..k]).host == a.host != ""
            && ParseInt(SplitAddress(value[..k]).port) == Some(a.port) && 1 <= a.port <= 65535
            && a.path == if k < |value| then "/" + value[k + 1..] else "/"
  {
    hide Strip, SplitAddress, HasForbidden, ParseInt, Find;
  }

  lemma CutAgain(value: string, k: nat)
    requires k <= |value| && (k < |value| ==> value[k] == '/')
    ensures value == if k < |value| then value[..k] + ("/" + value[k + 1..]) else value[..k] + ""
  {
  }

  lemma AuthorityIgnoresPath(host: string, f: Form, withPath: bool)
    ensures AuthorityText(host, f.(withPath := withPath)) == AuthorityText(host, f)
    ensures HostFits(host, f.(withPath := withPath)) == HostFits(host, f)
  {
  }

  /** A text is parsed to an address exactly when, stripped, it writes that address in one of the forms. */
  lemma ParsedIffWritten(text: string, a: Address)
    ensures Parse(text) == Ok(a) <==>
            && '?' !in Strip(text) && '#' !in Strip(text) && '@' !in Strip(text)
            && exists f :: Fits(a, f) && Strip(text) == Text(a, f)
  {
    hide Parse, Fits, Text, Strip;
    if Parse(text) == Ok(a) {
      var f := AcceptedHasForm(text);
    }
    if !HasForbidden(Strip(text)) {
      if f :| Fits(a, f) && Strip(text) == Text(a, f) {
        FormsParse(text, a, f);
      }
    }
  }

  // ---- Which problem is reported --------------------------------------------------------------------

  /** The part before the path writes this host and this port text. */
  predicate HasPort(t: string, host: string, port: string)
  {
    || (t == "[" + host + "]" + (":" + port) && ']' !in host)
    || (t == host + ":" + port && (host != "" ==> host[0] != '[') && ':' !in host && ':' !in port)
  }

  predicate TwoColons(t: string) { exists i, j :: 0 <= i < j < |t| && t[i] == ':' && t[j] == ':' }

  ghost predicate GoesOnAfterBracket(t: string)
  {
    exists host: string, c: char, rest: string :: t == "[" + host + "]" + ([c] + rest) && ']' !in host && c != ':'
  }

  /** The host is left out: nothing at all, empty brackets, or only a port. */
  ghost predicate NoHostIn(t: string) { t == "" || t == "[]" || exists port :: HasPort(t, "", port) }

  ghost predicate PortIs(t: string, number: Option<int>)
  {
    exists host, port :: host != "" && HasPort(t, host, port) && ParseInt(port) == number
  }

  /** What is wrong with a text whose part before the path is `t`. */
  ghost predicate Wrong(value: string, t: string, p: Problem)
  {
    if value == "" || '?' in value || '#' in value || '@' in value then p == BadForm
    else
      match p
      case BadForm => false
      case NoHost => NoHostIn(t)
      case NoClosingBracket => t != "" && t[0] == '[' && ']' !in t
      case AfterBracket => GoesOnAfterBracket(t)
      case BareColons => t != "" && t[0] != '[' && TwoColons(t)
      case PortNotInteger => PortIs(t, None)
      case PortOutOfRange => exists n :: PortIs(t, Some(n)) && !(1 <= n <= 65535)
  }

  /** `t` is the text up to its first slash. */
  predicate BeforePath(value: string, t: string)
  {
    '/' !in t && t <= value && (|t| < |value| ==> value[|t|] == '/')
  }

  lemma PortIsFound(t: string, host: string, port: string)
    requires HasPort(t, host, port)
    ensures t != "" && SplitAddress(t) == HostPort(host, port)
  {
    hide SplitAddress, Find, Count;
    if t == "[" + host + "]" + (":" + port) && ']' !in host {
      BracketedWithPort(host, port);
    } else if host != "" {
      BareSplits(host, port);
    } else {
      OnlyPort(port);
    }
  }

  lemma OnlyPort(port: string)
    requires ':' !in port
    ensures SplitAddress("" + ":" + port) == HostPort("", port)
  {
    hide Find, Count;
    var t := "" + ":" + port;
    OneColon("", port);
    assert t == "" + [':'] + port;
    FindAt("", ':', port);
    assert t[..0] == "" && t[1..] == port;
  }

  lemma SplitHasPort(t: string)
    requires t != "" && SplitAddress(t).HostPort?
    ensures var hp := SplitAddress(t);
            HasPort(t, hp.host, hp.port)
            || (hp.port == DEFAULT_PORT && (t == "[" + hp.host + "]" || (t == hp.host && t[0] != '[')))
  {
    if t[0] == '[' {
      hide Count, Find;
      var k := Find(t, ']');
      var host, rest := t[1..k], t[k + 1..];
      assert t == "[" + host + "]" + rest;
      assert forall c :: c in host ==> c in t[..k];
      if rest != "" { assert rest == ":" + rest[1..]; }
    } else {
      var k := Find(t, ':');
      if k < |t| {
        assert t == t[..k] + ":" + t[k + 1..];
        ColonsAfter(t, k);
        CountZero(t[k + 1..], ':');
      } else {
        assert t[..k] == t;
      }
    }
  }

  lemma ColonsAfter(t: string, k: nat)
    requires k < |t| && t[k] == ':' && ':' !in t[..k]
    ensures Count(t, ':') == 1 + Count(t[k + 1..], ':')
  {
    assert t == t[..k] + (":" + t[k + 1..]);
    CountConcat(t[..k], ":" + t[k + 1..], ':');
    CountZero(t[..k], ':');
    assert (":" + t[k + 1..])[1..] == t[k + 1..];
  }

  lemma CountsColons(t: string)
    ensures Count(t, ':') > 1 <==> TwoColons(t)
  {
    var k := Find(t, ':');
    if k < |t| {
      ColonsAfter(t, k);
      CountZero(t[k + 1..], ':');
      assert forall m :: 0 <= m < k ==> t[m] == t[..k][m];
      if i, j :| 0 <= i < j < |t| && t[i] == ':' && t[j] == ':' {
        assert k <= i;
        assert t[k + 1..][j - k - 1] == ':';
      }
      if ':' in t[k + 1..] {
        var j :| 0 <= j < |t[k + 1..]| && t[k + 1..][j] == ':';
        assert t[k + 1 + j] == ':' && t[k] == ':';
      }
    } else {
      CountZero(t, ':');
    }
  }

  lemma SplitBad(t: string)
    requires t != ""
    ensures SplitAddress(t) == Bad(NoClosingBracket) <==> t[0] == '[' && ']' !in t
    ensures SplitAddress(t) == Bad(AfterBracket) <==> GoesOnAfterBracket(t)
    ensures SplitAddress(t) == Bad(BareColons) <==> t[0] != '[' && TwoColons(t)
    ensures SplitAddress(t).Bad? ==> SplitAddress(t).problem in {NoClosingBracket, AfterBracket, BareColons}
  {
    CountsColons(t);
    hide Count, TwoColons, Find;
    var k := Find(t, ']');
    if t[0] == '[' && k < |t| && k + 1 < |t| && t[k + 1] != ':' {
      var host, rest := t[1..k], t[k + 1..];
      assert t == "[" + host + "]" + ([rest[0]] + rest[1..]);
      assert forall c :: c in host ==> c in t[..k];
    }
    if GoesOnAfterBracket(t) {
      var host: string, c: char, rest: string :| t == "[" + host + "]" + ([c] + rest) && ']' !in host && c != ':';
      assert t == "[" + host + [']'] + ([c] + rest);
      FindAt("[" + host, ']', [c] + rest);
      assert t[|host| + 2..] == [c] + rest;
    }
  }

  lemma SplitGood(t: string)
    requires t != ""
    ensures SplitAddress(t).HostPort? && SplitAddress(t).host == "" <==> NoHostIn(t)
    ensures forall number :: number != Some(80) ==>
              (PortIs(t, number) <==> SplitAddress(t).HostPort? && SplitAddress(t).host != ""
                                      && ParseInt(SplitAddress(t).port) == number)
  {
    hide SplitAddress, HasPort, Find, Count, ParseInt;
    forall host, port | HasPort(t, host, port)
      ensures SplitAddress(t) == HostPort(host, port)
    {
      PortIsFound(t, host, port);
    }
    BracketedAlone("");
    assert "[" + "" + "]" == "[]";
    EightyIsTheDefault();
    if SplitAddress(t).HostPort? { SplitHasPort(t); }
  }

  /** The problem reported is the one there is. */
  lemma ProblemMeaning(text: string, t: string, p: Problem)
    requires BeforePath(Strip(text), t)
    ensures Parse(text) == Err(p) <==> Wrong(Strip(text), t, p)
  {
    hide Strip, SplitAddress, Find, ParseInt, TwoColons, GoesOnAfterBracket, NoHostIn, PortIs;
    var value := Strip(text);
    CutAt(value, t);
    NothingHasNoHost();
    if t != "" {
      SplitBad(t);
      SplitGood(t);
      var hp := SplitAddress(t);
      match hp
      case Bad(_) =>
      case HostPort(_, portText) =>
        if hp.host != "" && ParseInt(portText).Some? { NumberIsUnique(t, ParseInt(portText).value); }
    }
  }

  lemma NumberIsUnique(t: string, n: int)
    requires t != "" && SplitAddress(t).HostPort? && SplitAddress(t).host != ""
    requires ParseInt(SplitAddress(t).port) == Some(n)
    ensures (exists m :: PortIs(t, Some(m)) && !(1 <= m <= 65535)) <==> !(1 <= n <= 65535)
  {
    hide SplitAddress, ParseInt, PortIs;
    SplitGood(t);
    if !(1 <= n <= 65535) { assert PortIs(t, Some(n)); }
  }

  lemma NothingHasNoHost()
    ensures NoHostIn("") && !GoesOnAfterBracket("") && forall number :: !PortIs("", number)
  {
    hide ParseInt;
  }

  lemma CutAt(value: string, t: string)
    requires BeforePath(value, t)
    ensures Find(value, '/') == |t| && value[..|t|] == t
  {
    if |t| < |value| {
      assert value == t + ['/'] + value[|t| + 1..];
      FindAt(t, '/', value[|t| + 1..]);
    } else {
      assert value == t;
    }
  }
}
