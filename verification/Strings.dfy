/** The string operations of Python that the parsers use, with the facts about them that matter. */
module Strings {
  import opened Wrappers

  // ---- Whitespace -----------------------------------------------------------------------------------

  /** `str.isspace` for one character. */
  predicate IsSpace(c: char)
  {
    var n := c as int;
    || 0x09 <= n <= 0x0d || 0x1c <= n <= 0x20 || n == 0x85 || n == 0xa0 || n == 0x1680
    || 0x2000 <= n <= 0x200a || n == 0x2028 || n == 0x2029 || n == 0x202f || n == 0x205f || n == 0x3000
  }

  function LStrip(s: string): string
  {
    if s != "" && IsSpace(s[0]) then LStrip(s[1..]) else s
  }

  function RStrip(s: string): string
  {
    if s != "" && IsSpace(s[|s| - 1]) then RStrip(s[..|s| - 1]) else s
  }

  /** `s.strip()` */
  function Strip(s: string): string { RStrip(LStrip(s)) }

  predicate Stripped(s: string) { s != "" ==> !IsSpace(s[0]) && !IsSpace(s[|s| - 1]) }

  predicate AllSpace(s: string) { forall i :: 0 <= i < |s| ==> IsSpace(s[i]) }

  lemma {:induction false} LStripIsSuffix(s: string)
    ensures exists k: nat :: k <= |s| && LStrip(s) == s[k..]
    ensures LStrip(s) != "" ==> !IsSpace(LStrip(s)[0])
    decreases |s|
  {
    if s != "" && IsSpace(s[0]) {
      LStripIsSuffix(s[1..]);
      var k: nat :| k <= |s[1..]| && LStrip(s[1..]) == s[1..][k..];
      assert s[1..][k..] == s[k + 1..];
    } else {
      assert s == s[0..];
    }
  }

  lemma {:induction false} RStripIsPrefix(s: string)
    ensures exists k: nat :: k <= |s| && RStrip(s) == s[..k]
    ensures RStrip(s) != "" ==> !IsSpace(RStrip(s)[|RStrip(s)| - 1])
    decreases |s|
  {
    if s != "" && IsSpace(s[|s| - 1]) {
      var init := s[..|s| - 1];
      RStripIsPrefix(init);
      var k: nat :| k <= |init| && RStrip(init) == init[..k];
      assert init[..k] == s[..k];
    } else {
      assert s == s[..|s|];
    }
  }

  /** Stripping leaves a stripped piece of the string. */
  lemma StripIsStripped(s: string)
    ensures Stripped(Strip(s))
    ensures exists i: nat, j: nat :: i <= j <= |s| && Strip(s) == s[i..j]
  {
    LStripIsSuffix(s);
    var i: nat :| i <= |s| && LStrip(s) == s[i..];
    RStripIsPrefix(s[i..]);
    var k: nat :| k <= |s[i..]| && RStrip(s[i..]) == s[i..][..k];
    assert s[i..][..k] == s[i..i + k];
    assert i <= i + k <= |s| && Strip(s) == s[i..i + k];
  }

  lemma StripKeepsChars(s: string, c: char)
    ensures c in Strip(s) ==> c in s
  {
    StripIsStripped(s);
  }

  lemma StripOfStripped(s: string)
    requires Stripped(s)
    ensures Strip(s) == s
  {
  }

  lemma {:induction false} LStripPadding(a: string, s: string)
    requires AllSpace(a)
    ensures LStrip(a + s) == LStrip(s)
    decreases |a|
  {
    if a == "" {
      assert a + s == s;
    } else {
      assert (a + s)[1..] == a[1..] + s;
      LStripPadding(a[1..], s);
    }
  }

  lemma {:induction false} RStripPadding(s: string, b: string)
    requires AllSpace(b)
    ensures RStrip(s + b) == RStrip(s)
    decreases |b|
  {
    if b == "" {
      assert s + b == s;
    } else {
      assert (s + b)[..|s + b| - 1] == s + b[..|b| - 1];
      RStripPadding(s, b[..|b| - 1]);
    }
  }

  lemma {:induction false} LStripAllSpace(s: string)
    requires AllSpace(s)
    ensures LStrip(s) == "" && RStrip(s) == ""
    decreases |s|
  {
    if s != "" {
      LStripAllSpace(s[1..]);
      LStripAllSpace(s[..|s| - 1]);
    }
  }

  lemma {:induction false} LStripBefore(s: string, b: string)
    requires !AllSpace(s)
    ensures LStrip(s + b) == LStrip(s) + b
    decreases |s|
  {
    if IsSpace(s[0]) {
      assert (s + b)[1..] == s[1..] + b;
      var k :| 0 <= k < |s| && !IsSpace(s[k]);
      assert s[1..][k - 1] == s[k];
      LStripBefore(s[1..], b);
    }
  }

  /** Whitespace around a string does not matter to what strip leaves. */
  lemma StripPadding(a: string, s: string, b: string)
    requires AllSpace(a) && AllSpace(b)
    ensures Strip(a + s + b) == Strip(s)
  {
    assert a + s + b == a + (s + b);
    LStripPadding(a, s + b);
    if AllSpace(s) {
      assert AllSpace(s + b);
      LStripAllSpace(s + b);
      LStripAllSpace(s);
    } else {
      LStripBefore(s, b);
      RStripPadding(LStrip(s), b);
    }
  }

  lemma {:induction false} StripOfLStrip(s: string)
    ensures Strip(LStrip(s)) == Strip(s)
    decreases |s|
  {
    if s != "" && IsSpace(s[0]) { StripOfLStrip(s[1..]); }
  }

  lemma {:induction false} StripOfRStrip(s: string)
    ensures Strip(RStrip(s)) == Strip(s)
    decreases |s|
  {
    if s != "" && IsSpace(s[|s| - 1]) {
      var init, last := s[..|s| - 1], s[|s| - 1..];
      StripOfRStrip(init);
      StripPadding("", init, last);
      assert "" + init + last == s;
    }
  }

  lemma {:induction false} RStripAfter(a: string, c: char, s: string)
    requires !IsSpace(c)
    ensures RStrip(a + [c] + s) == a + [c] + RStrip(s)
    decreases |s|
  {
    var t := a + [c] + s;
    if s == "" {
      assert t[|t| - 1] == c;
    } else {
      assert t[|t| - 1] == s[|s| - 1] && t[..|t| - 1] == a + [c] + s[..|s| - 1];
      RStripAfter(a, c, s[..|s| - 1]);
    }
  }

  /** Stripping around a middle character works on the two sides separately. */
  lemma StripAround(a: string, c: char, b: string)
    requires !IsSpace(c)
    ensures Strip(a + [c] + b) == LStrip(a) + [c] + RStrip(b)
  {
    hide LStrip, RStrip, IsSpace;
    LStripAround(a, c, b);
    RStripAfter(LStrip(a), c, b);
  }

  lemma LStripAround(a: string, c: char, b: string)
    requires !IsSpace(c)
    ensures LStrip(a + [c] + b) == LStrip(a) + [c] + b
  {
    hide RStrip, IsSpace;
    var rest := [c] + b;
    assert a + [c] + b == a + rest;
    if AllSpace(a) {
      LStripAllSpace(a);
      LStripPadding(a, rest);
      assert LStrip(rest) == rest;
    } else {
      hide LStrip;
      LStripBefore(a, rest);
    }
    assert LStrip(a) + [c] + b == LStrip(a) + rest;
  }

  // ---- Splitting and joining ------------------------------------------------------------------------

  /** `s.split(sep)` for a one-character separator. */
  function Split(s: string, sep: char): (ws: seq<string>)
    ensures |ws| >= 1
    ensures forall i :: 0 <= i < |ws| ==> sep !in ws[i]
    decreases |s|
  {
    if s == "" then [""]
    else
      var rest := Split(s[1..], sep);
      if s[0] == sep then [""] + rest else [[s[0]] + rest[0]] + rest[1..]
  }

  function Join(ws: seq<string>, sep: char): string
  {
    if |ws| == 0 then "" else if |ws| == 1 then ws[0] else ws[0] + [sep] + Join(ws[1..], sep)
  }

  lemma {:induction false} JoinSplit(s: string, sep: char)
    ensures Join(Split(s, sep), sep) == s
    decreases |s|
  {
    if s != "" {
      var rest := Split(s[1..], sep);
      JoinSplit(s[1..], sep);
      if s[0] == sep {
        assert ([""] + rest)[1..] == rest;
        assert Join([""] + rest, sep) == "" + [sep] + s[1..];
        assert s == [sep] + s[1..];
      } else {
        var ws := [[s[0]] + rest[0]] + rest[1..];
        assert ws[1..] == rest[1..];
        assert Join(ws, sep) == [s[0]] + Join(rest, sep);
        assert s == [s[0]] + s[1..];
      }
    }
  }

  lemma SplitStep(s: string, sep: char)
    requires s != ""
    ensures Split(s, sep) == var rest := Split(s[1..], sep);
                             if s[0] == sep then [""] + rest else [[s[0]] + rest[0]] + rest[1..]
  {
  }

  lemma SplitSep(b: string, sep: char)
    ensures Split([sep] + b, sep) == [""] + Split(b, sep)
  {
    assert ([sep] + b)[1..] == b;
  }

  lemma {:induction false} SplitOfConcat(a: string, b: string, sep: char)
    ensures Split(a + [sep] + b, sep) == Split(a, sep) + Split(b, sep)
    decreases |a|
  {
    hide Split;
    var s := a + [sep] + b;
    if a == "" {
      SplitSep(b, sep);
      SplitWithout("", sep);
      assert s == [sep] + b;
    } else {
      assert s[0] == a[0] && s[1..] == a[1..] + [sep] + b;
      SplitOfConcat(a[1..], b, sep);
      SplitStep(s, sep);
      SplitStep(a, sep);
      var first := Split(a[1..], sep);
      assert (first + Split(b, sep))[1..] == first[1..] + Split(b, sep);
    }
  }

  lemma {:induction false} SplitWithout(s: string, sep: char)
    requires sep !in s
    ensures Split(s, sep) == [s]
    decreases |s|
  {
    if s != "" {
      SplitWithout(s[1..], sep);
      assert [s[0]] + s[1..] == s;
    }
  }

  /** Splitting undoes joining pieces that do not contain the separator. */
  lemma {:induction false} SplitJoin(ws: seq<string>, sep: char)
    requires |ws| >= 1 && forall i :: 0 <= i < |ws| ==> sep !in ws[i]
    ensures Split(Join(ws, sep), sep) == ws
    decreases |ws|
  {
    SplitWithout(ws[0], sep);
    if |ws| > 1 {
      SplitJoin(ws[1..], sep);
      SplitOfConcat(ws[0], Join(ws[1..], sep), sep);
      assert [ws[0]] + ws[1..] == ws;
    } else {
      assert ws == [ws[0]];
    }
  }

  // ---- Searching ------------------------------------------------------------------------------------

  /** `s.find(c)`, with the length of `s` for not found. */
  function Find(s: string, c: char): (k: nat)
    ensures k <= |s|
    ensures c !in s[..k]
    ensures k < |s| ==> s[k] == c
    ensures k == |s| <==> c !in s
  {
    if s == "" then 0
    else if s[0] == c then 0
    else
      var k := Find(s[1..], c) + 1;
      assert s[..k] == [s[0]] + s[1..][..k - 1];
      k
  }

  /** The first occurrence is where it is put. */
  lemma {:induction false} FindAt(a: string, c: char, b: string)
    requires c !in a
    ensures Find(a + [c] + b, c) == |a|
    decreases |a|
  {
    var s := a + [c] + b;
    if a == "" {
      assert s[0] == c;
    } else {
      assert s[0] == a[0] && s[1..] == a[1..] + [c] + b;
      FindAt(a[1..], c, b);
    }
  }

  function Count(s: string, c: char): nat
  {
    if s == "" then 0 else (if s[0] == c then 1 else 0) + Count(s[1..], c)
  }

  lemma {:induction false} CountConcat(a: string, b: string, c: char)
    ensures Count(a + b, c) == Count(a, c) + Count(b, c)
    decreases |a|
  {
    if a == "" {
      assert a + b == b;
    } else {
      assert (a + b)[1..] == a[1..] + b;
      CountConcat(a[1..], b, c);
    }
  }

  lemma {:induction false} CountZero(s: string, c: char)
    ensures Count(s, c) == 0 <==> c !in s
    decreases |s|
  {
    if s != "" {
      CountZero(s[1..], c);
      assert s == [s[0]] + s[1..];
    }
  }

  // ---- Integers -------------------------------------------------------------------------------------

  predicate IsDigit(c: char) { '0' <= c <= '9' }

  /** Digits with single underscores between them. */
  predicate IsNumeral(s: string)
  {
    && s != "" && IsDigit(s[0]) && IsDigit(s[|s| - 1])
    && (forall i :: 0 <= i < |s| ==> IsDigit(s[i]) || s[i] == '_')
    && (forall i :: 0 <= i < |s| - 1 ==> !TwoUnderscores(s, i))
  }

  predicate TwoUnderscores(s: string, i: int)
    requires 0 <= i < |s| - 1
  {
    s[i] == '_' && s[i + 1] == '_'
  }

  function NumeralValue(s: string): nat
  {
    if s == "" then 0
    else
      var init, last := s[..|s| - 1], s[|s| - 1];
      if IsDigit(last) then 10 * NumeralValue(init) + (last as int - '0' as int) else NumeralValue(init)
  }

  /** `int(s)`; `None` stands for `ValueError`. */
  function ParseInt(s: string): Option<int>
  {
    var t := Strip(s);
    if t != "" && (t[0] == '-' || t[0] == '+') then
      var v: int := NumeralValue(t[1..]);
      if IsNumeral(t[1..]) then Some(if t[0] == '-' then -v else v) else None
    else if IsNumeral(t) then Some(NumeralValue(t)) else None
  }

  /** Plain decimal digits. */
  function Decimal(n: nat): (s: string)
    ensures s != "" && forall i :: 0 <= i < |s| ==> IsDigit(s[i])
  {
    (if n < 10 then "" else Decimal(n / 10)) + [(n % 10 + '0' as int) as char]
  }

  function PrintInt(n: int): string { if n < 0 then "-" + Decimal(-n) else Decimal(n) }

  lemma {:induction false} NumeralOfDecimal(n: nat)
    ensures NumeralValue(Decimal(n)) == n && IsNumeral(Decimal(n))
    decreases n
  {
    var s := Decimal(n);
    if n < 10 {
      assert s[..|s| - 1] == "";
    } else {
      NumeralOfDecimal(n / 10);
      assert s[..|s| - 1] == Decimal(n / 10);
    }
  }

  /** Parsing undoes printing, for every integer. */
  lemma ParsePrintInt(n: int)
    ensures ParseInt(PrintInt(n)) == Some(n)
    ensures Stripped(PrintInt(n)) && PrintInt(n) != ""
    ensures forall c :: c in PrintInt(n) ==> IsDigit(c) || c == '-'
  {
    hide IsNumeral, NumeralValue, Strip, Decimal, IsSpace;
    var m := if n < 0 then -n else n;
    NumeralOfDecimal(m);
    DecimalIsStripped(m);
    StripOfStripped(PrintInt(n));
    if n < 0 { assert PrintInt(n)[1..] == Decimal(m); }
  }

  lemma DecimalIsStripped(m: nat)
    ensures Stripped(Decimal(m)) && Stripped("-" + Decimal(m))
    ensures !Signed(Decimal(m))
    ensures forall c :: c in Decimal(m) ==> IsDigit(c)
  {
    hide Decimal;
    var s := Decimal(m);
    assert ("-" + s)[|s|] == s[|s| - 1];
  }

  // ---- Which integers are read ----------------------------------------------------------------------

  predicate AllDigits(s: string) { forall i :: 0 <= i < |s| ==> IsDigit(s[i]) }

  function DigitOf(c: char): int { c as int - '0' as int }

  function Pow10(n: nat): int { if n == 0 then 1 else 10 * Pow10(n - 1) }

  /** The number that plain digits denote, by place value. */
  function PlaceValue(digits: string): int
  {
    if digits == "" then 0 else DigitOf(digits[0]) * Pow10(|digits| - 1) + PlaceValue(digits[1..])
  }

  /** Groups of digits, to be joined by single underscores. */
  predicate Groups(gs: seq<string>) { gs != [] && forall i :: 0 <= i < |gs| ==> gs[i] != "" && AllDigits(gs[i]) }

  function Concatenated(gs: seq<string>): string { if gs == [] then "" else gs[0] + Concatenated(gs[1..]) }

  /** The text `t` stands for `n`: an optional sign and groups of digits with underscores between them. */
  ghost predicate Denotes(t: string, n: int)
  {
    exists sign: string, gs: seq<string> ::
      && (sign == "" || sign == "+" || sign == "-") && Groups(gs)
      && t == sign + Join(gs, '_')
      && n == WithSign(sign, PlaceValue(Concatenated(gs)))
  }

  function WithSign(sign: string, n: int): int { if sign == "-" then -n else n }

  lemma {:induction false} PlaceNext(digits: string, c: char)
    ensures PlaceValue(digits + [c]) == 10 * PlaceValue(digits) + DigitOf(c)
    decreases |digits|
  {
    var s := digits + [c];
    if digits == "" {
      assert s[1..] == "";
    } else {
      assert s[1..] == digits[1..] + [c];
      PlaceNext(digits[1..], c);
      assert Pow10(|s| - 1) == 10 * Pow10(|digits| - 1);
      Tenfold(DigitOf(digits[0]), Pow10(|digits| - 1));
    }
  }

  lemma Tenfold(d: int, p: int)
    ensures d * (10 * p) == 10 * (d * p)
  {
  }

  /** The digits of a string, without what stands between them. */
  function DigitsIn(s: string): string
  {
    if s == "" then "" else DigitsIn(s[..|s| - 1]) + if IsDigit(s[|s| - 1]) then [s[|s| - 1]] else ""
  }

  lemma {:induction false} ValueOfDigits(s: string)
    ensures NumeralValue(s) == PlaceValue(DigitsIn(s))
    decreases |s|
  {
    if s != "" {
      var init, last := s[..|s| - 1], s[|s| - 1];
      ValueOfDigits(init);
      if IsDigit(last) { PlaceNext(DigitsIn(init), last); } else { assert DigitsIn(s) == DigitsIn(init); }
    }
  }

  lemma {:induction false} DigitsConcat(a: string, b: string)
    ensures DigitsIn(a + b) == DigitsIn(a) + DigitsIn(b)
    decreases |b|
  {
    if b == "" {
      assert a + b == a;
    } else {
      assert (a + b)[..|a + b| - 1] == a + b[..|b| - 1];
      DigitsConcat(a, b[..|b| - 1]);
    }
  }

  lemma {:induction false} DigitsOnly(s: string)
    requires AllDigits(s)
    ensures DigitsIn(s) == s
    decreases |s|
  {
    if s != "" { DigitsOnly(s[..|s| - 1]); }
  }

  lemma OneGroup(g: string)
    requires g != "" && AllDigits(g)
    ensures IsNumeral(g) && DigitsIn(g) == g && Join([g], '_') == g && Concatenated([g]) == g
  {
    hide IsNumeral, DigitsIn;
    DigitsOnly(g);
    DigitsAreNumeral(g);
    assert [g][1..] == [] && g + "" == g;
  }

  lemma DigitsAreNumeral(g: string)
    requires g != "" && AllDigits(g)
    ensures IsNumeral(g)
  {
  }

  lemma UnderscoreIsNoDigit()
    ensures DigitsIn("_") == ""
  {
    assert "_"[..0] == "";
  }

  lemma MoreGroups(g: string, gs: seq<string>)
    requires gs != []
    ensures Join([g] + gs, '_') == g + ("_" + Join(gs, '_')) && Concatenated([g] + gs) == g + Concatenated(gs)
  {
    assert ([g] + gs)[1..] == gs;
    assert g + ['_'] + Join(gs, '_') == g + ("_" + Join(gs, '_'));
  }

  lemma SkipUnderscore(g: string, rest: string)
    requires AllDigits(g)
    ensures DigitsIn(g + ("_" + rest)) == g + DigitsIn(rest)
  {
    hide DigitsIn;
    DigitsOnly(g);
    DigitsConcat(g, "_" + rest);
    DigitsConcat("_", rest);
    UnderscoreIsNoDigit();
  }

  lemma {:induction false} GroupsAreNumerals(gs: seq<string>)
    requires Groups(gs)
    ensures IsNumeral(Join(gs, '_')) && NumeralValue(Join(gs, '_')) == PlaceValue(Concatenated(gs))
    ensures DigitsIn(Join(gs, '_')) == Concatenated(gs)
    decreases |gs|
  {
    hide IsNumeral, DigitsIn, Join, Concatenated, NumeralValue, PlaceValue;
    if |gs| == 1 {
      OneGroup(gs[0]);
      assert gs == [gs[0]];
    } else {
      GroupsAreNumerals(gs[1..]);
      assert gs == [gs[0]] + gs[1..];
      MoreGroups(gs[0], gs[1..]);
      NumeralPrepend(gs[0], Join(gs[1..], '_'));
      SkipUnderscore(gs[0], Join(gs[1..], '_'));
    }
    ValueOfDigits(Join(gs, '_'));
  }

  lemma NumeralPrepend(g: string, rest: string)
    requires g != "" && AllDigits(g)
    ensures IsNumeral(g + ("_" + rest)) <==> IsNumeral(rest)
  {
    var s := g + ("_" + rest);
    assert forall i :: 0 <= i < |g| ==> s[i] == g[i];
    assert s[|g|] == '_' && forall i :: 0 <= i < |rest| ==> s[|g| + 1 + i] == rest[i];
    if IsNumeral(s) {
      assert IsDigit(s[|s| - 1]) && !IsDigit(s[|g|]);
      forall i | 0 <= i < |rest| ensures IsDigit(rest[i]) || rest[i] == '_' { assert rest[i] == s[|g| + 1 + i]; }
      assert |rest| > 0 ==> s[|g| + 1] == rest[0] && s[|s| - 1] == rest[|rest| - 1] && !TwoUnderscores(s, |g|);
      forall i | 0 <= i < |rest| - 1 ensures !TwoUnderscores(rest, i) {
        assert !TwoUnderscores(s, |g| + 1 + i);
        assert rest[i] == s[|g| + 1 + i] && rest[i + 1] == s[|g| + 1 + (i + 1)];
      }
    }
    if IsNumeral(rest) {
      forall i | 0 <= i < |s| - 1 ensures !TwoUnderscores(s, i) {
        if i > |g| {
          assert !TwoUnderscores(rest, i - |g| - 1);
          assert rest[i - |g| - 1] == s[i] && rest[i - |g|] == s[i + 1];
        } else if i == |g| {
          assert s[i + 1] == rest[0];
        } else {
          assert s[i] == g[i];
        }
      }
      assert s[|s| - 1] == rest[|rest| - 1] && s[0] == g[0];
      forall i | 0 <= i < |s| ensures IsDigit(s[i]) || s[i] == '_' {
        if i > |g| { assert s[i] == rest[i - |g| - 1]; }
      }
    }
  }

  lemma AllOneGroup(t: string)
    requires IsNumeral(t) && '_' !in t
    ensures AllDigits(t) && t != "" && Join([t], '_') == t
  {
    assert forall i :: 0 <= i < |t| ==> t[i] in t;
  }

  lemma FirstGroup(t: string, k: nat)
    requires IsNumeral(t) && k < |t| && t[k] == '_' && '_' !in t[..k]
    ensures t == t[..k] + ("_" + t[k + 1..]) && t[..k] != "" && AllDigits(t[..k])
  {
    assert forall i :: 0 <= i < k ==> t[..k][i] in t[..k] && t[i] == t[..k][i];
  }

  lemma NextGroup(g: string, gs: seq<string>)
    requires g != "" && AllDigits(g) && Groups(gs)
    ensures Groups([g] + gs) && Join([g] + gs, '_') == g + ("_" + Join(gs, '_'))
  {
    hide AllDigits, Join;
    MoreGroups(g, gs);
  }

  lemma {:induction false} NumeralsAreGroups(t: string) returns (gs: seq<string>)
    requires IsNumeral(t)
    ensures Groups(gs) && t == Join(gs, '_')
    decreases |t|
  {
    hide IsNumeral, Join;
    var k := Find(t, '_');
    if k == |t| {
      AllOneGroup(t);
      gs := [t];
    } else {
      hide Groups, AllDigits;
      FirstGroup(t, k);
      NumeralPrepend(t[..k], t[k + 1..]);
      var more := NumeralsAreGroups(t[k + 1..]);
      NextGroup(t[..k], more);
      gs := [t[..k]] + more;
    }
  }

  lemma ReadDenotes(t: string, sign: string, body: string)
    requires (sign == "" || sign == "+" || sign == "-") && t == sign + body && IsNumeral(body)
    ensures Denotes(t, WithSign(sign, NumeralValue(body)))
  {
    var gs := NumeralsAreGroups(body);
    GroupsAreNumerals(gs);
  }

  lemma DenotedIsRead(t: string, n: int) returns (sign: string, body: string)
    requires Denotes(t, n)
    ensures (sign == "" || sign == "+" || sign == "-") && t == sign + body && IsNumeral(body)
    ensures n == WithSign(sign, NumeralValue(body))
  {
    var si: string, gs: seq<string> :|
      && (si == "" || si == "+" || si == "-") && Groups(gs)
      && t == si + Join(gs, '_')
      && n == WithSign(si, PlaceValue(Concatenated(gs)));
    GroupsAreNumerals(gs);
    sign, body := si, Join(gs, '_');
  }

  predicate Signed(t: string) { t != "" && (t[0] == '-' || t[0] == '+') }

  lemma NumeralHasNoSign(t: string)
    requires IsNumeral(t)
    ensures !Signed(t)
  {
  }

  /** `int()` reads exactly the texts that, stripped, are a sign and groups of digits - as the number they denote. */
  lemma ParseIntMeaning(s: string, n: int)
    ensures ParseInt(s) == Some(n) <==> Denotes(Strip(s), n)
  {
    hide Strip, IsNumeral, NumeralValue, Denotes;
    var t := Strip(s);
    if ParseInt(s) == Some(n) {
      var sign, body := if Signed(t) then t[..1] else "", if Signed(t) then t[1..] else t;
      assert t == sign + body;
      ReadDenotes(t, sign, body);
    }
    if Denotes(t, n) {
      var sign, body := DenotedIsRead(t, n);
      NumeralHasNoSign(body);
      if sign == "" { assert t == body; } else { assert t[1..] == body && t[0] == sign[0]; }
    }
  }
}
