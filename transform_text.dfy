/**
 * The textual form of the layer group's `transform` attribute in the geo
 * choropleth chart: the string `setTransform` writes and the object
 * `parseTransform` reads back from it.
 *
 * `parseTransform` scans its input with the global regular expression
 * `/(\w+\((\-?\d+\.?\d*,?)+\))/g` and splits every match with
 * `/[\w\.\-]+/g`.  Here that scan is written out by hand: `MatchAt` says
 * whether the expression matches at a position and what the split yields,
 * `Scan` collects the left-most, non-overlapping matches in order.
 */
module TransformText {
  import opened Options

  // ---------------------------------------------------------------------
  // Character classes
  // ---------------------------------------------------------------------

  predicate IsDigit(c: char) { '0' <= c <= '9' }

  /** `\w` in a JavaScript regular expression. */
  predicate IsWordChar(c: char) {
    'a' <= c <= 'z' || 'A' <= c <= 'Z' || IsDigit(c) || c == '_'
  }

  /** The characters the group `(\-?\d+\.?\d*,?)+` can consume. */
  predicate IsArgChar(c: char) { IsDigit(c) || c == '-' || c == '.' || c == ',' }

  predicate AllDigits(s: string) { forall j :: 0 <= j < |s| ==> IsDigit(s[j]) }

  // ---------------------------------------------------------------------
  // Numerals: -?\d+\.?\d*
  // ---------------------------------------------------------------------

  /** The first position at or after `i` that does not hold a digit. */
  function DigitEnd(s: string, i: nat): (k: nat)
    requires i <= |s|
    ensures i <= k <= |s|
    ensures forall j :: i <= j < k ==> IsDigit(s[j])
    ensures k < |s| ==> !IsDigit(s[k])
    decreases |s| - i
  {
    if i < |s| && IsDigit(s[i]) then DigitEnd(s, i + 1) else i
  }

  /** `s` without its leading minus sign, if it has one. */
  function Unsigned(s: string): string {
    if |s| > 0 && s[0] == '-' then s[1..] else s
  }

  /** `s` is in the number grammar `-?\d+\.?\d*`. */
  predicate IsNumeral(s: string) {
    var u := Unsigned(s);
    var k := DigitEnd(u, 0);
    0 < k && (k == |u| || (u[k] == '.' && AllDigits(u[k + 1..])))
  }

  function DigitValue(c: char): nat
    requires IsDigit(c)
  {
    c as int - '0' as int
  }

  /** The natural number a string of decimal digits denotes. */
  function NatValue(ds: string): nat
    requires AllDigits(ds)
  {
    if ds == [] then 0 else 10 * NatValue(ds[..|ds| - 1]) + DigitValue(ds[|ds| - 1])
  }

  function Pow10(n: nat): (r: nat)
    ensures r >= 1
  {
    if n == 0 then 1 else 10 * Pow10(n - 1)
  }

  /**
   * JavaScript's `Number(s)` on the tokens the scanner produces: such a
   * token is made of digits, `-` and `.`, and it denotes a number exactly
   * when it is a numeral; otherwise `Number` gives NaN, here `None`.
   */
  function NumeralValue(s: string): (r: Option<real>)
    ensures r.Some? <==> IsNumeral(s)
  {
    if !IsNumeral(s) then None
    else
      var u := Unsigned(s);
      var k := DigitEnd(u, 0);
      var frac := if k == |u| then "" else u[k + 1..];
      var magnitude := NatValue(u[..k]) as real + NatValue(frac) as real / Pow10(|frac|) as real;
      Some(if |s| > 0 && s[0] == '-' then -magnitude else magnitude)
  }

  lemma NumeralChars(s: string)
    requires IsNumeral(s)
    ensures |s| > 0 && (s[0] == '-' || IsDigit(s[0]))
    ensures forall j :: 0 <= j < |s| ==> IsArgChar(s[j]) && s[j] != ','
  {
    var u := Unsigned(s);
    var k := DigitEnd(u, 0);
    forall j | 0 <= j < |u|
      ensures IsArgChar(u[j]) && u[j] != ','
    {
      if j > k {
        assert u[k + 1..][j - k - 1] == u[j];
      }
    }
  }

  // ---------------------------------------------------------------------
  // The argument list (\-?\d+\.?\d*,?)+ and its tokens
  // ---------------------------------------------------------------------

  /** One repetition of the group: `-?\d+\.?\d*,?`. */
  predicate IsItem(t: string) {
    IsNumeral(t) || (|t| > 0 && t[|t| - 1] == ',' && IsNumeral(t[..|t| - 1]))
  }

  /** `s` is one or more repetitions of the group. */
  predicate IsArgList(s: string)
    decreases |s|
  {
    |s| > 0 &&
    exists k :: 1 <= k <= |s| && IsItem(s[..k]) && (k == |s| || IsArgList(s[k..]))
  }

  /** The first position at or after `i` that holds a comma. */
  function CommaAt(s: string, i: nat): (k: nat)
    requires i <= |s|
    ensures i <= k <= |s|
    ensures forall j :: i <= j < k ==> s[j] != ','
    ensures k < |s| ==> s[k] == ','
    decreases |s| - i
  {
    if i < |s| && s[i] != ',' then CommaAt(s, i + 1) else i
  }

  /** The non-empty comma-separated pieces of `s`, in order. */
  function Tokens(s: string): (r: seq<string>)
    ensures forall t :: t in r ==> |t| > 0 && ',' !in t
    decreases |s|
  {
    if s == [] then []
    else if s[0] == ',' then Tokens(s[1..])
    else
      var j := CommaAt(s, 0);
      assert forall c :: c in s[..j] ==> c != ',';
      [s[..j]] + Tokens(s[j..])
  }

  lemma ArgListStarts(s: string)
    requires IsArgList(s)
    ensures s[0] == '-' || IsDigit(s[0])
  {
    var k :| 1 <= k <= |s| && IsItem(s[..k]) && (k == |s| || IsArgList(s[k..]));
    var t := s[..k];
    if IsNumeral(t) {
      NumeralChars(t);
    } else {
      NumeralChars(t[..|t| - 1]);
      assert t[..|t| - 1][0] == s[0];
    }
  }

  // ---------------------------------------------------------------------
  // The scan
  // ---------------------------------------------------------------------

  /** One match of the expression, `name(args)`, split into its pieces. */
  datatype Match = Match(name: string, args: seq<string>)

  function WordEnd(s: string, i: nat): (k: nat)
    requires i <= |s|
    ensures i <= k <= |s|
    ensures forall j :: i <= j < k ==> IsWordChar(s[j])
    ensures k < |s| ==> !IsWordChar(s[k])
    decreases |s| - i
  {
    if i < |s| && IsWordChar(s[i]) then WordEnd(s, i + 1) else i
  }

  function ArgEnd(s: string, i: nat): (k: nat)
    requires i <= |s|
    ensures i <= k <= |s|
    ensures forall j :: i <= j < k ==> IsArgChar(s[j])
    ensures k < |s| ==> !IsArgChar(s[k])
    decreases |s| - i
  {
    if i < |s| && IsArgChar(s[i]) then ArgEnd(s, i + 1) else i
  }

  /**
   * Whether the expression matches at the start of `s`, and if so the
   * match and its length.  `\w+` must run up to the `(` because `(` is
   * not a word character, and the group must run up to the first `)`
   * because `)` is not an argument character, so a match is determined by
   * these two runs.  The name is the first `[\w.-]+` piece of the matched
   * text and the arguments are the remaining pieces, that is the
   * comma-separated pieces of the text between the parentheses.
   */
  function MatchAt(s: string): (r: Option<(Match, nat)>)
    ensures r.Some? ==> 0 < r.value.1 <= |s|
    ensures r.Some? ==> |r.value.0.args| >= 1
  {
    var k := WordEnd(s, 0);
    if k == 0 || k == |s| || s[k] != '(' then None
    else
      var j := ArgEnd(s, k + 1);
      if j == |s| || s[j] != ')' || !IsArgList(s[k + 1..j]) then None
      else
        ArgListStarts(s[k + 1..j]);
        Some((Match(s[..k], Tokens(s[k + 1..j])), j + 1))
  }

  /**
   * The left-most, non-overlapping matches in `s`, in order: what
   * `String.prototype.match` returns for a global expression (an empty
   * list where JavaScript returns `null`).
   */
  function Scan(s: string): (r: seq<Match>)
    ensures forall m :: m in r ==> |m.args| >= 1
    decreases |s|
  {
    if s == [] then []
    else
      var r := MatchAt(s);
      if r.Some? then [r.value.0] + Scan(s[r.value.1..]) else Scan(s[1..])
  }

  /** `a === null` is read as the empty string. */
  function Text(a: Option<string>): string {
    a.GetOr("")
  }

  function Matches(a: Option<string>): seq<Match> {
    Scan(Text(a))
  }

  // ---------------------------------------------------------------------
  // The object parseTransform builds
  // ---------------------------------------------------------------------

  /** `b[c.shift()] = c` for every match in turn, starting from `acc`. */
  function Collect(acc: map<string, seq<string>>, ms: seq<Match>): (r: map<string, seq<string>>)
    ensures acc.Keys <= r.Keys
    ensures |ms| > 0 ==> ms[|ms| - 1].name in r && r[ms[|ms| - 1].name] == ms[|ms| - 1].args
    decreases |ms|
  {
    if ms == [] then acc else Collect(acc[ms[0].name := ms[0].args], ms[1..])
  }

  /** The object built by the loop, before defaults are filled in. */
  function Fields(a: Option<string>): map<string, seq<string>> {
    Collect(map[], Matches(a))
  }

  const TRANSLATE := "translate"
  const SCALE := "scale"

  /**
   * The defaults `parseTransform` fills in: a missing translate becomes `0,0`, a
   * translate with one component gets `ty = 0`; a missing scale becomes
   * `1,1`, a scale with one component is duplicated.  JavaScript writes
   * the numbers 0 and 1 there; they are kept as the numerals "0" and "1",
   * which every reader of the object converts to the same numbers.
   */
  function WithDefaults(b: map<string, seq<string>>): (r: map<string, seq<string>>)
    requires forall n :: n in b ==> |b[n]| >= 1
    ensures TRANSLATE in r && SCALE in r
    ensures |r[TRANSLATE]| >= 2 && |r[SCALE]| >= 2
    ensures forall n :: n in r <==> n in b || n == TRANSLATE || n == SCALE
    ensures forall n :: n in b && n != TRANSLATE && n != SCALE ==> r[n] == b[n]
    ensures TRANSLATE !in b ==> r[TRANSLATE] == ["0", "0"]
    ensures TRANSLATE in b && |b[TRANSLATE]| == 1 ==> r[TRANSLATE] == b[TRANSLATE] + ["0"]
    ensures TRANSLATE in b && |b[TRANSLATE]| >= 2 ==> r[TRANSLATE] == b[TRANSLATE]
    ensures SCALE !in b ==> r[SCALE] == ["1", "1"]
    ensures SCALE in b && |b[SCALE]| == 1 ==> r[SCALE] == b[SCALE] + [b[SCALE][0]]
    ensures SCALE in b && |b[SCALE]| >= 2 ==> r[SCALE] == b[SCALE]
  {
    var t := if TRANSLATE !in b then ["0", "0"]
             else if |b[TRANSLATE]| < 2 then b[TRANSLATE] + ["0"]
             else b[TRANSLATE];
    var sc := if SCALE !in b then ["1", "1"]
              else if |b[SCALE]| < 2 then b[SCALE] + [b[SCALE][0]]
              else b[SCALE];
    b[TRANSLATE := t][SCALE := sc]
  }

  lemma {:induction false} CollectArgsNonEmpty(acc: map<string, seq<string>>, ms: seq<Match>)
    requires forall n :: n in acc ==> |acc[n]| >= 1
    requires forall m :: m in ms ==> |m.args| >= 1
    ensures forall n :: n in Collect(acc, ms) ==> |Collect(acc, ms)[n]| >= 1
    decreases |ms|
  {
    if ms != [] {
      assert ms[0] in ms;
      assert forall m :: m in ms[1..] ==> m in ms;
      CollectArgsNonEmpty(acc[ms[0].name := ms[0].args], ms[1..]);
    }
  }

  /** What `parseTransform(a)` returns. */
  function ParsedTransform(a: Option<string>): (r: map<string, seq<string>>)
    ensures TRANSLATE in r && SCALE in r && |r[TRANSLATE]| >= 2 && |r[SCALE]| >= 2
    ensures forall n :: n in r ==> |r[n]| >= 1
  {
    CollectArgsNonEmpty(map[], Matches(a));
    WithDefaults(Fields(a))
  }

  /** The object `{translate: [0,0], scale: [1,1]}` an empty attribute parses to. */
  const IDENTITY: map<string, seq<string>> := map[TRANSLATE := ["0", "0"], SCALE := ["1", "1"]]

  /**
   * `parseTransform`: scan the attribute, let each match overwrite the
   * entry of its name, then fill in the defaults.
   */
  method ParseTransform(a: Option<string>) returns (b: map<string, seq<string>>)
    ensures b == ParsedTransform(a)
  {
    b := CollectMatches(a);
    if TRANSLATE !in b {
      b := b[TRANSLATE := ["0", "0"]];
    } else if |b[TRANSLATE]| < 2 {
      b := b[TRANSLATE := b[TRANSLATE] + ["0"]];
    }
    if SCALE !in b {
      b := b[SCALE := ["1", "1"]];
    } else if |b[SCALE]| < 2 {
      b := b[SCALE := b[SCALE] + [b[SCALE][0]]];
    }
  }

  /** The loop of `parseTransform`: `b[c.shift()] = c` for each match of the scan in turn. */
  method CollectMatches(a: Option<string>) returns (b: map<string, seq<string>>)
    ensures b == Fields(a)
    ensures forall n :: n in b ==> |b[n]| >= 1
  {
    var rest := if a == None then "" else a.value;
    b := map[];
    while rest != []
      invariant forall n :: n in b ==> |b[n]| >= 1
      invariant Collect(b, Scan(rest)) == Fields(a)
      decreases |rest|
    {
      var m := MatchAt(rest);
      if m.Some? {
        b := b[m.value.0.name := m.value.0.args];
        rest := rest[m.value.1..];
      } else {
        rest := rest[1..];
      }
    }
  }

  // ---------------------------------------------------------------------
  // The string setTransform writes
  // ---------------------------------------------------------------------

  /** `name(content)`. */
  function Call(name: string, content: string): string {
    name + "(" + content + ")"
  }

  /**
   * `"translate(" + translate + ") scale(" + scale + ") "` for a translate
   * array `[tx, ty]` (which JavaScript joins with a comma) and a scale `s`,
   * each already written as decimal text.
   */
  function TransformAttr(tx: string, ty: string, s: string): string {
    Call(TRANSLATE, tx + "," + ty) + (" " + (Call(SCALE, s) + " "))
  }

  // ---------------------------------------------------------------------
  // Properties of the parse
  // ---------------------------------------------------------------------

  /** A `null` or empty attribute parses to the identity. */
  lemma ParseEmpty()
    ensures ParsedTransform(None) == IDENTITY
    ensures ParsedTransform(Some("")) == IDENTITY
  {
  }

  /** Entries of `ms` other than `n` leave `n` as it was in `acc`. */
  lemma {:induction false} CollectUntouched(acc: map<string, seq<string>>, ms: seq<Match>, n: string)
    requires forall j :: 0 <= j < |ms| ==> ms[j].name != n
    ensures n in Collect(acc, ms) <==> n in acc
    ensures n in acc ==> Collect(acc, ms)[n] == acc[n]
    decreases |ms|
  {
    if ms != [] {
      assert ms[0].name != n;
      forall j | 0 <= j < |ms[1..]| ensures ms[1..][j].name != n {
        assert ms[1..][j] == ms[j + 1];
      }
      CollectUntouched(acc[ms[0].name := ms[0].args], ms[1..], n);
    }
  }

  /** The entry of a name is the argument list of its last match. */
  lemma {:induction false} CollectLast(acc: map<string, seq<string>>, ms: seq<Match>, i: nat)
    requires i < |ms|
    requires forall j :: i < j < |ms| ==> ms[j].name != ms[i].name
    ensures ms[i].name in Collect(acc, ms)
    ensures Collect(acc, ms)[ms[i].name] == ms[i].args
    decreases |ms|
  {
    var acc' := acc[ms[0].name := ms[0].args];
    if i == 0 {
      forall j | 0 <= j < |ms[1..]| ensures ms[1..][j].name != ms[0].name {
        assert ms[1..][j] == ms[j + 1];
      }
      CollectUntouched(acc', ms[1..], ms[0].name);
    } else {
      forall j | i - 1 < j < |ms[1..]| ensures ms[1..][j].name != ms[1..][i - 1].name {
        assert ms[1..][j] == ms[j + 1];
      }
      CollectLast(acc', ms[1..], i - 1);
    }
  }

  /** The object has an entry for a name exactly when some match carries that name (or the name is already in `acc`). */
  lemma {:induction false} CollectKeys(acc: map<string, seq<string>>, ms: seq<Match>, n: string)
    ensures n in Collect(acc, ms) <==> n in acc || exists j :: 0 <= j < |ms| && ms[j].name == n
    decreases |ms|
  {
    if ms != [] {
      CollectKeys(acc[ms[0].name := ms[0].args], ms[1..], n);
      if exists j :: 0 <= j < |ms[1..]| && ms[1..][j].name == n {
        var j :| 0 <= j < |ms[1..]| && ms[1..][j].name == n;
        assert ms[j + 1].name == n;
      }
      if exists j :: 0 <= j < |ms| && ms[j].name == n {
        var j :| 0 <= j < |ms| && ms[j].name == n;
        if j > 0 { assert ms[1..][j - 1].name == n; }
      }
    }
  }

  /**
   * Later occurrences win and unknown names are kept: for a name other
   * than translate and scale, the parse has an entry exactly when some
   * match has that name, and the entry is the last such match's arguments.
   */
  lemma ParseKeepsLastOccurrence(a: Option<string>, n: string, i: nat)
    requires n != TRANSLATE && n != SCALE
    requires i < |Matches(a)| && Matches(a)[i].name == n
    requires forall j :: i < j < |Matches(a)| ==> Matches(a)[j].name != n
    ensures n in ParsedTransform(a) && ParsedTransform(a)[n] == Matches(a)[i].args
  {
    CollectLast(map[], Matches(a), i);
  }

  lemma ParseKeys(a: Option<string>, n: string)
    ensures n in ParsedTransform(a) <==>
            n == TRANSLATE || n == SCALE || exists j :: 0 <= j < |Matches(a)| && Matches(a)[j].name == n
  {
    CollectKeys(map[], Matches(a), n);
  }

  // --- The round trip -------------------------------------------------------

  lemma {:induction false} WordEndAt(s: string, i: nat, k: nat)
    requires i <= k <= |s|
    requires forall j :: i <= j < k ==> IsWordChar(s[j])
    requires k < |s| ==> !IsWordChar(s[k])
    ensures WordEnd(s, i) == k
    decreases k - i
  {
    if i < k { WordEndAt(s, i + 1, k); }
  }

  lemma {:induction false} ArgEndAt(s: string, i: nat, k: nat)
    requires i <= k <= |s|
    requires forall j :: i <= j < k ==> IsArgChar(s[j])
    requires k < |s| ==> !IsArgChar(s[k])
    ensures ArgEnd(s, i) == k
    decreases k - i
  {
    if i < k { ArgEndAt(s, i + 1, k); }
  }

  lemma {:induction false} CommaAtBound(s: string, i: nat, k: nat)
    requires i <= k <= |s|
    requires forall j :: i <= j < k ==> s[j] != ','
    requires k < |s| ==> s[k] == ','
    ensures CommaAt(s, i) == k
    decreases k - i
  {
    if i < k { CommaAtBound(s, i + 1, k); }
  }

  lemma NumeralTokens(x: string)
    requires IsNumeral(x)
    ensures Tokens(x) == [x]
  {
    NumeralChars(x);
    CommaAtBound(x, 0, |x|);
    assert x[..|x|] == x;
    assert x[|x|..] == [];
  }

  /** One step of `Tokens` on a string that starts with a piece ending at `k`. */
  lemma TokensFirst(s: string, k: nat)
    requires 0 < k <= |s| && s[0] != ',' && CommaAt(s, 0) == k
    ensures Tokens(s) == [s[..k]] + Tokens(s[k..])
  {
  }

  /** One step of `Tokens` on a string that starts with a comma. */
  lemma TokensComma(s: string)
    requires |s| > 0 && s[0] == ','
    ensures Tokens(s) == Tokens(s[1..])
  {
  }

  /** The first comma of `x + "," + y`, when `x` has none, follows `x`. */
  lemma PieceComma(x: string, y: string)
    requires forall j :: 0 <= j < |x| ==> x[j] != ','
    ensures CommaAt(x + "," + y, 0) == |x|
  {
    var s := x + "," + y;
    forall j | 0 <= j < |x| ensures s[j] != ',' {
      assert s[j] == x[j];
    }
    CommaAtBound(s, 0, |x|);
  }

  lemma PairTokens(x: string, y: string)
    requires IsNumeral(x) && IsNumeral(y)
    ensures Tokens(x + "," + y) == [x, y]
  {
    NumeralChars(x);
    var s := x + "," + y;
    PieceComma(x, y);
    TokensFirst(s, |x|);
    assert s[..|x|] == x;
    assert s[|x|..] == "," + y;
    TokensComma("," + y);
    assert ("," + y)[1..] == y;
    NumeralTokens(y);
  }

  lemma NumeralArgList(x: string)
    requires IsNumeral(x)
    ensures IsArgList(x)
  {
    NumeralChars(x);
    assert x[..|x|] == x;
  }

  lemma PairArgList(x: string, y: string)
    requires IsNumeral(x) && IsNumeral(y)
    ensures IsArgList(x + "," + y)
  {
    NumeralChars(x);
    var s := x + "," + y;
    var k := |x| + 1;
    assert s[..k][..k - 1] == x;
    assert IsItem(s[..k]);
    assert s[k..] == y;
    NumeralArgList(y);
  }

  /** A name the expression's `\w+` can match: a non-empty run of word characters. */
  predicate IsName(name: string) {
    |name| > 0 && forall j :: 0 <= j < |name| ==> IsWordChar(name[j])
  }

  lemma NamesAreNames()
    ensures IsName(TRANSLATE) && IsName(SCALE)
  {
  }

  /** `MatchAt` once the two runs it looks for, and the text they cover, are known. */
  lemma MatchAtRuns(s: string, k: nat, j: nat, name: string, args: string)
    requires 0 < k < j < |s| && s[k] == '(' && s[j] == ')'
    requires WordEnd(s, 0) == k && ArgEnd(s, k + 1) == j
    requires s[..k] == name && s[k + 1..j] == args
    requires IsArgList(args)
    ensures MatchAt(s).Some?
    ensures MatchAt(s).value.0 == Match(name, Tokens(args))
    ensures MatchAt(s).value.1 == j + 1
  {
  }

  /** Where the pieces of `name(content)` sit in `name(content) + rest`. */
  lemma CallShape(name: string, content: string, rest: string)
    ensures var s := Call(name, content) + rest;
      var k := |name|;
      var j := k + 1 + |content|;
      && |Call(name, content)| == j + 1 && j < |s|
      && s[..k] == name && s[k] == '(' && s[k + 1..j] == content && s[j] == ')'
  {
    var s := Call(name, content) + rest;
    assert s == name + ("(" + content + ")" + rest);
    assert s == (name + "(") + (content + (")" + rest));
  }

  /** The two runs `MatchAt` looks for end at a `(` and at a `)`. */
  lemma RunsAt(s: string, k: nat, j: nat)
    requires 0 < k < j < |s| && s[k] == '(' && s[j] == ')'
    requires forall i :: 0 <= i < k ==> IsWordChar(s[i])
    requires forall i :: k + 1 <= i < j ==> IsArgChar(s[i])
    ensures WordEnd(s, 0) == k && ArgEnd(s, k + 1) == j
  {
    WordEndAt(s, 0, k);
    ArgEndAt(s, k + 1, j);
  }

  /** In a string that starts with `name(content)` the two runs end at the `(` and the `)`. */
  lemma RunsOfCall(s: string, name: string, content: string)
    requires IsName(name)
    requires forall j :: 0 <= j < |content| ==> IsArgChar(content[j])
    requires |name| + 1 + |content| < |s|
    requires s[..|name|] == name && s[|name|] == '('
    requires s[|name| + 1..|name| + 1 + |content|] == content && s[|name| + 1 + |content|] == ')'
    ensures WordEnd(s, 0) == |name| && ArgEnd(s, |name| + 1) == |name| + 1 + |content|
  {
    PrefixChars(s, name);
    InfixChars(s, |name| + 1, content);
    RunsAt(s, |name|, |name| + 1 + |content|);
  }

  /** The characters of a prefix that is a name are word characters. */
  lemma PrefixChars(s: string, name: string)
    requires IsName(name) && |name| <= |s| && s[..|name|] == name
    ensures forall i :: 0 <= i < |name| ==> IsWordChar(s[i])
  {
    forall i | 0 <= i < |name| ensures IsWordChar(s[i]) {
      assert s[i] == s[..|name|][i];
    }
  }

  /** The characters of an argument text at `k` are argument characters. */
  lemma InfixChars(s: string, k: nat, content: string)
    requires forall j :: 0 <= j < |content| ==> IsArgChar(content[j])
    requires k + |content| <= |s| && s[k..k + |content|] == content
    ensures forall i :: k <= i < k + |content| ==> IsArgChar(s[i])
  {
    forall i | k <= i < k + |content| ensures IsArgChar(s[i]) {
      assert s[i] == s[k..k + |content|][i - k];
    }
  }

  /** A string that starts with `name(content)`, with its two runs known, matches exactly that text. */
  lemma CallAt(s: string, name: string, content: string)
    requires IsName(name)
    requires IsArgList(content)
    requires |name| + 1 + |content| < |s|
    requires s[..|name|] == name && s[|name|] == '('
    requires s[|name| + 1..|name| + 1 + |content|] == content && s[|name| + 1 + |content|] == ')'
    requires WordEnd(s, 0) == |name| && ArgEnd(s, |name| + 1) == |name| + 1 + |content|
    ensures MatchAt(s).Some?
    ensures MatchAt(s).value.0 == Match(name, Tokens(content))
    ensures MatchAt(s).value.1 == |name| + 2 + |content|
  {
    MatchAtRuns(s, |name|, |name| + 1 + |content|, name, content);
  }

  /** `name(content)` at the start of a string is a match of exactly that text. */
  lemma CallMatches(name: string, content: string, rest: string)
    requires IsName(name)
    requires forall j :: 0 <= j < |content| ==> IsArgChar(content[j])
    requires IsArgList(content)
    ensures MatchAt(Call(name, content) + rest).Some?
    ensures MatchAt(Call(name, content) + rest).value.0 == Match(name, Tokens(content))
    ensures MatchAt(Call(name, content) + rest).value.1 == |Call(name, content)|
  {
    CallShape(name, content, rest);
    RunsOfCall(Call(name, content) + rest, name, content);
    CallAt(Call(name, content) + rest, name, content);
  }

  lemma NoMatchAtSpace(s: string)
    requires |s| > 0 && s[0] == ' '
    ensures MatchAt(s) == None
  {
    WordEndAt(s, 0, 0);
  }

  lemma ScanCall(name: string, content: string, rest: string)
    requires IsName(name)
    requires forall j :: 0 <= j < |content| ==> IsArgChar(content[j])
    requires IsArgList(content)
    ensures Scan(Call(name, content) + rest) == [Match(name, Tokens(content))] + Scan(rest)
  {
    CallMatches(name, content, rest);
    var s := Call(name, content) + rest;
    assert s[|Call(name, content)|..] == rest;
  }

  lemma ScanSpace(rest: string)
    ensures Scan(" " + rest) == Scan(rest)
  {
    NoMatchAtSpace(" " + rest);
    assert (" " + rest)[1..] == rest;
  }

  lemma PairChars(x: string, y: string)
    requires IsNumeral(x) && IsNumeral(y)
    ensures forall j :: 0 <= j < |x + "," + y| ==> IsArgChar((x + "," + y)[j])
  {
    NumeralChars(x);
    NumeralChars(y);
  }

  /** Text that can stand between the parentheses of a match. */
  predicate IsCallContent(content: string) {
    IsArgList(content) && forall j :: 0 <= j < |content| ==> IsArgChar(content[j])
  }

  /** A blank, a call and a blank scan to the call's match alone. */
  lemma ScanBlankCallBlank(name: string, content: string)
    requires IsName(name) && IsCallContent(content)
    ensures Scan(" " + (Call(name, content) + " ")) == [Match(name, Tokens(content))]
  {
    ScanSpace("");
    assert Scan(" " + "") == [];
    ScanCall(name, content, " ");
    ScanSpace(Call(name, content) + " ");
  }

  /** Two calls, each followed by a blank, scan to their two matches. */
  lemma ScanTwoCalls(n1: string, c1: string, n2: string, c2: string)
    requires IsName(n1) && IsName(n2) && IsCallContent(c1) && IsCallContent(c2)
    ensures Scan(Call(n1, c1) + (" " + (Call(n2, c2) + " "))) == [Match(n1, Tokens(c1)), Match(n2, Tokens(c2))]
  {
    ScanBlankCallBlank(n2, c2);
    ScanCall(n1, c1, " " + (Call(n2, c2) + " "));
  }

  lemma PairContent(x: string, y: string)
    requires IsNumeral(x) && IsNumeral(y)
    ensures IsCallContent(x + "," + y) && Tokens(x + "," + y) == [x, y]
  {
    PairChars(x, y);
    PairArgList(x, y);
    PairTokens(x, y);
  }

  lemma NumeralContent(x: string)
    requires IsNumeral(x)
    ensures IsCallContent(x) && Tokens(x) == [x]
  {
    NumeralChars(x);
    NumeralArgList(x);
    NumeralTokens(x);
  }

  /** The matches in the text `setTransform` writes: the translate call, then the scale call. */
  lemma AttrMatches(tx: string, ty: string, sc: string)
    requires IsNumeral(tx) && IsNumeral(ty) && IsNumeral(sc)
    ensures Scan(TransformAttr(tx, ty, sc)) == [Match(TRANSLATE, [tx, ty]), Match(SCALE, [sc])]
  {
    var pair := tx + "," + ty;
    PairContent(tx, ty);
    NumeralContent(sc);
    NamesAreNames();
    ScanTwoCalls(TRANSLATE, pair, SCALE, sc);
  }

  /**
   * Parsing the attribute `setTransform` writes, with every number in the
   * grammar `-?\d+\.?\d*`, gives back its translate and the scale `[s, s]`.
   */
  lemma ParseSetTransformRoundTrip(tx: string, ty: string, sc: string)
    requires IsNumeral(tx) && IsNumeral(ty) && IsNumeral(sc)
    ensures ParsedTransform(Some(TransformAttr(tx, ty, sc))) == map[TRANSLATE := [tx, ty], SCALE := [sc, sc]]
  {
    AttrMatches(tx, ty, sc);
    var ms := Matches(Some(TransformAttr(tx, ty, sc)));
    var b1 := map[][TRANSLATE := [tx, ty]];
    var b2 := b1[SCALE := [sc]];
    assert ms[1..] == [Match(SCALE, [sc])];
    assert ms[1..][1..] == [];
    assert Collect(b1, ms[1..]) == Collect(b2, []) == b2;
    assert Fields(Some(TransformAttr(tx, ty, sc))) == b2;
    assert TRANSLATE != SCALE;
    assert [sc] + [sc] == [sc, sc];
    assert WithDefaults(b2) == b2[TRANSLATE := [tx, ty]][SCALE := [sc, sc]];
    assert b2.Keys == {TRANSLATE, SCALE};
  }
}
