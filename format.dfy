/** The placeholder formatter `format(message, ...args)`: every `{digits}`
    in the template whose digit run names a defined argument is replaced by
    that argument's string; every other character is copied verbatim.

    The formatter is written as an explicit scanner: `Tokenize` walks the
    template left to right and cuts it into single characters and
    placeholders, exactly as the global pattern `{(\d+)}` does, and `Render`
    substitutes each placeholder independently. `Lexes` is the declarative
    description of the same cut that the scanner is proved against. */
module Formatter {
  import opened Wrappers
  import opened Decimal

  /** Arguments as the formatter sees them: `None` is `undefined`, `Some(s)`
      a defined value whose string conversion is `s`. */
  type Args = seq<Option<string>>

  /** A text the pattern `{(\d+)}` matches as a whole. */
  predicate IsPlaceholder(p: string) {
    |p| >= 3 && p[0] == '{' && p[|p| - 1] == '}' && AllDigits(p[1..|p| - 1])
  }

  /** The digit run inside a placeholder: the property key it is looked up under. */
  function Key(p: string): string
    requires IsPlaceholder(p)
  {
    p[1..|p| - 1]
  }

  /** The placeholder that names argument `n`. */
  function PlaceholderFor(n: nat): (p: string)
    ensures IsPlaceholder(p) && Key(p) == Show(n)
  {
    "{" + Show(n) + "}"
  }

  /** Length of the longest run of digits at the front of `s`. */
  function DigitRun(s: string): (n: nat)
    ensures n <= |s| && AllDigits(s[..n])
    ensures n < |s| ==> !IsDigit(s[n])
  {
    if s == [] || !IsDigit(s[0]) then 0
    else
      var m := DigitRun(s[1..]);
      assert s[..1 + m] == [s[0]] + s[1..][..m];
      1 + m
  }

  lemma {:induction false} DigitRunExact(s: string, k: nat)
    requires k < |s| && AllDigits(s[..k]) && !IsDigit(s[k])
    ensures DigitRun(s) == k
    decreases k
  {
    if k > 0 {
      assert s[1..][..k - 1] == s[1..k];
      assert forall i :: 0 <= i < k - 1 ==> s[1..k][i] == s[..k][i + 1];
      DigitRunExact(s[1..], k - 1);
    } else {
      assert s[0] == s[k];
    }
  }

  /** The length of the placeholder at the front of `t`, if one starts there.
      With `\d+` greedy and `}` not a digit, at most one prefix qualifies. */
  function PlaceholderAt(t: string): (r: Option<nat>)
    ensures r.Some? ==> 3 <= r.value <= |t| && IsPlaceholder(t[..r.value])
    ensures forall n :: 0 <= n <= |t| && IsPlaceholder(t[..n]) ==> r == Some(n)
  {
    if |t| == 0 || t[0] != '{' then
      None
    else
      var d := DigitRun(t[1..]);
      forall n | 0 <= n <= |t| && IsPlaceholder(t[..n]) ensures d == n - 2 {
        assert t[..n][1..n - 1] == t[1..][..n - 2];
        assert t[1..][n - 2] == t[..n][n - 1];
        DigitRunExact(t[1..], n - 2);
      }
      if d > 0 && 1 + d < |t| && t[1 + d] == '}' then
        assert t[..d + 2][1..d + 1] == t[1..][..d];
        Some(d + 2)
      else
        None
  }

  /** A piece of a template after scanning. */
  datatype Token = Char(c: char) | Placeholder(text: string)

  function Unparse(toks: seq<Token>): string {
    if toks == [] then []
    else
      (match toks[0]
       case Char(c) => [c]
       case Placeholder(p) => p) + Unparse(toks[1..])
  }

  /** The left-to-right scan: at each position take the placeholder that
      starts there, otherwise copy one character and move on. */
  function Tokenize(t: string): (toks: seq<Token>)
    ensures Unparse(toks) == t
    decreases |t|
  {
    if t == [] then []
    else
      match PlaceholderAt(t)
      case Some(n) =>
        assert t[..n] + t[n..] == t;
        [Placeholder(t[..n])] + Tokenize(t[n..])
      case None =>
        assert [t[0]] + t[1..] == t;
        [Char(t[0])] + Tokenize(t[1..])
  }

  /** The cut the pattern `/{(\d+)}/g` makes, stated without a scanner: a
      token sequence lexes `t` when its placeholders are matches, in order and
      without overlap, and every single character stands at a position where
      no match begins. */
  ghost predicate Lexes(t: string, toks: seq<Token>)
    decreases |toks|
  {
    if toks == [] then t == []
    else
      match toks[0]
      case Placeholder(p) =>
        IsPlaceholder(p) && |p| <= |t| && t[..|p|] == p && Lexes(t[|p|..], toks[1..])
      case Char(c) =>
        |t| > 0 && t[0] == c && (forall n :: 0 <= n <= |t| ==> !IsPlaceholder(t[..n]))
        && Lexes(t[1..], toks[1..])
  }

  /** The scanner produces the one cut that `Lexes` describes: it lexes the
      template, and any token sequence that lexes the template is the scan. */
  lemma {:induction false} TokenizeLexes(t: string, toks: seq<Token>)
    ensures Lexes(t, toks) <==> toks == Tokenize(t)
    decreases |t|
  {
    if t == [] {
    } else {
      var r := PlaceholderAt(t);
      if r.Some? {
        var n := r.value;
        if toks != [] {
          TokenizeLexes(t[n..], toks[1..]);
          match toks[0]
          case Placeholder(p) =>
            if IsPlaceholder(p) && |p| <= |t| && t[..|p|] == p {
              assert |p| == n;
            }
          case Char(c) =>
            assert IsPlaceholder(t[..n]);
        }
      } else {
        if toks != [] {
          TokenizeLexes(t[1..], toks[1..]);
          match toks[0]
          case Placeholder(p) =>
          case Char(c) =>
        }
      }
    }
  }

  /** `args[key]` for a property key: an array answers only for the canonical
      spelling of an index it holds, so "0" finds argument 0 while "00" and
      "01" find nothing. */
  function Lookup(args: Args, key: string): (r: Option<string>)
    ensures forall n: nat :: key == Show(n) ==> r == if n < |args| then args[n] else None
    ensures (forall n: nat :: key != Show(n)) ==> r == None
  {
    if Canonical(key) then
      ShowValue(key);
      if Value(key) < |args| then args[Value(key)] else None
    else
      None
  }

  /** The replacement callback: the argument's string if it is defined,
      otherwise the matched text itself. */
  function Substitute(p: string, args: Args): (r: string)
    requires IsPlaceholder(p)
    ensures forall n: nat :: Key(p) == Show(n) && n < |args| && args[n].Some? ==> r == args[n].value
    ensures (forall n: nat :: Key(p) == Show(n) ==> n >= |args| || args[n].None?) ==> r == p
  {
    Lookup(args, Key(p)).GetOr(p)
  }

  function Render(toks: seq<Token>, args: Args): string {
    if toks == [] then []
    else
      (match toks[0]
       case Char(c) => [c]
       case Placeholder(p) => if IsPlaceholder(p) then Substitute(p, args) else p)
      + Render(toks[1..], args)
  }

  /** `format(message, ...args)`. */
  function Format(t: string, args: Args): (r: string)
    ensures Lexes(t, Tokenize(t)) && r == Render(Tokenize(t), args)
    ensures forall toks :: Lexes(t, toks) ==> r == Render(toks, args)
  {
    LexesExactly(t);
    Render(Tokenize(t), args)
  }

  /** The scan is a lexing of `t`, and the only one. */
  lemma LexesExactly(t: string)
    ensures Lexes(t, Tokenize(t))
    ensures forall toks :: Lexes(t, toks) ==> toks == Tokenize(t)
  {
    TokenizeLexes(t, Tokenize(t));
    forall toks | Lexes(t, toks)
      ensures toks == Tokenize(t)
    {
      TokenizeLexes(t, toks);
    }
  }

  /** A placeholder at the front of the template is replaced by the argument
      it names when that argument is defined, and kept literally when the
      index is out of range or the argument is `undefined`. The substituted
      text is never scanned again: the rest of the template is formatted on
      its own. */
  lemma FormatPlaceholder(n: nat, rest: string, args: Args)
    ensures Format(PlaceholderFor(n) + rest, args)
         == (if n < |args| && args[n].Some? then args[n].value else PlaceholderFor(n))
            + Format(rest, args)
  {
    var p := PlaceholderFor(n);
    var t := p + rest;
    assert t[..|p|] == p && t[|p|..] == rest;
    assert PlaceholderAt(t) == Some(|p|);
  }

  /** A character where no placeholder begins is copied unchanged. */
  lemma FormatChar(t: string, args: Args)
    requires |t| > 0 && forall n :: 0 <= n <= |t| ==> !IsPlaceholder(t[..n])
    ensures Format(t, args) == [t[0]] + Format(t[1..], args)
  {
  }

  lemma {:induction false} RenderPlain(toks: seq<Token>, args: Args)
    requires forall i :: 0 <= i < |args| ==> args[i].None?
    ensures Render(toks, args) == Unparse(toks)
    decreases |toks|
  {
    if toks != [] {
      if toks[0].Placeholder? && IsPlaceholder(toks[0].text) && Canonical(Key(toks[0].text)) {
        ShowValue(Key(toks[0].text));
      }
      RenderPlain(toks[1..], args);
    }
  }

  /** Without defined arguments the template comes back unchanged, whatever
      placeholders it holds: `format('{0} {0}')` is `'{0} {0}'`. */
  lemma FormatWithoutArguments(t: string, args: Args)
    requires forall i :: 0 <= i < |args| ==> args[i].None?
    ensures Format(t, args) == t
  {
    RenderPlain(Tokenize(t), args);
  }

  /** A template in which no substring is a placeholder comes back unchanged,
      whatever the arguments. */
  lemma {:induction false} FormatNoPlaceholder(t: string, args: Args)
    requires forall i, j :: 0 <= i <= j <= |t| ==> !IsPlaceholder(t[i..j])
    ensures Format(t, args) == t
    decreases |t|
  {
    if t != [] {
      assert forall n :: 0 <= n <= |t| ==> t[..n] == t[0..n];
      forall i, j | 0 <= i <= j <= |t[1..]| ensures !IsPlaceholder(t[1..][i..j]) {
        assert t[1..][i..j] == t[i + 1..j + 1];
      }
      FormatNoPlaceholder(t[1..], args);
      FormatChar(t, args);
      assert [t[0]] + t[1..] == t;
    }
  }

  lemma FormatBlank(rest: string, args: Args)
    ensures Format(" " + rest, args) == " " + Format(rest, args)
  {
    var t := " " + rest;
    assert t[1..] == rest;
    FormatChar(t, args);
  }

  /** A template that is one placeholder. */
  lemma FormatSingle(n: nat, args: Args)
    ensures Format(PlaceholderFor(n), args)
         == if n < |args| && args[n].Some? then args[n].value else PlaceholderFor(n)
  {
    FormatPlaceholder(n, "", args);
    assert PlaceholderFor(n) + "" == PlaceholderFor(n);
  }

  /** The placeholders of the examples below are the texts "{0}", "{1}", "{2}". */
  lemma PlaceholderSpelling()
    ensures PlaceholderFor(0) == "{0}" && PlaceholderFor(1) == "{1}" && PlaceholderFor(2) == "{2}"
  {
  }

  /** `format('{m} {n}', a, b)`: both placeholders are resolved against the
      same two arguments, each on its own. With `m, n` = 0, 0 this is `'1 1'`
      for the arguments 1 and 2 (an index used twice gives the same value
      twice), with 0, 1 it is `'1 2'`, with 1, 0 `'2 1'`, and with 1, 2 it is
      `'2 {2}'` (index 2 is out of range and stays). */
  lemma FormatPair(m: nat, n: nat, a: string, b: string)
    ensures var args := [Some(a), Some(b)];
      Format(PlaceholderFor(m) + (" " + PlaceholderFor(n)), args)
      == Format(PlaceholderFor(m), args) + (" " + Format(PlaceholderFor(n), args))
  {
    var args := [Some(a), Some(b)];
    FormatSingle(m, args);
    FormatSingle(n, args);
    FormatBlank(PlaceholderFor(n), args);
    FormatPlaceholder(m, " " + PlaceholderFor(n), args);
  }

  /** The four two-argument examples of the facade's tests, with the
      arguments 1 and 2 written as the strings `a` and `b`; the templates are
      spelled `{0} {0}`, `{0} {1}`, `{1} {2}` and `{1} {0}`. */
  lemma FormatTestExamples(a: string, b: string)
    ensures PlaceholderFor(0) == "{0}" && PlaceholderFor(1) == "{1}" && PlaceholderFor(2) == "{2}"
    ensures var args := [Some(a), Some(b)];
      && Format(PlaceholderFor(0) + (" " + PlaceholderFor(0)), args) == a + (" " + a)
      && Format(PlaceholderFor(0) + (" " + PlaceholderFor(1)), args) == a + (" " + b)
      && Format(PlaceholderFor(1) + (" " + PlaceholderFor(2)), args) == b + (" " + PlaceholderFor(2))
      && Format(PlaceholderFor(1) + (" " + PlaceholderFor(0)), args) == b + (" " + a)
  {
    PlaceholderSpelling();
    var args := [Some(a), Some(b)];
    FormatSingle(0, args);
    FormatSingle(1, args);
    FormatSingle(2, args);
    FormatPair(0, 0, a, b);
    FormatPair(0, 1, a, b);
    FormatPair(1, 2, a, b);
    FormatPair(1, 0, a, b);
  }

  /** `{01}` is looked up under the key "01", which no array index spells,
      so it stays literal even though argument 1 is defined. */
  lemma ExampleLeadingZero()
    ensures Format("{01}", [Some("1"), Some("2")]) == "{01}"
  {
    var t := "{01}";
    assert t[1..|t| - 1] == "01" && "01"[0] == '0';
    assert IsPlaceholder(t) && Key(t) == "01" && !Canonical("01");
    assert t[..4] == t && t[4..] == [];
    assert PlaceholderAt(t) == Some(4);
  }
}
