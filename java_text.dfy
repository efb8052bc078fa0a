/** The parts of Java's string and integer library the game's line protocol relies on:
    String.split("\\s+"), Integer.parseInt and Integer.toString, for 32-bit ints. */
module JavaText {

  datatype Option<+T> = None | Some(value: T) {
    predicate IsFailure() { None? }

    function PropagateFailure<U>(): Option<U>
      requires None?
    {
      None
    }

    function Extract(): T
      requires Some?
    {
      value
    }
  }

  /** A Java `int`. */
  type Int32 = n: int | -0x8000_0000 <= n < 0x8000_0000

  /** The characters of the regular-expression class \s: space, tab, newline,
      vertical tab, form feed and carriage return. */
  predicate IsWhitespace(c: char) {
    c == ' ' || c == '\t' || c == '\n' || c == '\r' || c as int == 11 || c as int == 12
  }

  predicate NoWhitespace(s: string) {
    forall i :: 0 <= i < |s| ==> !IsWhitespace(s[i])
  }

  /** A token that survives a round trip through split: non-empty, no whitespace. */
  predicate IsWord(s: string) {
    s != [] && NoWhitespace(s)
  }

  /** Drops the leading run of whitespace. */
  function SkipWhitespace(s: string): (r: string)
    ensures |r| <= |s|
    ensures s != [] && IsWhitespace(s[0]) ==> |r| < |s|
    ensures r == [] || !IsWhitespace(r[0])
  {
    if s != [] && IsWhitespace(s[0]) then SkipWhitespace(s[1..]) else s
  }

  /** The pieces between the maximal runs of whitespace of `s`, with the empty piece
      before a leading run and after a trailing run kept. */
  function Pieces(s: string): (r: seq<string>)
    ensures |r| >= 1
    ensures forall i :: 0 <= i < |r| ==> NoWhitespace(r[i])
    ensures s != [] && !IsWhitespace(s[0]) ==> r[0] != ""
    ensures forall i :: 0 < i < |r| - 1 ==> r[i] != ""
    decreases |s|
  {
    if s == [] then [""]
    else if IsWhitespace(s[0]) then [""] + Pieces(SkipWhitespace(s))
    else
      var rest := Pieces(s[1..]);
      [[s[0]] + rest[0]] + rest[1..]
  }

  /** Removes the empty strings at the end of a list of pieces. */
  function DropTrailingEmpty(ts: seq<string>): (r: seq<string>)
    ensures r <= ts
    ensures r == [] || r[|r| - 1] != ""
    ensures forall i :: |r| <= i < |ts| ==> ts[i] == ""
  {
    if ts != [] && ts[|ts| - 1] == "" then DropTrailingEmpty(ts[..|ts| - 1]) else ts
  }

  /** The tokens written one after the other. */
  function Concat(ts: seq<string>): string
    decreases |ts|
  {
    if ts == [] then "" else ts[0] + Concat(ts[1..])
  }

  /** `s` with every whitespace character removed. */
  function NonWhitespace(s: string): string
    decreases |s|
  {
    if s == [] then "" else (if IsWhitespace(s[0]) then "" else [s[0]]) + NonWhitespace(s[1..])
  }

  lemma {:induction false} ConcatSnoc(ts: seq<string>, t: string)
    ensures Concat(ts + [t]) == Concat(ts) + t
    decreases |ts|
  {
    if ts == [] {
      assert [] + [t] == [t];
    } else {
      assert (ts + [t])[1..] == ts[1..] + [t];
      ConcatSnoc(ts[1..], t);
    }
  }

  lemma {:induction false} NonWhitespaceOfWord(s: string)
    requires NoWhitespace(s)
    ensures NonWhitespace(s) == s
    decreases |s|
  {
    if s != [] {
      NonWhitespaceOfWord(s[1..]);
      assert [s[0]] + s[1..] == s;
    }
  }

  lemma {:induction false} NonWhitespaceSkip(s: string)
    ensures NonWhitespace(SkipWhitespace(s)) == NonWhitespace(s)
    decreases |s|
  {
    if s != [] && IsWhitespace(s[0]) {
      NonWhitespaceSkip(s[1..]);
    }
  }

  /** The pieces hold every non-whitespace character of `s`, in order, and nothing else. */
  lemma {:induction false} PiecesContent(s: string)
    ensures Concat(Pieces(s)) == NonWhitespace(s)
    decreases |s|
  {
    if s == [] {
    } else if IsWhitespace(s[0]) {
      var rest := SkipWhitespace(s);
      PiecesContent(rest);
      NonWhitespaceSkip(s);
      assert ([""] + Pieces(rest))[1..] == Pieces(rest);
    } else {
      var rest := Pieces(s[1..]);
      PiecesContent(s[1..]);
      var r := [[s[0]] + rest[0]] + rest[1..];
      assert r[1..] == rest[1..];
      assert Concat(rest) == rest[0] + Concat(rest[1..]);
    }
  }

  lemma {:induction false} DropTrailingEmptyContent(ts: seq<string>)
    ensures Concat(DropTrailingEmpty(ts)) == Concat(ts)
    decreases |ts|
  {
    if ts != [] && ts[|ts| - 1] == "" {
      var init := ts[..|ts| - 1];
      DropTrailingEmptyContent(init);
      ConcatSnoc(init, "");
      assert init + [""] == ts;
    }
  }

  /** `s.split("\\s+")`: a string without whitespace comes back whole (so "" gives [""]);
      otherwise the pieces between whitespace runs, a leading empty piece kept and
      trailing empty pieces dropped (so an all-whitespace line gives []). */
  function Split(s: string): (r: seq<string>)
    ensures forall i :: 0 <= i < |r| ==> NoWhitespace(r[i])
    ensures forall i :: 0 < i < |r| ==> r[i] != ""
    ensures s != [] && !IsWhitespace(s[0]) ==> |r| >= 1 && r[0] != ""
    // the tokens, written one after the other, are `s` without its whitespace
    ensures Concat(r) == NonWhitespace(s)
  {
    if NoWhitespace(s) then
      NonWhitespaceOfWord(s);
      assert Concat([s]) == s + Concat([]);
      [s]
    else
      PiecesContent(s);
      DropTrailingEmptyContent(Pieces(s));
      DropTrailingEmpty(Pieces(s))
  }

  /** The words joined by single spaces. */
  function Unwords(ts: seq<string>): string
  {
    if |ts| == 0 then ""
    else if |ts| == 1 then ts[0]
    else ts[0] + " " + Unwords(ts[1..])
  }

  predicate AllWords(ts: seq<string>) {
    forall i :: 0 <= i < |ts| ==> IsWord(ts[i])
  }

  lemma {:induction false} PiecesOfWord(t: string)
    requires NoWhitespace(t)
    ensures Pieces(t) == [t]
    decreases |t|
  {
    if t != [] {
      PiecesOfWord(t[1..]);
      assert [t[0]] + t[1..] == t;
    }
  }

  lemma {:induction false} PiecesOfWordThenSpace(t: string, rest: string)
    requires NoWhitespace(t)
    requires rest == [] || !IsWhitespace(rest[0])
    ensures Pieces(t + " " + rest) == [t] + Pieces(rest)
    decreases |t|
  {
    var s := t + " " + rest;
    if t == [] {
      assert s == " " + rest;
      assert s[1..] == rest;
      assert SkipWhitespace(s) == SkipWhitespace(rest) == rest;
    } else {
      assert s[1..] == t[1..] + " " + rest;
      PiecesOfWordThenSpace(t[1..], rest);
      assert [t[0]] + t[1..] == t;
    }
  }

  lemma {:induction false} UnwordsStartsWithWord(ts: seq<string>)
    requires |ts| >= 1 && AllWords(ts)
    ensures Unwords(ts) != [] && Unwords(ts)[0] == ts[0][0]
  {
  }

  lemma {:induction false} PiecesOfUnwords(ts: seq<string>)
    requires |ts| >= 1 && AllWords(ts)
    ensures Pieces(Unwords(ts)) == ts
    decreases |ts|
  {
    if |ts| == 1 {
      PiecesOfWord(ts[0]);
    } else {
      var rest := Unwords(ts[1..]);
      PiecesOfUnwords(ts[1..]);
      UnwordsStartsWithWord(ts[1..]);
      PiecesOfWordThenSpace(ts[0], rest);
      assert [ts[0]] + ts[1..] == ts;
    }
  }

  /** Splitting words that were joined by single spaces gives the words back. */
  lemma {:induction false} SplitUnwords(ts: seq<string>)
    requires |ts| >= 1 && AllWords(ts)
    ensures Split(Unwords(ts)) == ts
  {
    PiecesOfUnwords(ts);
    if |ts| >= 2 {
      var s := Unwords(ts);
      assert s == ts[0] + " " + Unwords(ts[1..]);
      assert s[|ts[0]|] == ' ';
      assert !NoWhitespace(s);
    } else {
      assert Unwords(ts) == ts[0];
    }
  }

  predicate IsDigit(c: char) { '0' <= c <= '9' }

  predicate AllDigits(s: string) {
    forall i :: 0 <= i < |s| ==> IsDigit(s[i])
  }

  function DigitValue(c: char): nat
    requires IsDigit(c)
  {
    c as int - '0' as int
  }

  function DigitChar(d: nat): (c: char)
    requires d < 10
    ensures IsDigit(c) && DigitValue(c) == d
  {
    ('0' as int + d) as char
  }

  /** The value of a string of decimal digits, most significant first. */
  function DigitsValue(ds: string): nat
    requires AllDigits(ds)
    decreases |ds|
  {
    if ds == [] then 0 else 10 * DigitsValue(ds[..|ds| - 1]) + DigitValue(ds[|ds| - 1])
  }

  /** The form of a decimal int literal, position by position: a digit or a sign first,
      a digit everywhere after, and at least one digit in all. */
  predicate IsIntLiteral(s: string) {
    && |s| >= 1
    && (IsDigit(s[0]) || ((s[0] == '-' || s[0] == '+') && |s| >= 2))
    && forall i :: 1 <= i < |s| ==> IsDigit(s[i])
  }

  /** The signed value a literal denotes. */
  function LiteralValue(s: string): int
    requires IsIntLiteral(s)
  {
    if s[0] == '-' then -(DigitsValue(s[1..]) as int)
    else if s[0] == '+' then DigitsValue(s[1..])
    else DigitsValue(s)
  }

  /** `Integer.parseInt(s)`: an optional '-' or '+', then at least one decimal digit,
      and a value that fits a Java int; anything else is a NumberFormatException (None).
      Only ASCII digits are modelled. */
  function ParseInt(s: string): (r: Option<Int32>)
    // accepted exactly when the token is a literal whose value fits in 32 bits ...
    ensures r.Some? <==> IsIntLiteral(s) && -0x8000_0000 <= LiteralValue(s) < 0x8000_0000
    // ... and then it is that value
    ensures r.Some? ==> r.value == LiteralValue(s)
  {
    if s == [] then None
    else
      var digits := if s[0] == '-' || s[0] == '+' then s[1..] else s;
      if digits == [] || !AllDigits(digits) then None
      else
        var magnitude := DigitsValue(digits);
        var v: int := if s[0] == '-' then -(magnitude as int) else magnitude;
        if -0x8000_0000 <= v < 0x8000_0000 then Some(v) else None
  }

  /** The decimal digits of `n`, without leading zeros. */
  function NatToString(n: nat): (s: string)
    ensures s != [] && AllDigits(s)
    ensures |s| > 1 ==> s[0] != '0'
  {
    if n < 10 then [DigitChar(n)] else NatToString(n / 10) + [DigitChar(n % 10)]
  }

  /** `Integer.toString(n)`: a '-' for negative values, then the digits of the magnitude. */
  function IntToString(n: int): (s: string)
    ensures IsWord(s)
    ensures s[0] == '-' <==> n < 0
  {
    if n < 0 then "-" + NatToString(-n) else NatToString(n)
  }

  lemma {:induction false} NatToStringValue(n: nat)
    ensures DigitsValue(NatToString(n)) == n
  {
    if n >= 10 {
      NatToStringValue(n / 10);
      var s := NatToString(n);
      assert s[..|s| - 1] == NatToString(n / 10);
    }
  }

  lemma ParseNatToString(n: nat)
    requires n < 0x8000_0000
    ensures ParseInt(NatToString(n)) == Some(n)
  {
    var s := NatToString(n);
    assert IsDigit(s[0]);
    NatToStringValue(n);
  }

  lemma ParseNegativeToString(n: int)
    requires -0x8000_0000 <= n < 0
    ensures ParseInt(IntToString(n)) == Some(n)
  {
    var m: nat := -n;
    var s := IntToString(n);
    assert s == "-" + NatToString(m);
    assert s[1..] == NatToString(m);
    NatToStringValue(m);
  }

  /** `Integer.parseInt(Integer.toString(n)) == n` for every Java int. */
  lemma ParseIntToString(n: Int32)
    ensures ParseInt(IntToString(n)) == Some(n)
  {
    if n < 0 {
      ParseNegativeToString(n);
    } else {
      ParseNatToString(n);
    }
  }
}
