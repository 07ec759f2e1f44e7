/**
 * The standard-library text handling assembler.h relies on, stated as
 * functions: splitting a line into whitespace-separated tokens
 * (`while (ss >> token)`), splitting the source into lines
 * (`std::getline(str, line, '\n')`), the character classes `isspace` and
 * `isdigit`, `IsStringNumber`, and the numeral prefix `std::stoul` converts.
 */
module Text {
  import opened Wrappers

  /** std::isspace in the C locale: space, \t, \n, \v, \f, \r. */
  predicate IsSpace(c: char) {
    c == ' ' || c == '\t' || c == '\n' || c == '\U{000B}' || c == '\U{000C}' || c == '\r'
  }

  /** std::isdigit. */
  predicate IsDigit(c: char) {
    '0' <= c <= '9'
  }

  /** IsStringNumber: a non-empty string of decimal digits. */
  predicate IsStringNumber(s: string) {
    |s| > 0 && forall i :: 0 <= i < |s| ==> IsDigit(s[i])
  }

  /** A token as `operator>>` extracts it: non-empty, no whitespace. */
  predicate IsWord(t: string) {
    |t| > 0 && forall i :: 0 <= i < |t| ==> !IsSpace(t[i])
  }

  // ---------------------------------------------------------------------------
  // Tokens of a line

  /** The first index at or after i that is not whitespace (or |s|). */
  function SkipSpace(s: string, i: nat): (j: nat)
    requires i <= |s|
    ensures i <= j <= |s|
    ensures j < |s| ==> !IsSpace(s[j])
    decreases |s| - i
  {
    if i == |s| || !IsSpace(s[i]) then i else SkipSpace(s, i + 1)
  }

  /** The first index at or after i that is whitespace (or |s|). */
  function SkipWord(s: string, i: nat): (j: nat)
    requires i <= |s|
    ensures i <= j <= |s|
    ensures j < |s| ==> IsSpace(s[j])
    decreases |s| - i
  {
    if i == |s| || IsSpace(s[i]) then i else SkipWord(s, i + 1)
  }

  /** The tokens of s[i..]: its maximal runs of non-whitespace, in order. */
  function TokensFrom(s: string, i: nat): seq<string>
    requires i <= |s|
    decreases |s| - i
  {
    var a := SkipSpace(s, i);
    if a == |s| then []
    else
      var b := SkipWord(s, a);
      [s[a..b]] + TokensFrom(s, b)
  }

  /** The tokens `while (ss >> token)` collects from a line. */
  function Tokens(s: string): seq<string> {
    TokensFrom(s, 0)
  }

  /** Every token is a word. */
  lemma {:induction false} TokensFromAreWords(s: string, i: nat)
    requires i <= |s|
    ensures forall k :: 0 <= k < |TokensFrom(s, i)| ==> IsWord(TokensFrom(s, i)[k])
    decreases |s| - i
  {
    var a := SkipSpace(s, i);
    if a < |s| {
      SkipWordNoSpace(s, a);
      TokensFromAreWords(s, SkipWord(s, a));
    }
  }

  lemma TokensAreWords(s: string)
    ensures forall k :: 0 <= k < |Tokens(s)| ==> IsWord(Tokens(s)[k])
  {
    TokensFromAreWords(s, 0);
  }

  /**
   * The `while (ss >> token)` loop: skip whitespace, then take characters up to
   * the next whitespace, as many times as the line allows.
   */
  method SplitTokens(s: string) returns (tokens: seq<string>)
    ensures tokens == Tokens(s)
  {
    tokens := [];
    var i := 0;
    while i < |s|
      invariant 0 <= i <= |s|
      invariant tokens + TokensFrom(s, i) == Tokens(s)
      decreases |s| - i
    {
      if IsSpace(s[i]) {
        TokensFromSpace(s, i);
        i := i + 1;
      } else {
        var start := i;
        while i < |s| && !IsSpace(s[i])
          invariant start <= i <= |s|
          invariant forall q :: start <= q < i ==> !IsSpace(s[q])
          decreases |s| - i
        {
          i := i + 1;
        }
        TokensFromTake(tokens, s, start, i);
        tokens := tokens + [s[start..i]];
      }
    }
  }

  /** One step of SplitTokens: the word s[start..i] is the next token. */
  lemma TokensFromTake(tokens: seq<string>, s: string, start: nat, i: nat)
    requires start < i <= |s|
    requires forall q :: start <= q < i ==> !IsSpace(s[q])
    requires i < |s| ==> IsSpace(s[i])
    ensures tokens + TokensFrom(s, start) == (tokens + [s[start..i]]) + TokensFrom(s, i)
  {
    SkipWordEnd(s, start, i);
    TokensFromWord(s, start);
  }

  lemma TokensFromSpace(s: string, i: nat)
    requires i < |s| && IsSpace(s[i])
    ensures TokensFrom(s, i) == TokensFrom(s, i + 1)
  {
  }

  lemma TokensFromWord(s: string, i: nat)
    requires i < |s| && !IsSpace(s[i])
    ensures TokensFrom(s, i) == [s[i..SkipWord(s, i)]] + TokensFrom(s, SkipWord(s, i))
  {
  }

  lemma TokensFromEnd(s: string)
    ensures TokensFrom(s, |s|) == []
  {
  }

  lemma {:induction false} SkipWordNoSpace(s: string, i: nat)
    requires i <= |s|
    ensures forall q :: i <= q < SkipWord(s, i) ==> !IsSpace(s[q])
    decreases |s| - i
  {
    if i < |s| && !IsSpace(s[i]) {
      SkipWordNoSpace(s, i + 1);
    }
  }

  /** Tokens read from a suffix do not depend on what precedes it. */
  lemma {:induction false} TokensFromShift(p: string, q: string, i: nat)
    requires i <= |q|
    ensures TokensFrom(p + q, |p| + i) == TokensFrom(q, i)
    decreases |q| - i
  {
    var s := p + q;
    SkipSpaceShift(p, q, i);
    var a := SkipSpace(q, i);
    if a < |q| {
      SkipWordShift(p, q, a);
      var b := SkipWord(q, a);
      SliceShift(p, q, a, b);
      TokensFromShift(p, q, b);
    }
  }

  lemma {:induction false} SkipSpaceShift(p: string, q: string, i: nat)
    requires i <= |q|
    ensures SkipSpace(p + q, |p| + i) == |p| + SkipSpace(q, i)
    decreases |q| - i
  {
    if i < |q| {
      assert (p + q)[|p| + i] == q[i];
      SkipSpaceShift(p, q, i + 1);
    }
  }

  lemma {:induction false} SkipWordShift(p: string, q: string, i: nat)
    requires i <= |q|
    ensures SkipWord(p + q, |p| + i) == |p| + SkipWord(q, i)
    decreases |q| - i
  {
    if i < |q| {
      assert (p + q)[|p| + i] == q[i];
      SkipWordShift(p, q, i + 1);
    }
  }

  /** A word followed by a space and more text: the word is the first token. */
  lemma FirstWord(t: string, rest: string)
    requires IsWord(t)
    ensures Tokens(t + " " + rest) == [t] + Tokens(rest)
  {
    var s := t + " " + rest;
    assert s == (t + " ") + rest;
    assert forall q :: 0 <= q < |t| ==> s[q] == t[q];
    SkipWordEnd(s, 0, |t|);
    TokensFromWord(s, 0);
    assert s[0..|t|] == t;
    TokensFromSpace(s, |t|);
    TokensFromShift(t + " ", rest, 0);
  }

  /** A word that ends the line is its last token. */
  lemma LastWord(t: string)
    requires IsWord(t)
    ensures Tokens(t) == [t]
  {
    SkipWordEnd(t, 0, |t|);
    TokensFromWord(t, 0);
    assert t[0..|t|] == t;
    TokensFromEnd(t);
  }

  lemma {:induction false} SkipWordEnd(s: string, i: nat, j: nat)
    requires i <= j <= |s|
    requires forall q :: i <= q < j ==> !IsSpace(s[q])
    requires j < |s| ==> IsSpace(s[j])
    ensures SkipWord(s, i) == j
    decreases j - i
  {
    if i < j {
      SkipWordEnd(s, i + 1, j);
    }
  }

  /** Words joined by single spaces. */
  function Unwords(ts: seq<string>): string
    decreases |ts|
  {
    if |ts| == 0 then []
    else if |ts| == 1 then ts[0]
    else ts[0] + " " + Unwords(ts[1..])
  }

  /** Splitting words joined by spaces gives the words back. */
  lemma {:induction false} TokensUnwords(ts: seq<string>)
    requires forall k :: 0 <= k < |ts| ==> IsWord(ts[k])
    ensures Tokens(Unwords(ts)) == ts
    decreases |ts|
  {
    if |ts| == 1 {
      LastWord(ts[0]);
    } else if |ts| > 1 {
      FirstWord(ts[0], Unwords(ts[1..]));
      TokensUnwords(ts[1..]);
    }
  }

  // ---------------------------------------------------------------------------
  // Lines of the source text

  /** The index of the first '\n' at or after i (or |t|). */
  function LineEnd(t: string, i: nat): (j: nat)
    requires i <= |t|
    ensures i <= j <= |t|
    ensures j < |t| ==> t[j] == '\n'
    decreases |t| - i
  {
    if i == |t| || t[i] == '\n' then i else LineEnd(t, i + 1)
  }

  lemma {:induction false} LineEndNoNewline(t: string, i: nat)
    requires i <= |t|
    ensures forall q :: i <= q < LineEnd(t, i) ==> t[q] != '\n'
    decreases |t| - i
  {
    if i < |t| && t[i] != '\n' {
      LineEndNoNewline(t, i + 1);
    }
  }

  /** Where getline goes on after a line ending at j: past the '\n', or at the end of the text. */
  function Resume(t: string, j: nat): (k: nat)
    requires j <= |t|
    ensures k <= |t|
    ensures j < |t| ==> k == j + 1
  {
    if j == |t| then j else j + 1
  }

  /** The lines getline yields from t[i..]. */
  function GetLinesFrom(t: string, i: nat): seq<string>
    requires i <= |t|
    decreases |t| - i
  {
    if i == |t| then []
    else
      var j := LineEnd(t, i);
      [t[i..j]] + GetLinesFrom(t, Resume(t, j))
  }

  /** The first line of t[i..] and the lines after it. */
  lemma GetLinesFromFirst(t: string, i: nat)
    requires i < |t|
    ensures GetLinesFrom(t, i) == [t[i..LineEnd(t, i)]] + GetLinesFrom(t, Resume(t, LineEnd(t, i)))
  {
  }

  /**
   * The lines `std::getline(str, line, '\n')` yields until it fails: the text
   * cut at each '\n' (the '\n' itself dropped); text after the last '\n' is a
   * final line only when it is non-empty.
   */
  function GetLines(t: string): seq<string> {
    GetLinesFrom(t, 0)
  }

  /** The number of '\n' characters in t[i..]. */
  function NewlinesFrom(t: string, i: nat): nat
    requires i <= |t|
    decreases |t| - i
  {
    if i == |t| then 0 else (if t[i] == '\n' then 1 else 0) + NewlinesFrom(t, i + 1)
  }

  lemma {:induction false} NewlinesInLine(t: string, i: nat)
    requires i <= |t|
    ensures NewlinesFrom(t, i) == NewlinesFrom(t, LineEnd(t, i))
    decreases |t| - i
  {
    if i < |t| && t[i] != '\n' {
      NewlinesInLine(t, i + 1);
    }
  }

  /**
   * getline yields one line per '\n', plus one more when the text is not empty
   * and does not end with '\n'.
   */
  lemma {:induction false} GetLinesFromCount(t: string, i: nat)
    requires i <= |t|
    ensures |GetLinesFrom(t, i)| == NewlinesFrom(t, i) + (if i < |t| && t[|t| - 1] != '\n' then 1 else 0)
    decreases |t| - i
  {
    if i < |t| {
      var j := LineEnd(t, i);
      NewlinesInLine(t, i);
      LineEndNoNewline(t, i);
      if j < |t| {
        GetLinesFromCount(t, Resume(t, j));
      }
    }
  }

  lemma GetLinesCount(t: string)
    ensures |GetLines(t)| == NewlinesFrom(t, 0) + (if t != [] && t[|t| - 1] != '\n' then 1 else 0)
  {
    GetLinesFromCount(t, 0);
  }

  /** Every line is free of '\n'. */
  lemma {:induction false} GetLinesFromHaveNoNewline(t: string, i: nat)
    requires i <= |t|
    ensures forall k, q :: 0 <= k < |GetLinesFrom(t, i)| && 0 <= q < |GetLinesFrom(t, i)[k]| ==> GetLinesFrom(t, i)[k][q] != '\n'
    decreases |t| - i
  {
    if i < |t| {
      var j := LineEnd(t, i);
      LineEndNoNewline(t, i);
      if j < |t| {
        GetLinesFromHaveNoNewline(t, Resume(t, j));
      }
    }
  }

  /** Lines read from a suffix do not depend on what precedes it. */
  lemma {:induction false} GetLinesFromShift(p: string, q: string, i: nat)
    requires i <= |q|
    ensures GetLinesFrom(p + q, |p| + i) == GetLinesFrom(q, i)
    decreases |q| - i
  {
    if i < |q| {
      LineEndShift(p, q, i);
      var j := LineEnd(q, i);
      SliceShift(p, q, i, j);
      assert Resume(p + q, |p| + j) == |p| + Resume(q, j);
      GetLinesFromShift(p, q, Resume(q, j));
      GetLinesFromFirst(p + q, |p| + i);
      GetLinesFromFirst(q, i);
    }
  }

  lemma {:induction false} LineEndShift(p: string, q: string, i: nat)
    requires i <= |q|
    ensures LineEnd(p + q, |p| + i) == |p| + LineEnd(q, i)
    decreases |q| - i
  {
    if i < |q| {
      assert (p + q)[|p| + i] == q[i];
      LineEndShift(p, q, i + 1);
    }
  }

  lemma SliceShift(p: string, q: string, i: nat, j: nat)
    requires i <= j <= |q|
    ensures (p + q)[|p| + i..|p| + j] == q[i..j]
  {
  }

  lemma {:induction false} LineEndAt(t: string, i: nat, j: nat)
    requires i <= j < |t| && t[j] == '\n'
    requires forall q :: i <= q < j ==> t[q] != '\n'
    ensures LineEnd(t, i) == j
    decreases j - i
  {
    if i < j {
      LineEndAt(t, i + 1, j);
    }
  }

  lemma {:induction false} LineEndNone(t: string, i: nat)
    requires i <= |t|
    requires forall q :: i <= q < |t| ==> t[q] != '\n'
    ensures LineEnd(t, i) == |t|
    decreases |t| - i
  {
    if i < |t| {
      LineEndNone(t, i + 1);
    }
  }

  /** A non-empty text without '\n' is one line. */
  lemma OneLine(t: string)
    requires t != [] && forall q :: 0 <= q < |t| ==> t[q] != '\n'
    ensures GetLines(t) == [t]
  {
    LineEndNone(t, 0);
    assert t[0..|t|] == t;
    assert GetLinesFrom(t, |t|) == [];
  }

  /** Each line followed by a '\n'. */
  function Terminated(ls: seq<string>): string
    decreases |ls|
  {
    if ls == [] then [] else ls[0] + "\n" + Terminated(ls[1..])
  }

  /** A line and its '\n' in front of a text come back as the first line. */
  lemma GetLinesLeadingLine(l: string, rest: string)
    requires forall q :: 0 <= q < |l| ==> l[q] != '\n'
    ensures GetLines((l + "\n") + rest) == [l] + GetLines(rest)
  {
    var t := (l + "\n") + rest;
    assert forall q :: 0 <= q < |l| ==> t[q] == l[q];
    LineEndAt(t, 0, |l|);
    assert t[0..|l|] == l;
    GetLinesFromShift(l + "\n", rest, 0);
  }

  /** Newline-terminated lines in front of a text come back first, one by one (empty lines included). */
  lemma {:induction false} GetLinesTerminated(ls: seq<string>, tail: string)
    requires forall k, q :: 0 <= k < |ls| && 0 <= q < |ls[k]| ==> ls[k][q] != '\n'
    ensures GetLines(Terminated(ls) + tail) == ls + GetLines(tail)
    decreases |ls|
  {
    if ls != [] {
      var rest := Terminated(ls[1..]) + tail;
      assert Terminated(ls) + tail == (ls[0] + "\n") + rest;
      GetLinesLeadingLine(ls[0], rest);
      GetLinesTerminated(ls[1..], tail);
      assert ls == [ls[0]] + ls[1..];
      assert [ls[0]] + (ls[1..] + GetLines(tail)) == ls + GetLines(tail);
    } else {
      assert Terminated(ls) + tail == tail;
    }
  }
  // ---------------------------------------------------------------------------
  // Numerals, as std::stoul reads them

  /** Value of a digit character in base 16 (both cases); 16 for anything else. */
  function DigitValue(c: char): nat {
    if '0' <= c <= '9' then c as nat - '0' as nat
    else if 'a' <= c <= 'f' then 10 + (c as nat - 'a' as nat)
    else if 'A' <= c <= 'F' then 10 + (c as nat - 'A' as nat)
    else 16
  }

  predicate IsBase(base: nat) {
    base == 10 || base == 16
  }

  predicate IsDigitIn(c: char, base: nat) {
    DigitValue(c) < base
  }

  /** Length of the leading run of digits of the base. */
  function DigitRun(s: string, base: nat): (n: nat)
    ensures n <= |s|
    ensures forall i :: 0 <= i < n ==> IsDigitIn(s[i], base)
    ensures n < |s| ==> !IsDigitIn(s[n], base)
  {
    if s == [] || !IsDigitIn(s[0], base) then 0 else 1 + DigitRun(s[1..], base)
  }

  lemma {:induction false} DigitRunIs(s: string, base: nat, n: nat)
    requires n <= |s|
    requires forall i :: 0 <= i < n ==> IsDigitIn(s[i], base)
    requires n < |s| ==> !IsDigitIn(s[n], base)
    ensures DigitRun(s, base) == n
    decreases n
  {
    if 0 < n {
      DigitRunIs(s[1..], base, n - 1);
    }
  }

  /** The value of a string of digits, most significant first. */
  function ValueOf(ds: string, base: nat): nat
    decreases |ds|
  {
    if ds == [] then 0
    else ValueOf(ds[..|ds| - 1], base) * base + DigitValue(ds[|ds| - 1])
  }

  /**
   * The number std::stoul(s, nullptr, base) reads: the longest leading run of
   * digits of the base; None (std::invalid_argument) when there is none.
   */
  function ParseUnsigned(s: string, base: nat): (r: Option<nat>)
    requires IsBase(base)
    ensures r.None? <==> (s == [] || !IsDigitIn(s[0], base))
  {
    var n := DigitRun(s, base);
    if n == 0 then None else Some(ValueOf(s[..n], base))
  }

  /** The upper-case digit for a value below 16. */
  function DigitChar(d: nat): char
    requires d < 16
  {
    "0123456789ABCDEF"[d]
  }

  lemma DigitCharValue(d: nat)
    requires d < 16
    ensures DigitValue(DigitChar(d)) == d
  {
  }

  /** The numeral of n in the base, without leading zeros. */
  function Numeral(n: nat, base: nat): (s: string)
    requires IsBase(base)
    ensures |s| > 0
    ensures forall i :: 0 <= i < |s| ==> IsDigitIn(s[i], base)
  {
    if n < base then [DigitChar(n)] else Numeral(n / base, base) + [DigitChar(n % base)]
  }

  lemma {:induction false} ValueOfNumeral(n: nat, base: nat)
    requires IsBase(base)
    ensures ValueOf(Numeral(n, base), base) == n
  {
    var s := Numeral(n, base);
    if n < base {
      DigitCharValue(n);
      assert s[..0] == [];
    } else {
      ValueOfNumeral(n / base, base);
      DigitCharValue(n % base);
      assert s[..|s| - 1] == Numeral(n / base, base);
      assert s[|s| - 1] == DigitChar(n % base);
      assert ValueOf(s, base) == (n / base) * base + n % base;
    }
  }

  /** std::stoul reads back the numeral of n, whatever non-digit follows it. */
  lemma NumeralRoundTrip(n: nat, base: nat, rest: string)
    requires IsBase(base)
    requires rest == [] || !IsDigitIn(rest[0], base)
    ensures ParseUnsigned(Numeral(n, base) + rest, base) == Some(n)
  {
    var ds := Numeral(n, base);
    var s := ds + rest;
    DigitRunIs(s, base, |ds|);
    assert s[..|ds|] == ds;
    ValueOfNumeral(n, base);
  }
}
