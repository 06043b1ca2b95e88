/** Text helpers that reproduce the few Python string operations the Molden
    codecs rely on: `str.split('\n')`, `'\n'.join`, `str.strip()`,
    `str.split()`, `str(i)`, `int(s)` and the line pieces `readline()`
    hands out. Each comes with the round trip or characterisation that the
    codecs' proofs use. */
module Text {

  datatype Option<+T> = None | Some(value: T)

  datatype Result<+T, +E> = Ok(value: T) | Err(error: E)

  /** Python's `str.isspace` for one character. */
  predicate IsSpace(c: char) {
    if c <= ' ' then '\t' <= c <= '\r' || '\U{1C}' <= c
    else if c < '\U{85}' then false
    else c == '\U{85}' || c == '\U{A0}' || c == '\U{1680}' || ('\U{2000}' <= c <= '\U{200A}')
         || c == '\U{2028}' || c == '\U{2029}' || c == '\U{202F}' || c == '\U{205F}' || c == '\U{3000}'
  }

  predicate IsDigit(c: char) {
    '0' <= c <= '9'
  }

  predicate AllDigits(s: string) {
    forall i :: 0 <= i < |s| ==> IsDigit(s[i])
  }

  // ---------------------------------------------------------------------
  // strip()

  /** Python's `s.strip()`: white space removed from both ends. */
  function Strip(s: string): string
    decreases |s|
  {
    if |s| > 0 && IsSpace(s[0]) then Strip(s[1..])
    else if |s| > 0 && IsSpace(s[|s| - 1]) then Strip(s[..|s| - 1])
    else s
  }

  /** How many characters `strip` takes off the front. */
  function StripOffset(s: string): nat
    decreases |s|
  {
    if |s| > 0 && IsSpace(s[0]) then 1 + StripOffset(s[1..])
    else if |s| > 0 && IsSpace(s[|s| - 1]) then StripOffset(s[..|s| - 1])
    else 0
  }

  /** `strip` keeps a contiguous middle part that neither starts nor ends
      in white space, and every character it removes is white space. */
  predicate StripShape(s: string) {
    var r := Strip(s);
    var o := StripOffset(s);
    && o + |r| <= |s|
    && r == s[o..o + |r|]
    && (r == [] || (!IsSpace(r[0]) && !IsSpace(r[|r| - 1])))
    && (forall i :: 0 <= i < o ==> IsSpace(s[i]))
    && (forall i :: o + |r| <= i < |s| ==> IsSpace(s[i]))
  }

  lemma {:induction false} StripRemovesSpace(s: string)
    ensures StripShape(s)
    decreases |s|
  {
    if |s| > 0 && IsSpace(s[0]) {
      StripRemovesSpace(s[1..]);
      StripFront(s);
    } else if |s| > 0 && IsSpace(s[|s| - 1]) {
      StripRemovesSpace(s[..|s| - 1]);
      StripBack(s);
    }
  }

  /** StripShape survives a leading space. */
  lemma StripFront(s: string)
    requires |s| > 0 && IsSpace(s[0]) && StripShape(s[1..])
    ensures StripShape(s)
  {
    var t := s[1..];
    var o := StripOffset(t);
    var r := Strip(t);
    assert r == t[o..o + |r|] == s[o + 1..o + 1 + |r|];
    forall i | 0 <= i < o + 1 ensures IsSpace(s[i]) {
      if i > 0 {
        assert s[i] == t[i - 1];
      }
    }
    forall i | o + 1 + |r| <= i < |s| ensures IsSpace(s[i]) {
      assert s[i] == t[i - 1];
    }
  }

  /** StripShape survives a trailing space. */
  lemma StripBack(s: string)
    requires |s| > 0 && !IsSpace(s[0]) && IsSpace(s[|s| - 1]) && StripShape(s[..|s| - 1])
    ensures StripShape(s)
  {
    var t := s[..|s| - 1];
    var o := StripOffset(t);
    var r := Strip(t);
    assert r == t[o..o + |r|] == s[o..o + |r|];
    forall i | o + |r| <= i < |s| ensures IsSpace(s[i]) {
      if i < |s| - 1 {
        assert s[i] == t[i];
      }
    }
  }

  /** A string that does not start or end in white space is its own strip. */
  lemma StripIdentity(s: string)
    requires s == [] || (!IsSpace(s[0]) && !IsSpace(s[|s| - 1]))
    ensures Strip(s) == s
  {
  }

  /** strip is idempotent. */
  lemma StripTwice(s: string)
    ensures Strip(Strip(s)) == Strip(s)
  {
    StripRemovesSpace(s);
    StripIdentity(Strip(s));
  }

  // ---------------------------------------------------------------------
  // split(sep) and sep.join(parts)

  /** Python's `s.split(sep)` for a one-character separator: always at least
      one piece (SplitPiecesFree: no piece contains the separator). */
  function Split(s: string, sep: char): (parts: seq<string>)
    ensures |parts| >= 1
    decreases |s|
  {
    if |s| == 0 then [""]
    else if s[0] == sep then [""] + Split(s[1..], sep)
    else
      var rest := Split(s[1..], sep);
      [[s[0]] + rest[0]] + rest[1..]
  }

  /** No piece of `s.split(sep)` contains the separator. */
  lemma {:induction false} SplitPiecesFree(s: string, sep: char)
    ensures forall i :: 0 <= i < |Split(s, sep)| ==> sep !in Split(s, sep)[i]
    decreases |s|
  {
    if |s| > 0 {
      SplitPiecesFree(s[1..], sep);
      var rest := Split(s[1..], sep);
      if s[0] != sep {
        assert Split(s, sep)[0] == [s[0]] + rest[0];
        forall i | 1 <= i < |Split(s, sep)| ensures Split(s, sep)[i] == rest[i] { }
      } else {
        forall i | 1 <= i < |Split(s, sep)| ensures Split(s, sep)[i] == rest[i - 1] { }
      }
    }
  }

  /** Python's `sep.join(parts)`. */
  function Join(parts: seq<string>, sep: string): string
    decreases |parts|
  {
    if |parts| == 0 then ""
    else if |parts| == 1 then parts[0]
    else parts[0] + sep + Join(parts[1..], sep)
  }

  /** A string free of the separator is a single piece. */
  lemma {:induction false} SplitNoSeparator(s: string, sep: char)
    requires sep !in s
    ensures Split(s, sep) == [s]
    decreases |s|
  {
    if |s| > 0 {
      assert s[0] != sep;
      assert sep !in s[1..];
      SplitNoSeparator(s[1..], sep);
      assert [s[0]] + s[1..] == s;
    }
  }

  /** Splitting distributes over a separator occurrence. */
  lemma {:induction false} SplitAppend(a: string, sep: char, b: string)
    ensures Split(a + [sep] + b, sep) == Split(a, sep) + Split(b, sep)
    decreases |a|
  {
    if |a| == 0 {
      assert a + [sep] + b == [sep] + b;
      assert ([sep] + b)[1..] == b;
    } else {
      var t := a[1..] + [sep] + b;
      assert a + [sep] + b == [a[0]] + t;
      assert ([a[0]] + t)[0] == a[0] && ([a[0]] + t)[1..] == t;
      SplitAppend(a[1..], sep, b);
    }
  }

  /** A separator-free first line splits off as the first piece. */
  lemma SplitFirstLine(line: string, sep: char, tail: string)
    requires sep !in line
    ensures Split(line + [sep] + tail, sep) == [line] + Split(tail, sep)
  {
    SplitAppend(line, sep, tail);
    SplitNoSeparator(line, sep);
  }

  /** `sep.join(s.split(sep)) == s`. */
  lemma {:induction false} JoinSplit(s: string, sep: char)
    ensures Join(Split(s, sep), [sep]) == s
    decreases |s|
  {
    if |s| > 0 {
      JoinSplit(s[1..], sep);
      var rest := Split(s[1..], sep);
      if s[0] == sep {
        assert Split(s, sep) == [""] + rest;
        assert ([""] + rest)[1..] == rest;
      } else {
        var parts := Split(s, sep);
        assert parts == [[s[0]] + rest[0]] + rest[1..];
        if |rest| == 1 {
          assert parts == [[s[0]] + rest[0]];
        } else {
          assert parts[1..] == rest[1..];
          assert Join(rest, [sep]) == rest[0] + [sep] + Join(rest[1..], [sep]);
        }
      }
    }
  }

  /** `sep.join(parts).split(sep) == parts` when no part holds the separator. */
  lemma {:induction false} SplitJoin(parts: seq<string>, sep: char)
    requires |parts| >= 1
    requires forall i :: 0 <= i < |parts| ==> sep !in parts[i]
    ensures Split(Join(parts, [sep]), sep) == parts
    decreases |parts|
  {
    if |parts| == 1 {
      SplitNoSeparator(parts[0], sep);
    } else {
      SplitJoin(parts[1..], sep);
      SplitAppend(parts[0], sep, Join(parts[1..], [sep]));
      SplitNoSeparator(parts[0], sep);
      assert [parts[0]] + parts[1..] == parts;
    }
  }

  /** Concatenation of a sequence of sequences, in order. */
  function Flatten<T>(xss: seq<seq<T>>): seq<T>
    decreases |xss|
  {
    if |xss| == 0 then [] else xss[0] + Flatten(xss[1..])
  }

  /** The lines of texts joined by the separator are the texts' lines, in order. */
  lemma {:induction false} SplitOfJoin(texts: seq<string>, sep: char)
    requires |texts| >= 1
    ensures Split(Join(texts, [sep]), sep)
            == Flatten(seq(|texts|, i requires 0 <= i < |texts| => Split(texts[i], sep)))
    decreases |texts|
  {
    var pieces := seq(|texts|, i requires 0 <= i < |texts| => Split(texts[i], sep));
    if |texts| == 1 {
      assert Flatten(pieces) == pieces[0] + Flatten(pieces[1..]);
      assert pieces[1..] == [];
    } else {
      SplitOfJoin(texts[1..], sep);
      SplitAppend(texts[0], sep, Join(texts[1..], [sep]));
      var tail := seq(|texts[1..]|, i requires 0 <= i < |texts[1..]| => Split(texts[1..][i], sep));
      assert pieces[1..] == tail;
    }
  }

  // ---------------------------------------------------------------------
  // str.split() with no argument

  function WordLength(t: string): (n: nat)
    requires t != [] && !IsSpace(t[0])
    ensures 1 <= n <= |t|
    ensures forall i :: 0 <= i < n ==> !IsSpace(t[i])
    ensures n < |t| ==> IsSpace(t[n])
  {
    if |t| == 1 || IsSpace(t[1]) then 1 else 1 + WordLength(t[1..])
  }

  predicate IsWord(w: string) {
    w != [] && forall j :: 0 <= j < |w| ==> !IsSpace(w[j])
  }

  /** Python's `s.split()`: s cut at its runs of white space. No piece is
      empty or holds white space, and together, in order, the pieces are s
      with its white space removed (WordsFlatten); a run without white space
      stays one piece (WordsOfWord) and every white-space character cuts
      (WordsAtSpace). */
  function Words(s: string): (ws: seq<string>)
    ensures forall i :: 0 <= i < |ws| ==> IsWord(ws[i])
    decreases |s|
  {
    if s == [] then []
    else if IsSpace(s[0]) then Words(s[1..])
    else
      var n := WordLength(s);
      var w := s[..n];
      assert IsWord(w);
      [w] + Words(s[n..])
  }

  /** s with every white-space character removed. */
  function RemoveSpace(s: string): string
    decreases |s|
  {
    if s == [] then [] else (if IsSpace(s[0]) then [] else [s[0]]) + RemoveSpace(s[1..])
  }

  lemma {:induction false} RemoveSpaceAppend(a: string, b: string)
    ensures RemoveSpace(a + b) == RemoveSpace(a) + RemoveSpace(b)
    decreases |a|
  {
    if a == [] {
      assert a + b == b;
    } else {
      assert (a + b)[0] == a[0] && (a + b)[1..] == a[1..] + b;
      RemoveSpaceAppend(a[1..], b);
    }
  }

  lemma {:induction false} RemoveSpaceOfWord(w: string)
    requires forall j :: 0 <= j < |w| ==> !IsSpace(w[j])
    ensures RemoveSpace(w) == w
    decreases |w|
  {
    if w != [] {
      RemoveSpaceOfWord(w[1..]);
      assert [w[0]] + w[1..] == w;
    }
  }

  /** The words of s, laid end to end, are s without its white space:
      `split()` drops only white space and keeps every other character in
      order. */
  lemma {:induction false} WordsFlatten(s: string)
    ensures Flatten(Words(s)) == RemoveSpace(s)
    decreases |s|
  {
    if s != [] {
      if IsSpace(s[0]) {
        WordsFlatten(s[1..]);
      } else {
        var n := WordLength(s);
        var rest := Words(s[n..]);
        WordsFlatten(s[n..]);
        assert s == s[..n] + s[n..];
        RemoveSpaceAppend(s[..n], s[n..]);
        RemoveSpaceOfWord(s[..n]);
        assert Words(s) == [s[..n]] + rest;
        assert ([s[..n]] + rest)[1..] == rest;
      }
    }
  }

  /** A word ends at the first white space after it, or at the end of t. */
  lemma WordLengthAt(t: string, m: nat)
    requires t != [] && !IsSpace(t[0]) && 1 <= m <= |t|
    requires forall i :: 0 <= i < m ==> !IsSpace(t[i])
    requires m < |t| ==> IsSpace(t[m])
    ensures WordLength(t) == m
  {
  }

  /** Text without white space is one word: `s.split()` does not cut it. */
  lemma WordsOfWord(w: string)
    requires IsWord(w)
    ensures Words(w) == [w]
  {
    WordLengthAt(w, |w|);
    assert w[..|w|] == w && w[|w|..] == [];
  }

  /** A white-space character always separates words: `s.split()` cuts at
      every one, so its pieces are the maximal runs of other characters. */
  lemma {:induction false} WordsAtSpace(a: string, c: char, b: string)
    requires IsSpace(c)
    ensures Words(a + [c] + b) == Words(a) + Words(b)
    decreases |a|
  {
    var t := a + [c] + b;
    if a == [] {
      assert t[0] == c && t[1..] == b;
    } else if IsSpace(a[0]) {
      assert t[0] == a[0] && t[1..] == a[1..] + [c] + b;
      WordsAtSpace(a[1..], c, b);
    } else {
      var m := WordLength(a);
      assert t[0] == a[0];
      assert forall i :: 0 <= i < m ==> t[i] == a[i];
      assert m < |t| && (m < |a| ==> t[m] == a[m]) && (m == |a| ==> t[m] == c);
      WordLengthAt(t, m);
      assert t[..m] == a[..m];
      assert t[m..] == a[m..] + [c] + b;
      WordsAtSpace(a[m..], c, b);
    }
  }

  // ---------------------------------------------------------------------
  // str(i) and int(s)

  function DigitChar(d: nat): (c: char)
    requires d < 10
    ensures IsDigit(c) && c as int - '0' as int == d
  {
    (('0' as int) + d) as char
  }

  function DigitValue(c: char): nat
    requires IsDigit(c)
  {
    c as int - '0' as int
  }

  /** Python's `str(n)` for a natural number: decimal, no leading zero. */
  function NatToString(n: nat): (s: string)
    ensures |s| >= 1 && AllDigits(s)
  {
    if n < 10 then [DigitChar(n)] else NatToString(n / 10) + [DigitChar(n % 10)]
  }

  /** Python's `str(i)`. */
  function IntToString(i: int): (s: string)
    ensures |s| >= 1
  {
    if i < 0 then "-" + NatToString(-i) else NatToString(i)
  }

  /** The value of a non-empty string of decimal digits, None for anything
      else. */
  function ParseDigits(s: string): (r: Option<nat>)
    ensures r.Some? ==> |s| > 0
    decreases |s|
  {
    if |s| == 0 || !IsDigit(s[|s| - 1]) then None
    else if |s| == 1 then Some(DigitValue(s[0]))
    else match ParseDigits(s[..|s| - 1])
      case None => None
      case Some(v) => Some(v * 10 + DigitValue(s[|s| - 1]))
  }

  /** Python's `int(s)` on a string: surrounding white space, an optional
      sign, then one or more decimal digits; anything else is a ValueError
      (None here). */
  function ParseInt(s: string): (r: Option<int>)
  {
    var t := Strip(s);
    if |t| > 0 && (t[0] == '+' || t[0] == '-') then
      match ParseDigits(t[1..])
      case None => None
      case Some(v) => var w: int := v; Some(if t[0] == '-' then -w else w)
    else
      match ParseDigits(t)
      case None => None
      case Some(v) => Some(v)
  }

  lemma {:induction false} DigitsOfNat(n: nat)
    ensures ParseDigits(NatToString(n)) == Some(n)
  {
    var s := NatToString(n);
    if n >= 10 {
      DigitsOfNat(n / 10);
      assert s[..|s| - 1] == NatToString(n / 10);
    }
  }

  /** `str(n)` has no surrounding white space for `strip` to remove. */
  lemma NatToStringStripped(n: nat)
    ensures Strip(NatToString(n)) == NatToString(n)
  {
    var s := NatToString(n);
    assert !IsSpace(s[0]) && !IsSpace(s[|s| - 1]);
    StripIdentity(s);
  }

  lemma ParseIntOfNatToString(n: nat)
    ensures ParseInt(NatToString(n)) == Some(n)
  {
    NatToStringStripped(n);
    DigitsOfNat(n);
  }

  lemma ParseIntOfNegative(n: nat)
    requires n > 0
    ensures ParseInt("-" + NatToString(n)) == Some(-(n as int))
  {
    var d := NatToString(n);
    var s := "-" + d;
    assert s[|s| - 1] == d[|d| - 1];
    StripIdentity(s);
    assert s[1..] == d;
    DigitsOfNat(n);
  }

  /** `int(str(i)) == i`. */
  lemma ParseIntOfIntToString(i: int)
    ensures ParseInt(IntToString(i)) == Some(i)
  {
    var s := IntToString(i);
    if i < 0 {
      var n: nat := -i;
      assert s == "-" + NatToString(n);
      ParseIntOfNegative(n);
    } else {
      var n: nat := i;
      assert s == NatToString(n);
      ParseIntOfNatToString(n);
    }
  }

  /** Distinct integers print differently. */
  lemma IntToStringInjective(i: int, j: int)
    requires IntToString(i) == IntToString(j)
    ensures i == j
  {
    ParseIntOfIntToString(i);
    ParseIntOfIntToString(j);
  }

  // ---------------------------------------------------------------------
  // readline()

  /** Length of the first line of `s` as `readline()` returns it: up to and
      including the first newline, or all of `s` when it has none. */
  function LineEnd(s: string): (n: nat)
    requires s != []
    ensures 1 <= n <= |s|
    ensures forall i :: 0 <= i < n - 1 ==> s[i] != '\n'
    ensures n < |s| ==> s[n - 1] == '\n'
  {
    if s[0] == '\n' || |s| == 1 then 1 else 1 + LineEnd(s[1..])
  }

  /** The successive results of `readline()` on a file holding `s`, up to
      (not including) the empty string it returns at end of file. */
  function ReadLines(s: string): (lines: seq<string>)
    ensures forall i :: 0 <= i < |lines| ==> lines[i] != []
    decreases |s|
  {
    if s == [] then [] else
      var n := LineEnd(s);
      [s[..n]] + ReadLines(s[n..])
  }

  /** Reading a file line by line loses nothing: the pieces concatenate back
      to the file's content. */
  lemma {:induction false} ReadLinesFlatten(s: string)
    ensures Flatten(ReadLines(s)) == s
    decreases |s|
  {
    if s != [] {
      var n := LineEnd(s);
      var rest := ReadLines(s[n..]);
      ReadLinesFlatten(s[n..]);
      calc {
        Flatten(ReadLines(s));
        Flatten([s[..n]] + rest);
        { assert ([s[..n]] + rest)[1..] == rest; }
        s[..n] + Flatten(rest);
        { assert s == s[..n] + s[n..]; }
        s;
      }
    }
  }
}
