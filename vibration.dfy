/** The Molden frequency-file reader of chemcoord's vibration.py:
    `CartesianVibration._partition_molden`, `_get_molecule`, `read_molden`
    with its local `get_chunks`, and `ZmatVibration.from_cart_vib`.

    A file is modelled as its text; `readline()` yields the pieces of
    `ReadLines(text)`, each with its newline. Float parsing (`float`,
    pandas' `dtype='f8'`), pandas' `read_csv` of the reference geometry,
    the Cartesian and Z-matrix arithmetic and `get_zmat` are parameters.
    The sympy amplitude symbol is kept as its name. */
module Vibration {
  import opened Text
  import opened XyzFunctions

  // ---------------------------------------------------------------------
  // Section keys: re.compile('\[(.*)\]').search

  /** The part of t before its first newline: the stretch over which the
      regular expression `.` can match. */
  function UpToNewline(t: string): (u: string)
    ensures |u| <= |t| && u == t[..|u|] && '\n' !in u
    ensures |u| < |t| ==> t[|u|] == '\n'
    decreases |t|
  {
    if t == [] || t[0] == '\n' then [] else [t[0]] + UpToNewline(t[1..])
  }

  /** The position of the last c in u. */
  function LastIndexOf(u: string, c: char): (r: nat)
    requires c in u
    ensures r < |u| && u[r] == c && c !in u[r + 1..]
    decreases |u|
  {
    if u[|u| - 1] == c then |u| - 1
    else
      assert c in u[..|u| - 1] by {
        var j :| 0 <= j < |u| && u[j] == c;
        assert u[..|u| - 1][j] == c;
      }
      LastIndexOf(u[..|u| - 1], c)
  }

  /** The group of the first match of `\[(.*)\]` in line, if any: the
      match starts at the first '[' that has a ']' after it on the same
      line, and the greedy `.*` runs to the last such ']'. */
  function SectionKey(line: string): Option<string>
    decreases |line|
  {
    if line == [] then None
    else if line[0] == '[' && ']' in UpToNewline(line[1..]) then
      var u := UpToNewline(line[1..]);
      Some(u[..LastIndexOf(u, ']')])
    else SectionKey(line[1..])
  }

  lemma {:induction false} UpToNewlineAppend(a: string, b: string)
    requires '\n' !in a
    ensures UpToNewline(a + b) == a + UpToNewline(b)
    decreases |a|
  {
    if a != [] {
      assert (a + b)[0] == a[0] && (a + b)[1..] == a[1..] + b;
      assert '\n' !in a[1..];
      UpToNewlineAppend(a[1..], b);
    } else {
      assert a + b == b;
    }
  }

  /** Text before the first '[' plays no part in the match. */
  lemma {:induction false} SkipNoBracket(pre: string, s: string)
    requires '[' !in pre
    ensures SectionKey(pre + s) == SectionKey(s)
    decreases |pre|
  {
    if pre == [] {
      assert pre + s == s;
    } else {
      var line := pre + s;
      assert line[0] == pre[0] && line[1..] == pre[1..] + s;
      assert '[' !in pre[1..];
      SkipNoBracket(pre[1..], s);
    }
  }

  lemma TagKeyAtStart(t: string, rest: string)
    requires '\n' !in t && ']' !in UpToNewline(rest)
    ensures SectionKey("[" + t + "]" + rest) == Some(t)
  {
    var line := "[" + t + "]" + rest;
    assert line[1..] == t + ("]" + rest);
    UpToNewlineAppend(t, "]" + rest);
    UpToNewlineAppend("]", rest);
    var u := UpToNewline(line[1..]);
    assert u == t + "]" + UpToNewline(rest);
    assert u[|t|] == ']';
    var r := LastIndexOf(u, ']');
    assert u[..r] == t;
  }

  /** A tag line `pre[t]rest` has key t: the match starts at the first
      '[', provided t does not break the line and the rest of the line
      holds no further ']'. */
  lemma TagKey(pre: string, t: string, rest: string)
    requires '[' !in pre && '\n' !in t && ']' !in UpToNewline(rest)
    ensures SectionKey(pre + "[" + t + "]" + rest) == Some(t)
  {
    assert pre + "[" + t + "]" + rest == pre + ("[" + t + "]" + rest);
    SkipNoBracket(pre, "[" + t + "]" + rest);
    TagKeyAtStart(t, rest);
  }

  /** A line opens a section exactly when some '[' in it has a ']' after
      it on the same line. */
  lemma {:induction false} KeyIffBracketPair(line: string)
    ensures SectionKey(line).Some?
            <==> exists i :: 0 <= i < |line| && line[i] == '[' && ']' in UpToNewline(line[i + 1..])
    decreases |line|
  {
    if line == [] {
    } else if line[0] == '[' && ']' in UpToNewline(line[1..]) {
      assert line[0 + 1..] == line[1..];
    } else {
      var tail := line[1..];
      KeyIffBracketPair(tail);
      if exists i :: 0 <= i < |line| && line[i] == '[' && ']' in UpToNewline(line[i + 1..]) {
        var i :| 0 <= i < |line| && line[i] == '[' && ']' in UpToNewline(line[i + 1..]);
        assert i != 0;
        assert tail[i - 1] == line[i] && tail[i - 1 + 1..] == line[i + 1..];
      }
      if exists j :: 0 <= j < |tail| && tail[j] == '[' && ']' in UpToNewline(tail[j + 1..]) {
        var j :| 0 <= j < |tail| && tail[j] == '[' && ']' in UpToNewline(tail[j + 1..]);
        assert line[j + 1] == tail[j] && line[j + 1 + 1..] == tail[j + 1..];
      }
    }
  }

  /** A line without '[' opens no section. */
  lemma {:induction false} NoBracketNoKey(line: string)
    requires '[' !in line
    ensures SectionKey(line) == None
    decreases |line|
  {
    if line != [] {
      assert '[' !in line[1..];
      NoBracketNoKey(line[1..]);
    }
  }

  // ---------------------------------------------------------------------
  // _partition_molden

  /** The tags whose section bodies are kept. */
  const Relevant: set<string> :=
    {"MOLDEN FORMAT", "Atoms", "N_GEO", "GEOCONV", "GEOMETRIES",
     "FREQ", "FR-COORD", "FR-NORM-COORD", "INT"}

  /** The partitioner's state: the section being read (None before the
      first tag line) and the sections collected so far. */
  datatype Partitioner = Partitioner(current: Option<string>, sections: map<string, string>)
  {
    predicate Valid() {
      current.Some? ==> current.value in sections
    }
  }

  const Start := Partitioner(None, map[])

  /** One iteration of the `while line` loop. */
  function Step(p: Partitioner, line: string): (q: Partitioner)
    requires p.Valid()
    ensures q.Valid()
  {
    match SectionKey(line)
    case Some(k) => Partitioner(Some(k), p.sections[k := ""])
    case None =>
      if p.current.Some? && p.current.value in Relevant then
        Partitioner(p.current, p.sections[p.current.value := p.sections[p.current.value] + line])
      else p
  }

  /** The loop over the remaining lines. */
  function Run(p: Partitioner, lines: seq<string>): (q: Partitioner)
    requires p.Valid()
    ensures q.Valid()
    decreases |lines|
  {
    if lines == [] then p else Run(Step(p, lines[0]), lines[1..])
  }

  /** The dictionary `_partition_molden` returns for a file of these lines. */
  function Sections(lines: seq<string>): map<string, string> {
    Run(Start, lines).sections
  }

  /** What `readline()` returns on a file whose unread part is rest. */
  function NextLine(rest: string): string {
    if rest == [] then "" else rest[..LineEnd(rest)]
  }

  /** `_partition_molden` on a file holding content. */
  method PartitionMolden(content: string) returns (sections: map<string, string>)
    ensures sections == Sections(ReadLines(content))
  {
    var rest := content;
    var line := NextLine(rest);
    var current: Option<string> := None;
    sections := map[];
    while line != ""
      invariant line == NextLine(rest)
      invariant Partitioner(current, sections).Valid()
      invariant Run(Partitioner(current, sections), ReadLines(rest)) == Run(Start, ReadLines(content))
      decreases |rest|
    {
      assert ReadLines(rest) == [line] + ReadLines(rest[|line|..]);
      var key := SectionKey(line);
      if key.Some? {
        current := key;
        sections := sections[key.value := ""];
      } else if current.Some? && current.value in Relevant {
        sections := sections[current.value := sections[current.value] + line];
      }
      rest := rest[|line|..];
      line := NextLine(rest);
    }
  }

  // ---------------------------------------------------------------------
  // What the partition holds

  lemma {:induction false} RunAppend(p: Partitioner, a: seq<string>, b: seq<string>)
    requires p.Valid()
    ensures Run(p, a + b) == Run(Run(p, a), b)
    decreases |a|
  {
    if a == [] {
      assert a + b == b;
    } else {
      assert (a + b)[0] == a[0] && (a + b)[1..] == a[1..] + b;
      RunAppend(Step(p, a[0]), a[1..], b);
    }
  }

  /** The keys are exactly the sections opened on the way. */
  lemma {:induction false} KeysOfRun(p: Partitioner, lines: seq<string>, k: string)
    requires p.Valid()
    ensures k in Run(p, lines).sections
            <==> k in p.sections || exists j :: 0 <= j < |lines| && SectionKey(lines[j]) == Some(k)
    decreases |lines|
  {
    if lines != [] {
      KeysOfRun(Step(p, lines[0]), lines[1..], k);
      if exists j :: 0 <= j < |lines[1..]| && SectionKey(lines[1..][j]) == Some(k) {
        var j :| 0 <= j < |lines[1..]| && SectionKey(lines[1..][j]) == Some(k);
        assert SectionKey(lines[j + 1]) == Some(k);
      }
      if exists j :: 0 <= j < |lines| && SectionKey(lines[j]) == Some(k) {
        var j :| 0 <= j < |lines| && SectionKey(lines[j]) == Some(k);
        if j > 0 {
          assert SectionKey(lines[1..][j - 1]) == Some(k);
        }
      }
    }
  }

  /** Every line holding a `[...]` tag creates or resets a key, and no
      other key appears. */
  lemma SectionKeys(lines: seq<string>, k: string)
    ensures k in Sections(lines) <==> exists j :: 0 <= j < |lines| && SectionKey(lines[j]) == Some(k)
  {
    KeysOfRun(Start, lines, k);
  }

  predicate IgnoredEmpty(p: Partitioner) {
    forall k :: k in p.sections && k !in Relevant ==> p.sections[k] == ""
  }

  lemma {:induction false} RunKeepsIgnoredEmpty(p: Partitioner, lines: seq<string>)
    requires p.Valid() && IgnoredEmpty(p)
    ensures IgnoredEmpty(Run(p, lines))
    decreases |lines|
  {
    if lines != [] {
      RunKeepsIgnoredEmpty(Step(p, lines[0]), lines[1..]);
    }
  }

  /** A section whose tag is not recognised is always empty. */
  lemma UnrecognisedSectionIsEmpty(lines: seq<string>, k: string)
    requires k in Sections(lines) && k !in Relevant
    ensures Sections(lines)[k] == ""
  {
    RunKeepsIgnoredEmpty(Start, lines);
  }

  predicate NoTag(lines: seq<string>) {
    forall j :: 0 <= j < |lines| ==> SectionKey(lines[j]).None?
  }

  /** Inside section k, the lines up to the next tag are appended to it,
      if k is recognised. */
  lemma {:induction false} InSection(p: Partitioner, lines: seq<string>, k: string)
    requires p.Valid() && p.current == Some(k) && NoTag(lines)
    ensures Run(p, lines)
            == Partitioner(Some(k), if k in Relevant then p.sections[k := p.sections[k] + Flatten(lines)]
                                    else p.sections)
    decreases |lines|
  {
    if lines == [] {
      assert p.sections[k] + "" == p.sections[k];
      assert p.sections[k := p.sections[k]] == p.sections;
    } else {
      assert SectionKey(lines[0]).None?;
      var q := Step(p, lines[0]);
      assert NoTag(lines[1..]) by {
        forall j | 0 <= j < |lines[1..]| ensures SectionKey(lines[1..][j]).None? {
          assert lines[1..][j] == lines[j + 1];
        }
      }
      InSection(q, lines[1..], k);
      if k in Relevant {
        assert p.sections[k] + lines[0] + Flatten(lines[1..]) == p.sections[k] + Flatten(lines);
      }
    }
  }

  /** Outside section k, lines that do not reopen k leave it alone. */
  lemma {:induction false} OutsideSection(p: Partitioner, lines: seq<string>, k: string)
    requires p.Valid() && p.current != Some(k) && k in p.sections
    requires forall j :: 0 <= j < |lines| ==> SectionKey(lines[j]) != Some(k)
    ensures k in Run(p, lines).sections && Run(p, lines).sections[k] == p.sections[k]
    decreases |lines|
  {
    if lines != [] {
      assert SectionKey(lines[0]) != Some(k);
      forall j | 0 <= j < |lines[1..]| ensures SectionKey(lines[1..][j]) != Some(k) {
        assert lines[1..][j] == lines[j + 1];
      }
      OutsideSection(Step(p, lines[0]), lines[1..], k);
    }
  }

  /** The first tag line at or after position from, or the end. */
  function NextTag(lines: seq<string>, from: nat): (e: nat)
    requires from <= |lines|
    ensures from <= e <= |lines|
    decreases |lines| - from
  {
    if from == |lines| || SectionKey(lines[from]).Some? then from else NextTag(lines, from + 1)
  }

  lemma {:induction false} NextTagBounds(lines: seq<string>, from: nat)
    requires from <= |lines|
    ensures var e := NextTag(lines, from);
            && from <= e <= |lines| && NoTag(lines[from..e])
            && (e < |lines| ==> SectionKey(lines[e]).Some?)
    decreases |lines| - from
  {
    if from < |lines| && SectionKey(lines[from]).None? {
      NextTagBounds(lines, from + 1);
      var e := NextTag(lines, from);
      forall j | 0 <= j < e - from ensures SectionKey(lines[from..e][j]).None? {
        if j > 0 {
          assert lines[from..e][j] == lines[from + 1..e][j - 1];
        }
      }
    }
  }

  /** Right after the tag line of k, section k is open and empty. */
  lemma OpenSection(lines: seq<string>, i: nat, k: string)
    requires i < |lines| && SectionKey(lines[i]) == Some(k)
    ensures var p := Run(Start, lines[..i + 1]);
            p.current == Some(k) && k in p.sections && p.sections[k] == ""
  {
    assert lines[..i + 1] == lines[..i] + [lines[i]];
    RunAppend(Start, lines[..i], [lines[i]]);
  }

  /** Section k, once open at position from, collects the lines up to
      the next tag line e (if k is recognised) and keeps them while the
      rest of the lines do not reopen k. */
  lemma SectionBody(p: Partitioner, lines: seq<string>, from: nat, e: nat, k: string)
    requires p.Valid() && p.current == Some(k)
    requires from <= e <= |lines| && NoTag(lines[from..e]) && (e < |lines| ==> SectionKey(lines[e]).Some?)
    requires forall j :: from <= j < |lines| ==> SectionKey(lines[j]) != Some(k)
    ensures k in Run(p, lines[from..]).sections
    ensures Run(p, lines[from..]).sections[k]
            == if k in Relevant then p.sections[k] + Flatten(lines[from..e]) else p.sections[k]
  {
    assert lines[from..] == lines[from..e] + lines[e..];
    RunAppend(p, lines[from..e], lines[e..]);
    InSection(p, lines[from..e], k);
    var p2 := Run(p, lines[from..e]);
    if e < |lines| {
      var p3 := Step(p2, lines[e]);
      assert lines[e..] == [lines[e]] + lines[e + 1..];
      assert p3.current != Some(k) && p3.sections[k] == p2.sections[k];
      NotReopened(lines, lines[e + 1..], e, k);
      OutsideSection(p3, lines[e + 1..], k);
    } else {
      assert lines[e..] == [];
    }
  }

  lemma NotReopened(lines: seq<string>, rest: seq<string>, i: nat, k: string)
    requires i < |lines| && rest == lines[i + 1..]
    requires forall j :: i < j < |lines| ==> SectionKey(lines[j]) != Some(k)
    ensures forall j :: 0 <= j < |rest| ==> SectionKey(rest[j]) != Some(k)
  {
    forall j | 0 <= j < |rest| ensures SectionKey(rest[j]) != Some(k) {
      assert rest[j] == lines[i + 1 + j];
    }
  }

  /** A recognised section holds, in order, the lines after its last tag
      line up to the next tag line; an unrecognised one holds nothing. */
  lemma SectionContent(lines: seq<string>, i: nat, k: string)
    requires i < |lines| && SectionKey(lines[i]) == Some(k)
    requires forall j :: i < j < |lines| ==> SectionKey(lines[j]) != Some(k)
    ensures k in Sections(lines)
    ensures Sections(lines)[k]
            == if k in Relevant then Flatten(lines[i + 1..NextTag(lines, i + 1)]) else ""
  {
    assert lines == lines[..i + 1] + lines[i + 1..];
    RunAppend(Start, lines[..i + 1], lines[i + 1..]);
    OpenSection(lines, i, k);
    NextTagBounds(lines, i + 1);
    SectionBody(Run(Start, lines[..i + 1]), lines, i + 1, NextTag(lines, i + 1), k);
  }

  lemma {:induction false} PreambleRun(m: map<string, string>, lines: seq<string>)
    requires NoTag(lines)
    ensures Run(Partitioner(None, m), lines) == Partitioner(None, m)
    decreases |lines|
  {
    if lines != [] {
      assert SectionKey(lines[0]).None?;
      assert NoTag(lines[1..]) by {
        forall j | 0 <= j < |lines[1..]| ensures SectionKey(lines[1..][j]).None? {
          assert lines[1..][j] == lines[j + 1];
        }
      }
      PreambleRun(m, lines[1..]);
    }
  }

  /** Lines before the first tag line are never stored. */
  lemma PreambleIgnored(preamble: seq<string>, lines: seq<string>)
    requires NoTag(preamble)
    ensures Sections(preamble + lines) == Sections(lines)
  {
    RunAppend(Start, preamble, lines);
    PreambleRun(map[], preamble);
  }

  // ---------------------------------------------------------------------
  // The FREQ table

  /** The lines of a text that are not empty, in order. */
  function NonEmpty(ls: seq<string>): (r: seq<string>)
    decreases |ls|
  {
    if ls == [] then [] else (if ls[0] != "" then [ls[0]] else []) + NonEmpty(ls[1..])
  }

  /** Filtering keeps every non-empty line, in order, and nothing else:
      there are as many modes as non-empty FREQ lines. */
  lemma {:induction false} NonEmptyLines(ls: seq<string>)
    ensures multiset(NonEmpty(ls)) == multiset(ls)["" := 0]
    ensures |NonEmpty(ls)| == |ls| - multiset(ls)[""]
    decreases |ls|
  {
    if ls != [] {
      var h, rest := ls[0], ls[1..];
      NonEmptyLines(rest);
      assert ls == [h] + rest;
      assert multiset(ls) == multiset{h} + multiset(rest);
      if h != "" {
        assert NonEmpty(ls) == [h] + NonEmpty(rest);
        assert multiset(ls)["" := 0] == multiset{h} + multiset(rest)["" := 0];
      } else {
        assert NonEmpty(ls) == NonEmpty(rest);
        assert multiset(ls)["" := 0] == multiset(rest)["" := 0];
      }
    }
  }

  /** One line is kept exactly when it is not empty. */
  lemma NonEmptySingle(l: string)
    ensures NonEmpty([l]) == if l != "" then [l] else []
  {
    assert [l][1..] == [];
  }

  /** The filter keeps lines in their order: it maps a concatenation to
      the concatenation of the filtered parts (NonEmptySingle says what it
      does to one line). */
  lemma {:induction false} NonEmptyAppend(a: seq<string>, b: seq<string>)
    ensures NonEmpty(a + b) == NonEmpty(a) + NonEmpty(b)
    decreases |a|
  {
    if a == [] {
      assert a + b == b;
    } else {
      assert (a + b)[0] == a[0] && (a + b)[1..] == a[1..] + b;
      NonEmptyAppend(a[1..], b);
    }
  }

  /** `[l.strip() for l in freq.split('\n') if l]`: the filter looks at
      the line before stripping it. */
  function FrequencyLines(freq: string): (ls: seq<string>) {
    var kept := NonEmpty(Split(freq, '\n'));
    seq(|kept|, j requires 0 <= j < |kept| => Strip(kept[j]))
  }

  datatype VibError =
    | MissingSection(name: string)   // KeyError on the sections dictionary
    | BadFrequency(line: string)     // a FREQ line that is not a number
    | BadReference                   // FR-COORD that read_csv cannot read
    | BadNormalCoordinates           // a normal-coordinate block of the wrong shape

  /** pandas' `dtype='f8'` conversion of the frequency column: the first
      line that is not a number is the error. */
  function ParseFrequencies(lines: seq<string>, parseFloat: string -> Option<real>): (r: Result<seq<real>, VibError>)
    decreases |lines|
  {
    if lines == [] then Ok([])
    else match parseFloat(lines[0])
      case None => Err(BadFrequency(lines[0]))
      case Some(f) =>
        match ParseFrequencies(lines[1..], parseFloat)
        case Err(e) => Err(e)
        case Ok(fs) => Ok([f] + fs)
  }

  /** The table parses exactly when every line does, and then holds one
      frequency per line, in order. */
  lemma {:induction false} FrequenciesParsed(lines: seq<string>, parseFloat: string -> Option<real>)
    ensures ParseFrequencies(lines, parseFloat).Ok?
            <==> forall j :: 0 <= j < |lines| ==> parseFloat(lines[j]).Some?
    ensures ParseFrequencies(lines, parseFloat).Ok? ==>
              var fs := ParseFrequencies(lines, parseFloat).value;
              |fs| == |lines| && forall j :: 0 <= j < |lines| ==> parseFloat(lines[j]) == Some(fs[j])
    decreases |lines|
  {
    if lines != [] {
      FrequenciesParsed(lines[1..], parseFloat);
      forall j | 0 <= j < |lines| - 1 ensures lines[1..][j] == lines[j + 1] { }
    }
  }

  /** One row of the data table: the mode's index and its frequency. */
  datatype Mode = Mode(index: int, frequency: real)

  /** The data table: mode j has index start + j (`range(start_index, ...)`;
      the default RangeIndex when start_index is 0). */
  function Modes(freqs: seq<real>, start: int): (modes: seq<Mode>) {
    seq(|freqs|, j requires 0 <= j < |freqs| => Mode(start + j, freqs[j]))
  }

  /** numpy's `isclose(f, 0)` with its default tolerances
      rtol = 1e-5 and atol = 1e-8. */
  predicate NearZero(f: real) {
    Close(f, 0.0, 0.00001, 0.00000001)
  }

  /** `data[~isclose(data.loc[:, 'frequency'], 0)]`. */
  function Vibrations(modes: seq<Mode>): (r: seq<Mode>)
    decreases |modes|
  {
    if modes == [] then []
    else (if !NearZero(modes[0].frequency) then [modes[0]] else []) + Vibrations(modes[1..])
  }

  /** The filter keeps exactly the modes whose frequency is not near zero. */
  lemma {:induction false} VibrationsKept(modes: seq<Mode>, m: Mode)
    ensures m in Vibrations(modes) <==> m in modes && !NearZero(m.frequency)
    decreases |modes|
  {
    if modes != [] {
      VibrationsKept(modes[1..], m);
      assert modes == [modes[0]] + modes[1..];
    }
  }

  /** One mode is kept exactly when its frequency is not near zero. */
  lemma VibrationsSingle(m: Mode)
    ensures Vibrations([m]) == if !NearZero(m.frequency) then [m] else []
  {
    assert [m][1..] == [];
  }

  /** The filter keeps modes in their order: it maps a concatenation to
      the concatenation of the filtered parts (VibrationsSingle says what
      it does to one mode). */
  lemma {:induction false} VibrationsAppend(a: seq<Mode>, b: seq<Mode>)
    ensures Vibrations(a + b) == Vibrations(a) + Vibrations(b)
    decreases |a|
  {
    if a == [] {
      assert a + b == b;
    } else {
      assert (a + b)[0] == a[0] && (a + b)[1..] == a[1..] + b;
      VibrationsAppend(a[1..], b);
    }
  }

  // ---------------------------------------------------------------------
  // get_chunks

  /** The chunks `get_chunks` yields once its counter has reached n. */
  function ChunksFrom(split: seq<string>, n: nat, size: nat): seq<seq<string>>
    decreases |split| - n
  {
    if n + size <= |split| then [split[n..n + size]] + ChunksFrom(split, n + size + 1, size) else []
  }

  /** `list(get_chunks(text, L))`. */
  function Chunks(text: string, size: nat): seq<seq<string>> {
    ChunksFrom(Split(text, '\n'), 1, size)
  }

  /** The generator `get_chunks(text, L)`, its counter advanced in a loop. */
  method GetChunks(text: string, size: nat) returns (chunks: seq<seq<string>>)
    ensures chunks == Chunks(text, size)
  {
    var splitted := Split(text, '\n');
    var n := 1;
    chunks := [];
    while n + size <= |splitted|
      invariant chunks + ChunksFrom(splitted, n, size) == ChunksFrom(splitted, 1, size)
      decreases |splitted| - n
    {
      assert ChunksFrom(splitted, n, size)
             == [splitted[n..n + size]] + ChunksFrom(splitted, n + size + 1, size);
      assert chunks + ChunksFrom(splitted, n, size)
             == (chunks + [splitted[n..n + size]]) + ChunksFrom(splitted, n + size + 1, size);
      chunks := chunks + [splitted[n..n + size]];
      n := n + size + 1;
    }
  }

  /** Chunk k is the L lines from n + k(L + 1), and there is a chunk k
      exactly when those lines lie inside the text. */
  lemma {:induction false} ChunkLayout(split: seq<string>, n: nat, size: nat, k: nat)
    ensures k < |ChunksFrom(split, n, size)| <==> n + Span(size + 1, k) + size <= |split|
    ensures k < |ChunksFrom(split, n, size)| ==>
              var at := n + Span(size + 1, k);
              ChunksFrom(split, n, size)[k] == split[at..at + size]
    decreases k
  {
    if k > 0 && n + size <= |split| {
      ChunkLayout(split, n + size + 1, size, k - 1);
      assert n + Span(size + 1, k) == n + size + 1 + Span(size + 1, k - 1);
    }
  }

  /** In `get_chunks(text, L)` the counter starts at 1: chunk k is
      `splitted[1 + k*(L+1) : 1 + k*(L+1) + L]`, and every chunk has L lines. */
  lemma ChunksOfText(text: string, size: nat, k: nat)
    ensures var split := Split(text, '\n');
            k < |Chunks(text, size)| <==> 1 + k * (size + 1) + size <= |split|
    ensures var split := Split(text, '\n');
            k < |Chunks(text, size)| ==>
              |Chunks(text, size)[k]| == size
              && Chunks(text, size)[k] == split[1 + k * (size + 1)..1 + k * (size + 1) + size]
  {
    ChunkLayout(Split(text, '\n'), 1, size, k);
    SpanIsProduct(size + 1, k);
  }

  // ---------------------------------------------------------------------
  // _get_molecule

  /** One line of a chunk, read against reference row ref: exactly three
      numbers, placed at ref's index with ref's element label. */
  function RowOf(ref: Row, line: string, parseFloat: string -> Option<real>): Option<Row> {
    var w := Words(line);
    if |w| != 3 then None
    else match (parseFloat(w[0]), parseFloat(w[1]), parseFloat(w[2]))
      case (Some(x), Some(y), Some(z)) => Some(Row(ref.index, ref.atom, x, y, z))
      case _ => None
  }

  function MoleculeRows(reference: Geometry, chunk: seq<string>, parseFloat: string -> Option<real>): Option<Geometry>
    requires |chunk| == |reference|
    decreases |reference|
  {
    if reference == [] then Some([])
    else match RowOf(reference[0], chunk[0], parseFloat)
      case None => None
      case Some(r) =>
        match MoleculeRows(reference[1..], chunk[1..], parseFloat)
        case None => None
        case Some(rs) => Some([r] + rs)
  }

  /** `_get_molecule(reference, chunk)`: the chunk's rows as x, y, z on the
      reference's index, joined with the reference's element labels. A
      chunk of the wrong length or a row that is not three numbers is a
      ValueError. */
  function GetMolecule(reference: Geometry, chunk: seq<string>, parseFloat: string -> Option<real>): Result<Geometry, VibError> {
    if |chunk| != |reference| then Err(BadNormalCoordinates)
    else match MoleculeRows(reference, chunk, parseFloat)
      case None => Err(BadNormalCoordinates)
      case Some(g) => Ok(g)
  }

  lemma {:induction false} MoleculeRowsAligned(reference: Geometry, chunk: seq<string>, parseFloat: string -> Option<real>)
    requires |chunk| == |reference|
    ensures MoleculeRows(reference, chunk, parseFloat).Some?
            <==> forall k :: 0 <= k < |reference| ==> RowOf(reference[k], chunk[k], parseFloat).Some?
    ensures MoleculeRows(reference, chunk, parseFloat).Some? ==>
              var g := MoleculeRows(reference, chunk, parseFloat).value;
              |g| == |reference| && forall k :: 0 <= k < |reference| ==> RowOf(reference[k], chunk[k], parseFloat) == Some(g[k])
    decreases |reference|
  {
    if reference != [] {
      MoleculeRowsAligned(reference[1..], chunk[1..], parseFloat);
      forall k | 0 <= k < |reference| - 1
        ensures reference[1..][k] == reference[k + 1] && chunk[1..][k] == chunk[k + 1]
      { }
    }
  }

  /** The molecule is row-aligned with the reference: row k has the
      reference's index and label at k and the three numbers of line k of
      the chunk; it exists exactly when the chunk has one such line per atom. */
  lemma MoleculeAligned(reference: Geometry, chunk: seq<string>, parseFloat: string -> Option<real>)
    ensures GetMolecule(reference, chunk, parseFloat).Ok?
            <==> |chunk| == |reference|
                 && forall k :: 0 <= k < |reference| ==> RowOf(reference[k], chunk[k], parseFloat).Some?
    ensures GetMolecule(reference, chunk, parseFloat).Ok? ==>
              var g := GetMolecule(reference, chunk, parseFloat).value;
              |g| == |reference|
              && forall k :: 0 <= k < |g| ==>
                   g[k].index == reference[k].index && g[k].atom == reference[k].atom
                   && Words(chunk[k]) == [Words(chunk[k])[0], Words(chunk[k])[1], Words(chunk[k])[2]]
                   && parseFloat(Words(chunk[k])[0]) == Some(g[k].x)
                   && parseFloat(Words(chunk[k])[1]) == Some(g[k].y)
                   && parseFloat(Words(chunk[k])[2]) == Some(g[k].z)
  {
    if |chunk| == |reference| {
      MoleculeRowsAligned(reference, chunk, parseFloat);
    }
  }

  /** A molecule read against a Cartesian passes isclose's pretest against
      it: the same atoms under the same indices. */
  lemma MoleculeMatchesReference(reference: Geometry, chunk: seq<string>, parseFloat: string -> Option<real>)
    requires UniqueIndex(reference)
    requires GetMolecule(reference, chunk, parseFloat).Ok?
    ensures var g := GetMolecule(reference, chunk, parseFloat).value;
            UniqueIndex(g) && Pretest(g, reference)
  {
    MoleculeAligned(reference, chunk, parseFloat);
    var g := GetMolecule(reference, chunk, parseFloat).value;
    assert IndexSet(g) == IndexSet(reference) by {
      forall x | x in IndexSet(g) ensures x in IndexSet(reference) {
        var k :| 0 <= k < |g| && g[k].index == x;
      }
      forall x | x in IndexSet(reference) ensures x in IndexSet(g) {
        var k :| 0 <= k < |reference| && reference[k].index == x;
        assert g[k].index == x;
      }
    }
    forall k | 0 <= k < |g| ensures Lookup(reference, g[k].index).atom == g[k].atom {
      LookupFinds(reference, reference[k]);
    }
  }

  // ---------------------------------------------------------------------
  // read_molden

  /** `Cartesian * c`: every coordinate scaled by c. */
  function Scale(g: Geometry, c: real): (r: Geometry) {
    seq(|g|, k requires 0 <= k < |g| => Row(g[k].index, g[k].atom, g[k].x * c, g[k].y * c, g[k].z * c))
  }

  /** A displacement `shape * Symbol(amplitude)`: the shape is its value
      at amplitude 1. */
  datatype Displacement = Displacement(shape: Geometry, amplitude: string)

  /** A `CartesianVibration`: the reference geometry, the data table and
      the displacement of each mode, keyed by mode index. */
  datatype CartesianVibration = CartesianVibration(reference: Geometry, data: seq<Mode>,
                                                   dsplcmnt: map<int, Displacement>)

  /** Whether the loop over `zip(data.index, chunks)` builds a
      displacement for pair j. */
  predicate Selected(modes: seq<Mode>, chunks: seq<seq<string>>, excludeTransRot: bool, j: nat) {
    j < |modes| && j < |chunks| && excludeTransRot && !NearZero(modes[j].frequency)
  }

  /** `_get_molecule(reference, chunk) * Symbol(f't{i}') * to_Ang`. */
  function DisplacementOf(mode: Mode, molecule: Geometry, toAng: real): Displacement {
    Displacement(Scale(molecule, toAng), "t" + IntToString(mode.index))
  }

  /** The loop over pairs j, j + 1, ... with the displacements built so
      far in acc; the first chunk that does not read is the error. */
  function Collect(modes: seq<Mode>, chunks: seq<seq<string>>, reference: Geometry,
                   excludeTransRot: bool, parseFloat: string -> Option<real>, toAng: real,
                   j: nat, acc: map<int, Displacement>): Result<map<int, Displacement>, VibError>
    decreases |modes| - j
  {
    if j >= |modes| || j >= |chunks| then Ok(acc)
    else if Selected(modes, chunks, excludeTransRot, j) then
      match GetMolecule(reference, chunks[j], parseFloat)
      case Err(e) => Err(e)
      case Ok(molecule) =>
        Collect(modes, chunks, reference, excludeTransRot, parseFloat, toAng, j + 1,
                acc[modes[j].index := DisplacementOf(modes[j], molecule, toAng)])
    else Collect(modes, chunks, reference, excludeTransRot, parseFloat, toAng, j + 1, acc)
  }

  /** `read_molden(filepath, start_index, exclude_trans_rot)` on a file
      holding content. */
  function ReadMoldenSpec(content: string, startIndex: int, excludeTransRot: bool,
                          parseFloat: string -> Option<real>, readReference: string -> Option<Geometry>,
                          toAng: real): Result<CartesianVibration, VibError>
  {
    var sections := Sections(ReadLines(content));
    if "FREQ" !in sections then Err(MissingSection("FREQ"))
    else match ParseFrequencies(FrequencyLines(sections["FREQ"]), parseFloat)
      case Err(e) => Err(e)
      case Ok(freqs) =>
        var data := Modes(freqs, startIndex);
        if "FR-COORD" !in sections then Err(MissingSection("FR-COORD"))
        else match readReference(sections["FR-COORD"])
          case None => Err(BadReference)
          case Some(df) =>
            var reference := Scale(df, toAng);
            if "FR-NORM-COORD" !in sections then Err(MissingSection("FR-NORM-COORD"))
            else
              var chunks := Chunks(sections["FR-NORM-COORD"], |reference|);
              match Collect(data, chunks, reference, excludeTransRot, parseFloat, toAng, 0, map[])
              case Err(e) => Err(e)
              case Ok(dsplcmnt) =>
                Ok(CartesianVibration(reference, if excludeTransRot then Vibrations(data) else data, dsplcmnt))
  }

  /** `CartesianVibration.read_molden`: partition the file, read the
      frequency table and the reference, then fill the displacement
      dictionary in a loop over the modes paired with the chunks. */
  method ReadMolden(content: string, startIndex: int, excludeTransRot: bool,
                    parseFloat: string -> Option<real>, readReference: string -> Option<Geometry>,
                    toAng: real) returns (r: Result<CartesianVibration, VibError>)
    ensures r == ReadMoldenSpec(content, startIndex, excludeTransRot, parseFloat, readReference, toAng)
  {
    var sections := PartitionMolden(content);
    if "FREQ" !in sections {
      return Err(MissingSection("FREQ"));
    }
    var freqs := ParseFrequencies(FrequencyLines(sections["FREQ"]), parseFloat);
    if freqs.Err? {
      return Err(freqs.error);
    }
    var data := Modes(freqs.value, startIndex);
    if "FR-COORD" !in sections {
      return Err(MissingSection("FR-COORD"));
    }
    var df := readReference(sections["FR-COORD"]);
    if df.None? {
      return Err(BadReference);
    }
    var reference := Scale(df.value, toAng);
    if "FR-NORM-COORD" !in sections {
      return Err(MissingSection("FR-NORM-COORD"));
    }
    var chunks := GetChunks(sections["FR-NORM-COORD"], |reference|);
    var dsplcmnt: map<int, Displacement> := map[];
    var j := 0;
    while j < |data| && j < |chunks|
      invariant j <= |data|
      invariant Collect(data, chunks, reference, excludeTransRot, parseFloat, toAng, j, dsplcmnt)
                == Collect(data, chunks, reference, excludeTransRot, parseFloat, toAng, 0, map[])
      decreases |data| - j
    {
      if excludeTransRot && !NearZero(data[j].frequency) {
        var molecule := GetMolecule(reference, chunks[j], parseFloat);
        if molecule.Err? {
          return Err(molecule.error);
        }
        dsplcmnt := dsplcmnt[data[j].index := DisplacementOf(data[j], molecule.value, toAng)];
      }
      j := j + 1;
    }
    if excludeTransRot {
      data := Vibrations(data);
    }
    r := Ok(CartesianVibration(reference, data, dsplcmnt));
  }

  // ---------------------------------------------------------------------
  // What read_molden builds

  predicate DistinctIndices(modes: seq<Mode>) {
    forall a, b :: 0 <= a < b < |modes| ==> modes[a].index != modes[b].index
  }

  /** The loop from pair j on fails exactly when a selected chunk does
      not read. */
  lemma {:induction false} CollectSucceeds(modes: seq<Mode>, chunks: seq<seq<string>>, reference: Geometry,
                                           excludeTransRot: bool, parseFloat: string -> Option<real>,
                                           toAng: real, j: nat, acc: map<int, Displacement>)
    ensures Collect(modes, chunks, reference, excludeTransRot, parseFloat, toAng, j, acc).Ok?
            <==> forall t :: j <= t && Selected(modes, chunks, excludeTransRot, t) ==>
                               GetMolecule(reference, chunks[t], parseFloat).Ok?
    decreases |modes| - j
  {
    if j < |modes| && j < |chunks| {
      if Selected(modes, chunks, excludeTransRot, j) {
        var g := GetMolecule(reference, chunks[j], parseFloat);
        if g.Ok? {
          var acc' := acc[modes[j].index := DisplacementOf(modes[j], g.value, toAng)];
          CollectSucceeds(modes, chunks, reference, excludeTransRot, parseFloat, toAng, j + 1, acc');
        }
      } else {
        CollectSucceeds(modes, chunks, reference, excludeTransRot, parseFloat, toAng, j + 1, acc);
      }
    }
  }

  /** When it succeeds, the loop from pair j on adds a key for each
      selected mode's index, and no other. */
  lemma {:induction false} CollectKeys(modes: seq<Mode>, chunks: seq<seq<string>>, reference: Geometry,
                                       excludeTransRot: bool, parseFloat: string -> Option<real>,
                                       toAng: real, j: nat, acc: map<int, Displacement>)
    requires Collect(modes, chunks, reference, excludeTransRot, parseFloat, toAng, j, acc).Ok?
    ensures var d := Collect(modes, chunks, reference, excludeTransRot, parseFloat, toAng, j, acc).value;
            forall x :: x in d <==>
              x in acc || exists t :: j <= t && Selected(modes, chunks, excludeTransRot, t) && modes[t].index == x
    decreases |modes| - j
  {
    if j < |modes| && j < |chunks| {
      if Selected(modes, chunks, excludeTransRot, j) {
        var g := GetMolecule(reference, chunks[j], parseFloat);
        var acc' := acc[modes[j].index := DisplacementOf(modes[j], g.value, toAng)];
        CollectKeys(modes, chunks, reference, excludeTransRot, parseFloat, toAng, j + 1, acc');
      } else {
        CollectKeys(modes, chunks, reference, excludeTransRot, parseFloat, toAng, j + 1, acc);
      }
    }
  }

  /** When it succeeds, the loop from pair j on keeps what was in acc and
      stores, under each selected mode's index, that mode's displacement. */
  lemma {:induction false} CollectValues(modes: seq<Mode>, chunks: seq<seq<string>>, reference: Geometry,
                                         excludeTransRot: bool, parseFloat: string -> Option<real>,
                                         toAng: real, j: nat, acc: map<int, Displacement>)
    requires DistinctIndices(modes)
    requires forall x, t :: x in acc && j <= t < |modes| ==> modes[t].index != x
    requires Collect(modes, chunks, reference, excludeTransRot, parseFloat, toAng, j, acc).Ok?
    ensures var d := Collect(modes, chunks, reference, excludeTransRot, parseFloat, toAng, j, acc).value;
            && (forall x :: x in acc ==> x in d && d[x] == acc[x])
            && (forall t :: j <= t && Selected(modes, chunks, excludeTransRot, t) ==>
                  GetMolecule(reference, chunks[t], parseFloat).Ok?
                  && modes[t].index in d
                  && d[modes[t].index]
                     == DisplacementOf(modes[t], GetMolecule(reference, chunks[t], parseFloat).value, toAng))
    decreases |modes| - j
  {
    if j < |modes| && j < |chunks| {
      if Selected(modes, chunks, excludeTransRot, j) {
        var g := GetMolecule(reference, chunks[j], parseFloat);
        var acc' := acc[modes[j].index := DisplacementOf(modes[j], g.value, toAng)];
        CollectValues(modes, chunks, reference, excludeTransRot, parseFloat, toAng, j + 1, acc');
      } else {
        CollectValues(modes, chunks, reference, excludeTransRot, parseFloat, toAng, j + 1, acc);
      }
    }
  }

  /** With `exclude_trans_rot=False` the loop adds nothing. */
  lemma {:induction false} CollectNothing(modes: seq<Mode>, chunks: seq<seq<string>>, reference: Geometry,
                                          parseFloat: string -> Option<real>, toAng: real,
                                          j: nat, acc: map<int, Displacement>)
    ensures Collect(modes, chunks, reference, false, parseFloat, toAng, j, acc) == Ok(acc)
    decreases |modes| - j
  {
    if j < |modes| && j < |chunks| {
      CollectNothing(modes, chunks, reference, parseFloat, toAng, j + 1, acc);
    }
  }

  /** Mode j is `start + j` with the j-th frequency, so no index repeats. */
  lemma ModesIndexed(freqs: seq<real>, start: int)
    ensures DistinctIndices(Modes(freqs, start))
    ensures forall j :: 0 <= j < |freqs| ==> Modes(freqs, start)[j] == Mode(start + j, freqs[j])
  {
  }

  /** The keys of the displacement dictionary of the modes
      `start_index, ...`: exactly the indices start + j of the first
      min(m, #chunks) modes whose frequency is not near zero. */
  lemma DisplacementKeySet(freqs: seq<real>, start: int, chunks: seq<seq<string>>, reference: Geometry,
                           excludeTransRot: bool, parseFloat: string -> Option<real>, toAng: real)
    requires Collect(Modes(freqs, start), chunks, reference, excludeTransRot, parseFloat, toAng, 0, map[]).Ok?
    ensures var modes := Modes(freqs, start);
            var d := Collect(modes, chunks, reference, excludeTransRot, parseFloat, toAng, 0, map[]).value;
            forall x :: x in d <==> exists j :: 0 <= j && Selected(modes, chunks, excludeTransRot, j) && x == start + j
  {
    var modes := Modes(freqs, start);
    ModesIndexed(freqs, start);
    CollectKeys(modes, chunks, reference, excludeTransRot, parseFloat, toAng, 0, map[]);
    var d := Collect(modes, chunks, reference, excludeTransRot, parseFloat, toAng, 0, map[]).value;
    forall x | x in d ensures exists j :: 0 <= j && Selected(modes, chunks, excludeTransRot, j) && x == start + j {
      var t :| 0 <= t && Selected(modes, chunks, excludeTransRot, t) && modes[t].index == x;
      assert modes[t] == Mode(start + t, freqs[t]);
    }
    forall x | exists j :: 0 <= j && Selected(modes, chunks, excludeTransRot, j) && x == start + j
      ensures x in d
    {
      var t :| 0 <= t && Selected(modes, chunks, excludeTransRot, t) && x == start + t;
      assert modes[t] == Mode(start + t, freqs[t]);
    }
  }

  /** The displacement of mode start + j is chunk j read against the
      reference, under the amplitude name "t" + str(start + j). */
  lemma DisplacementValues(freqs: seq<real>, start: int, chunks: seq<seq<string>>, reference: Geometry,
                           excludeTransRot: bool, parseFloat: string -> Option<real>, toAng: real)
    requires Collect(Modes(freqs, start), chunks, reference, excludeTransRot, parseFloat, toAng, 0, map[]).Ok?
    ensures var modes := Modes(freqs, start);
            var d := Collect(modes, chunks, reference, excludeTransRot, parseFloat, toAng, 0, map[]).value;
            forall j :: 0 <= j && Selected(modes, chunks, excludeTransRot, j) ==>
              GetMolecule(reference, chunks[j], parseFloat).Ok?
              && start + j in d
              && d[start + j] == Displacement(Scale(GetMolecule(reference, chunks[j], parseFloat).value, toAng),
                                              "t" + IntToString(start + j))
  {
    var modes := Modes(freqs, start);
    forall j | 0 <= j && Selected(modes, chunks, excludeTransRot, j)
      ensures GetMolecule(reference, chunks[j], parseFloat).Ok?
      ensures var d := Collect(modes, chunks, reference, excludeTransRot, parseFloat, toAng, 0, map[]).value;
              start + j in d
              && d[start + j] == Displacement(Scale(GetMolecule(reference, chunks[j], parseFloat).value, toAng),
                                              "t" + IntToString(start + j))
    {
      DisplacementValue(freqs, start, chunks, reference, excludeTransRot, parseFloat, toAng, j);
    }
  }

  /** DisplacementValues for one selected mode. */
  lemma DisplacementValue(freqs: seq<real>, start: int, chunks: seq<seq<string>>, reference: Geometry,
                          excludeTransRot: bool, parseFloat: string -> Option<real>, toAng: real, j: nat)
    requires Collect(Modes(freqs, start), chunks, reference, excludeTransRot, parseFloat, toAng, 0, map[]).Ok?
    requires Selected(Modes(freqs, start), chunks, excludeTransRot, j)
    ensures GetMolecule(reference, chunks[j], parseFloat).Ok?
    ensures var d := Collect(Modes(freqs, start), chunks, reference, excludeTransRot, parseFloat, toAng, 0, map[]).value;
            start + j in d
            && d[start + j] == Displacement(Scale(GetMolecule(reference, chunks[j], parseFloat).value, toAng),
                                            "t" + IntToString(start + j))
  {
    var modes := Modes(freqs, start);
    ModesIndexed(freqs, start);
    CollectValues(modes, chunks, reference, excludeTransRot, parseFloat, toAng, 0, map[]);
    assert modes[j] == Mode(start + j, freqs[j]);
  }

  /** Distinct modes get distinct amplitude names. */
  lemma AmplitudeNamesDistinct(prefix: string, i: int, j: int)
    requires prefix + IntToString(i) == prefix + IntToString(j)
    ensures i == j
  {
    assert IntToString(i) == (prefix + IntToString(i))[|prefix|..];
    IntToStringInjective(i, j);
  }

  /** The pieces `read_molden` put together, for a call that succeeded. */
  lemma ReadMoldenParts(content: string, startIndex: int, excludeTransRot: bool,
                        parseFloat: string -> Option<real>, readReference: string -> Option<Geometry>,
                        toAng: real)
      returns (freqs: seq<real>, chunks: seq<seq<string>>)
    requires ReadMoldenSpec(content, startIndex, excludeTransRot, parseFloat, readReference, toAng).Ok?
    ensures var sections := Sections(ReadLines(content));
            var cv := ReadMoldenSpec(content, startIndex, excludeTransRot, parseFloat, readReference, toAng).value;
            var modes := Modes(freqs, startIndex);
            && "FREQ" in sections
            && ParseFrequencies(FrequencyLines(sections["FREQ"]), parseFloat) == Ok(freqs)
            && |freqs| == |NonEmpty(Split(sections["FREQ"], '\n'))|
            && "FR-NORM-COORD" in sections
            && chunks == Chunks(sections["FR-NORM-COORD"], |cv.reference|)
            && cv.data == (if excludeTransRot then Vibrations(modes) else modes)
            && Collect(modes, chunks, cv.reference, excludeTransRot, parseFloat, toAng, 0, map[]) == Ok(cv.dsplcmnt)
  {
    var sections := Sections(ReadLines(content));
    var lines := FrequencyLines(sections["FREQ"]);
    freqs := ParseFrequencies(lines, parseFloat).value;
    FrequenciesParsed(lines, parseFloat);
    var reference := Scale(readReference(sections["FR-COORD"]).value, toAng);
    chunks := Chunks(sections["FR-NORM-COORD"], |reference|);
  }

  /** Modes are numbered from start_index, one per non-empty FREQ line;
      with `exclude_trans_rot=False` nothing is filtered and no
      displacement is built. */
  lemma WithoutExclusion(content: string, startIndex: int, parseFloat: string -> Option<real>,
                         readReference: string -> Option<Geometry>, toAng: real)
    requires ReadMoldenSpec(content, startIndex, false, parseFloat, readReference, toAng).Ok?
    ensures var sections := Sections(ReadLines(content));
            var cv := ReadMoldenSpec(content, startIndex, false, parseFloat, readReference, toAng).value;
            && "FREQ" in sections
            && |cv.data| == |NonEmpty(Split(sections["FREQ"], '\n'))|
            && (forall j :: 0 <= j < |cv.data| ==> cv.data[j].index == startIndex + j)
            && cv.dsplcmnt == map[]
  {
    var freqs, chunks := ReadMoldenParts(content, startIndex, false, parseFloat, readReference, toAng);
    var cv := ReadMoldenSpec(content, startIndex, false, parseFloat, readReference, toAng).value;
    CollectNothing(Modes(freqs, startIndex), chunks, cv.reference, parseFloat, toAng, 0, map[]);
  }

  lemma ExclusionFacts(freqs: seq<real>, start: int, chunks: seq<seq<string>>, reference: Geometry,
                       parseFloat: string -> Option<real>, toAng: real, d: map<int, Displacement>)
    requires Collect(Modes(freqs, start), chunks, reference, true, parseFloat, toAng, 0, map[]) == Ok(d)
    ensures var data := Vibrations(Modes(freqs, start));
            && (forall md :: md in data ==> !NearZero(md.frequency) && start <= md.index < start + |freqs|)
            && (forall x :: x in d ==> (exists md :: md in data && md.index == x)
                                       && d[x].amplitude == "t" + IntToString(x))
  {
    var modes := Modes(freqs, start);
    var data := Vibrations(modes);
    forall md | md in data ensures !NearZero(md.frequency) && start <= md.index < start + |freqs| {
      VibrationsKept(modes, md);
    }
    DisplacementKeySet(freqs, start, chunks, reference, true, parseFloat, toAng);
    forall x | x in d
      ensures (exists md :: md in data && md.index == x) && d[x].amplitude == "t" + IntToString(x)
    {
      var j :| 0 <= j && Selected(modes, chunks, true, j) && x == start + j;
      DisplacementValue(freqs, start, chunks, reference, true, parseFloat, toAng, j);
      ModesIndexed(freqs, start);
      assert modes[j] == Mode(x, freqs[j]);
      VibrationsKept(modes, modes[j]);
    }
  }

  /** With `exclude_trans_rot`, the data table keeps only modes whose
      frequency is not near zero, and every displacement is keyed by one of
      them and named after its key. */
  lemma WithExclusion(content: string, startIndex: int, parseFloat: string -> Option<real>,
                      readReference: string -> Option<Geometry>, toAng: real)
    requires ReadMoldenSpec(content, startIndex, true, parseFloat, readReference, toAng).Ok?
    ensures var sections := Sections(ReadLines(content));
            var cv := ReadMoldenSpec(content, startIndex, true, parseFloat, readReference, toAng).value;
            var m := |NonEmpty(Split(sections["FREQ"], '\n'))|;
            && (forall md :: md in cv.data ==>
                  !NearZero(md.frequency) && startIndex <= md.index < startIndex + m)
            && (forall x :: x in cv.dsplcmnt ==>
                  (exists md :: md in cv.data && md.index == x)
                  && cv.dsplcmnt[x].amplitude == "t" + IntToString(x))
  {
    var freqs, chunks := ReadMoldenParts(content, startIndex, true, parseFloat, readReference, toAng);
    var cv := ReadMoldenSpec(content, startIndex, true, parseFloat, readReference, toAng).value;
    ExclusionFacts(freqs, startIndex, chunks, cv.reference, parseFloat, toAng, cv.dsplcmnt);
  }

  // ---------------------------------------------------------------------
  // ZmatVibration.from_cart_vib

  /** A Z-matrix displacement `z * Symbol(amplitude)`. */
  datatype ZmatDisplacement<Z> = ZmatDisplacement(shape: Z, amplitude: string)

  /** A `ZmatVibration`: the reference Z-matrix, the data table and the
      displacement of each mode in internal coordinates. */
  datatype ZmatVibration<Z> = ZmatVibration(reference: Z, data: seq<Mode>,
                                            dsplcmnt: map<int, ZmatDisplacement<Z>>)

  /** The displacement of mode i in internal coordinates: the Cartesian
      displacement at amplitude 1 added to the reference, turned into a
      Z-matrix with the construction table, minus the reference Z-matrix
      with dihedrals minimised, under the amplitude name "s" + str(i). */
  function ZmatDisplacementOf<Z, T>(d: Displacement, i: int, ref: Geometry, zRef: Z, table: T,
                                    getZmat: (Geometry, Option<T>) -> Z,
                                    add: (Geometry, Geometry) -> Geometry,
                                    relative: (Z, Z) -> Z): ZmatDisplacement<Z> {
    ZmatDisplacement(relative(getZmat(add(d.shape, ref), Some(table)), zRef), "s" + IntToString(i))
  }

  /** A set that is not empty has an element. */
  lemma ElementOf(s: set<int>) returns (x: int)
    requires s != {}
    ensures x in s
  {
    if forall y :: y !in s {
      assert false;
    }
    var y :| y in s;
    x := y;
  }

  /** `ZmatVibration.from_cart_vib(cart_vib, const_table)`. `getZmat(g, t)`
      is `g.get_zmat(t)` (`get_zmat()` for None), `bondTable(z)` is
      `z.loc[:, ['b', 'a', 'd']]`, `add` is Cartesian addition and
      `relative(z, zRef)` is `(z - zRef).minimize_dihedrals()`. The
      displacement stored for mode i is taken at amplitude 1, which is
      what `subs(Symbol(f't{i}'), 1)` gives for a displacement named
      "t" + str(i). */
  method FromCartVib<Z, T>(cartVib: CartesianVibration, constTable: Option<T>,
                           getZmat: (Geometry, Option<T>) -> Z, bondTable: Z -> T,
                           add: (Geometry, Geometry) -> Geometry, relative: (Z, Z) -> Z)
      returns (zmatVib: ZmatVibration<Z>)
    requires forall i :: i in cartVib.dsplcmnt ==> cartVib.dsplcmnt[i].amplitude == "t" + IntToString(i)
    ensures zmatVib.reference == getZmat(cartVib.reference, constTable)
    ensures zmatVib.data == cartVib.data
    ensures zmatVib.dsplcmnt.Keys == cartVib.dsplcmnt.Keys
    ensures var table := if constTable.None? then bondTable(zmatVib.reference) else constTable.value;
            forall i :: i in zmatVib.dsplcmnt ==>
              zmatVib.dsplcmnt[i]
              == ZmatDisplacementOf(cartVib.dsplcmnt[i], i, cartVib.reference, zmatVib.reference, table,
                                    getZmat, add, relative)
  {
    var ref := cartVib.reference;
    var zRef := getZmat(ref, constTable);
    var table := if constTable.None? then bondTable(zRef) else constTable.value;
    var zDsplcmnt: map<int, ZmatDisplacement<Z>> := map[];
    var todo := cartVib.dsplcmnt.Keys;
    while todo != {}
      invariant todo <= cartVib.dsplcmnt.Keys
      invariant zDsplcmnt.Keys == cartVib.dsplcmnt.Keys - todo
      invariant forall i :: i in zDsplcmnt ==>
                  zDsplcmnt[i] == ZmatDisplacementOf(cartVib.dsplcmnt[i], i, ref, zRef, table, getZmat, add, relative)
      decreases todo
    {
      ghost var some := ElementOf(todo);
      var i :| i in todo;
      var distorted := add(cartVib.dsplcmnt[i].shape, ref);
      var zDistorted := getZmat(distorted, Some(table));
      zDsplcmnt := zDsplcmnt[i := ZmatDisplacement(relative(zDistorted, zRef), "s" + IntToString(i))];
      todo := todo - {i};
    }
    zmatVib := ZmatVibration(zRef, cartVib.data, zDsplcmnt);
  }
}
