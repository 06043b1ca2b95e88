/** The Molden trajectory writer (`to_molden`) and reader (`from_molden`)
    and the geometry comparison `isclose` of chemcoord's
    cartesian_coordinates/xyz_functions.py.

    A Molden file is modelled as its text. `from_molden` walks the file
    line by line; its lines are the pieces of `Split(text, '\n')`, and
    reading past the last one yields "", as `readline()` does at end of
    file. The geometry container (`Cartesian`) is opaque: sorting by
    index, rendering with `to_xyz` and parsing with `from_xyz` are
    parameters. */
module XyzFunctions {
  import opened Text

  // ---------------------------------------------------------------------
  // Geometries

  /** One row of a Cartesian: the atom index, its element label and its
      coordinates. */
  datatype Row = Row(index: int, atom: string, x: real, y: real, z: real)

  /** A Cartesian: rows in their frame order. */
  type Geometry = seq<Row>

  /** A Cartesian maps each atom index to one row. */
  predicate UniqueIndex(g: Geometry) {
    forall i, j :: 0 <= i < |g| && 0 <= j < |g| && i != j ==> g[i].index != g[j].index
  }

  function IndexSet(g: Geometry): set<int> {
    set r | r in g :: r.index
  }

  // ---------------------------------------------------------------------
  // to_molden

  const MoldenFormatTag := "[MOLDEN FORMAT]"
  const NGeoTag := "[N_GEO]"
  const GeoConvTag := "[GEOCONV]"
  const GeometriesTag := "[GEOMETRIES] (XYZ)"

  /** `k * '1\n'`: the placeholder value written for every step. */
  function Placeholders(k: nat): string {
    if k == 0 then "" else "1\n" + Placeholders(k - 1)
  }

  /** The first four header lines: the format tag, the `[N_GEO]` tag with
      the number of geometries, and the `[GEOCONV]` tag. */
  function Lead(k: nat): string {
    MoldenFormatTag + "\n" + NGeoTag + "\n" + NatToString(k) + "\n" + GeoConvTag + "\n"
  }

  /** The fixed header `to_molden` writes for k geometries. */
  function Header(k: nat): string {
    Lead(k)
    + "energy\n" + Placeholders(k)
    + "max-force\n" + Placeholders(k)
    + "rms-force\n" + Placeholders(k)
    + GeometriesTag + "\n"
  }

  /** The per-geometry texts, in list order: every molecule, sorted by its
      index first when `sortIndex` is set, rendered by `to_xyz`. */
  function Coordinates<G>(cartesianList: seq<G>, sortIndex: bool, sortByIndex: G -> G,
                          toXyz: G -> string): seq<string>
  {
    seq(|cartesianList|, i requires 0 <= i < |cartesianList| =>
      toXyz(if sortIndex then sortByIndex(cartesianList[i]) else cartesianList[i]))
  }

  /** The text `to_molden` produces: the header, then the geometries'
      texts joined by newlines. */
  function MoldenText<G>(cartesianList: seq<G>, sortIndex: bool, sortByIndex: G -> G,
                         toXyz: G -> string): string
  {
    Header(|cartesianList|) + Join(Coordinates(cartesianList, sortIndex, sortByIndex, toXyz), "\n")
  }

  /** A prefix stays a prefix when text is appended. */
  lemma PrefixExtend(a: string, x: string, y: string)
    requires |a| <= |x| && x[..|a|] == a
    ensures |a| <= |x + y| && (x + y)[..|a|] == a
  {
    assert (x + y)[..|a|] == x[..|a|];
  }

  lemma LeadText(k: nat)
    ensures Lead(k) == "[MOLDEN FORMAT]\n[N_GEO]\n" + NatToString(k) + "\n[GEOCONV]\n"
  {
  }

  lemma HeaderBegins(k: nat)
    ensures |Lead(k)| <= |Header(k)| && Header(k)[..|Lead(k)|] == Lead(k)
  {
    var lead := Lead(k);
    var p := Placeholders(k);
    assert lead[..|lead|] == lead;
    PrefixExtend(lead, lead, "energy\n");
    PrefixExtend(lead, lead + "energy\n", p);
    PrefixExtend(lead, lead + "energy\n" + p, "max-force\n");
    PrefixExtend(lead, lead + "energy\n" + p + "max-force\n", p);
    PrefixExtend(lead, lead + "energy\n" + p + "max-force\n" + p, "rms-force\n");
    PrefixExtend(lead, lead + "energy\n" + p + "max-force\n" + p + "rms-force\n", p);
    PrefixExtend(lead, lead + "energy\n" + p + "max-force\n" + p + "rms-force\n" + p, GeometriesTag);
    PrefixExtend(lead, lead + "energy\n" + p + "max-force\n" + p + "rms-force\n" + p + GeometriesTag, "\n");
  }

  /** The text starts with "[MOLDEN FORMAT]\n[N_GEO]\n", the decimal
      number of geometries, "\n" and "[GEOCONV]\n". */
  lemma MoldenTextBegins<G>(cartesianList: seq<G>, sortIndex: bool, sortByIndex: G -> G,
                            toXyz: G -> string)
    ensures var lead := "[MOLDEN FORMAT]\n[N_GEO]\n" + NatToString(|cartesianList|) + "\n[GEOCONV]\n";
            var output := MoldenText(cartesianList, sortIndex, sortByIndex, toXyz);
            |lead| <= |output| && output[..|lead|] == lead
  {
    var k := |cartesianList|;
    LeadText(k);
    HeaderBegins(k);
    PrefixExtend(Lead(k), Header(k), Join(Coordinates(cartesianList, sortIndex, sortByIndex, toXyz), "\n"));
  }

  /** What a call of `to_molden` leaves behind: the files (a path to
      contents map) and either the returned text, nothing, or the
      FileExistsError that `open(buf, mode='x')` raises. */
  datatype Delivery =
    | Returned(files: map<string, string>, output: string)
    | Written(files: map<string, string>)
    | FileExistsError(files: map<string, string>, path: string)

  /** `to_molden`: without a destination the text is returned and no file
      changes; with one, the destination ends up holding exactly the text,
      unless overwriting is disallowed and it exists already, in which case
      the call fails and nothing changes. Other paths are never touched. */
  function ToMolden<G>(files: map<string, string>, cartesianList: seq<G>, buf: Option<string>,
                       sortIndex: bool, overwrite: bool, sortByIndex: G -> G,
                       toXyz: G -> string): (d: Delivery)
    ensures buf.None? ==> d == Returned(files, MoldenText(cartesianList, sortIndex, sortByIndex, toXyz))
    ensures d.FileExistsError? <==> buf.Some? && !overwrite && buf.value in files
    ensures d.FileExistsError? ==> d.files == files && d.path == buf.value
    ensures d.Written? <==> buf.Some? && (overwrite || buf.value !in files)
    ensures d.Written? ==>
              && buf.value in d.files
              && d.files[buf.value] == MoldenText(cartesianList, sortIndex, sortByIndex, toXyz)
              && (forall p :: p != buf.value ==> (p in d.files <==> p in files))
              && (forall p :: p != buf.value && p in files ==> d.files[p] == files[p])
  {
    var output := MoldenText(cartesianList, sortIndex, sortByIndex, toXyz);
    match buf
    case None => Returned(files, output)
    case Some(path) =>
      if overwrite || path !in files then Written(files[path := output])
      else FileExistsError(files, path)
  }

  // ---------------------------------------------------------------------
  // The line layout of to_molden's output

  /** `k` lines that each read "1". */
  function Ones(k: nat): seq<string> {
    seq(k, _ => "1")
  }

  function LeadLines(k: nat): seq<string> {
    [MoldenFormatTag, NGeoTag, NatToString(k), GeoConvTag]
  }

  /** The header's lines as a reader sees them, one entry per line. */
  function HeaderLines(k: nat): seq<string> {
    LeadLines(k) + ["energy"] + Ones(k) + ["max-force"] + Ones(k) + ["rms-force"] + Ones(k)
    + [GeometriesTag]
  }

  /** Lines written out, each followed by a newline. */
  function Unlines(ls: seq<string>): string
    decreases |ls|
  {
    if |ls| == 0 then "" else ls[0] + "\n" + Unlines(ls[1..])
  }

  lemma {:induction false} UnlinesAppend(a: seq<string>, b: seq<string>)
    ensures Unlines(a + b) == Unlines(a) + Unlines(b)
    decreases |a|
  {
    if |a| == 0 {
      assert a + b == b;
    } else {
      UnlinesAppend(a[1..], b);
      assert (a + b)[1..] == a[1..] + b;
    }
  }

  lemma {:induction false} UnlinesOnes(k: nat)
    ensures Unlines(Ones(k)) == Placeholders(k)
  {
    if k > 0 {
      UnlinesOnes(k - 1);
      assert Ones(k)[1..] == Ones(k - 1);
    }
  }

  /** Splitting text that starts with whole lines gives those lines first. */
  lemma {:induction false} SplitAfterLines(ls: seq<string>, rest: string)
    requires forall i :: 0 <= i < |ls| ==> '\n' !in ls[i]
    ensures Split(Unlines(ls) + rest, '\n') == ls + Split(rest, '\n')
    decreases |ls|
  {
    if |ls| > 0 {
      var first, others := ls[0], ls[1..];
      var tail := Unlines(others) + rest;
      var after := Split(rest, '\n');
      assert forall i :: 0 <= i < |others| ==> others[i] == ls[i + 1];
      calc {
        Split(Unlines(ls) + rest, '\n');
        { assert Unlines(ls) + rest == first + ['\n'] + tail; }
        Split(first + ['\n'] + tail, '\n');
        { SplitFirstLine(first, '\n', tail); }
        [first] + Split(tail, '\n');
        { SplitAfterLines(others, rest); }
        [first] + (others + after);
        { assert ls == [first] + others; }
        ls + after;
      }
    } else {
      assert Unlines(ls) + rest == rest;
    }
  }

  lemma UnlinesLead(k: nat)
    ensures Unlines(LeadLines(k)) == Lead(k)
  {
    var a := LeadLines(k);
    assert Unlines(a[3..]) == GeoConvTag + "\n";
    assert Unlines(a[2..]) == NatToString(k) + "\n" + GeoConvTag + "\n";
    assert Unlines(a[1..]) == NGeoTag + "\n" + NatToString(k) + "\n" + GeoConvTag + "\n";
  }

  /** Appending one line to written lines. */
  lemma UnlinesSnoc(ls: seq<string>, line: string, text: string, lineText: string)
    requires Unlines(ls) == text && lineText == line + "\n"
    ensures Unlines(ls + [line]) == text + lineText
  {
    UnlinesAppend(ls, [line]);
    assert Unlines([line]) == line + "\n";
  }

  /** Appending k placeholder lines to written lines. */
  lemma UnlinesSnocOnes(ls: seq<string>, k: nat, text: string)
    requires Unlines(ls) == text
    ensures Unlines(ls + Ones(k)) == text + Placeholders(k)
  {
    UnlinesAppend(ls, Ones(k));
    UnlinesOnes(k);
  }

  lemma HeaderIsLines(k: nat)
    ensures Header(k) == Unlines(HeaderLines(k))
  {
    var h0 := LeadLines(k);
    UnlinesLead(k);
    var h1 := h0 + ["energy"];
    UnlinesSnoc(h0, "energy", Lead(k), "energy\n");
    var h2 := h1 + Ones(k);
    UnlinesSnocOnes(h1, k, Lead(k) + "energy\n");
    var h3 := h2 + ["max-force"];
    UnlinesSnoc(h2, "max-force", Lead(k) + "energy\n" + Placeholders(k), "max-force\n");
    var h4 := h3 + Ones(k);
    UnlinesSnocOnes(h3, k, Lead(k) + "energy\n" + Placeholders(k) + "max-force\n");
    var h5 := h4 + ["rms-force"];
    UnlinesSnoc(h4, "rms-force", Lead(k) + "energy\n" + Placeholders(k) + "max-force\n" + Placeholders(k),
                "rms-force\n");
    var h6 := h5 + Ones(k);
    UnlinesSnocOnes(h5, k, Lead(k) + "energy\n" + Placeholders(k) + "max-force\n" + Placeholders(k)
                           + "rms-force\n");
    UnlinesSnoc(h6, GeometriesTag,
                Lead(k) + "energy\n" + Placeholders(k) + "max-force\n" + Placeholders(k)
                + "rms-force\n" + Placeholders(k),
                GeometriesTag + "\n");
  }

  /** Where each header line sits. */
  lemma HeaderLayout(k: nat)
    ensures var h := HeaderLines(k);
            && |h| == 8 + 3 * k
            && h[0] == MoldenFormatTag && h[1] == NGeoTag && h[2] == NatToString(k) && h[3] == GeoConvTag
            && h[4] == "energy" && h[5 + k] == "max-force" && h[6 + 2 * k] == "rms-force"
            && h[7 + 3 * k] == GeometriesTag
            && (forall j :: 5 <= j < 5 + k ==> h[j] == "1")
            && (forall j :: 6 + k <= j < 6 + 2 * k ==> h[j] == "1")
            && (forall j :: 7 + 2 * k <= j < 7 + 3 * k ==> h[j] == "1")
  {
    var h := HeaderLines(k);
    var h1 := LeadLines(k) + ["energy"];
    var h2 := h1 + Ones(k);
    var h3 := h2 + ["max-force"];
    var h4 := h3 + Ones(k);
    var h5 := h4 + ["rms-force"];
    var h6 := h5 + Ones(k);
    assert h == h6 + [GeometriesTag];
    assert |h1| == 5 && |h2| == 5 + k && |h3| == 6 + k && |h4| == 6 + 2 * k && |h5| == 7 + 2 * k;
  }

  /** No header line holds a newline. */
  lemma HeaderLinesAreLines(k: nat)
    ensures forall i :: 0 <= i < |HeaderLines(k)| ==> '\n' !in HeaderLines(k)[i]
  {
    var h := HeaderLines(k);
    HeaderLayout(k);
    forall i | 0 <= i < |h| ensures '\n' !in h[i] {
      if i == 2 {
        var s := NatToString(k);
        assert forall j :: 0 <= j < |s| ==> IsDigit(s[j]);
      } else if i != 0 && i != 1 && i != 3 && i != 4 && i != 5 + k && i != 6 + 2 * k && i != 7 + 3 * k {
        assert h[i] == "1";
      }
    }
  }

  /** The lines of `to_molden`'s output: the header's lines, then the lines
      of the geometries' texts joined by newlines. */
  lemma MoldenLines<G>(cartesianList: seq<G>, sortIndex: bool, sortByIndex: G -> G, toXyz: G -> string)
    ensures Split(MoldenText(cartesianList, sortIndex, sortByIndex, toXyz), '\n')
            == HeaderLines(|cartesianList|)
               + Split(Join(Coordinates(cartesianList, sortIndex, sortByIndex, toXyz), "\n"), '\n')
  {
    var k := |cartesianList|;
    HeaderIsLines(k);
    HeaderLinesAreLines(k);
    SplitAfterLines(HeaderLines(k), Join(Coordinates(cartesianList, sortIndex, sortByIndex, toXyz), "\n"));
  }

  /** The three per-step blocks each hold exactly one "1" line per geometry,
      whatever the geometries are, and the geometries' lines follow the
      `[GEOMETRIES] (XYZ)` line. */
  lemma PlaceholderBlocks<G>(cartesianList: seq<G>, sortIndex: bool, sortByIndex: G -> G,
                             toXyz: G -> string)
    ensures var k := |cartesianList|;
            var ls := Split(MoldenText(cartesianList, sortIndex, sortByIndex, toXyz), '\n');
            && |ls| >= 8 + 3 * k
            && ls[0] == MoldenFormatTag && ls[1] == NGeoTag && ls[2] == NatToString(k)
            && ls[3] == GeoConvTag
            && ls[4] == "energy" && ls[5 + k] == "max-force" && ls[6 + 2 * k] == "rms-force"
            && (forall j :: 5 <= j < 5 + k ==> ls[j] == "1")
            && (forall j :: 6 + k <= j < 6 + 2 * k ==> ls[j] == "1")
            && (forall j :: 7 + 2 * k <= j < 7 + 3 * k ==> ls[j] == "1")
            && ls[7 + 3 * k] == GeometriesTag
            && ls[8 + 3 * k..]
               == Split(Join(Coordinates(cartesianList, sortIndex, sortByIndex, toXyz), "\n"), '\n')
  {
    var k := |cartesianList|;
    MoldenLines(cartesianList, sortIndex, sortByIndex, toXyz);
    HeaderLayout(k);
    var ls := Split(MoldenText(cartesianList, sortIndex, sortByIndex, toXyz), '\n');
    assert ls[..8 + 3 * k] == HeaderLines(k);
  }

  // ---------------------------------------------------------------------
  // from_molden

  /** What `readline()` returns at line p: the line, or "" past the end. */
  function LineAt(lines: seq<string>, p: nat): string {
    if p < |lines| then lines[p] else ""
  }

  /** The first line at or after `from` that strips to `tag`. */
  function FindLine(lines: seq<string>, from: nat, tag: string): (r: Option<nat>)
    ensures r.Some? ==> from <= r.value < |lines| && Strip(lines[r.value]) == tag
    decreases |lines| - from
  {
    if from >= |lines| then None
    else if Strip(lines[from]) == tag then Some(from)
    else FindLine(lines, from + 1, tag)
  }

  /** FindLine finds the first matching line, and misses only when there is
      none. */
  lemma {:induction false} FindLineFirst(lines: seq<string>, from: nat, tag: string)
    ensures var r := FindLine(lines, from, tag);
            && (r.Some? ==> forall q :: from <= q < r.value ==> Strip(lines[q]) != tag)
            && (r.None? ==> forall q :: from <= q < |lines| ==> Strip(lines[q]) != tag)
    decreases |lines| - from
  {
    if from < |lines| && Strip(lines[from]) != tag {
      FindLineFirst(lines, from + 1, tag);
    }
  }

  /** The file's two search loops stop: a `[N_GEO]` line exists and, when
      the count after it reads as an integer, a `[GEOMETRIES] (XYZ)` line
      follows the count. On any other file `from_molden` reads past the end
      for ever. */
  predicate SearchesEnd(lines: seq<string>) {
    var ngeo := FindLine(lines, 0, NGeoTag);
    && ngeo.Some?
    && (ParseInt(Strip(LineAt(lines, ngeo.value + 1))).Some? ==>
          FindLine(lines, ngeo.value + 2, GeometriesTag).Some?)
  }

  /** Lines a to b, cut off at the end of the file (reads at end of file
      add nothing to a geometry's text). */
  function Slice(lines: seq<string>, a: nat, b: nat): (s: seq<string>)
    requires a <= b
    ensures |s| <= b - a
  {
    var lo := if a < |lines| then a else |lines|;
    var hi := if b < |lines| then b else |lines|;
    lines[lo..hi]
  }

  /** `count` blocks of `width` lines read one after the other from `pos`. */
  function ReadBlocks(lines: seq<string>, pos: nat, width: nat, count: nat): (blocks: seq<seq<string>>)
    ensures |blocks| == count
    decreases count
  {
    if count == 0 then []
    else [Slice(lines, pos, pos + width)] + ReadBlocks(lines, pos + width, width, count - 1)
  }

  /** `range(n)` is empty for n <= 0. */
  function Clamp(n: int): nat {
    if n < 0 then 0 else n
  }

  /** The ValueError `int()` raises, with the line it could not read. */
  datatype MoldenError = InvalidCount(line: string)

  /** The blocks read after the `[GEOMETRIES] (XYZ)` line at geo: the
      atom count is read, and not consumed, from the next line, then count
      blocks of (atom count + 2) lines follow from there. */
  function BlocksAfter(lines: seq<string>, geo: nat, count: int): Result<seq<seq<string>>, MoldenError> {
    var atomLine := LineAt(lines, geo + 1);
    match ParseInt(Strip(atomLine))
    case None => Err(InvalidCount(atomLine))
    case Some(atoms) => Ok(ReadBlocks(lines, geo + 1, Clamp(atoms + 2), Clamp(count)))
  }

  /** The line blocks `from_molden` hands to `Cartesian.from_xyz`: after the
      first `[N_GEO]` line comes the number of geometries; after the next
      `[GEOMETRIES] (XYZ)` line, N_GEO blocks of (atom count + 2) lines. */
  function GeometryBlocks(lines: seq<string>): Result<seq<seq<string>>, MoldenError>
    requires SearchesEnd(lines)
  {
    BlocksAfterCount(lines, FindLine(lines, 0, NGeoTag).value)
  }

  /** GeometryBlocks from the `[N_GEO]` line on. */
  function BlocksAfterCount(lines: seq<string>, ngeo: nat): Result<seq<seq<string>>, MoldenError>
    requires ParseInt(Strip(LineAt(lines, ngeo + 1))).Some? ==> FindLine(lines, ngeo + 2, GeometriesTag).Some?
  {
    var countLine := LineAt(lines, ngeo + 1);
    match ParseInt(Strip(countLine))
    case None => Err(InvalidCount(countLine))
    case Some(count) => BlocksAfter(lines, FindLine(lines, ngeo + 2, GeometriesTag).value, count)
  }

  /** `Cartesian.from_xyz` applied to every block, in order. */
  function FromXyzAll<G>(blocks: seq<seq<string>>, fromXyz: seq<string> -> G): seq<G> {
    seq(|blocks|, i requires 0 <= i < |blocks| => fromXyz(blocks[i]))
  }

  /** What `from_molden` returns: every block handed to `from_xyz`, in
      file order, or the error of the first count that does not read. */
  function FromMoldenSpec<G>(inputfile: string, fromXyz: seq<string> -> G): Result<seq<G>, MoldenError>
    requires SearchesEnd(Split(inputfile, '\n'))
  {
    match GeometryBlocks(Split(inputfile, '\n'))
    case Err(e) => Err(e)
    case Ok(blocks) => Ok(FromXyzAll(blocks, fromXyz))
  }

  /** `from_molden`'s result once the `[N_GEO]` line is found and the
      count after it does not read. */
  lemma CountUnreadable<G>(inputfile: string, fromXyz: seq<string> -> G, p: nat)
    requires var f := Split(inputfile, '\n');
             SearchesEnd(f) && p == FindLine(f, 0, NGeoTag).value + 1
             && ParseInt(Strip(LineAt(f, p))).None?
    ensures FromMoldenSpec(inputfile, fromXyz) == Err(InvalidCount(LineAt(Split(inputfile, '\n'), p)))
  {
    assert GeometryBlocks(Split(inputfile, '\n')) == BlocksAfterCount(Split(inputfile, '\n'), p - 1);
  }

  /** GeometryBlocks, once both tag lines are known and the count reads. */
  lemma CountRead(lines: seq<string>, ngeo: nat, count: int, geo: nat)
    requires SearchesEnd(lines) && FindLine(lines, 0, NGeoTag) == Some(ngeo)
    requires ParseInt(Strip(LineAt(lines, ngeo + 1))) == Some(count)
    requires FindLine(lines, ngeo + 2, GeometriesTag) == Some(geo)
    ensures GeometryBlocks(lines) == BlocksAfter(lines, geo, count)
  {
    assert GeometryBlocks(lines) == BlocksAfterCount(lines, ngeo);
  }

  /** Where the reader stands after the count following `[N_GEO]` has
      read: `pos` is the next line, and the `[GEOMETRIES] (XYZ)` line lies
      at or after it. */
  predicate CountReadAt(f: seq<string>, pos: nat, count: int) {
    && SearchesEnd(f)
    && pos == FindLine(f, 0, NGeoTag).value + 2
    && ParseInt(Strip(LineAt(f, pos - 1))) == Some(count)
  }

  /** `from_molden`'s result once both tag lines are found and both counts
      read; `next` is the line after `[GEOMETRIES] (XYZ)`. */
  lemma CountsRead<G>(inputfile: string, fromXyz: seq<string> -> G, pos: nat, count: int, next: nat, atoms: int)
    requires CountReadAt(Split(inputfile, '\n'), pos, count)
    requires FindLine(Split(inputfile, '\n'), pos, GeometriesTag).Some?
    requires next == FindLine(Split(inputfile, '\n'), pos, GeometriesTag).value + 1
    requires ParseInt(Strip(LineAt(Split(inputfile, '\n'), next))) == Some(atoms)
    ensures FromMoldenSpec(inputfile, fromXyz)
            == Ok(FromXyzAll(ReadBlocks(Split(inputfile, '\n'), next, Clamp(atoms + 2), Clamp(count)), fromXyz))
  {
    BlocksRead(Split(inputfile, '\n'), pos, count, next, atoms);
  }

  /** GeometryBlocks once both tag lines are found and both counts read. */
  lemma BlocksRead(f: seq<string>, pos: nat, count: int, next: nat, atoms: int)
    requires CountReadAt(f, pos, count)
    requires FindLine(f, pos, GeometriesTag).Some?
    requires next == FindLine(f, pos, GeometriesTag).value + 1
    requires ParseInt(Strip(LineAt(f, next))) == Some(atoms)
    ensures GeometryBlocks(f) == Ok(ReadBlocks(f, next, Clamp(atoms + 2), Clamp(count)))
  {
    CountRead(f, pos - 2, count, next - 1);
    assert BlocksAfter(f, next - 1, count) == Ok(ReadBlocks(f, next, Clamp(atoms + 2), Clamp(count)));
  }

  /** `from_molden`'s result once both tag lines are found and the atom
      count does not read. */
  lemma AtomsUnreadable<G>(inputfile: string, fromXyz: seq<string> -> G, pos: nat, count: int, next: nat)
    requires CountReadAt(Split(inputfile, '\n'), pos, count)
    requires FindLine(Split(inputfile, '\n'), pos, GeometriesTag).Some?
    requires next == FindLine(Split(inputfile, '\n'), pos, GeometriesTag).value + 1
    requires ParseInt(Strip(LineAt(Split(inputfile, '\n'), next))).None?
    ensures FromMoldenSpec(inputfile, fromXyz) == Err(InvalidCount(LineAt(Split(inputfile, '\n'), next)))
  {
    CountRead(Split(inputfile, '\n'), pos - 2, count, next - 1);
  }

  /** Once the count has read, the `[GEOMETRIES] (XYZ)` line is there to be
      found. */
  lemma GeometriesFound(f: seq<string>, pos: nat, count: int)
    requires CountReadAt(f, pos, count)
    ensures FindLine(f, pos, GeometriesTag).Some?
  {
  }

  /** One more line read into a block. */
  lemma SliceStep(lines: seq<string>, a: nat, b: nat)
    requires a <= b
    ensures Slice(lines, a, b + 1) == Slice(lines, a, b) + (if b < |lines| then [lines[b]] else [])
  {
    if b < |lines| {
      assert lines[a..b + 1] == lines[a..b] + [lines[b]];
    }
  }

  /** `from_molden`: scans for `[N_GEO]`, reads the count, scans on for
      `[GEOMETRIES] (XYZ)`, peeks at the atom count and seeks back, then
      reads the geometries block after block. `fromXyz` is
      `Cartesian.from_xyz` with the caller's `start_index` and `get_bonds`. */
  method FromMolden<G>(inputfile: string, fromXyz: seq<string> -> G) returns (r: Result<seq<G>, MoldenError>)
    requires SearchesEnd(Split(inputfile, '\n'))
    ensures r == FromMoldenSpec(inputfile, fromXyz)
  {
    var f := Split(inputfile, '\n');
    var pos := SkipPast(f, 0, NGeoTag);
    var countLine := LineAt(f, pos);
    var count := ParseInt(Strip(countLine));
    if count.None? {
      CountUnreadable(inputfile, fromXyz, pos);
      return Err(InvalidCount(countLine));
    }
    r := ReadAfterCount(inputfile, fromXyz, f, pos + 1, count.value);
  }

  /** The rest of `from_molden`, once the count after `[N_GEO]` has read:
      `pos` is the line after that count. */
  method ReadAfterCount<G>(inputfile: string, fromXyz: seq<string> -> G, f: seq<string>, pos: nat,
                           numberOfMolecules: int) returns (r: Result<seq<G>, MoldenError>)
    requires f == Split(inputfile, '\n') && CountReadAt(f, pos, numberOfMolecules)
    ensures r == FromMoldenSpec(inputfile, fromXyz)
  {
    GeometriesFound(f, pos, numberOfMolecules);
    var next := SkipPast(f, pos, GeometriesTag);
    // the atom count is peeked at: read, then the file position is set back
    var atomLine := LineAt(f, next);
    var atoms := ParseInt(Strip(atomLine));
    if atoms.None? {
      AtomsUnreadable(inputfile, fromXyz, pos, numberOfMolecules, next);
      return Err(InvalidCount(atomLine));
    }
    var numberOfAtoms := atoms.value;
    CountsRead(inputfile, fromXyz, pos, numberOfMolecules, next, numberOfAtoms);
    var listOfCartesians := ReadGeometries(f, next, numberOfMolecules, numberOfAtoms, fromXyz);
    r := Ok(listOfCartesians);
  }

  /** The scanning loops of `from_molden`: read line after line until one
      strips to `tag`; the position is then just past that line. */
  method SkipPast(f: seq<string>, pos0: nat, tag: string) returns (pos: nat)
    requires FindLine(f, pos0, tag).Some?
    ensures pos == FindLine(f, pos0, tag).value + 1
  {
    ghost var target := FindLine(f, pos0, tag).value;
    pos := pos0;
    var found := false;
    while !found
      invariant !found ==> pos0 <= pos <= target && FindLine(f, pos, tag) == Some(target)
      invariant found ==> pos == target + 1
      decreases if found then 0 else target + 1 - pos
    {
      var line := LineAt(f, pos);
      pos := pos + 1;
      if Strip(line) == tag {
        found := true;
      }
    }
  }

  /** The final loop of `from_molden`: `numberOfMolecules` times, read
      `numberOfAtoms + 2` lines (nothing past the end of the file) and
      hand them to `from_xyz`. */
  method ReadGeometries<G>(f: seq<string>, pos0: nat, numberOfMolecules: int, numberOfAtoms: int,
                           fromXyz: seq<string> -> G) returns (listOfCartesians: seq<G>)
    ensures var blocks := ReadBlocks(f, pos0, Clamp(numberOfAtoms + 2), Clamp(numberOfMolecules));
            listOfCartesians == FromXyzAll(blocks, fromXyz)
  {
    ghost var w := Clamp(numberOfAtoms + 2);
    ghost var blocks := ReadBlocks(f, pos0, w, Clamp(numberOfMolecules));
    var pos := pos0;
    listOfCartesians := [];
    var i := 0;
    while i < numberOfMolecules
      invariant 0 <= i <= Clamp(numberOfMolecules)
      invariant pos == pos0 + Span(w, i)
      invariant |listOfCartesians| == i
      invariant forall k :: 0 <= k < i ==> listOfCartesians[k] == fromXyz(blocks[k])
    {
      var start := pos;
      var moleculeIn: seq<string> := [];
      var j := 0;
      while j < numberOfAtoms + 2
        invariant 0 <= j <= w
        invariant pos == start + j
        invariant moleculeIn == Slice(f, start, pos)
      {
        SliceStep(f, start, pos);
        if pos < |f| {
          moleculeIn := moleculeIn + [f[pos]];
        }
        pos := pos + 1;
        j := j + 1;
      }
      assert pos == start + w;
      ReadBlocksAt(f, pos0, w, Clamp(numberOfMolecules), i);
      assert moleculeIn == blocks[i];
      listOfCartesians := listOfCartesians + [fromXyz(moleculeIn)];
      i := i + 1;
    }
  }

  // ---------------------------------------------------------------------
  // Properties of the reader

  /** `from_molden` yields exactly as many geometries as the integer after
      the first `[N_GEO]` line says (none for a negative count). */
  lemma GeometryCount(lines: seq<string>)
    requires SearchesEnd(lines)
    requires GeometryBlocks(lines).Ok?
    ensures var ngeo := FindLine(lines, 0, NGeoTag).value;
            |GeometryBlocks(lines).value| == Clamp(ParseInt(Strip(LineAt(lines, ngeo + 1))).value)
  {
    var ngeo := FindLine(lines, 0, NGeoTag).value;
    assert GeometryBlocks(lines) == BlocksAfterCount(lines, ngeo);
    var count := ParseInt(Strip(LineAt(lines, ngeo + 1))).value;
    var geo := FindLine(lines, ngeo + 2, GeometriesTag).value;
    assert BlocksAfterCount(lines, ngeo) == BlocksAfter(lines, geo, count);
  }

  /** `count * width`, counted out block by block. */
  function Span(width: nat, count: nat): nat {
    if count == 0 then 0 else width + Span(width, count - 1)
  }

  lemma {:induction false} SpanIsProduct(width: nat, count: nat)
    ensures Span(width, count) == count * width
  {
    if count > 0 {
      SpanIsProduct(width, count - 1);
    }
  }

  /** Block i of a sequential read is the i-th window of `width` lines. */
  lemma {:induction false} ReadBlocksAt(lines: seq<string>, pos: nat, width: nat, count: nat, i: nat)
    requires i < count
    ensures ReadBlocks(lines, pos, width, count)[i]
            == Slice(lines, pos + Span(width, i), pos + Span(width, i + 1))
    decreases count
  {
    if i > 0 {
      ReadBlocksAt(lines, pos + width, width, count - 1, i - 1);
    }
  }

  /** Inside the file, the blocks are consecutive and do not overlap: laid
      end to end they are exactly the `count * width` lines from `pos`. */
  lemma {:induction false} ReadBlocksTile(lines: seq<string>, pos: nat, width: nat, count: nat)
    requires pos + Span(width, count) <= |lines|
    ensures Flatten(ReadBlocks(lines, pos, width, count)) == lines[pos..pos + Span(width, count)]
    decreases count
  {
    if count > 0 {
      var e := pos + Span(width, count);
      var m := pos + width;
      ReadBlocksTile(lines, m, width, count - 1);
      assert ReadBlocks(lines, pos, width, count)[1..] == ReadBlocks(lines, m, width, count - 1);
      assert lines[pos..e] == lines[pos..m] + lines[m..e];
    }
  }

  // ---------------------------------------------------------------------
  // Reading back what to_molden wrote

  /** The shape `to_xyz` gives a geometry of n atoms: n + 2 lines, the first
      holding the atom count. */
  predicate XyzShaped(text: string, n: nat) {
    var ls := Split(text, '\n');
    |ls| == n + 2 && ParseInt(ls[0]) == Some(n)
  }

  /** FindLine stops at the first line that strips to the tag. */
  lemma {:induction false} FindLineAt(lines: seq<string>, from: nat, tag: string, p: nat)
    requires from <= p < |lines| && Strip(lines[p]) == tag
    requires forall q :: from <= q < p ==> Strip(lines[q]) != tag
    ensures FindLine(lines, from, tag) == Some(p)
    decreases p - from
  {
    if from < p {
      FindLineAt(lines, from + 1, tag, p);
    }
  }

  /** Reading equal-width blocks back from their concatenation. */
  lemma {:induction false} ReadBlocksOfFlatten(pre: seq<string>, ps: seq<seq<string>>, width: nat)
    requires forall i :: 0 <= i < |ps| ==> |ps[i]| == width
    ensures ReadBlocks(pre + Flatten(ps), |pre|, width, |ps|) == ps
    decreases |ps|
  {
    if |ps| > 0 {
      var lines := pre + Flatten(ps);
      assert lines == (pre + ps[0]) + Flatten(ps[1..]);
      assert Slice(lines, |pre|, |pre| + width) == ps[0];
      ReadBlocksOfFlatten(pre + ps[0], ps[1..], width);
    }
  }

  lemma HeaderLinesNotGeometriesTag(k: nat, q: nat)
    requires 3 <= q < 7 + 3 * k
    ensures Strip(HeaderLines(k)[q]) != GeometriesTag
  {
    HeaderLayout(k);
    var l := HeaderLines(k)[q];
    assert l in [GeoConvTag, "energy", "1", "max-force", "rms-force"];
    StripIdentity(l);
  }

  /** On anything that starts with the header's lines, the reader finds
      `[N_GEO]` on line 1, reads k from line 2, and finds
      `[GEOMETRIES] (XYZ)` on line 7 + 3k. */
  lemma HeaderSearch(k: nat, tail: seq<string>)
    ensures var lines := HeaderLines(k) + tail;
            && FindLine(lines, 0, NGeoTag) == Some(1)
            && ParseInt(Strip(LineAt(lines, 2))) == Some(k)
            && FindLine(lines, 3, GeometriesTag) == Some(7 + 3 * k)
            && SearchesEnd(lines)
  {
    var lines := HeaderLines(k) + tail;
    HeaderLayout(k);
    assert lines[0] == MoldenFormatTag && lines[1] == NGeoTag && lines[2] == NatToString(k);
    StripIdentity(MoldenFormatTag);
    StripIdentity(NGeoTag);
    FindLineAt(lines, 0, NGeoTag, 1);
    NatToStringStripped(k);
    ParseIntOfNatToString(k);
    StripIdentity(GeometriesTag);
    forall q | 3 <= q < 7 + 3 * k ensures Strip(lines[q]) != GeometriesTag {
      HeaderLinesNotGeometriesTag(k, q);
    }
    FindLineAt(lines, 3, GeometriesTag, 7 + 3 * k);
  }

  /** After the header, a readable atom count n gives k blocks of n + 2
      lines from the line after `[GEOMETRIES] (XYZ)`... */
  lemma BlocksAfterHeader(k: nat, tail: seq<string>, atoms: int)
    requires ParseInt(Strip(LineAt(HeaderLines(k) + tail, 8 + 3 * k))) == Some(atoms)
    ensures var lines := HeaderLines(k) + tail;
            && SearchesEnd(lines)
            && GeometryBlocks(lines) == Ok(ReadBlocks(lines, 8 + 3 * k, Clamp(atoms + 2), k))
  {
    HeaderSearch(k, tail);
    CountRead(HeaderLines(k) + tail, 1, k, 7 + 3 * k);
  }

  /** ... and an unreadable one the ValueError for that line. */
  lemma NoBlocksAfterHeader(k: nat, tail: seq<string>)
    requires ParseInt(Strip(LineAt(HeaderLines(k) + tail, 8 + 3 * k))).None?
    ensures var lines := HeaderLines(k) + tail;
            && SearchesEnd(lines)
            && GeometryBlocks(lines) == Err(InvalidCount(LineAt(lines, 8 + 3 * k)))
  {
    HeaderSearch(k, tail);
    CountRead(HeaderLines(k) + tail, 1, k, 7 + 3 * k);
  }

  lemma HeaderLength(k: nat)
    ensures |HeaderLines(k)| == 8 + 3 * k
  {
  }

  /** The first line after a prefix is the first block's first line. */
  lemma FirstLineOfBlocks(pre: seq<string>, pieces: seq<seq<string>>)
    requires |pieces| >= 1 && |pieces[0]| >= 1
    ensures LineAt(pre + Flatten(pieces), |pre|) == pieces[0][0]
  {
    assert Flatten(pieces) == pieces[0] + Flatten(pieces[1..]);
  }

  /** The header followed by k blocks of n + 2 lines, the first headed by
      the atom count n, reads back as those blocks. */
  lemma ReadsBackBlocks(k: nat, pieces: seq<seq<string>>, n: nat)
    requires |pieces| == k >= 1
    requires forall i :: 0 <= i < k ==> |pieces[i]| == n + 2
    requires ParseInt(pieces[0][0]) == Some(n)
    ensures var lines := HeaderLines(k) + Flatten(pieces);
            SearchesEnd(lines) && GeometryBlocks(lines) == Ok(pieces)
  {
    var hl := HeaderLines(k);
    HeaderLength(k);
    FirstLineOfBlocks(hl, pieces);
    StripTwice(pieces[0][0]);
    BlocksAfterHeader(k, Flatten(pieces), n);
    ReadBlocksOfFlatten(hl, pieces, n + 2);
  }

  /** A trajectory of geometries that all render to n+2 lines headed by
      the atom count reads back, block for block, as the rendered texts'
      lines, in list order. */
  lemma ReadsBackWhatItWrote<G>(cartesianList: seq<G>, sortIndex: bool,
                                sortByIndex: G -> G, toXyz: G -> string, n: nat)
    requires |cartesianList| >= 1
    requires forall i :: 0 <= i < |cartesianList| ==>
               XyzShaped(Coordinates(cartesianList, sortIndex, sortByIndex, toXyz)[i], n)
    ensures var lines := Split(MoldenText(cartesianList, sortIndex, sortByIndex, toXyz), '\n');
            var texts := Coordinates(cartesianList, sortIndex, sortByIndex, toXyz);
            && SearchesEnd(lines)
            && GeometryBlocks(lines)
               == Ok(seq(|texts|, i requires 0 <= i < |texts| => Split(texts[i], '\n')))
  {
    var texts := Coordinates(cartesianList, sortIndex, sortByIndex, toXyz);
    var pieces := seq(|texts|, i requires 0 <= i < |texts| => Split(texts[i], '\n'));
    MoldenLines(cartesianList, sortIndex, sortByIndex, toXyz);
    SplitOfJoin(texts, '\n');
    assert forall i :: 0 <= i < |texts| ==> |pieces[i]| == n + 2 by {
      forall i | 0 <= i < |texts| ensures |pieces[i]| == n + 2 {
        assert XyzShaped(texts[i], n);
      }
    }
    assert XyzShaped(texts[0], n);
    ReadsBackBlocks(|cartesianList|, pieces, n);
  }

  /** When `from_xyz` reads each rendered text back as the geometry it was
      rendered from, `from_molden` returns the trajectory `to_molden` was
      given (each geometry sorted by index when `sort_index` is set). */
  lemma MoldenRoundTrip<G>(cartesianList: seq<G>, sortIndex: bool, sortByIndex: G -> G,
                           toXyz: G -> string, fromXyz: seq<string> -> G, n: nat)
    requires |cartesianList| >= 1
    requires forall i :: 0 <= i < |cartesianList| ==>
               XyzShaped(Coordinates(cartesianList, sortIndex, sortByIndex, toXyz)[i], n)
    requires forall i :: 0 <= i < |cartesianList| ==>
               fromXyz(Split(Coordinates(cartesianList, sortIndex, sortByIndex, toXyz)[i], '\n'))
               == if sortIndex then sortByIndex(cartesianList[i]) else cartesianList[i]
    ensures var text := MoldenText(cartesianList, sortIndex, sortByIndex, toXyz);
            && SearchesEnd(Split(text, '\n'))
            && FromMoldenSpec(text, fromXyz)
               == Ok(seq(|cartesianList|, i requires 0 <= i < |cartesianList| =>
                       if sortIndex then sortByIndex(cartesianList[i]) else cartesianList[i]))
  {
    var text := MoldenText(cartesianList, sortIndex, sortByIndex, toXyz);
    var texts := Coordinates(cartesianList, sortIndex, sortByIndex, toXyz);
    var pieces := seq(|texts|, i requires 0 <= i < |texts| => Split(texts[i], '\n'));
    ReadsBackWhatItWrote(cartesianList, sortIndex, sortByIndex, toXyz, n);
    SpecOfBlocks(text, fromXyz, pieces);
    ParsedPieces(cartesianList, sortIndex, sortByIndex, toXyz, fromXyz);
  }

  /** from_xyz applied to the lines of every rendered geometry. */
  lemma ParsedPieces<G>(cartesianList: seq<G>, sortIndex: bool, sortByIndex: G -> G,
                        toXyz: G -> string, fromXyz: seq<string> -> G)
    requires forall i :: 0 <= i < |cartesianList| ==>
               fromXyz(Split(Coordinates(cartesianList, sortIndex, sortByIndex, toXyz)[i], '\n'))
               == if sortIndex then sortByIndex(cartesianList[i]) else cartesianList[i]
    ensures var texts := Coordinates(cartesianList, sortIndex, sortByIndex, toXyz);
            var pieces := seq(|texts|, i requires 0 <= i < |texts| => Split(texts[i], '\n'));
            FromXyzAll(pieces, fromXyz)
            == seq(|cartesianList|, i requires 0 <= i < |cartesianList| =>
                 if sortIndex then sortByIndex(cartesianList[i]) else cartesianList[i])
  {
    var texts := Coordinates(cartesianList, sortIndex, sortByIndex, toXyz);
    var pieces := seq(|texts|, i requires 0 <= i < |texts| => Split(texts[i], '\n'));
    var read := FromXyzAll(pieces, fromXyz);
    var expected := seq(|cartesianList|, i requires 0 <= i < |cartesianList| =>
                      if sortIndex then sortByIndex(cartesianList[i]) else cartesianList[i]);
    forall i | 0 <= i < |cartesianList| ensures read[i] == expected[i] {
      assert read[i] == fromXyz(pieces[i]);
    }
    assert read == expected;
  }

  lemma SpecOfBlocks<G>(text: string, fromXyz: seq<string> -> G, blocks: seq<seq<string>>)
    requires SearchesEnd(Split(text, '\n')) && GeometryBlocks(Split(text, '\n')) == Ok(blocks)
    ensures FromMoldenSpec(text, fromXyz)
            == Ok(FromXyzAll(blocks, fromXyz))
  {
  }

  /** An empty trajectory does not read back: the line after
      `[GEOMETRIES] (XYZ)` is empty, and `int('')` fails. */
  lemma EmptyTrajectoryDoesNotReadBack<G>(sortIndex: bool, sortByIndex: G -> G, toXyz: G -> string)
    ensures var lines := Split(MoldenText([], sortIndex, sortByIndex, toXyz), '\n');
            SearchesEnd(lines) && GeometryBlocks(lines) == Err(InvalidCount(""))
  {
    MoldenLines([], sortIndex, sortByIndex, toXyz);
    assert Coordinates([], sortIndex, sortByIndex, toXyz) == [];
    assert Split(Join([], "\n"), '\n') == [""];
    HeaderLength(0);
    assert LineAt(HeaderLines(0) + [""], 8) == "";
    assert Strip("") == "";
    NoBlocksAfterHeader(0, [""]);
  }

  // ---------------------------------------------------------------------
  // isclose

  /** The first row of g with index i: `g.loc[i]` on a Cartesian. */
  function Lookup(g: Geometry, i: int): (r: Row)
    requires i in IndexSet(g)
    ensures r in g && r.index == i
  {
    if g[0].index == i then g[0]
    else
      assert forall r :: r in g && r != g[0] ==> r in g[1..];
      Lookup(g[1..], i)
  }

  /** `b.loc[a.index, :]`: b's rows taken in the order of a's index. */
  function Reindexed(b: Geometry, a: Geometry): Geometry
    requires IndexSet(a) <= IndexSet(b)
  {
    seq(|a|, k requires 0 <= k < |a| => Lookup(b, a[k].index))
  }

  /** The pretest: the same index set, and at every index of a the same
      element label in a and in b. */
  predicate Pretest(a: Geometry, b: Geometry) {
    && IndexSet(a) == IndexSet(b)
    && forall k :: 0 <= k < |a| ==> Lookup(b, a[k].index).atom == a[k].atom
  }

  function Abs(x: real): real {
    if x < 0.0 then -x else x
  }

  /** numpy's element-wise tolerance test: |x - y| <= atol + rtol * |y|. */
  predicate Close(x: real, y: real, rtol: real, atol: real) {
    Abs(x - y) <= atol + rtol * Abs(y)
  }

  predicate RowsClose(p: Row, q: Row, rtol: real, atol: real) {
    Close(p.x, q.x, rtol, atol) && Close(p.y, q.y, rtol, atol) && Close(p.z, q.z, rtol, atol)
  }

  /** `np.allclose` on the two location arrays, row by row. */
  predicate AllClose(a: Geometry, b: Geometry, rtol: real, atol: real)
    requires |a| == |b|
  {
    forall k :: 0 <= k < |a| ==> RowsClose(a[k], b[k], rtol, atol)
  }

  /** `isclose(a, b, align=False, rtol, atol)`: false when the pretest
      fails, otherwise `np.allclose` of a's locations and b's locations
      taken in a's index order. */
  function IsClose(a: Geometry, b: Geometry, rtol: real, atol: real): bool
    requires UniqueIndex(a) && UniqueIndex(b)
  {
    Pretest(a, b) && AllClose(a, Reindexed(b, a), rtol, atol)
  }

  /** In a Cartesian, the row with a given index is the one Lookup finds. */
  lemma {:induction false} LookupFinds(g: Geometry, q: Row)
    requires UniqueIndex(g) && q in g
    ensures q.index in IndexSet(g) && Lookup(g, q.index) == q
    decreases |g|
  {
    if g[0] != q {
      assert q in g[1..];
      assert g[0].index != q.index by {
        var j :| 0 <= j < |g| && g[j] == q;
        assert j != 0;
      }
      assert UniqueIndex(g[1..]) by {
        forall i, j | 0 <= i < |g| - 1 && 0 <= j < |g| - 1 && i != j
          ensures g[1..][i].index != g[1..][j].index
        {
          assert g[1..][i] == g[i + 1] && g[1..][j] == g[j + 1];
        }
      }
      LookupFinds(g[1..], q);
    }
  }

  /** In a Cartesian, the row of b at a's k-th index is the one Lookup
      finds. */
  lemma ReindexedRows(a: Geometry, b: Geometry)
    requires UniqueIndex(b) && IndexSet(a) <= IndexSet(b)
    ensures forall k, q :: 0 <= k < |a| && q in b && q.index == a[k].index ==> Reindexed(b, a)[k] == q
  {
    forall k, q | 0 <= k < |a| && q in b && q.index == a[k].index
      ensures Reindexed(b, a)[k] == q
    {
      LookupFinds(b, q);
    }
  }

  lemma CloseIsRowwise(a: Geometry, b: Geometry, rtol: real, atol: real)
    requires UniqueIndex(a) && UniqueIndex(b) && IsClose(a, b, rtol, atol)
    ensures forall p, q :: p in a && q in b && p.index == q.index ==>
                             p.atom == q.atom && RowsClose(p, q, rtol, atol)
  {
    ReindexedRows(a, b);
    forall p, q | p in a && q in b && p.index == q.index
      ensures p.atom == q.atom && RowsClose(p, q, rtol, atol)
    {
      var k :| 0 <= k < |a| && a[k] == p;
      assert Reindexed(b, a)[k] == q;
    }
  }

  lemma RowwiseIsClose(a: Geometry, b: Geometry, rtol: real, atol: real)
    requires UniqueIndex(a) && UniqueIndex(b) && IndexSet(a) == IndexSet(b)
    requires forall p, q :: p in a && q in b && p.index == q.index ==>
                              p.atom == q.atom && RowsClose(p, q, rtol, atol)
    ensures IsClose(a, b, rtol, atol)
  {
    var bb := Reindexed(b, a);
    forall k | 0 <= k < |a|
      ensures Lookup(b, a[k].index).atom == a[k].atom && RowsClose(a[k], bb[k], rtol, atol)
    {
      assert a[k] in a && Lookup(b, a[k].index) in b;
    }
  }

  /** isclose compares rows by index, not by position: it holds exactly when
      the index sets agree and every pair of rows of a and b with the same
      index carries the same label and coordinates within tolerance. */
  lemma IsCloseByIndex(a: Geometry, b: Geometry, rtol: real, atol: real)
    requires UniqueIndex(a) && UniqueIndex(b)
    ensures IsClose(a, b, rtol, atol) <==>
              && IndexSet(a) == IndexSet(b)
              && forall p, q :: p in a && q in b && p.index == q.index ==>
                                  p.atom == q.atom && RowsClose(p, q, rtol, atol)
  {
    if IsClose(a, b, rtol, atol) {
      assert Pretest(a, b);
      CloseIsRowwise(a, b, rtol, atol);
    } else if IndexSet(a) == IndexSet(b) && forall p, q :: p in a && q in b && p.index == q.index ==>
                                                            p.atom == q.atom && RowsClose(p, q, rtol, atol) {
      RowwiseIsClose(a, b, rtol, atol);
    }
  }

  /** isclose returns false, without failing, on mismatched index sets or
      on an index labelled differently in a and b. */
  lemma MismatchIsNotClose(a: Geometry, b: Geometry, rtol: real, atol: real)
    requires UniqueIndex(a) && UniqueIndex(b)
    requires IndexSet(a) != IndexSet(b)
             || exists p, q :: p in a && q in b && p.index == q.index && p.atom != q.atom
    ensures !IsClose(a, b, rtol, atol)
  {
    IsCloseByIndex(a, b, rtol, atol);
  }

  /** The order of b's rows does not matter. */
  lemma IsCloseIgnoresRowOrder(a: Geometry, b: Geometry, b': Geometry, rtol: real, atol: real)
    requires UniqueIndex(a) && UniqueIndex(b) && UniqueIndex(b')
    requires multiset(b) == multiset(b')
    ensures IsClose(a, b, rtol, atol) == IsClose(a, b', rtol, atol)
  {
    IsCloseByIndex(a, b, rtol, atol);
    IsCloseByIndex(a, b', rtol, atol);
    assert forall q :: q in b <==> q in multiset(b);
    assert forall q :: q in b' <==> q in multiset(b');
    assert IndexSet(b) == IndexSet(b');
  }

  /** With non-negative tolerances every geometry is close to itself. */
  lemma IsCloseReflexive(a: Geometry, rtol: real, atol: real)
    requires UniqueIndex(a) && rtol >= 0.0 && atol >= 0.0
    ensures IsClose(a, a, rtol, atol)
  {
    forall k | 0 <= k < |a| ensures Lookup(a, a[k].index) == a[k] {
      LookupFinds(a, a[k]);
    }
    var aa := Reindexed(a, a);
    forall k | 0 <= k < |a| ensures RowsClose(a[k], aa[k], rtol, atol) {
      assert aa[k] == a[k];
    }
  }
}
