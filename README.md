# chemcoord Molden I/O and vibrations in Dafny

This project models two parts of chemcoord, a Python package for molecular coordinates:

- **The Molden trajectory functions of `xyz_functions.py`.**
  - `to_molden` writes a list of Cartesians as one Molden file. The file holds a fixed header and then one XYZ block per geometry.
  - `from_molden` reads such a file back: it looks for the `[N_GEO]` line, reads the number of geometries after it, looks for the `[GEOMETRIES] (XYZ)` line, peeks at the atom count, and then reads that many blocks of `atoms + 2` lines; lines after them are ignored.
  - `isclose` compares two Cartesians by their index, with `align=False`.
- **The Molden frequency reader of `vibration.py`.**
  - `CartesianVibration._partition_molden` splits a file into its `[...]` sections. Only the recognised sections keep a body.
  - `_get_molecule` reads one block of normal coordinates against the reference geometry.
  - `read_molden` is modelled together with its local generator `get_chunks`. It builds the frequency table, the reference geometry and the displacement of each mode that `exclude_trans_rot` keeps (none when it is False).
  - `ZmatVibration.from_cart_vib` turns each Cartesian displacement into a Z-matrix displacement.

How the model represents the program:

- **Files** are their text after `open(..., 'r')` has translated line ends: `"\r\n"` and a lone `"\r"` have already become `"\n"`. `readline()` is modelled by `Split(text, '\n')` in `XyzFunctions`, where reading past the end gives `""`, and by `ReadLines(text)` in `Vibration`, where each line keeps its newline. Writing a file is an update of a path-to-contents map.
- **The geometry container.** `to_molden` and `from_molden` treat it as a type parameter `G`; `sort_index`, `to_xyz` and `from_xyz` are function parameters.
- **`isclose` and the vibration code** work on concrete rows: index, element label and three real coordinates.
- **Parameters for what lies outside the modelled code.**
  - float parsing;
  - pandas' `read_csv` of the reference block;
  - the Bohr-radius conversion factor;
  - Cartesian addition;
  - `get_zmat`;
  - the Z-matrix difference with `minimize_dihedrals`.
- **Amplitudes.** A sympy amplitude symbol is kept as its name, so a displacement is its shape at amplitude 1 together with that name.

The project has three modules:

- `Text` (`text.dfy`): the string functions the two source files rely on. These are `str.strip`, `str.split`, `str.join`, `str(int)`, `int(str)`, `str.split()` into words, and `readline`.
- `XyzFunctions` (`xyz_functions.dfy`).
- `Vibration` (`vibration.dfy`).

The methods follow the source's loops:

- `FromMolden` runs the two search loops and the block loop.
- `PartitionMolden` runs the `while line` loop.
- `GetChunks` runs the generator's counter.
- `ReadMolden` runs the `zip` loop.
- `FromCartVib` runs the loop over the dictionary.

`FromMolden`, `ReadAfterCount`, `ReadGeometries`, `PartitionMolden`, `GetChunks` and `ReadMolden` are proved equal to a specification function, and lemmas state what that function means. `SkipPast` and `FromCartVib` are characterised directly by their postconditions.

## Model

| member | source | states |
|---|---|---|
| XyzFunctions.ToMolden | chemcoord/cartesian_coordinates/xyz_functions.py:131-139 | With no destination, the Molden text is returned and no file changes. With a destination and overwriting allowed, or a destination that does not exist yet, that path ends up holding exactly the text. When overwriting is not allowed and the path exists, a FileExistsError is raised and nothing changes. No other path is touched. |
| XyzFunctions.MoldenTextBegins | chemcoord/cartesian_coordinates/xyz_functions.py:115-118 | The text starts with `[MOLDEN FORMAT]`, then `[N_GEO]`, then the decimal number of geometries, then `[GEOCONV]`, each on its own line. |
| XyzFunctions.PlaceholderBlocks | chemcoord/cartesian_coordinates/xyz_functions.py:112-129 | For k geometries, the lines are laid out in this order: the format, N_GEO, count and GEOCONV lines; `energy`, `max-force` and `rms-force`, each followed by exactly k lines reading `1`; `[GEOMETRIES] (XYZ)`; then the lines of the geometries' texts joined by newlines. |
| XyzFunctions.MoldenLines | chemcoord/cartesian_coordinates/xyz_functions.py:115-129 | The lines of the output are the header's lines followed by the lines of the joined XYZ texts. |
| XyzFunctions.FromMolden | chemcoord/cartesian_coordinates/xyz_functions.py:152-192 | The reader returns exactly `FromMoldenSpec`: a geometry count that does not read as an integer, or an atom count that does not, is the ValueError naming that line. Otherwise the result is `from_xyz` applied to `count` consecutive blocks of `atoms + 2` lines, starting at the atom-count line. |
| XyzFunctions.SkipPast | chemcoord/cartesian_coordinates/xyz_functions.py:164-168 | The search loop stops just past the first line, at or after the start, that strips to the tag. |
| XyzFunctions.ReadAfterCount | chemcoord/cartesian_coordinates/xyz_functions.py:171-189 | Once the geometry count has been read, the rest of the reader produces the same result as the whole specification. This covers the atom count being peeked at without being consumed (`tell`/`seek`). |
| XyzFunctions.ReadGeometries | chemcoord/cartesian_coordinates/xyz_functions.py:180-189 | The block loop yields `from_xyz` of the i-th window of `atoms + 2` lines for each i in `range(count)`. A negative count yields nothing, and reads past the end add no lines. |
| XyzFunctions.GeometryCount | chemcoord/cartesian_coordinates/xyz_functions.py:169-181 | A successful read returns exactly as many geometries as the integer after the first `[N_GEO]` line says, and none when that integer is negative. |
| XyzFunctions.FindLineFirst | chemcoord/cartesian_coordinates/xyz_functions.py:164-168 | The tag line found is the first one: no earlier line strips to the tag, and when none is found no line does. |
| XyzFunctions.ReadBlocksAt | chemcoord/cartesian_coordinates/xyz_functions.py:181-183 | Block i is the window of lines from `pos + i*width` to `pos + (i+1)*width`. |
| XyzFunctions.ReadBlocksTile | chemcoord/cartesian_coordinates/xyz_functions.py:181-183 | Inside the file the blocks do not overlap and leave no gaps: laid end to end, they are exactly the `count*width` lines from the start position. |
| XyzFunctions.ReadsBackWhatItWrote | chemcoord/cartesian_coordinates/xyz_functions.py:112-189 | Take a non-empty trajectory whose geometries all render to `n + 2` lines headed by the atom count `n`. Its text satisfies both search loops, and `from_molden` cuts it back into exactly the rendered texts' lines, in list order. |
| XyzFunctions.MoldenRoundTrip | chemcoord/cartesian_coordinates/xyz_functions.py:91-192 | When `from_xyz` reads each rendered text back as the geometry it was rendered from, `from_molden(to_molden(list))` is the list itself, with each geometry sorted by index when `sort_index` is set. |
| XyzFunctions.EmptyTrajectoryDoesNotReadBack | chemcoord/cartesian_coordinates/xyz_functions.py:124-177 | Writing an empty list gives a file whose line after `[GEOMETRIES] (XYZ)` is empty, so reading it back fails on `int('')`. |
| XyzFunctions.IsCloseByIndex | chemcoord/cartesian_coordinates/xyz_functions.py:222-234 | `isclose(a, b, align=False)` holds if and only if the index sets are equal and every pair of rows with the same index has the same element and coordinates within `atol + rtol*abs(b)`. |
| XyzFunctions.MismatchIsNotClose | chemcoord/cartesian_coordinates/xyz_functions.py:222-223 | A different index set, or an index labelled with different elements, makes the result False rather than an error. |
| XyzFunctions.IsCloseIgnoresRowOrder | chemcoord/cartesian_coordinates/xyz_functions.py:229-232 | Reordering b's rows does not change the result, because b is looked up by a's index. |
| XyzFunctions.IsCloseReflexive | chemcoord/cartesian_coordinates/xyz_functions.py:222-232 | With non-negative tolerances, every Cartesian is close to itself. |
| Text.StripTwice | chemcoord/cartesian_coordinates/xyz_functions.py:167 | `strip` is idempotent. |
| Text.StripRemovesSpace | chemcoord/cartesian_coordinates/xyz_functions.py:167 | `s.strip()` is a contiguous piece of `s` that is empty or starts and ends with a non-space character, and everything cut off before and after it is whitespace. |
| Text.SplitPiecesFree | src/chemcoord/vibration.py:61 | No piece of `text.split(sep)` contains the separator. |
| Text.WordsFlatten | src/chemcoord/vibration.py:42 | The words `row.split()` yields, laid end to end, are the row with its white space removed: only white space is dropped and every other character is kept in order. |
| Text.WordsOfWord | src/chemcoord/vibration.py:42 | A non-empty text without white space is one word of `row.split()`: a run of other characters is never cut. |
| Text.WordsAtSpace | src/chemcoord/vibration.py:42 | Every white-space character separates words: `split()` of `a + c + b` with `c` white space is the words of `a` followed by the words of `b`, so the words are the maximal runs between white space. |
| Text.JoinSplit | chemcoord/cartesian_coordinates/xyz_functions.py:129 | Joining the pieces of `s.split(sep)` with `sep` gives `s` back. |
| Text.SplitJoin | chemcoord/cartesian_coordinates/xyz_functions.py:129 | Splitting a join of separator-free pieces gives the pieces back. |
| Text.ParseIntOfIntToString | chemcoord/cartesian_coordinates/xyz_functions.py:117 | `int(str(i)) == i` for every integer. |
| Text.IntToStringInjective | src/chemcoord/vibration.py:77 | Different integers have different decimal strings. |
| Text.ReadLinesFlatten | src/chemcoord/vibration.py:27-36 | The lines `readline()` yields, concatenated, are the whole file. |
| Vibration.TagKey | src/chemcoord/vibration.py:22 | A line `pre[t]rest` whose `pre` holds no `[` has section key `t`: the match starts at the first `[` and runs to the last `]` of the line, provided `t` contains no newline and the rest of the line contains no `]`. |
| Vibration.KeyIffBracketPair | src/chemcoord/vibration.py:22 | A line opens a section if and only if some `[` in it has a `]` after it on the same line; a `[` with no `]` after it, or a `]` with no `[` before it, opens nothing. |
| Vibration.NoBracketNoKey | src/chemcoord/vibration.py:22 | A line without `[` opens no section. |
| Vibration.PartitionMolden | src/chemcoord/vibration.py:20-37 | The `while line` loop computes `Sections` of the file's lines. |
| Vibration.SectionKeys | src/chemcoord/vibration.py:29-33 | A key is in the dictionary if and only if some line carries it as its tag. |
| Vibration.UnrecognisedSectionIsEmpty | src/chemcoord/vibration.py:23-35 | A section whose tag is not one of the nine recognised tags has an empty body. |
| Vibration.SectionContent | src/chemcoord/vibration.py:29-36 | A recognised section holds, in order, the lines after its last tag line up to the next tag line. An unrecognised section holds nothing. |
| Vibration.PreambleIgnored | src/chemcoord/vibration.py:28-35 | Lines before the first tag line are never stored. |
| Vibration.NonEmptyLines | src/chemcoord/vibration.py:52-54 | The FREQ filter keeps every non-empty line, and only those, so there is one mode per non-empty line. |
| Vibration.NonEmptyAppend | src/chemcoord/vibration.py:52-54 | The FREQ filter keeps the lines in file order: the filtered lines of `a + b` are those of `a` followed by those of `b`. |
| Vibration.NonEmptySingle | src/chemcoord/vibration.py:53 | A single line is kept exactly when it is not empty (`if l`). |
| Vibration.FrequenciesParsed | src/chemcoord/vibration.py:52-54 | The frequency column converts if and only if every line is a number, and then it holds one frequency per line, in order. |
| Vibration.VibrationsKept | src/chemcoord/vibration.py:79-80 | The filtered table holds exactly the modes whose frequency is not near zero. |
| Vibration.VibrationsAppend | src/chemcoord/vibration.py:79-80 | The frequency filter keeps the modes in table order: the filtered modes of `a + b` are those of `a` followed by those of `b`. |
| Vibration.VibrationsSingle | src/chemcoord/vibration.py:80 | A single mode is kept exactly when its frequency is not near zero. |
| Text.NatToStringStripped | chemcoord/cartesian_coordinates/xyz_functions.py:117 | The count written by `str(len(cartesian_list))` has no surrounding white space, so `strip` leaves it unchanged. |
| Vibration.GetChunks | src/chemcoord/vibration.py:60-65 | The generator's loop yields exactly `Chunks(text, L)`. |
| Vibration.ChunkLayout | src/chemcoord/vibration.py:60-65 | Starting from counter `n`, chunk `k` is the `L` lines from `n + k*(L+1)`, and chunk `k` exists if and only if those lines lie inside the text. |
| Vibration.ChunksOfText | src/chemcoord/vibration.py:60-65 | Chunk `k` of a text is `splitted[1 + k*(L+1) : 1 + k*(L+1) + L]`, so each chunk has `L` lines. Chunk `k` exists if and only if that slice fits. |
| Vibration.MoleculeAligned | src/chemcoord/vibration.py:39-45 | The molecule exists if and only if the chunk has one line per reference atom, each holding three numbers. Row `k` then carries the reference's index and element at `k` and the numbers of line `k`. |
| Vibration.MoleculeMatchesReference | src/chemcoord/vibration.py:39-45 | A molecule read against a reference Cartesian has unique indices and passes isclose's pretest against it. |
| Vibration.ReadMolden | src/chemcoord/vibration.py:47-81 | `read_molden` returns exactly `ReadMoldenSpec`: a missing FREQ, FR-COORD or FR-NORM-COORD section, a non-numeric frequency, an unreadable reference, and a normal-coordinate block that does not read are each the matching error. |
| Vibration.CollectSucceeds | src/chemcoord/vibration.py:73-78 | The displacement loop fails if and only if some selected chunk does not read as a molecule. |
| Vibration.DisplacementKeySet | src/chemcoord/vibration.py:57-78 | The keys of the displacement dictionary are exactly the indices `start + j` of the modes paired with a chunk whose frequency is not near zero. |
| Vibration.DisplacementValues | src/chemcoord/vibration.py:73-78 | The displacement of mode `start + j` is chunk `j`, read against the reference and scaled by the Bohr-to-Ångström factor, under the amplitude name `t{start+j}`. |
| Vibration.AmplitudeNamesDistinct | src/chemcoord/vibration.py:77 | Distinct modes get distinct amplitude symbols. |
| Vibration.WithoutExclusion | src/chemcoord/vibration.py:52-81 | With `exclude_trans_rot=False`, modes are numbered from `start_index` with one per non-empty FREQ line, nothing is filtered, and no displacement is built. |
| Vibration.WithExclusion | src/chemcoord/vibration.py:52-81 | With `exclude_trans_rot=True`, the table keeps only modes whose frequency is not near zero, with indices in `[start, start + m)`. Every displacement is keyed by one of them and named `t{key}`. |
| Vibration.FromCartVib | src/chemcoord/vibration.py:93-109 | The reference Z-matrix is `get_zmat` of the reference, using the given construction table or none. The data table is unchanged and the keys are the same. Each Z-matrix displacement is `(get_zmat(shape + ref, table) - z_ref).minimize_dihedrals()` named `s{i}`, where the table is `z_ref`'s `b, a, d` columns when none is given. |

## Left out

- `write_molden` and the `read_molden` at xyz_functions.py:195-202 are deprecated wrappers that only emit a warning and delegate.
- `isclose` with `align=True` aligns both molecules on their principal axes of inertia, which is floating-point linear algebra. Only the `align=False` branch is modelled.
- `float_format` and `sort_index` are passed to `to_xyz` as well (xyz_functions.py:127). The parameter `toXyz` stands for `to_xyz` with both arguments already fixed, so a `toXyz` built for one `sort_index` is used with that same value.
- `start_index` and `get_bonds` of `from_molden` are likewise passed to `from_xyz`, a parameter.
- FromMolden: from_molden loops for ever when the file has no `[N_GEO]` line, or no `[GEOMETRIES] (XYZ)` line after a readable count, because `readline()` keeps returning `""`. The model requires that both lines exist (`SearchesEnd`) instead of modelling the non-terminating read.
- FromMolden: each block is handed to `from_xyz` as a sequence of lines without their terminators, not as a `StringIO` of the joined lines.
- FromMolden: opening and closing the file are not modelled.
- FromMolden: `Split` gives a file that ends in a newline one extra `""` piece after the final newline. When the declared counts run past the end of such a file, the block that reaches the end carries that piece as one extra `""` line, and blocks that lie wholly past the end are `[]`. The source's `readline()` calls return `""` there, which adds nothing to the text handed to `from_xyz`. A `from_xyz` that reads a trailing `""` line differently from none is not modelled.
- IsClose: a Cartesian's index is assumed unique (`UniqueIndex` on both arguments). The source's `align=False` branch also returns a value when an index label repeats, through pandas' duplicate-label lookup, which is not modelled.
- MoleculeAligned: coordinates are reals, so pandas' padding of a short row (a blank line, or a line of one or two numbers) with NaN is not modelled. Such a chunk is `BadNormalCoordinates` in the model, although the source reads it whenever some other line of the chunk holds three numbers. A line of more than three fields is an error in both.
- `int()` accepts underscores between digits and non-ASCII digits. `ParseInt` accepts only an optional sign followed by ASCII digits, after stripping the characters Python's `str.isspace` accepts (the Unicode white space, as `int()` strips).
- The `INT` section, which adds an intensity column to the data table (vibration.py:55-56), is not modelled. The table holds only index and frequency.
- `CartesianVibration.__repr__` is not modelled because it only formats text.
- The Bohr-radius constant from scipy is the parameter `toAng`. Its value is not modelled.
- Float parsing, and pandas' `read_csv` of FR-COORD, are parameters.
- pandas' column join in `_get_molecule` is modelled by building rows in reference order. Its handling of the index is not modelled.
- FromCartVib: requires every displacement to be named `t{i}` after its key, which is what `read_molden` produces (`WithExclusion`). `subs(Symbol(f't{i}'), 1)` is then the displacement's shape. Symbolic expressions with other free symbols are not modelled.
- Cartesian and Z-matrix arithmetic, `get_zmat` and `minimize_dihedrals` are parameters. The `TestOperators(False)` context only turns off checks inside those operations.
- Iteration order over the displacement dictionary is not modelled. The resulting dictionary does not depend on it.
- Python's `isclose(f, 0)` on frequencies is numpy's test with its default tolerances, over real numbers rather than floats.
