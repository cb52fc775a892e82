# airnet-python: reader, network assembly and power-law element

This Dafny project models the core of airnet-python, a small Python
package for AIRNET airflow network input files. The core has
three parts:

- **The reader** (`src/airnet/reader.py`). It iterates over the lines of a
  network file. Blank lines are skipped and counted. A line starting with
  `*` ends the input. A `title` line is accepted only while no non-empty
  title is stored. `node`, `element` and `link` lines become records.
  Element kinds `dwc`, `dor` and `fan` read continuation lines, and a fan
  reads `nr` data-point lines. All other lines are skipped. Malformed
  input raises one of three exceptions:
  - `BadNetworkInput` when a check of the reader's own fails: an unknown
    node type, too few fields, a missing continuation line, or an unknown
    element kind. The message of the unknown-element error holds no line
    number. The model keeps the line counter with every `BadNetworkInput`
    all the same.
  - `IndexError` when a node or element line has fewer than three fields.
  - `ValueError` when `float()` or `int()` refuses a number.
- **The network assembly** (`src/airnet/model.py`).
  - `Model.__init__` runs three loops:
    - it collects the title, the nodes (a dict in insertion order) and the
      elements, and holds the link records back;
    - it resolves each link's node and element names;
    - it numbers the variable nodes in dict order.
  - `set_properties` computes density, square-root density, viscosity and
    density/viscosity for every variable node.
- **The airflow elements** (`src/airnet/afedat.py`). These are the
  field-only constructors of the nine element classes and the
  `object_lookup` table. `Afe_Plr.calculate` gives the power-law flow and
  its derivative through a link.

Modules:

| file | module | contents |
|---|---|---|
| `values.dfy` | `Values` | Option/Result, the Python exception kinds, `Number` (an unconverted token or a float), `ElementType`, dictionary keys (enum member or string) |
| `text.dfy` | `Text` | `str.isspace`, `strip() == ''`, `lstrip`, `split()`, `startswith`, `replace` |
| `reader.dfy` | `Reader` | records; specification functions for one `__next__` call (`NextSpec`) and for a whole iteration (`ReadAll`); class `Reader` with `GetNext`, `Next`, `Items` and the branch methods, each proved equal to its specification function |
| `reader_properties.dfy` | `ReaderProperties` | what a whole iteration returns; a printer whose output the reader reads back |
| `afedat.dfy` | `Afedat` | the element datatype, constructor keyword checking, `object_lookup`, `calculate` |
| `model.dfy` | `Network` | class `Node`, the `Link` datatype, class `Model` (`Build` for `__init__`, `SetProperties`), specification functions for the loops, and lemmas about how the three files fit together |

### How the source is represented

- `handle_float` is a parameter of the reader. With `floats=False` it is
  `noop`, so a token stays `Raw(token)`. Otherwise the function
  `parseFloat` supplies `float()`. A fan's point count always goes
  through `int()`, whatever `floats` is, and the function `parseInt`
  supplies it. For both functions `None` means `ValueError`.
- `math.sqrt` and `math.pow` are function parameters. Float arithmetic is
  exact real arithmetic.
- An exception is modelled as `Err(kind)`. `BadNetworkInput` keeps the line
  counter and a reason code instead of the message text.
- `Model.__init__` becomes `Model.Build`, which returns either the
  exception or a fresh `Model`. `element_lookup` is a parameter. The
  insertion order of `self.nodes` is the field `order`.

### Where the files disagree (modelled as written)

- **Dictionary keys.** The reader gives each element record an
  `ElementType` member as its `type`. `object_lookup` is keyed by strings
  and also holds `prv`, which no `ElementType` has. With the default
  lookup, any input that holds an element raises `KeyError`
  (`ReaderElementsNotInObjectLookup`). This includes the input of
  `tests/test_model.py`.
- **Keywords.** Looking up by the kind's own name (`ClassFor`):
  - the `dwc`, `fan` and `ckv` records carry keywords that their
    constructors do not accept (`len`/`dh`/`rgh`…, `ltt`/`mfl`, `coeff`),
    so the constructor raises `TypeError`. `Afe_Fan` does accept `pts`;
  - the other kinds succeed (`ReaderFieldsAgainstConstructors`).
- **Square-root density.** `calculate` reads `node.sqrtd`, but
  `model.Node` sets `sqrt_density`. On model nodes with a float `lam`, a
  positive pressure drop raises `AttributeError`. A negative drop does so
  when `turb` is a float too, since `turb` is negated before `sqrtd` is
  read. With `lam` not a float, the multiplication that comes first raises
  `TypeError` instead (`CalculateOnModelNodes`).

### Points of the code the model keeps

- A node is variable when its type is `c` or missing, and not variable
  when it is `v` or `a` (`src/airnet/model.py:51`).
- The first loop holds link records back. They are resolved only after
  every record has been read (`src/airnet/model.py:46-68`).
- `Afe_Dor` is a class of its own, with no `calculate`
  (`src/airnet/afedat.py:63-74`).

## Model

| member | source | states |
|---|---|---|
| Reader.Reader.constructor | src/airnet/reader.py:29-35 | a new reader has line counter 0, which is also the number of lines consumed, and no title; it converts with float or noop as `floats` says |
| Reader.Reader.GetNext | src/airnet/reader.py:37-43 | the result is the next non-blank line, or none when only blank lines remain; the line counter becomes the index just after the line returned |
| Reader.NextNonBlank | src/airnet/reader.py:40-42 | the index found is the first non-blank line at or after `from`; none means every remaining line is blank |
| Reader.Reader.Next | src/airnet/reader.py:48-190 | one `__next__` call returns, and leaves behind, exactly what `NextSpec` gives for the old position and title |
| Reader.Reader.NextLine | src/airnet/reader.py:49-189 | one turn of the `__next__` loop either ends the call as `NextSpec` says or skips a line, leaving the title and the `NextSpec` outcome unchanged |
| Reader.NextSpec | src/airnet/reader.py:48-190 | a returned record has the reader's shape; a title record is returned only while no non-empty title is stored, and it is then stored; otherwise the stored title is unchanged; a returned item consumes at least one line |
| Reader.NextAt | src/airnet/reader.py:49-189 | from a non-blank line, the outcome keeps the `NextSpec` contract and consumes that line |
| Reader.NextAtCases | src/airnet/reader.py:50-189 | a line starting with `*` raises StopIteration and consumes only itself; a title line is handled by `TitleAt`; a line starting with `node`, `element` or `link` gives what `RecordAt` gives; any other line is skipped, so the outcome is that of `NextSpec` from the next line |
| Reader.NextSpecErrors | src/airnet/reader.py:48-190 | `__next__` raises only `BadNetworkInput`, `IndexError` or `ValueError` |
| Reader.StarEndsInput | src/airnet/reader.py:50-190 | when the next non-blank line starts with `*`, the iteration returns no further record |
| Reader.Reader.LineStep | src/airnet/reader.py:50-189 | for a line not starting with `*`, either the call ends as `NextAt` says or the line is skipped and nothing changes |
| Reader.TitleAt | src/airnet/reader.py:51-56 | with no non-empty title stored, the title record is that line's text after `title`, and it is stored; otherwise `BadNetworkInput(ExtraTitle)` at this line and the title is kept |
| Reader.KeywordOf | src/airnet/reader.py:58-177 | `node`, `element` and `link` are exactly the words that select the three record branches |
| Reader.RecordAt | src/airnet/reader.py:57-188 | a record read for a keyword has the reader's shape, is not a title, and is a node, element or link record exactly as the keyword says; only an element reads further lines; errors are `BadNetworkInput`, `IndexError` or `ValueError` |
| Reader.Reader.ReadRecord | src/airnet/reader.py:57-188 | the records and errors of the keyword branches are those of `RecordAt` |
| Reader.ParseNode | src/airnet/reader.py:58-71 | fewer than three fields give `IndexError`; a type other than `v`, `c`, `a` gives `BadNetworkInput(NodeType)`; fewer than 5 fields for `v`, or 6 for `c` and `a`, give `BadNetworkInput(NodeFields)`; otherwise the record is named by field 2, has field 3 as its type and fields 4, 5 (and 6 unless `v`) converted as height, temperature and pressure; with enough fields the record is built exactly when those conversions succeed, and the only other failure is `ValueError` |
| Reader.ParseLink | src/airnet/reader.py:177-188 | fewer than 8 fields, or fewer than 9 when field 8 is not `null`, give `BadNetworkInput(LinkFields)`; the names come from fields 2, 3, 5 and 7; the heights are fields 4 and 6 converted; there is no wind exactly when field 8 is `null`, and otherwise wind is field 8 and `wpmod` is field 9 converted; with enough fields the record is built exactly when the conversions of fields 4, 6 and (unless `null`) 9 succeed, and the only other failure is `ValueError` |
| Reader.Convert | src/airnet/reader.py:77-78 | converting the fields of a line gives a map whose keys are exactly the field names, or `ValueError` |
| Reader.ConvertValues | src/airnet/reader.py:77-78 | each converted value is `handle_float` of the token at that field's position |
| Reader.ConvertFails | src/airnet/reader.py:77-78 | conversion fails exactly when some token fails `handle_float` |
| Reader.SingleLineElement | src/airnet/reader.py:74-78 | fewer than 3 + (number of keys) fields give `BadNetworkInput(ElementFields)`; otherwise the record has that kind, the second field as its name, and exactly the converted fields from the fourth on, and fails exactly when a conversion fails |
| Reader.ElementKindOf | src/airnet/reader.py:74-176 | the kind found is the one whose name is the word; none means no kind has that name |
| Reader.ReadKind | src/airnet/reader.py:74-174 | an element record of kind `t` has exactly the keys the reader gives that kind, and carries points exactly when it is a fan; a first line shorter than 7 fields (`plr`, `dwc`, `dor`, `fan`), 4 (`cfr`), 6 (`cpf`) or 5 (`qfr`, `ckv`) gives `BadNetworkInput(ElementFields)` at the current line; only `dwc`, `dor` and `fan` read further lines |
| Reader.ReadMultiLine | src/airnet/reader.py:81-157 | for `dwc`, `dor` and `fan`: a first line shorter than 7 fields gives `BadNetworkInput(ElementFields)` at the current line; a record has exactly that kind's keys, is named by field 2 and carries points exactly when it is a fan, and is built only after at least one further line is consumed; the only errors are those of the reader |
| Reader.ReadElement | src/airnet/reader.py:72-176 | fewer than three fields give `IndexError`; an unknown kind gives `BadNetworkInput(UnknownElement)`; a first line too short for its kind gives `BadNetworkInput(ElementFields)`; a record has the reader's shape, the kind named by field 3 and the name in field 2 |
| Reader.Reader.ReadElementBranch | src/airnet/reader.py:72-176 | the element branch returns and consumes what `ReadElement` gives |
| Reader.ContinuationAt | src/airnet/reader.py:86-92 | a continuation line is the line just consumed, split, with enough fields; at end of input it is the "missing line" error, otherwise the "too few fields" error at the current line |
| Reader.ContinuationAtLine | src/airnet/reader.py:86-92 | at end of input the "missing line" error at the last line; otherwise the counter stops just after the next non-blank line, and the line is accepted exactly when it has enough fields |
| Reader.Reader.ReadLine | src/airnet/reader.py:86-92 | reading a continuation line returns and consumes what `ContinuationAt` gives |
| Reader.ReadTwoLine | src/airnet/reader.py:81-116 | a first line shorter than 7 fields gives `BadNetworkInput(ElementFields)`; a first-line conversion failure gives `ValueError` before any further line is read; end of input before the second line gives `BadNetworkInput(MissingContinuation)` at the last line; a second line with fewer than 4 fields gives `BadNetworkInput(ContinuationFields)` at that line; when both lines are long enough the record is built exactly when the second line converts, the counter stops after that line, and the fields are the first line's converted fields followed by the second's |
| Reader.Reader.ReadContinued | src/airnet/reader.py:81-116 | the two-line branches return and consume what `ReadTwoLine` gives |
| Reader.FanSettings | src/airnet/reader.py:136-144 | the settings line succeeds exactly when `rdens`…`ltt`, `int(data[4])` and `mfl` convert; the fields are then the converted `rdens`, `fdf`, `sop`, `ltt` with `mfl` from field 6, the point count is `int(data[4])`, and the only failure is `ValueError` |
| Reader.FanPointOf | src/airnet/reader.py:154-155 | a data point succeeds exactly when fields 1, 2, 4 and 5 convert (field 3 is never read), and holds `a1` from field 1, `a2` from field 4 (the second `a2` overwrites the first), and `a4` and `mf` both from field 5 |
| Reader.HandleFloat | src/airnet/reader.py:33-35 | with floats off a token stays as it is; with floats on it is converted exactly when it parses as a float, to that value, and otherwise gives `ValueError` |
| Reader.HandleInt | src/airnet/reader.py:143 | `int()` succeeds exactly when the token parses as an integer, to that value, and otherwise gives `ValueError` |
| Reader.FanPoints | src/airnet/reader.py:145-156 | reading `nr` points gives `max(nr, 0)` points, and none without reading a line when `nr <= 0`; end of input before a point gives `BadNetworkInput(MissingFanData)`, and a point line with fewer than 5 fields gives `BadNetworkInput(FanPointFields)` at that line |
| Reader.FanPointsNext | src/airnet/reader.py:146-155 | with points left to read and a long enough next line, a point that fails to convert stops the fan with `ValueError` after that line, and otherwise it is the first point, followed by the points read after it |
| Reader.Reader.ReadFanPoints | src/airnet/reader.py:145-156 | the point loop returns and consumes what `FanPoints` gives |
| Reader.FanRest | src/airnet/reader.py:132-157 | end of input before the settings line gives `BadNetworkInput(MissingContinuation)`, and a settings line with fewer than 6 fields gives `BadNetworkInput(ContinuationFields)` at that line; a fan record has the first line's keys, the settings keys, and `max(int(field 5), 0)` points, where field 5 is that of the settings line |
| Reader.FanRestAt | src/airnet/reader.py:132-138 | with a settings line of at least 6 fields, the fan goes on from just after that line with that line's fields |
| Reader.FanBody | src/airnet/reader.py:139-157 | after the settings line, a fan record is named as given, has the first line's keys with `rdens`…`ltt` and `mfl`, and holds `max(int(field 5), 0)` points, the conversion of field 5 having succeeded; the counter never moves back, and the only errors are `BadNetworkInput` and `ValueError` |
| Reader.FanBodyValues | src/airnet/reader.py:139-157 | a failing settings line gives `ValueError` without reading further; otherwise the counter and success are those of reading the points, and the fan record's fields are the first line's followed by the settings, and its points are the points read |
| Reader.ReadFan | src/airnet/reader.py:127-157 | a first line shorter than 7 fields gives `BadNetworkInput(ElementFields)`; a first-line conversion failure gives `ValueError` before reading further; otherwise the fan goes on as FanRest with the converted first-line fields; a fan record has the `plr` keys, `rdens`…`ltt`, `mfl`, and `max(int(field 5 of the settings line), 0)` points |
| Reader.Reader.ReadFanElement | src/airnet/reader.py:127-157 | the fan branch returns and consumes what `ReadFan` gives |
| Reader.Reader.Items | tests/test_model.py:32-36 | iterating the reader to the end gives exactly what `ReadAll` gives |
| Reader.ReadAll | src/airnet/model.py:124-126 | one whole `for item in reader`: stop, raise, or take the record and go on from where `__next__` left off; it yields at most one record per remaining line |
| ReaderProperties.RecordsFromReader | src/airnet/reader.py:48-190 | every record of a whole iteration has the reader's shape |
| ReaderProperties.TitlesOfIteration | src/airnet/reader.py:51-56 | an iteration that starts with a non-empty title returns no title; of its title records, all but the last are empty |
| ReaderProperties.TitleTextOfLine | src/airnet/reader.py:55 | the text after `title`, when it holds no `title` and does not start with whitespace, is read back unchanged |
| ReaderProperties.TitleLineStep | src/airnet/reader.py:51-56 | a `title` line gives the title record when none is stored, and the extra-title error otherwise |
| ReaderProperties.KindNameInjective | src/airnet/reader.py:74-176 | each kind's name selects that kind's branch |
| ReaderProperties.ConvertRaw | src/airnet/reader.py:25-26 | with `noop`, every field is its own token |
| ReaderProperties.ParseNodeTokens | src/airnet/reader.py:58-71 | a node record written as its input line is parsed back into itself |
| ReaderProperties.ParseLinkTokens | src/airnet/reader.py:177-188 | a link record written as its input line is parsed back into itself |
| ReaderProperties.ReadElementTokens | src/airnet/reader.py:72-176 | a one-line element record written as its input line is read back into itself |
| ReaderProperties.PrintedLineFacts | src/airnet/reader.py:50-51 | a printed record line is not blank, and its `split()` gives exactly its fields |
| ReaderProperties.NextSpecPrinted | src/airnet/reader.py:48-188 | one `__next__` call on a printed record line returns that record and consumes the line |
| ReaderProperties.ReadPrinted | src/airnet/reader.py:48-190 | reading the printed lines of node, link and one-line element records returns exactly those records |
| ReaderProperties.ReadPrintedStep | src/airnet/reader.py:48-190 | a printed record line followed by lines that read back as some records reads back as that record followed by them |
| Text.Lstrip | src/airnet/reader.py:51 | `lstrip` removes a whitespace prefix, and what remains starts with a non-space |
| Text.Split | src/airnet/reader.py:57 | `split()` gives non-empty words without whitespace, and gives none exactly for a blank line |
| Text.SplitJoinWords | src/airnet/reader.py:57 | words joined by single spaces split back into the same words |
| Text.ReplaceAllAbsent | src/airnet/reader.py:55 | `replace` leaves a string without the pattern unchanged |
| Text.ReplaceAllLeading | src/airnet/reader.py:55 | `replace` replaces a leading pattern and continues after it |
| Afedat.Attrs | src/airnet/afedat.py:10-109 | an element's attributes are exactly those its constructor stores |
| Afedat.Make | src/airnet/afedat.py:10-109 | the constructor of a class builds an element of that class |
| Afedat.Construct | src/airnet/afedat.py:10-109 | a constructor call succeeds exactly when every keyword is a parameter of that class, and points are passed only to `Afe_Fan`; otherwise `TypeError` |
| Afedat.ConstructStores | src/airnet/afedat.py:10-109 | a successful constructor stores each argument given, and its default for each one missing (`expt`: 0.5, the rest: 0.0); `Afe_Fan` drops `mf1` and the points |
| Afedat.ConstructFromAttrs | src/airnet/afedat.py:10-109 | passing an element's attributes back to its class's constructor succeeds and gives the same attributes |
| Afedat.ObjectLookupExact | src/airnet/afedat.py:111-113 | `object_lookup` maps each class's tag to that class and holds nothing else, and different classes have different tags |
| Afedat.Operand | src/airnet/afedat.py:18-38 | product with an unconverted coefficient is `TypeError` |
| Afedat.Attribute | src/airnet/afedat.py:20-30 | a node without `sqrtd` gives `AttributeError` |
| Afedat.Forward | src/airnet/afedat.py:17-26 | for `pdrop > 0`: the flow is the laminar or the turbulent flow at node0, whichever is smaller, and a tie goes to laminar; the derivative is that of the branch taken; errors come in the order of evaluation |
| Afedat.Backward | src/airnet/afedat.py:27-36 | for `pdrop < 0`: the flow is the laminar or the turbulent flow at node1, whichever is larger, and a tie goes to laminar; the derivative is that of the branch taken |
| Afedat.Calculate | src/airnet/afedat.py:16-41 | succeeds exactly when the coefficients and nodes it reads are present; otherwise `TypeError` or `AttributeError` (a non-`Afe_Plr` element has no `calculate`); second flow and derivative are 0; at zero drop the flow is 0 and the derivative is `0.5*lam*(dvisc0+dvisc1)` |
| Afedat.CalculateReadsUpstream | src/airnet/afedat.py:17-36 | a positive drop depends only on node0 and a negative drop only on node1 |
| Afedat.CalculateFlowSign | src/airnet/afedat.py:16-41 | with non-negative coefficients, node values and `pow`, the flow has the sign of the pressure drop |
| Network.NodeOf | src/airnet/model.py:51-53 | the node gets the record's name, height and temperature, the record's pressure or 0.0 when it has none, and is variable exactly when its type is `c` or missing |
| Network.Node.constructor | src/airnet/model.py:10-22 | a new node holds the constructor arguments, has no index, and all derived values are 0.0 |
| Network.Refreshed | src/airnet/model.py:98-101 | the properties compute exactly when pressure and temperature are floats, the temperature is nonzero, the density is non-negative and the viscosity nonzero; then `sqrt_density` is sqrt of `density`, `dvisc*viscosity == density`, `density*T == 0.0034838*(101325+P)`, and `viscosity == 1.71432e-5 + 4.828e-8*(T-273.15)`; otherwise `TypeError`, `ZeroDivisionError` or `ValueError` |
| Network.RefreshedStops | src/airnet/model.py:98-99 | nothing is written when the arithmetic cannot start, and only the density is written when it is negative |
| Network.RefreshedRaises | src/airnet/model.py:98-101 | a token among pressure and temperature raises `TypeError`, a zero temperature or a zero viscosity `ZeroDivisionError`, and a negative density `ValueError` |
| Network.RefreshedIdempotent | src/airnet/model.py:96-101 | computing the properties twice gives what computing them once gives |
| Network.DensityIncreasesWithPressure | src/airnet/model.py:98 | at a fixed positive temperature, density does not decrease with pressure |
| Network.Node.Update | src/airnet/model.py:98-101 | one node's assignments give the state and exception of `Refreshed`, and the index is unchanged |
| Network.EndpointOf | src/airnet/afedat.py:18-30 | a model node seen by `calculate` has its `dvisc` and no `sqrtd` |
| Network.CalculateOnModelNodes | src/airnet/afedat.py:16-41 | on two model nodes, `calculate` succeeds exactly at zero pressure drop (given a `plr` with float `lam`); a positive drop, or a negative one with float `turb`, gives `AttributeError`; a `lam` that is not a float gives `TypeError` |
| Network.LinkOf | src/airnet/model.py:62-68 | a resolved link holds the named nodes and element, the record's name and heights, and `mult` 1.0; with no wind it has wind None and `wpmod` 0.0, and otherwise the record's wind and `wpmod` |
| Network.GatherFromWell | src/airnet/model.py:47-61 | the first loop keeps node names listed once each, in first-insertion order, and holds back only link records |
| Network.GatherTitle | src/airnet/model.py:48-49 | the title is that of the last title record, or `''` |
| Network.GatherNodes | src/airnet/model.py:50-53 | a name has a node exactly when a node record has it, and the node is built from the last such record |
| Network.GatherFromLinks | src/airnet/model.py:54-56 | the held-back links are the link records, in input order |
| Network.GatherStep | src/airnet/model.py:47-61 | one record always succeeds unless it is an element record, which raises `KeyError` when its type is not in the table and `TypeError` when the class refuses its entries |
| Network.GatherStepEffects | src/airnet/model.py:47-61 | a title record changes only the title; a node record only its node, appending a new name to the order; a link record only the held-back links; an element record only its element |
| Network.GatherFrom | src/airnet/model.py:47-61 | the first loop completes exactly when every record can be taken, and otherwise raises `KeyError` or `TypeError` |
| Network.GatherFromGrows | src/airnet/model.py:47-61 | the first loop only extends the held-back links and the node order, and loses no node or element name |
| Network.Gather | src/airnet/model.py:41-61 | from the empty model, the first loop completes exactly when every record can be taken, and otherwise raises `KeyError` or `TypeError` |
| Network.ReaderElementsNotInObjectLookup | src/airnet/model.py:57-61 | with `object_lookup`, any reader output holding an element record makes `Model.__init__` raise `KeyError` |
| Network.ClassFor | src/airnet/afedat.py:111-113 | the class whose tag is the name of an `ElementType` member |
| Network.ReaderFieldsAgainstConstructors | src/airnet/reader.py:74-174 | the reader's keys for `dwc`, `fan` and `ckv` are refused by their constructors, and those of the other kinds are accepted |
| Network.RefusedKeyword | src/airnet/reader.py:84-174 | `dwc`, `fan` and `ckv` each carry a keyword their constructor lacks |
| Network.AcceptedKeywords | src/airnet/reader.py:77-168 | the keys of `plr`, `dor`, `cfr`, `cpf` and `qfr` are all constructor parameters |
| Network.NoPrvElementType | src/airnet/reader.py:15-23 | no `ElementType` member is `prv` |
| Network.DictValues | src/airnet/model.py:72 | `nodes.values()` lists the node of each name in insertion order |
| Network.DictValuesDistinct | src/airnet/model.py:72 | the values of the node dict are distinct objects |
| Network.VariableNodes | src/airnet/model.py:72-76 | the variable nodes, in order |
| Network.NotYetNumbered | src/airnet/model.py:72-76 | among distinct nodes, a node is not one of the variable nodes before it |
| Network.VariableCount | src/airnet/model.py:72-77 | the number of variable nodes collected is the number of names whose node is variable |
| Network.VariableCountAll | src/airnet/model.py:77-78 | `size` is the number of variable nodes in the dict |
| Network.Model.Collect | src/airnet/model.py:46-61 | the first loop collects the title, nodes, elements and held-back links of `Gather`, or fails with its exception; each node is new, unnumbered and unset |
| Network.Model.Resolve | src/airnet/model.py:62-68 | the second loop succeeds exactly when every link names known nodes and element, and then builds `LinkOf` for each in order; otherwise `KeyError` |
| Network.Model.Number | src/airnet/model.py:70-76 | the third loop collects `VariableNodes` of the dict values, numbers them 0, 1, … in order, and leaves the other nodes unnumbered |
| Network.Model.Index | src/airnet/model.py:70-78 | after the third loop, the numbering invariant holds and `size` is the number of variable nodes |
| Network.Model.Assemble | src/airnet/model.py:69-78 | the model holds what the loops collected and keeps the numbering invariant |
| Network.Model.Build | src/airnet/model.py:39-78 | `Model(...)` succeeds exactly when the first loop does and every link resolves; the error is the first loop's, or `KeyError`; the model has the gathered title, node order and elements, nodes agreeing with the records, the resolved links in order, fresh unset nodes and the numbering invariant |
| Network.Model.SetProperties | src/airnet/model.py:96-101 | each variable node in order gets `Refreshed` of its old state; on an exception, the nodes before it are done, it is partly updated, and the ones after are untouched; nodes that are not variable never change |
| Network.Model.RefreshAll | src/airnet/model.py:97-101 | the loop over variable nodes, with the same outcome stated for any sequence of numbered nodes |
| Network.Model.NonVariableNotNumbered | src/airnet/model.py:73-76 | a node that is not variable is not among the variable nodes |

## Left out

- `Model.summary` and the command-line functions of `model.py` (argument
  parsing, file reading and printing) are I/O and not part of the core.
- `float()` and `int()` are parameters (`parseFloat` and `parseInt`). The
  model does not say which strings they accept or what value they give.
- Floating point is modelled as exact real arithmetic. Overflow, rounding
  and NaN are not modelled. `math.sqrt` and `math.pow` are parameters.
  `math.sqrt` of a negative density is modelled as `ValueError`.
- Exception messages: `BadNetworkInput` keeps the line counter and a
  reason code, and other exceptions keep only their kind.
- `Model.__init__` changes its input records with `pop`. The model works
  on the records as values, so that change to the caller's dicts is not
  modelled.
- The `node_object` and `link_object` parameters of `Model.__init__` are
  fixed to `Node` and `Link`.
- Links are values (`Link` datatype). The source never changes a link
  after it is built.
- A `Node` constructed with explicit `index`, or with defaults different
  from the reader's records, is not modelled. Only the node records the
  reader produces are built.
- `ReaderProperties.ReadPrinted` covers node, link and one-line element
  records read with `noop`. Title lines are covered separately
  (`TitleLineStep`). The two-line elements and fans are left out of the
  printer.
- `Afedat.ConstructFromAttrs`: the round trip is stated on the attributes
  (`Attrs`), not as equality of the rebuilt element with the original.
- `Afe_Fan`'s `pts` and `mf1` arguments are accepted and dropped, as the
  source does. The commented-out fields are not modelled.
- `Network.Model.SetProperties`: the partial state of the failing node is
  stated through `Refreshed` (the fields written before the exception),
  not field by field.
