# Stratum guitar-tab editor: a verified model of its core

Stratum is a browser guitar-tab editor. A *sheet* holds a title, an artist, a
tuning of six strings, a global tempo and meter, and rows of columns. Each
column holds one cell per string (a fret number, a technique such as `h` or
`<7>`, or `""` for silence) and optionally a mid-song tempo. This project
models in Dafny:

- the data model (`tab_types.dfy`);
- the sheet-editing transitions of the tab store: new project, load, add row,
  fret entry with two-digit combining and the 0..24 cap, tuning edit, and
  metadata edit with BPM sanitising (`tab_context.dfy`);
- the ASCII exporter `generateAsciiTab`, as a method over a mutable array of
  string lines proved equal to a functional description of the text
  (`ascii_export.dfy`);
- the ASCII importer `parseAsciiToTab`, as methods with the source's scan
  loops proved equal to a functional description of the parse
  (`ascii_import.dfy`);
- the round trip export-then-import under stated conditions: facts about
  the exported text (`export_facts.dfy`), facts about the importer's scans
  (`import_facts.dfy`), one staff read back (`staff_round_trip.dfy`) and the
  whole sheet read back (`round_trip.dfy`);
- the lossy "universal wash" importer `washDirtyAscii` (`universal_wash.dfy`);
- the shortcut registry: defaults, `remapKey` and `resetShortcuts`
  (`shortcuts.dfy`);
- the key-press decision of the keyboard engine (`keyboard_engine.dfy`);
- a worked sheet, "Test" by "Artist" with one fret, exported and read back
  (`sample_sheet.dfy`).

`js_text.dfy` gives the JavaScript string built-ins these use (`trim`,
`trimEnd`, `split`, `indexOf`, `lastIndexOf`, `substring`, `padEnd`,
`parseInt`, ASCII `toLowerCase`/`toUpperCase`, number-to-string) their
meaning. `wrappers.dfy` holds `Option` and `Result`.

Conventions:
- A column's optional tempo is `Option<int>`. It counts as present ("truthy")
  when it is `Some(n)` with `n != 0`.
- Column and row identifiers (random UUIDs) are left out. No logic compares them.
- `Math.round(c / 3)` is modelled by the recursive `RoundThird`, proved equal to
  `floor((2c + 3) / 6)`. `Math.floor((x / maxLength) * 32)` is modelled as
  `floor(32x / maxLength)` by the recursive `FloorDiv`.
- The importer throws a `TypeError` when a line containing `E |` has fewer
  than five lines after it. The model returns `Failure(TruncatedStaff)`
  instead of requiring the input to be well formed.
- `updateNote` dereferences the cursor without a guard, so the model requires
  the cursor to address a cell of the sheet.

## Model

| member | source | states |
|---|---|---|
| TabTypes.BlankColumn | src/store/TabContext.tsx:28-31 | a blank column has six empty cells and no tempo |
| TabContext.CreateBlankRow | src/store/TabContext.tsx:26-36 | a new row has exactly 16 blank columns |
| TabContext.DefaultTab | src/store/TabContext.tsx:38-45 | the default sheet: "New Tab" by "Unknown Artist", standard tuning E4 B3 G3 D3 A2 E2, 120 BPM, meter 4, one blank row; it is an editor sheet |
| TabContext.CreateNewProject | src/store/TabContext.tsx:63-67 | a new project is the default sheet with the cursor at (0,0,0), which addresses a cell |
| TabContext.LoadProject | src/store/TabContext.tsx:72-78 | a found project replaces the sheet and resets the cursor; a missing one changes nothing |
| TabContext.AddRow | src/store/TabContext.tsx:80-82 | exactly one blank 16-column row is appended; earlier rows and all metadata are unchanged; well-formedness is preserved |
| TabContext.EnteredValue | src/store/TabContext.tsx:87-100 | `""` always clears; an accepted value is the typed value or the old cell plus it, and is `""` or text whose leading number `parseInt` reads as 0..24 |
| TabContext.UpdateNote | src/store/TabContext.tsx:84-116 | only the cell under the cursor changes, to the entered value, or nothing changes when the value is rejected; metadata and shape are preserved |
| TabContext.TwoDigitEntry | src/store/TabContext.tsx:89-95 | a digit typed on a one-digit cell combines to two digits when the pair is at most 24, and replaces the cell otherwise |
| TabContext.DigitOnEmptyCell | src/store/TabContext.tsx:89-100 | a digit on an empty cell is stored as typed |
| TabContext.NonNumericRejected | src/store/TabContext.tsx:97-100 | a non-empty value with no leading number is rejected |
| TabContext.UpdateTuning | src/store/TabContext.tsx:118-124 | the chosen string's name is replaced by the upper-cased new name (same length, lower-case ASCII letters raised, other characters kept); every other field and string is unchanged |
| TabContext.UpperCasedTuning | src/store/TabContext.tsx:121 | setting the first string to "e4" stores "E4" |
| TabContext.StripLeadingZeros | src/store/TabContext.tsx:133 | the result is the input without its run of leading zeros |
| TabContext.UpdateMetadata | src/store/TabContext.tsx:126-148 | only the chosen field changes; a BPM is sanitised and never above 400 |
| TabContext.SanitizeBpmOfNumber | src/store/TabContext.tsx:131-141 | the text of any integer n, negative ones included, becomes min(n, 400): the cap is the only bound, there is no lower bound |
| TabContext.SanitizeBpmNonNumeric | src/store/TabContext.tsx:132-136 | any text with no number after its leading zeros (and leading white space) becomes 0 |
| TabContext.SanitizeBpmCleared | src/store/TabContext.tsx:132-136 | the empty text left by backspacing everything, "0abc" and "0-" all become 0 |
| TabContext.NoNumberAfterZero | src/store/TabContext.tsx:132-136 | a zero followed by a letter or a lone sign becomes 0 |
| AsciiExport.RemoveFirstDigit | src/utils/asciiExport.ts:18 | exactly the first digit of a tuning name is removed |
| AsciiExport.CellText | src/utils/asciiExport.ts:33-42 | a cell of up to 3 characters takes 3 characters, plus one for a bar |
| AsciiExport.TempoText | src/utils/asciiExport.ts:21-27 | a column without a truthy tempo contributes only spaces to the tempo line |
| AsciiExport.StaffLines | src/utils/asciiExport.ts:12-48 | a staff has a number line, a tempo line, one line per string and a blank line |
| AsciiExport.StaffLinesShape | src/utils/asciiExport.ts:13-18 | the nine lines of a staff: "Staff r+1", the trimmed tempo line, six string lines, "" |
| AsciiExport.AllStaffLines | src/utils/asciiExport.ts:12 | the staffs contribute nine lines each |
| AsciiExport.HeaderText | src/utils/asciiExport.ts:9-10 | the header is "title - artist", "Tempo: bpm BPM \| Meter: ts/4" and a blank line |
| AsciiExport.AppendBar | src/utils/asciiExport.ts:34 | every string line gets one more bar |
| AsciiExport.AppendCells | src/utils/asciiExport.ts:39-42 | every string line gets its cell, "-" when empty, dash-padded to 3 |
| AsciiExport.TempoStep | src/utils/asciiExport.ts:21-36 | one column's tempo text and bar space extend the tempo line |
| AsciiExport.ContentStep | src/utils/asciiExport.ts:33-42 | one column's bar and cell extend every string line |
| AsciiExport.RenderColumn | src/utils/asciiExport.ts:20-43 | one pass of the column loop extends the tempo line and every string line by that column |
| AsciiExport.RenderColumns | src/utils/asciiExport.ts:16-43 | after the column loop, the tempo line and string lines hold every column |
| AsciiExport.RenderStaff | src/utils/asciiExport.ts:13-48 | the text of one staff is its nine lines, each ended by a newline |
| AsciiExport.StaffHead | src/utils/asciiExport.ts:13-46 | the staff number and trimmed tempo line open a staff |
| AsciiExport.StaffStringLine | src/utils/asciiExport.ts:47 | each string line is closed by a bar and a newline |
| AsciiExport.StaffTail | src/utils/asciiExport.ts:48 | a blank line closes each staff |
| AsciiExport.GenerateAsciiTab | src/utils/asciiExport.ts:8-52 | the output is exactly the header and staff lines, each ended by a newline |
| AsciiExport.ExportStep | src/utils/asciiExport.ts:12-49 | each staff appends its lines to the output |
| AsciiExport.ContentLength | src/utils/asciiExport.ts:33-42 | with cells of at most three characters, the cells of n columns take 3n characters plus one per bar, whatever the string |
| AsciiExport.StringLineLength | src/utils/asciiExport.ts:18-47 | with a label of at most two characters and cells of at most three, a string line is 4 + 3 * columns + bars long |
| AsciiExport.StringLinesEqualLength | src/utils/asciiExport.ts:18-47 | under those conditions every string line of a staff has the same length, for any meter |
| AsciiExport.ExportLineCount | src/utils/asciiExport.ts:9-48 | the export has 3 + 9 * rows lines |
| AsciiExport.ExportLineOfStaff | src/utils/asciiExport.ts:12-48 | line 3 + 9r + k of the export is line k of staff r |
| AsciiExport.StaffLinesPrefix | src/utils/asciiExport.ts:12-49 | the lines of staff r sit at offset 9r among the staff lines |
| AsciiImport.Lines | src/utils/asciiImport.ts:11 | the text is split at newlines and each line right-trimmed |
| AsciiImport.TitleAndArtist | src/utils/asciiImport.ts:15-20 | without " - " on the first line, title and artist keep their defaults |
| AsciiImport.FindTempoLine | src/utils/asciiImport.ts:21 | the line found is the first line containing "Tempo:"; none is found only when no line contains it |
| AsciiImport.TagNumber | src/utils/asciiImport.ts:23-26 | no number is read only when the tag followed by white space and a digit occurs nowhere |
| AsciiImport.TagNumberFirst | src/utils/asciiImport.ts:23-24 | a number read is the value of the whole digit run after the tag and its white space at the first position where the pattern matches; no earlier position matches |
| AsciiImport.RoundThird | src/utils/asciiImport.ts:46 | the result is the nearest integer to c / 3 |
| AsciiImport.RoundThirdIsMathRound | src/utils/asciiImport.ts:46 | the result is floor(c / 3 + 1/2) |
| AsciiImport.BlankSlots | src/utils/asciiImport.ts:35-39 | a staff starts as 32 blank columns |
| AsciiImport.MarkerEnd | src/utils/asciiImport.ts:42-44 | a tempo marker spans at least "[BPM:d]" and stays in the line |
| AsciiImport.NextMarker | src/utils/asciiImport.ts:44 | the marker found is a marker at or after the search position |
| AsciiImport.NextMarkerIsFirst | src/utils/asciiImport.ts:44 | no marker is skipped: the one found is the first |
| AsciiImport.PlaceMarkers | src/utils/asciiImport.ts:44-50 | placing markers changes no cell and no slot count |
| AsciiImport.UnitEnd | src/utils/asciiImport.ts:77-91 | a plain token is the maximal run of non-gap characters; every token is non-empty |
| AsciiImport.PlaceUnit | src/utils/asciiImport.ts:93-96 | placing a token keeps 32 slots of six cells |
| AsciiImport.PlaceUnits | src/utils/asciiImport.ts:59-98 | the tokens of one string change no tempo and no other string |
| AsciiImport.ScanStrings | src/utils/asciiImport.ts:59-98 | scanning the strings changes no tempo |
| AsciiImport.ParseStaff | src/utils/asciiImport.ts:35-100 | every imported row has 32 columns of six cells |
| AsciiImport.ImportRows | src/utils/asciiImport.ts:30-103 | every row produced has 32 columns of six cells |
| AsciiImport.ImportTab | src/utils/asciiImport.ts:8-105 | every row of a successful import has 32 columns of six cells |
| AsciiImport.ReadMarkers | src/utils/asciiImport.ts:41-50 | the regex loop places every marker of the tempo line in order |
| AsciiImport.MarkersStep | src/utils/asciiImport.ts:44 | one pass of the regex loop consumes the next marker |
| AsciiImport.PlaceMarkersSnoc | src/utils/asciiImport.ts:44-50 | placing one more marker acts on the slots so far |
| AsciiImport.ReadString | src/utils/asciiImport.ts:59-98 | the scan loop of one string places its tokens in order |
| AsciiImport.ReadUnit | src/utils/asciiImport.ts:77-91 | the capture loops stop at the token's end |
| AsciiImport.UnitsStep | src/utils/asciiImport.ts:62-91 | one pass of the scan loop consumes the next token |
| AsciiImport.PlaceUnitsSnoc | src/utils/asciiImport.ts:93-96 | placing one more token acts on the slots so far |
| AsciiImport.ReadStaff | src/utils/asciiImport.ts:32-100 | the in-place parse of one staff is the functional parse |
| AsciiImport.ReadRows | src/utils/asciiImport.ts:30-103 | the staff loop, with its in-body index bump, yields the functional rows or the truncation failure |
| AsciiImport.ParseAsciiToTab | src/utils/asciiImport.ts:8-105 | the importer's result is the functional import |
| AsciiImport.PrependNothing | src/utils/asciiImport.ts:100 | pushing no rows changes nothing |
| AsciiImport.PrependAssoc | src/utils/asciiImport.ts:100 | pushing rows in two steps is pushing them at once |
| ExportFacts.BarAt | src/utils/asciiExport.ts:30-36 | within two measures, column c gets a bar exactly when c is 4 * timeSignature |
| ExportFacts.RoundThirdOfCell | src/utils/asciiImport.ts:46 | a position 3c or 3c + 1 rounds back to slot c |
| ExportFacts.CellUnits | src/utils/asciiExport.ts:33-42 | an exported plain cell reads back as no token when silent, otherwise as its note, one character later after a bar |
| ExportFacts.LayerOfStringLine | src/utils/asciiExport.ts:18-47 | between the first and the last bar of an exported string line lie exactly its cells |
| ExportFacts.LabelOfE | src/utils/asciiExport.ts:18 | a tuning name "E" or "E" with an octave digit is labelled "E " |
| ExportFacts.TempoLineBlank | src/utils/asciiExport.ts:20-46 | a row without a truthy tempo has an empty trimmed tempo line |
| ExportFacts.TempoLineMarker | src/utils/asciiExport.ts:16-46 | with one marker on column m, the trimmed tempo line is 4 + 3m spaces (one more past the bar) and the marker text |
| ExportFacts.IndexOfIs | src/utils/asciiImport.ts:54 | indexOf returns an occurrence that no earlier occurrence precedes |
| ImportFacts.UnitEndUnique | src/utils/asciiImport.ts:86-91 | a plain token ends at the first gap after it |
| ImportFacts.UnitsAppend | src/utils/asciiImport.ts:62-97 | a layer part ending in a gap is scanned on its own before the rest |
| ImportFacts.UnitsShift | src/utils/asciiImport.ts:62-97 | the tokens of a suffix are found at their positions moved by the prefix length |
| ImportFacts.UnitsAllGaps | src/utils/asciiImport.ts:64-67 | a layer of gaps holds no token |
| ImportFacts.PlaceUnitsAppend | src/utils/asciiImport.ts:93-96 | placing two token lists one after the other is placing their concatenation |
| ImportFacts.NextMarkerSkip | src/utils/asciiImport.ts:44 | the regex search passes over positions where no marker starts |
| ImportFacts.MarkersOfSingle | src/utils/asciiImport.ts:42-50 | spaces and one `[BPM:d]` closing the line hold exactly that marker |
| ImportFacts.SingleMarker | src/utils/asciiImport.ts:42-50 | spaces followed by `[BPM:d]` hold that marker alone, at the end of the spaces |
| ImportFacts.TagNumberSkip | src/utils/asciiImport.ts:23-24 | the tag search passes over positions where the tag does not match |
| ImportFacts.TagNumberAt | src/utils/asciiImport.ts:23-26 | a tag, any run of white space and a digit run ending at a non-digit or at the end of the line read as the value of those digits |
| StaffRoundTrip.JoinedUnits | src/utils/asciiImport.ts:62-97 | the tokens of the exported cells are one per non-empty cell, at the cell's start |
| StaffRoundTrip.CellTextsAreParts | src/utils/asciiExport.ts:33-42 | the exported cells of a plain string are three characters each, with the bar before column 4 * timeSignature |
| StaffRoundTrip.ContentUnits | src/utils/asciiExport.ts:33-42 | the tokens between the bars of a string line are one per non-empty cell, each where that cell starts |
| StaffRoundTrip.PlaceExpected | src/utils/asciiImport.ts:93-96 | placing those tokens puts every non-empty note in its own column's slot and leaves the other slots alone |
| StaffRoundTrip.ScanExpected | src/utils/asciiImport.ts:59-98 | the string scan reads every string's notes back into the marked slots |
| StaffRoundTrip.StaffMarkers | src/utils/asciiImport.ts:41-50 | the marker pass over an exported tempo line sets the tempo of the marker column alone |
| StaffRoundTrip.OneMarker | src/utils/asciiImport.ts:41-50 | with one marker on column m, only slot m gets that tempo |
| StaffRoundTrip.ReadIsExpected | src/utils/asciiImport.ts:35-100 | the read-back slots are the row's columns, truthy tempos kept, padded with blank columns to 32 |
| StaffRoundTrip.ExportedStaffRead | src/utils/asciiImport.ts:32-100 | an exported staff (within two measures, plain cells, at most one marker) parses to its row spread over 32 slots |
| RoundTrip.LinesOfClean | src/utils/asciiImport.ts:11 | joining lines that hold no newline and end in no white space, then splitting and right-trimming, gives them back and one empty line |
| RoundTrip.TempoLineClean | src/utils/asciiExport.ts:16-46 | the tempo line of a readable row holds no 'E', no newline and no trailing white space |
| RoundTrip.StringLineClean | src/utils/asciiExport.ts:18-47 | a string line of a readable row holds no newline and no trailing white space |
| RoundTrip.HeaderClean | src/utils/asciiExport.ts:9-10 | the header lines are clean, the first has no "E \|", the second no 'E', the third is empty |
| RoundTrip.StaffClean | src/utils/asciiExport.ts:13-48 | every line of a readable staff is clean |
| RoundTrip.StavesClean | src/utils/asciiExport.ts:12-49 | every line of every readable staff is clean |
| RoundTrip.LinesOfExport | src/utils/asciiImport.ts:11 | the importer's lines of an export are the exporter's lines and a last empty one |
| RoundTrip.TitleLineRead | src/utils/asciiImport.ts:16-20 | the exported title line splits back into the title and the artist |
| RoundTrip.MetaLineRead | src/utils/asciiImport.ts:21-26 | the exported tempo line contains "Tempo:" and reads back as the BPM and the meter |
| RoundTrip.HeaderRead | src/utils/asciiImport.ts:15-27 | the exported header reads back as title, artist, BPM and meter |
| RoundTrip.StaffRead | src/utils/asciiImport.ts:30-101 | at a staff, the loop passes the number and tempo lines, reads the row from the six string lines and resumes after the blank line |
| RoundTrip.StaffOfSheet | src/utils/asciiExport.ts:13-48 | the lines of an exported staff: the top string line opens it, the others do not, and the nine lines parse to the expected row |
| RoundTrip.RowsFrom | src/utils/asciiImport.ts:30-103 | from staff r on, the staff loop yields exactly the expected rows r onwards |
| RoundTrip.ExportImportRoundTrip | src/utils/asciiImport.ts:8-105 | importing an exported readable sheet gives back its title, artist, BPM and meter, and each row spread over 32 slots with truthy tempos kept |
| SampleSheet.Sample | src/store/TabContext.tsx:38-45 | the default sheet renamed "Test" by "Artist" with fret 0 at row 0, column 0, string 0; everything else blank |
| SampleSheet.FirstLines | src/utils/asciiExport.ts:9-47 | line 0 of any export is "title - artist", and line 5 opens with the top string's label, a bar and the first cell |
| SampleSheet.StringLineOpening | src/utils/asciiExport.ts:18-47 | a string line opens with its label, a bar and its first cell |
| SampleSheet.TestArtistExport | src/utils/asciiExport.ts:9-42 | any sheet titled "Test" by "Artist" with an E4 top string and fret 0 in its first cell exports the line "Test - Artist" and a first string line opening "E \|0--" |
| SampleSheet.SampleExport | src/utils/asciiExport.ts:9-42 | the sample's export opens with "Test - Artist", and its first string line with "E \|0--" |
| SampleSheet.SampleHeader | src/utils/asciiImport.ts:16-21 | "Test" and "Artist" are names the importer's header parse gives back |
| SampleSheet.SampleReadable | src/utils/asciiImport.ts:8-105 | the sample meets every condition of the round trip |
| SampleSheet.FirstCellBack | src/utils/asciiImport.ts:8-105 | importing a readable export gives back its title, artist, tempo, meter, row count and first cell |
| SampleSheet.SampleImport | src/utils/asciiImport.ts:8-105 | importing the sample's export gives "Test", "Artist", 120, 4 and one 32-slot row whose first cell holds "0" on the high string |
| UniversalWash.RemoveCarriageReturns | src/utils/universalWash.ts:10 | no carriage return is left; text without one is unchanged |
| UniversalWash.Filter | src/utils/universalWash.ts:13-19 | every kept line passes the test and is an input line, every passing input line is kept, and no more lines come out than went in |
| UniversalWash.FilterAppend | src/utils/universalWash.ts:13-19 | filtering a concatenation is filtering each part and concatenating, so the kept lines keep their input order |
| UniversalWash.FilterSingle | src/utils/universalWash.ts:13-19 | a single line is kept exactly when it passes the test; with FilterAppend this fixes the kept lines, order and repeats included |
| UniversalWash.WashLines | src/utils/universalWash.ts:10-19 | every kept line is non-blank, not a count line, and does not start with PM or PH |
| UniversalWash.StringLineIsPattern | src/utils/universalWash.ts:26 | a line is a string line iff an optional tuning letter, spaces, an optional bar and ten staff characters match at its start |
| UniversalWash.RunEndCovers | src/utils/universalWash.ts:26 | a run of staff characters reaches at least as far as any run inside it |
| UniversalWash.FirstBarOrDash | src/utils/universalWash.ts:39 | the first bar or dash of a line, or -1 when there is none |
| UniversalWash.WashLayer | src/utils/universalWash.ts:38-45 | a layer is never longer than its line |
| UniversalWash.WashLayerShape | src/utils/universalWash.ts:38-45 | a layer is the text after the first bar or dash, minus one closing bar |
| UniversalWash.MaxLength | src/utils/universalWash.ts:47 | the longest layer length, attained by some layer |
| UniversalWash.TokenEnd | src/utils/universalWash.ts:69-79 | a token always advances the scan |
| UniversalWash.TokenText | src/utils/universalWash.ts:68-79 | a harmonic token ends with '>'; any other token is its start character and technique characters |
| UniversalWash.TokensAdvance | src/utils/universalWash.ts:58-86 | tokens start inside the layer at token-start characters, in strictly increasing order |
| UniversalWash.FloorDiv | src/utils/universalWash.ts:66 | the floor of n / m |
| UniversalWash.FloorDivMonotone | src/utils/universalWash.ts:66 | floor division is monotone in the dividend |
| UniversalWash.WashSlot | src/utils/universalWash.ts:66 | every slot is in 0..31 |
| UniversalWash.WashSlotMonotone | src/utils/universalWash.ts:66 | slots do not decrease along a layer |
| UniversalWash.WashSlotInsideLayer | src/utils/universalWash.ts:66 | inside the longest layer the cap at 31 never applies |
| UniversalWash.BlankGrid | src/utils/universalWash.ts:50-53 | a block starts as 32 blank columns |
| UniversalWash.PlaceToken | src/utils/universalWash.ts:81 | placing a token keeps 32 slots of six cells |
| UniversalWash.PlaceTokens | src/utils/universalWash.ts:56-87 | the tokens of one string change no other string |
| UniversalWash.LastTokenWins | src/utils/universalWash.ts:81 | a token's slot holds it unless a later token of the string lands there |
| UniversalWash.QuantiseStrings | src/utils/universalWash.ts:56-87 | quantising keeps 32 slots of six cells |
| UniversalWash.BlockLayers | src/utils/universalWash.ts:38-45 | a block has one layer per string |
| UniversalWash.WashBlock | src/utils/universalWash.ts:47-89 | a block yields a row iff its longest layer has at least 10 characters, and that row has 32 columns of six cells |
| UniversalWash.WashRowsCount | src/utils/universalWash.ts:34-35 | at most one row per full group of six string lines |
| UniversalWash.WashRowsShape | src/utils/universalWash.ts:50-53 | every washed row has 32 columns of six cells |
| UniversalWash.Wash | src/utils/universalWash.ts:8-92 | row count at most string lines / 6; every row has 32 columns of six cells |
| UniversalWash.CollectStaffLines | src/utils/universalWash.ts:28-31 | the forEach keeps exactly the string lines, in order |
| UniversalWash.CaptureUnit | src/utils/universalWash.ts:68-79 | the capture loops produce the token and its end |
| UniversalWash.WashString | src/utils/universalWash.ts:57-86 | the scan loop of one string places its tokens in order |
| UniversalWash.TokensStep | src/utils/universalWash.ts:60-85 | one pass of the scan loop consumes the next token |
| UniversalWash.PlaceTokensSnoc | src/utils/universalWash.ts:81 | placing one more token acts on the slots so far |
| UniversalWash.QuantiseBlock | src/utils/universalWash.ts:50-87 | the in-place quantiser is the functional one |
| UniversalWash.WashOneBlock | src/utils/universalWash.ts:35-89 | one block yields the functional block result |
| UniversalWash.WashRowsStep | src/utils/universalWash.ts:34 | one pass of the block loop consumes six lines |
| UniversalWash.WashBlocks | src/utils/universalWash.ts:34-90 | the block loop yields the functional rows |
| UniversalWash.WashDirtyAscii | src/utils/universalWash.ts:8-92 | the wash's result is the functional wash |
| Shortcuts.SelectedString | src/types/shortcuts.ts:9-15 | SELECT_STRING_n names string index n - 1, in 0..5 |
| Shortcuts.DefaultShortcutsShape | src/store/ShortcutContext.tsx:20-31 | the defaults bind SELECT_STRING_1..6 to q b g d a e, bind no digit, and give each action one key |
| Shortcuts.Remapped | src/store/ShortcutContext.tsx:75-99 | a digit key changes nothing; otherwise the lower-cased key gets the action, every other key bound to it is removed, other bindings stay, and one-key-per-action and no-digit-keys are preserved |
| Shortcuts.KeptStep | src/store/ShortcutContext.tsx:89-93 | one pass of the forEach drops the key exactly when it is bound to the action |
| Shortcuts.DropAction | src/store/ShortcutContext.tsx:85-93 | the copy and the forEach leave exactly the keys not bound to the action |
| Shortcuts.RemapKey | src/store/ShortcutContext.tsx:75-99 | the digit check, the delete loop and the assignment compute the remapped map |
| Shortcuts.ResetShortcuts | src/store/ShortcutContext.tsx:104-106 | the defaults, which bind no digit and give each action one key |
| KeyboardEngine.Clamp | src/hooks/useKeyboardEngine.tsx:87 | the value limited to 0..hi |
| KeyboardEngine.AltRowMove | src/hooks/useKeyboardEngine.tsx:35-39 | Alt+Up/Down moves one row, kept in 0..rows-1; column and string unchanged |
| KeyboardEngine.ArrowMove | src/hooks/useKeyboardEngine.tsx:93-101 | each arrow moves one string or column, clamped to 0..5 or 0..31; the row is unchanged |
| KeyboardEngine.EnterMove | src/hooks/useKeyboardEngine.tsx:105-115 | Enter advances a column, wraps to the next row at column 31, and stays put on the last row |
| KeyboardEngine.HandleKeyDown | src/hooks/useKeyboardEngine.tsx:20-132 | keys in a plain input are ignored; Alt never edits, saves or adds a row; every move keeps the cursor in bounds; every edit is a clear, an articulation or a digit |
| KeyboardEngine.PlainArrows | src/hooks/useKeyboardEngine.tsx:93-102 | a plain arrow key makes exactly the clamped arrow move |
| KeyboardEngine.ShiftJump | src/hooks/useKeyboardEngine.tsx:84-90 | Shift+Left/Right moves four columns, clamped to 0..31 |
| KeyboardEngine.SelectStringKey | src/hooks/useKeyboardEngine.tsx:76-81 | a key bound to SELECT_STRING_n selects string n - 1, keeping row and column |
| KeyboardEngine.EditingKeys | src/hooks/useKeyboardEngine.tsx:59-64 | Backspace and Delete clear the cell; a digit key enters that digit |
| KeyboardEngine.ColumnBoundMismatch | src/hooks/useKeyboardEngine.tsx:99 | on the default sheet, ArrowRight from column 15 reaches column 16, which the 16-column row does not have |

## Left out

- Column and row identifiers (`crypto.randomUUID`) are not modelled; no logic reads them.
- Storage and persistence (`saveManual`, `localStorage`, the shortcut map's load and sync, project catalog lookup) are left out. `LoadProject` takes the looked-up project as a parameter.
- `triggerAsciiDownload` (Blob, DOM link) is I/O and is not modelled.
- Audio (`initAudio`, `playNote`), playback timing, `preventDefault` and the event-listener wiring are left out.
- Undo, redo and `shiftNotes` are called by the keyboard engine but not defined by the tab store shown; the model emits them as commands (`Undo`, `Redo`, `ShiftNotes`) and gives them no meaning.
- The `TOGGLE_` branch of the keyboard engine (lines 69-74) cannot fire: no shortcut action starts with `TOGGLE_`. A shortcut map parsed from storage could hold any string; the model's actions are the typed ones.
- Numbers are JavaScript doubles in the source. The model uses unbounded integers, with no NaN, no fractions and no precision loss above 2^53.
- `toLowerCase`/`toUpperCase` are modelled on ASCII letters only.
- JavaScript string lengths, `padEnd`, indexing and positions count UTF-16 code units, while a Dafny `char` is one Unicode scalar value. The model therefore differs for characters outside the Basic Multilingual Plane and for lone surrogates: `currentVal.length === 1` in `updateNote`, `padEnd` in the exporter, and the slot arithmetic of the importer and the wash.
- TabContext.UpdateTuning: requires the string index to be in range; JavaScript would extend the array with holes for a larger index.
- AsciiImport.TitleAndArtist: its contract states only the default case; the split case is stated through the round trip.
- RoundTrip.ExportImportRoundTrip: holds only for readable sheets. Each row fits in two measures and in 32 columns, has at most one column with a truthy tempo, which must be positive, and every cell is at most two characters with no '-', ' ', '|', '<' or newline. The title must not end in " -" nor hold " - ", and the artist must be non-empty and hold no " - ". Neither name may have white space at either end or a newline, and the title line must not contain "E |" or "Tempo:". The top string must be "E" or "E" with an octave digit, and no tuning name may hold '|' or a newline. Outside these conditions the text does not read back as written.
- StaffRoundTrip.ExportedStaffRead: rows longer than two measures, several markers and multi-character or harmonic cells are not covered; there a bar or a wider cell shifts later positions and rounding can move them to another slot.
- KeyboardEngine.HandleKeyDown: columns are clamped to 0..31 while new rows have 16 columns, so a move can leave the row; `ColumnBoundMismatch` exhibits it and the model keeps the source's bound.
