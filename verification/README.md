# ExcelCSVConverter in Dafny

A model of the batch converter in `ExcelCSVConverter.py`. The program asks the
user for an input and an output directory. It then converts every spreadsheet
in the input directory (every entry whose name ends in `.xlsx` or `.xls`) into
a CSV file of the same base name in the output directory. Each file's success
or failure is logged and shown in a message box. A failed read, a failed write
or a failed success box ends only that file's turn, and the loop goes on with
the next entry. A missing directory or a failed directory listing abandons the
run. So, in the source, does an exception raised by the per-file handler's log
call or box (lines 57-58) or by an abort handler (lines 61-70). This model does
not cover those exceptions.

Layout:

- `path_names.dfy`, module `PathNames`: the Python string and path primitives
  the converter uses. These are `str.endswith`, `str.rfind('.')`, and the root
  half of `os.path.splitext` on a bare directory entry.
- `batches.dfy`, module `Batches`: a loop over a listing seen from outside.
  `Concat` gathers each entry's output, `Fold` threads a state through the
  entries, and `Filter` selects entries. Their lemmas hold for any per-entry
  step.
- `converter.dfy`, module `ExcelCsvConverter`: the data model and the
  specification functions. It also holds the program itself: `ConvertEntry`
  (one loop iteration), `ConvertEntries` (the `for` loop), `Convert`
  (`convert_excel_to_csv`) and `RunMain` (`main`). Each method is verified
  against a specification function.
- `converter_properties.dfy`, module `ConverterProperties`: what the program
  promises, proved about those specification functions.

How the outside world is modelled:

- A `World` value holds every oracle:
  - `present`: `os.path.exists`.
  - `listing`: `os.listdir`, either the entries in listing order or the kind of
    exception raised.
  - `readExcel`: `pd.read_excel`; `None` when it raises.
  - `writeCsv`: `DataFrame.to_csv`; `false` when it raises.
  - `successBoxFails`: the success `messagebox.showinfo` (line 54) raises. The
    handler at line 56 then catches it.
- The output directory is a `map<Path, Table>`. `Path` is the pair given to
  `os.path.join`.
- Every `logging` call and every `messagebox` call appends an `Event` to one
  stream, in program order. An event carries a severity and a `Topic`, the
  subject of its message.
- A cancelled directory dialog returns the empty string, as
  `filedialog.askdirectory` does.

Behaviour of the code worth noting:

- A `PermissionError` while writing a CSV is caught by the per-file handler at
  line 49. It is a per-file write failure and the loop goes on with the next
  entry.
- The two "no directory selected" warnings (lines 77 and 83) and the completion
  box (line 88) are message boxes only. They are not logged.
- A success is logged at line 48 before its box at line 54. If that box raises,
  the handler at line 56 logs and shows an error naming the spreadsheet, and the
  CSV stays written. The box that raised is not recorded as shown.
- An entry that does not end in `.xlsx` or `.xls` is skipped silently: no event
  and no file.

## Model

| member | source | states |
|---|---|---|
| PathNames.LastDot | ExcelCSVConverter.py:33 | the index of the last dot of a name, or -1 when it has none: the character there is a dot and no dot follows it |
| PathNames.SplitExtRoot | ExcelCSVConverter.py:33 | the `splitext` root is a prefix of the name; when it is shorter, what it drops is a single extension (a dot followed by no dot) and the root is not made of dots alone |
| PathNames.SplitExtRootOf | ExcelCSVConverter.py:33 | the root of `stem + ext` is `stem`, except that a stem made only of dots keeps the whole name |
| PathNames.SplitExtRootNoDot | ExcelCSVConverter.py:33 | a name without a dot is its own root |
| ExcelCsvConverter.IsCandidate | ExcelCSVConverter.py:28 | the entry filter: a case-sensitive test for the suffix ".xlsx" or ".xls"; a selected name has at least four characters and ends in "x" or "s" |
| ExcelCsvConverter.CsvName | ExcelCSVConverter.py:33-35 | the output file name: a prefix of the entry's name followed by ".csv" |
| ExcelCsvConverter.AbortCause | ExcelCSVConverter.py:20-27 | the run goes on exactly when both directories exist and the listing succeeds; a missing input directory is reported before anything else, and a missing output directory only when the input exists |
| ExcelCsvConverter.HandlerOf | ExcelCSVConverter.py:60-70 | the `except` clause that catches an abort: the permission handler exactly for a listing refused for permission, the generic handler exactly for another OS error of the listing, the directory handler otherwise |
| ConverterProperties.CandidateExamples | ExcelCSVConverter.py:28 | "report.xlsx", "a.b.xls" and ".xlsx" are candidates: the suffix test of line 28 selects them |
| ConverterProperties.NonCandidateExamples | ExcelCSVConverter.py:28 | "A.XLSX", "notes.txt", "book.xlsm", "report.csv" and "xlsx" are not candidates: the test is a case-sensitive suffix match |
| ConverterProperties.CandidateSplits | ExcelCSVConverter.py:28 | a candidate ends in exactly one of the two extensions and is that extension appended to the rest of its name |
| ConverterProperties.CandidateOfExtension | ExcelCSVConverter.py:28 | any stem followed by ".xlsx" or ".xls" is a candidate |
| ConverterProperties.CsvNameOfCandidate | ExcelCSVConverter.py:33-35 | the CSV name of `stem + ext` is `stem + ".csv"`, or the whole name plus ".csv" when the stem is only dots |
| ConverterProperties.CsvNameOfReport | ExcelCSVConverter.py:33-35 | "report.xlsx" is written as "report.csv" |
| ConverterProperties.CsvNameCutsLastExtension | ExcelCSVConverter.py:33-35 | "a.b.xls" is a candidate and is written as "a.b.csv": only the last extension is removed |
| ConverterProperties.CsvNameOfDotName | ExcelCSVConverter.py:33-35 | ".xlsx" is written as ".xlsx.csv" |
| ConverterProperties.CsvNamesCollide | ExcelCSVConverter.py:33-35 | "a.xls" and "a.xlsx" are both written to "a.csv" |
| ConverterProperties.CsvNameNotCandidate | ExcelCSVConverter.py:28-35 | a CSV name is never a candidate, so an output written into the input directory is never converted again |
| ExcelCsvConverter.ConvertEntry | ExcelCSVConverter.py:28-58 | one loop iteration: nothing for a non-candidate; otherwise the log line and the message box of its single outcome (read failure, write failure or success), with the error log line of line 57 between them when the success box raises, and the CSV written exactly when the write succeeded |
| ExcelCsvConverter.ConvertEntries | ExcelCSVConverter.py:27-58 | the loop emits the events of every entry in listing order and leaves the files that the entries write one after another |
| ExcelCsvConverter.Convert | ExcelCSVConverter.py:17-70 | a missing input directory (checked first) or a missing output directory aborts with its own error events and no file written; a failed listing aborts through the handler of its exception kind; otherwise the loop runs over the listing |
| ExcelCsvConverter.RunMain | ExcelCSVConverter.py:72-88 | with no input choice, or no output choice, one warning box and no conversion; otherwise the conversion's events followed by the completion box, even after an abort |
| Batches.FilterAppend | ExcelCSVConverter.py:27-28 | selecting the candidates keeps listing order and multiplicity: it distributes over concatenation |
| ConverterProperties.NonCandidatesIgnored | ExcelCSVConverter.py:27-28 | dropping every non-candidate from the listing changes neither the events nor the output files |
| ConverterProperties.ReportBoxes | ExcelCSVConverter.py:38-58 | whatever the outcome, its report opens with the outcome's log line and holds exactly one message box, which closes it |
| ConverterProperties.CandidateReport | ExcelCSVConverter.py:38-58 | a candidate's events open with the log line of its outcome and hold exactly one message box, which closes them |
| ConverterProperties.EntryBoxes | ExcelCSVConverter.py:27-58 | the message boxes of one entry are the one closing box of a candidate, and none for any other entry |
| ConverterProperties.OneOutcomePerCandidate | ExcelCSVConverter.py:27-58 | the message boxes of the loop are exactly one per candidate, in listing order, each the box of that candidate's outcome |
| ConverterProperties.EntriesIndependent | ExcelCSVConverter.py:27-58 | the events of `a + b` are those of `a` followed by those of `b`, and `b` writes into what `a` left: a failing entry does not stop or alter later ones |
| ConverterProperties.StoreGrows | ExcelCSVConverter.py:46-47 | the run only adds or overwrites files; every file that existed still exists |
| ConverterProperties.OnlyConvertedWrite | ExcelCSVConverter.py:38-52 | a file that no converted candidate maps to is left exactly as it was: read failures and non-candidates write nothing, and the model's failed writes write nothing |
| ConverterProperties.OutsideOutputUntouched | ExcelCSVConverter.py:35 | nothing outside the output directory is written |
| ConverterProperties.LastWriteWins | ExcelCSVConverter.py:35-47 | when several candidates share a CSV path, that CSV holds the table of the last one converted in listing order |
| ConverterProperties.ConvertedCsvExists | ExcelCSVConverter.py:35-47 | every converted candidate's CSV exists afterwards |
| ConverterProperties.FileStoreOverlay | ExcelCSVConverter.py:47 | one entry writes the same file whatever else the output directory holds |
| ConverterProperties.StoreOverlay | ExcelCSVConverter.py:27-58 | the output directory afterwards is its old content overlaid with what the run writes into an empty directory |
| ConverterProperties.ConvertIdempotent | ExcelCSVConverter.py:17-70 | running the conversion again over its own output gives the same files and the same events |
| ConverterProperties.ReadFailureSkipsWrite | ExcelCSVConverter.py:38-43 | after a read failure the events are one error log line and one error box naming the spreadsheet, whatever the writer would do, and no file is written |
| ConverterProperties.WriteFailureReported | ExcelCSVConverter.py:46-52 | a write failure gives one error log line and one error box naming the CSV, and no success box |
| ConverterProperties.SuccessReported | ExcelCSVConverter.py:46-54 | a full success gives an info log line, then a success box, and stores the table under the CSV path |
| ConverterProperties.SuccessBoxFailureReported | ExcelCSVConverter.py:46-58 | when the success box raises, the info log line is followed by an error log line and an error box naming the spreadsheet, and the CSV stays written |
| ConverterProperties.AbortReportsOnce | ExcelCSVConverter.py:20-24 | an abort writes no file and emits exactly one error log line and one error box; the input directory is checked before the output directory |
| ConverterProperties.NoCandidatesNoEvents | ExcelCSVConverter.py:27-28 | a listing with no spreadsheet is not an error: no event and no file |
| ConverterProperties.ReportScenario | ExcelCSVConverter.py:27-54 | a folder with "report.xlsx" and "notes.txt" yields exactly "report.csv" and only the report's two success events |

## Left out

- Spreadsheet decoding and CSV encoding: the sheet choice, the BOM-prefixed UTF-8 encoding, `index=False`, and the quoting and formatting of cells all happen inside pandas and openpyxl. `Table` is a record the converter never inspects, and the read and the write are success/failure oracles. Because the reader is an oracle, the model does not say that the openpyxl engine rejects legacy `.xls` workbooks. Those files simply take the read-failure path whenever the oracle says so.
- The text of log lines and message boxes: timestamps, the Japanese wording and the exception text `{e}`. An event keeps only its severity and its topic, the file or cause it names.
- `logging.basicConfig` and the log file itself, as well as the blocking behaviour of message boxes and the dialogs of `select_directory`. The dialogs' results are the two choice strings given to `RunMain`.
- Filesystem details: `os.path.exists` and `os.listdir` are oracles, and the listing order is whatever the oracle gives. `os.path.join` is kept as a pair, so separators and absolute second arguments are not modelled. `splitext` is modelled only for names without separators, which is all that `os.listdir` returns. File names are compared as exact strings, with no case folding or Unicode normalisation. On a case-insensitive file system "A.xlsx" and "a.xls" write the same file, but the model keeps their CSVs apart, so `OnlyConvertedWrite` and `LastWriteWins` hold only where names are case-sensitive.
- The `World` is fixed for the whole run. A CSV written into the input directory does not appear in the listing, which is taken once, as the program does. Reads and writes do not depend on earlier writes. `ConvertIdempotent` relies on this.
- Unexpected per-file failures: of the exceptions the handler at line 56 can catch, only one raised by the success box (line 54) is modelled. The statements before the read (lines 31-35) cannot raise on the strings `os.listdir` returns. Exceptions raised by the handlers themselves are not modelled. These are the logging calls and error boxes at lines 41-42, 50-51 and 57-58, and the abort handlers' calls at lines 61-62, 65-66 and 69-70. In the source, an exception from lines 41-42 or 50-51 is caught at line 56. One from lines 57-58 escapes the per-file `try`, reaches the handler at line 68 and abandons the rest of the loop. One from lines 61-70 leaves `convert_excel_to_csv`, so `main` never shows the completion box of line 88. The model assumes every handler completes.
- WriteFailureReported: `FileStore` leaves the output directory unchanged after any failed write. A real `to_csv` at line 47 opens the CSV for writing before it can fail, so it may already have created or truncated the file. The same assumption underlies these lemmas:
- OnlyConvertedWrite: the CSV path of a candidate whose write failed is treated as untouched, though in the source it may be empty or partial.
- LastWriteWins: a later candidate with the same CSV path whose write fails is treated as not touching the file. In the source it may truncate the earlier table, as with "a.xls" converted and then "a.xlsx" failing to write "a.csv".
- StoreOverlay: what the run writes is taken to be only the converted candidates' tables, with no residue from failed writes.
- ConvertIdempotent: a second run is taken to find the same files. A failed write that truncated a file would make the second run start from different content.
- The `if __name__ == "__main__"` guard that calls `main` is not modelled.
