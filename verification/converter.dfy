/** The batch conversion of `ExcelCSVConverter.py`: which directory entries are
    converted, what each one is written to, which log lines and popups each one
    produces, and the gating done by `main`.

    Everything the program delegates is an oracle held in a `World`: directory
    existence and listing, the spreadsheet reader (`pd.read_excel`) and the CSV
    writer (`DataFrame.to_csv`). Log lines and message boxes are `Event`s appended
    to one stream, in the order the program emits them. */
module ExcelCsvConverter {
  import opened PathNames
  import opened Batches

  datatype Option<T> = None | Some(value: T)

  /** `os.path.join(dir, name)`, kept as the pair it is built from. */
  datatype Path = Path(dir: string, name: string)

  /** The first sheet as the reader decodes it; the converter never looks inside. */
  datatype Table = Table(columns: seq<string>, rows: seq<seq<string>>)

  /** The exception kinds `os.listdir` can raise, by the handler that catches them. */
  datatype OsError = NotFoundError | PermissionDenied | OtherOsError

  /** The result of `os.listdir(input_directory)`: the entries in listing order, or a failure. */
  datatype Listing = Listed(names: seq<string>) | ListFailed(error: OsError)

  /** The filesystem and the pandas calls, as the converter observes them. */
  datatype World = World(
    present: string -> bool,              // os.path.exists
    listing: string -> Listing,           // os.listdir
    readExcel: Path -> Option<Table>,     // pd.read_excel; None when it raises
    writeCsv: (Path, Table) -> bool,      // df.to_csv; false when it raises
    successBoxFails: Path -> bool         // the success messagebox.showinfo raises for this spreadsheet
  )

  /** The two chosen directories. */
  datatype Request = Request(input: string, output: string)

  /** Why a run is abandoned before any entry is looked at. */
  datatype Cause = InputMissing | OutputMissing | ListingFailed(error: OsError)

  /** The `except` clause of the outer `try` that catches an abort. */
  datatype Handler = DirectoryHandler | PermissionHandler | GenericHandler

  /** The terminal outcome of one candidate file. A converted file whose success
      box raised is still written, but `announced` is false. */
  datatype Outcome = ReadError | WriteError | Converted(table: Table, announced: bool)

  datatype Severity = Info | Warning | Error

  /** What a log line or a message box is about. */
  datatype Topic =
    | ReadFailed(file: string)
    | WriteFailed(csv: string)
    | Saved(file: string, csv: string)
    | FileFailed(file: string)
    | Aborted(cause: Cause)
    | AbortNotice(handler: Handler)
    | NoInputSelected
    | NoOutputSelected
    | AllDone

  /** A `logging` call or a `messagebox` call. */
  datatype Event = Log(level: Severity, topic: Topic) | Popup(kind: Severity, topic: Topic)

  /** What one run leaves behind: the event stream and the output files. */
  datatype Run = Run(events: seq<Event>, store: map<Path, Table>)

  // ---------------------------------------------------------------------------
  // Per-entry specification

  /** An entry is converted when its name ends in ".xlsx" or ".xls" (case-sensitive). */
  predicate IsCandidate(name: string): (r: bool)
    ensures r ==> 4 <= |name| && name[|name| - 1] in "xs"
  {
    EndsWith(name, ".xlsx") || EndsWith(name, ".xls")
  }

  /** The output file name: the `splitext` root of the entry with ".csv" appended. */
  function CsvName(name: string): (r: string)
    ensures 4 <= |r| <= |name| + 4 && r[|r| - 4..] == ".csv"
    ensures r[..|r| - 4] == name[..|r| - 4]
  {
    SplitExtRoot(name) + ".csv"
  }

  function ExcelPath(req: Request, name: string): Path {
    Path(req.input, name)
  }

  function CsvPath(req: Request, name: string): Path {
    Path(req.output, CsvName(name))
  }

  /** The outcome of a candidate: the read, then the write, then the success box. */
  function Verdict(w: World, req: Request, name: string): Outcome {
    match w.readExcel(ExcelPath(req, name))
    case None => ReadError
    case Some(t) =>
      if !w.writeCsv(CsvPath(req, name), t) then WriteError
      else Converted(t, !w.successBoxFails(ExcelPath(req, name)))
  }

  function Level(o: Outcome): Severity {
    if o.Converted? then Info else Error
  }

  function Announcement(name: string, o: Outcome): Topic {
    match o
    case ReadError => ReadFailed(name)
    case WriteError => WriteFailed(CsvName(name))
    case Converted(_, _) => Saved(name, CsvName(name))
  }

  /** A success whose box raised: the outer handler of the entry caught it. */
  predicate BoxFailed(o: Outcome) {
    o.Converted? && !o.announced
  }

  /** The message box that closes a candidate's report. */
  function Box(name: string, o: Outcome): Event {
    if BoxFailed(o) then Popup(Error, FileFailed(name))
    else Popup(Level(o), Announcement(name, o))
  }

  predicate IsBox(e: Event) {
    e.Popup?
  }

  /** The events of one entry: nothing for a non-candidate, otherwise the log
      line of its outcome and its closing box; when the success box raised, the
      outer handler's error log line comes between the two. */
  function FileEvents(w: World, req: Request, name: string): seq<Event> {
    if !IsCandidate(name) then [] else Report(name, Verdict(w, req, name))
  }

  /** The events of a candidate with outcome `o`. */
  function Report(name: string, o: Outcome): seq<Event> {
    var opening := Log(Level(o), Announcement(name, o));
    if BoxFailed(o) then [opening, Log(Error, FileFailed(name)), Box(name, o)]
    else [opening, Box(name, o)]
  }

  /** The output files after one entry: a converted candidate (over)writes its CSV. */
  function FileStore(w: World, req: Request, store: map<Path, Table>, name: string): map<Path, Table> {
    if IsCandidate(name) && Verdict(w, req, name).Converted? then
      store[CsvPath(req, name) := Verdict(w, req, name).table]
    else store
  }

  // ---------------------------------------------------------------------------
  // Whole-run specification

  /** The loop's step for events: one entry's events. */
  function EntryEvents(w: World, req: Request): string -> seq<Event> {
    name => FileEvents(w, req, name)
  }

  /** The closing box of a candidate entry. */
  function EntryBox(w: World, req: Request): string -> Event {
    name => Box(name, Verdict(w, req, name))
  }

  /** The loop's step for the output directory: one entry's effect on it. */
  function EntryStore(w: World, req: Request): (map<Path, Table>, string) -> map<Path, Table> {
    (store, name) => FileStore(w, req, store, name)
  }

  /** The events of the loop over `names`: each entry's events, in listing order. */
  function BatchEvents(w: World, req: Request, names: seq<string>): seq<Event> {
    Concat(EntryEvents(w, req), names)
  }

  /** The output files after the loop over `names`. */
  function BatchStore(w: World, req: Request, store: map<Path, Table>, names: seq<string>): map<Path, Table> {
    Fold(EntryStore(w, req), store, names)
  }

  function HandlerOf(c: Cause): (h: Handler)
    ensures h == PermissionHandler <==> c == ListingFailed(PermissionDenied)
    ensures h == GenericHandler <==> c == ListingFailed(OtherOsError)
  {
    match c
    case InputMissing => DirectoryHandler
    case OutputMissing => DirectoryHandler
    case ListingFailed(NotFoundError) => DirectoryHandler
    case ListingFailed(PermissionDenied) => PermissionHandler
    case ListingFailed(OtherOsError) => GenericHandler
  }

  /** An abort is reported once: an error log line and an error message box. */
  function AbortEvents(c: Cause): seq<Event> {
    [Log(Error, Aborted(c)), Popup(Error, AbortNotice(HandlerOf(c)))]
  }

  /** The cause that stops a run before its loop, if any; input is checked first. */
  function AbortCause(w: World, req: Request): (r: Option<Cause>)
    ensures r == None <==> w.present(req.input) && w.present(req.output) && w.listing(req.input).Listed?
    ensures !w.present(req.input) ==> r == Some(InputMissing)
    ensures r == Some(OutputMissing) ==> w.present(req.input)
  {
    if !w.present(req.input) then Some(InputMissing)
    else if !w.present(req.output) then Some(OutputMissing)
    else match w.listing(req.input)
      case ListFailed(e) => Some(ListingFailed(e))
      case Listed(_) => None
  }

  /** What `convert_excel_to_csv` does, as a function of the world and the old output files. */
  function ConvertRun(w: World, req: Request, store: map<Path, Table>): Run {
    match AbortCause(w, req)
    case Some(c) => Run(AbortEvents(c), store)
    case None =>
      var names := w.listing(req.input).names;
      Run(BatchEvents(w, req, names), BatchStore(w, req, store, names))
  }

  // ---------------------------------------------------------------------------
  // The program

  /** `convert_excel_to_csv(input_directory, output_directory)`. */
  method Convert(w: World, req: Request, store: map<Path, Table>) returns (events: seq<Event>, written: map<Path, Table>)
    ensures Run(events, written) == ConvertRun(w, req, store)
    ensures !w.present(req.input) ==> events == AbortEvents(InputMissing) && written == store
    ensures w.present(req.input) && !w.present(req.output) ==> events == AbortEvents(OutputMissing) && written == store
  {
    events, written := [], store;
    if !w.present(req.input) {
      events := AbortEvents(InputMissing);
      return;
    }
    if !w.present(req.output) {
      events := AbortEvents(OutputMissing);
      return;
    }
    var listing := w.listing(req.input);
    if listing.ListFailed? {
      events := AbortEvents(ListingFailed(listing.error));
      return;
    }
    assert AbortCause(w, req) == None;
    events, written := ConvertEntries(w, req, listing.names, store);
  }

  /** The body of the `for` loop of `convert_excel_to_csv` for one entry: the
      events it emits and the output files after it. Each `continue` of the
      loop body is an early `return` here. */
  method ConvertEntry(w: World, req: Request, filename: string, store: map<Path, Table>)
    returns (events: seq<Event>, written: map<Path, Table>)
    ensures events == FileEvents(w, req, filename)
    ensures written == FileStore(w, req, store, filename)
  {
    events, written := [], store;
    if !IsCandidate(filename) {
      return;
    }
    var excelPath := Path(req.input, filename);
    var baseName := SplitExtRoot(filename);
    var csvPath := Path(req.output, baseName + ".csv");
    var df := w.readExcel(excelPath);
    if df.None? {
      events := [Log(Error, ReadFailed(filename)), Popup(Error, ReadFailed(filename))];
      return;
    }
    if !w.writeCsv(csvPath, df.value) {
      events := [Log(Error, WriteFailed(baseName + ".csv")), Popup(Error, WriteFailed(baseName + ".csv"))];
      return;
    }
    written := written[csvPath := df.value];
    events := [Log(Info, Saved(filename, baseName + ".csv"))];
    if w.successBoxFails(excelPath) {
      events := events + [Log(Error, FileFailed(filename)), Popup(Error, FileFailed(filename))];
      return;
    }
    events := events + [Popup(Info, Saved(filename, baseName + ".csv"))];
  }

  /** The `for filename in os.listdir(...)` loop of `convert_excel_to_csv`: every
      entry is handled in listing order, and a failing entry only ends its own
      iteration, never the loop. */
  method ConvertEntries(w: World, req: Request, names: seq<string>, store: map<Path, Table>)
    returns (events: seq<Event>, written: map<Path, Table>)
    ensures events == BatchEvents(w, req, names)
    ensures written == BatchStore(w, req, store, names)
  {
    events, written := [], store;
    for i := 0 to |names|
      invariant events == BatchEvents(w, req, names[..i])
      invariant written == BatchStore(w, req, store, names[..i])
    {
      assert names[..i + 1][..i] == names[..i];
      var entryEvents;
      entryEvents, written := ConvertEntry(w, req, names[i], written);
      events := events + entryEvents;
    }
    assert names[..|names|] == names;
  }

  /** `main()`: the input choice is asked first, the output choice only after it;
      an empty choice (a cancelled dialog) is warned about and nothing is converted.
      Otherwise the conversion runs and a completion box always follows it. */
  method RunMain(w: World, inputChoice: string, outputChoice: string, store: map<Path, Table>)
    returns (events: seq<Event>, written: map<Path, Table>)
    ensures inputChoice == "" ==> events == [Popup(Warning, NoInputSelected)] && written == store
    ensures inputChoice != "" && outputChoice == "" ==> events == [Popup(Warning, NoOutputSelected)] && written == store
    ensures inputChoice != "" && outputChoice != "" ==>
      var run := ConvertRun(w, Request(inputChoice, outputChoice), store);
      events == run.events + [Popup(Info, AllDone)] && written == run.store
  {
    if inputChoice == "" {
      events, written := [Popup(Warning, NoInputSelected)], store;
      return;
    }
    if outputChoice == "" {
      events, written := [Popup(Warning, NoOutputSelected)], store;
      return;
    }
    events, written := Convert(w, Request(inputChoice, outputChoice), store);
    events := events + [Popup(Info, AllDone)];
  }
}
