/** What `convert_excel_to_csv` and `main` promise, proved about the
    specification functions that `Convert`, `ConvertEntries` and `RunMain`
    are verified against. */
module ConverterProperties {
  import opened PathNames
  import opened ExcelCsvConverter
  import opened Batches

  // ---------------------------------------------------------------------------
  // Candidate filter and output names

  /** Names ending in either extension are candidates, whatever precedes it. */
  lemma CandidateExamples()
    ensures IsCandidate("report.xlsx") && IsCandidate("a.b.xls") && IsCandidate(".xlsx")
  {
  }

  /** The suffix test is case-sensitive and exact: near misses are not candidates. */
  lemma NonCandidateExamples()
    ensures !IsCandidate("A.XLSX") && !IsCandidate("notes.txt") && !IsCandidate("book.xlsm")
    ensures !IsCandidate("report.csv") && !IsCandidate("xlsx")
  {
    assert "xlsx"[0] != ".xls"[0];
  }

  /** A candidate ends in exactly one of the two extensions, and the name is
      that extension appended to what precedes it. */
  lemma {:induction false} CandidateSplits(name: string)
    requires IsCandidate(name)
    ensures EndsWith(name, ".xlsx") != EndsWith(name, ".xls")
    ensures var ext := if EndsWith(name, ".xlsx") then ".xlsx" else ".xls";
      name == name[..|name| - |ext|] + ext
  {
    if EndsWith(name, ".xlsx") {
      assert name[|name| - 1] == 'x';
    } else {
      assert name[|name| - 1] == 's';
    }
  }

  /** Appending either extension to any stem makes a candidate. */
  lemma CandidateOfExtension(stem: string, ext: string)
    requires ext == ".xlsx" || ext == ".xls"
    ensures IsCandidate(stem + ext)
  {
    assert (stem + ext)[|stem + ext| - |ext|..] == ext;
  }

  /** The CSV name of a candidate `stem + ext` is `stem + ".csv"`; only a stem
      made of dots alone (".xlsx", "..xls") keeps its extension. */
  lemma {:induction false} CsvNameOfCandidate(stem: string, ext: string)
    requires ext == ".xlsx" || ext == ".xls"
    ensures CsvName(stem + ext) == if AllDots(stem) then stem + ext + ".csv" else stem + ".csv"
  {
    assert IsExtension(ext);
    SplitExtRootOf(stem, ext);
  }

  /** "report.xlsx" maps to "report.csv". */
  lemma {:induction false} CsvNameOfReport()
    ensures CsvName("report.xlsx") == "report.csv"
  {
    CsvNameOfCandidate("report", ".xlsx");
    assert "report" + ".xlsx" == "report.xlsx";
    assert "report"[0] != '.';
  }

  /** "a.b.xls" is a candidate written as "a.b.csv": only the last extension is cut. */
  lemma {:induction false} CsvNameCutsLastExtension()
    ensures IsCandidate("a.b.xls") && CsvName("a.b.xls") == "a.b.csv"
  {
    CsvNameOfCandidate("a.b", ".xls");
    assert "a.b" + ".xls" == "a.b.xls";
    assert "a.b"[0] != '.';
  }

  /** ".xlsx" is all extension and no stem: it maps to ".xlsx.csv". */
  lemma {:induction false} CsvNameOfDotName()
    ensures CsvName(".xlsx") == ".xlsx.csv"
  {
    CsvNameOfCandidate("", ".xlsx");
    assert "" + ".xlsx" == ".xlsx";
  }

  /** "a.xls" and "a.xlsx" are written to the same "a.csv". */
  lemma {:induction false} CsvNamesCollide()
    ensures CsvName("a.xls") == CsvName("a.xlsx") == "a.csv"
  {
    CsvNameOfCandidate("a", ".xls");
    assert "a" + ".xls" == "a.xls";
    CsvNameOfCandidate("a", ".xlsx");
    assert "a" + ".xlsx" == "a.xlsx";
    assert "a"[0] != '.';
  }

  /** A written CSV is never itself a candidate, even when the output directory
      is the input directory. */
  lemma {:induction false} CsvNameNotCandidate(name: string)
    ensures !IsCandidate(CsvName(name))
  {
    var c := CsvName(name);
    assert c[|c| - 1] == 'v';
  }

  // ---------------------------------------------------------------------------
  // The loop: filter, one outcome per candidate, order, isolation

  /** Entries that are not candidates leave no trace: no event, no file. */
  lemma {:induction false} NonCandidatesIgnored(w: World, req: Request, store: map<Path, Table>, names: seq<string>)
    ensures BatchEvents(w, req, names) == BatchEvents(w, req, Filter(IsCandidate, names))
    ensures BatchStore(w, req, store, names) == BatchStore(w, req, store, Filter(IsCandidate, names))
  {
    ConcatFilter(EntryEvents(w, req), IsCandidate, names);
    FoldFilter(EntryStore(w, req), IsCandidate, store, names);
  }

  /** A report opens with the log line of its outcome and holds exactly one
      message box, which closes it. */
  lemma ReportBoxes(name: string, o: Outcome)
    ensures var e := Report(name, o);
      e[0] == Log(Level(o), Announcement(name, o)) && e[|e| - 1] == Box(name, o) &&
      Filter(IsBox, e) == [Box(name, o)]
  {
    var e := Report(name, o);
    var logs, box := e[..|e| - 1], e[|e| - 1];
    assert e == logs + [box];
    FilterAppend(IsBox, logs, [box]);
    FilterNone(IsBox, logs);
    assert [box][..0] == [];
  }

  /** A candidate's events are the report of its outcome. */
  lemma CandidateReport(w: World, req: Request, name: string)
    requires IsCandidate(name)
    ensures var o := Verdict(w, req, name);
      var e := FileEvents(w, req, name);
      e[0] == Log(Level(o), Announcement(name, o)) && e[|e| - 1] == Box(name, o) &&
      Filter(IsBox, e) == [Box(name, o)]
  {
    ReportBoxes(name, Verdict(w, req, name));
  }

  /** Keeping only the boxes of each entry leaves one box per candidate and none otherwise. */
  lemma EntryBoxes(w: World, req: Request, name: string)
    ensures Marked(IsBox, EntryEvents(w, req))(name) == if IsCandidate(name) then [EntryBox(w, req)(name)] else []
  {
    assert Marked(IsBox, EntryEvents(w, req))(name) == Filter(IsBox, FileEvents(w, req, name));
    if IsCandidate(name) {
      CandidateReport(w, req, name);
      assert EntryBox(w, req)(name) == Box(name, Verdict(w, req, name));
    }
  }

  /** Every candidate yields exactly one terminal outcome, and the message boxes
      of the loop are one per candidate, in listing order: the box of its outcome. */
  lemma {:induction false} OneOutcomePerCandidate(w: World, req: Request, names: seq<string>)
    ensures |Filter(IsBox, BatchEvents(w, req, names))| == |Filter(IsCandidate, names)|
    ensures forall k :: 0 <= k < |Filter(IsCandidate, names)| ==>
      var n := Filter(IsCandidate, names)[k];
      Filter(IsBox, BatchEvents(w, req, names))[k] == Box(n, Verdict(w, req, n))
  {
    FilterConcat(IsBox, EntryEvents(w, req), names);
    forall x ensures Marked(IsBox, EntryEvents(w, req))(x) == if IsCandidate(x) then [EntryBox(w, req)(x)] else [] {
      EntryBoxes(w, req, x);
    }
    ConcatSingles(Marked(IsBox, EntryEvents(w, req)), IsCandidate, EntryBox(w, req), names);
  }

  /** Entries are handled independently: the events of `a + b` are those of `a`
      followed by those of `b`, and `b` writes into whatever `a` left behind,
      so a failing entry never stops or alters the entries after it. */
  lemma {:induction false} EntriesIndependent(w: World, req: Request, store: map<Path, Table>, a: seq<string>, b: seq<string>)
    ensures BatchEvents(w, req, a + b) == BatchEvents(w, req, a) + BatchEvents(w, req, b)
    ensures BatchStore(w, req, store, a + b) == BatchStore(w, req, BatchStore(w, req, store, a), b)
  {
    ConcatSplit(EntryEvents(w, req), a, b);
    FoldSplit(EntryStore(w, req), store, a, b);
  }

  // ---------------------------------------------------------------------------
  // The output directory

  /** The loop only adds or overwrites files: whatever existed still exists. */
  lemma {:induction false} StoreGrows(w: World, req: Request, store: map<Path, Table>, names: seq<string>)
    ensures store.Keys <= BatchStore(w, req, store, names).Keys
  {
    if names != [] {
      StoreGrows(w, req, store, names[..|names| - 1]);
    }
  }

  /** A read failure, a write failure or a non-candidate
      leaves a file untouched: only a converted candidate writes, and only to
      its own CSV path. */
  lemma {:induction false} OnlyConvertedWrite(w: World, req: Request, store: map<Path, Table>, names: seq<string>, p: Path)
    requires forall i :: 0 <= i < |names| && IsCandidate(names[i]) && Verdict(w, req, names[i]).Converted? ==>
      CsvPath(req, names[i]) != p
    ensures p in BatchStore(w, req, store, names) <==> p in store
    ensures p in store ==> BatchStore(w, req, store, names)[p] == store[p]
  {
    if names != [] {
      var pre := names[..|names| - 1];
      BatchStoreLast(w, req, store, names);
      forall i | 0 <= i < |pre| && IsCandidate(pre[i]) && Verdict(w, req, pre[i]).Converted?
        ensures CsvPath(req, pre[i]) != p
      {
        assert pre[i] == names[i];
      }
      OnlyConvertedWrite(w, req, store, pre, p);
    }
  }

  /** Nothing is written outside the output directory. */
  lemma OutsideOutputUntouched(w: World, req: Request, store: map<Path, Table>, names: seq<string>, p: Path)
    requires p.dir != req.output
    ensures p in BatchStore(w, req, store, names) <==> p in store
    ensures p in store ==> BatchStore(w, req, store, names)[p] == store[p]
  {
    OnlyConvertedWrite(w, req, store, names, p);
  }

  /** When several candidates share a CSV name ("a.xls" and "a.xlsx"), the
      CSV holds the table of the last one converted in listing order. */
  lemma {:induction false} LastWriteWins(w: World, req: Request, store: map<Path, Table>, names: seq<string>, i: nat)
    requires i < |names| && IsCandidate(names[i]) && Verdict(w, req, names[i]).Converted?
    requires forall j :: i < j < |names| && IsCandidate(names[j]) && Verdict(w, req, names[j]).Converted? ==>
      CsvPath(req, names[j]) != CsvPath(req, names[i])
    ensures CsvPath(req, names[i]) in BatchStore(w, req, store, names)
    ensures BatchStore(w, req, store, names)[CsvPath(req, names[i])] == Verdict(w, req, names[i]).table
  {
    var pre := names[..|names| - 1];
    BatchStoreLast(w, req, store, names);
    if i < |names| - 1 {
      assert pre[i] == names[i];
      forall j | i < j < |pre| && IsCandidate(pre[j]) && Verdict(w, req, pre[j]).Converted?
        ensures CsvPath(req, pre[j]) != CsvPath(req, pre[i])
      {
        assert pre[j] == names[j];
      }
      LastWriteWins(w, req, store, pre, i);
    }
  }

  /** Every converted candidate has its CSV in the output directory afterwards. */
  lemma {:induction false} ConvertedCsvExists(w: World, req: Request, store: map<Path, Table>, names: seq<string>, i: nat)
    requires i < |names| && IsCandidate(names[i]) && Verdict(w, req, names[i]).Converted?
    ensures CsvPath(req, names[i]) in BatchStore(w, req, store, names)
  {
    var pre := names[..|names| - 1];
    BatchStoreLast(w, req, store, names);
    if i < |names| - 1 {
      assert pre[i] == names[i];
      ConvertedCsvExists(w, req, store, pre, i);
    }
  }

  /** The loop's last iteration, unfolded once. */
  lemma BatchStoreLast(w: World, req: Request, store: map<Path, Table>, names: seq<string>)
    requires names != []
    ensures BatchStore(w, req, store, names) ==
      FileStore(w, req, BatchStore(w, req, store, names[..|names| - 1]), names[|names| - 1])
  {
  }

  /** One entry writes the same file whether or not the directory held other files. */
  lemma FileStoreOverlay(w: World, req: Request, base: map<Path, Table>, own: map<Path, Table>, name: string)
    ensures FileStore(w, req, base + own, name) == base + FileStore(w, req, own, name)
  {
    if IsCandidate(name) && Verdict(w, req, name).Converted? {
      UpdateOverlay(base, own, CsvPath(req, name), Verdict(w, req, name).table);
    }
  }

  lemma UpdateOverlay<K, V>(base: map<K, V>, own: map<K, V>, k: K, v: V)
    ensures (base + own)[k := v] == base + own[k := v]
  {
  }

  /** The output files are the old ones overlaid with what the run writes on
      its own, regardless of what the directory held before. */
  lemma {:induction false} StoreOverlay(w: World, req: Request, store: map<Path, Table>, names: seq<string>)
    ensures BatchStore(w, req, store, names) == store + BatchStore(w, req, map[], names)
  {
    if names != [] {
      var pre, last := names[..|names| - 1], names[|names| - 1];
      StoreOverlay(w, req, store, pre);
      var own := BatchStore(w, req, map[], pre);
      FileStoreOverlay(w, req, store, own, last);
      calc {
        BatchStore(w, req, store, names);
        FileStore(w, req, BatchStore(w, req, store, pre), last);
        FileStore(w, req, store + own, last);
        store + FileStore(w, req, own, last);
        store + BatchStore(w, req, map[], names);
      }
    }
  }

  /** Running the conversion a second time over its own output changes neither
      the output files nor the report. */
  lemma ConvertIdempotent(w: World, req: Request, store: map<Path, Table>)
    ensures ConvertRun(w, req, ConvertRun(w, req, store).store) == ConvertRun(w, req, store)
  {
    if AbortCause(w, req).None? {
      var names := w.listing(req.input).names;
      var own := BatchStore(w, req, map[], names);
      StoreOverlay(w, req, store, names);
      StoreOverlay(w, req, store + own, names);
      assert (store + own) + own == store + own;
    }
  }

  // ---------------------------------------------------------------------------
  // Per-file outcomes and aborts

  /** A failed read ends the entry before any write is attempted: the result is
      the same whatever the writer would do, no file is written, and the two
      events are an error log line and an error box naming the spreadsheet. */
  lemma ReadFailureSkipsWrite(w: World, req: Request, store: map<Path, Table>, name: string, writer: (Path, Table) -> bool)
    requires IsCandidate(name) && w.readExcel(ExcelPath(req, name)).None?
    ensures var v := w.(writeCsv := writer);
      FileEvents(v, req, name) == [Log(Error, ReadFailed(name)), Popup(Error, ReadFailed(name))] &&
      FileStore(v, req, store, name) == store
  {
  }

  /** A failed write is reported with the CSV name and no success box. */
  lemma WriteFailureReported(w: World, req: Request, store: map<Path, Table>, name: string)
    requires IsCandidate(name) && w.readExcel(ExcelPath(req, name)).Some?
    requires !w.writeCsv(CsvPath(req, name), w.readExcel(ExcelPath(req, name)).value)
    ensures FileEvents(w, req, name) == [Log(Error, WriteFailed(CsvName(name))), Popup(Error, WriteFailed(CsvName(name)))]
    ensures FileStore(w, req, store, name) == store
  {
  }

  /** A fully successful entry: an info log line, then a success box, and its
      table stored under its CSV path. */
  lemma SuccessReported(w: World, req: Request, store: map<Path, Table>, name: string)
    requires IsCandidate(name) && w.readExcel(ExcelPath(req, name)).Some?
    requires w.writeCsv(CsvPath(req, name), w.readExcel(ExcelPath(req, name)).value)
    requires !w.successBoxFails(ExcelPath(req, name))
    ensures FileEvents(w, req, name) == [Log(Info, Saved(name, CsvName(name))), Popup(Info, Saved(name, CsvName(name)))]
    ensures FileStore(w, req, store, name) == store[CsvPath(req, name) := w.readExcel(ExcelPath(req, name)).value]
  {
  }

  /** When the success box itself raises, the outer handler of the entry reports
      the file as failed after the info log line, and the CSV stays written. */
  lemma SuccessBoxFailureReported(w: World, req: Request, store: map<Path, Table>, name: string)
    requires IsCandidate(name) && w.readExcel(ExcelPath(req, name)).Some?
    requires w.writeCsv(CsvPath(req, name), w.readExcel(ExcelPath(req, name)).value)
    requires w.successBoxFails(ExcelPath(req, name))
    ensures FileEvents(w, req, name) ==
      [Log(Info, Saved(name, CsvName(name))), Log(Error, FileFailed(name)), Popup(Error, FileFailed(name))]
    ensures FileStore(w, req, store, name) == store[CsvPath(req, name) := w.readExcel(ExcelPath(req, name)).value]
  {
  }

  /** An abort (missing input directory, checked first; missing output
      directory; failed listing) touches no file and reports exactly one error:
      one log line and one message box, about no file. */
  lemma AbortReportsOnce(w: World, req: Request, store: map<Path, Table>)
    requires AbortCause(w, req).Some?
    ensures var run := ConvertRun(w, req, store);
      run.store == store && |run.events| == 2 &&
      run.events[0].Log? && run.events[0].level == Error &&
      run.events[1].Popup? && run.events[1].kind == Error &&
      run.events[0].topic == Aborted(AbortCause(w, req).value)
    ensures !w.present(req.input) ==> AbortCause(w, req) == Some(InputMissing)
    ensures w.present(req.input) && !w.present(req.output) ==> AbortCause(w, req) == Some(OutputMissing)
  {
  }

  /** A listing with no candidate is not an error: no event and no file. */
  lemma {:induction false} NoCandidatesNoEvents(w: World, req: Request, store: map<Path, Table>)
    requires AbortCause(w, req).None?
    requires forall k :: 0 <= k < |w.listing(req.input).names| ==> !IsCandidate(w.listing(req.input).names[k])
    ensures ConvertRun(w, req, store) == Run([], store)
  {
    var names := w.listing(req.input).names;
    NonCandidatesIgnored(w, req, store, names);
  }

  /** The scenario of a folder holding "report.xlsx" and "notes.txt": exactly
      "report.csv" is written, and only the report is announced. */
  lemma {:induction false} ReportScenario(w: World, req: Request, store: map<Path, Table>, t: Table)
    requires AbortCause(w, req).None? && w.listing(req.input).names == ["report.xlsx", "notes.txt"]
    requires w.readExcel(Path(req.input, "report.xlsx")) == Some(t)
    requires w.writeCsv(Path(req.output, "report.csv"), t) && !w.successBoxFails(Path(req.input, "report.xlsx"))
    ensures ConvertRun(w, req, store) ==
      Run([Log(Info, Saved("report.xlsx", "report.csv")), Popup(Info, Saved("report.xlsx", "report.csv"))],
          store[Path(req.output, "report.csv") := t])
  {
    CsvNameOfReport();
    SuccessReported(w, req, store, "report.xlsx");
    assert !IsCandidate("notes.txt");
    var names := ["report.xlsx", "notes.txt"];
    assert names == ["report.xlsx"] + ["notes.txt"];
    EntriesIndependent(w, req, store, ["report.xlsx"], ["notes.txt"]);
    ConcatOne(EntryEvents(w, req), "report.xlsx");
    ConcatOne(EntryEvents(w, req), "notes.txt");
    FoldOne(EntryStore(w, req), store, "report.xlsx");
    FoldOne(EntryStore(w, req), BatchStore(w, req, store, ["report.xlsx"]), "notes.txt");
  }
}
