/** _write_json_atomic of src/weather_daemon/daemon.py over an in-memory
    filesystem: create a temp file beside the target, write the whole text
    into it, os.replace it over the target; on a failure after the temp file
    exists, unlink it and re-raise. Which step fails is a parameter. */
module AtomicFile {
  import opened Text
  import opened PyJson

  datatype Path = Path(dir: string, name: string)

  /** str() of a path. */
  function PathText(p: Path): string
  {
    p.dir + "/" + p.name
  }

  /** The feed file: output_dir / "weather_forecast.json", the path the
      daemon writes and both health endpoints inspect. */
  function OutputFile(outputDir: string): Path
  {
    Path(outputDir, "weather_forecast.json")
  }

  /** A regular file: its text and its modification time (microseconds). */
  datatype FileEntry = FileEntry(contents: string, mtime: int)

  /** The file system the daemon and the health endpoints share. */
  class FileSystem {
    var files: map<Path, FileEntry>

    constructor(files: map<Path, FileEntry>)
      ensures this.files == files
    {
      this.files := files;
    }
  }

  /** The entry at p, if any. */
  function Find(files: map<Path, FileEntry>, p: Path): Option<FileEntry>
  {
    if p in files then Some(files[p]) else None
  }

  /** The name mkstemp(dir=parent, prefix=".<name>.", suffix=".tmp") picks,
      token standing for its random part. */
  function TempPath(target: Path, token: string): (temp: Path)
    ensures temp.dir == target.dir
    ensures |temp.name| == |target.name| + |token| + 6
  {
    Path(target.dir, "." + target.name + "." + token + ".tmp")
  }

  /** The temp file sits in the target's directory, is hidden, is named
      after the target, ends in ".tmp", and is never the target itself. */
  lemma TempPathShape(target: Path, token: string)
    ensures var temp := TempPath(target, token);
      && temp.dir == target.dir
      && temp != target
      && temp.name[..|target.name| + 2] == "." + target.name + "."
      && temp.name[|temp.name| - 4..] == ".tmp"
  {
    var temp := TempPath(target, token);
    assert temp.name == ("." + target.name + ".") + token + ".tmp";
  }

  /** Which step of the write raises, if any. DumpFails carries the prefix of
      the text already in the temp file when json.dump, flush, fsync or close
      raised. */
  datatype WriteFault =
    | NoFault
    | CreateFails(createError: PyException)
    | DumpFails(written: string, dumpError: PyException)
    | ReplaceFails(replaceError: PyException)

  function FileExistsError(p: Path): PyException
  {
    PyException("FileExistsError", "[Errno 17] File exists: '" + p.dir + "/" + p.name + "'")
  }

  /** The file system after the write, and the exception it raised. */
  datatype WriteOutcome = WriteOutcome(files: map<Path, FileEntry>, raised: Option<PyException>)

  /** The write as a function of the file system before it: the
      specification WriteJsonAtomic is proved against. A temp name already
      taken is reported as FileExistsError. */
  function AtomicWriteSpec(files: map<Path, FileEntry>, target: Path, text: string, token: string, now: int,
                           fault: WriteFault, unlinkFails: bool): (r: WriteOutcome)
    ensures r.raised.None? <==> fault.NoFault? && TempPath(target, token) !in files
    ensures r.files.Keys <= files.Keys + {target, TempPath(target, token)}
    ensures forall p | p in files && p != target :: p in r.files && r.files[p] == files[p]
  {
    var temp := TempPath(target, token);
    if temp in files then WriteOutcome(files, Some(FileExistsError(temp)))
    else match fault
      case CreateFails(e) => WriteOutcome(files, Some(e))
      case DumpFails(written, e) =>
        WriteOutcome(if unlinkFails then files[temp := FileEntry(written, now)] else files, Some(e))
      case ReplaceFails(e) =>
        WriteOutcome(if unlinkFails then files[temp := FileEntry(text, now)] else files, Some(e))
      case NoFault => WriteOutcome(files[target := FileEntry(text, now)], None)
  }

  /** _write_json_atomic, step by step. trace records the target's entry
      after every step. */
  method WriteJsonAtomic(fs: FileSystem, target: Path, text: string, token: string, now: int,
                         fault: WriteFault, unlinkFails: bool)
    returns (raised: Option<PyException>, ghost trace: seq<Option<FileEntry>>)
    modifies fs
    ensures var spec := AtomicWriteSpec(old(fs.files), target, text, token, now, fault, unlinkFails);
      fs.files == spec.files && raised == spec.raised
    ensures forall i | 0 <= i < |trace| ::
      trace[i] == Find(old(fs.files), target) || trace[i] == Some(FileEntry(text, now))
  {
    var temp := TempPath(target, token);
    trace := [Find(fs.files, target)];
    // mkstemp: creates the empty temp file, or raises before the try block.
    if temp in fs.files {
      return Some(FileExistsError(temp)), trace;
    }
    if fault.CreateFails? {
      return Some(fault.createError), trace;
    }
    assert temp != target by { TempPathShape(target, token); }
    fs.files := fs.files[temp := FileEntry("", now)];
    trace := trace + [Find(fs.files, target)];
    // json.dump, flush, fsync, close.
    var error: Option<PyException> := None;
    if fault.DumpFails? {
      fs.files := fs.files[temp := FileEntry(fault.written, now)];
      error := Some(fault.dumpError);
    } else {
      fs.files := fs.files[temp := FileEntry(text, now)];
      if fault.ReplaceFails? {
        error := Some(fault.replaceError);
      } else {
        // os.replace: the temp file's entry moves to the target.
        var moved := fs.files[temp];
        fs.files := (fs.files - {temp})[target := moved];
      }
    }
    trace := trace + [Find(fs.files, target)];
    if error.Some? {
      // os.unlink(temp_path), its own failure swallowed; then re-raise.
      if !unlinkFails {
        fs.files := fs.files - {temp};
        trace := trace + [Find(fs.files, target)];
      }
      return error, trace;
    }
    raised := None;
  }

  /** The target is replaced exactly when the write succeeds: then it holds
      the whole new text; after any failure it is as it was. */
  lemma TargetOldOrNew(files: map<Path, FileEntry>, target: Path, text: string, token: string, now: int,
                       fault: WriteFault, unlinkFails: bool)
    ensures var out := AtomicWriteSpec(files, target, text, token, now, fault, unlinkFails);
      && (out.raised.None? ==> Find(out.files, target) == Some(FileEntry(text, now)))
      && (out.raised.Some? ==> Find(out.files, target) == Find(files, target))
  {
    TempPathShape(target, token);
  }

  /** No temp file is left behind unless unlinking it failed too, and no
      path besides the target and the temp file is touched. */
  lemma NoTempLeftBehind(files: map<Path, FileEntry>, target: Path, text: string, token: string, now: int,
                         fault: WriteFault, unlinkFails: bool)
    ensures var out := AtomicWriteSpec(files, target, text, token, now, fault, unlinkFails);
      var temp := TempPath(target, token);
      && (temp in out.files <==> temp in files || (unlinkFails && (fault.DumpFails? || fault.ReplaceFails?)))
      && (forall p | p != target && p != temp :: Find(out.files, p) == Find(files, p))
  {
    TempPathShape(target, token);
  }

  /** A successful write leaves the file system as it was except that the
      target holds the new text: the same result as writing in place. */
  lemma SuccessIsPlainWrite(files: map<Path, FileEntry>, target: Path, text: string, token: string, now: int,
                            fault: WriteFault, unlinkFails: bool)
    requires AtomicWriteSpec(files, target, text, token, now, fault, unlinkFails).raised.None?
    ensures fault.NoFault?
    ensures AtomicWriteSpec(files, target, text, token, now, fault, unlinkFails).files
      == files[target := FileEntry(text, now)]
  {
  }
}
