/** The loops that write an archive, over the writer and the progress reporter they update. */
module ArchiveWriter {
  import opened ArchiveModel
  import opened Wrappers

  datatype ArchiveError = Cancelled | OpenFailed | HeaderFailed | ReadFailed | WriteFailed | CloseFailed

  // How a call of the archive's writer ends: at most `n` bytes are taken, and fewer than were given
  // only with an error.
  datatype Outcome = Outcome(n: nat, failed: bool)

  class Writer {
    var entries: seq<Entry>
    var outcomes: seq<Outcome>

    constructor (outcomes: seq<Outcome>)
      ensures entries == []
    {
      entries := [];
      this.outcomes := outcomes;
    }

    method Next() returns (o: Outcome)
      modifies this`outcomes
    {
      o := Outcome(0, false);
      if |outcomes| > 0 {
        o := outcomes[0];
        outcomes := outcomes[1..];
      }
    }

    method WriteHeader(name: string) returns (failed: bool)
      modifies this
      ensures entries == if failed then old(entries) else old(entries) + [Entry(name, [])]
    {
      var o := Next();
      failed := o.failed;
      if !failed {
        entries := entries + [Entry(name, [])];
      }
    }

    method Write(p: Bytes) returns (n: nat, failed: bool)
      requires entries != []
      modifies this
      ensures n <= |p| && (n < |p| ==> failed)
      ensures entries == Appended(old(entries), p[..n])
    {
      var o := Next();
      failed := o.failed;
      n := if failed && o.n < |p| then o.n else |p|;
      entries := Appended(entries, p[..n]);
    }
  }

  // The last entry goes on with more data.
  function Appended(entries: seq<Entry>, p: Bytes): (r: seq<Entry>)
    requires entries != []
    ensures |r| == |entries|
  {
    var k := |entries| - 1;
    entries[..k] + [Entry(entries[k].name, entries[k].data + p)]
  }

  lemma AppendedTwice(entries: seq<Entry>, p: Bytes, q: Bytes)
    requires entries != []
    ensures Appended(Appended(entries, p), q) == Appended(entries, p + q)
    ensures Appended(entries, []) == entries
  {
    var k := |entries| - 1;
    assert entries[k].data + p + q == entries[k].data + (p + q);
    assert entries[k].data + [] == entries[k].data;
    assert entries == entries[..k] + [entries[k]];
  }

  class ProgressReporter {
    var totalFiles: nat
    var totalBytes: nat
    var filesDone: nat
    var bytesDone: nat
    // Every state in which a report may go out, up to the present one.
    ghost var trace: seq<Progress>

    ghost function Now(): Progress
      reads this
    {
      Progress(filesDone, bytesDone)
    }

    ghost predicate Valid()
      reads this
    {
      && trace != [] && trace[|trace| - 1] == Now()
      && filesDone <= totalFiles && bytesDone <= totalBytes
      && forall i, j :: 0 <= i < j < |trace| ==> NoLess(trace[i], trace[j])
    }

    // What every use of the reporter leaves as it was.
    twostate predicate GoesOn()
      reads this
    {
      && totalFiles == old(totalFiles) && totalBytes == old(totalBytes)
      && old(trace) <= trace && NoLess(old(Now()), Now())
    }

    constructor (files: seq<ArchiveFile>, extras: seq<ExtraFile>)
      ensures Valid() && Now() == Progress(0, 0)
      ensures totalFiles == FilesTotal(files) && totalBytes == BytesTotal(files) + ExtraTotal(extras)
    {
      var count, bytes := 0, 0;
      for i := 0 to |files|
        invariant count == FilesTotal(files[..i]) && bytes == BytesTotal(files[..i])
      {
        assert files[..i + 1][..i] == files[..i];
        if files[i].regular {
          count := count + 1;
          bytes := bytes + files[i].size;
        }
      }
      assert files[..|files|] == files;
      for i := 0 to |extras|
        invariant count == FilesTotal(files) && bytes == BytesTotal(files) + ExtraTotal(extras[..i])
      {
        assert extras[..i + 1][..i] == extras[..i];
        if SafeRootName(extras[i].name).Some? {
          bytes := bytes + |extras[i].data|;
        }
      }
      assert extras[..|extras|] == extras;
      totalFiles, totalBytes := count, bytes;
      filesDone, bytesDone := 0, 0;
      trace := [Progress(0, 0)];
    }

    method AddBytes(n: nat)
      requires Valid() && bytesDone + n <= totalBytes
      modifies this
      ensures Valid() && GoesOn() && Now() == Progress(old(filesDone), old(bytesDone) + n)
    {
      if n <= 0 {
        return;
      }
      bytesDone := bytesDone + n;
      trace := trace + [Now()];
    }

    method FinishFile()
      requires Valid() && filesDone < totalFiles
      modifies this
      ensures Valid() && GoesOn() && Now() == Progress(old(filesDone) + 1, old(bytesDone))
    {
      filesDone := filesDone + 1;
      trace := trace + [Now()];
    }

    method Finish()
      requires Valid()
      modifies this
      ensures Valid() && GoesOn() && Now() == Progress(totalFiles, totalBytes)
    {
      if totalBytes > 0 {
        bytesDone := totalBytes;
      }
      if totalFiles > 0 {
        filesDone := totalFiles;
      }
      trace := trace + [Now()];
    }
  }

  // ---- One file -------------------------------------------------------------------------------

  function Min(a: nat, b: nat): nat { if a < b then a else b }

  // Copies no more than `size` bytes of a source and counts what was read.
  method CopyLimited(writer: Writer, chunks: seq<Read>, size: nat, reporter: ProgressReporter)
    returns (written: nat, error: Option<ArchiveError>)
    requires writer.entries != [] && reporter.Valid() && reporter.bytesDone + size <= reporter.totalBytes
    modifies writer, reporter
    ensures written <= size && written <= |Content(chunks)|
    ensures writer.entries == Appended(old(writer.entries), Content(chunks)[..written])
    ensures error.None? ==> written == Min(size, |Content(chunks)|)
    ensures reporter.Valid() && reporter.GoesOn() && reporter.filesDone == old(reporter.filesDone)
    ensures reporter.bytesDone <= old(reporter.bytesDone) + size
  {
    written, error := 0, None;
    var i := 0;
    ghost var before, content := writer.entries, Content(chunks);
    AppendedTwice(before, [], []);
    while written < size && i < |chunks|
      invariant i <= |chunks| && written <= size
      invariant written <= |content|
      invariant written < size ==> written == |Content(chunks[..i])|
      invariant writer.entries == Appended(before, content[..written])
      invariant reporter.Valid() && reporter.GoesOn() && reporter.filesDone == old(reporter.filesDone)
      invariant reporter.bytesDone == old(reporter.bytesDone) + written
    {
      var data := chunks[i].data[..Min(|chunks[i].data|, size - written)];
      OneMoreRead(chunks, i, |data|);
      reporter.AddBytes(|data|);
      var n, failed := writer.Write(data);
      AppendMore(before, content, written, data, n);
      written := written + n;
      if failed {
        return written, Some(WriteFailed);
      }
      if chunks[i].failed {
        return written, Some(ReadFailed);
      }
      i := i + 1;
    }
    assert chunks[..|chunks|] == chunks;
  }

  lemma AppendMore(entries: seq<Entry>, content: Bytes, written: nat, data: Bytes, n: nat)
    requires entries != [] && n <= |data| && written + |data| <= |content| && content[written..written + |data|] == data
    ensures Appended(Appended(entries, content[..written]), data[..n]) == Appended(entries, content[..written + n])
  {
    assert data[..n] == content[written..written + n];
    assert content[..written] + data[..n] == content[..written + n];
    AppendedTwice(entries, content[..written], data[..n]);
  }

  lemma OneMoreRead(chunks: seq<Read>, i: nat, n: nat)
    requires i < |chunks| && n <= |chunks[i].data|
    ensures var done, content := Content(chunks[..i]), Content(chunks);
            && Content(chunks[..i + 1]) == done + chunks[i].data && done + chunks[i].data <= content
            && |done| + n <= |content| && content[|done|..|done| + n] == chunks[i].data[..n]
  {
    assert chunks[..i + 1][..i] == chunks[..i];
    FirstReads(chunks, i + 1);
    var done, content := Content(chunks[..i]), Content(chunks);
    var both := done + chunks[i].data;
    assert content[..|both|] == both;
    assert content[|done|..|done| + n] == both[|done|..|done| + n];
  }

  method CopyZeroPadding(writer: Writer, size: nat) returns (written: nat, error: Option<ArchiveError>)
    requires writer.entries != []
    modifies writer
    ensures written <= size && writer.entries == Appended(old(writer.entries), Zeros(written))
    ensures error.None? ==> written == size
  {
    written, error := 0, None;
    var zeros := Zeros(32 * 1024);
    ghost var before := writer.entries;
    AppendedTwice(before, [], []);
    assert Zeros(0) == [];
    while written < size
      invariant written <= size && writer.entries == Appended(before, Zeros(written))
    {
      var chunk := Min(size - written, |zeros|);
      var n, failed := writer.Write(zeros[..chunk]);
      AppendedTwice(before, Zeros(written), Zeros(n));
      assert Zeros(written) + Zeros(n) == Zeros(written + n);
      assert zeros[..chunk][..n] == Zeros(n);
      written := written + n;
      if failed {
        return written, Some(WriteFailed);
      }
    }
  }

  // The entry holds the beginning of the file, and all of its header's size unless there was an error.
  method CopyArchiveSource(writer: Writer, chunks: seq<Read>, requested: int, reporter: ProgressReporter)
    returns (written: nat, error: Option<ArchiveError>)
    requires writer.entries != [] && reporter.Valid()
    requires requested > 0 ==> reporter.bytesDone + requested <= reporter.totalBytes
    modifies writer, reporter
    ensures var size := if requested < 0 then 0 else requested;
            && written <= size && writer.entries == Appended(old(writer.entries), Fitted(Content(chunks), size)[..written])
            && (error.None? ==> written == size)
            && reporter.bytesDone <= old(reporter.bytesDone) + size
    ensures reporter.Valid() && reporter.GoesOn() && reporter.filesDone == old(reporter.filesDone)
  {
    var size := requested;
    if size < 0 {
      size := 0;
    }
    ghost var content := Content(chunks);
    written, error := CopyLimited(writer, chunks, size, reporter);
    assert Fitted(content, size)[..written] == content[..written];
    if error.Some? || written >= size {
      return;
    }
    var padded;
    AppendedTwice(old(writer.entries), content, Zeros(size - written));
    padded, error := CopyZeroPadding(writer, size - written);
    AppendedTwice(old(writer.entries), content, Zeros(padded));
    assert content + Zeros(padded) == Fitted(content, size)[..|content| + padded];
    assert content[..written] == content;
    written := written + padded;
  }

  // ---- The whole archive ----------------------------------------------------------------------

  // Writes the entries of the extra files; `entries` is what the archive holds before.
  method WriteExtraFiles(writer: Writer, extras: seq<ExtraFile>, reporter: ProgressReporter) returns (error: Option<ArchiveError>)
    requires writer.entries == [] && reporter.Valid() && reporter.bytesDone + ExtraTotal(extras) <= reporter.totalBytes
    modifies writer, reporter
    ensures IsBeginning(writer.entries, ExtraEntries(extras))
    ensures error.None? ==> writer.entries == ExtraEntries(extras)
    ensures reporter.Valid() && reporter.GoesOn() && reporter.filesDone == old(reporter.filesDone)
    ensures reporter.bytesDone <= old(reporter.bytesDone) + ExtraTotal(extras)
  {
    error := None;
    for i := 0 to |extras|
      invariant error.None? && writer.entries == ExtraEntries(extras[..i])
      invariant reporter.Valid() && reporter.GoesOn() && reporter.filesDone == old(reporter.filesDone)
      invariant reporter.bytesDone <= old(reporter.bytesDone) + ExtraTotal(extras[..i])
    {
      UpToExtra(extras, i);
      error := WriteExtraFile(writer, extras[i], reporter);
      if error.Some? {
        BeginningOfMore(writer.entries, ExtraEntries(extras[..i + 1]), ExtraEntries(extras));
        return;
      }
    }
    assert extras[..|extras|] == extras;
    WholeIsBeginning(ExtraEntries(extras), []);
    assert ExtraEntries(extras) + [] == ExtraEntries(extras);
  }

  function EntriesOfExtra(extra: ExtraFile): seq<Entry> {
    if SafeRootName(extra.name).Some? then [Entry(SafeRootName(extra.name).value, extra.data)] else []
  }

  lemma UpToExtra(extras: seq<ExtraFile>, i: nat)
    requires i < |extras|
    ensures ExtraEntries(extras[..i + 1]) == ExtraEntries(extras[..i]) + EntriesOfExtra(extras[i])
    ensures ExtraEntries(extras[..i + 1]) <= ExtraEntries(extras)
    ensures ExtraTotal(extras[..i + 1]) <= ExtraTotal(extras)
    ensures ExtraTotal(extras[..i + 1]) == ExtraTotal(extras[..i]) + if SafeRootName(extras[i].name).Some? then |extras[i].data| else 0
  {
    assert extras[..i + 1][..i] == extras[..i];
    ExtraTotalGrows(extras, i + 1);
    FirstExtras(extras, i + 1);
  }

  method WriteExtraFile(writer: Writer, extra: ExtraFile, reporter: ProgressReporter) returns (error: Option<ArchiveError>)
    requires reporter.Valid()
    requires SafeRootName(extra.name).Some? ==> reporter.bytesDone + |extra.data| <= reporter.totalBytes
    modifies writer, reporter
    ensures IsBeginning(writer.entries, old(writer.entries) + EntriesOfExtra(extra))
    ensures error.None? ==> writer.entries == old(writer.entries) + EntriesOfExtra(extra)
    ensures reporter.Valid() && reporter.GoesOn() && reporter.filesDone == old(reporter.filesDone)
    ensures reporter.bytesDone <= old(reporter.bytesDone) + if SafeRootName(extra.name).Some? then |extra.data| else 0
  {
    ghost var before := writer.entries;
    WholeIsBeginning(before, EntriesOfExtra(extra));
    var name := SafeRootName(extra.name);
    if name.None? {
      return None;
    }
    var failed := writer.WriteHeader(name.value);
    if failed {
      return Some(HeaderFailed);
    }
    var n;
    n, failed := writer.Write(extra.data);
    EntryCut(before, name.value, extra.data, n, before + [Entry(name.value, extra.data)]);
    if failed {
      return Some(WriteFailed);
    }
    reporter.AddBytes(|extra.data|);
    error := None;
  }

  // An entry just begun that took the first `n` bytes of its data.
  lemma EntryCut(entries: seq<Entry>, name: string, data: Bytes, n: nat, whole: seq<Entry>)
    requires n <= |data| && entries + [Entry(name, data)] <= whole
    ensures Appended(entries + [Entry(name, [])], data[..n]) == entries + [Entry(name, data[..n])]
    ensures IsBeginning(entries + [Entry(name, data[..n])], whole)
    ensures n == |data| ==> data[..n] == data
  {
    assert [] + data[..n] == data[..n];
    assert (entries + [Entry(name, data)])[|entries|] == whole[|entries|];
  }

  lemma BeginningOfMore(entries: seq<Entry>, whole: seq<Entry>, more: seq<Entry>)
    requires IsBeginning(entries, whole) && whole <= more
    ensures IsBeginning(entries, more)
  {
  }

  // A regular file whose source is open: its header, its data, and the source is closed.
  method WriteRegularFile(writer: Writer, f: ArchiveFile, reporter: ProgressReporter) returns (error: Option<ArchiveError>)
    requires f.regular && f.source.Opened? && reporter.Valid()
    requires reporter.filesDone < reporter.totalFiles && reporter.bytesDone + f.size <= reporter.totalBytes
    modifies writer, reporter
    ensures IsBeginning(writer.entries, old(writer.entries) + [Entry(f.name, Fitted(Content(f.source.chunks), f.size))])
    ensures error.None? ==> writer.entries == old(writer.entries) + [Entry(f.name, Fitted(Content(f.source.chunks), f.size))]
    ensures reporter.Valid() && reporter.GoesOn()
    ensures reporter.filesDone <= old(reporter.filesDone) + 1 && reporter.bytesDone <= old(reporter.bytesDone) + f.size
  {
    ghost var before, data := writer.entries, Fitted(Content(f.source.chunks), f.size);
    var failed := writer.WriteHeader(f.name);
    WholeIsBeginning(before, [Entry(f.name, data)]);
    if failed {
      return Some(HeaderFailed);
    }
    var written;
    written, error := CopyArchiveSource(writer, f.source.chunks, f.size, reporter);
    EntryCut(before, f.name, data, written, before + [Entry(f.name, data)]);
    if error.Some? {
      return;
    }
    if f.source.closeFails {
      return Some(CloseFailed);
    }
    reporter.FinishFile();
  }

  method WriteFile(writer: Writer, f: ArchiveFile, format: Format, reporter: ProgressReporter)
    returns (skipped: bool, error: Option<ArchiveError>)
    requires reporter.Valid()
    requires f.regular ==> reporter.filesDone < reporter.totalFiles && reporter.bytesDone + f.size <= reporter.totalBytes
    modifies writer, reporter
    ensures IsBeginning(writer.entries, old(writer.entries) + EntriesOf(f, format))
    ensures error.None? ==> writer.entries == old(writer.entries) + EntriesOf(f, format)
    ensures skipped <==> f.regular && f.source.Vanished?
    ensures reporter.Valid() && reporter.GoesOn()
    ensures f.regular ==> reporter.filesDone <= old(reporter.filesDone) + 1 && reporter.bytesDone <= old(reporter.bytesDone) + f.size
    ensures !f.regular ==> reporter.Now() == old(reporter.Now())
  {
    skipped, error := false, None;
    WholeIsBeginning(writer.entries, EntriesOf(f, format));
    if !f.regular {
      if format.TarGz? {
        var failed := writer.WriteHeader(f.name);
        if failed {
          error := Some(HeaderFailed);
        }
      }
      return;
    }
    match f.source {
      case Vanished =>
        skipped := true;
      case OpenFails =>
        error := Some(OpenFailed);
      case Opened(_, _) =>
        error := WriteRegularFile(writer, f, reporter);
    }
  }

  // The loop over the files, behind the entries `before`. `cancelledAt` is the file before which the
  // context is found cancelled, if there is one.
  method WriteFiles(writer: Writer, files: seq<ArchiveFile>, format: Format, cancelledAt: nat, reporter: ProgressReporter)
    returns (warnings: seq<string>, error: Option<ArchiveError>)
    requires reporter.Valid() && reporter.filesDone + FilesTotal(files) <= reporter.totalFiles
    requires reporter.bytesDone + BytesTotal(files) <= reporter.totalBytes
    modifies writer, reporter
    ensures IsBeginning(writer.entries, old(writer.entries) + FileEntries(files, format))
    ensures error.None? ==> writer.entries == old(writer.entries) + FileEntries(files, format) && warnings == Skipped(files)
    ensures reporter.Valid() && reporter.GoesOn()
  {
    ghost var before := writer.entries;
    warnings, error := [], None;
    for i := 0 to |files|
      invariant error.None? && writer.entries == before + FileEntries(files[..i], format)
      invariant warnings == Skipped(files[..i])
      invariant reporter.Valid() && reporter.GoesOn()
      invariant reporter.filesDone <= old(reporter.filesDone) + FilesTotal(files[..i])
      invariant reporter.bytesDone <= old(reporter.bytesDone) + BytesTotal(files[..i])
    {
      UpToFile(files, format, i, before);
      if i == cancelledAt {
        return warnings, Some(Cancelled);
      }
      var skipped;
      skipped, error := WriteFile(writer, files[i], format, reporter);
      if error.Some? {
        BeginningOfMore(writer.entries, before + FileEntries(files[..i + 1], format), before + FileEntries(files, format));
        return;
      }
      if skipped {
        warnings := warnings + [files[i].path];
      }
    }
    assert files[..|files|] == files;
    WholeIsBeginning(before + FileEntries(files, format), []);
  }

  // Where the loop stands before it writes file `i`.
  lemma UpToFile(files: seq<ArchiveFile>, format: Format, i: nat, before: seq<Entry>)
    requires i < |files|
    ensures files[..i + 1][..i] == files[..i]
    ensures var done, more, all := FileEntries(files[..i], format), FileEntries(files[..i + 1], format), FileEntries(files, format);
            && before + done + EntriesOf(files[i], format) == before + more
            && before + more <= before + all && IsBeginning(before + done, before + all)
    ensures FilesTotal(files[..i + 1]) <= FilesTotal(files) && BytesTotal(files[..i + 1]) <= BytesTotal(files)
  {
    TotalsGrow(files, i + 1);
    FirstFiles(files, format, i + 1);
    FirstFiles(files, format, i);
    assert files[..i + 1][..i] == files[..i];
    var done, more, all := FileEntries(files[..i], format), FileEntries(files[..i + 1], format), FileEntries(files, format);
    Behind(before, done, EntriesOf(files[i], format), more, all);
  }

  lemma Behind(before: seq<Entry>, done: seq<Entry>, next: seq<Entry>, more: seq<Entry>, all: seq<Entry>)
    requires more == done + next && more <= all
    ensures before + done + next == before + more
    ensures before + more <= before + all
    ensures IsBeginning(before + done, before + all)
  {
    assert (before + all)[..|before + more|] == before + more;
    assert before + all == before + done + all[|done|..];
    WholeIsBeginning(before + done, all[|done|..]);
  }

  // The extra files, then the files. The result names the files that were skipped because they were
  // gone.
  method WriteArchive(writer: Writer, files: seq<ArchiveFile>, extras: seq<ExtraFile>, format: Format,
                      cancelledAt: nat, reporter: ProgressReporter)
    returns (r: Result<seq<string>, ArchiveError>)
    requires writer.entries == [] && reporter.Valid() && reporter.Now() == Progress(0, 0)
    requires reporter.totalFiles == FilesTotal(files) && reporter.totalBytes == BytesTotal(files) + ExtraTotal(extras)
    modifies writer, reporter
    ensures IsBeginning(writer.entries, ExtraEntries(extras) + FileEntries(files, format))
    ensures r.Ok? ==> writer.entries == ExtraEntries(extras) + FileEntries(files, format)
    ensures r.Ok? ==> r.value == Skipped(files) && reporter.Now() == Progress(reporter.totalFiles, reporter.totalBytes)
    ensures reporter.Valid() && reporter.GoesOn()
  {
    var error := WriteExtraFiles(writer, extras, reporter);
    ghost var extra, rest := ExtraEntries(extras), FileEntries(files, format);
    assert extra <= extra + rest;
    BeginningOfMore(writer.entries, extra, extra + rest);
    if error.Some? {
      return Err(error.value);
    }
    var warnings;
    warnings, error := WriteFiles(writer, files, format, cancelledAt, reporter);
    if error.Some? {
      return Err(error.value);
    }
    reporter.Finish();
    r := Ok(warnings);
  }
}
