/**
 What goes into an archive: one entry for each file and extra file, in order, and the progress counted
 on the way.

 `Read` is what one read of a source file gives, with or without an error behind it; the end of the
 list is the end of the file. A file may have grown or shrunk since its size was taken.
 */
module ArchiveModel {
  import opened Places
  import opened Text
  import opened Wrappers

  type Byte = x: int | 0 <= x < 256

  type Bytes = seq<Byte>

  datatype Read = Read(data: Bytes, failed: bool)

  datatype Source = Vanished | OpenFails | Opened(chunks: seq<Read>, closeFails: bool)

  // `size` is the size that was taken when the archive was planned, and that the header shows.
  datatype ArchiveFile = ArchiveFile(path: string, name: string, regular: bool, size: nat, source: Source)

  datatype ExtraFile = ExtraFile(name: string, data: Bytes)

  datatype Entry = Entry(name: string, data: Bytes)

  datatype Format = TarGz | Zip

  // ---- Contents -------------------------------------------------------------------------------

  function Content(chunks: seq<Read>): Bytes {
    if chunks == [] then [] else Content(chunks[..|chunks| - 1]) + chunks[|chunks| - 1].data
  }

  function Zeros(n: nat): Bytes { seq(n, _ => 0) }

  // A source cut or filled up with zeros to the size its header shows.
  function Fitted(content: Bytes, size: nat): (r: Bytes)
    ensures |r| == size
    ensures forall i :: 0 <= i < size ==> r[i] == if i < |content| then content[i] else 0
  {
    if |content| >= size then content[..size] else content + Zeros(size - |content|)
  }

  // A name for the root of the archive, if it is one.
  function SafeRootName(name: string): Option<string> {
    var n := Trim(name);
    if n == "" || n == "." || '/' in n || '\\' in n then None else Some(n)
  }

  function ExtraEntries(extras: seq<ExtraFile>): seq<Entry> {
    if extras == [] then []
    else
      var rest, last := ExtraEntries(extras[..|extras| - 1]), extras[|extras| - 1];
      if SafeRootName(last.name).Some? then rest + [Entry(SafeRootName(last.name).value, last.data)] else rest
  }

  // A tar archive has a header for what is not a regular file; a zip archive leaves it out.
  function EntriesOf(f: ArchiveFile, format: Format): seq<Entry> {
    if !f.regular then (if format.TarGz? then [Entry(f.name, [])] else [])
    else if f.source.Opened? then [Entry(f.name, Fitted(Content(f.source.chunks), f.size))]
    else []
  }

  function FileEntries(files: seq<ArchiveFile>, format: Format): seq<Entry> {
    if files == [] then []
    else FileEntries(files[..|files| - 1], format) + EntriesOf(files[|files| - 1], format)
  }

  // The files that were gone when they were to be opened.
  function Skipped(files: seq<ArchiveFile>): seq<string> {
    if files == [] then []
    else
      var rest, last := Skipped(files[..|files| - 1]), files[|files| - 1];
      if last.regular && last.source.Vanished? then rest + [last.path] else rest
  }

  // An archive that was not finished: whole entries, the last of which may be cut short.
  predicate IsBeginning(entries: seq<Entry>, whole: seq<Entry>) {
    && |entries| <= |whole|
    && (forall k :: 0 <= k < |entries| - 1 ==> entries[k] == whole[k])
    && (entries != [] ==>
          var k := |entries| - 1;
          entries[k].name == whole[k].name && entries[k].data <= whole[k].data)
  }

  // ---- What is archived -----------------------------------------------------------------------

  // A name that can stand at the root of the archive, but for white space around it.
  predicate IsRootName(name: string) { Trim(name) != "" && Trim(name) != "." && '/' !in Trim(name) && '\\' !in Trim(name) }

  // Entry `k` is that of the extra file at place `at[k]`.
  predicate OfExtras(entries: seq<Entry>, extras: seq<ExtraFile>, at: seq<nat>) {
    |at| == |entries| && forall k :: 0 <= k < |at| ==> at[k] < |extras| && entries[k] == Entry(Trim(extras[at[k]].name), extras[at[k]].data)
  }

  function RootNames(extras: seq<ExtraFile>): nat -> bool { (i: nat) => i < |extras| && IsRootName(extras[i].name) }

  // Each extra file with a name for the root has its entry, with its data, in the order of the files.
  lemma {:induction false} ExtrasAre(extras: seq<ExtraFile>) returns (at: seq<nat>)
    ensures OfExtras(ExtraEntries(extras), extras, at) && Picked(at, |extras|, RootNames(extras))
  {
    if extras == [] {
      at := [];
    } else {
      var n := |extras| - 1;
      at := ExtrasAre(extras[..n]);
      PickedMore(at, n, RootNames(extras[..n]), RootNames(extras));
      at := if IsRootName(extras[n].name) then at + [n] else at;
    }
  }

  // A regular file is archived when it could be opened, what is not regular only in a tar archive.
  predicate HasEntry(f: ArchiveFile, format: Format) { if f.regular then f.source.Opened? else format == TarGz }

  // The entry shows the first bytes of what was read, as many as the header says, and zeros after them.
  predicate Shows(e: Entry, f: ArchiveFile) {
    && e.name == f.name && |e.data| == (if f.regular then f.size else 0)
    && (f.regular && f.source.Opened? ==>
          forall i :: 0 <= i < f.size ==> e.data[i] == if i < |Content(f.source.chunks)| then Content(f.source.chunks)[i] else 0)
  }

  predicate ShowFiles(entries: seq<Entry>, files: seq<ArchiveFile>, at: seq<nat>) {
    |at| == |entries| && forall k :: 0 <= k < |at| ==> at[k] < |files| && Shows(entries[k], files[at[k]])
  }

  function WithEntry(files: seq<ArchiveFile>, format: Format): nat -> bool { (i: nat) => i < |files| && HasEntry(files[i], format) }

  // Each file that has an entry shows in it, in the order of the files.
  lemma {:induction false} FilesAre(files: seq<ArchiveFile>, format: Format) returns (at: seq<nat>)
    ensures ShowFiles(FileEntries(files, format), files, at) && Picked(at, |files|, WithEntry(files, format))
  {
    if files == [] {
      at := [];
    } else {
      var n := |files| - 1;
      at := FilesAre(files[..n], format);
      PickedMore(at, n, WithEntry(files[..n], format), WithEntry(files, format));
      ShowMore(FileEntries(files[..n], format), files, at, format);
      at := if HasEntry(files[n], format) then at + [n] else at;
    }
  }

  lemma ShowMore(entries: seq<Entry>, files: seq<ArchiveFile>, at: seq<nat>, format: Format)
    requires files != [] && ShowFiles(entries, files[..|files| - 1], at)
    ensures var n := |files| - 1;
            ShowFiles(entries + EntriesOf(files[n], format), files, if HasEntry(files[n], format) then at + [n] else at)
  {
    var n := |files| - 1;
    assert forall k :: 0 <= k < |at| ==> files[..n][at[k]] == files[at[k]];
  }

  function Gone(files: seq<ArchiveFile>): nat -> bool { (i: nat) => i < |files| && files[i].regular && files[i].source == Vanished }

  // The warnings name the files that were gone, in order.
  lemma {:induction false} SkippedAre(files: seq<ArchiveFile>) returns (at: seq<nat>)
    ensures |at| == |Skipped(files)| && Picked(at, |files|, Gone(files))
    ensures forall k :: 0 <= k < |at| ==> at[k] < |files| && Skipped(files)[k] == files[at[k]].path
  {
    if files == [] {
      at := [];
    } else {
      var n := |files| - 1;
      at := SkippedAre(files[..n]);
      PickedMore(at, n, Gone(files[..n]), Gone(files));
      at := if files[n].regular && files[n].source == Vanished then at + [n] else at;
    }
  }

  // ---- Progress -------------------------------------------------------------------------------

  datatype Progress = Progress(filesDone: nat, bytesDone: nat)

  predicate NoLess(p: Progress, q: Progress) { p.filesDone <= q.filesDone && p.bytesDone <= q.bytesDone }

  function FilesTotal(files: seq<ArchiveFile>): nat {
    if files == [] then 0 else FilesTotal(files[..|files| - 1]) + if files[|files| - 1].regular then 1 else 0
  }

  function BytesTotal(files: seq<ArchiveFile>): nat {
    if files == [] then 0
    else BytesTotal(files[..|files| - 1]) + if files[|files| - 1].regular then files[|files| - 1].size else 0
  }

  function ExtraTotal(extras: seq<ExtraFile>): nat {
    if extras == [] then 0
    else
      var last := extras[|extras| - 1];
      ExtraTotal(extras[..|extras| - 1]) + if SafeRootName(last.name).Some? then |last.data| else 0
  }

  lemma {:induction false} TotalsGrow(files: seq<ArchiveFile>, n: nat)
    requires n <= |files|
    ensures FilesTotal(files[..n]) <= FilesTotal(files) && BytesTotal(files[..n]) <= BytesTotal(files)
  {
    if n < |files| {
      var front := files[..|files| - 1];
      TotalsGrow(front, n);
      assert front[..n] == files[..n];
    } else {
      assert files[..n] == files;
    }
  }

  lemma {:induction false} ExtraTotalGrows(extras: seq<ExtraFile>, n: nat)
    requires n <= |extras|
    ensures ExtraTotal(extras[..n]) <= ExtraTotal(extras)
  {
    if n < |extras| {
      var front := extras[..|extras| - 1];
      ExtraTotalGrows(front, n);
      assert front[..n] == extras[..n];
    } else {
      assert extras[..n] == extras;
    }
  }

  // The files counted are the regular ones.
  lemma {:induction false} FilesTotalIs(files: seq<ArchiveFile>)
    ensures FilesTotal(files) == |set i | 0 <= i < |files| && files[i].regular|
  {
    if files != [] {
      var n := |files| - 1;
      FilesTotalIs(files[..n]);
      var front, all := set i | 0 <= i < n && files[..n][i].regular, set i | 0 <= i < |files| && files[i].regular;
      assert all == if files[n].regular then front + {n} else front;
    }
  }

  predicate Missed(f: ArchiveFile) { f.regular && f.size > 0 && !f.source.Opened? }

  predicate AllOpened(files: seq<ArchiveFile>) { forall i :: 0 <= i < |files| ==> !Missed(files[i]) }

  // The bytes that are reported as done at the end are those in the archive exactly when no file that
  // has any was skipped.
  lemma ReportedIsWrittenIff(files: seq<ArchiveFile>, extras: seq<ExtraFile>, format: Format)
    ensures DataSize(ExtraEntries(extras) + FileEntries(files, format)) <= BytesTotal(files) + ExtraTotal(extras)
    ensures DataSize(ExtraEntries(extras) + FileEntries(files, format)) == BytesTotal(files) + ExtraTotal(extras) <==> AllOpened(files)
  {
    DataSizeSplits(ExtraEntries(extras), FileEntries(files, format));
    ExtrasAddUp(extras);
    FilesAddUp(files, format);
  }

  lemma {:induction false} ExtrasAddUp(extras: seq<ExtraFile>)
    ensures DataSize(ExtraEntries(extras)) == ExtraTotal(extras)
  {
    if extras != [] {
      var front, last := extras[..|extras| - 1], extras[|extras| - 1];
      ExtrasAddUp(front);
      assert SafeRootName(last.name).Some? ==> ExtraEntries(extras)[..|ExtraEntries(front)|] == ExtraEntries(front);
    }
  }

  lemma {:induction false} FilesAddUp(files: seq<ArchiveFile>, format: Format)
    ensures DataSize(FileEntries(files, format)) <= BytesTotal(files)
    ensures DataSize(FileEntries(files, format)) == BytesTotal(files) <==> AllOpened(files)
  {
    if files != [] {
      var front, last := files[..|files| - 1], files[|files| - 1];
      FilesAddUp(front, format);
      DataSizeSplits(FileEntries(front, format), EntriesOf(last, format));
      OneEntry(last, format);
      AllOpenedSplits(files);
    }
  }

  lemma AllOpenedSplits(files: seq<ArchiveFile>)
    requires files != []
    ensures AllOpened(files) <==> AllOpened(files[..|files| - 1]) && !Missed(files[|files| - 1])
  {
    var front := files[..|files| - 1];
    assert forall i :: 0 <= i < |front| ==> front[i] == files[i];
  }

  function DataSize(entries: seq<Entry>): nat {
    if entries == [] then 0 else DataSize(entries[..|entries| - 1]) + |entries[|entries| - 1].data|
  }

  lemma OneEntry(f: ArchiveFile, format: Format)
    ensures DataSize(EntriesOf(f, format)) == if f.regular && f.source.Opened? then f.size else 0
  {
    var entries := EntriesOf(f, format);
    assert entries != [] ==> entries[..|entries| - 1] == [];
  }

  lemma {:induction false} DataSizeSplits(a: seq<Entry>, b: seq<Entry>)
    ensures DataSize(a + b) == DataSize(a) + DataSize(b)
    decreases |b|
  {
    if b == [] {
      assert a + b == a;
    } else {
      DataSizeSplits(a, b[..|b| - 1]);
      assert (a + b)[..|a + b| - 1] == a + b[..|b| - 1];
    }
  }

  // ---- Beginnings -----------------------------------------------------------------------------

  lemma WholeIsBeginning(entries: seq<Entry>, more: seq<Entry>)
    ensures IsBeginning(entries, entries + more)
  {
  }

  lemma {:induction false} FirstReads(chunks: seq<Read>, n: nat)
    requires n <= |chunks|
    ensures Content(chunks[..n]) <= Content(chunks)
  {
    if n < |chunks| {
      var front := chunks[..|chunks| - 1];
      FirstReads(front, n);
      assert front[..n] == chunks[..n];
    } else {
      assert chunks[..n] == chunks;
    }
  }

  lemma {:induction false} FirstFiles(files: seq<ArchiveFile>, format: Format, n: nat)
    requires n <= |files|
    ensures FileEntries(files[..n], format) <= FileEntries(files, format)
  {
    if n < |files| {
      var front := files[..|files| - 1];
      FirstFiles(front, format, n);
      assert front[..n] == files[..n];
    } else {
      assert files[..n] == files;
    }
  }

  lemma {:induction false} FirstExtras(extras: seq<ExtraFile>, n: nat)
    requires n <= |extras|
    ensures ExtraEntries(extras[..n]) <= ExtraEntries(extras)
  {
    if n < |extras| {
      var front := extras[..|extras| - 1];
      FirstExtras(front, n);
      assert front[..n] == extras[..n];
    } else {
      assert extras[..n] == extras;
    }
  }
}
