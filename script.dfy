/**
 * The module-level steps of test.py after the audio track is extracted:
 * the size-gated split into 20-minute chunk files, the rebuilt file list,
 * and the transcription of every listed file, appended in list order to
 * the transcript file.
 *
 * Files are modelled by what the script does with them: each export is a
 * record of the file name and the audio range written to it, the removal of
 * the original track is a flag, and the transcript file is the sequence of
 * pieces appended to it. The transcription service is a function parameter.
 */
module Script {
  import opened ChunkPlan
  import opened ChunkNames
  import opened Wrappers

  /** One `chunk.export(...)` call: the file written, the bounds it was sliced with, and the audio it holds. */
  datatype Export = Export(file: string, window: Span, content: Span)

  /**
   * The export of chunk `i` of audio lasting `durationMs`: a file whose name
   * reads back as chunk `i`, sliced with chunk `i`'s own 20-minute window
   * `[i * ChunkMs, (i + 1) * ChunkMs)`, holding the part of that window that
   * lies inside the audio.
   */
  function ChunkExport(i: nat, durationMs: nat): (e: Export)
    ensures ChunkIndex(e.file) == Some(i)
    ensures e.window.start == i * ChunkMs && e.window.end == (i + 1) * ChunkMs
    ensures e.window.Length() == ChunkMs
    ensures e.content.end <= durationMs && 0 <= e.content.Length() <= ChunkMs
    ensures forall t: nat :: e.content.Contains(t) <==> e.window.Contains(t) && t < durationMs
  {
    ChunkIndexOfName(i);
    Export(ChunkName(i), Window(i), Clamp(Window(i), durationMs))
  }

  /**
   * The chunk files, in index order: `Audio/chunk_0.mp3` up to
   * `Audio/chunk_{n-1}.mp3`. Entry `k` reads back as chunk `k`, so no name
   * is missing or repeated.
   */
  function ChunkFiles(n: nat): (files: seq<string>)
    ensures |files| == n
    ensures forall k :: 0 <= k < n ==> ChunkIndex(files[k]) == Some(k)
    ensures forall j, k :: 0 <= j < k < n ==> files[j] != files[k]
  {
    var files := seq(n, i requires 0 <= i => ChunkName(i));
    forall k | 0 <= k < n
      ensures ChunkIndex(files[k]) == Some(k)
    {
      ChunkIndexOfName(k);
    }
    files
  }

  /** The file list once the size gate has run. */
  function FileList(sizeBytes: nat, durationMs: nat): seq<string> {
    if Oversized(sizeBytes) then ChunkFiles(NumChunks(durationMs)) else [OriginalName]
  }

  /** The exports the split performs, in order. */
  function Exports(sizeBytes: nat, durationMs: nat): seq<Export> {
    if Oversized(sizeBytes)
    then seq(NumChunks(durationMs), i requires 0 <= i => ChunkExport(i, durationMs))
    else []
  }

  /**
   * The size gate and the split loop. Returns the new file list, the
   * exports in the order they were made, and whether the original track
   * was removed.
   */
  method SplitIfOversized(sizeBytes: nat, durationMs: nat)
    returns (filename: seq<string>, exports: seq<Export>, removedOriginal: bool)
    ensures filename == FileList(sizeBytes, durationMs)
    ensures exports == Exports(sizeBytes, durationMs)
    ensures removedOriginal == Oversized(sizeBytes)
  {
    filename := [OriginalName];
    exports := [];
    removedOriginal := false;
    if sizeBytes > MaxSizeBytes {
      var numChunks := durationMs / ChunkMs + 1;
      for i := 0 to numChunks
        invariant |exports| == i
        invariant forall k :: 0 <= k < i ==> exports[k] == ChunkExport(k, durationMs)
      {
        var start := i * ChunkSeconds * 1000;
        var end := (i + 1) * ChunkSeconds * 1000;
        assert Span(start, end) == Window(i) by {
          assert i * ChunkSeconds * 1000 == i * ChunkMs;
          assert (i + 1) * ChunkSeconds * 1000 == (i + 1) * ChunkMs;
        }
        var chunk := Clamp(Span(start, end), durationMs);
        assert Export(ChunkName(i), Span(start, end), chunk) == ChunkExport(i, durationMs);
        exports := exports + [Export(ChunkName(i), Span(start, end), chunk)];
      }
      assert numChunks == NumChunks(durationMs);
      removedOriginal := true;
      filename := seq(numChunks, i requires 0 <= i => ChunkName(i));
      assert filename == ChunkFiles(numChunks);
    }
  }

  /** What the transcription service returns for each file of the list, in list order. */
  function Transcripts(files: seq<string>, transcribe: string -> string): seq<string> {
    seq(|files|, k requires 0 <= k < |files| => transcribe(files[k]))
  }

  /**
   * Each file is transcribed on its own: transcribing two lists one after
   * the other appends the same as transcribing their concatenation.
   */
  lemma TranscriptsConcat(first: seq<string>, second: seq<string>, transcribe: string -> string)
    ensures Transcripts(first + second, transcribe) == Transcripts(first, transcribe) + Transcripts(second, transcribe)
  {
  }

  /**
   * The transcription loop: each listed file is transcribed and the result
   * appended to the transcript file, whose earlier contents stay in front.
   */
  method TranscribeAll(filename: seq<string>, transcribe: string -> string, transcriptFile: seq<string>)
    returns (written: seq<string>)
    ensures written == transcriptFile + Transcripts(filename, transcribe)
  {
    written := transcriptFile;
    for k := 0 to |filename|
      invariant |written| == |transcriptFile| + k
      invariant written[..|transcriptFile|] == transcriptFile
      invariant forall j :: 0 <= j < k ==> written[|transcriptFile| + j] == transcribe(filename[j])
    {
      var transcript := transcribe(filename[k]);
      written := written + [transcript];
    }
  }

  /**
   * At or below 25 MiB the list is the extracted track alone and nothing is
   * exported or removed; above it, entry `k` of the list is the name of chunk `k`, no
   * two entries are equal, and the original track is not among them.
   */
  lemma FileListShape(sizeBytes: nat, durationMs: nat)
    ensures !Oversized(sizeBytes) ==> FileList(sizeBytes, durationMs) == [OriginalName]
    ensures !Oversized(sizeBytes) ==> Exports(sizeBytes, durationMs) == []
    ensures Oversized(sizeBytes) ==>
              |FileList(sizeBytes, durationMs)| == NumChunks(durationMs) >= 1
              && (forall k :: 0 <= k < |FileList(sizeBytes, durationMs)| ==>
                    ChunkIndex(FileList(sizeBytes, durationMs)[k]) == Some(k))
              && OriginalName !in FileList(sizeBytes, durationMs)
    ensures forall j, k :: 0 <= j < k < |FileList(sizeBytes, durationMs)| ==>
              FileList(sizeBytes, durationMs)[j] != FileList(sizeBytes, durationMs)[k]
  {
  }

  /**
   * The rebuilt file list names exactly the files the loop exported, one per
   * chunk and in the same order.
   */
  lemma FileListMatchesExports(sizeBytes: nat, durationMs: nat)
    requires Oversized(sizeBytes)
    ensures |Exports(sizeBytes, durationMs)| == |FileList(sizeBytes, durationMs)|
    ensures forall k :: 0 <= k < |FileList(sizeBytes, durationMs)| ==>
              Exports(sizeBytes, durationMs)[k].file == FileList(sizeBytes, durationMs)[k]
  {
  }

  /**
   * The exported chunks tile the audio: export `k` is sliced with window `k`
   * and holds extent `k`, each holds at most 20 minutes, they
   * follow one another without gap or overlap from 0 to the end, and their
   * lengths add up to the duration.
   */
  lemma ExportsTileAudio(sizeBytes: nat, durationMs: nat)
    requires Oversized(sizeBytes)
    ensures |Exports(sizeBytes, durationMs)| == |Extents(durationMs)|
    ensures forall k :: 0 <= k < |Exports(sizeBytes, durationMs)| ==>
              Exports(sizeBytes, durationMs)[k].window == Windows(durationMs)[k]
              && Exports(sizeBytes, durationMs)[k].content == Extents(durationMs)[k]
              && Exports(sizeBytes, durationMs)[k].content.Length() <= ChunkMs
    ensures TotalLength(Extents(durationMs)) == durationMs
  {
    ExtentsTile(durationMs);
  }

  /**
   * After a split, the transcript file gains the transcripts of chunk 0,
   * chunk 1, ... in index order, behind what it held before.
   */
  lemma TranscriptInChunkOrder(sizeBytes: nat, durationMs: nat, transcribe: string -> string, transcriptFile: seq<string>)
    requires Oversized(sizeBytes)
    ensures var written := transcriptFile + Transcripts(FileList(sizeBytes, durationMs), transcribe);
            |written| == |transcriptFile| + NumChunks(durationMs)
            && written[..|transcriptFile|] == transcriptFile
            && forall k :: 0 <= k < NumChunks(durationMs) ==> written[|transcriptFile| + k] == transcribe(ChunkName(k))
  {
  }
}
