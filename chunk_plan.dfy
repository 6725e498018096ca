/**
 * The arithmetic of test.py's audio split: the 25 MiB size gate, the chunk
 * count `int(duration / chunk_size) + 1`, the nominal window of chunk `i`,
 * `[i * chunk_size * 1000, (i + 1) * chunk_size * 1000)` in milliseconds,
 * and the part of the audio that slicing with those bounds actually yields.
 * Durations are exact numbers of milliseconds.
 */
module ChunkPlan {

  /** `max_size`: 25 MiB, that is 26,214,400 bytes. */
  const MaxSizeBytes: nat := 25 * 1024 * 1024

  /** `chunk_size`: 20 minutes, in seconds. */
  const ChunkSeconds: nat := 20 * 60

  /** A chunk's nominal width in milliseconds (1,200,000). */
  const ChunkMs: nat := ChunkSeconds * 1000

  /** The size gate: only a file strictly larger than 25 MiB is split. */
  predicate Oversized(sizeBytes: nat) {
    sizeBytes > MaxSizeBytes
  }

  /** A file of exactly 25 MiB is kept whole; one byte more and it is split. */
  lemma SizeGateBoundary(sizeBytes: nat)
    ensures Oversized(sizeBytes) <==> sizeBytes >= 26214401
    ensures !Oversized(26214400) && Oversized(26214401)
  {
  }

  /** A half-open range of milliseconds `[start, end)`. */
  datatype Span = Span(start: nat, end: nat) {
    function Length(): int {
      end - start
    }

    predicate Contains(t: nat) {
      start <= t < end
    }
  }

  function Min(a: int, b: int): int {
    if a < b then a else b
  }

  /**
   * `num_chunks`: the number of whole chunk widths in the duration, plus one.
   * It is the one count whose last window starts at or before the end of the
   * audio and ends after it.
   */
  function NumChunks(durationMs: nat): (n: nat)
    ensures n >= 1
    ensures (n - 1) * ChunkMs <= durationMs < n * ChunkMs
  {
    durationMs / ChunkMs + 1
  }

  /** The bounds test.py computes for chunk `i`. */
  function Window(i: nat): Span {
    Span(i * ChunkMs, (i + 1) * ChunkMs)
  }

  /**
   * Window `i` is the `i`-th 20-minute slot: it is 20 minutes wide, starts on
   * a multiple of 20 minutes that identifies `i`, and ends where window
   * `i + 1` starts.
   */
  lemma WindowSlot(i: nat)
    ensures Window(i).Length() == ChunkMs
    ensures Window(i).start % ChunkMs == 0 && Window(i).start / ChunkMs == i
    ensures Window(i).end == Window(i + 1).start
  {
  }

  /** The nominal windows of all chunks, in index order. */
  function Windows(durationMs: nat): (ws: seq<Span>)
    ensures |ws| == NumChunks(durationMs)
    ensures ws[0].start == 0
    ensures forall i :: 0 <= i < |ws| ==> ws[i].Length() == ChunkMs
    ensures forall i :: 0 <= i < |ws| - 1 ==> ws[i].end == ws[i + 1].start
    ensures ws[|ws| - 1].start <= durationMs < ws[|ws| - 1].end
  {
    seq(NumChunks(durationMs), i requires 0 <= i => Window(i))
  }

  /**
   * What slicing audio of the given length with a window yields: both
   * bounds are cut back to the length, so a window past the end gives a
   * shorter or an empty range.
   */
  function Clamp(w: Span, durationMs: nat): (c: Span)
    ensures c.end <= durationMs
    ensures w.start <= w.end ==> 0 <= c.Length() <= w.Length()
    ensures forall t: nat :: c.Contains(t) <==> w.Contains(t) && t < durationMs
  {
    Span(Min(w.start, durationMs), Min(w.end, durationMs))
  }

  /** The audio each chunk actually holds, in index order. */
  function Extents(durationMs: nat): (es: seq<Span>)
    ensures |es| == NumChunks(durationMs)
    ensures forall i :: 0 <= i < |es| ==> 0 <= es[i].Length() <= ChunkMs
    ensures forall i :: 0 <= i < |es| ==> es[i].end <= durationMs
  {
    ClampedWindows(NumChunks(durationMs), durationMs)
  }

  /** The first `n` windows, each cut back to the duration. */
  function ClampedWindows(n: nat, durationMs: nat): seq<Span> {
    seq(n, i requires 0 <= i => Clamp(Window(i), durationMs))
  }

  /** The total number of milliseconds in a sequence of ranges. */
  function TotalLength(spans: seq<Span>): int {
    if spans == [] then 0 else TotalLength(spans[..|spans| - 1]) + spans[|spans| - 1].Length()
  }

  lemma {:induction false} ClampedPrefixTotal(n: nat, durationMs: nat)
    ensures TotalLength(ClampedWindows(n, durationMs)) == Min(n * ChunkMs, durationMs)
    decreases n
  {
    if n > 0 {
      var s := ClampedWindows(n, durationMs);
      assert s[..n - 1] == ClampedWindows(n - 1, durationMs);
      ClampedPrefixTotal(n - 1, durationMs);
      assert (n - 1) * ChunkMs + ChunkMs == n * ChunkMs;
    }
  }

  /**
   * The chunks tile the audio: the first starts at 0, each starts where the
   * previous one ends, the last ends at the end of the audio, and together
   * they hold exactly the duration, so nothing is lost and nothing is
   * exported twice.
   */
  lemma ExtentsTile(durationMs: nat)
    ensures Extents(durationMs)[0].start == 0
    ensures forall i :: 0 <= i < |Extents(durationMs)| - 1 ==>
              Extents(durationMs)[i].end == Extents(durationMs)[i + 1].start
    ensures Extents(durationMs)[|Extents(durationMs)| - 1].end == durationMs
    ensures TotalLength(Extents(durationMs)) == durationMs
  {
    ClampedPrefixTotal(NumChunks(durationMs), durationMs);
  }

  /** Every instant of the audio falls in exactly one window, the one numbered `t / ChunkMs`. */
  lemma InstantInOneWindow(durationMs: nat, t: nat)
    requires t < durationMs
    ensures t / ChunkMs < |Windows(durationMs)|
    ensures Windows(durationMs)[t / ChunkMs].start <= t < Windows(durationMs)[t / ChunkMs].end
    ensures forall j :: 0 <= j < |Windows(durationMs)| && Windows(durationMs)[j].start <= t < Windows(durationMs)[j].end ==>
              j == t / ChunkMs
  {
  }

  /**
   * Every chunk but the last holds a full 20 minutes; the last holds the
   * remainder of the duration modulo 20 minutes.
   */
  lemma ExtentLengths(durationMs: nat)
    ensures forall i :: 0 <= i < |Extents(durationMs)| - 1 ==> Extents(durationMs)[i].Length() == ChunkMs
    ensures Extents(durationMs)[|Extents(durationMs)| - 1].Length() == durationMs % ChunkMs
  {
  }

  /**
   * The off-by-one of `int(duration / chunk_size) + 1`: the last chunk is
   * empty exactly when the duration is a whole number of 20-minute chunks
   * (zero included); it then starts at the very end of the audio.
   */
  lemma EmptyLastChunkIffExactMultiple(durationMs: nat)
    ensures Extents(durationMs)[|Extents(durationMs)| - 1].Length() == 0 <==> durationMs % ChunkMs == 0
    ensures durationMs % ChunkMs == 0 ==> Windows(durationMs)[|Windows(durationMs)| - 1].start == durationMs
  {
  }

  /** A 40-minute track gets a third, empty chunk starting at minute 40. */
  lemma FortyMinutesGivesEmptyThirdChunk()
    ensures NumChunks(2400000) == 3
    ensures Windows(2400000)[2] == Span(2400000, 3600000)
    ensures Extents(2400000)[2] == Span(2400000, 2400000)
  {
  }

  /** A 45-minute track splits into chunks of 20, 20 and 5 minutes. */
  lemma FortyFiveMinutesSplitsInThree()
    ensures Extents(2700000) == [Span(0, 1200000), Span(1200000, 2400000), Span(2400000, 2700000)]
  {
  }

  // The count the split evidently intends: the ceiling of duration / 20 minutes.

  function CeilChunks(durationMs: nat): (n: nat)
    ensures (n - 1) * ChunkMs < durationMs <= n * ChunkMs || (n == 0 && durationMs == 0)
  {
    (durationMs + ChunkMs - 1) / ChunkMs
  }

  function CeilExtents(durationMs: nat): (es: seq<Span>)
    ensures |es| == CeilChunks(durationMs)
  {
    ClampedWindows(CeilChunks(durationMs), durationMs)
  }

  /**
   * With the ceiling count every chunk holds audio, the chunks are test.py's
   * chunks less the empty one, they still tile the whole duration, and the
   * count differs from test.py's exactly on whole multiples of 20 minutes.
   */
  lemma CeilExtentsNonEmpty(durationMs: nat)
    ensures forall i :: 0 <= i < |CeilExtents(durationMs)| ==> 0 < CeilExtents(durationMs)[i].Length() <= ChunkMs
    ensures NumChunks(durationMs) == CeilChunks(durationMs) + (if durationMs % ChunkMs == 0 then 1 else 0)
    ensures CeilExtents(durationMs) == Extents(durationMs)[..CeilChunks(durationMs)]
    ensures |CeilExtents(durationMs)| > 0 ==> CeilExtents(durationMs)[0].start == 0
    ensures forall i :: 0 <= i < |CeilExtents(durationMs)| - 1 ==>
              CeilExtents(durationMs)[i].end == CeilExtents(durationMs)[i + 1].start
    ensures |CeilExtents(durationMs)| > 0 ==> CeilExtents(durationMs)[|CeilExtents(durationMs)| - 1].end == durationMs
    ensures TotalLength(CeilExtents(durationMs)) == durationMs
  {
    var n := CeilChunks(durationMs);
    var es := CeilExtents(durationMs);
    CeilCountBelowWritten(durationMs);
    ExtentsTile(durationMs);
    assert es == Extents(durationMs)[..n];
    forall i | 0 <= i < n
      ensures 0 < es[i].Length() <= ChunkMs
    {
      assert i * ChunkMs <= (n - 1) * ChunkMs;
    }
    ClampedPrefixTotal(n, durationMs);
  }

  /** The ceiling count is test.py's count, less one exactly on whole multiples of 20 minutes. */
  lemma CeilCountBelowWritten(durationMs: nat)
    ensures NumChunks(durationMs) == CeilChunks(durationMs) + (if durationMs % ChunkMs == 0 then 1 else 0)
  {
  }
}
