# LectureSummary: the size-gated audio chunk plan of `test.py`

`test.py` extracts the audio track of a lecture video to `Audio/my_audio.mp3`.
It then checks the track's size. A file strictly larger than 25 MiB
(26,214,400 bytes) is too large for the transcription service. Such a file is
cut into 20-minute chunks: `num_chunks = int(duration / 1200) + 1`, and chunk
`i` is sliced from millisecond `i * 1,200,000` to `(i + 1) * 1,200,000`. Each
chunk is exported to `Audio/chunk_{i}.mp3`, the original file is removed, and
the file list becomes those chunk names. Every file in the list is then
transcribed in order, and each transcript is appended to
`Output/transcript.txt`.

This project models that logic in Dafny:

- `Decimal` renders a non-negative integer as Python's f-string does, and
  parses it back. Both directions of the round trip are proved.
- `ChunkNames` holds the file names. `ChunkIndex` reads a name back to its
  chunk index, so chunk names and indices correspond one to one.
- `ChunkPlan` holds the arithmetic: the size gate, the chunk count, the
  nominal windows, and the audio each window actually yields once slicing
  cuts it back to the track's length. It proves that the chunks tile the
  audio and pins down the empty trailing chunk. It also defines the
  ceiling-based count that the code evidently intends (see Findings).
- `Script` holds the script's imperative steps as methods with loops. One is
  the size gate with the export loop and the file-list rebuild. The other is
  the transcription loop. Each method is proved equal to a specification
  function, and lemmas state what those functions promise.

Durations are exact integer milliseconds. On a non-negative value, Python's
`int()` truncates toward zero, which is floor, so the chunk count is `nat`
division. Slicing a pydub segment past its end gives a shorter or empty
segment. The model writes this as `Clamp`, which cuts both bounds back to the
duration.

## Model

| member | source | states |
|---|---|---|
| ChunkPlan.SizeGateBoundary | test.py:24-27 | the size gate `Oversized`: a file is split exactly when it has 26,214,401 bytes or more; a file of exactly 25 MiB is kept whole |
| ChunkPlan.NumChunks | test.py:31-32 | there is always at least one chunk, and the count is the unique n whose last window starts at or before the end of the audio and ends after it, i.e. floor(duration / 20 min) + 1 |
| ChunkPlan.WindowSlot | test.py:35-36 | `Window(i)` is 1,200,000 ms wide, starts on a multiple of 20 minutes whose quotient is i, and ends where window i + 1 starts |
| ChunkPlan.Clamp | test.py:37 | slicing with a window yields exactly the instants of the window that lie inside the audio, never past its end and never longer than the window |
| ChunkPlan.Windows | test.py:34-36 | one window per chunk in index order: the first starts at 0, each is exactly 1,200,000 ms wide, each starts where the previous ends, and the last covers the end of the audio |
| ChunkPlan.Extents | test.py:35-37 | the audio each chunk actually holds after slicing: one per chunk, never longer than 20 minutes, never past the end of the audio |
| ChunkPlan.ExtentsTile | test.py:32-37 | the sliced chunks tile the audio: chunk 0 starts at 0, consecutive chunks meet without gap or overlap, the last ends at the duration, and their lengths sum to the duration |
| ChunkPlan.InstantInOneWindow | test.py:34-36 | every instant of the audio lies in exactly one chunk window, the one numbered t / 1,200,000 |
| ChunkPlan.ExtentLengths | test.py:31-37 | every chunk but the last holds a full 20 minutes; the last holds the duration modulo 20 minutes |
| ChunkPlan.EmptyLastChunkIffExactMultiple | test.py:32-37 | the last chunk is empty if and only if the duration is a whole multiple of 20 minutes, and then its window starts exactly at the end of the audio |
| ChunkPlan.FortyMinutesGivesEmptyThirdChunk | test.py:32-37 | a 40-minute track gets 3 chunks, the third being the empty range at minute 40 |
| ChunkPlan.FortyFiveMinutesSplitsInThree | test.py:31-37 | a 45-minute track is cut into chunks of 20, 20 and 5 minutes |
| ChunkPlan.CeilChunks | test.py:32 | corrected count: the ceiling of duration / 20 minutes, the least n with n windows covering the duration |
| ChunkPlan.CeilCountBelowWritten | test.py:32 | the corrected count is the written count, less one exactly when the duration is a whole multiple of 20 minutes |
| ChunkPlan.CeilExtentsNonEmpty | test.py:32-37 | with the corrected count no chunk is empty or longer than 20 minutes, the chunks are the written plan's chunks without the empty one, and they tile the audio: the first starts at 0, consecutive chunks meet, the last ends at the duration, and the lengths sum to the duration |
| Decimal.Show | test.py:39 | the rendering of `{i}` is a canonical decimal numeral, and starts with '0' only for 0 |
| Decimal.ValueOfShow | test.py:39 | the numeral of n denotes n |
| Decimal.ParseShow | test.py:39 | parsing the rendering of n gives back n |
| Decimal.ShowParse | test.py:39 | every canonical numeral is the rendering of the number it denotes |
| Decimal.ShowInjective | test.py:39 | two numbers have the same rendering if and only if they are equal |
| ChunkNames.ChunkName | test.py:39 | the name of chunk i is the `Audio/chunk_` prefix, a numeral that parses back to i, and the `.mp3` suffix |
| ChunkNames.ChunkIndexOfName | test.py:39 | the name `Audio/chunk_{i}.mp3` reads back to index i |
| ChunkNames.NameOfChunkIndex | test.py:39 | any name that reads as chunk i is exactly `Audio/chunk_{i}.mp3` |
| ChunkNames.ChunkNameInjective | test.py:39 | two chunks share a file name if and only if they are the same chunk |
| ChunkNames.OriginalIsNoChunk | test.py:39-41 | `Audio/my_audio.mp3` is no chunk name, so no export overwrites it and removing it removes no chunk |
| Script.ChunkExport | test.py:35-39 | the export of chunk i goes to a file whose name reads back as i, is sliced with chunk i's own window [i·1,200,000, (i+1)·1,200,000), and holds exactly the part of that window inside the audio |
| Script.ChunkFiles | test.py:43 | the rebuilt list has one entry per chunk, entry k reads back as chunk k, and no two entries are equal |
| Script.SplitIfOversized | test.py:21-46 | the size gate and export loop return the file list, the exports in order and the removal flag given by FileList, Exports and Oversized |
| Script.FileListShape | test.py:21-46 | at or below 25 MiB the list is exactly [`Audio/my_audio.mp3`] and nothing is exported; above it entry k is the name of chunk k for every k < num_chunks, the original is not listed, and no two entries are equal |
| Script.FileListMatchesExports | test.py:34-43 | the rebuilt list names exactly the files the loop exported, one per chunk, in the same order |
| Script.ExportsTileAudio | test.py:34-39 | one export per chunk, export k sliced with window k and holding extent k, at most 20 minutes, and together they hold the whole duration |
| Script.TranscriptsConcat | test.py:49-57 | each file is transcribed on its own: the transcripts of a concatenated list are the transcripts of its parts, in order |
| Script.TranscribeAll | test.py:49-57 | the transcript file keeps its earlier contents and gains the transcript of each listed file, in list order |
| Script.TranscriptInChunkOrder | test.py:43-57 | after a split, the transcripts of chunk 0, 1, … are appended in index order, one per chunk |

## Left out

- Loading the video and extracting its audio with moviepy (test.py:11-18): a foreign library with file I/O. The model starts from the extracted track's byte size and duration, given as inputs.
- Decoding and encoding MP3 with pydub (test.py:29, test.py:37-39): only the slice bounds and the range of audio each export holds are modelled, not the audio samples. The clamping of an out-of-range slice follows pydub's documented behaviour; pydub itself is not part of this model.
- `audio.duration_seconds` is a float and is not rounded to milliseconds, while slicing works in whole milliseconds. The model takes the duration as a whole number of milliseconds, so float rounding in `duration / chunk_size` and durations with a fraction of a millisecond are not modelled.
- ChunkPlan.EmptyLastChunkIffExactMultiple: its "only if" half holds for whole-millisecond durations only. A track that runs a fraction of a millisecond past a multiple of 20 minutes also gets an empty last chunk when pydub rounds its length to whole milliseconds; pydub is not part of this model.
- `os.path.getsize` and `os.remove` (test.py:27, test.py:41): the size is an input, and the removal is a returned flag.
- The OpenAI transcription call and `json.dumps` (test.py:53): both become the function parameter `transcribe`, applied to the file name, since within one run the name fixes the file's contents. Opening the files and appending to `Output/transcript.txt` (test.py:51, test.py:55-57) are modelled as appending one entry per transcript to a sequence.
- Reading `OPENAI_API_KEY` from the environment (test.py:9): configuration.
- Exceptions (an unreadable file, a failed service call) abort the script; the model has no error paths because the modelled arithmetic has none.
- Splitting transcript text by token count is not part of this model: `test.py` has no such code.

## Findings

| source | as written | input that shows it | evidently intended | confidence | as-written member | corrected member |
|---|---|---|---|---|---|---|
| test.py:32 | `num_chunks = int(duration / chunk_size) + 1` | a 40-minute track (2,400 s) over 25 MiB: 3 chunks, the third sliced as `audio[2400000:3600000]`, which is empty, yet still exported and sent for transcription | one chunk per started 20 minutes, i.e. `ceil(duration / chunk_size)`, with no empty chunk | medium, not executed | ChunkPlan.EmptyLastChunkIffExactMultiple | ChunkPlan.CeilExtentsNonEmpty |

`Script` models the script as written, so its loop uses the written count.
The corrected count is proved separately in `ChunkPlan`: it gives no empty
chunk, the chunks still tile the audio from 0 to the duration, and it differs
from the written count only on whole multiples of 20 minutes.
