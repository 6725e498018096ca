/**
 * The audio file names of test.py: the extracted track `Audio/my_audio.mp3`
 * and the chunk files `Audio/chunk_{i}.mp3`. `ChunkIndex` reads a name back
 * to its index, so the names and the indices are in one-to-one correspondence.
 */
module ChunkNames {
  import opened Wrappers
  import Decimal

  /** The file the extracted audio track is written to, and the file list's only entry before any split. */
  const OriginalName: string := "Audio/my_audio.mp3"

  const ChunkPrefix: string := "Audio/chunk_"
  const ChunkSuffix: string := ".mp3"

  /**
   * The file chunk `i` is exported to: the chunk prefix, then a numeral that
   * parses back to `i`, then the `.mp3` suffix.
   */
  function ChunkName(i: nat): (name: string)
    ensures |name| > |ChunkPrefix| + |ChunkSuffix|
    ensures name[..|ChunkPrefix|] == ChunkPrefix
    ensures name[|name| - |ChunkSuffix|..] == ChunkSuffix
    ensures Decimal.Parse(name[|ChunkPrefix|..|name| - |ChunkSuffix|]) == Some(i)
  {
    var digits := Decimal.Show(i);
    var name := ChunkPrefix + digits + ChunkSuffix;
    assert name[|ChunkPrefix|..|name| - |ChunkSuffix|] == digits;
    Decimal.ParseShow(i);
    name
  }

  /** The chunk index a file name stands for, or None when it is not a chunk file name. */
  function ChunkIndex(name: string): Option<nat> {
    if |name| >= |ChunkPrefix| + |ChunkSuffix|
       && name[..|ChunkPrefix|] == ChunkPrefix
       && name[|name| - |ChunkSuffix|..] == ChunkSuffix
    then Decimal.Parse(name[|ChunkPrefix|..|name| - |ChunkSuffix|])
    else None
  }

  /** Every chunk name reads back to the index it was made from. */
  lemma ChunkIndexOfName(i: nat)
    ensures ChunkIndex(ChunkName(i)) == Some(i)
  {
  }

  /** Every name that reads as chunk `i` is exactly the name chunk `i` is exported under. */
  lemma NameOfChunkIndex(name: string, i: nat)
    requires ChunkIndex(name) == Some(i)
    ensures ChunkName(i) == name
  {
    var digits := name[|ChunkPrefix|..|name| - |ChunkSuffix|];
    Decimal.ShowParse(digits);
    assert name == name[..|ChunkPrefix|] + digits + name[|name| - |ChunkSuffix|..];
  }

  /** Two chunks share a file name only if they are the same chunk. */
  lemma ChunkNameInjective(i: nat, j: nat)
    ensures ChunkName(i) == ChunkName(j) <==> i == j
  {
  }

  /** The extracted track's name is not a chunk name, so no chunk overwrites it and removing it removes no chunk. */
  lemma OriginalIsNoChunk(i: nat)
    ensures ChunkIndex(OriginalName) == None
    ensures ChunkName(i) != OriginalName
  {
  }
}
