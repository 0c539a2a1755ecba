/**
 * The chunk engine of the applier (`PatchApplier._apply_chunks` in applier.py): the
 * chunks of an Update hunk edit a buffer of lines in document order, while a cursor
 * marks where the search for the next chunk starts.
 *
 * `ChunkApplied` and `ChunksApplied` specify one chunk and the whole list; the method
 * `ApplyChunks` is the loop of `_apply_chunks`, proved equal to `ChunksApplied`.
 */
module ChunkEngine {
  import opened Results
  import opened Models
  import opened ContentSearch

  /** The two ways a chunk fails; each names the file being updated. */
  datatype ChunkError =
    | ContextNotFound(path: string, context: string)
    | LinesNotFound(path: string, oldLines: seq<string>)

  /** The anchor line a chunk is searched after: its change context, when that is a non-empty string. */
  function Anchor(chunk: UpdateFileChunk): (r: Option<string>)
    ensures r.Some? <==> chunk.changeContext.Some? && chunk.changeContext.value != ""
    ensures r.Some? ==> r == chunk.changeContext
  {
    if chunk.changeContext.Some? && chunk.changeContext.value != "" then chunk.changeContext else None
  }

  /** The cursor once the chunk's anchor (if any) was searched for from `cursor`: just past the anchor. */
  function AnchoredCursor(find: Finder, lines: seq<string>, cursor: nat, chunk: UpdateFileChunk, path: string)
    : Result<nat, ChunkError>
  {
    match Anchor(chunk)
    case None => Success(cursor)
    case Some(c) =>
      match find(lines, [c], cursor, false)
      case None => Failure(ContextNotFound(path, c))
      case Some(i) => Success(i + 1)
  }

  /** Where a pure insertion goes: at the end, but before a final empty line. */
  function InsertionIndex(lines: seq<string>): (k: nat)
    ensures k <= |lines|
  {
    if lines != [] && lines[|lines| - 1] == "" then |lines| - 1 else |lines|
  }

  /** A replacement site: where the pattern was found, the pattern itself and the block that replaces it. */
  datatype Match = Match(at: nat, pattern: seq<string>, block: seq<string>)

  /** `s` ends with an empty line. */
  predicate EndsBlank(s: seq<string>) {
    s != [] && s[|s| - 1] == ""
  }

  /** `s` without its last element when that is an empty line. */
  function DropTrailingBlank(s: seq<string>): seq<string>
  {
    if EndsBlank(s) then s[..|s| - 1] else s
  }

  /**
   * The three searches for a chunk's old lines: from the cursor; if that fails and the
   * old lines end with an empty line, again without it (the new lines then lose a
   * final empty line too); if still nothing is found and the cursor is past the
   * start, once more from index 0.
   */
  function Located(find: Finder, lines: seq<string>, cursor: nat, oldLines: seq<string>, newLines: seq<string>, eof: bool)
    : (r: Option<Match>)
    requires SoundFinder(find)
    ensures r.Some? ==> r.value.at + |r.value.pattern| <= |lines|
  {
    var first := find(lines, oldLines, cursor, eof);
    var retry := first.None? && EndsBlank(oldLines);
    var pattern := if retry then oldLines[..|oldLines| - 1] else oldLines;
    var block := if retry then DropTrailingBlank(newLines) else newLines;
    var found := if retry then find(lines, pattern, cursor, eof) else first;
    var found' := if found.None? && cursor > 0 then find(lines, pattern, 0, eof) else found;
    match found'
    case None => None
    case Some(i) => Some(Match(i, pattern, block))
  }

  /** `lines` with the `len` lines at `at` replaced by `block`. */
  function Splice(lines: seq<string>, at: nat, len: nat, block: seq<string>): (r: seq<string>)
    requires at + len <= |lines|
    ensures |r| == |lines| - len + |block|
    ensures r[..at] == lines[..at] && r[at..at + |block|] == block && r[at + |block|..] == lines[at + len..]
  {
    lines[..at] + block + lines[at + len..]
  }

  /**
   * One pass of `_apply_chunks`: the buffer and the cursor after `chunk`. A chunk with
   * no old lines is inserted at `InsertionIndex`; any other replaces the match found by
   * `Located`, and the cursor moves past the inserted or replacing block.
   */
  function ChunkApplied(find: Finder, lines: seq<string>, cursor: nat, chunk: UpdateFileChunk, path: string)
    : Result<(seq<string>, nat), ChunkError>
    requires SoundFinder(find)
  {
    match AnchoredCursor(find, lines, cursor, chunk, path)
    case Failure(e) => Failure(e)
    case Success(c) =>
      if chunk.oldLines == [] then
        var at := InsertionIndex(lines);
        Success((Splice(lines, at, 0, chunk.newLines), at + |chunk.newLines|))
      else Replaced(find, lines, c, chunk, path)
  }

  /** A chunk with old lines, searched from cursor `c`: the match is replaced by its block. */
  function Replaced(find: Finder, lines: seq<string>, c: nat, chunk: UpdateFileChunk, path: string)
    : Result<(seq<string>, nat), ChunkError>
    requires SoundFinder(find)
  {
    match Located(find, lines, c, chunk.oldLines, chunk.newLines, chunk.isEndOfFile)
    case None => Failure(LinesNotFound(path, chunk.oldLines))
    case Some(m) => Success((Splice(lines, m.at, |m.pattern|, m.block), m.at + |m.block|))
  }

  /** The buffer after `chunks`, applied in order from `cursor`, or the first chunk's failure. */
  function ChunksApplied(find: Finder, lines: seq<string>, cursor: nat, chunks: seq<UpdateFileChunk>, path: string)
    : Result<seq<string>, ChunkError>
    requires SoundFinder(find)
    decreases |chunks|
  {
    if chunks == [] then Success(lines)
    else
      match ChunkApplied(find, lines, cursor, chunks[0], path)
      case Failure(e) => Failure(e)
      case Success((next, c)) => ChunksApplied(find, next, c, chunks[1..], path)
  }

  /** `_apply_chunks`: the chunks edit a copy of the original lines, in order. */
  method ApplyChunks(find: Finder, originalLines: seq<string>, chunks: seq<UpdateFileChunk>, path: string)
    returns (r: Result<seq<string>, ChunkError>)
    requires SoundFinder(find)
    ensures r == ChunksApplied(find, originalLines, 0, chunks, path)
  {
    var currentLines := originalLines;
    var lineIndex: nat := 0;
    for k := 0 to |chunks|
      invariant ChunksApplied(find, originalLines, 0, chunks, path) == ChunksApplied(find, currentLines, lineIndex, chunks[k..], path)
    {
      assert chunks[k..][1..] == chunks[k + 1..];
      var step := ApplyChunk(find, currentLines, lineIndex, chunks[k], path);
      if step.Failure? {
        return Failure(step.error);
      }
      currentLines, lineIndex := step.value.0, step.value.1;
    }
    assert chunks[|chunks|..] == [];
    return Success(currentLines);
  }

  /** The body of that loop, on one chunk. */
  method ApplyChunk(find: Finder, currentLines: seq<string>, lineIndex: nat, chunk: UpdateFileChunk, path: string)
    returns (r: Result<(seq<string>, nat), ChunkError>)
    requires SoundFinder(find)
    ensures r == ChunkApplied(find, currentLines, lineIndex, chunk, path)
  {
    var cursor := lineIndex;
    if chunk.changeContext.Some? && chunk.changeContext.value != "" {
      var foundIdx := find(currentLines, [chunk.changeContext.value], cursor, false);
      if foundIdx.None? {
        return Failure(ContextNotFound(path, chunk.changeContext.value));
      }
      cursor := foundIdx.value + 1;
    }
    if chunk.oldLines == [] {
      var insertionIdx := |currentLines|;
      if currentLines != [] && currentLines[|currentLines| - 1] == "" {
        insertionIdx := insertionIdx - 1;
      }
      return Success((currentLines[..insertionIdx] + chunk.newLines + currentLines[insertionIdx..], insertionIdx + |chunk.newLines|));
    }
    r := Replace(find, currentLines, cursor, chunk, path);
  }

  /** The rest of that body, for a chunk with old lines: the searches, then the splice. */
  method Replace(find: Finder, currentLines: seq<string>, cursor: nat, chunk: UpdateFileChunk, path: string)
    returns (r: Result<(seq<string>, nat), ChunkError>)
    requires SoundFinder(find)
    ensures r == Replaced(find, currentLines, cursor, chunk, path)
  {
    var m := Locate(find, currentLines, cursor, chunk.oldLines, chunk.newLines, chunk.isEndOfFile);
    if m.None? {
      return Failure(LinesNotFound(path, chunk.oldLines));
    }
    var at := m.value.at;
    return Success((currentLines[..at] + m.value.block + currentLines[at + |m.value.pattern|..], at + |m.value.block|));
  }

  /** The three searches of that body, with the pattern and block they settle on. */
  method Locate(find: Finder, currentLines: seq<string>, cursor: nat, oldLines: seq<string>, newLines: seq<string>, eof: bool)
    returns (m: Option<Match>)
    requires SoundFinder(find)
    ensures m == Located(find, currentLines, cursor, oldLines, newLines, eof)
  {
    var pattern := oldLines;
    var newBlock := newLines;
    var foundIdx := find(currentLines, pattern, cursor, eof);
    if foundIdx.None? && pattern != [] && pattern[|pattern| - 1] == "" {
      pattern := pattern[..|pattern| - 1];
      if newBlock != [] && newBlock[|newBlock| - 1] == "" {
        newBlock := newBlock[..|newBlock| - 1];
      }
      foundIdx := find(currentLines, pattern, cursor, eof);
    }
    if foundIdx.None? && cursor > 0 {
      foundIdx := find(currentLines, pattern, 0, eof);
    }
    if foundIdx.None? {
      return None;
    }
    return Some(Match(foundIdx.value, pattern, newBlock));
  }
}
