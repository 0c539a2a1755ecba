/**
 * Properties of the chunk engine: what the anchor search does to the cursor, where a
 * pure insertion lands, what a replacement keeps, when the two retries of the search
 * run, what a failure reports, and a worked example with repeated anchors.
 */
module ChunkProperties {
  import opened Results
  import opened Models
  import opened ContentSearch
  import opened ChunkEngine

  /**
   * An anchor that the search does not find from the cursor fails the chunk with an
   * error naming it; a found anchor lies in the buffer at or after the cursor, and the
   * cursor moves just past it.
   */
  lemma AnchorSearch(find: Finder, lines: seq<string>, cursor: nat, chunk: UpdateFileChunk, path: string)
    requires SoundFinder(find) && Anchor(chunk).Some?
    ensures var f := find(lines, [chunk.changeContext.value], cursor, false);
      && (f.None? ==> ChunkApplied(find, lines, cursor, chunk, path) == Failure(ContextNotFound(path, chunk.changeContext.value)))
      && (f.Some? ==> AnchoredCursor(find, lines, cursor, chunk, path) == Success(f.value + 1)
                      && cursor < f.value + 1 <= |lines|)
  {
  }

  /** A chunk without an anchor searches from the cursor it was given. */
  lemma NoAnchorKeepsCursor(find: Finder, lines: seq<string>, cursor: nat, chunk: UpdateFileChunk, path: string)
    requires chunk.changeContext.None? || chunk.changeContext == Some("")
    ensures AnchoredCursor(find, lines, cursor, chunk, path) == Success(cursor)
  {
  }

  /**
   * A chunk with no old lines inserts its new lines at `InsertionIndex` (before a final
   * empty line, otherwise at the end), whatever its anchor: the buffer grows by exactly
   * the new lines, the old lines keep their order around them, a final empty line stays
   * last, and the cursor lands just past the inserted block.
   */
  lemma PureInsertion(find: Finder, lines: seq<string>, cursor: nat, chunk: UpdateFileChunk, path: string)
    requires SoundFinder(find) && chunk.oldLines == []
    requires AnchoredCursor(find, lines, cursor, chunk, path).Success?
    ensures ChunkApplied(find, lines, cursor, chunk, path).Success?
    ensures var (next, c) := ChunkApplied(find, lines, cursor, chunk, path).value;
      var p := InsertionIndex(lines);
      && p == (if EndsBlank(lines) then |lines| - 1 else |lines|)
      && |next| == |lines| + |chunk.newLines|
      && c == p + |chunk.newLines|
      && next[p..c] == chunk.newLines
      && next[..p] + next[c..] == lines
      && (EndsBlank(lines) ==> EndsBlank(next))
  {
    var p := InsertionIndex(lines);
    var next := Splice(lines, p, 0, chunk.newLines);
    assert next[..p] + next[p + |chunk.newLines|..] == lines[..p] + lines[p..];
    assert lines[..p] + lines[p..] == lines;
  }

  /**
   * A chunk whose old lines are found is replaced in place: the lines before the match
   * and after it are unchanged, the block sits between them, and the cursor lands just
   * past the block.
   */
  lemma ReplacementKeepsOutside(find: Finder, lines: seq<string>, c: nat, chunk: UpdateFileChunk, path: string, m: Match)
    requires SoundFinder(find)
    requires Located(find, lines, c, chunk.oldLines, chunk.newLines, chunk.isEndOfFile) == Some(m)
    ensures Replaced(find, lines, c, chunk, path).Success?
    ensures var (next, c') := Replaced(find, lines, c, chunk, path).value;
      && c' == m.at + |m.block|
      && |next| == |lines| - |m.pattern| + |m.block|
      && next[..m.at] == lines[..m.at]
      && next[m.at..c'] == m.block
      && next[c'..] == lines[m.at + |m.pattern|..]
  {
  }

  /**
   * The pattern and block a search settles on: the chunk's own old and new lines, or,
   * after a failed first search of old lines ending in an empty line, the old lines
   * minus exactly that empty line and the new lines minus a final empty line if they
   * have one. A match before the cursor comes only from the search from index 0, which
   * runs only when the cursor is past the start and the search from the cursor failed.
   */
  lemma LocatedMatch(find: Finder, lines: seq<string>, cursor: nat, oldLines: seq<string>, newLines: seq<string>, eof: bool, m: Match)
    requires SoundFinder(find)
    requires Located(find, lines, cursor, oldLines, newLines, eof) == Some(m)
    ensures || (m.pattern == oldLines && m.block == newLines)
            || (&& find(lines, oldLines, cursor, eof).None?
                && oldLines == m.pattern + [""]
                && (if EndsBlank(newLines) then newLines == m.block + [""] else m.block == newLines))
    ensures m.at + |m.pattern| <= |lines|
    ensures || (cursor <= m.at && find(lines, m.pattern, cursor, eof) == Some(m.at))
            || (&& 0 < cursor
                && find(lines, m.pattern, cursor, eof).None?
                && find(lines, m.pattern, 0, eof) == Some(m.at))
  {
    if find(lines, oldLines, cursor, eof).None? && EndsBlank(oldLines) {
      assert oldLines == oldLines[..|oldLines| - 1] + [""];
      if EndsBlank(newLines) {
        assert newLines == newLines[..|newLines| - 1] + [""];
      }
    }
  }

  /**
   * The search fails exactly when the old lines are not found from the cursor, nor
   * (when they end in an empty line) without that line, nor — only when the cursor is
   * past the start — from index 0.
   */
  lemma NotFoundIff(find: Finder, lines: seq<string>, cursor: nat, oldLines: seq<string>, newLines: seq<string>, eof: bool)
    requires SoundFinder(find)
    ensures Located(find, lines, cursor, oldLines, newLines, eof).None? <==>
      && find(lines, oldLines, cursor, eof).None?
      && (EndsBlank(oldLines) ==> find(lines, oldLines[..|oldLines| - 1], cursor, eof).None?)
      && (0 < cursor ==> find(lines, DropTrailingBlank(oldLines), 0, eof).None?)
  {
  }

  /** From the start of the buffer there is no third search: the first two decide. */
  lemma NoRetryFromStartAtZero(find: Finder, lines: seq<string>, oldLines: seq<string>, newLines: seq<string>, eof: bool)
    requires SoundFinder(find)
    ensures Located(find, lines, 0, oldLines, newLines, eof).Some? <==>
      || find(lines, oldLines, 0, eof).Some?
      || (EndsBlank(oldLines) && find(lines, oldLines[..|oldLines| - 1], 0, eof).Some?)
  {
    NotFoundIff(find, lines, 0, oldLines, newLines, eof);
  }

  /**
   * A failed chunk names the file, and either names the anchor that was not found
   * from the cursor, or echoes the chunk's own (non-empty) old lines, which were not
   * found after the anchor.
   */
  lemma ChunkFailure(find: Finder, lines: seq<string>, cursor: nat, chunk: UpdateFileChunk, path: string)
    requires SoundFinder(find)
    requires ChunkApplied(find, lines, cursor, chunk, path).Failure?
    ensures var e := ChunkApplied(find, lines, cursor, chunk, path).error;
      && e.path == path
      && (e.ContextNotFound? ==>
            Anchor(chunk) == Some(e.context) && find(lines, [e.context], cursor, false).None?)
      && (e.LinesNotFound? ==>
            && e.oldLines == chunk.oldLines != []
            && AnchoredCursor(find, lines, cursor, chunk, path).Success?
            && Located(find, lines, AnchoredCursor(find, lines, cursor, chunk, path).value,
                       chunk.oldLines, chunk.newLines, chunk.isEndOfFile).None?)
  {
  }

  /** After a chunk the cursor never points past the end of the buffer. */
  lemma CursorWithinBuffer(find: Finder, lines: seq<string>, cursor: nat, chunk: UpdateFileChunk, path: string)
    requires SoundFinder(find)
    requires ChunkApplied(find, lines, cursor, chunk, path).Success?
    ensures ChunkApplied(find, lines, cursor, chunk, path).value.1 <= |ChunkApplied(find, lines, cursor, chunk, path).value.0|
  {
  }

  /** The chunks of one Update hunk apply in order; the first failure is the result. */
  lemma {:induction false} ChunksInOrder(find: Finder, lines: seq<string>, cursor: nat, chunks: seq<UpdateFileChunk>, path: string)
    requires SoundFinder(find) && chunks != []
    ensures match ChunkApplied(find, lines, cursor, chunks[0], path)
      case Failure(e) => ChunksApplied(find, lines, cursor, chunks, path) == Failure(e)
      case Success((next, c)) => ChunksApplied(find, lines, cursor, chunks, path) == ChunksApplied(find, next, c, chunks[1..], path)
  {
  }

  /** The buffer of the repeated-anchor scenario: two identical functions. */
  function RepeatedFoo(): seq<string> {
    ["def foo():", "    return 1", "", "def foo():", "    return 1"]
  }

  /** A chunk replacing `    return 1` by `newLine` under the anchor `def foo():`. */
  function ReturnChunk(newLine: string): UpdateFileChunk {
    UpdateFileChunk(["    return 1"], [newLine], Some("def foo():"), false)
  }

  /** The first chunk edits the first function and leaves the cursor on the blank line. */
  lemma FirstReturnEdited()
    requires SoundFinder(FirstMatch)
    ensures ChunkApplied(FirstMatch, RepeatedFoo(), 0, ReturnChunk("    return 11"), "repeated.py")
         == Success((["def foo():", "    return 11", "", "def foo():", "    return 1"], 2))
  {
    var lines := RepeatedFoo();
    var chunk := ReturnChunk("    return 11");
    assert lines[0..1] == ["def foo():"];
    assert FirstMatch(lines, ["def foo():"], 0, false) == Some(0);
    assert AnchoredCursor(FirstMatch, lines, 0, chunk, "repeated.py") == Success(1);
    assert lines[1..2] == ["    return 1"];
    assert FirstMatch(lines, ["    return 1"], 1, false) == Some(1);
    assert Located(FirstMatch, lines, 1, chunk.oldLines, chunk.newLines, false) == Some(Match(1, ["    return 1"], ["    return 11"]));
    assert Splice(lines, 1, 1, ["    return 11"]) == ["def foo():", "    return 11", "", "def foo():", "    return 1"];
  }

  /** From that cursor, the second chunk's anchor search skips to the second function. */
  lemma SecondReturnEdited()
    requires SoundFinder(FirstMatch)
    ensures ChunkApplied(FirstMatch, ["def foo():", "    return 11", "", "def foo():", "    return 1"], 2, ReturnChunk("    return 12"), "repeated.py")
         == Success((["def foo():", "    return 11", "", "def foo():", "    return 12"], 5))
  {
    var lines := ["def foo():", "    return 11", "", "def foo():", "    return 1"];
    var chunk := ReturnChunk("    return 12");
    assert lines[3..4] == ["def foo():"];
    assert FirstMatch(lines, ["def foo():"], 3, false) == Some(3);
    assert lines[2..3] != ["def foo():"] by { assert lines[2] == ""; }
    assert FirstMatch(lines, ["def foo():"], 2, false) == Some(3);
    assert AnchoredCursor(FirstMatch, lines, 2, chunk, "repeated.py") == Success(4);
    assert lines[4..5] == ["    return 1"];
    assert FirstMatch(lines, ["    return 1"], 4, false) == Some(4);
    assert Located(FirstMatch, lines, 4, chunk.oldLines, chunk.newLines, false) == Some(Match(4, ["    return 1"], ["    return 12"]));
    assert Splice(lines, 4, 1, ["    return 12"]) == ["def foo():", "    return 11", "", "def foo():", "    return 12"];
  }

  /**
   * Two chunks with the same anchor and the same old lines edit the two occurrences in
   * order: the cursor moved past the first edit, so the second anchor search finds the
   * second function (here with the exact first-occurrence search).
   */
  lemma RepeatedAnchors()
    ensures SoundFinder(FirstMatch)
    ensures ChunksApplied(FirstMatch, RepeatedFoo(), 0, [ReturnChunk("    return 11"), ReturnChunk("    return 12")], "repeated.py")
         == Success(["def foo():", "    return 11", "", "def foo():", "    return 12"])
  {
    FirstMatchSound();
    FirstReturnEdited();
    SecondReturnEdited();
    var chunks := [ReturnChunk("    return 11"), ReturnChunk("    return 12")];
    assert chunks[1..] == [ReturnChunk("    return 12")];
    assert chunks[1..][1..] == [];
  }

  /**
   * As written, a pure insertion ignores where its anchor was found: with the anchor
   * `def foo():` the new line still goes to the end of the buffer.
   */
  lemma AnchoredInsertionAppends()
    ensures SoundFinder(FirstMatch)
    ensures ChunkApplied(FirstMatch, ["def foo():", "    pass", "", "def bar():", "    pass"], 0,
                         UpdateFileChunk([], ["    print(\"foo\")"], Some("def foo():"), false), "target.py")
         == Success((["def foo():", "    pass", "", "def bar():", "    pass", "    print(\"foo\")"], 6))
  {
    FirstMatchSound();
    var lines := ["def foo():", "    pass", "", "def bar():", "    pass"];
    assert lines[0..1] == ["def foo():"];
    assert FirstMatch(lines, ["def foo():"], 0, false) == Some(0);
    assert InsertionIndex(lines) == 5;
    assert Splice(lines, 5, 0, ["    print(\"foo\")"]) == ["def foo():", "    pass", "", "def bar():", "    pass", "    print(\"foo\")"];
  }
}
