/**
 * `PatchApplier.apply` and `PatchApplier._apply_hunk` (applier.py): the hunks of a
 * parsed patch change a file tree one after the other, and the paths they touch are
 * recorded in `AffectedPaths`.
 *
 * The file tree is a map from paths to texts. `HunkApplied` specifies one hunk and
 * `HunksApplied` the whole run; the methods `ApplyHunk` and `Apply` change a `FileTree`
 * and an `AffectedPaths` object in place and are proved against them.
 */
module Applier {
  import opened Results
  import opened Models
  import opened PyText
  import PatchParser
  import opened ContentSearch
  import opened ChunkEngine

  /** Why `apply` stops. */
  datatype ApplyError =
    | ParseFailed(parseError: ParseError)
    | NoHunks
    | ChunkFailed(chunkError: ChunkError)
    | DeleteFailed(path: string)
    | UpdateSourceMissing(path: string)

  /** The entry a hunk adds to `AffectedPaths`: which of its lists, and which path. */
  datatype Record = AddedPath(path: string) | ModifiedPath(path: string) | DeletedPath(path: string)

  /** The value of an `AffectedPaths` object. */
  datatype Affected = Affected(added: seq<string>, modified: seq<string>, deleted: seq<string>)

  /** `affected` with `record` appended to its list. */
  function Recorded(affected: Affected, record: Record): (r: Affected)
    ensures |r.added| + |r.modified| + |r.deleted| == |affected.added| + |affected.modified| + |affected.deleted| + 1
  {
    match record
    case AddedPath(p) => affected.(added := affected.added + [p])
    case ModifiedPath(p) => affected.(modified := affected.modified + [p])
    case DeletedPath(p) => affected.(deleted := affected.deleted + [p])
  }

  /** The lines of a file being updated: split on newlines, without the piece after a final newline. */
  function ReadLines(content: string): seq<string>
  {
    var parts := Split(content, '\n');
    if parts[|parts| - 1] == "" then parts[..|parts| - 1] else parts
  }

  /** The lines after the chunks, with an empty last line added unless there is one already. */
  function Terminated(lines: seq<string>): seq<string>
  {
    if lines == [] || lines[|lines| - 1] != "" then lines + [""] else lines
  }

  /** The text written back: the terminated lines joined with newlines. */
  function WriteText(lines: seq<string>): string
  {
    Join(Terminated(lines), '\n')
  }

  /** The new text of a file whose content is `content`, once `chunks` are applied to its lines. */
  function UpdatedText(find: Finder, content: string, chunks: seq<UpdateFileChunk>, path: string)
    : Result<string, ChunkError>
    requires SoundFinder(find)
  {
    match ChunksApplied(find, ReadLines(content), 0, chunks, path)
    case Failure(e) => Failure(e)
    case Success(lines) => Success(WriteText(lines))
  }

  /**
   * The tree once `text` was written to `dest` and the original `path` removed. The
   * removal comes second, so a `dest` equal to `path` loses the text just written.
   */
  function Moved(files: map<string, string>, path: string, dest: string, text: string): map<string, string>
  {
    files[dest := text] - {path}
  }

  /**
   * `_apply_hunk`: the new tree and the record, or the error. An Add hunk writes (or
   * overwrites) its file; a Delete hunk removes an existing file; an Update hunk rewrites
   * an existing file, at its `move_to` destination when it has one.
   */
  function HunkApplied(find: Finder, files: map<string, string>, hunk: Hunk)
    : Result<(map<string, string>, Record), ApplyError>
    requires SoundFinder(find)
  {
    match hunk
    case AddFile(path, content) => Success((files[path := content], AddedPath(path)))
    case DeleteFile(path) =>
      if path !in files then Failure(DeleteFailed(path))
      else Success((files - {path}, DeletedPath(path)))
    case UpdateFile(path, moveTo, chunks) =>
      if path !in files then Failure(UpdateSourceMissing(path))
      else
        match UpdatedText(find, files[path], chunks, path)
        case Failure(e) => Failure(ChunkFailed(e))
        case Success(text) =>
          match moveTo
          case None => Success((files[path := text], ModifiedPath(path)))
          case Some(dest) => Success((Moved(files, path, dest, text), ModifiedPath(dest)))
  }

  /**
   * `_apply_hunk` with the removal of the original skipped when the destination is the
   * original itself: that one case keeps the file, holding the new text; every other
   * hunk has the effect of `HunkApplied`.
   */
  function HunkAppliedCorrected(find: Finder, files: map<string, string>, hunk: Hunk)
    : Result<(map<string, string>, Record), ApplyError>
    requires SoundFinder(find)
  {
    if hunk.UpdateFile? && hunk.moveTo == Some(hunk.path) && hunk.path in files
      && UpdatedText(find, files[hunk.path], hunk.chunks, hunk.path).Success?
    then
      var text := UpdatedText(find, files[hunk.path], hunk.chunks, hunk.path).value;
      Success((files[hunk.path := text], ModifiedPath(hunk.path)))
    else HunkApplied(find, files, hunk)
  }

  /**
   * The loop of `apply`: the tree after the hunks, in order, and the affected paths, or
   * the first error together with the tree as the earlier hunks left it.
   */
  function HunksApplied(find: Finder, files: map<string, string>, hunks: seq<Hunk>, affected: Affected)
    : (map<string, string>, Result<Affected, ApplyError>)
    requires SoundFinder(find)
    decreases |hunks|
  {
    if hunks == [] then (files, Success(affected))
    else
      match HunkApplied(find, files, hunks[0])
      case Failure(e) => (files, Failure(e))
      case Success((next, record)) => HunksApplied(find, next, hunks[1..], Recorded(affected, record))
  }

  /** `apply`: parse the text, then run its hunks on the tree from no affected paths. */
  function Applied(find: Finder, files: map<string, string>, text: string)
    : (map<string, string>, Result<Affected, ApplyError>)
    requires SoundFinder(find)
  {
    match PatchParser.Parsed(text)
    case Failure(e) => (files, Failure(ParseFailed(e)))
    case Success(patch) =>
      if patch.hunks == [] then (files, Failure(NoHunks))
      else HunksApplied(find, files, patch.hunks, Affected([], [], []))
  }

  /** The directory the patch is applied in: each path names the text stored under it. */
  class FileTree {
    var files: map<string, string>

    constructor (files: map<string, string>)
      ensures this.files == files
    {
      this.files := files;
    }
  }

  /** The paths a run has added, modified and deleted, in the order it touched them. */
  class AffectedPaths {
    var added: seq<string>
    var modified: seq<string>
    var deleted: seq<string>

    constructor ()
      ensures Value() == Affected([], [], [])
    {
      added, modified, deleted := [], [], [];
    }

    function Value(): Affected
      reads this
    {
      Affected(added, modified, deleted)
    }
  }

  /** `_apply_hunk`: change the tree and record the path, or report the error and change nothing. */
  method ApplyHunk(find: Finder, tree: FileTree, affected: AffectedPaths, hunk: Hunk) returns (error: Option<ApplyError>)
    requires SoundFinder(find)
    modifies tree, affected
    ensures match HunkApplied(find, old(tree.files), hunk)
      case Failure(e) => error == Some(e) && tree.files == old(tree.files) && affected.Value() == old(affected.Value())
      case Success((next, record)) => error == None && tree.files == next && affected.Value() == Recorded(old(affected.Value()), record)
  {
    match hunk
    case AddFile(path, content) =>
      tree.files := tree.files[path := content];
      affected.added := affected.added + [path];
      return None;
    case DeleteFile(path) =>
      if path !in tree.files {
        return Some(DeleteFailed(path));
      }
      tree.files := tree.files - {path};
      affected.deleted := affected.deleted + [path];
      return None;
    case UpdateFile(path, moveTo, chunks) =>
      if path !in tree.files {
        return Some(UpdateSourceMissing(path));
      }
      var newContent := UpdateText(find, tree.files[path], chunks, path);
      if newContent.Failure? {
        return Some(ChunkFailed(newContent.error));
      }
      if moveTo.Some? {
        tree.files := tree.files[moveTo.value := newContent.value];
        tree.files := tree.files - {path};
        affected.modified := affected.modified + [moveTo.value];
      } else {
        tree.files := tree.files[path := newContent.value];
        affected.modified := affected.modified + [path];
      }
      return None;
  }

  /** The Update branch of `_apply_hunk` up to the write: split the text, apply the chunks, rejoin. */
  method UpdateText(find: Finder, content: string, chunks: seq<UpdateFileChunk>, path: string)
    returns (r: Result<string, ChunkError>)
    requires SoundFinder(find)
    ensures r == UpdatedText(find, content, chunks, path)
  {
    var originalLines := SplitContent(content);
    var newLines := ApplyChunks(find, originalLines, chunks, path);
    if newLines.Failure? {
      return Failure(newLines.error);
    }
    var text := JoinLines(newLines.value);
    return Success(text);
  }

  /** The read half of that branch: split on newlines and drop the empty piece after a final newline. */
  method SplitContent(content: string) returns (lines: seq<string>)
    ensures lines == ReadLines(content)
  {
    lines := Split(content, '\n');
    if lines != [] && lines[|lines| - 1] == "" {
      lines := lines[..|lines| - 1];
    }
  }

  /** The write half: append an empty line unless there is one, and join with newlines. */
  method JoinLines(newLines: seq<string>) returns (text: string)
    ensures text == WriteText(newLines)
  {
    var lines := newLines;
    if lines == [] || lines[|lines| - 1] != "" {
      lines := lines + [""];
    }
    text := Join(lines, '\n');
  }

  /**
   * `apply`: parse the text and apply its hunks in order to the tree, stopping at the
   * first failure; the changes of the hunks before it stay.
   */
  method Apply(find: Finder, tree: FileTree, text: string) returns (r: Result<AffectedPaths, ApplyError>)
    requires SoundFinder(find)
    modifies tree
    ensures tree.files == Applied(find, old(tree.files), text).0
    ensures r.Failure? <==> Applied(find, old(tree.files), text).1.Failure?
    ensures r.Failure? ==> r.error == Applied(find, old(tree.files), text).1.error
    ensures r.Success? ==> fresh(r.value) && r.value.Value() == Applied(find, old(tree.files), text).1.value
  {
    var patch := PatchParser.Parse(text);
    if patch.Failure? {
      return Failure(ParseFailed(patch.error));
    }
    var hunks := patch.value.hunks;
    if hunks == [] {
      return Failure(NoHunks);
    }
    var affected := new AffectedPaths();
    for k := 0 to |hunks|
      invariant fresh(affected)
      invariant HunksApplied(find, old(tree.files), hunks, Affected([], [], []))
             == HunksApplied(find, tree.files, hunks[k..], affected.Value())
    {
      assert hunks[k..][1..] == hunks[k + 1..];
      var error := ApplyHunk(find, tree, affected, hunks[k]);
      if error.Some? {
        return Failure(error.value);
      }
    }
    assert hunks[|hunks|..] == [];
    return Success(affected);
  }
}
