/**
 * Properties of the applier: how an Update hunk reads and writes its file's text, what
 * each kind of hunk does to the file tree, how the run over the hunks stops, and the
 * Update hunk moved onto its own path.
 */
module ApplierProperties {
  import opened Results
  import opened Models
  import opened PyText
  import opened ContentSearch
  import opened ChunkEngine
  import opened Applier

  /** No line of `lines` holds a newline: the lines of a text split on newlines. */
  predicate NewlineFree(lines: seq<string>) {
    forall k :: 0 <= k < |lines| ==> '\n' !in lines[k]
  }

  /**
   * The written text ends with a newline, except when the lines are empty or a single
   * empty line: then it is empty.
   */
  lemma {:induction false} WrittenTextEndsWithNewline(lines: seq<string>)
    ensures WriteText(lines) == [] <==> lines == [] || lines == [""]
    ensures WriteText(lines) != [] ==> WriteText(lines)[|WriteText(lines)| - 1] == '\n'
  {
    var t := Terminated(lines);
    if |t| >= 2 {
      JoinLast(t, '\n');
    } else {
      assert t == [""];
    }
  }

  /** Reading back a written text gives the lines again, less a final empty line. */
  lemma ReadBackWritten(lines: seq<string>)
    requires NewlineFree(lines)
    ensures ReadLines(WriteText(lines)) == DropTrailingBlank(lines)
  {
    if EndsBlank(lines) {
      ReadBackTerminated(lines);
    } else {
      TerminatedNewlineFree(lines);
      ReadBackTerminated(lines + [""]);
      assert (lines + [""])[..|lines|] == lines;
    }
  }

  /** Adding the final empty line keeps the lines free of newlines. */
  lemma TerminatedNewlineFree(lines: seq<string>)
    requires NewlineFree(lines)
    ensures NewlineFree(lines + [""])
  {
    assert forall k :: 0 <= k < |lines| ==> (lines + [""])[k] == lines[k];
  }

  /** Lines that already end with an empty line are read back without it. */
  lemma ReadBackTerminated(t: seq<string>)
    requires NewlineFree(t) && EndsBlank(t)
    ensures ReadLines(Join(t, '\n')) == t[..|t| - 1]
  {
    SplitJoin(t, '\n');
  }

  /**
   * An Update hunk whose chunks change nothing rewrites the text as follows: an empty
   * text stays empty, a missing final newline is added, a text ending in two newlines
   * (or only one newline) loses one, and any other text is unchanged.
   */
  lemma RewriteOfUnchangedText(content: string)
    ensures WriteText(ReadLines(content)) ==
      if content == [] then []
      else if content[|content| - 1] != '\n' then content + "\n"
      else if |content| == 1 || content[|content| - 2] == '\n' then content[..|content| - 1]
      else content
  {
    if content == [] {
      assert Split(content, '\n') == [[]];
    } else if content[|content| - 1] != '\n' {
      UnterminatedGainsNewline(content);
    } else {
      TerminatedRewrite(content[..|content| - 1]);
      assert content == content[..|content| - 1] + ['\n'];
    }
  }

  /** A text without a final newline is written back with one. */
  lemma UnterminatedGainsNewline(content: string)
    requires content != [] && content[|content| - 1] != '\n'
    ensures WriteText(ReadLines(content)) == content + "\n"
  {
    var parts := Split(content, '\n');
    SplitLastEmpty(content, '\n');
    assert ReadLines(content) == parts;
    assert Terminated(parts) == parts + [[]];
    JoinSplit(content, '\n');
    JoinLast(parts + [[]], '\n');
    assert (parts + [[]])[..|parts|] == parts;
  }

  /** A text `x + "\n"` is written back as is, unless `x` is empty or ends with a newline: then as `x`. */
  lemma TerminatedRewrite(x: string)
    ensures WriteText(ReadLines(x + "\n")) == if x == [] || x[|x| - 1] == '\n' then x else x + "\n"
  {
    SplitAppendSep(x, '\n');
    var parts := Split(x, '\n');
    assert (parts + [[]])[..|parts|] == parts;
    assert ReadLines(x + "\n") == parts;
    SplitLastEmpty(x, '\n');
    JoinSplit(x, '\n');
    if parts[|parts| - 1] != [] {
      assert Terminated(parts) == parts + [[]];
      JoinLast(parts + [[]], '\n');
    } else {
      assert Terminated(parts) == parts;
    }
  }

  /** Example: a file ending in a blank line loses it, even with no change to its lines. */
  lemma BlankLastLineDropped()
    ensures WriteText(ReadLines("a\n\n")) == "a\n"
  {
    RewriteOfUnchangedText("a\n\n");
  }

  /** The content of an Add hunk, read as an Update hunk reads a file, gives its lines back. */
  lemma AddedTextReadsBack(ts: seq<string>)
    requires NewlineFree(ts)
    ensures ReadLines(PatchParser.AddedText(ts)) == ts
  {
    if ts == [] {
      assert Split([], '\n') == [[]];
    } else {
      SplitAppendSep(Join(ts, '\n'), '\n');
      SplitJoin(ts, '\n');
      assert (ts + [[]])[..|ts|] == ts;
    }
  }

  /** The entries of `files` and `next` agree outside `touched`. */
  ghost predicate SameElsewhere(files: map<string, string>, next: map<string, string>, touched: set<string>) {
    forall q :: q !in touched ==> (q in files <==> q in next) && (q in files ==> files[q] == next[q])
  }

  /** An Add hunk writes or overwrites its file with its content and records the path as added. */
  lemma AddEffect(find: Finder, files: map<string, string>, path: string, content: string)
    requires SoundFinder(find)
    ensures HunkApplied(find, files, AddFile(path, content)).Success?
    ensures var (next, record) := HunkApplied(find, files, AddFile(path, content)).value;
      && record == AddedPath(path)
      && path in next && next[path] == content
      && SameElsewhere(files, next, {path})
  {
  }

  /**
   * A Delete hunk fails on a missing file, naming it; otherwise it removes the file,
   * records the path as deleted, and leaves every other file alone.
   */
  lemma DeleteEffect(find: Finder, files: map<string, string>, path: string)
    requires SoundFinder(find)
    ensures HunkApplied(find, files, DeleteFile(path)).Failure? <==> path !in files
    ensures path !in files ==> HunkApplied(find, files, DeleteFile(path)).error == DeleteFailed(path)
    ensures path in files ==>
      var (next, record) := HunkApplied(find, files, DeleteFile(path)).value;
      && record == DeletedPath(path)
      && path !in next
      && SameElsewhere(files, next, {path})
  {
  }

  /**
   * An Update hunk fails on a missing file, naming it, and with the chunk error when a
   * chunk fails; otherwise the new text is written to the file, and the path is
   * recorded as modified, while no other file changes.
   */
  lemma UpdateInPlaceEffect(find: Finder, files: map<string, string>, path: string, chunks: seq<UpdateFileChunk>)
    requires SoundFinder(find)
    ensures var r := HunkApplied(find, files, UpdateFile(path, None, chunks));
      && (path !in files ==> r == Failure(UpdateSourceMissing(path)))
      && (path in files && UpdatedText(find, files[path], chunks, path).Failure? ==>
            r == Failure(ChunkFailed(UpdatedText(find, files[path], chunks, path).error)))
      && (path in files && UpdatedText(find, files[path], chunks, path).Success? ==>
            && r.Success?
            && r.value.1 == ModifiedPath(path)
            && path in r.value.0 && r.value.0[path] == UpdatedText(find, files[path], chunks, path).value
            && SameElsewhere(files, r.value.0, {path}))
  {
  }

  /**
   * An Update hunk with a destination writes the new text there and records the
   * destination as modified; the source is then removed, even when it is the
   * destination (which then holds nothing), and no other file changes. It fails as an
   * in-place update does.
   */
  lemma UpdateMoveEffect(find: Finder, files: map<string, string>, path: string, dest: string, chunks: seq<UpdateFileChunk>)
    requires SoundFinder(find)
    ensures var r := HunkApplied(find, files, UpdateFile(path, Some(dest), chunks));
      && (path !in files ==> r == Failure(UpdateSourceMissing(path)))
      && (path in files && UpdatedText(find, files[path], chunks, path).Failure? ==>
            r == Failure(ChunkFailed(UpdatedText(find, files[path], chunks, path).error)))
      && (path in files && UpdatedText(find, files[path], chunks, path).Success? ==>
            && r.Success?
            && r.value.1 == ModifiedPath(dest)
            && (dest != path ==> dest in r.value.0 && r.value.0[dest] == UpdatedText(find, files[path], chunks, path).value)
            && path !in r.value.0
            && SameElsewhere(files, r.value.0, {path, dest}))
  {
  }

  /** The text an Update hunk writes ends with a newline, unless it is empty. */
  lemma UpdatedTextEndsWithNewline(find: Finder, content: string, chunks: seq<UpdateFileChunk>, path: string)
    requires SoundFinder(find)
    requires UpdatedText(find, content, chunks, path).Success?
    ensures var text := UpdatedText(find, content, chunks, path).value;
      text != [] ==> text[|text| - 1] == '\n'
  {
    WrittenTextEndsWithNewline(ChunksApplied(find, ReadLines(content), 0, chunks, path).value);
  }

  /**
   * The hunks run in order and stop at the first failure: running `first + rest` is
   * running `first`, then — only if that succeeded — `rest` on the tree it left. A
   * failure keeps the changes of the hunks before it.
   */
  lemma {:induction false} HunksInOrder(find: Finder, files: map<string, string>, first: seq<Hunk>, rest: seq<Hunk>, affected: Affected)
    requires SoundFinder(find)
    ensures HunksApplied(find, files, first + rest, affected) ==
      match HunksApplied(find, files, first, affected)
      case (stopped, Failure(e)) => (stopped, Failure(e))
      case (next, Success(a)) => HunksApplied(find, next, rest, a)
    decreases |first|
  {
    if first == [] {
      assert first + rest == rest;
    } else {
      assert (first + rest)[0] == first[0];
      assert (first + rest)[1..] == first[1..] + rest;
      match HunkApplied(find, files, first[0])
      case Failure(e) =>
      case Success((next, record)) =>
        HunksInOrder(find, next, first[1..], rest, Recorded(affected, record));
    }
  }

  /** A successful run records exactly one path per hunk. */
  lemma {:induction false} OnePathPerHunk(find: Finder, files: map<string, string>, hunks: seq<Hunk>, affected: Affected)
    requires SoundFinder(find)
    requires HunksApplied(find, files, hunks, affected).1.Success?
    ensures var a := HunksApplied(find, files, hunks, affected).1.value;
      |a.added| + |a.modified| + |a.deleted| == |affected.added| + |affected.modified| + |affected.deleted| + |hunks|
    decreases |hunks|
  {
    if hunks != [] {
      var (next, record) := HunkApplied(find, files, hunks[0]).value;
      OnePathPerHunk(find, next, hunks[1..], Recorded(affected, record));
    }
  }

  /** `apply` never reaches its own "no hunks" check: a parsed patch always has a hunk. */
  lemma NoHunksCheckUnreachable(find: Finder, files: map<string, string>, text: string)
    requires SoundFinder(find)
    ensures Applied(find, files, text).1 != Failure(NoHunks)
  {
    match PatchParser.Parsed(text)
    case Failure(e) =>
    case Success(patch) =>
      assert patch.hunks != [];
      NoHunksFromRun(find, files, patch.hunks, Affected([], [], []));
  }

  /** Running hunks never fails with the "no hunks" error. */
  lemma {:induction false} NoHunksFromRun(find: Finder, files: map<string, string>, hunks: seq<Hunk>, affected: Affected)
    requires SoundFinder(find)
    ensures HunksApplied(find, files, hunks, affected).1 != Failure(NoHunks)
    decreases |hunks|
  {
    if hunks != [] && HunkApplied(find, files, hunks[0]).Success? {
      var (next, record) := HunkApplied(find, files, hunks[0]).value;
      NoHunksFromRun(find, next, hunks[1..], Recorded(affected, record));
    }
  }

  /** A successful `apply` records one path per hunk of the patch, so at least one. */
  lemma AppliedRecordsEachHunk(find: Finder, files: map<string, string>, text: string)
    requires SoundFinder(find)
    requires Applied(find, files, text).1.Success?
    ensures PatchParser.Parsed(text).Success?
    ensures var a := Applied(find, files, text).1.value;
      |a.added| + |a.modified| + |a.deleted| == |PatchParser.Parsed(text).value.hunks| > 0
  {
    var hunks := PatchParser.Parsed(text).value.hunks;
    OnePathPerHunk(find, files, hunks, Affected([], [], []));
  }

  /**
   * As applier.py writes it, an Update hunk whose `move_to` is its own path writes the
   * new text and then removes the file it just wrote: the hunk succeeds, records the
   * path as modified, and the file is lost.
   */
  lemma MoveOntoItselfLosesFile(find: Finder, files: map<string, string>, path: string, chunks: seq<UpdateFileChunk>)
    requires SoundFinder(find)
    requires path in files && UpdatedText(find, files[path], chunks, path).Success?
    ensures HunkApplied(find, files, UpdateFile(path, Some(path), chunks)).Success?
    ensures var (next, record) := HunkApplied(find, files, UpdateFile(path, Some(path), chunks)).value;
      path !in next && record == ModifiedPath(path)
  {
  }

  /**
   * With the removal skipped when the destination is the source, the same hunk keeps
   * the file, holding the new text, and no other file changes; every other hunk has
   * the effect the source gives it.
   */
  lemma CorrectedMoveKeepsFile(find: Finder, files: map<string, string>, hunk: Hunk)
    requires SoundFinder(find)
    ensures !(hunk.UpdateFile? && hunk.moveTo == Some(hunk.path)) ==>
      HunkAppliedCorrected(find, files, hunk) == HunkApplied(find, files, hunk)
    ensures hunk.UpdateFile? && hunk.moveTo == Some(hunk.path) ==>
      var r := HunkAppliedCorrected(find, files, hunk);
      && (r.Failure? <==> HunkApplied(find, files, hunk).Failure?)
      && (r.Failure? ==> r == HunkApplied(find, files, hunk))
      && (r.Success? ==>
            && r.value.1 == ModifiedPath(hunk.path)
            && hunk.path in r.value.0
            && r.value.0[hunk.path] == UpdatedText(find, files[hunk.path], hunk.chunks, hunk.path).value
            && SameElsewhere(files, r.value.0, {hunk.path}))
  {
  }
}
