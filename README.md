# apply-patch-py, modelled in Dafny

apply-patch-py reads a patch written by a language model in the "`*** Begin Patch`"
dialect and applies it to a directory. `PatchParser.parse` turns the text into a list of
hunks: `AddFile(path, content)`, `DeleteFile(path)` and `UpdateFile(path, move_to,
chunks)`. Each chunk holds old lines, new lines, an optional anchor line (the change
context after `@@`) and an end-of-file flag. On the way, the parser repairs the usual
mistakes of a model:

- a here-document wrapper around the patch;
- a trailing `+*** End Patch` instead of the end marker;
- `+` or `++` in front of hunk headers and `@@` markers;
- a doubled `+` in content lines;
- a unified-diff range header (`@@ -21,6 +21,7 @@`) where an anchor belongs.

`PatchApplier.apply` then runs the hunks in order and stops at the first failure. For
an Update hunk, `_apply_chunks` edits the file's lines with a cursor that marks where
the next search starts. For each chunk it searches for the anchor, then for the old
lines (with two retries, the last of them from the start of the file), replaces the
match by the new lines, and puts the cursor just past them. The cursor moves forward
except when that last retry finds the lines before it.

The project is organised as follows:

- `models.dfy`: the patch datatypes and the parser's errors.
- `pytext.dfy`: the Python string operations the code relies on (`strip`,
  `splitlines`, `split`, `join`).
- `parser.dfy`: the parser. Specification functions are paired with methods that follow
  the loops of parser.py.
- `parser_props.dfy`: properties of the parser.
- `search.dfy`: the contract of `ContentSearcher.find_sequence`, and one exact search
  that meets it.
- `chunks.dfy`: the chunk engine.
- `chunk_props.dfy`: properties of the chunk engine.
- `applier.dfy`: hunk dispatch and `apply`, over a file tree held as a map from paths to
  texts, with `FileTree` and `AffectedPaths` objects changed in place.
- `applier_props.dfy`: properties of the applier.

Error line numbers work like this. The specification functions count an error's line
from the first line they are given, and `Shifted` moves it to where those lines sit in
the patch. The methods compute the patch line directly, as parser.py does, and are
proved equal to the shifted specification.

## Model

| member | source | states |
|---|---|---|
| PatchParser.LeadingPluses | src/apply_patch_py/parser.py:19-25 | the count of leading `+` never exceeds the cap plus one, nor the length of the text |
| PatchParser.LeadingPlusesSpec | src/apply_patch_py/parser.py:19-25 | every counted character is `+`; when the cap was not passed, the next character is not `+` or the text ended |
| PatchParser.CountLeadingPluses | src/apply_patch_py/parser.py:19-25 | the loop returns a count within the cap plus one, counts only `+`, stops at the first other character below the cap, and equals `LeadingPluses` |
| PatchParser.LeadingPlusesUnique | src/apply_patch_py/parser.py:19-25 | any count meeting those three conditions is the value of `LeadingPluses`, so the specification has a single answer |
| PatchParser.PlusCountByPrefix | src/apply_patch_py/parser.py:19-25 | with the default cap of 2, the count is 3, 2, 1 or 0 for a `+++`, `++`, `+` or other prefix, so it never exceeds 3 |
| PatchParser.StripPrefixedMarker | src/apply_patch_py/parser.py:27-36 | the stripped marker is never longer than the line |
| PatchParser.StripPrefixedMarkerSpec | src/apply_patch_py/parser.py:27-36 | the trimmed line is kept without a `+` or with three or more; one or two `+` are removed together with the whitespace after them |
| PatchParser.MaybeStripPlusesSpec | src/apply_patch_py/parser.py:70-85 | the header is the trimmed line or a hunk header; the `+`-stripped form is kept exactly when it is a hunk header |
| PatchParser.StripHeredoc | src/apply_patch_py/parser.py:196-208 | with at least 4 lines, a first trimmed line `<<EOF`, `<<'EOF'` or `<<"EOF"` and a last trimmed line ending in `EOF`, exactly the first and last lines are dropped; otherwise the lines are unchanged |
| PatchParser.TrimTrailingBlank | src/apply_patch_py/parser.py:175-176 | the result is a prefix of the lines, every dropped line is blank, and the last kept line is not blank |
| PatchParser.CoercedEmpty | src/apply_patch_py/parser.py:172-179 | nothing is left exactly when every line is blank |
| PatchParser.CoercedKeeps | src/apply_patch_py/parser.py:172-194 | the kept lines are the input's, except that the last may become `*** End Patch`; the last kept line is never blank |
| PatchParser.CoercedDrops | src/apply_patch_py/parser.py:172-194 | every dropped line is blank or a lone `+` |
| PatchParser.CoerceLlmPatch | src/apply_patch_py/parser.py:157-194 | the popping loop and the two end-marker fixes compute `Coerced` |
| PatchParser.RangeStep | src/apply_patch_py/parser.py:359 | each transition of the range-header automaton stays within its 13 states |
| PatchParser.DropDoubledPlus | src/apply_patch_py/parser.py:396-399 | the text is unchanged, or it started with `+` and lost exactly that character |
| PatchParser.MarkerContext | src/apply_patch_py/parser.py:351-369 | a bare `@@` gives no anchor; a marker is a bare `@@` or starts with `@@ `; an anchor is the trimmed text after `@@ ` and is never a range header |
| PatchParser.ScanBody | src/apply_patch_py/parser.py:376-403 | the body scan stops between its start and the end of the lines; what it collects and where it stops is stated by `ScanRendered`, `ScanToEof`, `ScanToStop` and `BlankBodyLine` |
| PatchParser.ParsedChunk | src/apply_patch_py/parser.py:326-410 | a chunk consumes between 1 and all of the lines; without permission to omit it, a parsed chunk has an `@@` marker; it fails only with "empty chunk" or "missing marker" |
| ParserProperties.ChunkNeedsBody | src/apply_patch_py/parser.py:405-408 | a parsed chunk consumes more lines than its marker; it fails with the empty-chunk error, on the line after its first, exactly when the body scan stops at once |
| ParserProperties.MarkerOnlyChunk | src/apply_patch_py/parser.py:405-408 | a chunk that is an `@@` line alone, or one followed by a line that is not a body line, is the empty-chunk error on line 1 |
| PatchParser.ParseUpdateChunk | src/apply_patch_py/parser.py:326-410 | the method computes `ParsedChunk`, with its error placed at the patch line the parser reports |
| PatchParser.ScanChunkBody | src/apply_patch_py/parser.py:371-403 | the body loop computes `ScanBody` from the marker on |
| PatchParser.AddBody | src/apply_patch_py/parser.py:242-257 | the Add body scan stops between its start and the end of the lines; what it collects and where it stops is stated by `AddBodyRendered` and `AddBodyToTerminator` |
| ParserProperties.AddBodyRendered | src/apply_patch_py/parser.py:242-257 | when the lines after an Add header are `+t` lines (no `t` starting with `+`, none ending the body), the scan collects exactly the texts `t`, in order, and consumes all the lines |
| ParserProperties.AddBodyPrefix | src/apply_patch_py/parser.py:242-257 | `+t` lines followed by further lines: the scan collects the texts `t` in order and goes on at the first line after them |
| ParserProperties.AddBodyToTerminator | src/apply_patch_py/parser.py:243-257 | `+t` lines followed by a line that ends the body (a header, an end marker) or does not start with `+`: the scan collects the texts and stops at that line without consuming it |
| ParserProperties.AddHunkToTerminator | src/apply_patch_py/parser.py:237-260 | an Add hunk followed by more of the patch (another hunk, say) consumes its header and its `+` lines only, with the texts as content |
| ParserProperties.AddBodyStep | src/apply_patch_py/parser.py:250-255 | a `+t` line that does not end the body contributes `t` and the scan goes on |
| ParserProperties.AddHunkRendered | src/apply_patch_py/parser.py:237-260 | an Add hunk written as `+t` lines takes all of them and has as content the texts joined by newlines with a final newline, or `""` for no lines |
| PatchParser.ShiftedError | src/apply_patch_py/parser.py:310-311 | moving an error's line keeps its kind |
| PatchParser.ShiftedTwice | src/apply_patch_py/parser.py:133-134 | moving a line by `a`, then by `b`, moves it by `a + b`, as the nested line offsets of parser.py add up |
| PatchParser.ParsedStep | src/apply_patch_py/parser.py:133-137 | a loop goes on exactly when the item parsed, after the item's lines and with the item appended; a failure finishes it with that error |
| PatchParser.ParsedStepShift | src/apply_patch_py/parser.py:300-307 | moving the error of a parsed item changes only the error the loop finishes with |
| PatchParser.ChunkStep | src/apply_patch_py/parser.py:280-307 | one pass of the chunk loop advances and never loses chunks; it fails only with a hunk error |
| PatchParser.UpdateChunks | src/apply_patch_py/parser.py:280-307 | the chunk loop stops within the lines, keeps the chunks already parsed, and fails only with a hunk error |
| PatchParser.ParsedHunk | src/apply_patch_py/parser.py:233-323 | a hunk consumes between 1 and all of the lines; an Update hunk has at least one chunk; failures are hunk errors |
| PatchParser.AddHunk | src/apply_patch_py/parser.py:237-260 | an Add header yields an Add hunk consuming between 1 and all of the lines |
| PatchParser.UpdateHunk | src/apply_patch_py/parser.py:266-317 | an Update header yields an Update hunk with at least one chunk, or a hunk error |
| PatchParser.ParseOneHunk | src/apply_patch_py/parser.py:233-323 | the method computes `ParsedHunk`, with errors at patch lines |
| PatchParser.CollectAddedLines | src/apply_patch_py/parser.py:239-257 | the loop over the `+` lines computes `AddBody` |
| PatchParser.CollectChunks | src/apply_patch_py/parser.py:278-307 | the chunk loop computes `UpdateChunks`, with errors at patch lines |
| PatchParser.ChunkLoopBody | src/apply_patch_py/parser.py:281-307 | one pass of the chunk loop computes `ChunkStep` |
| PatchParser.NextChunk | src/apply_patch_py/parser.py:300-307 | parsing one chunk and appending it is the step `ParsedStep` of `ParsedChunk`, first chunk allowed to omit its marker |
| PatchParser.HunkStep | src/apply_patch_py/parser.py:125-137 | one pass of the hunk loop advances and never loses hunks; it fails only with a hunk error |
| PatchParser.CollectedHunks | src/apply_patch_py/parser.py:123-137 | the hunk loop stops within the content, keeps the hunks already parsed, and fails only with a hunk error |
| PatchParser.TrailingError | src/apply_patch_py/parser.py:144-153 | after the hunks, only an invalid-hunk-header error can arise |
| PatchParser.ContentStart | src/apply_patch_py/parser.py:112-116 | the content starts within the lines |
| PatchParser.ContentEnd | src/apply_patch_py/parser.py:113-119 | the content ends at or after its start and within the lines |
| PatchParser.ParsedContent | src/apply_patch_py/parser.py:121-155 | a parsed patch has at least one hunk; failure is "no files were modified" or a hunk error |
| PatchParser.ParsedDocument | src/apply_patch_py/parser.py:111-155 | the same, once the optional markers are removed |
| PatchParser.Parsed | src/apply_patch_py/parser.py:99-155 | a successfully parsed patch has at least one hunk |
| PatchParser.Parse | src/apply_patch_py/parser.py:99-110 | the method computes `Parsed` |
| PatchParser.ParseDocument | src/apply_patch_py/parser.py:111-121 | the marker checks compute `ParsedDocument` |
| PatchParser.ParseContent | src/apply_patch_py/parser.py:123-155 | the hunk loop and the check after it compute `ParsedContent`, with errors at patch lines |
| PatchParser.CollectHunks | src/apply_patch_py/parser.py:123-137 | the hunk loop computes `CollectedHunks` |
| PatchParser.HunkLoopBody | src/apply_patch_py/parser.py:126-137 | one pass of the hunk loop computes `HunkStep` |
| PatchParser.NextHunk | src/apply_patch_py/parser.py:133-137 | parsing one hunk at content index `idx` reports its errors from line `idx + 1` on |
| PatchParser.CheckTrailing | src/apply_patch_py/parser.py:144-153 | the trailing loop computes `TrailingError` |
| ParserProperties.MarkersAreTrimmed | src/apply_patch_py/parser.py:8-9 | the begin and end markers are trimmed, differ, and the end marker is recognised as one |
| ParserProperties.BeginMarkerContent | src/apply_patch_py/parser.py:112-121 | a leading `*** Begin Patch` shifts the content by one line and changes nothing else |
| ParserProperties.BeginMarkerOptional | src/apply_patch_py/parser.py:111-121 | without `*** Begin Patch` the same patch is parsed; errors are one line earlier |
| ParserProperties.EndMarkerOptional | src/apply_patch_py/parser.py:118-119 | without a final `*** End Patch` the same result is obtained, errors included |
| ParserProperties.BlankTextIsEmptyPatch | src/apply_patch_py/parser.py:101-105 | whitespace-only text is an empty patch |
| ParserProperties.EmptyPatchIff | src/apply_patch_py/parser.py:101-109 | "Empty patch" is reported exactly when every line of the trimmed, unwrapped text is blank |
| ParserProperties.NoHunksInMarkers | src/apply_patch_py/parser.py:125-131 | content of blank lines and end markers yields no hunk |
| ParserProperties.OnlyMarkersModifyNothing | src/apply_patch_py/parser.py:139-142 | a document of markers and blank lines fails with "No files were modified." |
| ParserProperties.CoercedEndMarker | src/apply_patch_py/parser.py:172-194 | after the trailing blank lines go, a last `+*** End Patch`, or one followed by a lone `+`, ends the lines as exactly `*** End Patch` with the `+` dropped; otherwise the lines stay |
| ParserProperties.PlusContentStays | tests/test_parsing_fixes.py:199-211 | a `+` line whose text is not a header or the end marker (such as `+*** this is not a header`) keeps its `+` as a header candidate and does not end an Add body |
| ParserProperties.LaterChunkNeedsMarker | src/apply_patch_py/parser.py:364-368 | after the first chunk, a chunk without `@@` fails with a missing-marker error at its line |
| ParserProperties.FirstChunkMayOmitMarker | src/apply_patch_py/parser.py:364-369 | the first chunk may start with its body and then has no anchor |
| ParserProperties.BodyLineRoundTrip | src/apply_patch_py/parser.py:382-399 | a written context, removed or added line reads back as itself (unless it is the end-of-file marker or starts with a second `+`) |
| ParserProperties.DoubledPlusIsAdded | src/apply_patch_py/parser.py:396-399 | a line `++t` reads as the added line `t` |
| ParserProperties.ScanRendered | src/apply_patch_py/parser.py:376-403 | scanning written body lines collects exactly their old side (context and removed) and new side (context and added) |
| ParserProperties.ScanRenderedPrefix | src/apply_patch_py/parser.py:376-403 | written body lines followed by further lines: the scan collects their two sides and goes on at the first line after them |
| ParserProperties.ScanToEof | src/apply_patch_py/parser.py:377-380 | a written body ended by `*** End of File`: the two sides are collected, the marker is consumed and the chunk is marked end-of-file |
| ParserProperties.ScanToStop | src/apply_patch_py/parser.py:400-401 | a written body ended by a line of no body shape: the two sides are collected and the scan stops at that line without consuming it, not end-of-file |
| ParserProperties.BlankBodyLine | src/apply_patch_py/parser.py:382-386 | a raw empty line is an empty context line: it adds `""` to both sides and the scan goes on |
| ParserProperties.PlusBeforeMarkerDropped | src/apply_patch_py/parser.py:345-349 | a `+` or `++` before `@@` is dropped |
| ParserProperties.BareMarkerHasNoAnchor | src/apply_patch_py/parser.py:351-352 | a bare `@@` carries no anchor |
| ParserProperties.RangeHeaderHasNoAnchor | src/apply_patch_py/parser.py:353-360 | a numeric range header after `@@ ` carries no anchor |
| ParserProperties.AnchorAfterMarker | src/apply_patch_py/parser.py:353-362 | any other non-blank text after `@@ ` is the anchor, trimmed |
| ParserProperties.RangeHeaderExamples | src/apply_patch_py/parser.py:355-359 | `-21,6 +21,7 @@` and `-1 +1 @@` are range headers; a code line and a header without `@@` are not |
| PyText.StripSpec | src/apply_patch_py/parser.py:29 | the stripped text is empty exactly for whitespace-only text, and otherwise begins and ends with non-whitespace |
| PyText.SplitLines | src/apply_patch_py/parser.py:101 | no line holds a line break, and there are no lines exactly for empty text |
| PyText.Split | src/apply_patch_py/applier.py:58 | a split has at least one piece, and no piece holds the separator |
| PyText.JoinSplit | src/apply_patch_py/applier.py:58-66 | joining the pieces of a split restores the text |
| PyText.SplitJoin | src/apply_patch_py/applier.py:58-66 | splitting a join of separator-free pieces gives the pieces back |
| PyText.SplitLastEmpty | src/apply_patch_py/applier.py:59 | the last piece is empty exactly when the text is empty or ends with the separator |
| ContentSearch.FirstMatch | src/apply_patch_py/applier.py:115-120 | a found index is at or after the start and the pattern occurs there, and it occurs nowhere between the start and that index |
| ContentSearch.FirstMatchComplete | src/apply_patch_py/applier.py:115-120 | an occurrence at or after the start is always found |
| ContentSearch.FirstMatchSound | src/apply_patch_py/applier.py:94-140 | the exact search meets the contract assumed of `find_sequence` |
| ChunkEngine.Anchor | src/apply_patch_py/applier.py:93 | a chunk has an anchor exactly when its change context is a non-empty string, and then the anchor is that context |
| ChunkEngine.InsertionIndex | src/apply_patch_py/applier.py:105-107 | the insertion point lies within the buffer |
| ChunkEngine.Located | src/apply_patch_py/applier.py:112-140 | a match found by the searches fits in the buffer |
| ChunkEngine.Splice | src/apply_patch_py/applier.py:147-148 | the buffer gains the block and loses the replaced lines; before the site it is unchanged, then comes the block, then the lines after the replaced ones |
| ChunkEngine.ApplyChunks | src/apply_patch_py/applier.py:87-151 | the loop over the chunks computes `ChunksApplied` from cursor 0 |
| ChunkEngine.ApplyChunk | src/apply_patch_py/applier.py:93-110 | one pass of that loop computes `ChunkApplied` |
| ChunkEngine.Replace | src/apply_patch_py/applier.py:142-149 | the replacement computes `Replaced` |
| ChunkEngine.Locate | src/apply_patch_py/applier.py:112-140 | the three searches compute `Located` |
| ChunkProperties.AnchorSearch | src/apply_patch_py/applier.py:93-102 | an anchor not found from the cursor fails the chunk with a context error naming it; a found anchor lies at or after the cursor and the cursor moves just past it |
| ChunkProperties.NoAnchorKeepsCursor | src/apply_patch_py/applier.py:93 | without an anchor (or with an empty one) the cursor is unchanged |
| ChunkProperties.PureInsertion | src/apply_patch_py/applier.py:104-110 | new lines go before a final empty line, otherwise at the end; the buffer grows by exactly them; the old lines keep their order around them; a final empty line stays last; the cursor lands just past the block |
| ChunkProperties.ReplacementKeepsOutside | src/apply_patch_py/applier.py:147-149 | the lines before and after the match are unchanged, the block sits between them, and the cursor lands just past it |
| ChunkProperties.LocatedMatch | src/apply_patch_py/applier.py:112-140 | the pattern and block are the chunk's own or, after a failed first search of old lines ending in `""`, those lines minus exactly that `""` and the new lines minus a final `""` if present; a match before the cursor comes only from the search from 0, which runs only when the cursor is past 0 |
| ChunkProperties.NotFoundIff | src/apply_patch_py/applier.py:115-145 | the search fails exactly when the lines are found neither from the cursor, nor without their final `""`, nor (cursor past 0) from index 0 |
| ChunkProperties.NoRetryFromStartAtZero | src/apply_patch_py/applier.py:134 | from cursor 0 only the first two searches run |
| ChunkProperties.ChunkFailure | src/apply_patch_py/applier.py:100-145 | a failed chunk names the file and either the missing anchor or its own non-empty old lines |
| ChunkProperties.CursorWithinBuffer | src/apply_patch_py/applier.py:104-149 | after a chunk the cursor never points past the end of the buffer |
| ChunkProperties.ChunksInOrder | src/apply_patch_py/applier.py:92 | the chunks apply one after the other; the first failure is the result |
| ChunkProperties.FirstReturnEdited | tests/test_edge_cases.py:59-79 | the first chunk edits the first `def foo():` and leaves the cursor after it |
| ChunkProperties.SecondReturnEdited | tests/test_edge_cases.py:59-79 | from there the second anchor search reaches the second `def foo():`, which the second chunk edits |
| ChunkProperties.RepeatedAnchors | tests/test_edge_cases.py:59-100 | two chunks with the same anchor and old lines edit the first and the second occurrence, in order |
| ChunkProperties.AnchoredInsertionAppends | src/apply_patch_py/applier.py:104-110 | a pure insertion under an anchor still goes to the end of the buffer |
| Applier.Recorded | src/apply_patch_py/applier.py:33-85 | recording a hunk adds exactly one path to the affected lists |
| Applier.FileTree.constructor | src/apply_patch_py/applier.py:12 | the tree holds the given files |
| Applier.AffectedPaths.constructor | src/apply_patch_py/applier.py:21 | a new record has no added, modified or deleted paths |
| Applier.ApplyHunk | src/apply_patch_py/applier.py:28-85 | it writes the destination of a move and then removes the original, as the source does; on failure the error of `HunkApplied` is returned and the tree and record are unchanged; on success the tree is the new one and the record gains the hunk's path |
| Applier.UpdateText | src/apply_patch_py/applier.py:58-66 | splitting, applying the chunks and rejoining computes `UpdatedText` |
| Applier.SplitContent | src/apply_patch_py/applier.py:58-60 | splitting the content on newlines and popping a final empty piece computes `ReadLines` |
| Applier.JoinLines | src/apply_patch_py/applier.py:64-66 | appending an empty line unless the lines end with one, then joining with newlines, computes `WriteText` |
| Applier.Apply | src/apply_patch_py/applier.py:11-26 | hunks run in order through `ApplyHunk`: the tree ends as `Applied` leaves it, also on failure; the error is the first one; on success a new record holds `Applied`'s affected paths |
| ApplierProperties.WrittenTextEndsWithNewline | src/apply_patch_py/applier.py:64-66 | the written text is empty exactly for no lines or a single empty line, and otherwise ends with a newline |
| ApplierProperties.ReadBackWritten | src/apply_patch_py/applier.py:58-66 | reading back written newline-free lines gives them again, less a final empty line |
| ApplierProperties.RewriteOfUnchangedText | src/apply_patch_py/applier.py:58-66 | with no chunk change, empty text stays empty, a missing final newline is added, a text of one newline or ending in two newlines loses one, and any other text is unchanged |
| ApplierProperties.UnterminatedGainsNewline | src/apply_patch_py/applier.py:58-66 | a text without a final newline is written back with one |
| ApplierProperties.TerminatedRewrite | src/apply_patch_py/applier.py:58-66 | a text `x + "\n"` is written back as is, unless `x` is empty or ends with a newline, when it becomes `x` |
| ApplierProperties.BlankLastLineDropped | src/apply_patch_py/applier.py:58-66 | `a\n\n` is written back as `a\n` |
| ApplierProperties.AddEffect | src/apply_patch_py/applier.py:33-39 | an Add hunk writes or overwrites its file with its content, records it as added, and changes no other file |
| ApplierProperties.DeleteEffect | src/apply_patch_py/applier.py:41-47 | a Delete hunk fails, naming the file, exactly when it is missing; otherwise it removes it, records it as deleted, and changes no other file |
| ApplierProperties.UpdateInPlaceEffect | src/apply_patch_py/applier.py:49-85 | an Update hunk fails on a missing file or with the chunk error; otherwise it writes the new text, records the path as modified, and changes no other file |
| ApplierProperties.UpdateMoveEffect | src/apply_patch_py/applier.py:49-81 | with a destination, the new text goes there, the destination is recorded as modified, the source is then removed even when it is the destination, and no other file changes |
| ApplierProperties.UpdatedTextEndsWithNewline | src/apply_patch_py/applier.py:64-66 | the text an Update hunk writes ends with a newline unless it is empty |
| ApplierProperties.HunksInOrder | src/apply_patch_py/applier.py:23-24 | running `first + rest` runs `first`, then `rest` only if `first` succeeded; a failure keeps the earlier changes |
| ApplierProperties.OnePathPerHunk | src/apply_patch_py/applier.py:21-26 | a successful run records exactly one path per hunk |
| ApplierProperties.NoHunksCheckUnreachable | src/apply_patch_py/applier.py:18-19 | `apply` never fails with its own "no hunks" error: the parser already rejects a patch without hunks |
| ApplierProperties.NoHunksFromRun | src/apply_patch_py/applier.py:23-24 | running hunks never produces the "no hunks" error |
| ApplierProperties.AppliedRecordsEachHunk | src/apply_patch_py/applier.py:11-26 | a successful `apply` parsed the patch and records one path per hunk, so at least one |
| ApplierProperties.MoveOntoItselfLosesFile | src/apply_patch_py/applier.py:68-81 | an Update hunk moved onto its own path, on an existing file whose chunks apply, succeeds and records the path, but leaves no file at that path |
| ApplierProperties.CorrectedMoveKeepsFile | src/apply_patch_py/applier.py:68-81 | with the removal skipped for a move onto itself, that hunk fails as before or keeps the file, holding the new text, with nothing else changed; every other hunk has the source's effect |
| ApplierProperties.AddedTextReadsBack | src/apply_patch_py/applier.py:58-60 | the content of an Add hunk, read back as an Update hunk reads a file, gives its newline-free lines back |

## Left out

- File I/O is not modelled: the `aiofiles` reads and writes, `os.remove` and `mkdir`. The directory is a map from path strings to texts, and a missing file is a missing key. The code is async but runs strictly in sequence, so there is no concurrency.
- Paths are plain strings, with no `workdir` joining, resolving or normalisation. Two spellings of the same path (`a.txt` and `./a.txt`) are two different keys in the model.
- Each file's text in the map is the text as Python's text-mode read returns it, with `"\r\n"` and `"\r"` already turned into `"\n"`. The model does not perform this translation itself, and it does not capture that a file with CRLF line ends is written back with LF.
- The "Failed to remove original" error of `_apply_hunk` cannot arise in the model, because the source file is known to exist at that point.
- Failure messages are not modelled: the exception texts and the `ValueError` to `RuntimeError` translation. Each failure is a constructor of `ParseError`, `ChunkError` or `ApplyError` carrying the same data (line number, line text, path, anchor, old lines).
- `ContentSearcher.find_sequence` and search.py are not part of this model, including how it uses the end-of-file hint. The engine takes the search as a parameter and relies only on `SoundFinder`: a returned index is at or after the start, and the pattern fits from there. `FirstMatch` is one exact search meeting that contract, used for the worked examples.
- The tests in tests/test_edge_cases.py that expect pure insertions to land after their anchor, and an "Ambiguous context" error, are not encoded. The applier as written inserts at the end of the buffer, shown by `ChunkEngine.ChunkApplied` and `ChunkProperties.AnchoredInsertionAppends`.
- The fuzzy-matching tests (tests/test_fuzzy.py, tests/test_fuzzy_scoring.py) call `PatchApplier._fuzzy_find` and `_smart_fuzzy_score`, which are not in applier.py as modelled. That fuzzy matching (floating-point `difflib` ratios) is not part of this model.
- The move onto a file's own path follows the source: `Applier.HunkApplied`, `Applier.ApplyHunk` and `Applier.Apply` lose the file. The corrected step, `Applier.HunkAppliedCorrected`, is stated only for one hunk; no corrected version of the whole run is given.
- Regex `\d` is modelled as the ASCII digits only. Python also accepts other Unicode decimal digits.
- `str.isspace` and `str.splitlines` are modelled on their character sets. No other Unicode behaviour (normalisation, case) is involved.
- `_strip_single_plus_prefix` and `_maybe_strip_plus_from_hunk_header` (parser.py:42-68) are not modelled: the parser never calls them.
- cli.py (arguments, stdin, printing, exit codes), `__init__.py` (a thin async wrapper), constants.py (prompt text) and the integration tests against model providers are not part of this model.
- `_parse_update_chunk`'s "does not contain any lines" error for an empty input (parser.py:333-336) is modelled, but no caller can reach it: the chunk loop only starts a chunk on a non-blank line.

## Findings

| source | as written | input that shows it | evidently intended | confidence | as-written member | corrected member |
|---|---|---|---|---|---|---|
| src/apply_patch_py/applier.py:68-81 | an Update hunk with `move_to` writes the new text to the destination and then removes the original path, even when the destination is that path | an existing file `a.txt` and an `*** Update File: a.txt` hunk with `*** Move to: a.txt` and any chunk that applies | a move onto the file's own path keeps the file, holding the new text | not executed | ApplierProperties.MoveOntoItselfLosesFile | ApplierProperties.CorrectedMoveKeepsFile |
