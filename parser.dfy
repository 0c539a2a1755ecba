/**
 * The lenient patch parser (`PatchParser` in parser.py).
 *
 * The recursive functions below are the specification of each parsing step; the
 * methods (`CountLeadingPluses`, `CoerceLlmPatch`, `ParseUpdateChunk`, `ParseOneHunk`,
 * `Parse`) are the loops of the parser, each proved equal to its specification.
 */
module PatchParser {
  import opened Results
  import opened PyText
  import opened Models

  const BeginPatch: string := "*** Begin Patch"
  const EndPatch: string := "*** End Patch"
  const AddFileMarker: string := "*** Add File: "
  const DeleteFileMarker: string := "*** Delete File: "
  const UpdateFileMarker: string := "*** Update File: "
  const MoveToMarker: string := "*** Move to: "
  const EofMarker: string := "*** End of File"
  const ChangeContextMarker: string := "@@ "
  const EmptyChangeContext: string := "@@"

  /** The `max_pluses` every caller of the plus-counting helper uses. */
  const MaxPluses: nat := 2

  // ---------------------------------------------------------------------------
  // Line predicates and normalisers
  // ---------------------------------------------------------------------------

  /**
   * The number of leading `+` characters of `s`, except that counting stops as soon
   * as it exceeds `maxPluses`: the result is at most `maxPluses + 1`.
   */
  function LeadingPluses(s: string, maxPluses: nat): (r: nat)
    ensures r <= maxPluses + 1 && r <= |s|
  {
    if s == [] || s[0] != '+' then 0
    else if maxPluses == 0 then 1
    else 1 + LeadingPluses(s[1..], maxPluses - 1)
  }

  /** The first `LeadingPluses(s, maxPluses)` characters are `+`; below the cap, the next one is not. */
  lemma {:induction false} LeadingPlusesSpec(s: string, maxPluses: nat)
    ensures var r := LeadingPluses(s, maxPluses);
      (forall k :: 0 <= k < r ==> s[k] == '+') && (r <= maxPluses ==> r == |s| || s[r] != '+')
  {
    if s != [] && s[0] == '+' && maxPluses > 0 {
      LeadingPlusesSpec(s[1..], maxPluses - 1);
    }
  }

  /** The loop of `_count_leading_pluses`. */
  method CountLeadingPluses(s: string, maxPluses: nat) returns (i: nat)
    ensures i <= maxPluses + 1 && i <= |s|
    ensures forall k :: 0 <= k < i ==> s[k] == '+'
    ensures i <= maxPluses ==> i == |s| || s[i] != '+'
    ensures i == LeadingPluses(s, maxPluses)
  {
    i := 0;
    while i < |s| && s[i] == '+'
      invariant i <= |s| && i <= maxPluses
      invariant forall k :: 0 <= k < i ==> s[k] == '+'
    {
      i := i + 1;
      if i > maxPluses {
        LeadingPlusesUnique(s, maxPluses, i);
        return;
      }
    }
    LeadingPlusesUnique(s, maxPluses, i);
  }

  /** Any count meeting the contract of `LeadingPluses` is its value. */
  lemma {:induction false} LeadingPlusesUnique(s: string, maxPluses: nat, i: nat)
    requires i <= maxPluses + 1 && i <= |s|
    requires forall k :: 0 <= k < i ==> s[k] == '+'
    requires i <= maxPluses ==> i == |s| || s[i] != '+'
    ensures i == LeadingPluses(s, maxPluses)
  {
    if s != [] && s[0] == '+' && maxPluses > 0 {
      LeadingPlusesUnique(s[1..], maxPluses - 1, i - 1);
    }
  }

  /** With the default cap, the count only tells apart `+`, `++` and `+++` prefixes. */
  lemma PlusCountByPrefix(s: string)
    ensures LeadingPluses(s, MaxPluses) ==
      if StartsWith(s, "+++") then 3 else if StartsWith(s, "++") then 2 else if StartsWith(s, "+") then 1 else 0
  {
    LeadingPlusesSpec(s, MaxPluses);
    if |s| >= 3 {
      assert StartsWith(s, "+++") <==> s[0] == '+' && s[1] == '+' && s[2] == '+';
    }
    if |s| >= 2 {
      assert StartsWith(s, "++") <==> s[0] == '+' && s[1] == '+';
    }
    if |s| >= 1 {
      assert StartsWith(s, "+") <==> s[0] == '+';
    }
  }

  /**
   * `_strip_prefixed_marker`: the trimmed line with one or two leading `+` (and the
   * whitespace after them) removed; three or more `+` are left alone (see
   * `StripPrefixedMarkerSpec`).
   */
  function StripPrefixedMarker(line: string): (r: string)
    ensures |r| <= |line|
  {
    var s := Strip(line);
    if !StartsWith(s, "+") then s
    else
      var i := LeadingPluses(s, MaxPluses);
      if i > MaxPluses then s else LStrip(s[i..])
  }

  /** The three cases of `StripPrefixedMarker`, by the number of leading `+`. */
  lemma StripPrefixedMarkerSpec(line: string)
    ensures var s := Strip(line);
      !StartsWith(s, "+") || StartsWith(s, "+++") ==> StripPrefixedMarker(line) == s
    ensures var s := Strip(line);
      StartsWith(s, "+") && !StartsWith(s, "++") ==> StripPrefixedMarker(line) == LStrip(s[1..])
    ensures var s := Strip(line);
      StartsWith(s, "++") && !StartsWith(s, "+++") ==> StripPrefixedMarker(line) == LStrip(s[2..])
  {
    PlusCountByPrefix(Strip(line));
  }

  /** `_is_hunk_header`: the trimmed line opens an Add, Delete or Update hunk. */
  predicate IsHunkHeader(line: string) {
    var s := Strip(line);
    StartsWith(s, AddFileMarker) || StartsWith(s, DeleteFileMarker) || StartsWith(s, UpdateFileMarker)
  }

  /** `_is_blank`: `not line.strip()`, i.e. the line is whitespace only (see `Strip`'s contract). */
  predicate IsBlank(line: string) {
    AllSpace(line)
  }

  /** `_is_unprefixed_end_patch`. */
  predicate IsUnprefixedEndPatch(line: string) {
    Strip(line) == EndPatch
  }

  /** `_is_end_patch_marker`: the end marker, bare or behind one or two `+`. */
  predicate IsEndPatchMarker(line: string) {
    Strip(line) == EndPatch || StripPrefixedMarker(line) == EndPatch
  }

  /** `_is_prefixed_hunk_header`: a hunk header that only shows once a `+` prefix is removed. */
  predicate IsPrefixedHunkHeader(line: string) {
    var stripped := StripPrefixedMarker(line);
    if stripped == Strip(line) then false else IsHunkHeader(stripped)
  }

  /** `_is_prefixed_end_patch`: the end marker behind one or two `+`. */
  predicate IsPrefixedEndPatch(line: string) {
    var stripped := StripPrefixedMarker(line);
    if stripped == Strip(line) then false else stripped == EndPatch
  }

  /**
   * `_maybe_strip_pluses_from_hunk_header`: drop one or two leading `+` only when what
   * remains is a hunk header; otherwise keep the trimmed line as it is.
   */
  function MaybeStripPlusesFromHunkHeader(line: string): (r: string)
  {
    var s := Strip(line);
    if !StartsWith(s, "+") then s
    else
      var i := LeadingPluses(s, MaxPluses);
      if i > MaxPluses then s
      else
        var candidate := LStrip(s[i..]);
        if IsHunkHeader(candidate) then candidate else s
  }

  /**
   * The header is either the trimmed line unchanged or a hunk header: the prefixed-marker
   * strip is kept exactly when what it leaves is a hunk header.
   */
  lemma MaybeStripPlusesSpec(line: string)
    ensures var r := MaybeStripPlusesFromHunkHeader(line);
      (r == Strip(line) || IsHunkHeader(r))
      && r == (if IsHunkHeader(StripPrefixedMarker(line)) then StripPrefixedMarker(line) else Strip(line))
  {
  }

  /** The here-document openers `_strip_heredoc` recognises. */
  predicate IsHeredocOpener(s: string) {
    s == "<<EOF" || s == "<<'EOF'" || s == "<<\"EOF\""
  }

  /** `_strip_heredoc`: drop a first and last line that wrap the patch in a here-document. */
  function StripHeredoc(lines: seq<string>): (r: seq<string>)
    ensures |lines| >= 4 && IsHeredocOpener(Strip(lines[0])) && EndsWith(Strip(lines[|lines| - 1]), "EOF")
      ==> r == lines[1..|lines| - 1]
    ensures !(|lines| >= 4 && IsHeredocOpener(Strip(lines[0])) && EndsWith(Strip(lines[|lines| - 1]), "EOF"))
      ==> r == lines
  {
    if |lines| < 4 then lines
    else
      var first := Strip(lines[0]);
      var last := Strip(lines[|lines| - 1]);
      if IsHeredocOpener(first) && EndsWith(last, "EOF") then lines[1..|lines| - 1] else lines
  }

  // ---------------------------------------------------------------------------
  // End-of-input recovery (`_coerce_llm_patch`)
  // ---------------------------------------------------------------------------

  /** `lines` without its trailing whitespace-only lines. */
  function TrimTrailingBlank(lines: seq<string>): (r: seq<string>)
    ensures |r| <= |lines| && r == lines[..|r|]
    ensures forall k :: |r| <= k < |lines| ==> IsBlank(lines[k])
    ensures r == [] || !IsBlank(r[|r| - 1])
  {
    if lines != [] && IsBlank(lines[|lines| - 1]) then TrimTrailingBlank(lines[..|lines| - 1]) else lines
  }

  /**
   * What `_coerce_llm_patch` returns: trailing blank lines removed, and a final
   * `+*** End Patch` (possibly followed by a bare `+`) turned into `*** End Patch`.
   */
  function Coerced(lines: seq<string>): (r: seq<string>)
    ensures |r| <= |lines|
  {
    var t := TrimTrailingBlank(lines);
    if t == [] then t
    else if Strip(t[|t| - 1]) == "+" + EndPatch then t[|t| - 1 := EndPatch]
    else if |t| >= 2 && Strip(t[|t| - 2]) == "+" + EndPatch && Strip(t[|t| - 1]) == "+" then
      t[..|t| - 1][|t| - 2 := EndPatch]
    else t
  }

  /** `_coerce_llm_patch` leaves nothing exactly when every line was blank. */
  lemma CoercedEmpty(lines: seq<string>)
    ensures Coerced(lines) == [] <==> forall k :: 0 <= k < |lines| ==> IsBlank(lines[k])
  {
    var t := TrimTrailingBlank(lines);
    if t != [] {
      assert !IsBlank(lines[|t| - 1]);
    }
  }

  /**
   * The lines `_coerce_llm_patch` keeps are the input's, except that the last may become
   * `*** End Patch`; the last line kept is never blank.
   */
  lemma CoercedKeeps(lines: seq<string>)
    ensures var r := Coerced(lines);
      && (r != [] ==> r[..|r| - 1] == lines[..|r| - 1])
      && (r != [] ==> r[|r| - 1] == lines[|r| - 1] || r[|r| - 1] == EndPatch)
      && (r != [] ==> !IsBlank(r[|r| - 1]))
  {
    var t := TrimTrailingBlank(lines);
    var r := Coerced(lines);
    assert !IsBlank(EndPatch) by { assert !IsSpace(EndPatch[0]); }
    if r != [] && r != t {
      assert r == r[..|r| - 1] + [EndPatch];
      assert r[..|r| - 1] == t[..|r| - 1];
    }
  }

  /** `_coerce_llm_patch` only drops trailing blank lines and a lone `+` after `+*** End Patch`. */
  lemma CoercedDrops(lines: seq<string>)
    ensures var r := Coerced(lines);
      forall k :: |r| <= k < |lines| ==> IsBlank(lines[k]) || Strip(lines[k]) == "+"
  {
    var t := TrimTrailingBlank(lines);
    var r := Coerced(lines);
    if t != [] && |r| == |t| - 1 {
      assert Strip(lines[|t| - 1]) == "+";
    }
  }

  /** The loop of `_coerce_llm_patch`, popping trailing blank lines and fixing the end marker. */
  method CoerceLlmPatch(lines: seq<string>) returns (r: seq<string>)
    ensures r == Coerced(lines)
  {
    r := lines;
    if |r| == 0 {
      return;
    }
    while |r| > 0 && IsBlank(r[|r| - 1])
      invariant TrimTrailingBlank(r) == TrimTrailingBlank(lines)
    {
      r := r[..|r| - 1];
    }
    assert r == TrimTrailingBlank(lines);
    if |r| == 0 {
      return;
    }
    if Strip(r[|r| - 1]) == "+" + EndPatch {
      r := r[|r| - 1 := EndPatch];
      return;
    }
    if |r| >= 2 && Strip(r[|r| - 2]) == "+" + EndPatch && Strip(r[|r| - 1]) == "+" {
      r := r[..|r| - 1];
      r := r[|r| - 1 := EndPatch];
      return;
    }
  }

  // ---------------------------------------------------------------------------
  // Unified-diff range headers: fullmatch of  -\d+(?:,\d+)?\s+\+\d+(?:,\d+)?\s+@@
  // ---------------------------------------------------------------------------

  predicate IsDigit(c: char) {
    '0' <= c <= '9'
  }

  /**
   * One transition of the deterministic automaton for the pattern; states count the parts
   * read so far: 0 start, 1 after `-`, 2 in the first number, 3 after its comma, 4 in its
   * second part, 5 in the first spaces, 6 after `+`, 7 in the second number, 8 after its
   * comma, 9 in its second part, 10 in the second spaces, 11 after the first `@`, 12 after
   * `@@` (accepting). `None` rejects.
   */
  function RangeStep(q: nat, c: char): (r: Option<nat>)
    ensures r.Some? ==> r.value <= 12
  {
    if q == 0 then (if c == '-' then Some(1) else None)
    else if q == 1 || q == 3 || q == 6 || q == 8 then (if IsDigit(c) then Some(q + 1) else None)
    else if q == 2 || q == 7 then
      (if IsDigit(c) then Some(q) else if c == ',' then Some(q + 1) else if IsSpace(c) then Some(q + 3) else None)
    else if q == 4 || q == 9 then
      (if IsDigit(c) then Some(q) else if IsSpace(c) then Some(q + 1) else None)
    else if q == 5 then (if IsSpace(c) then Some(5) else if c == '+' then Some(6) else None)
    else if q == 10 then (if IsSpace(c) then Some(10) else if c == '@' then Some(11) else None)
    else if q == 11 then (if c == '@' then Some(12) else None)
    else None
  }

  /** Runs the automaton over `s[i..]` from state `q`; accepts when it ends in state 12. */
  predicate RangeFrom(s: string, i: nat, q: nat)
    requires i <= |s|
    decreases |s| - i
  {
    if i == |s| then q == 12
    else
      match RangeStep(q, s[i])
      case None => false
      case Some(q') => RangeFrom(s, i + 1, q')
  }

  /**
   * The regular expression of parser.py:359, matched against the whole text, as a
   * deterministic automaton: its digits, separators and spaces never overlap, so one
   * left-to-right pass decides it.
   */
  predicate IsRangeHeader(s: string) {
    RangeFrom(s, 0, 0)
  }

  // ---------------------------------------------------------------------------
  // Chunks (`_parse_update_chunk`)
  // ---------------------------------------------------------------------------

  /** A `+` content marker doubled by the model collapses to one. */
  function DropDoubledPlus(s: string): (r: string)
    ensures r == s || (StartsWith(s, "+") && r == s[1..])
  {
    if StartsWith(s, "+") then s[1..] else s
  }

  /** The chunk's first line once an accidental `+` or `++` in front of `@@` is dropped. */
  function NormalizedMarkerLine(first: string): string
  {
    var stripped := LStrip(first);
    if StartsWith(stripped, "+@@") then stripped[1..]
    else if StartsWith(stripped, "++@@") then stripped[2..]
    else first
  }

  /**
   * How a (normalised) chunk line reads as an `@@` marker: `None` when it is not a marker;
   * `Some(None)` for a bare `@@` or a numeric range header; `Some(Some(c))` for an anchor `c`.
   */
  function MarkerContext(line: string): (r: Option<Option<string>>)
    ensures r == Some(None) <== Strip(line) == EmptyChangeContext
    ensures r.Some? ==> Strip(line) == EmptyChangeContext || StartsWith(line, ChangeContextMarker)
    ensures r.Some? && r.value.Some? ==>
      StartsWith(line, ChangeContextMarker) && r.value.value == Strip(line[|ChangeContextMarker|..])
      && !IsRangeHeader(r.value.value)
  {
    if Strip(line) == EmptyChangeContext then Some(None)
    else if StartsWith(line, ChangeContextMarker) then
      var raw := Strip(line[|ChangeContextMarker|..]);
      if IsRangeHeader(raw) then Some(None) else Some(Some(raw))
    else None
  }

  /** One line of a chunk body, classified by its first character. */
  datatype BodyLine = Context(text: string) | Removed(text: string) | Added(text: string) | EndOfFile | Stop

  function ClassifyBodyLine(line: string): BodyLine
  {
    if Strip(line) == EofMarker then EndOfFile
    else if line == "" then Context("")
    else if line[0] == ' ' then Context(line[1..])
    else if line[0] == '-' then Removed(line[1..])
    else if line[0] == '+' then Added(DropDoubledPlus(line[1..]))
    else Stop
  }

  /** What the body loop of a chunk has collected, and the index where it stopped. */
  datatype BodyScan = BodyScan(oldLines: seq<string>, newLines: seq<string>, isEndOfFile: bool, stop: nat)

  /**
   * The body of a chunk from index `i` on, after `oldAcc`/`newAcc` were already collected:
   * context, removed and added lines until a `*** End of File` line (consumed, sets
   * `isEndOfFile`) or a line of any other shape (not consumed).
   */
  function ScanBody(lines: seq<string>, i: nat, oldAcc: seq<string>, newAcc: seq<string>): (b: BodyScan)
    requires i <= |lines|
    ensures i <= b.stop <= |lines|
    decreases |lines| - i
  {
    if i == |lines| then BodyScan(oldAcc, newAcc, false, i)
    else
      match ClassifyBodyLine(lines[i])
      case EndOfFile => BodyScan(oldAcc, newAcc, true, i + 1)
      case Stop => BodyScan(oldAcc, newAcc, false, i)
      case Context(t) => ScanBody(lines, i + 1, oldAcc + [t], newAcc + [t])
      case Removed(t) => ScanBody(lines, i + 1, oldAcc + [t], newAcc)
      case Added(t) => ScanBody(lines, i + 1, oldAcc, newAcc + [t])
  }

  /** Whether the chunk's first line is an `@@` marker, and the anchor it carries. */
  function ChunkStart(lines: seq<string>): (r: Option<Option<string>>)
    requires lines != []
  {
    MarkerContext(NormalizedMarkerLine(lines[0]))
  }

  /**
   * `_parse_update_chunk`: an optional `@@` marker (required unless `allowMissingContext`)
   * and a body that must consume at least one line. On success the count of consumed
   * lines is between 1 and `|lines|`; an error's line is counted from `lines[0]` (line 0).
   */
  function ParsedChunk(lines: seq<string>, allowMissingContext: bool)
    : (r: Result<(UpdateFileChunk, nat), ParseError>)
    ensures r.Success? ==> 1 <= r.value.1 <= |lines|
    ensures r.Success? && !allowMissingContext ==> ChunkStart(lines).Some?
    ensures r.Failure? ==> r.error.EmptyChunk? || r.error.MissingContextMarker?
  {
    if lines == [] then Failure(EmptyChunk(0))
    else
      var marker := ChunkStart(lines);
      if marker.None? && !allowMissingContext then
        Failure(MissingContextMarker(0, NormalizedMarkerLine(lines[0])))
      else
        var startIdx := if marker.Some? then 1 else 0;
        var body := ScanBody(lines, startIdx, [], []);
        if body.stop == startIdx then Failure(EmptyChunk(1))
        else
          var context := if marker.Some? then marker.value else None;
          Success((UpdateFileChunk(body.oldLines, body.newLines, context, body.isEndOfFile), body.stop))
  }

  /** `_parse_update_chunk`, whose first line is line `lineNumber` of the patch. */
  method ParseUpdateChunk(lines: seq<string>, lineNumber: nat, allowMissingContext: bool)
    returns (r: Result<(UpdateFileChunk, nat), ParseError>)
    ensures r == Shifted(ParsedChunk(lines, allowMissingContext), lineNumber)
  {
    if |lines| == 0 {
      return Failure(EmptyChunk(lineNumber));
    }
    var first := NormalizedMarkerLine(lines[0]);
    var changeContext: Option<string> := None;
    var startIdx: nat;
    var marker := MarkerContext(first);
    if marker.Some? {
      changeContext := marker.value;
      startIdx := 1;
    } else {
      if !allowMissingContext {
        return Failure(MissingContextMarker(lineNumber, first));
      }
      startIdx := 0;
    }
    var body := ScanChunkBody(lines, startIdx);
    var consumed := body.stop;
    if consumed == startIdx {
      return Failure(EmptyChunk(lineNumber + 1));
    }
    return Success((UpdateFileChunk(body.oldLines, body.newLines, changeContext, body.isEndOfFile), consumed));
  }

  /** The `for` loop of `_parse_update_chunk`, collecting the chunk body from `startIdx` on. */
  method ScanChunkBody(lines: seq<string>, startIdx: nat) returns (b: BodyScan)
    requires startIdx <= |lines|
    ensures b == ScanBody(lines, startIdx, [], [])
  {
    var oldLines: seq<string> := [];
    var newLines: seq<string> := [];
    var isEof := false;
    var consumed := startIdx;
    while consumed < |lines|
      invariant startIdx <= consumed <= |lines|
      invariant ScanBody(lines, startIdx, [], []) == ScanBody(lines, consumed, oldLines, newLines)
    {
      var line := lines[consumed];
      if Strip(line) == EofMarker {
        isEof := true;
        consumed := consumed + 1;
        break;
      }
      if line == "" {
        oldLines := oldLines + [""];
        newLines := newLines + [""];
        consumed := consumed + 1;
        continue;
      }
      var marker := line[0];
      var content := line[1..];
      if marker == ' ' {
        oldLines := oldLines + [content];
        newLines := newLines + [content];
      } else if marker == '-' {
        oldLines := oldLines + [content];
      } else if marker == '+' {
        if StartsWith(content, "+") {
          content := content[1..];
        }
        newLines := newLines + [content];
      } else {
        break;
      }
      consumed := consumed + 1;
    }
    return BodyScan(oldLines, newLines, isEof, consumed);
  }

  // ---------------------------------------------------------------------------
  // Hunks (`_parse_one_hunk`)
  // ---------------------------------------------------------------------------

  /** A line that ends the `+` lines of an Add hunk even though it may start with `+`. */
  predicate EndsAddBody(line: string) {
    IsPrefixedHunkHeader(line) || IsPrefixedEndPatch(line) || IsEndPatchMarker(line)
  }

  /**
   * The content lines of an Add hunk from index `i` on, after `acc` was collected: each
   * `+` line contributes its text (a doubled `+` collapses to one); the first line that
   * ends the body or does not start with `+` stops the scan. Returns the lines and the
   * index where the scan stopped.
   */
  function AddBody(lines: seq<string>, i: nat, acc: seq<string>): (r: (seq<string>, nat))
    requires i <= |lines|
    ensures i <= r.1 <= |lines|
    decreases |lines| - i
  {
    if i == |lines| || EndsAddBody(lines[i]) || !StartsWith(lines[i], "+") then (acc, i)
    else AddBody(lines, i + 1, acc + [DropDoubledPlus(lines[i][1..])])
  }

  /** The text of an added file: its lines, each ended by a newline. */
  function AddedText(content: seq<string>): string
  {
    if content == [] then "" else Join(content, '\n') + "\n"
  }

  /** A line that ends the chunks of an Update hunk (checked only on non-blank lines). */
  predicate EndsUpdateBody(line: string) {
    || IsUnprefixedEndPatch(line)
    || IsHunkHeader(line)
    || IsPrefixedHunkHeader(line)
    || IsPrefixedEndPatch(line)
    || IsEndPatchMarker(line)
  }

  /** The errors raised while parsing one hunk, each carrying the patch line it is about. */
  predicate IsHunkError(e: ParseError) {
    e.InvalidHunkHeader? || e.EmptyUpdateHunk? || e.MissingContextMarker? || e.EmptyChunk?
  }

  // The specification functions count an error's line from the first line they are
  // given; `Shifted` moves it to where those lines sit in the patch. The methods, like
  // the parser, compute the patch line directly.

  /** `e` with the line it reports moved `d` lines down. */
  function ShiftedError(e: ParseError, d: nat): (r: ParseError)
    ensures IsHunkError(r) == IsHunkError(e)
  {
    match e
    case InvalidHunkHeader(line, text) => InvalidHunkHeader(line + d, text)
    case EmptyUpdateHunk(line, path) => EmptyUpdateHunk(line + d, path)
    case MissingContextMarker(line, text) => MissingContextMarker(line + d, text)
    case EmptyChunk(line) => EmptyChunk(line + d)
    case EmptyPatch => EmptyPatch
    case NoFilesModified => NoFilesModified
  }

  function Shifted<T>(r: Result<T, ParseError>, d: nat): Result<T, ParseError>
  {
    match r
    case Success(v) => Success(v)
    case Failure(e) => Failure(ShiftedError(e, d))
  }

  function ShiftedOption(o: Option<ParseError>, d: nat): Option<ParseError>
  {
    match o
    case None => None
    case Some(e) => Some(ShiftedError(e, d))
  }

  /** Moving an error by `a` and then by `b` moves it by `a + b`. */
  lemma ShiftedTwice<T>(r: Result<T, ParseError>, a: nat, b: nat, c: nat)
    requires c == a + b
    ensures Shifted(Shifted(r, a), b) == Shifted(r, c)
  {
  }

  /**
   * What one pass of a collecting loop decides: go on from index `next` with the items
   * `acc`, or finish with `result` (the items and the index where the loop stopped).
   */
  datatype LoopStep<T> =
    | GoOn(next: nat, acc: seq<T>)
    | Finish(result: Result<(seq<T>, nat), ParseError>)

  /**
   * The pass of a collecting loop at index `i` once the item there was parsed as `parsed`
   * (the item and the number of lines it took): a failure finishes the loop, and
   * otherwise the item is collected and the loop goes on after its lines.
   */
  function ParsedStep<T>(parsed: Result<(T, nat), ParseError>, i: nat, acc: seq<T>): (r: LoopStep<T>)
    ensures r.GoOn? <==> parsed.Success?
    ensures r.GoOn? ==> r.next == i + parsed.value.1 && r.acc == acc + [parsed.value.0]
    ensures r.Finish? ==> r.result == Failure(parsed.error)
  {
    match parsed
    case Failure(e) => Finish(Failure(e))
    case Success((item, k)) => GoOn(i + k, acc + [item])
  }

  function ShiftedStep<T>(s: LoopStep<T>, d: nat): LoopStep<T>
  {
    match s
    case GoOn(next, acc) => GoOn(next, acc)
    case Finish(r) => Finish(Shifted(r, d))
  }

  /** Moving the error of a parsed item moves the error the loop finishes with, and nothing else. */
  lemma ParsedStepShift<T>(parsed: Result<(T, nat), ParseError>, i: nat, acc: seq<T>, d: nat)
    ensures ParsedStep(Shifted(parsed, d), i, acc) == ShiftedStep(ParsedStep(parsed, i, acc), d)
  {
  }

  /**
   * One pass of the chunk loop at line `i` of an Update hunk, after `chunks` were parsed:
   * a blank line is skipped, a hunk header or end marker finishes, and anything else
   * starts a chunk (only the first chunk may omit its `@@` marker).
   */
  function ChunkStep(lines: seq<string>, i: nat, chunks: seq<UpdateFileChunk>): (r: LoopStep<UpdateFileChunk>)
    requires i < |lines|
    ensures r.GoOn? ==> i < r.next <= |lines| && |r.acc| >= |chunks|
    ensures r.Finish? && r.result.Failure? ==> IsHunkError(r.result.error)
  {
    if IsBlank(lines[i]) then GoOn(i + 1, chunks)
    else if EndsUpdateBody(lines[i]) then Finish(Success((chunks, i)))
    else ParsedStep(Shifted(ParsedChunk(lines[i..], chunks == []), i), i, chunks)
  }

  /**
   * The chunks of an Update hunk from index `i` of the hunk's lines on, after `chunks`
   * were parsed, and the index where they end: `ChunkStep` repeated until it finishes
   * or the lines run out.
   */
  function UpdateChunks(lines: seq<string>, i: nat, chunks: seq<UpdateFileChunk>)
    : (r: Result<(seq<UpdateFileChunk>, nat), ParseError>)
    requires i <= |lines|
    ensures r.Success? ==> i <= r.value.1 <= |lines| && |r.value.0| >= |chunks|
    decreases |lines| - i
    ensures r.Failure? ==> IsHunkError(r.error)
  {
    if i == |lines| then Success((chunks, i))
    else match ChunkStep(lines, i, chunks)
      case Finish(r) => r
      case GoOn(next, acc) => UpdateChunks(lines, next, acc)
  }

  /** The destination named by a `*** Move to: ` line right after an Update header. */
  function MoveTarget(lines: seq<string>): Option<string>
  {
    if |lines| > 1 && StartsWith(Strip(lines[1]), MoveToMarker) then
      Some(Strip(Strip(lines[1])[|MoveToMarker|..]))
    else None
  }

  /**
   * `_parse_one_hunk`: the hunk whose header is `lines[0]` and the number of lines it
   * takes, which is at least one and at most `|lines|`; an error's line is counted from
   * the header (line 0).
   */
  function ParsedHunk(lines: seq<string>): (r: Result<(Hunk, nat), ParseError>)
    requires lines != []
    ensures r.Success? ==> 1 <= r.value.1 <= |lines|
    ensures r.Success? && r.value.0.UpdateFile? ==> r.value.0.chunks != []
    ensures r.Failure? ==> IsHunkError(r.error)
  {
    var first := MaybeStripPlusesFromHunkHeader(lines[0]);
    if StartsWith(first, AddFileMarker) then Success(AddHunk(lines, first))
    else if StartsWith(first, DeleteFileMarker) then
      Success((DeleteFile(Strip(first[|DeleteFileMarker|..])), 1))
    else if StartsWith(first, UpdateFileMarker) then UpdateHunk(lines, first)
    else Failure(InvalidHunkHeader(0, first))
  }

  /** An Add hunk with header `first`: the file's text and the lines it takes. */
  function AddHunk(lines: seq<string>, first: string): (r: (Hunk, nat))
    requires lines != [] && StartsWith(first, AddFileMarker)
    ensures 1 <= r.1 <= |lines| && r.0.AddFile?
  {
    var body := AddBody(lines, 1, []);
    (AddFile(Strip(first[|AddFileMarker|..]), AddedText(body.0)), body.1)
  }

  /** An Update hunk with header `first`: an optional move target and at least one chunk. */
  function UpdateHunk(lines: seq<string>, first: string): (r: Result<(Hunk, nat), ParseError>)
    requires lines != [] && StartsWith(first, UpdateFileMarker)
    ensures r.Success? ==> 1 <= r.value.1 <= |lines| && r.value.0.UpdateFile? && r.value.0.chunks != []
    ensures r.Failure? ==> IsHunkError(r.error)
  {
    var path := Strip(first[|UpdateFileMarker|..]);
    var moveTo := MoveTarget(lines);
    match UpdateChunks(lines, if moveTo.Some? then 2 else 1, [])
    case Failure(e) => Failure(e)
    case Success((chunks, stop)) =>
      if chunks == [] then Failure(EmptyUpdateHunk(0, path))
      else Success((UpdateFile(path, moveTo, chunks), stop))
  }

  /** `_parse_one_hunk`, dispatching on the (normalised) header line, which is line `lineNumber` of the patch. */
  method ParseOneHunk(lines: seq<string>, lineNumber: nat) returns (r: Result<(Hunk, nat), ParseError>)
    requires lines != []
    ensures r == Shifted(ParsedHunk(lines), lineNumber)
  {
    var first := MaybeStripPlusesFromHunkHeader(lines[0]);
    if StartsWith(first, AddFileMarker) {
      var path := Strip(first[|AddFileMarker|..]);
      var content, consumed := CollectAddedLines(lines);
      var text := if content != [] then Join(content, '\n') + "\n" else "";
      return Success((AddFile(path, text), consumed));
    } else if StartsWith(first, DeleteFileMarker) {
      return Success((DeleteFile(Strip(first[|DeleteFileMarker|..])), 1));
    } else if StartsWith(first, UpdateFileMarker) {
      var path := Strip(first[|UpdateFileMarker|..]);
      var consumed := 1;
      var moveTo: Option<string> := None;
      if |lines| > 1 && StartsWith(Strip(lines[1]), MoveToMarker) {
        moveTo := Some(Strip(Strip(lines[1])[|MoveToMarker|..]));
        consumed := consumed + 1;
      }
      var parsed := CollectChunks(lines, consumed, lineNumber);
      if parsed.Failure? {
        return Failure(parsed.error);
      }
      var (chunks, stop) := parsed.value;
      if chunks == [] {
        return Failure(EmptyUpdateHunk(lineNumber, path));
      }
      return Success((UpdateFile(path, moveTo, chunks), stop));
    } else {
      return Failure(InvalidHunkHeader(lineNumber, first));
    }
  }

  /** The `for` loop of an Add hunk in `_parse_one_hunk`: its content lines and where they end. */
  method CollectAddedLines(lines: seq<string>) returns (content: seq<string>, consumed: nat)
    requires lines != []
    ensures (content, consumed) == AddBody(lines, 1, [])
  {
    content := [];
    consumed := 1;
    while consumed < |lines|
      invariant 1 <= consumed <= |lines|
      invariant AddBody(lines, 1, []) == AddBody(lines, consumed, content)
    {
      var line := lines[consumed];
      if IsPrefixedHunkHeader(line) || IsPrefixedEndPatch(line) || IsEndPatchMarker(line) {
        break;
      }
      if StartsWith(line, "+") {
        var val := line[1..];
        if StartsWith(val, "+") {
          val := val[1..];
        }
        content := content + [val];
        consumed := consumed + 1;
      } else {
        break;
      }
    }
  }

  /** The `while remaining` loop of an Update hunk in `_parse_one_hunk`, from line `from` on. */
  method CollectChunks(lines: seq<string>, from: nat, lineNumber: nat)
    returns (r: Result<(seq<UpdateFileChunk>, nat), ParseError>)
    requires from <= |lines|
    ensures r == Shifted(UpdateChunks(lines, from, []), lineNumber)
  {
    var consumed := from;
    var chunks: seq<UpdateFileChunk> := [];
    while consumed < |lines|
      invariant from <= consumed <= |lines|
      invariant UpdateChunks(lines, from, []) == UpdateChunks(lines, consumed, chunks)
      decreases |lines| - consumed
    {
      var step := ChunkLoopBody(lines, consumed, lineNumber, chunks);
      if step.Finish? {
        return step.result;
      }
      consumed, chunks := step.next, step.acc;
    }
    return Success((chunks, consumed));
  }

  /** The body of that loop, at line `consumed`. */
  method ChunkLoopBody(lines: seq<string>, consumed: nat, lineNumber: nat, chunks: seq<UpdateFileChunk>)
    returns (step: LoopStep<UpdateFileChunk>)
    requires consumed < |lines|
    ensures step == ShiftedStep(ChunkStep(lines, consumed, chunks), lineNumber)
  {
    var line := lines[consumed];
    if IsBlank(line) {
      return GoOn(consumed + 1, chunks);
    }
    if EndsUpdateBody(line) {
      return Finish(Success((chunks, consumed)));
    }
    step := NextChunk(lines, consumed, lineNumber, chunks);
  }

  /** The rest of that body, on a line that starts a chunk. */
  method NextChunk(lines: seq<string>, consumed: nat, lineNumber: nat, chunks: seq<UpdateFileChunk>)
    returns (step: LoopStep<UpdateFileChunk>)
    requires consumed < |lines|
    ensures step == ShiftedStep(ParsedStep(Shifted(ParsedChunk(lines[consumed..], chunks == []), consumed), consumed, chunks), lineNumber)
  {
    var parsed := ParseUpdateChunk(lines[consumed..], lineNumber + consumed, chunks == []);
    ShiftedTwice(ParsedChunk(lines[consumed..], chunks == []), consumed, lineNumber, lineNumber + consumed);
    ParsedStepShift(Shifted(ParsedChunk(lines[consumed..], chunks == []), consumed), consumed, chunks, lineNumber);
    if parsed.Failure? {
      return Finish(Failure(parsed.error));
    }
    return GoOn(consumed + parsed.value.1, chunks + [parsed.value.0]);
  }

  // ---------------------------------------------------------------------------
  // The whole patch (`parse`)
  // ---------------------------------------------------------------------------

  /**
   * One pass of the hunk loop of `parse` at index `idx` of the content lines, after
   * `hunks` were parsed: a blank line is skipped, an end marker finishes, and anything
   * else must be a hunk, whose header is line `idx + 1` of the content.
   */
  function HunkStep(content: seq<string>, idx: nat, hunks: seq<Hunk>): (r: LoopStep<Hunk>)
    requires idx < |content|
    ensures r.GoOn? ==> idx < r.next <= |content| && |r.acc| >= |hunks|
    ensures r.Finish? && r.result.Failure? ==> IsHunkError(r.result.error)
  {
    if IsBlank(content[idx]) then GoOn(idx + 1, hunks)
    else if IsEndPatchMarker(content[idx]) then Finish(Success((hunks, idx)))
    else ParsedStep(Shifted(ParsedHunk(content[idx..]), idx + 1), idx, hunks)
  }

  /** The hunks of the content lines from `idx` on and the index where the hunk loop stops. */
  function CollectedHunks(content: seq<string>, idx: nat, hunks: seq<Hunk>)
    : (r: Result<(seq<Hunk>, nat), ParseError>)
    requires idx <= |content|
    ensures r.Success? ==> idx <= r.value.1 <= |content| && |r.value.0| >= |hunks|
    decreases |content| - idx
    ensures r.Failure? ==> IsHunkError(r.error)
  {
    if idx == |content| then Success((hunks, idx))
    else match HunkStep(content, idx, hunks)
      case Finish(r) => r
      case GoOn(next, acc) => CollectedHunks(content, next, acc)
  }

  /**
   * The check after the hunks: from `idx` on only blank lines and end markers may
   * follow; the first other line is reported as an invalid hunk header.
   */
  function TrailingError(content: seq<string>, idx: nat): (r: Option<ParseError>)
    requires idx <= |content|
    ensures r.Some? ==> r.value.InvalidHunkHeader?
    decreases |content| - idx
  {
    if idx == |content| then None
    else if IsBlank(content[idx]) || IsEndPatchMarker(content[idx]) then TrailingError(content, idx + 1)
    else Some(InvalidHunkHeader(idx + 1, content[idx]))
  }

  /** The index of the first content line: `1` after a `*** Begin Patch` line, else `0`. */
  function ContentStart(lines: seq<string>): (start: nat)
    ensures start <= |lines|
  {
    if lines != [] && Strip(lines[0]) == BeginPatch then 1 else 0
  }

  /** The index just past the content lines: a final end marker after the start is left out. */
  function ContentEnd(lines: seq<string>): (end: nat)
    ensures ContentStart(lines) <= end <= |lines|
  {
    var start := ContentStart(lines);
    if |lines| > start && IsEndPatchMarker(lines[|lines| - 1]) then |lines| - 1 else |lines|
  }

  /**
   * The hunks of the content lines (numbered from 1): at least one hunk, then nothing
   * but blank lines and end markers.
   */
  function ParsedContent(content: seq<string>): (r: Result<Patch, ParseError>)
    ensures r.Success? ==> r.value.hunks != []
    ensures r.Failure? ==> r.error.NoFilesModified? || IsHunkError(r.error)
  {
    match CollectedHunks(content, 0, [])
    case Failure(e) => Failure(e)
    case Success((hunks, idx)) =>
      if hunks == [] then Failure(NoFilesModified)
      else match TrailingError(content, idx)
        case Some(e) => Failure(e)
        case None => Success(Patch(hunks))
  }

  /**
   * The second half of `parse`, on the coerced lines: optional begin and end markers
   * around the content, whose first line is line `ContentStart(lines) + 1` of the patch.
   */
  function ParsedDocument(lines: seq<string>): (r: Result<Patch, ParseError>)
    ensures r.Success? ==> r.value.hunks != []
    ensures r.Failure? ==> r.error.NoFilesModified? || IsHunkError(r.error)
  {
    var start := ContentStart(lines);
    Shifted(ParsedContent(lines[start..ContentEnd(lines)]), start)
  }

  /** The lines `parse` works on: the trimmed text split into lines, here-document wrapper removed. */
  function PatchLines(text: string): seq<string>
  {
    StripHeredoc(SplitLines(Strip(text)))
  }

  /**
   * `parse`: the patch the text holds, or the first error. Text with no lines, or only
   * blank lines once coerced, is an empty patch.
   */
  function Parsed(text: string): (r: Result<Patch, ParseError>)
    ensures r.Success? ==> r.value.hunks != []
  {
    var lines := PatchLines(text);
    if lines == [] then Failure(EmptyPatch)
    else
      var coerced := Coerced(lines);
      if coerced == [] then Failure(EmptyPatch) else ParsedDocument(coerced)
  }

  /** `parse`. */
  method Parse(text: string) returns (r: Result<Patch, ParseError>)
    ensures r == Parsed(text)
  {
    var lines := StripHeredoc(SplitLines(Strip(text)));
    if lines == [] {
      return Failure(EmptyPatch);
    }
    lines := CoerceLlmPatch(lines);
    if lines == [] {
      return Failure(EmptyPatch);
    }
    r := ParseDocument(lines);
  }

  /** The second half of `parse`, from the begin marker on. */
  method ParseDocument(lines: seq<string>) returns (r: Result<Patch, ParseError>)
    ensures r == ParsedDocument(lines)
  {
    var startIdx := 0;
    var endIdx := |lines|;
    if lines != [] && Strip(lines[0]) == BeginPatch {
      startIdx := 1;
    }
    if endIdx > startIdx && IsEndPatchMarker(lines[endIdx - 1]) {
      endIdx := endIdx - 1;
    }
    assert startIdx == ContentStart(lines) && endIdx == ContentEnd(lines);
    r := ParseContent(lines[startIdx..endIdx], startIdx);
  }

  /** The hunk loop of `parse` and the check after it, on content that starts at line `offset + 1`. */
  method ParseContent(content: seq<string>, offset: nat) returns (r: Result<Patch, ParseError>)
    ensures r == Shifted(ParsedContent(content), offset)
  {
    var collected := CollectHunks(content, offset);
    if collected.Failure? {
      return Failure(collected.error);
    }
    var (hunks, idx) := collected.value;
    if hunks == [] {
      return Failure(NoFilesModified);
    }
    var trailing := CheckTrailing(content, idx, offset);
    if trailing.Some? {
      return Failure(trailing.value);
    }
    return Success(Patch(hunks));
  }

  /** The hunk loop of `parse`. */
  method CollectHunks(content: seq<string>, offset: nat) returns (r: Result<(seq<Hunk>, nat), ParseError>)
    ensures r == Shifted(CollectedHunks(content, 0, []), offset)
  {
    var idx := 0;
    var hunks: seq<Hunk> := [];
    while idx < |content|
      invariant idx <= |content|
      invariant CollectedHunks(content, 0, []) == CollectedHunks(content, idx, hunks)
      decreases |content| - idx
    {
      var step := HunkLoopBody(content, idx, offset, hunks);
      if step.Finish? {
        return step.result;
      }
      idx, hunks := step.next, step.acc;
    }
    return Success((hunks, idx));
  }

  /** The body of that loop, at index `idx`. */
  method HunkLoopBody(content: seq<string>, idx: nat, offset: nat, hunks: seq<Hunk>) returns (step: LoopStep<Hunk>)
    requires idx < |content|
    ensures step == ShiftedStep(HunkStep(content, idx, hunks), offset)
  {
    if IsBlank(content[idx]) {
      return GoOn(idx + 1, hunks);
    }
    if IsEndPatchMarker(content[idx]) {
      return Finish(Success((hunks, idx)));
    }
    step := NextHunk(content, idx, offset, hunks);
  }

  /** The rest of that body, on a line that must open a hunk. */
  method NextHunk(content: seq<string>, idx: nat, offset: nat, hunks: seq<Hunk>) returns (step: LoopStep<Hunk>)
    requires idx < |content|
    ensures step == ShiftedStep(ParsedStep(Shifted(ParsedHunk(content[idx..]), idx + 1), idx, hunks), offset)
  {
    var parsed := ParseOneHunk(content[idx..], idx + offset + 1);
    ShiftedTwice(ParsedHunk(content[idx..]), idx + 1, offset, idx + offset + 1);
    ParsedStepShift(Shifted(ParsedHunk(content[idx..]), idx + 1), idx, hunks, offset);
    if parsed.Failure? {
      return Finish(Failure(parsed.error));
    }
    return GoOn(idx + parsed.value.1, hunks + [parsed.value.0]);
  }

  /** The loop of `parse` that rejects anything but blank lines and end markers after the hunks. */
  method CheckTrailing(content: seq<string>, from: nat, offset: nat) returns (r: Option<ParseError>)
    requires from <= |content|
    ensures r == ShiftedOption(TrailingError(content, from), offset)
  {
    var idx := from;
    while idx < |content|
      invariant from <= idx <= |content|
      invariant TrailingError(content, from) == TrailingError(content, idx)
    {
      if IsBlank(content[idx]) || IsEndPatchMarker(content[idx]) {
        idx := idx + 1;
        continue;
      }
      return Some(InvalidHunkHeader(idx + offset + 1, content[idx]));
    }
    return None;
  }
}
