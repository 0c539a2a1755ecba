/**
 * Properties of the patch parser: why the begin and end markers are optional, which
 * texts are empty patches, and how chunk bodies and `@@` markers read.
 */
module ParserProperties {
  import opened Results
  import opened PyText
  import opened Models
  import opened PatchParser

  // ---------------------------------------------------------------------------
  // The begin and end markers are optional
  // ---------------------------------------------------------------------------

  lemma MarkersAreTrimmed()
    ensures Strip(BeginPatch) == BeginPatch && Strip(EndPatch) == EndPatch
    ensures IsEndPatchMarker(EndPatch) && BeginPatch != EndPatch
  {
    StripTrimmed(BeginPatch);
    StripTrimmed(EndPatch);
  }

  /** With a begin marker in front, the content lines are the same, one line further down. */
  lemma BeginMarkerContent(c: seq<string>)
    requires c == [] || Strip(c[0]) != BeginPatch
    ensures ContentStart([BeginPatch] + c) == 1 && ContentStart(c) == 0
    ensures ([BeginPatch] + c)[1..ContentEnd([BeginPatch] + c)] == c[..ContentEnd(c)]
  {
    MarkersAreTrimmed();
    var lines := [BeginPatch] + c;
    assert lines[1..] == c;
    if c != [] {
      assert lines[|lines| - 1] == c[|c| - 1];
    }
  }

  /**
   * Leaving out `*** Begin Patch` parses the same patch; an error is reported one
   * line earlier, since the lines after the marker move up by one.
   */
  lemma BeginMarkerOptional(c: seq<string>)
    requires c == [] || Strip(c[0]) != BeginPatch
    ensures ParsedDocument([BeginPatch] + c) == Shifted(ParsedDocument(c), 1)
  {
    BeginMarkerContent(c);
    ShiftedTwice(ParsedContent(c[..ContentEnd(c)]), 0, 1, 1);
  }

  /** Leaving out a final `*** End Patch` parses the same patch, errors included. */
  lemma EndMarkerOptional(c: seq<string>)
    requires c == [] || !IsEndPatchMarker(c[|c| - 1])
    ensures ParsedDocument(c + [EndPatch]) == ParsedDocument(c)
  {
    MarkersAreTrimmed();
    var lines := c + [EndPatch];
    if c != [] {
      assert lines[0] == c[0];
    }
    assert ContentStart(lines) == ContentStart(c);
    assert ContentEnd(lines) == |c| == ContentEnd(c);
    assert lines[ContentStart(lines)..ContentEnd(lines)] == c[ContentStart(c)..ContentEnd(c)];
  }

  // ---------------------------------------------------------------------------
  // Empty patches and patches without hunks
  // ---------------------------------------------------------------------------

  /** Text that is only whitespace is an empty patch. */
  lemma BlankTextIsEmptyPatch(text: string)
    requires AllSpace(text)
    ensures Parsed(text) == Failure(EmptyPatch)
  {
    StripSpec(text);
  }

  /**
   * "Empty patch" is reported exactly when every line left after trimming the text and
   * removing a here-document wrapper is blank.
   */
  lemma EmptyPatchIff(text: string)
    ensures Parsed(text) == Failure(EmptyPatch) <==>
      forall k :: 0 <= k < |PatchLines(text)| ==> IsBlank(PatchLines(text)[k])
  {
    var lines := PatchLines(text);
    if lines != [] {
      CoercedEmpty(lines);
    }
  }

  /** The hunk loop over content holding only blank lines and end markers finds no hunk. */
  lemma {:induction false} NoHunksInMarkers(content: seq<string>, idx: nat)
    requires idx <= |content|
    requires forall k :: idx <= k < |content| ==> IsBlank(content[k]) || IsEndPatchMarker(content[k])
    ensures CollectedHunks(content, idx, []).Success?
    ensures CollectedHunks(content, idx, []).value.0 == []
    decreases |content| - idx
  {
    if idx < |content| && IsBlank(content[idx]) {
      NoHunksInMarkers(content, idx + 1);
    }
  }

  /** A document with nothing but a begin marker, blank lines and end markers modifies no file. */
  lemma OnlyMarkersModifyNothing(lines: seq<string>)
    requires lines != [] ==> IsBlank(lines[0]) || IsEndPatchMarker(lines[0]) || Strip(lines[0]) == BeginPatch
    requires forall k :: 0 < k < |lines| ==> IsBlank(lines[k]) || IsEndPatchMarker(lines[k])
    ensures ParsedDocument(lines) == Failure(NoFilesModified)
  {
    var start := ContentStart(lines);
    var content := lines[start..ContentEnd(lines)];
    forall k | 0 <= k < |content|
      ensures IsBlank(content[k]) || IsEndPatchMarker(content[k])
    {
      assert content[k] == lines[start + k];
    }
    NoHunksInMarkers(content, 0);
  }

  /**
   * After the trailing blank lines are gone, a last `+*** End Patch` becomes
   * `*** End Patch`, and so does a `+*** End Patch` followed by a lone `+`, which is
   * dropped; any other lines stay as they are.
   */
  lemma CoercedEndMarker(lines: seq<string>)
    ensures var t := TrimTrailingBlank(lines);
      Coerced(lines) ==
        if t != [] && Strip(t[|t| - 1]) == "+" + EndPatch then t[..|t| - 1] + [EndPatch]
        else if |t| >= 2 && Strip(t[|t| - 2]) == "+" + EndPatch && Strip(t[|t| - 1]) == "+" then t[..|t| - 2] + [EndPatch]
        else t
  {
    var t := TrimTrailingBlank(lines);
    if t != [] && Strip(t[|t| - 1]) == "+" + EndPatch {
      assert t[|t| - 1 := EndPatch] == t[..|t| - 1] + [EndPatch];
    } else if |t| >= 2 && Strip(t[|t| - 2]) == "+" + EndPatch && Strip(t[|t| - 1]) == "+" {
      assert t[..|t| - 1][|t| - 2 := EndPatch] == t[..|t| - 2] + [EndPatch];
    }
  }

  /**
   * A `+` line of an Add hunk whose text is not a hunk header or the end marker (such
   * as `+*** this is not a header`) keeps its `+` and does not end the hunk: it is
   * content.
   */
  lemma PlusContentStays(t: string)
    requires t != [] && t[0] != '+' && !IsSpace(t[0]) && !IsSpace(t[|t| - 1])
    requires !StartsWith(t, AddFileMarker) && !StartsWith(t, DeleteFileMarker) && !StartsWith(t, UpdateFileMarker)
    requires t != EndPatch
    ensures MaybeStripPlusesFromHunkHeader("+" + t) == "+" + t
    ensures !EndsAddBody("+" + t)
  {
    var line := "+" + t;
    StripTrimmed(line);
    StripTrimmed(t);
    assert line[1..] == t;
    assert LeadingPluses(line, MaxPluses) == 1 by {
      assert LeadingPluses(t, MaxPluses - 1) == 0;
    }
    assert LStrip(t) == t;
    assert !IsHunkHeader(t);
    assert StripPrefixedMarker(line) == t;
    MarkersAreTrimmed();
    assert !IsEndPatchMarker(line) by { assert line != EndPatch by { assert line[0] != EndPatch[0]; } }
  }

  /**
   * The lines after an Add header are the texts `ts` written as `+` lines: no text
   * starts with `+`, and no written line ends the body.
   */
  predicate AddRendered(lines: seq<string>, ts: seq<string>) {
    && |lines| == |ts| + 1
    && forall k :: 0 <= k < |ts| ==> lines[1..][k] == "+" + ts[k] && !StartsWith(ts[k], "+") && !EndsAddBody(lines[1..][k])
  }

  /**
   * The `+` lines of an Add hunk read back as its content: the scan from index `i`
   * collects exactly the texts from there on and stops at the end of the lines.
   */
  lemma AddBodyRendered(lines: seq<string>, ts: seq<string>, i: nat, acc: seq<string>)
    requires AddRendered(lines, ts) && 1 <= i <= |lines|
    ensures AddBody(lines, i, acc) == (acc + ts[i - 1..], |lines|)
  {
    assert lines[..|ts| + 1] == lines;
    AddBodyPrefix(lines, ts, i, acc);
  }

  /** The facts `AddRendered` gives about line `k + 1`. */
  lemma AddRenderedAt(lines: seq<string>, ts: seq<string>, k: nat)
    requires AddRendered(lines, ts) && k < |ts|
    ensures lines[k + 1] == "+" + ts[k] && !StartsWith(ts[k], "+") && !EndsAddBody(lines[k + 1])
  {
    assert lines[1..][k] == lines[k + 1];
  }

  /** Collecting `s[k]` and then the rest is collecting from `k` on. */
  lemma AppendAt<T>(acc: seq<T>, s: seq<T>, k: nat)
    requires k < |s|
    ensures (acc + [s[k]]) + s[k + 1..] == acc + s[k..]
  {
    assert s[k..] == [s[k]] + s[k + 1..];
  }

  /** One `+` line of an Add body that does not end it contributes its text. */
  lemma AddBodyStep(lines: seq<string>, i: nat, acc: seq<string>, t: string)
    requires i < |lines| && lines[i] == "+" + t && !StartsWith(t, "+") && !EndsAddBody(lines[i])
    ensures AddBody(lines, i, acc) == AddBody(lines, i + 1, acc + [t])
  {
    assert StartsWith(lines[i], "+") && lines[i][1..] == t;
  }

  /**
   * An Add hunk written as `+` lines takes all of them, and its content is their texts,
   * each ended by a newline (empty for no lines).
   */
  lemma AddHunkRendered(lines: seq<string>, ts: seq<string>, first: string)
    requires StartsWith(first, AddFileMarker) && AddRendered(lines, ts)
    ensures AddHunk(lines, first) == (AddFile(Strip(first[|AddFileMarker|..]), AddedText(ts)), |lines|)
  {
    AddBodyRendered(lines, ts, 1, []);
    assert [] + ts[0..] == ts;
  }

  /**
   * `+` lines followed by a line that ends the Add body or does not start with `+`: the
   * scan collects the texts and stops at that line without consuming it.
   */
  lemma AddBodyToTerminator(lines: seq<string>, ts: seq<string>, acc: seq<string>)
    requires |ts| + 1 < |lines| && AddRendered(lines[..|ts| + 1], ts)
    requires EndsAddBody(lines[|ts| + 1]) || !StartsWith(lines[|ts| + 1], "+")
    ensures AddBody(lines, 1, acc) == (acc + ts, |ts| + 1)
  {
    AddBodyPrefix(lines, ts, 1, acc);
    assert ts[0..] == ts;
  }

  /** `+` lines followed by more lines: the scan collects their texts and goes on after them. */
  lemma {:induction false} AddBodyPrefix(lines: seq<string>, ts: seq<string>, i: nat, acc: seq<string>)
    requires |ts| + 1 <= |lines| && AddRendered(lines[..|ts| + 1], ts) && 1 <= i <= |ts| + 1
    ensures AddBody(lines, i, acc) == AddBody(lines, |ts| + 1, acc + ts[i - 1..])
    decreases |ts| + 1 - i
  {
    if i == |ts| + 1 {
      assert acc + ts[i - 1..] == acc;
    } else {
      AddRenderedPrefixAt(lines, ts, i - 1);
      AddBodyStep(lines, i, acc, ts[i - 1]);
      AddBodyPrefix(lines, ts, i + 1, acc + [ts[i - 1]]);
      AppendAt(acc, ts, i - 1);
    }
  }

  /** The facts `AddRendered` on the first `|ts| + 1` lines gives about line `k + 1`. */
  lemma AddRenderedPrefixAt(lines: seq<string>, ts: seq<string>, k: nat)
    requires |ts| + 1 <= |lines| && AddRendered(lines[..|ts| + 1], ts) && k < |ts|
    ensures lines[k + 1] == "+" + ts[k] && !StartsWith(ts[k], "+") && !EndsAddBody(lines[k + 1])
  {
    AddRenderedAt(lines[..|ts| + 1], ts, k);
    assert lines[..|ts| + 1][k + 1] == lines[k + 1];
  }

  /** An Add hunk followed by more of the patch ends at the first line that is not its content. */
  lemma AddHunkToTerminator(lines: seq<string>, ts: seq<string>, first: string)
    requires StartsWith(first, AddFileMarker)
    requires |ts| + 1 < |lines| && AddRendered(lines[..|ts| + 1], ts)
    requires EndsAddBody(lines[|ts| + 1]) || !StartsWith(lines[|ts| + 1], "+")
    ensures AddHunk(lines, first) == (AddFile(Strip(first[|AddFileMarker|..]), AddedText(ts)), |ts| + 1)
  {
    AddBodyToTerminator(lines, ts, []);
    assert [] + ts == ts;
  }

  /**
   * A chunk must consume a body line after its marker: it fails with the empty-chunk
   * error, on the line after its first, exactly when the body scan stops at once.
   */
  lemma ChunkNeedsBody(lines: seq<string>, allowMissingContext: bool)
    requires lines != []
    ensures var start := if ChunkStart(lines).Some? then 1 else 0;
      ParsedChunk(lines, allowMissingContext).Success? ==> ParsedChunk(lines, allowMissingContext).value.1 > start
    ensures var start := if ChunkStart(lines).Some? then 1 else 0;
      ChunkStart(lines).Some? || allowMissingContext ==>
        (ParsedChunk(lines, allowMissingContext) == Failure(EmptyChunk(1)) <==> ScanBody(lines, start, [], []).stop == start)
  {
  }

  /** A chunk made of an `@@` marker alone consumes no body line and is an error on the line after it. */
  lemma MarkerOnlyChunk(allowMissingContext: bool)
    ensures ParsedChunk(["@@"], allowMissingContext) == Failure(EmptyChunk(1))
    ensures ParsedChunk(["@@", "not a body line"], allowMissingContext) == Failure(EmptyChunk(1))
  {
    StripTrimmed("@@");
    assert NormalizedMarkerLine("@@") == "@@";
    assert ClassifyBodyLine("not a body line") == Stop by {
      StripTrimmed("not a body line");
    }
  }

  // ---------------------------------------------------------------------------
  // Chunks: markers and bodies
  // ---------------------------------------------------------------------------

  /**
   * After the first chunk of a file, a chunk without an `@@` marker is an error at its
   * line (counted from the hunk's header).
   */
  lemma LaterChunkNeedsMarker(lines: seq<string>, i: nat, chunks: seq<UpdateFileChunk>)
    requires i < |lines| && chunks != []
    requires !IsBlank(lines[i]) && !EndsUpdateBody(lines[i]) && ChunkStart(lines[i..]).None?
    ensures ChunkStep(lines, i, chunks) == Finish(Failure(MissingContextMarker(i, NormalizedMarkerLine(lines[i]))))
  {
    assert lines[i..][0] == lines[i];
  }

  /** The first chunk of a file may start straight with its body, without a marker. */
  lemma FirstChunkMayOmitMarker(lines: seq<string>, i: nat)
    requires i < |lines|
    requires !IsBlank(lines[i]) && !EndsUpdateBody(lines[i]) && ChunkStart(lines[i..]).None?
    requires ScanBody(lines[i..], 0, [], []).stop > 0
    ensures ChunkStep(lines, i, []).GoOn?
    ensures ChunkStep(lines, i, []).acc[0].changeContext.None?
  {
  }

  /** How a body line is written in a patch: `' '`, `'-'` or `'+'` before its text. */
  function RenderBodyLine(b: BodyLine): string
    requires b.Context? || b.Removed? || b.Added?
  {
    match b
    case Context(t) => " " + t
    case Removed(t) => "-" + t
    case Added(t) => "+" + t
  }

  /**
   * Reading a written body line gives it back, unless it reads as the end-of-file marker
   * or is an added line whose text starts with `+` (a doubled `+` is dropped).
   */
  lemma BodyLineRoundTrip(b: BodyLine)
    requires b.Context? || b.Removed? || b.Added?
    requires Strip(RenderBodyLine(b)) != EofMarker
    requires b.Added? ==> !StartsWith(b.text, "+")
    ensures ClassifyBodyLine(RenderBodyLine(b)) == b
  {
    var line := RenderBodyLine(b);
    assert line[1..] == b.text;
  }

  /** A doubled `+` marker reads as a single one. */
  lemma DoubledPlusIsAdded(t: string)
    requires Strip("++" + t) != EofMarker
    ensures ClassifyBodyLine("++" + t) == Added(t)
  {
    assert ("++" + t)[1..] == "+" + t;
    assert ("+" + t)[1..] == t;
  }

  /** The old side of a written chunk body: its context and removed lines. */
  function OldSide(bs: seq<BodyLine>): seq<string>
  {
    if bs == [] then []
    else
      match bs[0]
      case Context(t) => [t] + OldSide(bs[1..])
      case Removed(t) => [t] + OldSide(bs[1..])
      case _ => OldSide(bs[1..])
  }

  /** The new side of a written chunk body: its context and added lines. */
  function NewSide(bs: seq<BodyLine>): seq<string>
  {
    if bs == [] then []
    else
      match bs[0]
      case Context(t) => [t] + NewSide(bs[1..])
      case Added(t) => [t] + NewSide(bs[1..])
      case _ => NewSide(bs[1..])
  }

  /** A body line that reads back as itself. */
  predicate Writable(b: BodyLine) {
    (b.Context? || b.Removed? || b.Added?)
    && Strip(RenderBodyLine(b)) != EofMarker
    && (b.Added? ==> !StartsWith(b.text, "+"))
  }

  /**
   * Scanning the written form of body lines collects their old and new sides and stops
   * at the end of the lines.
   */
  lemma ScanRendered(lines: seq<string>, bs: seq<BodyLine>, i: nat, oldAcc: seq<string>, newAcc: seq<string>)
    requires |lines| == |bs| && i <= |bs|
    requires forall k :: 0 <= k < |bs| ==> Writable(bs[k]) && lines[k] == RenderBodyLine(bs[k])
    ensures ScanBody(lines, i, oldAcc, newAcc) == BodyScan(oldAcc + OldSide(bs[i..]), newAcc + NewSide(bs[i..]), false, |bs|)
  {
    ScanRenderedPrefix(lines, bs, i, oldAcc, newAcc);
  }

  /**
   * Written body lines followed by more lines: the scan collects their old and new sides
   * and goes on at the first line after them.
   */
  lemma {:induction false} ScanRenderedPrefix(lines: seq<string>, bs: seq<BodyLine>, i: nat, oldAcc: seq<string>, newAcc: seq<string>)
    requires |bs| <= |lines| && i <= |bs|
    requires forall k :: 0 <= k < |bs| ==> Writable(bs[k]) && lines[k] == RenderBodyLine(bs[k])
    ensures ScanBody(lines, i, oldAcc, newAcc) == ScanBody(lines, |bs|, oldAcc + OldSide(bs[i..]), newAcc + NewSide(bs[i..]))
    decreases |bs| - i
  {
    if i == |bs| {
      assert bs[i..] == [];
      assert oldAcc + OldSide(bs[i..]) == oldAcc && newAcc + NewSide(bs[i..]) == newAcc;
    } else {
      var b := bs[i];
      var o := if b.Added? then oldAcc else oldAcc + [b.text];
      var n := if b.Removed? then newAcc else newAcc + [b.text];
      BodyLineRoundTrip(b);
      ScanWritableStep(lines, i, oldAcc, newAcc, b);
      ScanRenderedPrefix(lines, bs, i + 1, o, n);
      SidesStep(bs, i, oldAcc, newAcc);
    }
  }

  /** One written body line: the scan adds its text to the sides it belongs to and goes on. */
  lemma ScanWritableStep(lines: seq<string>, i: nat, oldAcc: seq<string>, newAcc: seq<string>, b: BodyLine)
    requires i < |lines| && (b.Context? || b.Removed? || b.Added?) && ClassifyBodyLine(lines[i]) == b
    ensures ScanBody(lines, i, oldAcc, newAcc)
      == ScanBody(lines, i + 1, if b.Added? then oldAcc else oldAcc + [b.text], if b.Removed? then newAcc else newAcc + [b.text])
  {
  }

  /** The sides from `i` on are the sides of `bs[i]` followed by the sides from `i + 1` on. */
  lemma SidesStep(bs: seq<BodyLine>, i: nat, oldAcc: seq<string>, newAcc: seq<string>)
    requires i < |bs| && (bs[i].Context? || bs[i].Removed? || bs[i].Added?)
    ensures (if bs[i].Added? then oldAcc else oldAcc + [bs[i].text]) + OldSide(bs[i + 1..]) == oldAcc + OldSide(bs[i..])
    ensures (if bs[i].Removed? then newAcc else newAcc + [bs[i].text]) + NewSide(bs[i + 1..]) == newAcc + NewSide(bs[i..])
  {
    assert bs[i..][1..] == bs[i + 1..];
  }

  /** A written body ended by `*** End of File`: the marker is consumed and sets `isEndOfFile`. */
  lemma ScanToEof(lines: seq<string>, bs: seq<BodyLine>, oldAcc: seq<string>, newAcc: seq<string>)
    requires |bs| < |lines|
    requires forall k :: 0 <= k < |bs| ==> Writable(bs[k]) && lines[k] == RenderBodyLine(bs[k])
    requires ClassifyBodyLine(lines[|bs|]) == EndOfFile
    ensures ScanBody(lines, 0, oldAcc, newAcc) == BodyScan(oldAcc + OldSide(bs), newAcc + NewSide(bs), true, |bs| + 1)
  {
    ScanRenderedPrefix(lines, bs, 0, oldAcc, newAcc);
    assert bs[0..] == bs;
  }

  /** A written body ended by a line of no body shape: the scan stops there without consuming it. */
  lemma ScanToStop(lines: seq<string>, bs: seq<BodyLine>, oldAcc: seq<string>, newAcc: seq<string>)
    requires |bs| < |lines|
    requires forall k :: 0 <= k < |bs| ==> Writable(bs[k]) && lines[k] == RenderBodyLine(bs[k])
    requires ClassifyBodyLine(lines[|bs|]) == Stop
    ensures ScanBody(lines, 0, oldAcc, newAcc) == BodyScan(oldAcc + OldSide(bs), newAcc + NewSide(bs), false, |bs|)
  {
    ScanRenderedPrefix(lines, bs, 0, oldAcc, newAcc);
    assert bs[0..] == bs;
  }

  /** A raw empty line in a body is an empty context line: it adds `""` to both sides. */
  lemma BlankBodyLine(lines: seq<string>, i: nat, oldAcc: seq<string>, newAcc: seq<string>)
    requires i < |lines| && lines[i] == ""
    ensures ClassifyBodyLine("") == Context("")
    ensures ScanBody(lines, i, oldAcc, newAcc) == ScanBody(lines, i + 1, oldAcc + [""], newAcc + [""])
  {
    assert Strip("") == "" != EofMarker;
  }

  // ---------------------------------------------------------------------------
  // `@@` markers
  // ---------------------------------------------------------------------------

  /** A `+` or `++` written in front of an `@@` marker is dropped. */
  lemma PlusBeforeMarkerDropped(m: string)
    requires StartsWith(m, EmptyChangeContext)
    ensures NormalizedMarkerLine("+" + m) == m
    ensures NormalizedMarkerLine("++" + m) == m
  {
    assert ("+" + m)[1..] == m;
    assert ("++" + m)[2..] == m;
    assert ("+" + m)[..3] == "+" + m[..2];
    assert ("++" + m)[..4] == "++" + m[..2];
  }

  /** A bare `@@` carries no anchor. */
  lemma BareMarkerHasNoAnchor(line: string)
    requires Strip(line) == EmptyChangeContext
    ensures MarkerContext(line) == Some(None)
  {
  }

  /** A numeric range header after `@@ ` carries no anchor. */
  lemma RangeHeaderHasNoAnchor(h: string)
    requires IsRangeHeader(Strip(h))
    ensures MarkerContext(ChangeContextMarker + h) == Some(None)
  {
    assert (ChangeContextMarker + h)[|ChangeContextMarker|..] == h;
  }

  /** Any other text after `@@ ` is the anchor, trimmed. */
  lemma AnchorAfterMarker(h: string)
    requires Strip(h) != [] && !IsRangeHeader(Strip(h))
    ensures MarkerContext(ChangeContextMarker + h) == Some(Some(Strip(h)))
  {
    var line := ChangeContextMarker + h;
    assert line[|ChangeContextMarker|..] == h;
    StripSpec(h);
    var k := NonSpaceIndex(h);
    assert line[3 + k] == h[k];
    StripKeepsNonSpace(line, 3 + k);
  }

  /** An index of a non-whitespace character of text that is not all whitespace. */
  function NonSpaceIndex(s: string): (k: nat)
    requires !AllSpace(s)
    ensures k < |s| && !IsSpace(s[k])
  {
    if !IsSpace(s[0]) then 0 else 1 + NonSpaceIndex(s[1..])
  }

  /** Stripping text whose first character is not whitespace keeps at least up to its last non-whitespace character. */
  lemma StripKeepsNonSpace(s: string, k: nat)
    requires k < |s| && !IsSpace(s[0]) && !IsSpace(s[k])
    ensures |Strip(s)| > k
  {
    RStripSpec(s);
    var r := RStrip(s);
    if |r| <= k {
      AllSpaceAt(s[|r|..], k - |r|);
    }
  }

  /** The numeric range header written by unified diffs is recognised. */
  lemma RangeHeaderExamples()
    ensures IsRangeHeader("-21,6 +21,7 @@")
    ensures IsRangeHeader("-1 +1 @@")
    ensures !IsRangeHeader("def main() -> None:")
    ensures !IsRangeHeader("-21,6 +21,7")
  {
  }
}
