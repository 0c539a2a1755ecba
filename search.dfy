/**
 * `ContentSearcher.find_sequence(lines, pattern, start, is_end_of_file)`, the search the
 * chunk engine calls. Its implementation (search.py) is not part of this model: the
 * engine takes the search as a parameter, and what it may rely on is the contract
 * `SoundFinder`.
 */
module ContentSearch {
  import opened Results

  /** A search for `pattern` in `lines` from index `start` (the flag is the end-of-file hint). */
  type Finder = (seq<string>, seq<string>, nat, bool) -> Option<nat>

  /**
   * The contract of `find_sequence`: an index it returns is at or after `start`, and the
   * pattern fits in the lines from there.
   */
  ghost predicate SoundFinder(find: Finder) {
    forall lines: seq<string>, pattern: seq<string>, start: nat, eof: bool ::
      find(lines, pattern, start, eof).Some? ==>
        start <= find(lines, pattern, start, eof).value
        && find(lines, pattern, start, eof).value + |pattern| <= |lines|
  }

  /** `pattern` occurs in `lines` at index `i`. */
  predicate MatchesAt(lines: seq<string>, pattern: seq<string>, i: nat) {
    i + |pattern| <= |lines| && lines[i..i + |pattern|] == pattern
  }

  /**
   * Exact search for the first occurrence at or after `start`, ignoring the end-of-file
   * hint. One search that meets the contract, used for worked examples; it is not a
   * model of search.py.
   */
  function FirstMatch(lines: seq<string>, pattern: seq<string>, start: nat, eof: bool): (r: Option<nat>)
    ensures r.Some? ==> start <= r.value && MatchesAt(lines, pattern, r.value)
    ensures r.Some? ==> forall j :: start <= j < r.value ==> !MatchesAt(lines, pattern, j)
    decreases |lines| - start
  {
    if start + |pattern| > |lines| then None
    else if lines[start..start + |pattern|] == pattern then Some(start)
    else FirstMatch(lines, pattern, start + 1, eof)
  }

  /** `FirstMatch` finds an occurrence whenever there is one at or after `start`. */
  lemma {:induction false} FirstMatchComplete(lines: seq<string>, pattern: seq<string>, start: nat, eof: bool, i: nat)
    requires start <= i && MatchesAt(lines, pattern, i)
    ensures FirstMatch(lines, pattern, start, eof).Some?
    decreases |lines| - start
  {
    if start < i && lines[start..start + |pattern|] != pattern {
      FirstMatchComplete(lines, pattern, start + 1, eof, i);
    }
  }

  /** `FirstMatch` meets the contract of `find_sequence`. */
  lemma FirstMatchSound()
    ensures SoundFinder(FirstMatch)
  {
  }
}
