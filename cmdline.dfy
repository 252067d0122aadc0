/**
 * Command-line handling of Generals/Code/Main/WinMain.cpp:
 *
 *  - `nextParam`, a `strtok`-like tokeniser with a static cursor that writes
 *    NUL bytes into the caller's buffer and treats a leading separator as an
 *    opening delimiter (so `"a b"` is one token);
 *  - the loop in `WinMain` that turns the command line into `argv[1..19]` and
 *    notices `-win`;
 *  - the loop that cuts the module file name at its last backslash.
 *
 * C strings are `seq<char>` snapshots of a `char` array; a C pointer into the
 * array is an index, NULL is `None`.
 */
module CommandLine {
  import opened Wrappers

  const NUL: char := '\0'

  /** The separators WinMain passes to `nextParam`: a double quote and a space. */
  const ArgSeparators: seq<char> := ['"', ' ']

  // ---------------------------------------------------------------------
  // C strings.

  /** `from + strlen(s + from)`: the first NUL at or after `from`, or `|s|`. */
  function StrEnd(s: seq<char>, from: nat): (e: nat)
    requires from <= |s|
    ensures from <= e <= |s|
    ensures forall j :: from <= j < e ==> s[j] != NUL
    ensures e < |s| ==> s[e] == NUL
    decreases |s| - from
  {
    if from == |s| || s[from] == NUL then from else StrEnd(s, from + 1)
  }

  /** The C string that starts at index `from`. */
  function CString(s: seq<char>, from: nat): seq<char>
    requires from <= |s|
  {
    s[from..StrEnd(s, from)]
  }

  /** A buffer holding C strings: its last byte is a NUL, so every string in it ends. */
  predicate Terminated(s: seq<char>)
  {
    |s| > 0 && s[|s| - 1] == NUL
  }

  lemma {:induction false} TerminatedStrEnd(s: seq<char>, from: nat)
    requires Terminated(s) && from < |s|
    ensures StrEnd(s, from) < |s|
    decreases |s| - from
  {
    if s[from] != NUL {
      TerminatedStrEnd(s, from + 1);
    }
  }

  /**
   * `strpbrk(s + from, chars)`: the first index of the C string at `from`
   * whose character is one of `chars`, or NULL when there is none.
   */
  function FindFirst(s: seq<char>, from: nat, chars: seq<char>): (r: Option<nat>)
    requires from <= |s|
    ensures r.Some? ==> from <= r.value < StrEnd(s, from) && s[r.value] in chars
    ensures forall j :: from <= j < (if r.Some? then r.value else StrEnd(s, from)) ==> s[j] !in chars
    decreases |s| - from
  {
    if from == |s| || s[from] == NUL then None
    else if s[from] in chars then Some(from)
    else FindFirst(s, from + 1, chars)
  }

  /** Where `while (*first == c) first++` stops when started at `from`. */
  function SkipRun(s: seq<char>, from: nat, c: char): (r: nat)
    requires from <= |s|
    ensures from <= r <= |s|
    ensures forall j :: from <= j < r ==> s[j] == c
    ensures r < |s| ==> s[r] != c
    decreases |s| - from
  {
    if from < |s| && s[from] == c then SkipRun(s, from + 1, c) else from
  }

  /** `*end = 0` when there is an end. */
  function Terminate(s: seq<char>, end: Option<nat>): seq<char>
  {
    if end.Some? && end.value < |s| then s[end.value := NUL] else s
  }

  // ---------------------------------------------------------------------
  // One call of nextParam on a buffer snapshot.

  /**
   * The outcome of one `nextParam` step: where the token text starts, the
   * returned pointer (NULL for an empty token), the terminator that is
   * overwritten by NUL, and the new value of the static cursor.
   */
  datatype Scan = Scan(start: nat, token: Option<nat>, terminator: Option<nat>, next: Option<nat>)

  /** What `nextParam` demands: a terminated buffer, a cursor inside it, separators without NUL. */
  predicate ScanInput(s: seq<char>, pos: nat, seps: seq<char>)
  {
    Terminated(s) && pos < |s| && NUL !in seps
  }

  /**
   * One step of `nextParam` with the cursor at `pos`. If the text starts with a
   * separator `c`, the whole run of `c` is skipped and the token ends at the
   * next `c` only; otherwise it ends at the next separator.
   */
  function NextParamScan(s: seq<char>, pos: nat, seps: seq<char>): (r: Scan)
    requires ScanInput(s, pos, seps)
    ensures pos <= r.start <= StrEnd(s, pos) < |s|
    ensures r.terminator.Some? ==> r.start < r.terminator.value < StrEnd(s, pos)
    ensures r.token.Some? ==> r.token.value == r.start
    ensures r.next.Some? ==> r.terminator.Some? && r.next.value == r.terminator.value + 1
  {
    TerminatedStrEnd(s, pos);
    ScanFrom(s, pos, pos, LeadingSeparator(s, pos, seps), seps)
  }

  /** `firstChar[0]`: the separator the text at `pos` starts with, or NUL. */
  function LeadingSeparator(s: seq<char>, pos: nat, seps: seq<char>): char
    requires pos <= |s|
  {
    if FindFirst(s, pos, seps) == Some(pos) then s[pos] else NUL
  }

  /**
   * The rest of the step from `first`: while the text is at the leading
   * separator `c`, move on; then find the end (the next `c`, or the next
   * separator when there is no leading one) and decide the result.
   */
  function ScanFrom(s: seq<char>, pos: nat, first: nat, c: char, seps: seq<char>): (r: Scan)
    requires ScanInput(s, pos, seps) && pos <= first <= StrEnd(s, pos)
    requires c == NUL ==> FindFirst(s, first, seps) != Some(first)
    ensures first <= r.start <= StrEnd(s, pos) < |s|
    ensures r.terminator.Some? ==> r.start < r.terminator.value < StrEnd(s, pos)
    ensures r.token.Some? ==> r.token.value == r.start
    ensures r.next.Some? ==> r.terminator.Some? && r.next.value == r.terminator.value + 1
    decreases |s| - first
  {
    TerminatedStrEnd(s, pos);
    if c != NUL && s[first] == c then
      ScanFrom(s, pos, first + 1, c, seps)
    else
      StrEndFrom(s, pos, first);
      var end := FindFirst(s, first, if c != NUL then [c] else seps);
      var next := if end.Some? && s[end.value + 1] != NUL then Some(end.value + 1) else None;
      var token := if s[first] != NUL then Some(first) else None;
      Scan(first, token, end, next)
  }

  /**
   * The step spelled out: the run of the leading separator is skipped, the
   * end is searched from there, and the characters after the end and at the
   * start decide the new cursor and the returned pointer. (The source reads
   * them after writing the NUL; the written byte is neither of them.)
   */
  lemma NextParamScanExplicit(s: seq<char>, pos: nat, seps: seq<char>)
    requires ScanInput(s, pos, seps)
    ensures var c := LeadingSeparator(s, pos, seps);
            var first := if c != NUL then SkipRun(s, pos, c) else pos;
            var r := NextParamScan(s, pos, seps);
            && first <= StrEnd(s, pos)
            && r.start == first
            && r.terminator == FindFirst(s, first, if c != NUL then [c] else seps)
            && r.token == (if s[first] != NUL then Some(first) else None)
            && r.next == (if r.terminator.Some? && s[r.terminator.value + 1] != NUL then Some(r.terminator.value + 1) else None)
  {
    TerminatedStrEnd(s, pos);
    var c := LeadingSeparator(s, pos, seps);
    if c != NUL {
      ScanFromSkipsRun(s, pos, pos, c, seps);
    }
  }

  lemma {:induction false} ScanFromSkipsRun(s: seq<char>, pos: nat, first: nat, c: char, seps: seq<char>)
    requires ScanInput(s, pos, seps) && pos <= first <= StrEnd(s, pos) && c != NUL
    ensures SkipRun(s, first, c) <= StrEnd(s, pos)
    ensures ScanFrom(s, pos, first, c, seps) == ScanFrom(s, pos, SkipRun(s, first, c), c, seps)
    decreases |s| - first
  {
    TerminatedStrEnd(s, pos);
    if s[first] == c {
      ScanFromSkipsRun(s, pos, first + 1, c, seps);
    }
  }

  /** Moving forward inside a C string does not move its end. */
  lemma {:induction false} StrEndFrom(s: seq<char>, a: nat, b: nat)
    requires a <= |s| && a <= b <= StrEnd(s, a)
    ensures StrEnd(s, b) == StrEnd(s, a)
    decreases b - a
  {
    if a < b {
      StrEndFrom(s, a + 1, b);
    }
  }

  /** The buffer after the step: the terminator, if any, is now NUL. */
  function Written(s: seq<char>, r: Scan): seq<char>
  {
    Terminate(s, r.terminator)
  }

  /**
   * `after`, `token` and `next` are what one step from `pos` leaves: the
   * buffer with its terminator cleared, the returned pointer and the cursor.
   */
  ghost predicate Stepped(before: seq<char>, pos: nat, seps: seq<char>, token: Option<nat>, next: Option<nat>, after: seq<char>)
  {
    ScanInput(before, pos, seps) &&
    var r := NextParamScan(before, pos, seps);
    token == r.token && next == r.next && after == Written(before, r)
  }

  /** The text the returned pointer designates, empty for NULL. */
  function TokenText(s: seq<char>, pos: nat, seps: seq<char>): seq<char>
    requires ScanInput(s, pos, seps)
  {
    var r := NextParamScan(s, pos, seps);
    if r.token.Some? then CString(Written(s, r), r.token.value) else []
  }

  /**
   * The text of a token runs from its start to its terminator, or to the end
   * of the string when there is none.
   */
  lemma TokenTextExtent(s: seq<char>, pos: nat, seps: seq<char>)
    requires ScanInput(s, pos, seps)
    ensures var r := NextParamScan(s, pos, seps);
            var stop := if r.terminator.Some? then r.terminator.value else StrEnd(s, pos);
            r.token.Some? ==> TokenText(s, pos, seps) == s[r.start..stop]
  {
    var r := NextParamScan(s, pos, seps);
    var w := Written(s, r);
    var stop := if r.terminator.Some? then r.terminator.value else StrEnd(s, pos);
    if r.token.Some? {
      TerminatedStrEnd(s, pos);
      StrEndFrom(s, pos, r.start);
      StrEndUpTo(w, r.start, stop);
    }
  }

  /** A string whose first NUL is at `stop` ends there. */
  lemma {:induction false} StrEndUpTo(s: seq<char>, from: nat, stop: nat)
    requires from <= stop < |s| && s[stop] == NUL
    requires forall j :: from <= j < stop ==> s[j] != NUL
    ensures StrEnd(s, from) == stop
    decreases stop - from
  {
    if from < stop {
      StrEndUpTo(s, from + 1, stop);
    }
  }

  /**
   * A token that does not start with a separator starts at the cursor and
   * ends just before the first separator; none of its characters is a
   * separator.
   */
  lemma PlainToken(s: seq<char>, pos: nat, seps: seq<char>)
    requires ScanInput(s, pos, seps)
    requires s[pos] != NUL && s[pos] !in seps
    ensures var r := NextParamScan(s, pos, seps);
            var t := TokenText(s, pos, seps);
            && r.token == Some(pos)
            && r.terminator == FindFirst(s, pos, seps)
            && (r.terminator.Some? ==> s[r.terminator.value] in seps && r.terminator.value == pos + |t|)
            && (forall j :: 0 <= j < |t| ==> t[j] !in seps)
  {
    NextParamScanExplicit(s, pos, seps);
    TokenTextExtent(s, pos, seps);
  }

  /**
   * A token that starts with a separator `c`: the run of `c` is skipped, the
   * token then stops only at the next `c`, and it contains no `c`. So a
   * quote-led token keeps its spaces and a space-led one stops at a space.
   */
  lemma SeparatorLedToken(s: seq<char>, pos: nat, seps: seq<char>)
    requires ScanInput(s, pos, seps)
    requires s[pos] in seps
    ensures var c := s[pos];
            var f := SkipRun(s, pos, c);
            var r := NextParamScan(s, pos, seps);
            var t := TokenText(s, pos, seps);
            && r.start == f
            && pos < f
            && (forall j :: pos <= j < f ==> s[j] == c)
            && s[f] != c
            && r.terminator == FindFirst(s, f, [c])
            && (r.terminator.Some? ==> s[r.terminator.value] == c)
            && (forall j :: 0 <= j < |t| ==> t[j] != c)
  {
    var c := s[pos];
    assert FindFirst(s, pos, seps) == Some(pos);
    var r := NextParamScan(s, pos, seps);
    NextParamScanExplicit(s, pos, seps);
    TokenTextExtent(s, pos, seps);
    var t := TokenText(s, pos, seps);
    if r.token.Some? {
      TerminatedStrEnd(s, pos);
      StrEndFrom(s, pos, r.start);
      var stop := if r.terminator.Some? then r.terminator.value else StrEnd(s, pos);
      SliceAvoids(s, r.start, stop, c);
    }
  }

  lemma SliceAvoids(s: seq<char>, a: nat, b: nat, c: char)
    requires a <= b <= |s|
    requires forall j :: a <= j < b ==> s[j] != c
    ensures forall j :: 0 <= j < b - a ==> s[a..b][j] != c
  {
  }

  /**
   * The terminator becomes the cursor's predecessor: the cursor moves one past
   * it, or becomes NULL when that is the end of the string. Without a
   * terminator the cursor becomes NULL and the token is the rest of the string.
   */
  lemma TerminatorHandling(s: seq<char>, pos: nat, seps: seq<char>)
    requires ScanInput(s, pos, seps)
    ensures var r := NextParamScan(s, pos, seps);
            && (r.terminator.Some? ==>
                  Written(s, r) == s[r.terminator.value := NUL]
                  && r.next == (if s[r.terminator.value + 1] == NUL then None else Some(r.terminator.value + 1)))
            && (r.terminator.None? ==>
                  Written(s, r) == s
                  && r.next.None?
                  && TokenText(s, pos, seps) == s[r.start..StrEnd(s, pos)])
  {
    NextParamScanExplicit(s, pos, seps);
    TokenTextExtent(s, pos, seps);
    var r := NextParamScan(s, pos, seps);
    if r.terminator.None? && r.token.None? {
      TerminatedStrEnd(s, pos);
      StrEndFrom(s, pos, r.start);
    }
  }

  /** An empty token is reported as NULL, never as an empty string. */
  lemma EmptyTokenIsNull(s: seq<char>, pos: nat, seps: seq<char>)
    requires ScanInput(s, pos, seps)
    ensures var r := NextParamScan(s, pos, seps);
            && (r.token.Some? ==> |TokenText(s, pos, seps)| > 0)
            && (r.token.None? <==> CString(Written(s, r), r.start) == [])
  {
    var r := NextParamScan(s, pos, seps);
    var w := Written(s, r);
    NextParamScanExplicit(s, pos, seps);
    TerminatedStrEnd(s, pos);
  }

  /** `"a b" c`: the quoted token keeps its space and the cursor moves past the closing quote. */
  lemma QuotedTokenKeepsSpaces()
    ensures var s := ['"', 'a', ' ', 'b', '"', ' ', 'c', NUL];
            TokenText(s, 0, ArgSeparators) == ['a', ' ', 'b']
            && NextParamScan(s, 0, ArgSeparators).next == Some(5)
  {
    var s := ['"', 'a', ' ', 'b', '"', ' ', 'c', NUL];
    assert FindFirst(s, 0, ArgSeparators) == Some(0);
    assert SkipRun(s, 0, '"') == 1 by {
      assert SkipRun(s, 1, '"') == 1;
    }
    assert FindFirst(s, 4, ['"']) == Some(4);
    assert FindFirst(s, 3, ['"']) == Some(4);
    assert FindFirst(s, 2, ['"']) == Some(4);
    assert FindFirst(s, 1, ['"']) == Some(4);
    NextParamScanExplicit(s, 0, ArgSeparators);
    TokenTextExtent(s, 0, ArgSeparators);
  }

  /** ` x"y z`: a space-led token stops at the next space, not at the quote. */
  lemma SpaceLedTokenStopsAtSpace()
    ensures var s := [' ', 'x', '"', 'y', ' ', 'z', NUL];
            TokenText(s, 0, ArgSeparators) == ['x', '"', 'y']
  {
    var s := [' ', 'x', '"', 'y', ' ', 'z', NUL];
    assert FindFirst(s, 0, ArgSeparators) == Some(0);
    assert SkipRun(s, 0, ' ') == 1 by {
      assert SkipRun(s, 1, ' ') == 1;
    }
    assert FindFirst(s, 4, [' ']) == Some(4);
    assert FindFirst(s, 3, [' ']) == Some(4);
    assert FindFirst(s, 2, [' ']) == Some(4);
    assert FindFirst(s, 1, [' ']) == Some(4);
    NextParamScanExplicit(s, 0, ArgSeparators);
    TokenTextExtent(s, 0, ArgSeparators);
  }

  // ---------------------------------------------------------------------
  // The tokeniser with its static cursor.

  /** The state `nextParam` keeps between calls: the static `source` pointer. */
  class ParamTokenizer {
    /** The buffer `source` points into (the last non-NULL `newSource`). */
    var buffer: array?<char>
    /** The static `source`: an index into `buffer`, or NULL. */
    var source: Option<nat>

    ghost predicate Valid()
      reads this, buffer
    {
      && (buffer != null ==> Terminated(buffer[..]))
      && (source.Some? ==> buffer != null && source.value < buffer.Length)
    }

    /** `static char *source = NULL;` */
    constructor()
      ensures Valid()
      ensures buffer == null && source.None?
    {
      buffer := null;
      source := None;
    }

    /**
     * `nextParam(newSource, seps)`. A non-NULL `newSource` restarts at the
     * start of that buffer; with a NULL cursor the result is NULL and nothing
     * changes; otherwise one step of `NextParamScan` is taken, the terminator
     * is overwritten with NUL in the buffer and the cursor moves on.
     */
    method NextParam(newSource: array?<char>, seps: seq<char>) returns (token: Option<nat>)
      requires Valid()
      requires newSource != null ==> Terminated(newSource[..])
      requires NUL !in seps
      modifies this, if newSource != null then newSource else buffer
      ensures Valid()
      ensures buffer == (if newSource != null then newSource else old(buffer))
      ensures newSource == null && old(source).None? ==>
                token.None? && source.None? && (buffer != null ==> buffer[..] == old(buffer[..]))
      ensures newSource != null ==> Stepped(old(newSource[..]), 0, seps, token, source, buffer[..])
      ensures newSource == null && old(source).Some? ==>
                Stepped(old(buffer[..]), old(source).value, seps, token, source, buffer[..])
    {
      if newSource != null {
        buffer := newSource;
        source := Some(0);
      }
      if source.None? {
        return None;
      }
      token, source := ScanStep(buffer, source.value, seps);
      StepKeepsTerminated(old(if newSource != null then newSource else buffer)[..], if newSource != null then 0 else old(source).value, seps);
    }
  }

  /** A step leaves the buffer terminated and the cursor inside it. */
  lemma StepKeepsTerminated(s: seq<char>, pos: nat, seps: seq<char>)
    requires ScanInput(s, pos, seps)
    ensures var r := NextParamScan(s, pos, seps);
            && Terminated(Written(s, r))
            && |Written(s, r)| == |s|
            && (r.next.Some? ==> r.next.value < |s|)
  {
  }

  /**
   * The body of `nextParam` once the cursor is known to be non-NULL: skip a
   * leading run of one separator, find the end, cut the token there.
   */
  method ScanStep(s: array<char>, pos: nat, seps: seq<char>) returns (token: Option<nat>, next: Option<nat>)
    requires ScanInput(s[..], pos, seps)
    modifies s
    ensures Stepped(old(s[..]), pos, seps, token, next, s[..])
  {
    ghost var s0 := s[..];
    ghost var r := NextParamScan(s0, pos, seps);
    NextParamScanExplicit(s0, pos, seps);
    TerminatedStrEnd(s0, pos);
    var first := pos;
    var firstSep := FindFirst(s[..], first, seps);
    var c := NUL;
    if firstSep == Some(first) {
      c := s[first];
      first := SkipSeparators(s, first, c);
    }
    assert first == r.start;
    var end := if c != NUL then FindFirst(s[..], first, [c]) else FindFirst(s[..], first, seps);
    assert end == r.terminator;
    if end.Some? {
      next := Some(end.value + 1);
      s[end.value] := NUL;
      assert s[..] == Written(s0, r);
      if s[end.value + 1] == NUL {
        next := None;
      }
    } else {
      next := None;
    }
    token := if s[first] != NUL then Some(first) else None;
  }

  /** `while (*first == c) first++;` in a terminated buffer, for a `c` other than NUL. */
  method SkipSeparators(s: array<char>, from: nat, c: char) returns (first: nat)
    requires Terminated(s[..]) && from < s.Length && c != NUL
    ensures first == SkipRun(s[..], from, c) && first < s.Length
  {
    first := from;
    while s[first] == c
      invariant from <= first < s.Length
      invariant SkipRun(s[..], from, c) == SkipRun(s[..], first, c)
      decreases s.Length - first
    {
      first := first + 1;
    }
  }

  // ---------------------------------------------------------------------
  // Successive calls.

  /**
   * The tokens successive calls return from cursor `cursor` on, up to the
   * first NULL; each call sees the buffer as the previous one left it.
   */
  function Tokens(s: seq<char>, cursor: Option<nat>, seps: seq<char>): (ts: seq<seq<char>>)
    requires Terminated(s) && NUL !in seps
    requires cursor.Some? ==> cursor.value < |s|
    ensures forall i :: 0 <= i < |ts| ==> |ts[i]| > 0 && NUL !in ts[i]
    decreases if cursor.Some? then |s| - cursor.value else 0
  {
    if cursor.None? then []
    else
      var r := NextParamScan(s, cursor.value, seps);
      var w := Written(s, r);
      if r.token.None? then []
      else
        EmptyTokenIsNull(s, cursor.value, seps);
        CStringHasNoNul(w, r.token.value);
        [CString(w, r.token.value)] + Tokens(w, r.next, seps)
  }

  lemma CStringHasNoNul(s: seq<char>, from: nat)
    requires from <= |s|
    ensures NUL !in CString(s, from)
  {
    var t := CString(s, from);
    forall j | 0 <= j < |t|
      ensures t[j] != NUL
    {
      assert t[j] == s[from + j];
    }
  }

  /** The command-line buffer and the static cursor `source` between calls. */
  datatype ScanState = ScanState(buffer: seq<char>, source: Option<nat>)

  /**
   * One call `nextParam(NULL, seps)`: with a NULL cursor nothing changes;
   * otherwise one step is taken and its terminator is written.
   */
  function Call(s: seq<char>, cursor: Option<nat>, seps: seq<char>): (r: ScanState)
    requires Terminated(s) && NUL !in seps
    requires cursor.Some? ==> cursor.value < |s|
    ensures Terminated(r.buffer) && |r.buffer| == |s|
    ensures r.source.Some? ==> r.source.value < |s|
    ensures cursor.None? ==> r == ScanState(s, None)
  {
    if cursor.None? then ScanState(s, None)
    else
      var r := NextParamScan(s, cursor.value, seps);
      StepKeepsTerminated(s, cursor.value, seps);
      ScanState(Written(s, r), r.next)
  }

  /** The buffer and the cursor after `n` calls `nextParam(NULL, seps)` from `cursor`. */
  function AfterCalls(s: seq<char>, cursor: Option<nat>, seps: seq<char>, n: nat): (r: ScanState)
    requires Terminated(s) && NUL !in seps
    requires cursor.Some? ==> cursor.value < |s|
    ensures Terminated(r.buffer) && |r.buffer| == |s|
    ensures r.source.Some? ==> r.source.value < |s|
    ensures cursor.None? ==> r == ScanState(s, None)
    decreases n
  {
    if n == 0 then ScanState(s, cursor)
    else
      var st := Call(s, cursor, seps);
      AfterCalls(st.buffer, st.source, seps, n - 1)
  }

  /** `n` calls and then one more are `n + 1` calls. */
  lemma {:induction false} AfterCallsStep(s: seq<char>, cursor: Option<nat>, seps: seq<char>, n: nat)
    requires Terminated(s) && NUL !in seps
    requires cursor.Some? ==> cursor.value < |s|
    ensures var mid := AfterCalls(s, cursor, seps, n);
            AfterCalls(s, cursor, seps, n + 1) == Call(mid.buffer, mid.source, seps)
    decreases n
  {
    if n > 0 {
      var st := Call(s, cursor, seps);
      AfterCallsStep(st.buffer, st.source, seps, n - 1);
    }
  }

  /** One call and then `n` more are `n + 1` calls. */
  lemma AfterFirstCall(s: seq<char>, seps: seq<char>, n: nat)
    requires Terminated(s) && NUL !in seps
    ensures var first := Call(s, Some(0), seps);
            AfterCalls(s, Some(0), seps, n + 1) == AfterCalls(first.buffer, first.source, seps, n)
  {
  }

  /** A step that returns NULL also leaves the cursor NULL: the string is used up. */
  lemma NullTokenEndsScan(s: seq<char>, pos: nat, seps: seq<char>)
    requires ScanInput(s, pos, seps)
    ensures NextParamScan(s, pos, seps).token.None? ==> NextParamScan(s, pos, seps).next.None?
  {
    NextParamScanExplicit(s, pos, seps);
  }

  /**
   * One call more than there are tokens leaves the cursor NULL: once
   * `nextParam` has returned NULL, the command line is used up.
   */
  lemma {:induction false} CallsExhaustTokens(s: seq<char>, cursor: Option<nat>, seps: seq<char>)
    requires Terminated(s) && NUL !in seps
    requires cursor.Some? ==> cursor.value < |s|
    ensures AfterCalls(s, cursor, seps, |Tokens(s, cursor, seps)| + 1).source.None?
    decreases if cursor.Some? then |s| - cursor.value else 0
  {
    if cursor.Some? {
      var r := NextParamScan(s, cursor.value, seps);
      StepKeepsTerminated(s, cursor.value, seps);
      if r.token.None? {
        NullTokenEndsScan(s, cursor.value, seps);
      } else {
        CallsExhaustTokens(Written(s, r), r.next, seps);
      }
    }
  }

  /** `stricmp`'s per-character folding: ASCII upper case to lower case. */
  function ToLowerAscii(c: char): char
  {
    if 'A' <= c <= 'Z' then (c as int + 32) as char else c
  }

  /** `stricmp(a, b) == 0`. */
  predicate EqualsIgnoreCase(a: seq<char>, b: seq<char>)
  {
    |a| == |b| && forall i :: 0 <= i < |a| ==> ToLowerAscii(a[i]) == ToLowerAscii(b[i])
  }

  /** The token that asks for a windowed application. */
  predicate IsWindowedFlag(t: seq<char>)
  {
    EqualsIgnoreCase(t, ['-', 'w', 'i', 'n'])
  }

  lemma WindowedFlagIgnoresCase()
    ensures IsWindowedFlag(['-', 'W', 'i', 'N'])
    ensures !IsWindowedFlag(['-', 'w', 'i', 'n', 'd'])
    ensures !IsWindowedFlag(['w', 'i', 'n'])
  {
  }

  function Min(a: int, b: int): int { if a <= b then a else b }

  /**
   * The argv loop of WinMain: `argv[0]` is NULL, then at most 19 tokens of
   * the command line, each passed through `strtrim`, until the first NULL
   * token; the application is windowed iff one of the collected tokens is
   * `-win` in any case. `strtrim` is the parameter `trim`.
   */
  method CollectArguments(tok: ParamTokenizer, cmdLine: array<char>, trim: seq<char> -> seq<char>)
    returns (argv: array<Option<seq<char>>>, argc: nat, windowed: bool)
    requires tok.Valid()
    requires Terminated(cmdLine[..])
    modifies tok, cmdLine
    ensures fresh(argv) && argv.Length == 20
    ensures var ts := Tokens(old(cmdLine[..]), Some(0), ArgSeparators);
            && argc == 1 + Min(|ts|, 19)
            && argv[0].None?
            && (forall i :: 1 <= i < argc ==> argv[i] == Some(trim(ts[i - 1])))
            && (windowed <==> exists i :: 0 <= i < argc - 1 && IsWindowedFlag(ts[i]))
    ensures tok.Valid() && tok.buffer == cmdLine
    ensures ScanState(cmdLine[..], tok.source) == AfterCalls(old(cmdLine[..]), Some(0), ArgSeparators, argc)
    ensures argc < 20 ==> tok.source.None?
  {
    argv := new Option<seq<char>>[20](_ => None);
    argv[0] := None;
    ghost var s0 := cmdLine[..];
    ghost var ts := Tokens(cmdLine[..], Some(0), ArgSeparators);
    var token := FirstArgument(tok, cmdLine);
    ghost var first := ScanState(cmdLine[..], tok.source);
    argc, windowed := StoreArguments(tok, cmdLine, trim, argv, token, ts);
    AnyWindowedPrefix(ts, argc - 1);
    ArgvLoopState(s0, first, ScanState(cmdLine[..], tok.source), argc - 1);
  }

  /**
   * The state the argv loop leaves: the first call and the loop's `k` calls
   * are `k + 1` calls from the start; after one call per token and one more,
   * the cursor is NULL.
   */
  lemma ArgvLoopState(s: seq<char>, first: ScanState, final: ScanState, k: nat)
    requires Terminated(s)
    requires first == Call(s, Some(0), ArgSeparators)
    requires final == AfterCalls(first.buffer, first.source, ArgSeparators, k)
    ensures final == AfterCalls(s, Some(0), ArgSeparators, k + 1)
    ensures k == |Tokens(s, Some(0), ArgSeparators)| ==> final.source.None?
  {
    AfterFirstCall(s, ArgSeparators, k);
    CallsExhaustTokens(s, Some(0), ArgSeparators);
  }

  /**
   * `while (argc < 20 && token != NULL)`: store the pending token and fetch
   * the next one, until `argv` is full or the tokens run out.
   */
  method StoreArguments(tok: ParamTokenizer, cmdLine: array<char>, trim: seq<char> -> seq<char>,
                        argv: array<Option<seq<char>>>, token0: Option<nat>, ghost ts: seq<seq<char>>)
    returns (argc: nat, windowed: bool)
    requires tok.Valid() && tok.buffer == cmdLine
    requires Pending(cmdLine[..], tok.source, ArgSeparators, token0, ts)
    requires argv.Length == 20 && argv[0].None?
    modifies tok, cmdLine, argv
    ensures Collected(argv, argc, windowed, trim, ts)
    ensures argc == 1 + Min(|ts|, 19)
    ensures tok.Valid() && tok.buffer == cmdLine
    ensures ScanState(cmdLine[..], tok.source) == AfterCalls(old(cmdLine[..]), old(tok.source), ArgSeparators, argc - 1)
  {
    argc := 1;
    windowed := false;
    var token := token0;
    if token.None? {
      NoTokensLeft(cmdLine[..], tok.source, ts, 0);
    }
    ghost var s0, c0 := cmdLine[..], tok.source;
    while argc < 20 && token.Some?
      invariant tok.Valid() && tok.buffer == cmdLine
      invariant argc - 1 <= |ts|
      invariant token.None? ==> argc - 1 == |ts|
      invariant Pending(cmdLine[..], tok.source, ArgSeparators, token, ts[argc - 1..])
      invariant Collected(argv, argc, windowed, trim, ts)
      invariant ScanState(cmdLine[..], tok.source) == AfterCalls(s0, c0, ArgSeparators, argc - 1)
      decreases 20 - argc
    {
      argc, windowed, token := StoreNext(tok, cmdLine, trim, argv, argc, windowed, token, ts, s0, c0);
    }
  }

  /** One pass of the loop body: store the pending token, then fetch the next. */
  method StoreNext(tok: ParamTokenizer, cmdLine: array<char>, trim: seq<char> -> seq<char>,
                   argv: array<Option<seq<char>>>, argc: nat, windowed: bool, token: Option<nat>, ghost ts: seq<seq<char>>,
                   ghost s0: seq<char>, ghost c0: Option<nat>)
    returns (argc': nat, windowed': bool, token': Option<nat>)
    requires tok.Valid() && tok.buffer == cmdLine && token.Some? && 1 <= argc < 20 && argc - 1 <= |ts|
    requires Pending(cmdLine[..], tok.source, ArgSeparators, token, ts[argc - 1..])
    requires Collected(argv, argc, windowed, trim, ts)
    requires Terminated(s0) && (c0.Some? ==> c0.value < |s0|)
    requires ScanState(cmdLine[..], tok.source) == AfterCalls(s0, c0, ArgSeparators, argc - 1)
    modifies tok, cmdLine, argv
    ensures tok.Valid() && tok.buffer == cmdLine
    ensures argc' == argc + 1 && argc' - 1 <= |ts|
    ensures Pending(cmdLine[..], tok.source, ArgSeparators, token', ts[argc' - 1..])
    ensures token'.None? ==> argc' - 1 == |ts|
    ensures Collected(argv, argc', windowed', trim, ts)
    ensures ScanState(cmdLine[..], tok.source) == AfterCalls(s0, c0, ArgSeparators, argc' - 1)
  {
    var text := CString(cmdLine[..], token.value);
    PendingHead(cmdLine[..], tok.source, token, ts, argc - 1);
    windowed' := StoreArgument(argv, argc, windowed, text, trim, ts);
    token' := NextArgument(tok, cmdLine, token, ts[argc - 1..], s0, c0, argc - 1);
    DropOne(ts, argc - 1);
    argc' := argc + 1;
    if token'.None? {
      NoTokensLeft(cmdLine[..], tok.source, ts, argc' - 1);
    }
  }

  /** The pending token is the next of the tokens still to store. */
  lemma PendingHead(s: seq<char>, cursor: Option<nat>, token: Option<nat>, ts: seq<seq<char>>, k: nat)
    requires k <= |ts| && token.Some?
    requires Pending(s, cursor, ArgSeparators, token, ts[k..])
    ensures k < |ts| && token.value < |s| && CString(s, token.value) == ts[k]
  {
    assert ts[k..][0] == ts[k];
  }

  /** With no pending token, every token has been stored. */
  lemma NoTokensLeft(s: seq<char>, cursor: Option<nat>, ts: seq<seq<char>>, k: nat)
    requires k <= |ts|
    requires Pending(s, cursor, ArgSeparators, None, ts[k..])
    ensures k == |ts|
  {
    assert |ts[k..]| == 0;
  }

  /**
   * What the loop has stored after `argc - 1` tokens: `argv[0]` is NULL, the
   * trimmed tokens follow, and `windowed` records whether one was `-win`.
   */
  ghost predicate Collected(argv: array<Option<seq<char>>>, argc: nat, windowed: bool, trim: seq<char> -> seq<char>, ts: seq<seq<char>>)
    reads argv
  {
    && argv.Length == 20
    && 1 <= argc <= 20 && argc - 1 <= |ts|
    && argv[0].None?
    && (forall i :: 1 <= i < argc ==> argv[i] == Some(trim(ts[i - 1])))
    && (windowed <==> AnyWindowed(ts[..argc - 1]))
  }

  /**
   * `argv[argc++] = strtrim(token)` and the `-win` test on the token text
   * `text`, the next of the tokens `ts`.
   */
  method StoreArgument(argv: array<Option<seq<char>>>, argc: nat, windowed: bool, text: seq<char>,
                       trim: seq<char> -> seq<char>, ghost ts: seq<seq<char>>)
    returns (nowWindowed: bool)
    requires Collected(argv, argc, windowed, trim, ts)
    requires argc < 20 && argc - 1 < |ts| && text == ts[argc - 1]
    modifies argv
    ensures Collected(argv, argc + 1, nowWindowed, trim, ts)
  {
    argv[argc] := Some(trim(text));
    nowWindowed := windowed;
    if EqualsIgnoreCase(text, ['-', 'w', 'i', 'n']) {
      nowWindowed := true;
    }
    assert ts[..argc][..argc - 1] == ts[..argc - 1];
  }

  /** `token = nextParam(lpCmdLine, "\" ")`: the cursor restarts at the command line. */
  method FirstArgument(tok: ParamTokenizer, cmdLine: array<char>) returns (token: Option<nat>)
    requires tok.Valid() && Terminated(cmdLine[..])
    modifies tok, cmdLine
    ensures tok.Valid() && tok.buffer == cmdLine
    ensures Pending(cmdLine[..], tok.source, ArgSeparators, token, Tokens(old(cmdLine[..]), Some(0), ArgSeparators))
    ensures ScanState(cmdLine[..], tok.source) == Call(old(cmdLine[..]), Some(0), ArgSeparators)
  {
    token := tok.NextParam(cmdLine, ArgSeparators);
    PendingAfterFirstStep(old(cmdLine[..]), ArgSeparators, token, tok.source, cmdLine[..]);
  }

  /**
   * `token = nextParam(NULL, "\" ")` inside the loop: the pending token has
   * been stored and the next call yields the one after it.
   */
  method NextArgument(tok: ParamTokenizer, cmdLine: array<char>, token: Option<nat>, ghost rest: seq<seq<char>>,
                      ghost s0: seq<char>, ghost c0: Option<nat>, ghost k: nat)
    returns (next: Option<nat>)
    requires tok.Valid() && tok.buffer == cmdLine && token.Some?
    requires Pending(cmdLine[..], tok.source, ArgSeparators, token, rest)
    requires Terminated(s0) && (c0.Some? ==> c0.value < |s0|)
    requires ScanState(cmdLine[..], tok.source) == AfterCalls(s0, c0, ArgSeparators, k)
    modifies tok, cmdLine
    ensures tok.Valid() && tok.buffer == cmdLine && |rest| > 0
    ensures Pending(cmdLine[..], tok.source, ArgSeparators, next, rest[1..])
    ensures ScanState(cmdLine[..], tok.source) == Call(old(cmdLine[..]), old(tok.source), ArgSeparators)
    ensures ScanState(cmdLine[..], tok.source) == AfterCalls(s0, c0, ArgSeparators, k + 1)
  {
    ghost var before := cmdLine[..];
    ghost var cursor := tok.source;
    next := tok.NextParam(null, ArgSeparators);
    PendingAfterStep(before, cursor, ArgSeparators, token, rest, next, tok.source, cmdLine[..]);
    AfterCallsStep(s0, c0, ArgSeparators, k);
  }

  /** Whether one of `ts` is `-win`, decided element by element as the loop does. */
  predicate AnyWindowed(ts: seq<seq<char>>)
  {
    |ts| > 0 && (AnyWindowed(ts[..|ts| - 1]) || IsWindowedFlag(ts[|ts| - 1]))
  }

  /** `AnyWindowed` of a prefix is the existence of a `-win` in it. */
  lemma {:induction false} AnyWindowedPrefix(ts: seq<seq<char>>, n: nat)
    requires n <= |ts|
    ensures AnyWindowed(ts[..n]) <==> exists i :: 0 <= i < n && IsWindowedFlag(ts[i])
  {
    if n > 0 {
      AnyWindowedPrefix(ts, n - 1);
      assert ts[..n][..n - 1] == ts[..n - 1];
      assert ts[..n][n - 1] == ts[n - 1];
    }
  }

  /**
   * `rest` is what the loop has still to store: the pending token (if the last
   * call returned one) followed by the tokens later calls return.
   */
  ghost predicate Pending(s: seq<char>, cursor: Option<nat>, seps: seq<char>, token: Option<nat>, rest: seq<seq<char>>)
  {
    && Terminated(s) && NUL !in seps
    && (cursor.Some? ==> cursor.value < |s|)
    && (token.None? ==> rest == [])
    && (token.Some? ==> token.value < |s| && rest == [CString(s, token.value)] + Tokens(s, cursor, seps))
  }

  lemma PendingAfterFirstStep(s: seq<char>, seps: seq<char>, token: Option<nat>, next: Option<nat>, after: seq<char>)
    requires Stepped(s, 0, seps, token, next, after)
    ensures Pending(after, next, seps, token, Tokens(s, Some(0), seps))
  {
    TokensAfterStep(s, 0, seps, token, next, after);
  }

  /** Taking the pending token and calling `nextParam` again keeps `Pending` for the remainder. */
  lemma PendingAfterStep(before: seq<char>, cursor: Option<nat>, seps: seq<char>, pending: Option<nat>, rest: seq<seq<char>>,
                         token: Option<nat>, next: Option<nat>, after: seq<char>)
    requires Pending(before, cursor, seps, pending, rest) && pending.Some?
    requires cursor.None? ==> token.None? && next.None? && after == before
    requires cursor.Some? ==> Stepped(before, cursor.value, seps, token, next, after)
    ensures |rest| > 0 && Pending(after, next, seps, token, rest[1..])
  {
    if cursor.Some? {
      TokensAfterStep(before, cursor.value, seps, token, next, after);
    }
  }

  lemma DropOne<T>(a: seq<T>, k: nat)
    requires k < |a|
    ensures a[k..][1..] == a[k + 1..]
  {
  }

  /** One call of `nextParam` takes the first of the remaining tokens. */
  lemma TokensAfterStep(before: seq<char>, pos: nat, seps: seq<char>, token: Option<nat>, next: Option<nat>, after: seq<char>)
    requires Stepped(before, pos, seps, token, next, after)
    ensures Terminated(after) && |after| == |before|
    ensures token.Some? ==> token.value < |after|
    ensures next.Some? ==> next.value < |after|
    ensures Tokens(before, Some(pos), seps) ==
              if token.None? then [] else [CString(after, token.value)] + Tokens(after, next, seps)
  {
    StepKeepsTerminated(before, pos, seps);
  }

  // ---------------------------------------------------------------------
  // The module path.

  /** The largest index in `1 .. hi` holding a backslash; index 0 is never looked at. */
  function LastBackslash(s: seq<char>, hi: nat): (r: Option<nat>)
    requires hi < |s|
    ensures r.Some? ==> 1 <= r.value <= hi && s[r.value] == '\\'
    ensures forall j :: (if r.Some? then r.value else 0) < j <= hi ==> s[j] != '\\'
    decreases hi
  {
    if hi == 0 then None
    else if s[hi] == '\\' then Some(hi)
    else LastBackslash(s, hi - 1)
  }

  /** The module path after the backward scan: its last backslash (past index 0) becomes NUL. */
  function TrimmedPath(s: seq<char>): seq<char>
    requires StrEnd(s, 0) < |s|
  {
    match LastBackslash(s, StrEnd(s, 0))
    case Some(i) => s[i := NUL]
    case None => s
  }

  /**
   * The scan in WinMain that starts at the terminating NUL of the module file
   * name and walks back to index 1, cutting the string at the first backslash
   * met.
   */
  method TrimModulePath(buffer: array<char>)
    requires StrEnd(buffer[..], 0) < buffer.Length
    modifies buffer
    ensures buffer[..] == TrimmedPath(old(buffer[..]))
  {
    ghost var s := buffer[..];
    var pEnd := StrEnd(buffer[..], 0);
    while pEnd != 0
      invariant 0 <= pEnd <= StrEnd(s, 0)
      invariant buffer[..] == s
      invariant LastBackslash(s, StrEnd(s, 0)) == LastBackslash(s, pEnd)
      decreases pEnd
    {
      if buffer[pEnd] == '\\' {
        buffer[pEnd] := NUL;
        break;
      }
      pEnd := pEnd - 1;
    }
  }

  /**
   * The trimmed path is the directory: the text before the last backslash,
   * which has no other backslash after it. A path without a backslash past
   * index 0 is left unchanged.
   */
  lemma TrimmedPathIsDirectory(s: seq<char>)
    requires StrEnd(s, 0) < |s|
    ensures var e := StrEnd(s, 0);
            match LastBackslash(s, e)
            case Some(i) =>
              && CString(TrimmedPath(s), 0) == s[..i]
              && s[i] == '\\'
              && (forall j :: i < j < e ==> s[j] != '\\')
            case None =>
              && TrimmedPath(s) == s
              && (forall j :: 1 <= j < e ==> s[j] != '\\')
  {
    var e := StrEnd(s, 0);
    match LastBackslash(s, e)
    case Some(i) =>
      StrEndUpTo(TrimmedPath(s), 0, i);
    case None =>
  }

  /** A leading backslash is never examined: `\abc` is not cut. */
  lemma LeadingBackslashKept()
    ensures var s := ['\\', 'a', 'b', NUL];
            StrEnd(s, 0) == 3 && TrimmedPath(s) == s
  {
    var s := ['\\', 'a', 'b', NUL];
    StrEndUpTo(s, 0, 3);
  }
}
