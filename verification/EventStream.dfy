/**
 Two incremental readers of server-sent event text, written independently: the
 Console cuts its buffer at blank lines, the operator CLI folds over single
 lines. Text is what the streaming decoder hands them; JSON is opaque, so a
 payload is the text given to the JSON parser.
 */
module EventStream {
  import JsText

  /** The text of all chunks read from one connection. */
  function Flatten(chunks: seq<string>): string {
    if chunks == [] then "" else Flatten(chunks[..|chunks| - 1]) + chunks[|chunks| - 1]
  }

  // ------------------------------------------------- cutting as text arrives

  /** Where the first piece of a text ends and the next one starts. */
  datatype Cut = NoCut | Cut(end: nat, next: nat)

  /** The pieces already complete, and the text that still waits for its end. */
  datatype CutText = CutText(pieces: seq<string>, rest: string)

  /** Cut the first piece off as long as there is one. */
  function CutAll(cut: string -> Cut, t: string): CutText
    decreases |t|
  {
    var c := cut(t);
    if c.Cut? && c.end < c.next <= |t| then
      var more := CutAll(cut, t[c.next..]);
      CutText([t[..c.end]] + more.pieces, more.rest)
    else CutText([], t)
  }

  /** A cut once found is still the first one however the text goes on. */
  ghost predicate Stable(cut: string -> Cut) {
    forall t: string, more: string :: cut(t).Cut? ==> cut(t + more) == cut(t)
  }

  /** Cutting may stop anywhere and go on later with what was left. */
  lemma {:induction false} CutAllAppend(cut: string -> Cut, t: string, more: string)
    requires Stable(cut)
    ensures CutAll(cut, t + more).pieces == CutAll(cut, t).pieces + CutAll(cut, CutAll(cut, t).rest + more).pieces
    ensures CutAll(cut, t + more).rest == CutAll(cut, CutAll(cut, t).rest + more).rest
    decreases |t|
  {
    var c := cut(t);
    if c.Cut? && c.end < c.next <= |t| {
      assert cut(t + more) == c;
      assert (t + more)[..c.end] == t[..c.end] && (t + more)[c.next..] == t[c.next..] + more;
      CutAllAppend(cut, t[c.next..], more);
    }
  }

  lemma FlattenNext(chunks: seq<string>, i: nat)
    requires i < |chunks|
    ensures Flatten(chunks[..i + 1]) == Flatten(chunks[..i]) + chunks[i]
  {
    assert chunks[..i + 1][..i] == chunks[..i];
  }

  lemma {:induction false} PiecesOfPrefix(cut: string -> Cut, chunks: seq<string>, i: nat)
    requires Stable(cut) && i <= |chunks|
    ensures CutAll(cut, Flatten(chunks[..i])).pieces <= CutAll(cut, Flatten(chunks)).pieces
    decreases |chunks|
  {
    if i < |chunks| {
      var front := chunks[..|chunks| - 1];
      assert front[..i] == chunks[..i];
      PiecesOfPrefix(cut, front, i);
      CutAllAppend(cut, Flatten(front), chunks[|chunks| - 1]);
    } else {
      assert chunks[..i] == chunks;
    }
  }

  // ---------------------------------------------------------------- lines

  /** The index of the first line feed from j on, or the length when there is none. */
  function LfFrom(t: string, j: nat): (i: nat)
    requires j <= |t|
    ensures j <= i <= |t|
    ensures i < |t| ==> t[i] == '\n'
    ensures forall k :: j <= k < i ==> t[k] != '\n'
    decreases |t| - j
  {
    if j == |t| || t[j] == '\n' then j else LfFrom(t, j + 1)
  }

  function FirstLf(t: string): nat {
    LfFrom(t, 0)
  }

  /** A line ends at its line feed, or at the carriage return right before it. */
  function LineCut(t: string): Cut {
    var i := FirstLf(t);
    if i == |t| then NoCut
    else Cut(if i > 0 && t[i - 1] == '\r' then i - 1 else i, i + 1)
  }

  lemma LineCutStable()
    ensures Stable(LineCut)
  {
    forall t: string, more: string | LineCut(t).Cut? ensures LineCut(t + more) == LineCut(t) {
      var i, j := FirstLf(t), FirstLf(t + more);
      assert (t + more)[i] == '\n';
      assert forall k :: 0 <= k < |t| ==> (t + more)[k] == t[k];
      assert i == j;
    }
  }

  /** Terminated lines, LF or CRLF, and the text after the last of them. */
  function SplitLines(t: string): CutText {
    CutAll(LineCut, t)
  }

  /** What splitting a text at its line ends gives, the last piece included. */
  function Pieces(t: string): seq<string> {
    SplitLines(t).pieces + [SplitLines(t).rest]
  }

  /** These are the lines of a text, each with its LF or CRLF behind it, and the text after the last of them. */
  ghost predicate Lined(t: string, lines: seq<string>, rest: string)
    decreases |lines|
  {
    if lines == [] then rest == t && '\n' !in t
    else
      var n := |lines[0]|;
      && '\n' !in lines[0] && lines[0] <= t
      && ((n < |t| && t[n] == '\n' && (n > 0 ==> t[n - 1] != '\r') && Lined(t[n + 1..], lines[1..], rest))
          || (n + 1 < |t| && t[n] == '\r' && t[n + 1] == '\n' && Lined(t[n + 2..], lines[1..], rest)))
  }

  lemma FirstLine(t: string, i: nat, le: nat)
    requires i == FirstLf(t) < |t| && LineCut(t) == Cut(le, i + 1)
    ensures le <= |t| && '\n' !in t[..le]
    ensures if le == i then t[i] == '\n' && (i > 0 ==> t[i - 1] != '\r') else le + 1 == i && t[le] == '\r' && t[i] == '\n'
  {
  }

  lemma LinedNext(t: string, n: nat, next: nat, lines: seq<string>, rest: string)
    requires n < next <= |t| && lines != [] && lines[0] == t[..n] && '\n' !in t[..n]
    requires if next == n + 1 then t[n] == '\n' && (n > 0 ==> t[n - 1] != '\r') else next == n + 2 && t[n] == '\r' && t[n + 1] == '\n'
    requires Lined(t[next..], lines[1..], rest)
    ensures Lined(t, lines, rest)
  {
  }

  lemma {:induction false} LinesAreLined(t: string)
    ensures Lined(t, SplitLines(t).pieces, SplitLines(t).rest)
    decreases |t|
  {
    var i := FirstLf(t);
    if i < |t| {
      var le, later := LineCut(t).end, SplitLines(t[i + 1..]);
      var lines := [t[..le]] + later.pieces;
      assert SplitLines(t) == CutText(lines, later.rest);
      LinesAreLined(t[i + 1..]);
      FirstLine(t, i, le);
      hide *;
      assert lines[0] == t[..le] && lines[1..] == later.pieces;
      LinedNext(t, le, i + 1, lines, later.rest);
    } else {
      assert SplitLines(t) == CutText([], t);
    }
  }

  // -------------------------------------------------------------- payloads

  function TrimStart(t: string): string {
    if t != "" && JsText.IsSpace(t[0]) then TrimStart(t[1..]) else t
  }

  /** What is left of a text without the white space at its start. */
  ghost predicate TrimsStart(t: string, r: string) {
    exists k :: 0 <= k <= |t| && SpaceUpTo(t, k) && r == t[k..]
  }

  /** White space before k, and none at k. */
  ghost predicate SpaceUpTo(t: string, k: nat)
    requires k <= |t|
  {
    (forall i :: 0 <= i < k ==> JsText.IsSpace(t[i])) && (k < |t| ==> !JsText.IsSpace(t[k]))
  }

  lemma SpaceLater(t: string, k: nat)
    requires t != "" && JsText.IsSpace(t[0]) && k < |t| && SpaceUpTo(t[1..], k)
    ensures SpaceUpTo(t, k + 1) && t[1..][k..] == t[k + 1..]
  {
    hide JsText.IsSpace;
    var later := t[1..];
    assert forall i :: 1 <= i < |t| ==> t[i] == later[i - 1];
  }

  lemma {:induction false} TrimStartTrims(t: string)
    ensures TrimsStart(t, TrimStart(t))
  {
    hide JsText.IsSpace;
    if t != "" && JsText.IsSpace(t[0]) {
      TrimStartTrims(t[1..]);
      hide SpaceUpTo;
      var k :| 0 <= k <= |t[1..]| && SpaceUpTo(t[1..], k) && TrimStart(t[1..]) == t[1..][k..];
      SpaceLater(t, k);
    } else {
      assert SpaceUpTo(t, 0) && t[0..] == t;
    }
  }

  predicate IsDataLine(line: string) {
    |line| >= 5 && line[0] == 'd' && line[1] == 'a' && line[2] == 't' && line[3] == 'a' && line[4] == ':'
  }

  function DataValue(line: string): string
    requires IsDataLine(line)
  {
    TrimStart(line[5..])
  }

  /** Values of the data lines, in order. */
  function DataValues(lines: seq<string>): seq<string> {
    if lines == [] then []
    else (if IsDataLine(lines[0]) then [DataValue(lines[0])] else []) + DataValues(lines[1..])
  }

  function Join(values: seq<string>): string {
    if values == [] then "" else if |values| == 1 then values[0] else values[0] + "\n" + Join(values[1..])
  }

  /** Where the k-th of these values starts when one character stands between two. */
  function Offset(values: seq<string>, k: nat): nat
    requires k <= |values|
  {
    if k == 0 then 0 else Offset(values, k - 1) + |values[k - 1]| + 1
  }

  /** The values in order, with one line feed between two. */
  ghost predicate Joins(values: seq<string>, text: string) {
    && |text| == (if values == [] then 0 else Offset(values, |values|) - 1)
    && forall k :: 0 <= k < |values| ==> StandsAt(text, values[k], Offset(values, k)) && (k > 0 ==> text[Offset(values, k) - 1] == '\n')
  }

  predicate StandsAt(text: string, value: string, at: nat) {
    at + |value| <= |text| && text[at..at + |value|] == value
  }

  lemma {:induction false} OffsetLater(values: seq<string>, k: nat)
    requires 0 < k <= |values|
    ensures Offset(values, k) == |values[0]| + 1 + Offset(values[1..], k - 1)
    decreases k
  {
    if k > 1 { OffsetLater(values, k - 1); }
  }

  lemma JoinNext(values: seq<string>)
    requires |values| > 1
    ensures Join(values) == (values[0] + "\n") + Join(values[1..])
  {
  }

  lemma {:induction false} JoinLength(values: seq<string>)
    requires values != []
    ensures |Join(values)| == Offset(values, |values|) - 1
    decreases |values|
  {
    OffsetLater(values, |values|);
    if |values| > 1 {
      JoinNext(values);
      JoinLength(values[1..]);
    }
  }

  lemma {:induction false} JoinPlace(values: seq<string>, k: nat)
    requires k < |values|
    ensures StandsAt(Join(values), values[k], Offset(values, k)) && (k > 0 ==> Join(values)[Offset(values, k) - 1] == '\n')
    decreases k
  {
    if |values| > 1 {
      var first, later := values[0] + "\n", values[1..];
      JoinNext(values);
      if k > 0 {
        JoinPlace(later, k - 1);
        OffsetLater(values, k);
        hide Join;
        StandsLater(first, Join(later), later[k - 1], Offset(later, k - 1));
      } else {
        assert values[0] <= first + Join(later);
      }
    }
  }

  lemma {:induction false} JoinJoins(values: seq<string>)
    ensures Joins(values, Join(values))
  {
    if values != [] { JoinLength(values); }
    forall k | 0 <= k < |values| ensures StandsAt(Join(values), values[k], Offset(values, k)) && (k > 0 ==> Join(values)[Offset(values, k) - 1] == '\n') {
      JoinPlace(values, k);
    }
    hide Offset; hide StandsAt;
  }

  lemma StandsLater(before: string, text: string, value: string, at: nat)
    requires StandsAt(text, value, at)
    ensures StandsAt(before + text, value, |before| + at)
  {
    assert (before + text)[|before| + at..|before| + at + |value|] == text[at..at + |value|];
  }

  // ------------------------------------------- the CLI reader, line by line

  /** Payloads dispatched so far and the data collected for the next one. */
  datatype LineState = LineState(payloads: seq<string>, data: seq<string>)

  function FeedLine(s: LineState, line: string): LineState {
    if IsDataLine(line) then s.(data := s.data + [DataValue(line)])
    else if line == "" && s.data != [] then LineState(s.payloads + [Join(s.data)], [])
    else s
  }

  function FeedLines(s: LineState, lines: seq<string>): LineState
    decreases |lines|
  {
    if lines == [] then s else FeedLines(FeedLine(s, lines[0]), lines[1..])
  }

  /** The reference: what one connection's whole text says, read line by line. */
  function Payloads(text: string): seq<string> {
    FeedLines(LineState([], []), SplitLines(text).pieces).payloads
  }

  lemma {:induction false} FeedLinesAppend(s: LineState, a: seq<string>, b: seq<string>)
    ensures FeedLines(s, a + b) == FeedLines(FeedLines(s, a), b)
    decreases |a|
  {
    if a == [] {
      assert a + b == b;
    } else {
      assert (a + b)[0] == a[0] && (a + b)[1..] == a[1..] + b;
      FeedLinesAppend(FeedLine(s, a[0]), a[1..], b);
    }
  }

  /** The payloads delivered before the first one the JSON parser refuses. */
  function Delivered(payloads: seq<string>, isJson: string -> bool): seq<string> {
    if payloads == [] || !isJson(payloads[0]) then [] else [payloads[0]] + Delivered(payloads[1..], isJson)
  }

  /** The longest beginning in which every payload is accepted. */
  ghost predicate Longest(good: seq<string>, payloads: seq<string>, isJson: string -> bool) {
    && good <= payloads && (forall p :: p in good ==> isJson(p))
    && (good != payloads ==> !isJson(payloads[|good|]))
  }

  lemma {:induction false} DeliveredIsLongest(payloads: seq<string>, isJson: string -> bool)
    ensures Longest(Delivered(payloads, isJson), payloads, isJson)
  {
    if payloads != [] && isJson(payloads[0]) { DeliveredIsLongest(payloads[1..], isJson); }
  }

  lemma {:induction false} DeliveredAppend(a: seq<string>, b: seq<string>, isJson: string -> bool)
    ensures Delivered(a + b, isJson)
         == if Delivered(a, isJson) == a then a + Delivered(b, isJson) else Delivered(a, isJson)
  {
    if a == [] {
      assert a + b == b;
    } else {
      assert (a + b)[0] == a[0] && (a + b)[1..] == a[1..] + b;
      DeliveredAppend(a[1..], b, isJson);
    }
  }

  lemma {:induction false} FeedLinesKeepsPayloads(s: LineState, lines: seq<string>)
    ensures s.payloads <= FeedLines(s, lines).payloads
    decreases |lines|
  {
    if lines != [] { FeedLinesKeepsPayloads(FeedLine(s, lines[0]), lines[1..]); }
  }

  lemma {:induction false} DeliveredStops(payloads: seq<string>, good: seq<string>, isJson: string -> bool)
    requires good < payloads && Delivered(good, isJson) == good && !isJson(payloads[|good|])
    ensures Delivered(payloads, isJson) == good
    decreases |good|
  {
    if good != [] { DeliveredStops(payloads[1..], good[1..], isJson); }
  }

  lemma {:induction false} PayloadsOfPrefix(s: LineState, some: seq<string>, all: seq<string>)
    requires some <= all
    ensures FeedLines(s, some).payloads <= FeedLines(s, all).payloads
    decreases |some|
  {
    if some == [] {
      FeedLinesKeepsPayloads(s, all);
    } else {
      PayloadsOfPrefix(FeedLine(s, some[0]), some[1..], all[1..]);
    }
  }

  /** Once a payload is refused, nothing the text says later is delivered. */
  lemma Refused(text: string, lines: seq<string>, good: seq<string>, bad: string, isJson: string -> bool)
    requires lines <= SplitLines(text).pieces
    requires FeedLines(LineState([], []), lines).payloads == good + [bad]
    requires Delivered(good, isJson) == good && !isJson(bad)
    ensures Delivered(Payloads(text), isJson) == good != Payloads(text)
  {
    PayloadsOfPrefix(LineState([], []), lines, SplitLines(text).pieces);
    assert (good + [bad])[|good|] == bad;
    DeliveredStops(Payloads(text), good, isJson);
  }

  /** The CLI reader's loop over the lines of one read; `used` is how many it handled before a refusal. */
  method ConsumeLines(start: LineState, lines: seq<string>, isJson: string -> bool)
    returns (written: seq<string>, data: seq<string>, refused: bool, used: nat)
    requires Delivered(start.payloads, isJson) == start.payloads
    ensures Delivered(written, isJson) == written && used <= |lines|
    ensures !refused ==> LineState(written, data) == FeedLines(start, lines)
    ensures refused ==> !isJson(Join(data)) && FeedLines(start, lines[..used]).payloads == written + [Join(data)]
  {
    written, data, refused, used := start.payloads, start.data, false, 0;
    while used < |lines|
      invariant 0 <= used <= |lines|
      invariant LineState(written, data) == FeedLines(start, lines[..used])
      invariant Delivered(written, isJson) == written
    {
      var line := lines[used];
      FeedLinesAppend(start, lines[..used], [line]);
      assert lines[..used + 1] == lines[..used] + [line];
      assert FeedLines(start, lines[..used + 1]) == FeedLine(LineState(written, data), line);
      used := used + 1;
      if IsDataLine(line) {
        data := data + [DataValue(line)];
      } else if line == "" && data != [] {
        DeliveredAppend(written, [Join(data)], isJson);
        if !isJson(Join(data)) { refused := true; return; }
        written, data := written + [Join(data)], [];
      }
    }
    assert lines[..used] == lines;
  }

  /**
   The CLI reader's loop over the chunks of one connection. Whatever the cuts, it
   writes what the whole text says, up to the first payload that is not JSON.
   */
  method ReadEvents(chunks: seq<string>, isJson: string -> bool) returns (written: seq<string>, failed: bool)
    ensures Longest(written, Payloads(Flatten(chunks)), isJson) && (failed <==> written != Payloads(Flatten(chunks)))
    ensures written == Delivered(Payloads(Flatten(chunks)), isJson)
  {
    hide Longest; hide SplitLines; hide FeedLines; hide Delivered; hide Flatten;
    var pending, data := "", [];
    written, failed := [], false;
    ReadsNothing(chunks, isJson);
    var i := 0;
    while i < |chunks|
      invariant 0 <= i <= |chunks|
      invariant pending == SplitLines(Flatten(chunks[..i])).rest
      invariant LineState(written, data) == FeedLines(LineState([], []), SplitLines(Flatten(chunks[..i])).pieces)
      invariant Delivered(written, isJson) == written
    {
      var split := SplitLines(pending + chunks[i]);
      ghost var fed := SplitLines(Flatten(chunks[..i])).pieces;
      ReadsOn(chunks, i);
      pending := split.rest;
      var refused, used;
      var start := LineState(written, data);
      written, data, refused, used := ConsumeLines(start, split.pieces, isJson);
      if refused {
        FeedLinesAppend(LineState([], []), fed, split.pieces[..used]);
        Refused(Flatten(chunks), fed + split.pieces[..used], written, Join(data), isJson);
        DeliveredIsLongest(Payloads(Flatten(chunks)), isJson);
        return written, true;
      }
      i := i + 1;
    }
    assert chunks[..i] == chunks;
    DeliveredIsLongest(Payloads(Flatten(chunks)), isJson);
  }

  lemma ReadsNothing(chunks: seq<string>, isJson: string -> bool)
    ensures SplitLines(Flatten(chunks[..0])) == CutText([], "") && FeedLines(LineState([], []), []) == LineState([], []) && Delivered([], isJson) == []
  {
  }

  /** One more chunk: its lines follow those read so far. */
  lemma ReadsOn(chunks: seq<string>, i: nat)
    requires i < |chunks|
    ensures var fed, split := SplitLines(Flatten(chunks[..i])), SplitLines(SplitLines(Flatten(chunks[..i])).rest + chunks[i]);
            && SplitLines(Flatten(chunks[..i + 1])) == CutText(fed.pieces + split.pieces, split.rest)
            && FeedLines(LineState([], []), fed.pieces + split.pieces) == FeedLines(FeedLines(LineState([], []), fed.pieces), split.pieces)
            && fed.pieces + split.pieces <= SplitLines(Flatten(chunks)).pieces
  {
    LineCutStable();
    FlattenNext(chunks, i);
    CutAllAppend(LineCut, Flatten(chunks[..i]), chunks[i]);
    FeedLinesAppend(LineState([], []), SplitLines(Flatten(chunks[..i])).pieces, SplitLines(SplitLines(Flatten(chunks[..i])).rest + chunks[i]).pieces);
    PiecesOfPrefix(LineCut, chunks, i + 1);
    hide CutAll; hide LineCut; hide FeedLines; hide Flatten;
  }

  // --------------------------------------- the Console reader, block by block

  /** The length of a line end, LF or CRLF, at position j; zero when there is none. */
  function LineEnd(t: string, j: nat): nat {
    if j < |t| && t[j] == '\n' then 1
    else if j + 1 < |t| && t[j] == '\r' && t[j + 1] == '\n' then 2
    else 0
  }

  /** The length of two line ends in a row at position j; zero when they are not there. */
  function BlankAt(t: string, j: nat): nat {
    if LineEnd(t, j) == 0 || LineEnd(t, j + LineEnd(t, j)) == 0 then 0
    else LineEnd(t, j) + LineEnd(t, j + LineEnd(t, j))
  }

  /** The leftmost block boundary from position j on. */
  function Boundary(t: string, j: nat): (b: Cut)
    requires j <= |t|
    ensures b.Cut? ==> j <= b.end < b.next <= |t|
    decreases |t| - j
  {
    if BlankAt(t, j) > 0 then Cut(j, j + BlankAt(t, j))
    else if j == |t| then NoCut
    else Boundary(t, j + 1)
  }

  function BlockCut(t: string): Cut {
    Boundary(t, 0)
  }

  /** Whole blocks, and the text after the last boundary. */
  function Blocks(t: string): CutText {
    CutAll(BlockCut, t)
  }

  function SkipBlanks(t: string): string {
    if t != "" && t[0] == ' ' then SkipBlanks(t[1..]) else t
  }

  function Decimal(digits: string): nat
    requires forall k :: 0 <= k < |digits| ==> '0' <= digits[k] <= '9'
  {
    if digits == "" then 0
    else Decimal(digits[..|digits| - 1]) * 10 + (digits[|digits| - 1] as int - '0' as int)
  }

  predicate IsRetryLine(line: string) {
    && |line| >= 6
    && line[0] == 'r' && line[1] == 'e' && line[2] == 't' && line[3] == 'r' && line[4] == 'y' && line[5] == ':'
    && var digits := SkipBlanks(line[6..]);
       digits != "" && forall k :: 0 <= k < |digits| ==> '0' <= digits[k] <= '9'
  }

  /** The reconnection delay after a block: its first retry line, clamped to 1..30 seconds. */
  function RetryAfter(lines: seq<string>, current: nat): nat {
    if lines == [] then current
    else if IsRetryLine(lines[0]) then
      var ms := Decimal(SkipBlanks(lines[0][6..]));
      if ms < 1_000 then 1_000 else if ms > 30_000 then 30_000 else ms
    else RetryAfter(lines[1..], current)
  }

  /** The number that digits stand for, place by place. */
  function Places(digits: string): int {
    if digits == "" then 0 else (digits[0] as int - '0' as int) * Power(|digits| - 1) + Places(digits[1..])
  }

  function Power(n: nat): nat {
    if n == 0 then 1 else 10 * Power(n - 1)
  }

  lemma {:induction false} DecimalIsPlaces(digits: string)
    requires forall k :: 0 <= k < |digits| ==> '0' <= digits[k] <= '9'
    ensures Decimal(digits) == Places(digits)
    decreases |digits|
  {
    if |digits| == 1 {
      assert digits[..0] == "" && digits[1..] == "";
    } else if |digits| > 1 {
      var n := |digits|;
      var front, later, last := digits[..n - 1], digits[1..], digits[n - 1] as int - '0' as int;
      var middle := later[..n - 2];
      assert front[1..] == middle && front[0] == digits[0] && later[n - 2] == digits[n - 1];
      DecimalIsPlaces(front);
      DecimalIsPlaces(later);
      DecimalIsPlaces(middle);
      assert Decimal(digits) == Decimal(front) * 10 + last && Decimal(later) == Decimal(middle) * 10 + last;
      assert Places(front) == (digits[0] as int - '0' as int) * Power(n - 2) + Places(middle);
      TenTimes(digits[0] as int - '0' as int, Power(n - 2));
    }
  }

  lemma TenTimes(d: int, p: int)
    ensures d * p * 10 == d * (10 * p)
  {
  }

  /** A well-formed retry line: the field name, blanks, and then digits to the end, which stand for n. */
  ghost predicate Asks(line: string, n: nat) {
    exists b :: 6 <= b < |line| && AsksFrom(line, b) && n == Places(line[b..])
  }

  predicate AsksFrom(line: string, b: nat)
    requires 6 <= b <= |line|
  {
    && "retry:" <= line
    && (forall k :: 6 <= k < b ==> line[k] == ' ')
    && (forall k :: b <= k < |line| ==> '0' <= line[k] <= '9')
  }

  /** A line among these is a well-formed retry line. */
  ghost predicate AnyAsks(lines: seq<string>) {
    exists k, n :: 0 <= k < |lines| && Asks(lines[k], n)
  }

  /** The first one that is well-formed asks for n. */
  ghost predicate FirstAsks(lines: seq<string>, n: nat) {
    exists k :: 0 <= k < |lines| && Asks(lines[k], n) && !AnyAsks(lines[..k])
  }

  /** A delay of n milliseconds, but at least one second and at most thirty. */
  predicate Clamps(n: nat, ms: nat) {
    1_000 <= ms <= 30_000 && (ms > n ==> ms == 1_000) && (ms < n ==> ms == 30_000)
  }

  lemma {:induction false} SkipBlanksSkips(t: string) returns (k: nat)
    ensures k <= |t| && SkipBlanks(t) == t[k..] && (forall i :: 0 <= i < k ==> t[i] == ' ') && (k < |t| ==> t[k] != ' ')
  {
    if t != "" && t[0] == ' ' {
      k := SkipBlanksSkips(t[1..]);
      assert t[1..][k..] == t[k + 1..];
      assert forall i :: 1 <= i < |t| ==> t[i] == t[1..][i - 1];
      k := k + 1;
    } else {
      k := 0;
    }
  }

  lemma RetryLineAsks(line: string)
    ensures IsRetryLine(line) ==> Asks(line, Decimal(SkipBlanks(line[6..])))
    ensures forall n :: Asks(line, n) ==> IsRetryLine(line) && n == Decimal(SkipBlanks(line[6..]))
  {
    if |line| >= 6 {
      var value := line[6..];
      var k := SkipBlanksSkips(value);
      assert forall i :: 0 <= i < |value| ==> line[i + 6] == value[i];
      var digits := value[k..];
      assert digits == line[6 + k..];
      if IsRetryLine(line) {
        DecimalIsPlaces(digits);
        assert AsksFrom(line, 6 + k);
      }
      forall n | Asks(line, n) ensures IsRetryLine(line) && n == Decimal(digits) {
        var b :| 6 <= b < |line| && AsksFrom(line, b) && n == Places(line[b..]);
        AsksOnce(line, value, k, b);
        DecimalIsPlaces(digits);
      }
    }
  }

  lemma AsksOnce(line: string, value: string, k: nat, b: nat)
    requires 6 <= b < |line| && AsksFrom(line, b) && value == line[6..] && k <= |value|
    requires (forall i :: 0 <= i < k ==> value[i] == ' ') && (k < |value| ==> value[k] != ' ')
    ensures b == 6 + k
  {
    assert line[b] != ' ' && value[b - 6] == line[b];
    assert k < |value| ==> value[k] == line[6 + k];
  }

  /** The delay after a block is what its first retry line asks for; without one it stays. */
  lemma {:induction false} RetryAfterAsks(lines: seq<string>, current: nat)
    ensures AnyAsks(lines) ==> exists n :: FirstAsks(lines, n) && Clamps(n, RetryAfter(lines, current))
    ensures !AnyAsks(lines) ==> RetryAfter(lines, current) == current
    decreases |lines|
  {
    if lines != [] {
      RetryLineAsks(lines[0]);
      if IsRetryLine(lines[0]) {
        var n := Decimal(SkipBlanks(lines[0][6..]));
        assert Asks(lines[0], n) && !AnyAsks(lines[..0]);
        assert FirstAsks(lines, n) && Clamps(n, RetryAfter(lines, current));
      } else {
        var later := lines[1..];
        RetryAfterAsks(later, current);
        assert forall k :: 0 < k < |lines| ==> lines[k] == later[k - 1];
        if AnyAsks(later) {
          var n :| FirstAsks(later, n) && Clamps(n, RetryAfter(later, current));
          FirstAsksLater(lines, n);
        }
        AnyAsksLater(lines);
      }
    }
  }

  lemma AnyAsksLater(lines: seq<string>)
    requires lines != [] && forall n :: !Asks(lines[0], n)
    ensures AnyAsks(lines) <==> AnyAsks(lines[1..])
  {
    hide Asks;
    var later := lines[1..];
    if AnyAsks(lines) {
      var k, n :| 0 <= k < |lines| && Asks(lines[k], n);
      assert later[k - 1] == lines[k];
    }
    if AnyAsks(later) {
      var k, n :| 0 <= k < |later| && Asks(later[k], n);
      assert lines[k + 1] == later[k];
    }
  }

  lemma FirstAsksLater(lines: seq<string>, n: nat)
    requires lines != [] && (forall m :: !Asks(lines[0], m)) && FirstAsks(lines[1..], n)
    ensures FirstAsks(lines, n)
  {
    hide Asks; hide AnyAsks;
    var later := lines[1..];
    var k :| 0 <= k < |later| && Asks(later[k], n) && !AnyAsks(later[..k]);
    assert lines[k + 1] == later[k] && lines[..k + 1][1..] == later[..k];
    AnyAsksLater(lines[..k + 1]);
  }

  datatype BlockState = BlockState(events: seq<string>, retryMs: nat, failed: bool)

  function BlockData(block: string): string {
    Join(DataValues(Pieces(block)))
  }

  /** One block: its retry line, then its event unless the data is empty. */
  function FeedBlock(s: BlockState, block: string, isJson: string -> bool): BlockState {
    if s.failed then s
    else
      var retryMs, data := RetryAfter(Pieces(block), s.retryMs), BlockData(block);
      if data == "" then s.(retryMs := retryMs)
      else if isJson(data) then BlockState(s.events + [data], retryMs, false)
      else BlockState(s.events, retryMs, true)
  }

  function FeedBlocks(s: BlockState, blocks: seq<string>, isJson: string -> bool): BlockState
    decreases |blocks|
  {
    if blocks == [] then s else FeedBlocks(FeedBlock(s, blocks[0], isJson), blocks[1..], isJson)
  }

  /** A block whose data is not empty and refused. */
  predicate Bad(block: string, isJson: string -> bool) {
    BlockData(block) != "" && !isJson(BlockData(block))
  }

  /** The first n blocks are those up to the first bad one, or all. */
  ghost predicate Handled(blocks: seq<string>, isJson: string -> bool, n: nat) {
    && n <= |blocks| && (n < |blocks| ==> n > 0 && Bad(blocks[n - 1], isJson))
    && forall k :: 0 <= k < n - 1 ==> !Bad(blocks[k], isJson)
  }

  /** The last block with a well-formed retry line sets the delay, by the first of them; without any it stays. */
  ghost predicate LastAsks(blocks: seq<string>, before: nat, ms: nat) {
    || (exists b, n :: 0 <= b < |blocks| && FirstAsks(Pieces(blocks[b]), n) && Clamps(n, ms) && NoneAsks(blocks[b + 1..]))
    || (ms == before && NoneAsks(blocks))
  }

  ghost predicate NoneAsks(blocks: seq<string>) {
    forall c :: 0 <= c < |blocks| ==> !AnyAsks(Pieces(blocks[c]))
  }

  lemma LastAsksLater(blocks: seq<string>, before: nat, ms: nat)
    requires blocks != [] && LastAsks(blocks[1..], RetryAfter(Pieces(blocks[0]), before), ms)
    ensures LastAsks(blocks, before, ms)
  {
    hide FirstAsks; hide AnyAsks; hide Clamps; hide Pieces; hide RetryAfter;
    var later, first := blocks[1..], Pieces(blocks[0]);
    RetryAfterAsks(first, before);
    if NoneAsks(later) && ms == RetryAfter(first, before) {
      if AnyAsks(first) {
        var n :| FirstAsks(first, n) && Clamps(n, ms);
        assert blocks[0 + 1..] == later;
      } else {
        assert forall c :: 0 < c < |blocks| ==> blocks[c] == later[c - 1];
      }
    } else {
      var b, n :| 0 <= b < |later| && FirstAsks(Pieces(later[b]), n) && Clamps(n, ms) && NoneAsks(later[b + 1..]);
      assert blocks[b + 1] == later[b] && blocks[b + 1 + 1..] == later[b + 1..];
    }
  }

  /** The delay after the blocks that are read before one is refused. */
  lemma {:induction false} RetryIsLast(s: BlockState, blocks: seq<string>, isJson: string -> bool) returns (n: nat)
    requires !s.failed
    ensures Handled(blocks, isJson, n) && LastAsks(blocks[..n], s.retryMs, FeedBlocks(s, blocks, isJson).retryMs)
    decreases |blocks|
  {
    hide BlockData; hide RetryAfter; hide Pieces; hide FirstAsks; hide AnyAsks; hide Clamps;
    if blocks == [] {
      n := 0;
    } else {
      var next, later := FeedBlock(s, blocks[0], isJson), blocks[1..];
      var m := 0;
      if next.failed {
        FailedStays(next, later, isJson);
        assert LastAsks([], next.retryMs, next.retryMs);
      } else {
        m := RetryIsLast(next, later, isJson);
        assert forall k :: 0 < k < |blocks| ==> blocks[k] == later[k - 1];
      }
      n := m + 1;
      assert blocks[..n][1..] == later[..m];
      LastAsksLater(blocks[..n], s.retryMs, FeedBlocks(s, blocks, isJson).retryMs);
    }
  }

  lemma {:induction false} FeedBlocksAppend(s: BlockState, a: seq<string>, b: seq<string>, isJson: string -> bool)
    ensures FeedBlocks(s, a + b, isJson) == FeedBlocks(FeedBlocks(s, a, isJson), b, isJson)
    decreases |a|
  {
    if a == [] {
      assert a + b == b;
    } else {
      assert (a + b)[0] == a[0] && (a + b)[1..] == a[1..] + b;
      FeedBlocksAppend(FeedBlock(s, a[0], isJson), a[1..], b, isJson);
    }
  }

  lemma {:induction false} FailedStays(s: BlockState, blocks: seq<string>, isJson: string -> bool)
    requires s.failed
    ensures FeedBlocks(s, blocks, isJson) == s
    decreases |blocks|
  {
    if blocks != [] { FailedStays(s, blocks[1..], isJson); }
  }

  lemma {:induction false} BoundaryIsFirst(t: string, j: nat)
    requires j <= |t|
    ensures Boundary(t, j).Cut? ==> Boundary(t, j).next == Boundary(t, j).end + BlankAt(t, Boundary(t, j).end)
    ensures forall k :: j <= k < (if Boundary(t, j).Cut? then Boundary(t, j).end else |t| + 1) ==> BlankAt(t, k) == 0
    decreases |t| - j
  {
    if BlankAt(t, j) == 0 && j < |t| { BoundaryIsFirst(t, j + 1); }
  }

  lemma {:induction false} BoundaryUnique(t: string, j: nat, b: nat)
    requires j <= b <= |t| && BlankAt(t, b) > 0
    requires forall k :: j <= k < b ==> BlankAt(t, k) == 0
    ensures Boundary(t, j) == Cut(b, b + BlankAt(t, b))
    decreases b - j
  {
    if j < b { BoundaryUnique(t, j + 1, b); }
  }

  lemma BlockCutStable()
    ensures Stable(BlockCut)
  {
    forall t: string, more: string | BlockCut(t).Cut?
      ensures BlockCut(t + more) == BlockCut(t)
    {
      var b := Boundary(t, 0).end;
      BoundaryIsFirst(t, 0);
      assert forall k :: 0 <= k < |t| ==> (t + more)[k] == t[k];
      assert BlankAt(t + more, b) == BlankAt(t, b);
      forall k | 0 <= k < b ensures BlankAt(t + more, k) == 0 {
        assert BlankAt(t, k) == 0;
      }
      BoundaryUnique(t + more, 0, b);
    }
  }

  /** The Console reader's state after one connection's whole text. */
  function StreamState(text: string, retryMs: nat, isJson: string -> bool): BlockState {
    FeedBlocks(BlockState([], retryMs, false), Blocks(text).pieces, isJson)
  }

  lemma FeedFirstBlock(s: BlockState, t: string, isJson: string -> bool)
    requires BlockCut(t).Cut?
    ensures FeedBlocks(s, Blocks(t).pieces, isJson)
         == FeedBlocks(FeedBlock(s, t[..BlockCut(t).end], isJson), Blocks(t[BlockCut(t).next..]).pieces, isJson)
    ensures Blocks(t).rest == Blocks(t[BlockCut(t).next..]).rest
  {
    var first, later := t[..BlockCut(t).end], Blocks(t[BlockCut(t).next..]).pieces;
    assert Blocks(t).pieces == [first] + later;
    assert ([first] + later)[1..] == later;
  }

  /** The inner loop: take every block the buffer already closes, until one is refused. */
  method TakeBlocks(start: BlockState, text: string, isJson: string -> bool) returns (s: BlockState, pending: string)
    requires !start.failed
    ensures s == FeedBlocks(start, Blocks(text).pieces, isJson)
    ensures !s.failed ==> pending == Blocks(text).rest
  {
    s, pending := start, text;
    var boundary := BlockCut(pending);
    while boundary.Cut?
      invariant boundary == BlockCut(pending) && !s.failed
      invariant FeedBlocks(s, Blocks(pending).pieces, isJson) == FeedBlocks(start, Blocks(text).pieces, isJson)
      invariant Blocks(pending).rest == Blocks(text).rest
      decreases |pending|
    {
      FeedFirstBlock(s, pending, isJson);
      var block := pending[..boundary.end];
      pending := pending[boundary.next..];
      s := HandleBlock(s, block, isJson);
      if s.failed {
        FailedStays(s, Blocks(pending).pieces, isJson);
        return;
      }
      boundary := BlockCut(pending);
    }
  }

  /** The loop's body: the retry line first, then the event. */
  method HandleBlock(before: BlockState, block: string, isJson: string -> bool) returns (s: BlockState)
    requires !before.failed
    ensures s == FeedBlock(before, block, isJson)
  {
    var lines := Pieces(block);
    s := before.(retryMs := RetryAfter(lines, before.retryMs));
    var data := Join(DataValues(lines));
    if data != "" {
      if isJson(data) { s := s.(events := s.events + [data]); } else { s := s.(failed := true); }
    }
  }

  lemma {:induction false} FailedPrefix(s: BlockState, some: seq<string>, all: seq<string>, isJson: string -> bool)
    requires some <= all && FeedBlocks(s, some, isJson).failed
    ensures FeedBlocks(s, all, isJson) == FeedBlocks(s, some, isJson)
    decreases |some|
  {
    if some == [] {
      FailedStays(s, all, isJson);
    } else {
      FailedPrefix(FeedBlock(s, some[0], isJson), some[1..], all[1..], isJson);
    }
  }

  lemma StreamFailed(chunks: seq<string>, i: nat, retryMs: nat, isJson: string -> bool)
    requires i <= |chunks| && StreamState(Flatten(chunks[..i]), retryMs, isJson).failed
    ensures StreamState(Flatten(chunks), retryMs, isJson) == StreamState(Flatten(chunks[..i]), retryMs, isJson)
  {
    BlockCutStable();
    PiecesOfPrefix(BlockCut, chunks, i);
    FailedPrefix(BlockState([], retryMs, false), Blocks(Flatten(chunks[..i])).pieces, Blocks(Flatten(chunks)).pieces, isJson);
  }

  // ------------------------------------------------- the two readers agree

  function NonEmpty(payloads: seq<string>): seq<string> {
    if payloads == [] then []
    else (if payloads[0] == "" then [] else [payloads[0]]) + NonEmpty(payloads[1..])
  }

  function BlockDatas(blocks: seq<string>): seq<string> {
    if blocks == [] then [] else [BlockData(blocks[0])] + BlockDatas(blocks[1..])
  }

  lemma NoEndInLine(t: string, i: nat, le: nat, k: nat)
    requires i == FirstLf(t) < |t| && LineCut(t) == Cut(le, i + 1) && k < le
    ensures BlankAt(t, k) == 0
  {
    assert t[k] != '\n' && (k + 1 < i ==> t[k + 1] != '\n');
  }

  /** Where the line ends sit around the first line. */
  lemma AroundFirstLine(t: string, i: nat, le: nat)
    requires i == FirstLf(t) < |t| && LineCut(t) == Cut(le, i + 1)
    ensures forall k :: 0 <= k < le ==> BlankAt(t, k) == 0
    ensures LineEnd(t, le) == i + 1 - le && LineEnd(t, i) == 1
    ensures LineEnd(t, i + 1) == LineEnd(t[i + 1..], 0)
  {
    forall k | 0 <= k < le ensures BlankAt(t, k) == 0 { NoEndInLine(t, i, le, k); }
  }

  lemma BoundaryAtFirstLine(t: string, i: nat, le: nat)
    requires i == FirstLf(t) < |t| && LineCut(t) == Cut(le, i + 1) && LineEnd(t[i + 1..], 0) > 0
    ensures BlockCut(t) == Cut(le, i + 1 + LineEnd(t[i + 1..], 0))
  {
    AroundFirstLine(t, i, le);
    BoundaryUnique(t, 0, le);
  }

  lemma BoundaryAfterFirstLine(t: string, i: nat, le: nat)
    requires i == FirstLf(t) < |t| && LineCut(t) == Cut(le, i + 1) && LineEnd(t[i + 1..], 0) == 0
    ensures BlockCut(t) == ShiftCut(BlockCut(t[i + 1..]), i + 1)
  {
    AroundFirstLine(t, i, le);
    BoundaryShift(t, i + 1, 0);
    SkipNoBlank(t, 0, i + 1);
  }

  lemma {:induction false} SkipNoBlank(t: string, j: nat, n: nat)
    requires j <= n <= |t| && forall k :: j <= k < n ==> BlankAt(t, k) == 0
    ensures Boundary(t, j) == Boundary(t, n)
    decreases n - j
  {
    if j < n { SkipNoBlank(t, j + 1, n); }
  }

  lemma {:induction false} BoundaryShift(t: string, n: nat, j: nat)
    requires n + j <= |t|
    ensures Boundary(t, n + j) == ShiftCut(Boundary(t[n..], j), n)
    decreases |t| - n - j
  {
    assert BlankAt(t[n..], j) == BlankAt(t, n + j);
    if BlankAt(t, n + j) == 0 && n + j < |t| { BoundaryShift(t, n, j + 1); }
  }

  lemma NoLineFeed(t: string)
    requires FirstLf(t) == |t|
    ensures BlockCut(t).NoCut?
  {
    SkipNoBlank(t, 0, |t|);
  }

  function ShiftCut(c: Cut, n: nat): Cut {
    if c.NoCut? then NoCut else Cut(n + c.end, n + c.next)
  }

  /** Data of a block's lines, the unterminated last one included. */
  function BlockValues(block: string): seq<string> {
    DataValues(Pieces(block))
  }

  function LineValues(line: string): seq<string> {
    if IsDataLine(line) then [DataValue(line)] else []
  }

  lemma BlockValuesStep(t: string, i: nat, le: nat)
    requires i == FirstLf(t) < |t| && LineCut(t) == Cut(le, i + 1)
    ensures BlockValues(t) == LineValues(t[..le]) + BlockValues(t[i + 1..])
  {
    var first, more := t[..le], Pieces(t[i + 1..]);
    assert Pieces(t) == [first] + more;
    assert ([first] + more)[1..] == more;
  }

  lemma LineCutOfPrefix(t: string, i: nat, n: nat)
    requires i == FirstLf(t) < n <= |t|
    ensures FirstLf(t[..n]) == i && LineCut(t[..n]) == LineCut(t)
  {
    var b := t[..n];
    assert b[i] == '\n' && forall k :: 0 <= k < i ==> b[k] == t[k];
    assert FirstLf(b) == i;
  }

  /** The values of a text cut later than its first line end. */
  lemma BlockValuesOfPrefix(t: string, i: nat, le: nat, e: nat)
    requires i == FirstLf(t) && i + 1 + e <= |t| && LineCut(t) == Cut(le, i + 1)
    ensures BlockValues(t[..i + 1 + e]) == LineValues(t[..le]) + BlockValues(t[i + 1..][..e])
  {
    var block := t[..i + 1 + e];
    LineCutOfPrefix(t, i, i + 1 + e);
    assert block[i + 1..] == t[i + 1..][..e] && block[..le] == t[..le];
    BlockValuesStep(block, i, le);
  }

  lemma BlockValuesOfLine(t: string, n: nat)
    requires n <= FirstLf(t)
    ensures BlockValues(t[..n]) == LineValues(t[..n])
  {
    var line := t[..n];
    assert forall k :: 0 <= k < n ==> line[k] == t[k];
    assert Pieces(line) == [line];
    var single := [line];
    assert |single[1..]| == 0 && DataValues(single) == LineValues(line) + DataValues(single[1..]);
    assert LineValues(line) + [] == LineValues(line);
  }

  /** Data of the blocks closed in t, where v holds the values of the current block's lines before t. */
  function BlockDatasFrom(v: seq<string>, started: bool, t: string): seq<string> {
    if started && LineEnd(t, 0) > 0 then [Join(v)] + BlockDatas(Blocks(t[LineEnd(t, 0)..]).pieces)
    else if BlockCut(t).NoCut? then []
    else [Join(v + BlockValues(t[..BlockCut(t).end]))] + BlockDatas(Blocks(t[BlockCut(t).next..]).pieces)
  }

  /** The same blocks seen line by line: a blank line closes a block that has started. */
  function BlockDatasByLine(v: seq<string>, started: bool, lines: seq<string>): seq<string>
    decreases |lines|
  {
    if lines == [] then []
    else if started && lines[0] == "" then [Join(v)] + BlockDatasByLine([], false, lines[1..])
    else BlockDatasByLine(v + LineValues(lines[0]), true, lines[1..])
  }

  lemma BlockDatasCons(block: string, later: seq<string>)
    ensures BlockDatas([block] + later) == [BlockData(block)] + BlockDatas(later)
  {
    assert ([block] + later)[1..] == later;
  }

  lemma BlockDatasUnfold(t: string)
    ensures BlockDatas(Blocks(t).pieces) == BlockDatasFrom([], false, t)
  {
    var c := BlockCut(t);
    if c.Cut? {
      var block, later := t[..c.end], Blocks(t[c.next..]).pieces;
      assert Blocks(t).pieces == [block] + later;
      BlockDatasCons(block, later);
      assert [] + BlockValues(block) == BlockValues(block);
    }
  }

  lemma FromFirstBlock(v: seq<string>, started: bool, t: string, c: Cut, block: string, later: string)
    requires c == BlockCut(t) && c.Cut? && !(started && LineEnd(t, 0) > 0)
    requires block == t[..c.end] && later == t[c.next..]
    ensures BlockDatasFrom(v, started, t) == [Join(v + BlockValues(block))] + BlockDatas(Blocks(later).pieces)
  {
  }

  lemma LineThenBlank(v: seq<string>, started: bool, t: string, i: nat, le: nat, r: string)
    requires i == FirstLf(t) < |t| && LineCut(t) == Cut(le, i + 1) && r == t[i + 1..] && LineEnd(r, 0) > 0
    requires !(started && LineEnd(t, 0) > 0)
    ensures BlockDatasFrom(v, started, t) == BlockDatasFrom(v + LineValues(t[..le]), true, r)
  {
    BoundaryAtFirstLine(t, i, le);
    BlockValuesOfLine(t, le);
    var later := r[LineEnd(r, 0)..];
    assert later == t[i + 1 + LineEnd(r, 0)..];
    FromFirstBlock(v, started, t, Cut(le, i + 1 + LineEnd(r, 0)), t[..le], later);
  }

  lemma LineThenMore(v: seq<string>, started: bool, t: string, i: nat, le: nat, r: string)
    requires i == FirstLf(t) < |t| && LineCut(t) == Cut(le, i + 1) && r == t[i + 1..] && LineEnd(r, 0) == 0
    requires !(started && LineEnd(t, 0) > 0)
    ensures BlockDatasFrom(v, started, t) == BlockDatasFrom(v + LineValues(t[..le]), true, r)
  {
    BoundaryAfterFirstLine(t, i, le);
    var c := BlockCut(r);
    if c.Cut? { LineThenBlock(v, started, t, i, le, r, c, BlockCut(t)); }
  }

  lemma LineThenBlock(v: seq<string>, started: bool, t: string, i: nat, le: nat, r: string, c: Cut, b: Cut)
    requires i == FirstLf(t) < |t| && LineCut(t) == Cut(le, i + 1) && r == t[i + 1..] && LineEnd(r, 0) == 0
    requires !(started && LineEnd(t, 0) > 0) && c == BlockCut(r) && c.Cut? && b == BlockCut(t)
    requires b == Cut(i + 1 + c.end, i + 1 + c.next) && le <= i && c.end < c.next <= |r|
    ensures BlockDatasFrom(v, started, t) == BlockDatasFrom(v + LineValues(t[..le]), true, r)
  {
    hide *;
    var block, later := t[..b.end], r[c.next..];
    assert later == t[b.next..];
    FromFirstBlock(v, started, t, b, block, later);
    BlockValuesOfPrefix(t, i, le, c.end);
    var own, inner := LineValues(t[..le]), BlockValues(r[..c.end]);
    assert v + (own + inner) == (v + own) + inner;
    FromFirstBlock(v + own, true, r, c, r[..c.end], later);
  }

  lemma {:induction false} BlocksByLine(v: seq<string>, started: bool, t: string)
    ensures BlockDatasFrom(v, started, t) == BlockDatasByLine(v, started, SplitLines(t).pieces)
    decreases |t|
  {
    var i := FirstLf(t);
    if i == |t| {
      NoLineFeed(t);
    } else {
      var le, r := LineCut(t).end, t[i + 1..];
      var later := SplitLines(r).pieces;
      assert SplitLines(t).pieces == [t[..le]] + later && ([t[..le]] + later)[1..] == later;
      if started && LineEnd(t, 0) > 0 {
        assert t[..le] == "" && LineEnd(t, 0) == i + 1;
        BlockDatasUnfold(r);
        BlocksByLine([], false, r);
      } else {
        assert started ==> t[..le] != "";
        if LineEnd(r, 0) > 0 { LineThenBlank(v, started, t, i, le, r); } else { LineThenMore(v, started, t, i, le, r); }
        BlocksByLine(v + LineValues(t[..le]), true, r);
      }
    }
  }

  /** The payloads the CLI's fold adds for these lines, when v is what it has collected. */
  function PayloadsByLine(v: seq<string>, lines: seq<string>): seq<string>
    decreases |lines|
  {
    if lines == [] then []
    else if lines[0] == "" && v != [] then [Join(v)] + PayloadsByLine([], lines[1..])
    else PayloadsByLine(v + LineValues(lines[0]), lines[1..])
  }

  lemma {:induction false} FeedLinesAdds(s: LineState, lines: seq<string>)
    ensures FeedLines(s, lines).payloads == s.payloads + PayloadsByLine(s.data, lines)
    decreases |lines|
  {
    if lines != [] {
      FeedLinesAdds(FeedLine(s, lines[0]), lines[1..]);
      if lines[0] == "" && s.data != [] {
        assert s.payloads + ([Join(s.data)] + PayloadsByLine([], lines[1..]))
            == (s.payloads + [Join(s.data)]) + PayloadsByLine([], lines[1..]);
      } else {
        assert FeedLine(s, lines[0]) == LineState(s.payloads, s.data + LineValues(lines[0]));
      }
    }
  }

  /** A block without data closes silently, so only empty payloads tell the two readings apart. */
  lemma {:induction false} SameButEmpty(v: seq<string>, started: bool, lines: seq<string>)
    requires v != [] ==> started
    ensures NonEmpty(BlockDatasByLine(v, started, lines)) == NonEmpty(PayloadsByLine(v, lines))
    decreases |lines|
  {
    if lines != [] {
      if started && lines[0] == "" {
        SameButEmpty([], false, lines[1..]);
        NonEmptyAppend([Join(v)], BlockDatasByLine([], false, lines[1..]));
        NonEmptyAppend([Join(v)], PayloadsByLine([], lines[1..]));
      } else {
        SameButEmpty(v + LineValues(lines[0]), true, lines[1..]);
      }
    }
  }

  lemma {:induction false} NonEmptyAppend(a: seq<string>, b: seq<string>)
    ensures NonEmpty(a + b) == NonEmpty(a) + NonEmpty(b)
  {
    if a == [] {
      assert a + b == b;
    } else {
      assert (a + b)[0] == a[0] && (a + b)[1..] == a[1..] + b;
      NonEmptyAppend(a[1..], b);
    }
  }

  lemma {:induction false} NonEmptyKeepsAll(a: seq<string>)
    ensures NonEmpty(a) == a <==> "" !in a
    ensures |NonEmpty(a)| <= |a|
  {
    if a != [] { NonEmptyKeepsAll(a[1..]); }
  }

  /** Cut into blocks or read line by line, the text carries the same events, but for empty data. */
  lemma BlocksCarryPayloads(t: string)
    ensures NonEmpty(BlockDatas(Blocks(t).pieces)) == NonEmpty(Payloads(t))
  {
    BlockDatasUnfold(t);
    BlocksByLine([], false, t);
    SameButEmpty([], false, SplitLines(t).pieces);
    FeedLinesAdds(LineState([], []), SplitLines(t).pieces);
    assert [] + PayloadsByLine([], SplitLines(t).pieces) == PayloadsByLine([], SplitLines(t).pieces);
  }

  lemma FirstBlockData(blocks: seq<string>)
    requires blocks != []
    ensures NonEmpty(BlockDatas(blocks))
         == (if BlockData(blocks[0]) == "" then [] else [BlockData(blocks[0])]) + NonEmpty(BlockDatas(blocks[1..]))
  {
  }

  lemma {:induction false} EventsOfBlocks(s: BlockState, blocks: seq<string>, isJson: string -> bool)
    requires !s.failed
    ensures FeedBlocks(s, blocks, isJson).events == s.events + Delivered(NonEmpty(BlockDatas(blocks)), isJson)
    ensures FeedBlocks(s, blocks, isJson).failed <==> Delivered(NonEmpty(BlockDatas(blocks)), isJson) != NonEmpty(BlockDatas(blocks))
    decreases |blocks|
  {
    if blocks != [] {
      var n, data, later := FeedBlock(s, blocks[0], isJson), BlockData(blocks[0]), NonEmpty(BlockDatas(blocks[1..]));
      FirstBlockData(blocks);
      assert FeedBlocks(s, blocks, isJson) == FeedBlocks(n, blocks[1..], isJson);
      if data == "" {
        assert [] + later == later;
        EventsOfBlocks(n, blocks[1..], isJson);
      } else if isJson(data) {
        EventsOfBlocks(n, blocks[1..], isJson);
        assert Delivered([data] + later, isJson) == [data] + Delivered(later, isJson);
      } else {
        FailedStays(n, blocks[1..], isJson);
        assert Delivered([data] + later, isJson) == [];
      }
    }
  }

  /**
   What the Console delivers, for every text: the CLI's payloads with the empty ones
   passed over. Since empty text is no JSON, the CLI stops where the Console goes on.
   */
  lemma ConsoleDelivers(text: string, retryMs: nat, isJson: string -> bool)
    ensures StreamState(text, retryMs, isJson).events == Delivered(NonEmpty(Payloads(text)), isJson)
    ensures StreamState(text, retryMs, isJson).failed <==> StreamState(text, retryMs, isJson).events != NonEmpty(Payloads(text))
  {
    EventsOfBlocks(BlockState([], retryMs, false), Blocks(text).pieces, isJson);
    BlocksCarryPayloads(text);
  }

  /** What the Console's state after a text means: the events, the refusal and the delay. */
  lemma StreamMeans(text: string, retryMs: nat, isJson: string -> bool)
    ensures var s, payloads := StreamState(text, retryMs, isJson), NonEmpty(Payloads(text));
            && Longest(s.events, payloads, isJson) && (s.failed <==> s.events != payloads)
            && exists n: nat :: Handled(Blocks(text).pieces, isJson, n) && LastAsks(Blocks(text).pieces[..n], retryMs, s.retryMs)
  {
    hide Payloads; hide NonEmpty; hide Handled; hide LastAsks; hide Longest;
    ConsoleDelivers(text, retryMs, isJson);
    DeliveredIsLongest(NonEmpty(Payloads(text)), isJson);
    var n := RetryIsLast(BlockState([], retryMs, false), Blocks(text).pieces, isJson);
  }

  /** The Console reader's loop over the chunks of one connection: the cuts do not matter. */
  method ObserveEventStream(chunks: seq<string>, retryMs: nat, isJson: string -> bool) returns (s: BlockState)
    ensures Longest(s.events, NonEmpty(Payloads(Flatten(chunks))), isJson)
    ensures s.failed <==> s.events != NonEmpty(Payloads(Flatten(chunks)))
    ensures exists n: nat :: Handled(Blocks(Flatten(chunks)).pieces, isJson, n) && LastAsks(Blocks(Flatten(chunks)).pieces[..n], retryMs, s.retryMs)
    ensures s == StreamState(Flatten(chunks), retryMs, isJson)
  {
    StreamMeans(Flatten(chunks), retryMs, isJson);
    hide Payloads; hide NonEmpty; hide Handled; hide LastAsks; hide Longest;
    s := BlockState([], retryMs, false);
    var pending := "";
    BlockCutStable();
    var i := 0;
    while i < |chunks|
      invariant 0 <= i <= |chunks|
      invariant !s.failed
      invariant s == StreamState(Flatten(chunks[..i]), retryMs, isJson)
      invariant pending == Blocks(Flatten(chunks[..i])).rest
    {
      FlattenNext(chunks, i);
      CutAllAppend(BlockCut, Flatten(chunks[..i]), chunks[i]);
      ghost var cut := Blocks(Flatten(chunks[..i])).pieces;
      FeedBlocksAppend(BlockState([], retryMs, false), cut, Blocks(pending + chunks[i]).pieces, isJson);
      s, pending := TakeBlocks(s, pending + chunks[i], isJson);
      i := i + 1;
      if s.failed {
        StreamFailed(chunks, i, retryMs, isJson);
        return;
      }
    }
    assert chunks[..i] == chunks;
  }

  lemma {:induction false} DeliveredOfNonEmpty(payloads: seq<string>, isJson: string -> bool)
    requires !isJson("")
    ensures Delivered(NonEmpty(payloads), isJson) == Delivered(payloads, isJson) + AfterEmpty(payloads, isJson)
  {
    if payloads != [] {
      if payloads[0] == "" {
        assert NonEmpty(payloads) == NonEmpty(payloads[1..]);
        assert Delivered(payloads, isJson) == [];
      } else {
        DeliveredOfNonEmpty(payloads[1..], isJson);
        assert NonEmpty(payloads) == [payloads[0]] + NonEmpty(payloads[1..]);
      }
    }
  }

  /** What follows when the first payload refused is an empty one. */
  function AfterEmpty(payloads: seq<string>, isJson: string -> bool): seq<string> {
    if payloads == [] then []
    else if payloads[0] == "" then Delivered(NonEmpty(payloads[1..]), isJson)
    else if isJson(payloads[0]) then AfterEmpty(payloads[1..], isJson)
    else []
  }

  lemma {:induction false} NothingAfterEmpty(payloads: seq<string>, isJson: string -> bool)
    requires "" !in payloads
    ensures AfterEmpty(payloads, isJson) == []
  {
    if payloads != [] { NothingAfterEmpty(payloads[1..], isJson); }
  }

  /** A reader that accepts less delivers, of what the other one delivers, what it would deliver of it alone. */
  lemma {:induction false} DeliveredLess(payloads: seq<string>, isJson: string -> bool, isEvent: string -> bool)
    requires forall p :: isEvent(p) ==> isJson(p)
    ensures Delivered(payloads, isEvent) == Delivered(Delivered(payloads, isJson), isEvent)
  {
    if payloads != [] { DeliveredLess(payloads[1..], isJson, isEvent); }
  }

  lemma {:induction false} DeliveredSame(payloads: seq<string>, isJson: string -> bool, isEvent: string -> bool)
    requires forall p :: p in payloads ==> (isEvent(p) <==> isJson(p))
    ensures Delivered(payloads, isEvent) == Delivered(payloads, isJson)
  {
    if payloads != [] { DeliveredSame(payloads[1..], isJson, isEvent); }
  }

  lemma {:induction false} NonEmptyMembers(payloads: seq<string>, p: string)
    ensures p in NonEmpty(payloads) <==> p in payloads && p != ""
  {
    if payloads != [] { NonEmptyMembers(payloads[1..], p); }
  }

  /**
   The CLI takes any JSON, the Console only JSON that is an event. On every stream without
   an empty-data event the Console delivers just what it accepts of the CLI's payloads; and
   on every stream whose JSON payloads are events the two deliver the same, but for what
   follows an empty-data event, where the CLI stops.
   */
  lemma ReadersAgree(text: string, retryMs: nat, isJson: string -> bool, isEvent: string -> bool)
    requires !isJson("") && forall p :: isEvent(p) ==> isJson(p)
    ensures var cli, console := Delivered(Payloads(text), isJson), StreamState(text, retryMs, isEvent).events;
            && ("" !in Payloads(text) ==> console == Delivered(cli, isEvent))
            && ((forall p :: p in Payloads(text) && isJson(p) ==> isEvent(p)) ==> console == cli + AfterEmpty(Payloads(text), isJson))
            && ("" !in Payloads(text) && (forall p :: p in Payloads(text) && isJson(p) ==> isEvent(p)) ==> console == cli)
  {
    ConsoleDelivers(text, retryMs, isEvent);
    var payloads := Payloads(text);
    if "" !in payloads {
      NonEmptyKeepsAll(payloads);
      DeliveredLess(payloads, isJson, isEvent);
      NothingAfterEmpty(payloads, isJson);
    }
    if forall p :: p in payloads && isJson(p) ==> isEvent(p) {
      forall p ensures p in NonEmpty(payloads) <==> p in payloads && p != "" { NonEmptyMembers(payloads, p); }
      DeliveredSame(NonEmpty(payloads), isJson, isEvent);
      DeliveredOfNonEmpty(payloads, isJson);
    }
  }

  const EMPTY_DATA := "data:\n\ndata:1\n\n"

  /** An event with empty data: the Console passes it over and goes on, the CLI delivers nothing at all. */
  lemma EmptyDataParts(retryMs: nat, isJson: string -> bool)
    requires !isJson("") && isJson("1")
    ensures Payloads(EMPTY_DATA) == ["", "1"]
    ensures Delivered(Payloads(EMPTY_DATA), isJson) == []
    ensures StreamState(EMPTY_DATA, retryMs, isJson).events == ["1"]
  {
    EmptyDataLines();
    ReadersAgree(EMPTY_DATA, retryMs, isJson, isJson);
    hide StreamState; hide SplitLines;
    var values := PayloadsByLine([], ["data:", "", "data:1", ""]);
    FeedLinesAdds(LineState([], []), ["data:", "", "data:1", ""]);
    assert values == ["", "1"] by { EmptyDataPayloads(); }
    assert NonEmpty(["", "1"][1..]) == ["1"] && ["", "1"][1..] == ["1"] && Delivered(["1"], isJson) == ["1"] + Delivered(["1"][1..], isJson);
  }

  lemma EmptyDataPayloads()
    ensures PayloadsByLine([], ["data:", "", "data:1", ""]) == ["", "1"]
  {
    var lines := ["data:", "", "data:1", ""];
    assert LineValues("data:") == [""] && LineValues("data:1") == ["1"];
    assert lines[1..] == ["", "data:1", ""] && lines[1..][1..] == ["data:1", ""] && ["data:1", ""][1..] == [""] && [""][1..] == [];
    assert PayloadsByLine(["1"], [""]) == ["1"];
    assert PayloadsByLine([], ["data:1", ""]) == ["1"];
    assert PayloadsByLine([""], ["", "data:1", ""]) == ["", "1"];
  }

  lemma NextLine(t: string, line: string, later: string)
    requires t == line + "\n" + later && (line != "" ==> line[|line| - 1] != '\r') && forall k :: 0 <= k < |line| ==> line[k] != '\n'
    ensures SplitLines(t).pieces == [line] + SplitLines(later).pieces
  {
    assert t[|line|] == '\n' && FirstLf(t) == |line|;
    assert t[..|line|] == line && t[|line| + 1..] == later;
  }

  lemma EmptyDataLines()
    ensures SplitLines(EMPTY_DATA).pieces == ["data:", "", "data:1", ""]
  {
    hide SplitLines; hide FirstLf;
    NextLine(EMPTY_DATA, "data:", "\ndata:1\n\n");
    NextLine("\ndata:1\n\n", "", "data:1\n\n");
    NextLine("data:1\n\n", "data:1", "\n");
    NextLine("\n", "", "");
    EmptyHasNoLines();
  }

  lemma EmptyHasNoLines()
    ensures SplitLines("").pieces == []
  {
  }

  // ------------------------------------ section 9.2.6 of the HTML standard

  /** The value a line adds to the standard's data buffer, if its field is `data`. */
  function StandardValues(line: string): seq<string> {
    if line == "data" then [""]
    else if "data: " <= line then [line[6..]]
    else if "data:" <= line then [line[5..]]
    else []
  }

  /** Events as the standard dispatches them, each as the values its data buffer joins. */
  function StandardEvents(v: seq<string>, lines: seq<string>): seq<seq<string>>
    decreases |lines|
  {
    if lines == [] then []
    else if lines[0] == "" then (if v == [] then [] else [v]) + StandardEvents([], lines[1..])
    else StandardEvents(v + StandardValues(lines[0]), lines[1..])
  }

  function TrimAll(values: seq<string>): seq<string> {
    if values == [] then [] else [TrimStart(values[0])] + TrimAll(values[1..])
  }

  function JoinTrimmed(events: seq<seq<string>>): seq<string> {
    if events == [] then [] else [Join(TrimAll(events[0]))] + JoinTrimmed(events[1..])
  }

  lemma {:induction false} TrimAllAppend(a: seq<string>, b: seq<string>)
    ensures TrimAll(a + b) == TrimAll(a) + TrimAll(b)
    ensures a != [] <==> TrimAll(a) != []
  {
    if a == [] {
      assert a + b == b;
    } else {
      assert (a + b)[0] == a[0] && (a + b)[1..] == a[1..] + b;
      TrimAllAppend(a[1..], b);
    }
  }

  lemma DataLines(line: string)
    ensures IsDataLine(line) <==> "data:" <= line
    ensures "data: " <= line <==> IsDataLine(line) && |line| > 5 && line[5] == ' '
  {
  }

  lemma TrimOfLine(line: string)
    requires line != "data"
    ensures TrimAll(StandardValues(line)) == LineValues(line)
  {
    DataLines(line);
    if IsDataLine(line) {
      var v := StandardValues(line);
      assert v[1..] == [];
      if |line| > 5 && line[5] == ' ' { assert line[5..][1..] == line[6..]; }
    }
  }

  /**
   Line by line, the CLI follows the standard, but trims every value's leading white
   space and does not know the bare field name.
   */
  lemma {:induction false} CliFollowsStandard(v: seq<string>, lines: seq<string>)
    requires "data" !in lines
    ensures PayloadsByLine(TrimAll(v), lines) == JoinTrimmed(StandardEvents(v, lines))
    decreases |lines|
  {
    if lines != [] {
      TrimAllAppend(v, []);
      if lines[0] == "" {
        CliFollowsStandard([], lines[1..]);
        if v != [] {
          assert ([v] + StandardEvents([], lines[1..]))[1..] == StandardEvents([], lines[1..]);
        } else {
          assert StandardEvents(v, lines) == StandardEvents([], lines[1..]);
        }
      } else {
        TrimOfLine(lines[0]);
        TrimAllAppend(v, StandardValues(lines[0]));
        CliFollowsStandard(v + StandardValues(lines[0]), lines[1..]);
      }
    }
  }

  /** The lines that are only the field name `data`, which the standard counts as an empty value, left out. */
  function WithoutBare(lines: seq<string>): seq<string> {
    if lines == [] then [] else (if lines[0] == "data" then [] else [lines[0]]) + WithoutBare(lines[1..])
  }

  lemma {:induction false} BareIgnored(v: seq<string>, lines: seq<string>)
    ensures PayloadsByLine(v, lines) == PayloadsByLine(v, WithoutBare(lines)) && "data" !in WithoutBare(lines)
    decreases |lines|
  {
    if lines != [] {
      var later := lines[1..];
      if lines[0] == "data" {
        assert v + LineValues(lines[0]) == v;
        assert WithoutBare(lines) == WithoutBare(later);
        BareIgnored(v, later);
      } else {
        assert WithoutBare(lines)[1..] == WithoutBare(later);
        BareIgnored([], later);
        BareIgnored(v + LineValues(lines[0]), later);
      }
    }
  }

  /** An event of the standard as it is delivered: every value without its leading white space, joined by line feeds. */
  ghost predicate Reads(event: seq<string>, payload: string) {
    exists values: seq<string> :: |values| == |event| && (forall k :: 0 <= k < |event| ==> TrimsStart(event[k], values[k])) && Joins(values, payload)
  }

  lemma {:induction false} TrimAllTrims(event: seq<string>)
    ensures |TrimAll(event)| == |event| && forall k :: 0 <= k < |event| ==> TrimsStart(event[k], TrimAll(event)[k])
  {
    if event != [] {
      TrimStartTrims(event[0]);
      hide TrimsStart; hide TrimStart;
      TrimAllTrims(event[1..]);
    }
  }

  lemma {:induction false} JoinTrimmedReads(events: seq<seq<string>>)
    ensures |JoinTrimmed(events)| == |events| && forall n :: 0 <= n < |events| ==> Reads(events[n], JoinTrimmed(events)[n])
  {
    if events != [] {
      TrimAllTrims(events[0]);
      JoinJoins(TrimAll(events[0]));
      assert Reads(events[0], JoinTrimmed(events)[0]);
      hide Reads; hide TrimAll; hide Join;
      JoinTrimmedReads(events[1..]);
    }
  }

  /**
   For every text: its payloads are the events that the standard reads from its lines,
   in order, with two differences: a line that is only the field name `data` counts for
   nothing, and every value loses all the white space at its start.
   */
  lemma PayloadsAreStandard(text: string)
    ensures Lined(text, SplitLines(text).pieces, SplitLines(text).rest)
    ensures var events := StandardEvents([], WithoutBare(SplitLines(text).pieces));
            |Payloads(text)| == |events| && forall n :: 0 <= n < |events| ==> Reads(events[n], Payloads(text)[n])
  {
    var lines := SplitLines(text).pieces;
    LinesAreLined(text);
    FeedLinesAdds(LineState([], []), lines);
    BareIgnored([], lines);
    CliFollowsStandard([], WithoutBare(lines));
    JoinTrimmedReads(StandardEvents([], WithoutBare(lines)));
    assert [] + PayloadsByLine([], lines) == PayloadsByLine([], lines);
    hide Reads; hide Lined;
  }
}
