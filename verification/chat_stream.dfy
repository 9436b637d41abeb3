/**
 * The assistant's streaming reply decoder (`streamChat` in src/components/AIChatWidget.tsx).
 *
 * The response body arrives as text chunks at arbitrary boundaries. A buffer accumulates
 * them; complete "\n"-terminated lines are cut off one by one, one trailing "\r" is dropped,
 * lines that do not start with "data: " are ignored, the payload "[DONE]" ends the stream,
 * and any other payload is handed to the JSON parser, whose non-empty
 * `choices[0].delta.content` becomes one delta. A payload the parser rejects is pushed back
 * at the front of the buffer and the chunk's processing stops there.
 *
 * `ScanLines` states what one pass over a buffer produces; `LineDecoder.Feed` is the loop
 * the source runs and is proved to compute it; `StreamChat` is the whole read loop, proved
 * to emit exactly the deltas of the concatenated body, whatever the chunking.
 */
module ChatStream {
  import opened Optional
  import opened JsString

  /**
   * `JSON.parse(payload).choices?.[0]?.delta?.content`, supplied by the caller:
   * None when `JSON.parse` throws, Some(None) when the content is absent or falsy;
   * a truthy non-string content is read as its string form.
   */
  type Parser = string -> Option<Option<string>>

  const DataPrefix: string := "data: "
  const DoneSentinel: string := "[DONE]"

  datatype ScanState =
    | Waiting   // every complete line was consumed; the buffer holds an unterminated tail
    | Blocked   // a payload failed to parse and was pushed back at the buffer's front
    | Finished  // the "[DONE]" payload was seen

  datatype ScanResult = ScanResult(deltas: seq<string>, rest: string, state: ScanState)

  /** Adds deltas emitted earlier in front of a scan's own. */
  function Prepend(ds: seq<string>, r: ScanResult): ScanResult {
    r.(deltas := ds + r.deltas)
  }

  /** Prepending twice is prepending the joined deltas once. */
  lemma PrependTwice(a: seq<string>, b: seq<string>, r: ScanResult)
    ensures Prepend(a, Prepend(b, r)) == Prepend(a + b, r)
  {
    assert a + (b + r.deltas) == (a + b) + r.deltas;
  }

  /** Associativity and the unit laws of `+`, stated once for the proofs below. */
  lemma AppendAssoc(a: string, b: string, c: string)
    ensures a + (b + c) == (a + b) + c
  {
  }

  lemma AppendNothing(ds: seq<string>)
    ensures ds + [] == ds
  {
  }

  lemma PrependNothing(r: ScanResult)
    ensures Prepend([], r) == r
  {
    assert [] + r.deltas == r.deltas;
  }

  /**
   * `if (line.endsWith("\r")) line = line.slice(0, -1)`: at most one character goes, from the
   * end, and only a "\r".
   */
  function StripCR(line: string): string {
    if EndsWith(line, "\r") then line[..|line| - 1] else line
  }

  /** `line.startsWith("data: ")`: the line begins with the six characters of the prefix. */
  predicate IsDataLine(line: string) {
    StartsWith(line, DataPrefix)
  }

  /** `line.slice(6).trim()`: what follows the prefix, without whitespace at either end. */
  function Payload(line: string): string
    requires IsDataLine(line)
  {
    Trim(line[|DataPrefix|..])
  }

  /** `if (c)`: a string is truthy exactly when it is non-empty. */
  predicate Emits(c: Option<string>) {
    c.Some? && c.value != ""
  }

  /** What the inner loop does with one extracted line (its "\r" already dropped). */
  datatype LineStep =
    | Skip               // `continue`: not a data line, or no content
    | Emit(text: string) // `onDelta(c)`
    | Stop               // "[DONE]": `onDone(); return`
    | Fail               // `JSON.parse` threw: push the line back and `break`

  function Step(parse: Parser, line: string): (r: LineStep)
    ensures r.Emit? ==> r.text != ""
  {
    if !IsDataLine(line) then Skip
    else if Payload(line) == DoneSentinel then Stop
    else match parse(Payload(line))
      case None => Fail
      case Some(c) => if Emits(c) then Emit(c.value) else Skip
  }

  /** The text after the last "\n" of `s` (all of `s` when it has none). */
  function LastLine(s: string): (r: string)
    ensures '\n' !in r
    ensures |r| <= |s| && r == s[|s| - |r|..]
    ensures |r| < |s| ==> s[|s| - |r| - 1] == '\n'
  {
    if s == [] || s[|s| - 1] == '\n' then [] else LastLine(s[..|s| - 1]) + [s[|s| - 1]]
  }

  /** The buffer starts with a complete line whose payload does not parse. */
  predicate Blocks(parse: Parser, s: string) {
    var idx := IndexOf(s, '\n');
    idx != -1 && Step(parse, StripCR(s[..idx])) == Fail
  }

  /**
   * One pass of the inner `while ((idx = buf.indexOf("\n")) !== -1)` loop over `buf`:
   * the deltas emitted, the buffer left behind, and why the pass stopped.
   */
  function ScanLines(parse: Parser, buf: string): (r: ScanResult)
    ensures |r.rest| <= |buf|
    ensures r.state == Waiting ==> '\n' !in r.rest
    decreases |buf|
  {
    var idx := IndexOf(buf, '\n');
    if idx == -1 then
      ScanResult([], buf, Waiting)
    else
      var line := StripCR(buf[..idx]);
      var after := buf[idx + 1..];
      match Step(parse, line)
      case Skip => ScanLines(parse, after)
      case Emit(d) => Prepend([d], ScanLines(parse, after))
      case Stop => ScanResult([], after, Finished)
      case Fail => ScanResult([], line + "\n" + after, Blocked)
  }

  /**
   * Only text up to a "\n" is consumed: when no line blocks or finishes, what is left is
   * exactly the text after the last "\n".
   */
  lemma {:induction false} WaitingLeavesLastLine(parse: Parser, buf: string)
    ensures var r := ScanLines(parse, buf);
      r.state == Waiting ==> r.rest == LastLine(buf)
    decreases |buf|
  {
    var idx := IndexOf(buf, '\n');
    if idx == -1 {
      LastLineWithoutNewline(buf);
    } else {
      var line, after := StripCR(buf[..idx]), buf[idx + 1..];
      ScanOneLine(parse, buf, idx, line, after);
      if Step(parse, line).Skip? || Step(parse, line).Emit? {
        LastLineAfterNewline(buf, idx);
        WaitingLeavesLastLine(parse, after);
      }
    }
  }

  /** A pass that blocks leaves the unparseable line in front, where it blocks again. */
  lemma {:induction false} BlockedLeavesFailingLine(parse: Parser, buf: string)
    ensures var r := ScanLines(parse, buf);
      r.state == Blocked ==> Blocks(parse, r.rest)
    decreases |buf|
  {
    var idx := IndexOf(buf, '\n');
    if idx != -1 {
      var line, after := StripCR(buf[..idx]), buf[idx + 1..];
      ScanOneLine(parse, buf, idx, line, after);
      match Step(parse, line)
      case Skip => BlockedLeavesFailingLine(parse, after);
      case Emit(_) => BlockedLeavesFailingLine(parse, after);
      case Stop =>
      case Fail => PushedBackLineBlocks(parse, line, after);
    }
  }

  /** Every delta a pass emits is a non-empty string. */
  lemma {:induction false} DeltasAreNonEmpty(parse: Parser, buf: string)
    ensures "" !in ScanLines(parse, buf).deltas
    decreases |buf|
  {
    var idx := IndexOf(buf, '\n');
    if idx != -1 {
      var after := buf[idx + 1..];
      var line := StripCR(buf[..idx]);
      DeltasAreNonEmpty(parse, after);
      ScanOneLine(parse, buf, idx, line, after);
    }
  }

  lemma LastLineWithoutNewline(s: string)
    requires '\n' !in s
    ensures LastLine(s) == s
  {
  }

  lemma {:induction false} LastLineAfterNewline(s: string, k: nat)
    requires k < |s| && s[k] == '\n'
    ensures LastLine(s) == LastLine(s[k + 1..])
    decreases |s|
  {
    if k + 1 < |s| && s[|s| - 1] != '\n' {
      var s' := s[..|s| - 1];
      assert s'[k + 1..] == s[k + 1..][..|s| - k - 2];
      LastLineAfterNewline(s', k);
    }
  }

  /** `IndexOf` finds the first occurrence. */
  lemma {:induction false} IndexOfAt(s: string, c: char, k: nat)
    requires k < |s| && s[k] == c && c !in s[..k]
    ensures IndexOf(s, c) == k
  {
    if k > 0 {
      assert s[0] in s[..k];
      assert s[1..][..k - 1] == s[1..k];
      IndexOfAt(s[1..], c, k - 1);
    }
  }

  /** The first "\n" of `raw + "\n" + x` is the one after `raw`. */
  lemma FirstLine(raw: string, x: string)
    requires '\n' !in raw
    ensures var s := raw + "\n" + x;
      IndexOf(s, '\n') == |raw| && s[..|raw|] == raw && s[|raw| + 1..] == x
  {
    var s := raw + "\n" + x;
    assert s[..|raw|] == raw;
    IndexOfAt(s, '\n', |raw|);
  }

  /** Dropping one more "\r" does not change what a line does. */
  lemma StepIgnoresCR(parse: Parser, line: string)
    ensures Step(parse, StripCR(line)) == Step(parse, line)
  {
    if EndsWith(line, "\r") {
      DataLineIgnoresCR(line);
    }
  }

  /** A line ending in "\r" is a data line with the same payload once the "\r" is gone. */
  lemma DataLineIgnoresCR(line: string)
    requires EndsWith(line, "\r")
    ensures IsDataLine(StripCR(line)) == IsDataLine(line)
    ensures IsDataLine(line) ==> Payload(StripCR(line)) == Payload(line)
  {
    var line' := line[..|line| - 1];
    assert StripCR(line) == line';
    if |line'| >= 6 {
      assert line'[..6] == line[..6];
    }
    if IsDataLine(line) {
      assert line[5] == ' ';
      var p := line[6..];
      assert p != [] && p[|p| - 1] == '\r';
      assert line'[6..] == p[..|p| - 1];
      TrimDropsTrailingWhitespace(p);
    }
  }

  /** The line pushed back after a parse failure blocks the next pass as well. */
  lemma PushedBackLineBlocks(parse: Parser, line: string, x: string)
    requires '\n' !in line && Step(parse, line) == Fail
    ensures Blocks(parse, line + "\n" + x)
  {
    FirstLine(line, x);
    StepIgnoresCR(parse, line);
  }

  /** A non-data line (after dropping one "\r") produces nothing and is discarded. */
  lemma NonDataLineIsDropped(parse: Parser, raw: string, x: string)
    requires '\n' !in raw && !IsDataLine(StripCR(raw))
    ensures ScanLines(parse, raw + "\n" + x) == ScanLines(parse, x)
  {
    FirstLine(raw, x);
  }

  /** The payload "[DONE]" ends the pass; nothing behind it is looked at. */
  lemma DoneLineFinishes(parse: Parser, raw: string, x: string)
    requires '\n' !in raw && IsDataLine(StripCR(raw)) && Payload(StripCR(raw)) == DoneSentinel
    ensures ScanLines(parse, raw + "\n" + x) == ScanResult([], x, Finished)
  {
    FirstLine(raw, x);
  }

  /** A payload that parses yields one delta exactly when its content is a non-empty string. */
  lemma ParsedLineEmitsContent(parse: Parser, raw: string, x: string, c: Option<string>)
    requires '\n' !in raw && IsDataLine(StripCR(raw)) && Payload(StripCR(raw)) != DoneSentinel
    requires parse(Payload(StripCR(raw))) == Some(c)
    ensures ScanLines(parse, raw + "\n" + x) ==
            Prepend(if c.Some? && c.value != "" then [c.value] else [], ScanLines(parse, x))
  {
    FirstLine(raw, x);
    if !Emits(c) {
      assert [] + ScanLines(parse, x).deltas == ScanLines(parse, x).deltas;
    }
  }

  /** A payload that does not parse is put back, without its "\r", in front of the rest. */
  lemma UnparseableLineIsPushedBack(parse: Parser, raw: string, x: string)
    requires '\n' !in raw && IsDataLine(StripCR(raw)) && Payload(StripCR(raw)) != DoneSentinel
    requires parse(Payload(StripCR(raw))) == None
    ensures ScanLines(parse, raw + "\n" + x) == ScanResult([], StripCR(raw) + "\n" + x, Blocked)
  {
    FirstLine(raw, x);
  }

  lemma IndexOfAppend(b: string, c: string, ch: char)
    requires ch in b
    ensures IndexOf(b + c, ch) == IndexOf(b, ch)
    ensures (b + c)[..IndexOf(b, ch)] == b[..IndexOf(b, ch)]
    ensures (b + c)[IndexOf(b, ch) + 1..] == b[IndexOf(b, ch) + 1..] + c
  {
    var k := IndexOf(b, ch);
    assert (b + c)[..k] == b[..k];
    IndexOfAt(b + c, ch, k);
  }

  /**
   * Where a pass goes once `c` is appended to the text it scanned: a waiting pass goes on
   * over its leftover tail followed by `c`; a pass that blocked or finished only gains `c`
   * at the end of its buffer.
   */
  function Resume(parse: Parser, r: ScanResult, c: string): ScanResult {
    if r.state == Waiting then Prepend(r.deltas, ScanLines(parse, r.rest + c))
    else r.(rest := r.rest + c)
  }

  /**
   * Chunk-boundary independence: scanning `b + c` in one pass equals scanning `b` and then
   * resuming with `c`.
   */
  lemma {:induction false} ScanAppend(parse: Parser, b: string, c: string)
    ensures ScanLines(parse, b + c) == Resume(parse, ScanLines(parse, b), c)
    decreases |b|
  {
    var idx := IndexOf(b, '\n');
    if idx == -1 {
      PrependNothing(ScanLines(parse, b + c));
    } else {
      var line, after := StripCR(b[..idx]), b[idx + 1..];
      ScanOneLine(parse, b, idx, line, after);
      ScanOneLineAppend(parse, b, c, idx, line, after);
      match Step(parse, line)
      case Skip =>
        ScanAppend(parse, after, c);
      case Emit(d) =>
        ScanAppend(parse, after, c);
        ResumePrepend(parse, [d], ScanLines(parse, after), c);
      case Stop =>
      case Fail =>
    }
  }

  /** Deltas emitted in front of a pass stay in front when it resumes. */
  lemma ResumePrepend(parse: Parser, ds: seq<string>, r: ScanResult, c: string)
    ensures Resume(parse, Prepend(ds, r), c) == Prepend(ds, Resume(parse, r, c))
  {
    if r.state == Waiting {
      PrependTwice(ds, r.deltas, ScanLines(parse, r.rest + c));
    }
  }

  /** The first line of `b` is the first line of `b + c`, followed by the rest and `c`. */
  lemma ScanOneLineAppend(parse: Parser, b: string, c: string, idx: int, line: string, after: string)
    requires idx == IndexOf(b, '\n') && idx != -1
    requires line == StripCR(b[..idx]) && after == b[idx + 1..]
    ensures Step(parse, line) == Skip ==> ScanLines(parse, b + c) == ScanLines(parse, after + c)
    ensures Step(parse, line).Emit? ==>
      ScanLines(parse, b + c) == Prepend([Step(parse, line).text], ScanLines(parse, after + c))
    ensures Step(parse, line) == Stop ==> ScanLines(parse, b + c) == ScanResult([], after + c, Finished)
    ensures Step(parse, line) == Fail ==>
      ScanLines(parse, b + c) == ScanResult([], (line + "\n" + after) + c, Blocked)
  {
    IndexOfAppend(b, c, '\n');
    ScanOneLine(parse, b + c, idx, line, after + c);
    AppendAssoc(line + "\n", after, c);
  }

  /** A line that cannot be parsed blocks every later line, however much text follows. */
  lemma BlockedIsSticky(parse: Parser, s: string, c: string)
    requires Blocks(parse, s)
    ensures var r := ScanLines(parse, s + c);
      r.deltas == [] && r.state == Blocked && Blocks(parse, r.rest)
  {
    BlocksAppend(parse, s, c);
    BlockingLineIsPushedBack(parse, s + c);
  }

  /** More text behind a blocking line leaves that line in front. */
  lemma BlocksAppend(parse: Parser, s: string, c: string)
    requires Blocks(parse, s)
    ensures Blocks(parse, s + c)
  {
    IndexOfAppend(s, c, '\n');
  }

  /** A pass over a buffer that starts with a blocking line emits nothing and keeps it. */
  lemma BlockingLineIsPushedBack(parse: Parser, buf: string)
    requires Blocks(parse, buf)
    ensures var r := ScanLines(parse, buf);
      r.deltas == [] && r.state == Blocked && Blocks(parse, r.rest)
  {
    var idx := IndexOf(buf, '\n');
    var line, after := StripCR(buf[..idx]), buf[idx + 1..];
    ScanOneLine(parse, buf, idx, line, after);
    LineHasNoNewline(buf, idx);
    PushedBackLineBlocks(parse, line, after);
  }

  /** The line cut off before the first "\n" holds no "\n", with or without its "\r". */
  lemma LineHasNoNewline(s: string, idx: int)
    requires idx == IndexOf(s, '\n') && idx != -1
    ensures '\n' !in StripCR(s[..idx])
  {
    var w := s[..idx];
    if EndsWith(w, "\r") {
      assert forall ch :: ch in w[..|w| - 1] ==> ch in w;
    }
  }

  /** The decoder of one response body: the text buffer `buf` the source keeps. */
  class LineDecoder {
    const parse: Parser
    var buf: string

    constructor (parse: Parser)
      ensures this.parse == parse && buf == ""
    {
      this.parse := parse;
      buf := "";
    }

    /**
     * `buf += chunk` followed by the inner line loop. Returns the deltas passed to
     * `onDelta` and whether "[DONE]" was reached (the source then returns at once).
     */
    method Feed(chunk: string) returns (deltas: seq<string>, done: bool)
      modifies this
      ensures var r := ScanLines(parse, old(buf) + chunk);
        deltas == r.deltas && done == (r.state == Finished) && buf == r.rest
    {
      buf := buf + chunk;
      ghost var total := ScanLines(parse, buf);
      deltas, done := [], false;
      var idx := IndexOf(buf, '\n');
      while idx != -1
        invariant idx == IndexOf(buf, '\n')
        invariant total == Prepend(deltas, ScanLines(parse, buf))
        decreases |buf|
      {
        ghost var pre := buf;
        var line := buf[..idx];
        buf := buf[idx + 1..];
        if EndsWith(line, "\r") {
          line := line[..|line| - 1];
        }
        var step := ClassifyLine(parse, line);
        match step
        case Skip =>
          FeedSkipsLine(parse, total, deltas, pre, idx, line, buf);
          idx := IndexOf(buf, '\n');
        case Emit(c) =>
          FeedEmitsLine(parse, total, deltas, pre, idx, line, buf);
          deltas := deltas + [c];
          idx := IndexOf(buf, '\n');
        case Stop =>
          FeedStopsAtDone(parse, total, deltas, pre, idx, line, buf);
          done := true;
          return;
        case Fail =>
          FeedPushesBack(parse, total, deltas, pre, idx, line, buf);
          buf := line + "\n" + buf;
          break;
      }
      assert deltas + [] == deltas;
    }
  }

  /**
   * The body of the inner loop for one line whose "\r" is already dropped: `continue` for a
   * non-data line, stop at "[DONE]", otherwise parse and emit non-empty content.
   */
  method ClassifyLine(parse: Parser, line: string) returns (step: LineStep)
    ensures step == Step(parse, line)
  {
    if !StartsWith(line, DataPrefix) {
      return Skip;
    }
    var json := Trim(line[6..]);
    if json == DoneSentinel {
      return Stop;
    }
    match parse(json)
    case None =>
      step := Fail;
    case Some(c) =>
      step := if c.Some? && c.value != "" then Emit(c.value) else Skip;
  }

  /**
   * A turn of `Feed`'s loop that skips its line (`continue`) leaves the deltas still to come
   * equal to those of the scan of the remaining buffer.
   */
  lemma FeedSkipsLine(parse: Parser, total: ScanResult, deltas: seq<string>, pre: string, idx: int,
                     line: string, after: string)
    requires idx == IndexOf(pre, '\n') && idx != -1
    requires line == StripCR(pre[..idx]) && after == pre[idx + 1..]
    requires total == Prepend(deltas, ScanLines(parse, pre))
    requires Step(parse, line) == Skip
    ensures total == Prepend(deltas, ScanLines(parse, after))
  {
    ScanOneLine(parse, pre, idx, line, after);
  }

  /**
   * A turn of `Feed`'s loop that emits a delta (`onDelta(c)`) adds that delta to the ones
   * emitted so far; the rest come from the scan of the remaining buffer.
   */
  lemma FeedEmitsLine(parse: Parser, total: ScanResult, deltas: seq<string>, pre: string, idx: int,
                     line: string, after: string)
    requires idx == IndexOf(pre, '\n') && idx != -1
    requires line == StripCR(pre[..idx]) && after == pre[idx + 1..]
    requires total == Prepend(deltas, ScanLines(parse, pre))
    requires Step(parse, line).Emit?
    ensures total == Prepend(deltas + [Step(parse, line).text], ScanLines(parse, after))
  {
    ScanOneLine(parse, pre, idx, line, after);
    PrependTwice(deltas, [Step(parse, line).text], ScanLines(parse, after));
  }

  /**
   * A turn of `Feed`'s loop that reads "[DONE]" ends the scan with the deltas emitted so far
   * and the buffer after that line.
   */
  lemma FeedStopsAtDone(parse: Parser, total: ScanResult, deltas: seq<string>, pre: string, idx: int,
                     line: string, after: string)
    requires idx == IndexOf(pre, '\n') && idx != -1
    requires line == StripCR(pre[..idx]) && after == pre[idx + 1..]
    requires total == Prepend(deltas, ScanLines(parse, pre))
    requires Step(parse, line) == Stop
    ensures total == ScanResult(deltas, after, Finished)
  {
    ScanOneLine(parse, pre, idx, line, after);
    assert deltas + [] == deltas;
  }

  /**
   * A turn of `Feed`'s loop whose payload does not parse ends the scan blocked, with the
   * deltas emitted so far and the line pushed back in front of the remaining buffer.
   */
  lemma FeedPushesBack(parse: Parser, total: ScanResult, deltas: seq<string>, pre: string, idx: int,
                     line: string, after: string)
    requires idx == IndexOf(pre, '\n') && idx != -1
    requires line == StripCR(pre[..idx]) && after == pre[idx + 1..]
    requires total == Prepend(deltas, ScanLines(parse, pre))
    requires Step(parse, line) == Fail
    ensures total == ScanResult(deltas, line + "\n" + after, Blocked)
  {
    ScanOneLine(parse, pre, idx, line, after);
    assert deltas + [] == deltas;
  }

  /** One turn of the inner loop, as `ScanLines` sees it. */
  lemma ScanOneLine(parse: Parser, buf: string, idx: int, line: string, after: string)
    requires idx == IndexOf(buf, '\n') && idx != -1
    requires line == StripCR(buf[..idx]) && after == buf[idx + 1..]
    ensures Step(parse, line) == Skip ==> ScanLines(parse, buf) == ScanLines(parse, after)
    ensures Step(parse, line).Emit? ==>
      ScanLines(parse, buf) == Prepend([Step(parse, line).text], ScanLines(parse, after))
    ensures Step(parse, line) == Stop ==> ScanLines(parse, buf) == ScanResult([], after, Finished)
    ensures Step(parse, line) == Fail ==> ScanLines(parse, buf) == ScanResult([], line + "\n" + after, Blocked)
  {
  }

  /** The user-visible notices the chat raises. */
  datatype Notice =
    | RateLimited        // "Rate limit hit. Try again shortly."
    | CreditsExhausted   // "AI credits exhausted."
    | ResponseFailed     // "Failed to get AI response"

  /** The callbacks `streamChat` invokes, in order. */
  datatype StreamEvent = Delta(text: string) | Done | Toast(notice: Notice)

  /** The response body: the chunks joined in order. */
  function Concat(chunks: seq<string>): string {
    if chunks == [] then "" else Concat(chunks[..|chunks| - 1]) + chunks[|chunks| - 1]
  }

  lemma {:induction false} ConcatSplit(chunks: seq<string>, i: nat)
    requires i <= |chunks|
    ensures Concat(chunks) == Concat(chunks[..i]) + Concat(chunks[i..])
    decreases |chunks|
  {
    if i < |chunks| {
      var n := |chunks| - 1;
      assert chunks[..n][..i] == chunks[..i];
      assert chunks[i..][..|chunks[i..]| - 1] == chunks[..n][i..];
      ConcatSplit(chunks[..n], i);
    } else {
      assert chunks[..i] == chunks;
    }
  }

  lemma ConcatNext(chunks: seq<string>, i: nat)
    requires i < |chunks|
    ensures Concat(chunks[..i + 1]) == Concat(chunks[..i]) + chunks[i]
  {
    assert chunks[..i + 1][..i] == chunks[..i];
  }

  function DeltaEvents(ds: seq<string>): (es: seq<StreamEvent>)
    ensures |es| == |ds| && forall i :: 0 <= i < |ds| ==> es[i] == Delta(ds[i])
  {
    seq(|ds|, i requires 0 <= i < |ds| => Delta(ds[i]))
  }

  /**
   * The decoder's buffer `buf` after reading the body prefix `prefix`: the same text the
   * one-pass scan leaves, or, once a line blocks, a buffer that still blocks.
   */
  predicate Tracks(parse: Parser, prefix: string, buf: string) {
    var r := ScanLines(parse, prefix);
    && r.state != Finished
    && (r.state == Waiting ==> buf == r.rest)
    && (r.state == Blocked ==> Blocks(parse, buf))
  }

  /**
   * Feeding chunk `i` to a decoder that tracks the body read so far extends the scan of
   * that body by exactly what the decoder emits.
   */
  lemma FeedExtendsScan(parse: Parser, chunks: seq<string>, i: nat, buf: string)
    requires i < |chunks| && Tracks(parse, Concat(chunks[..i]), buf)
    ensures var f := ScanLines(parse, buf + chunks[i]);
      var r := ScanLines(parse, Concat(chunks[..i + 1]));
      && r.deltas == ScanLines(parse, Concat(chunks[..i])).deltas + f.deltas
      && (r.state == Finished <==> f.state == Finished)
      && (f.state != Finished ==> Tracks(parse, Concat(chunks[..i + 1]), f.rest))
  {
    ConcatNext(chunks, i);
    TracksAppend(parse, Concat(chunks[..i]), buf, chunks[i]);
  }

  lemma TracksAppend(parse: Parser, prefix: string, buf: string, chunk: string)
    requires Tracks(parse, prefix, buf)
    ensures var f := ScanLines(parse, buf + chunk);
      var r := ScanLines(parse, prefix + chunk);
      && r.deltas == ScanLines(parse, prefix).deltas + f.deltas
      && (r.state == Finished <==> f.state == Finished)
      && (f.state != Finished ==> Tracks(parse, prefix + chunk, f.rest))
  {
    ScanAppend(parse, prefix, chunk);
    var p := ScanLines(parse, prefix);
    if p.state == Blocked {
      BlockedIsSticky(parse, buf, chunk);
      AppendNothing(p.deltas);
    } else {
      BlockedLeavesFailingLine(parse, buf + chunk);
    }
  }

  /** Once the body read so far has reached "[DONE]", the rest of the body emits nothing. */
  lemma FinishedIgnoresLaterChunks(parse: Parser, chunks: seq<string>, k: nat)
    requires k <= |chunks| && ScanLines(parse, Concat(chunks[..k])).state == Finished
    ensures ScanLines(parse, Concat(chunks)).deltas == ScanLines(parse, Concat(chunks[..k])).deltas
  {
    ConcatSplit(chunks, k);
    ScanAppend(parse, Concat(chunks[..k]), Concat(chunks[k..]));
  }

  /**
   * `resp.ok`: a 2xx status. Neither 429 nor 402 is ok, so the order of the three status
   * tests in `streamChat` does not matter.
   */
  predicate IsOk(status: int)
    ensures IsOk(status) ==> status != 429 && status != 402
  {
    200 <= status <= 299
  }

  /**
   * The outer `while (true)` read loop: feeds every chunk to one decoder until "[DONE]"
   * or the end of the body, and returns the deltas passed to `onDelta`, in order.
   */
  method ReadBody(parse: Parser, chunks: seq<string>) returns (emitted: seq<string>)
    ensures emitted == ScanLines(parse, Concat(chunks)).deltas
  {
    var decoder := new LineDecoder(parse);
    emitted := [];
    var i := 0;
    while i < |chunks|
      invariant 0 <= i <= |chunks|
      invariant decoder.parse == parse
      invariant Tracks(parse, Concat(chunks[..i]), decoder.buf)
      invariant emitted == ScanLines(parse, Concat(chunks[..i])).deltas
    {
      FeedExtendsScan(parse, chunks, i, decoder.buf);
      var ds, done := decoder.Feed(chunks[i]);
      emitted := emitted + ds;
      if done {
        FinishedIgnoresLaterChunks(parse, chunks, i + 1);
        return;
      }
      i := i + 1;
    }
    assert chunks[..i] == chunks;
  }

  /**
   * `streamChat` from the response status on. Statuses 429 and 402 raise their own notice
   * and end the stream cleanly; any other failure throws before a delta is emitted. A
   * readable body emits the deltas of the whole body (so the chunking does not matter)
   * and `onDone` exactly once, whether or not "[DONE]" arrived.
   */
  predicate Responds(parse: Parser, status: int, hasBody: bool, chunks: seq<string>,
                     events: seq<StreamEvent>, threw: bool)
  {
    && (status == 429 ==> events == [Toast(RateLimited), Done] && !threw)
    && (status == 402 ==> events == [Toast(CreditsExhausted), Done] && !threw)
    && (status != 429 && status != 402 && !(IsOk(status) && hasBody) ==> events == [] && threw)
    && (status != 429 && status != 402 && IsOk(status) && hasBody ==>
          !threw && events == DeltaEvents(ScanLines(parse, Concat(chunks)).deltas) + [Done])
  }

  method StreamChat(parse: Parser, status: int, hasBody: bool, chunks: seq<string>)
    returns (events: seq<StreamEvent>, threw: bool)
    ensures Responds(parse, status, hasBody, chunks, events, threw)
  {
    if status == 429 {
      return [Toast(RateLimited), Done], false;
    }
    if status == 402 {
      return [Toast(CreditsExhausted), Done], false;
    }
    if !IsOk(status) || !hasBody {
      return [], true;
    }
    var deltas := ReadBody(parse, chunks);
    events, threw := DeltaEvents(deltas) + [Done], false;
  }
}
