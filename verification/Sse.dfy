/** internal/sse/sse.go: the buffered scanner for Server-Sent Events. */
module Sse {
  import opened Wrappers

  /** A byte is written as the character with that code, so a byte sequence is a
      string. The io.Reader is a script of read results; the scanner's contracts speak
      of the bytes and the terminal error the script amounts to (`Drain`), never of how
      the script cuts those bytes into reads. */
  type Bytes = string

  const MAX_LINE_SIZE: nat := 16777216
  const MAX_EVENT_SIZE: nat := 16777216
  const READ_SIZE: nat := 4096
  const MAX_EMPTY_READS: nat := 100
  const BOM: Bytes := [0xEF as char, 0xBB as char, 0xBF as char]

  datatype ReadError = Eof | NoProgress | Failure(code: int)

  datatype Error = Reading(cause: ReadError) | LineTooLong | EventTooLarge

  datatype Event = Event(typ: Bytes, data: Bytes)

  // ---------------------------------------------------------------- reader

  datatype Read = Read(data: Bytes, err: Option<ReadError>)

  class Reader {
    var script: seq<Read>

    constructor (script: seq<Read>)
      ensures this.script == script
    {
      this.script := script;
    }

    ghost predicate Valid()
      reads this
    {
      forall r | r in script :: |r.data| <= READ_SIZE
    }

    /** One call of io.Reader.Read; a script that has run out is at end of file. */
    method Next() returns (r: Read)
      requires Valid()
      modifies this
      ensures Valid() && |r.data| <= READ_SIZE
      ensures if old(script) == [] then r == Read("", Some(Eof)) && script == []
              else r == old(script)[0] && script == old(script)[1..]
    {
      if script == [] {
        r := Read("", Some(Eof));
      } else {
        r := script[0];
        script := script[1..];
      }
    }
  }

  /** What a stream still delivers: its bytes and the error that ends it. */
  datatype Tail = Tail(bytes: Bytes, cause: ReadError)

  ghost function Drain(script: seq<Read>, empties: nat): Tail
    decreases |script|
  {
    if script == [] then Tail("", Eof)
    else if script[0].err.Some? then Tail(script[0].data, script[0].err.value)
    else if script[0].data != "" then
      var t := Drain(script[1..], 0);
      Tail(script[0].data + t.bytes, t.cause)
    else if empties + 1 >= MAX_EMPTY_READS then Tail("", NoProgress)
    else Drain(script[1..], empties + 1)
  }

  function Concat(parts: seq<Bytes>): Bytes {
    if parts == [] then "" else parts[0] + Concat(parts[1..])
  }

  /** No run of empty reads is long enough for the scanner to give up. */
  ghost predicate Progresses(parts: seq<Bytes>, empties: nat) {
    parts != [] ==>
      var e := if parts[0] == "" then empties + 1 else 0;
      e < MAX_EMPTY_READS && Progresses(parts[1..], e)
  }

  function ReadsOf(parts: seq<Bytes>, end: Read): seq<Read> {
    if parts == [] then [end] else [Read(parts[0], None)] + ReadsOf(parts[1..], end)
  }

  /** Cutting the same bytes differently, with empty reads in between, changes
      nothing: only the concatenation of the parts and the final error count. */
  lemma {:induction false} DrainOfPartition(parts: seq<Bytes>, end: Read, empties: nat)
    requires end.err.Some? && Progresses(parts, empties)
    ensures Drain(ReadsOf(parts, end), empties) == Tail(Concat(parts) + end.data, end.err.value)
  {
    if parts == [] {
    } else {
      var script := ReadsOf(parts, end);
      assert script[0] == Read(parts[0], None) && script[1..] == ReadsOf(parts[1..], end);
      DrainOfPartition(parts[1..], end, if parts[0] == "" then empties + 1 else 0);
      assert parts[0] + (Concat(parts[1..]) + end.data) == Concat(parts) + end.data;
    }
  }

  // ------------------------------------------ WHATWG 9.2.5 and 9.2.6, the reference

  predicate IsTerminator(c: char) {
    c == '\r' || c == '\n'
  }

  function TerminatorFrom(b: Bytes, from: nat): (i: nat)
    requires from <= |b|
    ensures from <= i <= |b|
    ensures i < |b| ==> IsTerminator(b[i])
    ensures forall k | from <= k < i :: !IsTerminator(b[k])
    decreases |b| - from
  {
    if from == |b| || IsTerminator(b[from]) then from else TerminatorFrom(b, from + 1)
  }

  function FirstTerminator(b: Bytes): (i: nat)
    ensures i <= |b|
    ensures i < |b| ==> IsTerminator(b[i])
    ensures forall k | 0 <= k < i :: !IsTerminator(b[k])
  {
    TerminatorFrom(b, 0)
  }

  /** What follows the line that ends at i: a CRLF pair is one line end. */
  function AfterLine(b: Bytes, i: nat): (r: Bytes)
    requires i < |b|
    ensures |r| < |b|
  {
    if b[i] == '\r' && i + 1 < |b| && b[i + 1] == '\n' then b[i + 2..] else b[i + 1..]
  }

  /** The terminated lines of a stream, without their line ends. */
  ghost function Lines(b: Bytes): seq<Bytes>
    decreases |b|
  {
    var i := FirstTerminator(b);
    if i == |b| then [] else [b[..i]] + Lines(AfterLine(b, i))
  }

  /** What follows the last line end. */
  ghost function Unterminated(b: Bytes): Bytes
    decreases |b|
  {
    var i := FirstTerminator(b);
    if i == |b| then b else Unterminated(AfterLine(b, i))
  }

  function StripBom(atStart: bool, b: Bytes): Bytes {
    if atStart && BOM <= b then b[|BOM|..] else b
  }

  /** The data buffer and the event type buffer of section 9.2.6. */
  datatype Buffers = Buffers(data: Bytes, typ: Bytes)

  const EMPTY: Buffers := Buffers("", "")

  function ColonFrom(b: Bytes, from: nat): (i: nat)
    requires from <= |b|
    ensures from <= i <= |b|
    decreases |b| - from
  {
    if from == |b| || b[from] == ':' then from else ColonFrom(b, from + 1)
  }

  function Field(line: Bytes): Bytes {
    line[..ColonFrom(line, 0)]
  }

  function FieldValue(line: Bytes): Bytes {
    var i := ColonFrom(line, 0);
    var v := if i < |line| then line[i + 1..] else "";
    if v != "" && v[0] == ' ' then v[1..] else v
  }

  /** "Process the field", and the reset an empty line brings. */
  function Step(buf: Buffers, line: Bytes): Buffers {
    if line == "" then EMPTY
    else if line[0] == ':' then buf
    else if Field(line) == "event" then buf.(typ := FieldValue(line))
    else if Field(line) == "data" then buf.(data := buf.data + FieldValue(line) + "\n")
    else buf
  }

  /** The events a list of lines dispatches. An event still being built when the
      lines run out is discarded. */
  ghost function Interpret(lines: seq<Bytes>, buf: Buffers): seq<Event> {
    if lines == [] then []
    else if lines[0] == "" && buf.data != "" then
      [Event(buf.typ, buf.data[..|buf.data| - 1])] + Interpret(lines[1..], EMPTY)
    else Interpret(lines[1..], Step(buf, lines[0]))
  }

  ghost function WhatwgEvents(stream: Bytes): seq<Event> {
    Interpret(Lines(StripBom(true, stream)), EMPTY)
  }

  /** The size limits, stated on the lines: no line with its line end is over
      MAX_LINE_SIZE, and no data buffer is over MAX_EVENT_SIZE plus its last LF. */
  ghost predicate LinesFit(b: Bytes) {
    (forall l | l in Lines(b) :: |l| < MAX_LINE_SIZE) && |Unterminated(b)| <= MAX_LINE_SIZE
  }

  ghost predicate DataFits(lines: seq<Bytes>, buf: Buffers) {
    lines != [] ==>
      |Step(buf, lines[0]).data| <= MAX_EVENT_SIZE + 1 && DataFits(lines[1..], Step(buf, lines[0]))
  }

  ghost function AllLines(b: Bytes): seq<Bytes> {
    Lines(b) + (if Unterminated(b) == "" then [] else [Unterminated(b)])
  }

  ghost predicate WithinLimits(stream: Bytes) {
    LinesFit(stream) && DataFits(AllLines(StripBom(true, stream)), EMPTY)
  }

  // ----------------------------------------------- the scanner as one function

  datatype Outcome = Outcome(events: seq<Event>, err: Option<Error>)

  predicate IsSizeError(e: Option<Error>) {
    e == Some(LineTooLong) || e == Some(EventTooLarge)
  }

  predicate TooBig(buf: Buffers, line: Bytes) {
    line != "" && line[0] != ':' && Field(line) == "data" &&
    |buf.data| + |FieldValue(line)| > MAX_EVENT_SIZE
  }

  /** Every event the scanner will still deliver, and the error it ends with. */
  ghost function Run(b: Bytes, cause: ReadError, atStart: bool, buf: Buffers): Outcome
    decreases |b|
  {
    var i := FirstTerminator(b);
    var line := StripBom(atStart, b[..i]);
    if (if i < |b| then i + 1 else i) > MAX_LINE_SIZE then Outcome([], Some(LineTooLong))
    else if TooBig(buf, line) then Outcome([], Some(EventTooLarge))
    else if i == |b| then Outcome([], if cause.Eof? then None else Some(Reading(cause)))
    else if line == "" && buf.data != "" then
      var o := Run(AfterLine(b, i), cause, false, EMPTY);
      Outcome([Event(buf.typ, buf.data[..|buf.data| - 1])] + o.events, o.err)
    else Run(AfterLine(b, i), cause, false, Step(buf, line))
  }

  lemma FirstTerminatorIs(b: Bytes, i: nat)
    requires i <= |b| && (i < |b| ==> IsTerminator(b[i]))
    requires forall k | 0 <= k < i :: !IsTerminator(b[k])
    ensures FirstTerminator(b) == i
  {
    var j := FirstTerminator(b);
    assert i < |b| ==> IsTerminator(b[i]);
    assert j < |b| ==> IsTerminator(b[j]);
  }

  /** A byte order mark holds no line end, so dropping it from the stream is
      dropping it from the first line. */
  lemma BomIsInFirstLine(b: Bytes, atStart: bool)
    ensures var s := StripBom(atStart, b);
            var i, j := FirstTerminator(b), FirstTerminator(s);
            && s[..j] == StripBom(atStart, b[..i])
            && (i == |b| <==> j == |s|)
            && (i < |b| ==> AfterLine(b, i) == AfterLine(s, j))
  {
    var i := FirstTerminator(b);
    if atStart && BOM <= b {
      assert forall k | 0 <= k < 3 :: b[k] == BOM[k];
      assert i < |b| ==> IsTerminator(b[i]);
      FirstTerminatorIs(b[3..], i - 3);
      assert b[..i][3..] == b[3..][..i - 3];
      assert BOM <= b[..i];
    } else {
      assert b == b[..i] + b[i..];
    }
  }

  /** The scanner delivers exactly the standard's events when it hits no limit, and
      a prefix of them when it does. */
  lemma {:induction false} RunIsWhatwg(b: Bytes, cause: ReadError, atStart: bool, buf: Buffers)
    ensures var o := Run(b, cause, atStart, buf);
            var reference := Interpret(Lines(StripBom(atStart, b)), buf);
            o.events <= reference && (!IsSizeError(o.err) ==> o.events == reference)
    decreases |b|
  {
    var i := FirstTerminator(b);
    BomIsInFirstLine(b, atStart);
    if i < |b| {
      var s := StripBom(atStart, b);
      var next := AfterLine(b, i);
      var line := StripBom(atStart, b[..i]);
      assert Lines(s) == [line] + Lines(next);
      assert Lines(s)[1..] == Lines(next);
      assert StripBom(false, next) == next;
      RunIsWhatwg(next, cause, false, Step(buf, line));
    }
  }

  lemma LinesFitStep(b: Bytes, i: nat)
    requires i == FirstTerminator(b) < |b|
    ensures LinesFit(b) <==> i < MAX_LINE_SIZE && LinesFit(AfterLine(b, i))
  {
    assert Lines(b) == [b[..i]] + Lines(AfterLine(b, i));
    assert b[..i] in Lines(b);
  }

  lemma StepData(buf: Buffers, line: Bytes)
    requires |buf.data| <= MAX_EVENT_SIZE + 1
    ensures TooBig(buf, line) <==> |Step(buf, line).data| > MAX_EVENT_SIZE + 1
  {
    if line != "" && line[0] != ':' && Field(line) == "data" {
      assert Field(line) != "event";
    }
  }

  /** The scanner stops on a limit exactly on the streams that have a line or an
      event over it. */
  lemma {:induction false} RunLimits(b: Bytes, cause: ReadError, atStart: bool, buf: Buffers)
    requires |buf.data| <= MAX_EVENT_SIZE + 1
    ensures IsSizeError(Run(b, cause, atStart, buf).err)
            <==> !(LinesFit(b) && DataFits(AllLines(StripBom(atStart, b)), buf))
    decreases |b|
  {
    var i := FirstTerminator(b);
    if i == |b| {
      LastLineLimits(b, cause, atStart, buf);
    } else {
      var line := StripBom(atStart, b[..i]);
      StepData(buf, line);
      if !TooBig(buf, line) {
        RunLimits(AfterLine(b, i), cause, false, Step(buf, line));
      }
      OneLineLimits(b, cause, atStart, buf);
    }
  }

  lemma LastLineLimits(b: Bytes, cause: ReadError, atStart: bool, buf: Buffers)
    requires |buf.data| <= MAX_EVENT_SIZE + 1 && FirstTerminator(b) == |b|
    ensures IsSizeError(Run(b, cause, atStart, buf).err)
            <==> !(LinesFit(b) && DataFits(AllLines(StripBom(atStart, b)), buf))
  {
    var s := StripBom(atStart, b);
    BomIsInFirstLine(b, atStart);
    StepData(buf, s);
    assert b[..|b|] == b;
    assert AllLines(s) == if s == "" then [] else [s];
    assert s != "" ==> AllLines(s)[1..] == [];
  }

  lemma OneLineLimits(b: Bytes, cause: ReadError, atStart: bool, buf: Buffers)
    requires |buf.data| <= MAX_EVENT_SIZE + 1 && FirstTerminator(b) < |b|
    requires var i := FirstTerminator(b);
             var line, next := StripBom(atStart, b[..i]), AfterLine(b, i);
             TooBig(buf, line)
             || (IsSizeError(Run(next, cause, false, Step(buf, line)).err)
                 <==> !(LinesFit(next) && DataFits(AllLines(StripBom(false, next)), Step(buf, line))))
    ensures IsSizeError(Run(b, cause, atStart, buf).err)
            <==> !(LinesFit(b) && DataFits(AllLines(StripBom(atStart, b)), buf))
  {
    var i := FirstTerminator(b);
    var s, line, next := StripBom(atStart, b), StripBom(atStart, b[..i]), AfterLine(b, i);
    BomIsInFirstLine(b, atStart);
    StepData(buf, line);
    LinesFitStep(b, i);
    assert AllLines(s) == [line] + AllLines(next);
    assert AllLines(s)[1..] == AllLines(next) && AllLines(s)[0] == line;
    assert StripBom(false, next) == next;
  }

  /** Section 9.2.6 for a whole stream, from the scanner's initial state. */
  lemma WholeStream(b: Bytes, cause: ReadError)
    ensures WithinLimits(b) ==>
              Run(b, cause, true, EMPTY)
              == Outcome(WhatwgEvents(b), if cause.Eof? then None else Some(Reading(cause)))
    ensures !WithinLimits(b) ==>
              IsSizeError(Run(b, cause, true, EMPTY).err) && Run(b, cause, true, EMPTY).events <= WhatwgEvents(b)
  {
    RunIsWhatwg(b, cause, true, EMPTY);
    RunLimits(b, cause, true, EMPTY);
    RunError(b, cause, true, EMPTY);
  }

  lemma {:induction false} RunError(b: Bytes, cause: ReadError, atStart: bool, buf: Buffers)
    ensures var e := Run(b, cause, atStart, buf).err;
            IsSizeError(e) || e == if cause.Eof? then None else Some(Reading(cause))
    decreases |b|
  {
    var i := FirstTerminator(b);
    if i < |b| {
      RunError(AfterLine(b, i), cause, false, Step(buf, StripBom(atStart, b[..i])));
    }
  }

  // --------------------------------------------------------------- one line

  /** The result of reading one line, as a function of the unread stream alone. */
  function LineOf(b: Bytes, cause: ReadError, atStart: bool): (Bytes, Option<Error>) {
    var i := FirstTerminator(b);
    if (if i < |b| then i + 1 else i) > MAX_LINE_SIZE then ("", Some(LineTooLong))
    else if i < |b| then (StripBom(atStart, b[..i + 1]), None)
    else (StripBom(atStart, b), Some(Reading(cause)))
  }

  ghost function RestOf(b: Bytes): Bytes {
    var i := FirstTerminator(b);
    if i < |b| then AfterLine(b, i) else ""
  }

  /** bytes.TrimRight(line, "\r\n"). */
  function TrimLineEnd(line: Bytes): Bytes {
    if line != "" && IsTerminator(line[|line| - 1]) then TrimLineEnd(line[..|line| - 1]) else line
  }

  lemma BomBeforeLineEnd(b: Bytes, atStart: bool, i: nat)
    requires i < |b| && IsTerminator(b[i])
    ensures StripBom(atStart, b[..i + 1]) == StripBom(atStart, b[..i]) + [b[i]]
  {
    var line, raw := b[..i], b[..i + 1];
    assert raw == line + [b[i]];
    if BOM <= raw {
      assert raw[2] == BOM[2];
      assert raw[i] == b[i];
    }
  }

  lemma NoLineEndInside(b: Bytes, atStart: bool)
    ensures var line := StripBom(atStart, b[..FirstTerminator(b)]);
            TrimLineEnd(line) == line
  {
    var line := StripBom(atStart, b[..FirstTerminator(b)]);
    assert forall k | 0 <= k < |line| :: !IsTerminator(line[k]);
  }

  lemma TrimOne(line: Bytes, c: char)
    requires IsTerminator(c) && TrimLineEnd(line) == line
    ensures TrimLineEnd(line + [c]) == line
  {
    assert (line + [c])[..|line|] == line;
  }

  /** Trimming what ReadLine returns leaves the line the standard speaks of; only an
      unterminated line that is empty, or a mere byte order mark, comes back empty. */
  lemma LineContent(b: Bytes, atStart: bool)
    ensures var i := FirstTerminator(b);
            var raw := StripBom(atStart, if i < |b| then b[..i + 1] else b);
            && TrimLineEnd(raw) == StripBom(atStart, b[..i])
            && (i < |b| ==> raw != "")
  {
    var i := FirstTerminator(b);
    NoLineEndInside(b, atStart);
    if i < |b| {
      BomBeforeLineEnd(b, atStart, i);
      TrimOne(StripBom(atStart, b[..i]), b[i]);
    } else {
      assert b[..i] == b;
    }
  }

  /** What one line means for everything still to be delivered. */
  lemma RunByLine(b: Bytes, cause: ReadError, atStart: bool, buf: Buffers)
    ensures var (raw, e) := LineOf(b, cause, atStart);
            var line := TrimLineEnd(raw);
            var all := Run(b, cause, atStart, buf);
            if e == Some(LineTooLong) then all == Outcome([], e)
            else if TooBig(buf, line) then all == Outcome([], Some(EventTooLarge))
            else if e.Some? then all == Outcome([], if cause.Eof? then None else e)
            else
              && raw != "" && |RestOf(b)| < |b|
              && (if line == "" && buf.data != "" then
                    var o := Run(RestOf(b), cause, false, EMPTY);
                    all == Outcome([Event(buf.typ, buf.data[..|buf.data| - 1])] + o.events, o.err)
                  else all == Run(RestOf(b), cause, false, Step(buf, line)))
  {
    LineContent(b, atStart);
  }

  /** These events, and then that outcome. */
  function Following(events: seq<Event>, o: Outcome): Outcome {
    Outcome(events + o.events, o.err)
  }

  lemma FollowingOne(events: seq<Event>, event: Event, o: Outcome)
    ensures Following(events, Outcome([event] + o.events, o.err)) == Following(events + [event], o)
  {
    assert events + ([event] + o.events) == events + [event] + o.events;
  }

  lemma FollowingAll(events: seq<Event>, err: Option<Error>)
    ensures Following(events, Outcome([], err)) == Outcome(events, err)
  {
    assert events + [] == events;
  }

  // ------------------------------------------------------------------ Next

  datatype PayloadLine = Skip | Done | Item(data: Bytes)

  /** The payload of a "data:" line; [DONE] ends the payloads. */
  function Payload(line: Bytes): PayloadLine {
    if "data:" <= line then
      var v := line[5..];
      var p := if v != "" && v[0] == ' ' then v[1..] else v;
      if p == "[DONE]" then Done else Item(p)
    else Skip
  }

  datatype Payloads = Payloads(items: seq<Bytes>, done: bool, err: Option<Error>)

  ghost function Before(p: PayloadLine, rest: Payloads): Payloads {
    match p
    case Skip => rest
    case Done => Payloads([], true, None)
    case Item(data) => rest.(items := [data] + rest.items)
  }

  ghost function EndPayloads(cause: ReadError): Payloads {
    Payloads([], false, if cause.Eof? then None else Some(Reading(cause)))
  }

  /** Everything `Next` still returns: the payload of each "data:" line, the
      unterminated last one included, up to [DONE]. */
  ghost function RunPayloads(b: Bytes, cause: ReadError, atStart: bool): Payloads
    decreases |b|
  {
    var i := FirstTerminator(b);
    if (if i < |b| then i + 1 else i) > MAX_LINE_SIZE then Payloads([], false, Some(LineTooLong))
    else
      Before(Payload(StripBom(atStart, b[..i])),
             if i == |b| then EndPayloads(cause) else RunPayloads(AfterLine(b, i), cause, false))
  }

  ghost function PayloadsOf(lines: seq<Bytes>, end: Payloads): Payloads {
    if lines == [] then end else Before(Payload(lines[0]), PayloadsOf(lines[1..], end))
  }

  /** No line up to the one with [DONE] is over its limit. */
  ghost predicate FitUntilDone(b: Bytes, atStart: bool)
    decreases |b|
  {
    var i := FirstTerminator(b);
    && (if i < |b| then i + 1 else i) <= MAX_LINE_SIZE
    && (i < |b| && !Payload(StripBom(atStart, b[..i])).Done? ==> FitUntilDone(AfterLine(b, i), false))
  }

  /** `Next` returns the payloads of the standard's lines, in order, up to [DONE], or stops
      at a line over the limit before that. */
  lemma {:induction false} NextIsPayloads(b: Bytes, cause: ReadError, atStart: bool)
    ensures var run := RunPayloads(b, cause, atStart);
            var reference := PayloadsOf(AllLines(StripBom(atStart, b)), EndPayloads(cause));
            if FitUntilDone(b, atStart) then run == reference
            else run.err == Some(LineTooLong) && run.items <= reference.items
    decreases |b|
  {
    var i := FirstTerminator(b);
    BomIsInFirstLine(b, atStart);
    if i == |b| {
      LastLinePayload(b, atStart);
    } else {
      NextIsPayloads(AfterLine(b, i), cause, false);
      FirstLinePayload(b, cause, atStart);
    }
  }

  lemma LastLinePayload(b: Bytes, atStart: bool)
    requires FirstTerminator(b) == |b|
    ensures var s := StripBom(atStart, b);
            AllLines(s) == (if s == "" then [] else [s]) && StripBom(atStart, b[..|b|]) == s
            && forall end :: PayloadsOf(AllLines(s), end) == Before(Payload(s), end)
  {
    var s := StripBom(atStart, b);
    BomIsInFirstLine(b, atStart);
    assert b[..|b|] == b;
    assert AllLines(s) == if s == "" then [] else [s];
    assert s != "" ==> AllLines(s)[1..] == [];
  }

  lemma FirstLinePayload(b: Bytes, cause: ReadError, atStart: bool)
    requires FirstTerminator(b) < |b|
    ensures var i := FirstTerminator(b);
            PayloadsOf(AllLines(StripBom(atStart, b)), EndPayloads(cause))
            == Before(Payload(StripBom(atStart, b[..i])),
                      PayloadsOf(AllLines(StripBom(false, AfterLine(b, i))), EndPayloads(cause)))
  {
    var i := FirstTerminator(b);
    var s, line, next := StripBom(atStart, b), StripBom(atStart, b[..i]), AfterLine(b, i);
    BomIsInFirstLine(b, atStart);
    assert AllLines(s) == [line] + AllLines(next);
    assert AllLines(s)[1..] == AllLines(next) && AllLines(s)[0] == line;
    assert StripBom(false, next) == next;
  }

  /** The same, in terms of one ReadLine. */
  lemma PayloadStep(b: Bytes, cause: ReadError, atStart: bool)
    ensures var (raw, e) := LineOf(b, cause, atStart);
            var later := RunPayloads(RestOf(b), cause, atStart && b == "");
            RunPayloads(b, cause, atStart)
            == if e == Some(LineTooLong) then Payloads([], false, e)
               else Before(if raw == "" then Skip else Payload(TrimLineEnd(raw)),
                           if e.Some? then EndPayloads(cause) else later)
  {
    LineContent(b, atStart);
  }

  // --------------------------------------------------------------- scanner

  /** The stream as the scanner's fields represent it. */
  ghost function View(pending: Bytes, readErr: Option<ReadError>, script: seq<Read>, skipLF: bool, empties: nat): Tail {
    var t := if readErr.Some? then Tail(pending, readErr.value)
             else var d := Drain(script, empties); Tail(pending + d.bytes, d.cause);
    if skipLF && t.bytes != "" && t.bytes[0] == '\n' then t.(bytes := t.bytes[1..]) else t
  }

  /** Skipping a pending LF is what makes the next view start after a CRLF pair. */
  lemma ViewAfterLine(pending: Bytes, readErr: Option<ReadError>, script: seq<Read>, end: nat)
    requires end == FirstTerminator(pending) + 1 <= |pending|
    ensures var b := View(pending, readErr, script, false, 0).bytes;
            && FirstTerminator(b) == end - 1 && end <= |b| && b[..end] == pending[..end]
            && View(pending[end..], readErr, script, pending[end - 1] == '\r', 0)
               == Tail(AfterLine(b, end - 1), View(pending, readErr, script, false, 0).cause)
  {
    var b := View(pending, readErr, script, false, 0).bytes;
    assert forall k | 0 <= k < |pending| :: b[k] == pending[k];
    FirstTerminatorIs(b, end - 1);
    var d := b[|pending|..];
    assert b == pending + d && b[end..] == pending[end..] + d;
    if pending[end - 1] == '\r' && end < |b| && b[end] == '\n' {
      assert b[end..][0] == '\n' && b[end..][1..] == b[end + 1..];
    }
  }

  /** One read moves bytes from the reader to the buffer and leaves the view alone. */
  lemma ViewAfterRead(pending: Bytes, script: seq<Read>, skipLF: bool, empties: nat, r: Read, rest: seq<Read>)
    requires empties < MAX_EMPTY_READS
    requires if script == [] then r == Read("", Some(Eof)) && rest == [] else r == script[0] && rest == script[1..]
    ensures var n := if r.data == "" && r.err.None? then empties + 1 else if r.data == "" then empties else 0;
            var e := if r.err.None? && n >= MAX_EMPTY_READS then Some(NoProgress) else r.err;
            View(pending + r.data, e, rest, skipLF, n) == View(pending, None, script, skipLF, empties)
  {
    var d := Drain(script, empties).bytes;
    assert d == r.data + d[|r.data|..];
    assert pending + (r.data + d[|r.data|..]) == pending + r.data + d[|r.data|..];
  }

  class Scanner {
    const reader: Reader
    var pending: Bytes
    var scanFrom: nat
    var readErr: Option<ReadError>
    var atStart: bool
    var skipLF: bool
    var err: Option<Error>
    var done: bool

    constructor (reader: Reader)
      requires reader.Valid()
      ensures Valid() && this.reader == reader && err.None? && !done
      ensures atStart && Rest() == Drain(reader.script, 0)
    {
      this.reader := reader;
      pending, scanFrom, readErr := "", 0, None;
      atStart, skipLF, err, done := true, false, None, false;
      new;
      assert pending + Drain(reader.script, 0).bytes == Drain(reader.script, 0).bytes;
    }

    /** The buffer never holds more than one line's limit plus one read. */
    ghost predicate Bounded()
      reads this
    {
      |pending| <= MAX_LINE_SIZE + READ_SIZE
    }

    ghost predicate Valid()
      reads this, reader
    {
      Valid0() && (skipLF ==> scanFrom == 0)
    }

    ghost predicate Valid0()
      reads this, reader
    {
      && reader.Valid()
      && Bounded()
      && scanFrom <= |pending|
      && (forall k | 0 <= k < scanFrom :: !IsTerminator(pending[k]))
    }

    /** The unread stream after `empties` empty reads, a pending LF left out. */
    ghost function RestAfter(empties: nat): Tail
      reads this, reader
    {
      View(pending, readErr, reader.script, skipLF, empties)
    }

    ghost function Rest(): Tail
      reads this, reader
    {
      RestAfter(0)
    }

    /** Everything NextEvent still has to deliver. */
    ghost function Remaining(): Outcome
      reads this, reader
    {
      Run(Rest().bytes, Rest().cause, atStart, EMPTY)
    }

    ghost function RemainingPayloads(): Payloads
      reads this, reader
    {
      RunPayloads(Rest().bytes, Rest().cause, atStart)
    }

    method ClearPendingLF(ghost empties: nat)
      requires Valid()
      modifies this`pending, this`skipLF
      ensures Valid() && RestAfter(empties) == old(RestAfter(empties))
      ensures |pending| <= old(|pending|) && (skipLF ==> pending == "" && readErr.None?)
      ensures old(!skipLF || pending == "") ==> pending == old(pending)
    {
      if skipLF {
        if pending != "" {
          if pending[0] == '\n' {
            ghost var d := Drain(reader.script, empties).bytes;
            assert (pending + d)[1..] == pending[1..] + d;
            pending := pending[1..];
          }
          skipLF := false;
        } else if readErr.Some? {
          skipLF := false;
        }
      }
    }

    method LineEnd() returns (end: nat, complete: bool)
      requires Valid() && (skipLF ==> pending == "")
      modifies this`scanFrom, this`skipLF
      ensures var i := FirstTerminator(pending);
              && complete == (i < |pending|)
              && (complete ==> end == i + 1 && scanFrom == old(scanFrom) && skipLF == (pending[i] == '\r'))
              && (!complete ==> scanFrom == |pending| && skipLF == old(skipLF))
    {
      var index := TerminatorFrom(pending, scanFrom);
      FirstTerminatorIs(pending, index);
      if index == |pending| {
        scanFrom := |pending|;
        return 0, false;
      }
      if pending[index] == '\r' {
        skipLF := true;
      }
      return index + 1, true;
    }

    method StripInitialBom(line: Bytes) returns (r: Bytes)
      modifies this`atStart
      ensures r == StripBom(old(atStart), line) && !atStart
    {
      if !atStart {
        return line;
      }
      atStart := false;
      return StripBom(true, line);
    }

    method TakeLine(end: nat) returns (line: Bytes, e: Option<Error>)
      requires Valid0() && end == FirstTerminator(pending) + 1 <= |pending|
      requires skipLF == (pending[end - 1] == '\r')
      modifies this`pending, this`scanFrom, this`atStart
      ensures Bounded()
      ensures var was := View(old(pending), readErr, reader.script, false, 0);
              && (line, e) == LineOf(was.bytes, was.cause, old(atStart))
              && was.bytes != "" && (e.None? || e == Some(LineTooLong))
              && (e.None? ==> Valid() && !atStart && Rest() == Tail(RestOf(was.bytes), was.cause))
    {
      ViewAfterLine(pending, readErr, reader.script, end);
      if end > MAX_LINE_SIZE {
        return "", Some(LineTooLong);
      }
      line := pending[..end];
      pending := pending[end..];
      scanFrom := 0;
      line := StripInitialBom(line);
      return line, None;
    }

    /** The last, unterminated line, or nothing. */
    method TakeRest() returns (line: Bytes, e: Option<Error>)
      requires Valid() && readErr.Some? && !skipLF && |pending| <= MAX_LINE_SIZE
      requires FirstTerminator(pending) == |pending|
      modifies this`pending, this`scanFrom, this`atStart
      ensures (line, e) == LineOf(old(pending), readErr.value, old(atStart))
      ensures Valid() && Rest() == Tail("", readErr.value) && atStart == (old(atStart) && old(pending) == "")
    {
      if pending == "" {
        return "", Some(Reading(readErr.value));
      }
      line := pending;
      pending := "";
      scanFrom := 0;
      line := StripInitialBom(line);
      return line, Some(Reading(readErr.value));
    }

    /** One read from the underlying stream. */
    method Fill(emptyReads: nat) returns (n: nat)
      requires Valid() && readErr.None? && emptyReads < MAX_EMPTY_READS
      requires |pending| <= MAX_LINE_SIZE && scanFrom == |pending| && (skipLF ==> pending == "")
      modifies this`pending, this`readErr, reader
      ensures Valid() && RestAfter(n) == old(RestAfter(emptyReads))
      ensures readErr.None? ==> n < MAX_EMPTY_READS && |reader.script| < |old(reader.script)|
      ensures n > 0 && readErr.None? ==> scanFrom == |pending| && (skipLF ==> pending == "")
    {
      ghost var script := reader.script;
      var r := reader.Next();
      ViewAfterRead(pending, script, skipLF, emptyReads, r, reader.script);
      assert r.data == "" ==> pending + r.data == pending;
      n := emptyReads;
      if r.data != "" {
        pending := pending + r.data;
        n := 0;
      } else if r.err.None? {
        n := n + 1;
        if n >= MAX_EMPTY_READS {
          readErr := Some(NoProgress);
        }
      }
      if r.err.Some? {
        readErr := r.err;
      }
    }

    /** One line with its line end, or what is left and the error that ended it. The
        result depends on the unread stream alone, not on its division into reads. */
    method ReadLine() returns (line: Bytes, e: Option<Error>)
      requires Valid()
      modifies this`pending, this`scanFrom, this`readErr, this`atStart, this`skipLF, reader
      ensures Bounded()
      ensures (line, e) == LineOf(old(Rest()).bytes, old(Rest()).cause, old(atStart))
      ensures e != Some(LineTooLong) ==>
                && Valid()
                && atStart == (old(atStart) && old(Rest()).bytes == "")
                && Rest() == Tail(RestOf(old(Rest()).bytes), old(Rest()).cause)
    {
      var emptyReads: nat := 0;
      ghost var start := Rest();
      while true
        invariant Valid() && RestAfter(emptyReads) == start
        invariant readErr.None? ==> emptyReads < MAX_EMPTY_READS
        invariant emptyReads > 0 && readErr.None? ==> scanFrom == |pending| && (skipLF ==> pending == "")
        invariant atStart == old(atStart)
        decreases readErr.None?, |reader.script|
      {
        ClearPendingLF(emptyReads);
        var end, complete := LineEnd();
        if complete {
          assert readErr.None? ==> emptyReads == 0;
          line, e := TakeLine(end);
          return;
        }
        assert forall k | 0 <= k < |pending| :: start.bytes[k] == pending[k];
        if |pending| > MAX_LINE_SIZE {
          assert FirstTerminator(start.bytes) >= |pending|;
          return "", Some(LineTooLong);
        }
        if readErr.Some? {
          assert start.bytes == pending;
          line, e := TakeRest();
          return;
        }
        emptyReads := Fill(emptyReads);
      }
    }

    /** One field line added to the event under construction. */
    static method AddField(event: Event, hasData: bool, line: Bytes) returns (e: Event, d: bool, fits: bool)
      requires line != "" && (!hasData ==> event.data == "")
      ensures fits <==> !TooBig(BuffersOf(event, hasData), line)
      ensures fits ==> BuffersOf(e, d) == Step(BuffersOf(event, hasData), line) && (!d ==> e.data == "")
    {
      e, d := event, hasData;
      if line[0] == ':' {
        return e, d, true;
      }
      var field, value := Field(line), FieldValue(line);
      if field == "event" {
        e := e.(typ := value);
      } else if field == "data" {
        var additional := |value| + (if hasData then 1 else 0);
        if |e.data| + additional > MAX_EVENT_SIZE {
          return e, d, false;
        }
        if hasData {
          e := e.(data := e.data + "\n");
        }
        e := e.(data := e.data + value);
        d := true;
      }
      fits := true;
    }

    /** One turn of NextEvent's loop: a line read and added to the event, and what
        that means for everything still to be delivered. */
    method ReadIntoEvent(event: Event, hasData: bool) returns (e: Event, d: bool, turn: Turn)
      requires Valid() && err.None? && (!hasData ==> event.data == "")
      modifies this, reader
      ensures Bounded() && (turn != Stopped ==> Valid() && err.None? && |Rest().bytes| < |old(Rest()).bytes|)
      ensures var goal := old(Run(Rest().bytes, Rest().cause, atStart, BuffersOf(event, hasData)));
              match turn
              case Continue =>
                (!d ==> e.data == "") && Run(Rest().bytes, Rest().cause, atStart, BuffersOf(e, d)) == goal
              case Dispatched => goal == Outcome([e] + Remaining().events, Remaining().err)
              case Stopped => goal == Outcome([], err) && (err.None? ==> Valid())
    {
      RunByLine(Rest().bytes, Rest().cause, atStart, BuffersOf(event, hasData));
      e, d := event, hasData;
      var raw, readErr := ReadLine();
      if raw != "" {
        var line := TrimLineEnd(raw);
        if line == "" {
          if hasData {
            return e, d, Dispatched;
          }
          e := e.(typ := "");
        } else {
          var fits;
          e, d, fits := AddField(event, hasData, line);
          if !fits {
            err := Some(EventTooLarge);
            return e, d, Stopped;
          }
        }
      }
      if readErr.Some? {
        if readErr.value != Reading(Eof) {
          err := readErr;
        }
        return e, d, Stopped;
      }
      turn := Continue;
    }

    /** The next complete event of the unread stream, or the reason there is none. */
    method NextEvent() returns (event: Event, ok: bool)
      requires err.None? ==> Valid()
      modifies this, reader
      ensures old(err).Some? ==> !ok && err == old(err)
      ensures old(err).None? ==> Bounded()
      ensures old(err).None? && ok ==>
                && err.None? && Valid() && |Rest().bytes| < |old(Rest()).bytes|
                && old(Remaining()) == Outcome([event] + Remaining().events, Remaining().err)
      ensures old(err).None? && !ok ==> old(Remaining()) == Outcome([], err) && (err.None? ==> Valid())
    {
      event := Event("", "");
      if err.Some? {
        return event, false;
      }
      var hasData := false;
      ghost var goal := Remaining();
      while true
        invariant Valid() && err.None? && (!hasData ==> event.data == "")
        invariant |Rest().bytes| <= |old(Rest()).bytes|
        invariant Run(Rest().bytes, Rest().cause, atStart, BuffersOf(event, hasData)) == goal
        decreases |Rest().bytes|
      {
        var turn;
        event, hasData, turn := ReadIntoEvent(event, hasData);
        if turn.Dispatched? {
          return event, true;
        }
        if turn.Stopped? {
          return event, false;
        }
      }
    }

    /** The callers' loop: every event of the stream, then the error it ends with. */
    method AllEvents() returns (events: seq<Event>)
      requires Valid() && err.None?
      modifies this, reader
      ensures Outcome(events, err) == old(Remaining())
    {
      events := [];
      while true
        invariant Valid() && err.None?
        invariant old(Remaining()) == Following(events, Remaining())
        decreases |Rest().bytes|
      {
        var event, ok := NextEvent();
        FollowingAll(events, err);
        if !ok {
          return;
        }
        FollowingOne(events, event, Remaining());
        events := events + [event];
      }
    }

    /** One turn of Next's loop. */
    method ReadPayload() returns (data: Bytes, turn: Turn)
      requires Valid() && err.None? && !done
      modifies this, reader
      ensures Bounded() && (turn != Stopped ==> Valid() && err.None? && !done)
      ensures turn == Continue ==> |Rest().bytes| < |old(Rest()).bytes|
      ensures match turn
              case Continue => RemainingPayloads() == old(RemainingPayloads())
              case Dispatched =>
                old(RemainingPayloads()) == (var p := RemainingPayloads(); p.(items := [data] + p.items))
              case Stopped => old(RemainingPayloads()) == Payloads([], done, err)
    {
      PayloadStep(Rest().bytes, Rest().cause, atStart);
      var line, e := ReadLine();
      data := "";
      if line != "" {
        match Payload(TrimLineEnd(line)) {
          case Done =>
            done := true;
            return "", Stopped;
          case Item(payload) =>
            return payload, Dispatched;
          case Skip =>
        }
      }
      if e.Some? {
        if e.value != Reading(Eof) {
          err := e;
        }
        return "", Stopped;
      }
      turn := Continue;
    }

    /** The next payload, or the reason there is none. */
    method Next() returns (data: Bytes, ok: bool)
      requires err.None? && !done ==> Valid()
      modifies this, reader
      ensures old(done || err.Some?) ==> !ok && err == old(err) && done == old(done)
      ensures old(!done && err.None?) ==> Bounded()
      ensures old(!done && err.None?) && ok ==>
                && Valid() && err.None? && !done
                && old(RemainingPayloads())
                   == (var p := RemainingPayloads(); p.(items := [data] + p.items))
      ensures old(!done && err.None?) && !ok ==> old(RemainingPayloads()) == Payloads([], done, err)
    {
      if done || err.Some? {
        return "", false;
      }
      ghost var goal := RemainingPayloads();
      while true
        invariant Valid() && err.None? && !done
        invariant RemainingPayloads() == goal
        decreases |Rest().bytes|
      {
        var turn;
        data, turn := ReadPayload();
        if turn.Dispatched? {
          return data, true;
        }
        if turn.Stopped? {
          return "", false;
        }
      }
    }
  }

  datatype Turn = Continue | Dispatched | Stopped

  /** An event under construction, as the standard's buffers hold it. */
  ghost function BuffersOf(event: Event, hasData: bool): Buffers {
    Buffers(if hasData then event.data + "\n" else "", event.typ)
  }

  /** A caller's whole run over a stream, from a new scanner: the standard's events
      whatever the division into reads, and the error that stopped it. */
  method ScanEvents(script: seq<Read>) returns (events: seq<Event>, err: Option<Error>)
    requires forall r | r in script :: |r.data| <= READ_SIZE
    ensures var t := Drain(script, 0);
            if WithinLimits(t.bytes)
            then events == WhatwgEvents(t.bytes) && err == if t.cause.Eof? then None else Some(Reading(t.cause))
            else events <= WhatwgEvents(t.bytes) && IsSizeError(err)
  {
    var reader := new Reader(script);
    var scanner := new Scanner(reader);
    WholeStream(scanner.Rest().bytes, scanner.Rest().cause);
    events := scanner.AllEvents();
    err := scanner.err;
  }
}
