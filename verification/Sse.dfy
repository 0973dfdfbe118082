/**
 * The incremental server-sent-event parser (_http.py, _iter_sse_lines and
 * iter_server_sent_events).
 */
module Sse {
  import opened Wrappers
  import opened Messages

  const CR := '\r'
  const LF := '\n'

  datatype SseError = LineTooLong | EventTooLong | BadEncoding

  /** What a generator yielded before it ended or raised. */
  datatype Yielded<T> = Yielded(items: seq<T>, error: Option<SseError>)

  /** Strict UTF-8 validity of one line is left to the decoder. */
  type Decoder = Text -> bool

  // ------------------------------------------------- lines, by definition

  /** The length of the first line: up to, not including, the first CR or LF. */
  function LineLength(s: Text): (n: nat)
    ensures n <= |s|
    ensures n < |s| ==> s[n] == CR || s[n] == LF
    ensures forall i :: 0 <= i < n ==> s[i] != CR && s[i] != LF
  {
    if s == [] || s[0] == CR || s[0] == LF then 0 else 1 + LineLength(s[1..])
  }

  /** What follows a line terminator at n: CR LF is one terminator. */
  function AfterTerminator(s: Text, n: nat): (rest: Text)
    requires n < |s|
    ensures |rest| < |s|
  {
    if s[n] == CR && n + 1 < |s| && s[n + 1] == LF then s[n + 2..] else s[n + 1..]
  }

  /** Splitting on CR, LF or CR LF; a last line without a terminator counts unless empty. */
  function SplitLines(s: Text): seq<Text>
    decreases |s|
  {
    var n := LineLength(s);
    if n == |s| then (if s == [] then [] else [s])
    else [s[..n]] + SplitLines(AfterTerminator(s, n))
  }

  /** Lines are yielded up to the first that is too long or does not decode. */
  function Checked(lines: seq<Text>, limit: nat, decodes: Decoder): Yielded<Text> {
    if lines == [] then Yielded([], None)
    else if |lines[0]| > limit then Yielded([], Some(LineTooLong))
    else if !decodes(lines[0]) then Yielded([], Some(BadEncoding))
    else
      var rest := Checked(lines[1..], limit, decodes);
      Yielded([lines[0]] + rest.items, rest.error)
  }

  function Join(chunks: seq<Text>): Text {
    if chunks == [] then [] else chunks[0] + Join(chunks[1..])
  }

  // ----------------------------------------------- the byte-by-byte parser

  /** What the parser will still do: pending text, then the unread bytes. */
  function Remaining(pending: Text, skipLf: bool, unread: Text): seq<Text> {
    SplitLines(pending + (if skipLf && unread != [] && unread[0] == LF then unread[1..] else unread))
  }

  /** A prefix yields, then the rest goes on. */
  function Then(done: seq<Text>, rest: Yielded<Text>): Yielded<Text> {
    Yielded(done + rest.items, rest.error)
  }

  predicate NoTerminator(s: Text) { forall i :: 0 <= i < |s| ==> s[i] != CR && s[i] != LF }

  lemma {:induction false} LineLengthPast(pending: Text, unread: Text)
    requires NoTerminator(pending)
    ensures LineLength(pending + unread) == |pending| + LineLength(unread)
  {
    if pending == [] {
      assert pending + unread == unread;
    } else {
      assert (pending + unread)[1..] == pending[1..] + unread;
      LineLengthPast(pending[1..], unread);
    }
  }

  /** Reading CR or LF yields the pending line. */
  lemma {:induction false} TerminatorYields(pending: Text, unread: Text)
    requires NoTerminator(pending) && unread != [] && (unread[0] == CR || unread[0] == LF)
    ensures SplitLines(pending + unread) == [pending] + Remaining([], unread[0] == CR, unread[1..])
  {
    var whole := pending + unread;
    LineLengthPast(pending, unread);
    assert LineLength(unread) == 0;
    assert whole[..|pending|] == pending;
    var rest := unread[1..];
    assert whole[|pending| + 1..] == rest;
    var kept := if unread[0] == CR && rest != [] && rest[0] == LF then rest[1..] else rest;
    assert AfterTerminator(whole, |pending|) == kept by {
      if unread[0] == CR && rest != [] && rest[0] == LF {
        assert whole[|pending| + 1] == LF;
        assert whole[|pending| + 2..] == rest[1..];
      }
    }
    assert [] + kept == kept;
  }

  /** An overlong line is one whose first limit bytes already fill the buffer. */
  lemma {:induction false} OverlongFirst(pending: Text, unread: Text, limit: nat)
    requires NoTerminator(pending) && |pending| >= limit
    requires unread != [] && unread[0] != CR && unread[0] != LF
    ensures var lines := SplitLines(pending + unread); lines != [] && |lines[0]| > limit
  {
    LineLengthPast(pending, unread);
    assert LineLength(unread) >= 1;
  }

  /** What has been yielded, and what the parser state and the unread bytes still yield. */
  ghost predicate Reading(target: Yielded<Text>, lines: seq<Text>, pending: Text, skipLf: bool, unread: Text,
                          limit: nat, decodes: Decoder)
  {
    && NoTerminator(pending) && |pending| <= limit
    && target == Then(lines, Checked(Remaining(pending, skipLf, unread), limit, decodes))
  }

  lemma DropLf(target: Yielded<Text>, lines: seq<Text>, pending: Text, unread: Text, limit: nat, decodes: Decoder)
    requires Reading(target, lines, pending, true, unread, limit, decodes) && unread != [] && unread[0] == LF
    ensures Reading(target, lines, pending, false, unread[1..], limit, decodes)
  {
  }

  lemma LineYields(target: Yielded<Text>, lines: seq<Text>, pending: Text, unread: Text, limit: nat, decodes: Decoder)
    requires Reading(target, lines, pending, false, unread, limit, decodes) && decodes(pending)
    requires unread != [] && (unread[0] == CR || unread[0] == LF)
    ensures Reading(target, lines + [pending], [], unread[0] == CR, unread[1..], limit, decodes)
  {
    TerminatorYields(pending, unread);
    var rest := Remaining([], unread[0] == CR, unread[1..]);
    assert ([pending] + rest)[1..] == rest;
    assert lines + ([pending] + Checked(rest, limit, decodes).items)
        == lines + [pending] + Checked(rest, limit, decodes).items;
  }

  lemma LineFails(target: Yielded<Text>, lines: seq<Text>, pending: Text, unread: Text, limit: nat, decodes: Decoder)
    requires Reading(target, lines, pending, false, unread, limit, decodes) && !decodes(pending)
    requires unread != [] && (unread[0] == CR || unread[0] == LF)
    ensures target == Yielded(lines, Some(BadEncoding))
  {
    TerminatorYields(pending, unread);
  }

  lemma LineOverflows(target: Yielded<Text>, lines: seq<Text>, pending: Text, unread: Text, limit: nat,
                      decodes: Decoder)
    requires Reading(target, lines, pending, false, unread, limit, decodes) && |pending| >= limit
    requires unread != [] && unread[0] != CR && unread[0] != LF
    ensures target == Yielded(lines, Some(LineTooLong))
  {
    OverlongFirst(pending, unread, limit);
  }

  lemma ByteJoinsLine(target: Yielded<Text>, lines: seq<Text>, pending: Text, unread: Text, limit: nat,
                      decodes: Decoder)
    requires Reading(target, lines, pending, false, unread, limit, decodes) && |pending| < limit
    requires unread != [] && unread[0] != CR && unread[0] != LF
    ensures Reading(target, lines, pending + [unread[0]], false, unread[1..], limit, decodes)
  {
    assert pending + unread == (pending + [unread[0]]) + unread[1..];
  }

  /** The stream ends: a pending line without terminator is yielded too. */
  lemma LastLine(target: Yielded<Text>, lines: seq<Text>, pending: Text, skipLf: bool, limit: nat, decodes: Decoder)
    requires Reading(target, lines, pending, skipLf, [], limit, decodes)
    ensures pending == [] ==> target == Yielded(lines, None)
    ensures pending != [] && decodes(pending) ==> target == Yielded(lines + [pending], None)
    ensures pending != [] && !decodes(pending) ==> target == Yielded(lines, Some(BadEncoding))
  {
    LineLengthPast(pending, []);
    assert pending + [] == pending;
    if pending != [] && decodes(pending) {
      assert [pending][1..] == [];
      assert Checked([], limit, decodes) == Yielded([], None);
      assert Checked([pending], limit, decodes) == Yielded([pending], None);
    }
    assert lines + [] == lines;
  }

  /**
   * _iter_sse_lines: for every way of cutting the byte stream into chunks the
   * parser yields what splitting the whole stream yields, and raises exactly
   * where that does.
   */
  method IterLines(chunks: seq<Text>, limit: nat, decodes: Decoder)
    returns (lines: seq<Text>, error: Option<SseError>)
    ensures Yielded(lines, error) == Checked(SplitLines(Join(chunks)), limit, decodes)
  {
    hide SplitLines;
    var pending := "";
    var skipLf := false;
    lines, error := [], None;
    ghost var target := Checked(SplitLines(Join(chunks)), limit, decodes);
    assert "" + Join(chunks) == Join(chunks);
    for c := 0 to |chunks|
      invariant error.None?
      invariant Reading(target, lines, pending, skipLf, Join(chunks[c..]), limit, decodes)
    {
      lines, pending, skipLf, error :=
        ReadChunk(chunks[c], Join(chunks[c + 1..]), lines, pending, skipLf, limit, decodes, target);
      if error.Some? { return; }
    }
    LastLine(target, lines, pending, skipLf, limit, decodes);
    if pending != [] {
      if !decodes(pending) {
        error := Some(BadEncoding);
        return;
      }
      lines := lines + [pending];
    }
  }

  /** The inner loop: one chunk, byte by byte, ahead of the chunks still to come. */
  method ReadChunk(chunk: Text, ghost later: Text, before: seq<Text>, pending0: Text, skip0: bool,
                   limit: nat, decodes: Decoder, ghost target: Yielded<Text>)
    returns (lines: seq<Text>, pending: Text, skipLf: bool, error: Option<SseError>)
    requires Reading(target, before, pending0, skip0, chunk + later, limit, decodes)
    ensures error.Some? ==> target == Yielded(lines, error)
    ensures error.None? ==> Reading(target, lines, pending, skipLf, later, limit, decodes)
  {
    lines, pending, skipLf, error := before, pending0, skip0, None;
    assert chunk[0..] == chunk;
    for i := 0 to |chunk|
      invariant error.None?
      invariant Reading(target, lines, pending, skipLf, chunk[i..] + later, limit, decodes)
    {
      ghost var unread := chunk[i..] + later;
      assert unread[1..] == chunk[i + 1..] + later;
      var item := chunk[i];
      if skipLf {
        skipLf := false;
        if item == LF {
          DropLf(target, lines, pending, unread, limit, decodes);
          continue;
        }
      }
      if item == CR || item == LF {
        if !decodes(pending) {
          LineFails(target, lines, pending, unread, limit, decodes);
          error := Some(BadEncoding);
          return;
        }
        LineYields(target, lines, pending, unread, limit, decodes);
        lines := lines + [pending];
        pending := [];
        skipLf := item == CR;
        continue;
      }
      if |pending| >= limit {
        LineOverflows(target, lines, pending, unread, limit, decodes);
        error := Some(LineTooLong);
        return;
      }
      ByteJoinsLine(target, lines, pending, unread, limit, decodes);
      pending := pending + [item];
    }
    assert chunk[|chunk|..] + later == later;
  }

  // ---------------------------------------------------------------- events

  datatype ServerSentEvent = ServerSentEvent(event: Option<Text>, data: Text)

  /** The lines before the first empty one. */
  function BlockLength(lines: seq<Text>): (n: nat)
    ensures n <= |lines|
    ensures n < |lines| ==> lines[n] == ""
    ensures forall i :: 0 <= i < n ==> lines[i] != ""
  {
    if lines == [] || lines[0] == "" then 0 else 1 + BlockLength(lines[1..])
  }

  function FindColon(line: Text): (n: nat)
    ensures n <= |line|
    ensures n < |line| ==> line[n] == ':'
    ensures forall i :: 0 <= i < n ==> line[i] != ':'
  {
    if line == [] || line[0] == ':' then 0 else 1 + FindColon(line[1..])
  }

  /** The text before the first colon. */
  function Field(line: Text): Text { line[..FindColon(line)] }

  /** The text after it, less one leading space. */
  function FieldValue(line: Text): Text {
    var n := FindColon(line);
    if n == |line| then ""
    else if n + 1 < |line| && line[n + 1] == ' ' then line[n + 2..]
    else line[n + 1..]
  }

  /** Every data value of a block, in order. */
  function DataOf(block: seq<Text>): seq<Text> {
    if block == [] then []
    else
      var last := block[|block| - 1];
      DataOf(block[..|block| - 1]) + if Field(last) == "data" then [FieldValue(last)] else []
  }

  /** The last event name of a block. */
  function NameOf(block: seq<Text>): Option<Text> {
    if block == [] then None
    else
      var last := block[|block| - 1];
      if Field(last) == "event" then Some(FieldValue(last)) else NameOf(block[..|block| - 1])
  }

  function SizeOf(block: seq<Text>): nat {
    if block == [] then 0 else SizeOf(block[..|block| - 1]) + |block[|block| - 1]| + 1
  }

  function JoinLines(lines: seq<Text>): Text {
    if lines == [] then ""
    else if |lines| == 1 then lines[0]
    else lines[0] + "\n" + JoinLines(lines[1..])
  }

  /** A block dispatches one event if it has any data line. */
  function Dispatch(block: seq<Text>): seq<ServerSentEvent> {
    if DataOf(block) == [] then [] else [ServerSentEvent(NameOf(block), JoinLines(DataOf(block)))]
  }

  /** The events of a line stream that ends, or raises `end`, after its last line. */
  function Events(lines: seq<Text>, end: Option<SseError>, limit: nat): Yielded<ServerSentEvent>
    decreases |lines|
  {
    var n := BlockLength(lines);
    if SizeOf(lines[..n]) > limit then Yielded([], Some(EventTooLong))
    else if n == |lines| then Yielded(if end.None? then Dispatch(lines) else [], end)
    else
      var rest := Events(lines[n + 1..], end, limit);
      Yielded(Dispatch(lines[..n]) + rest.items, rest.error)
  }

  lemma {:induction false} SizeMonotone(block: seq<Text>, k: nat)
    requires k <= |block|
    ensures SizeOf(block[..k]) <= SizeOf(block)
    decreases |block|
  {
    if k == |block| {
      assert block[..k] == block;
    } else {
      SizeMonotone(block[..|block| - 1], k);
      assert block[..|block| - 1][..k] == block[..k];
    }
  }

  predicate NoEmpty(lines: seq<Text>) { forall i :: 0 <= i < |lines| ==> lines[i] != "" }

  /** The stream's first block, when its first k lines are known to be non-empty. */
  lemma BlockReaches(lines: seq<Text>, k: nat)
    requires k <= |lines| && NoEmpty(lines[..k])
    ensures BlockLength(lines) >= k
    ensures k == |lines| || lines[k] == "" ==> BlockLength(lines) == k
  {
    assert forall i :: 0 <= i < k ==> lines[..k][i] == lines[i];
  }

  /** What has been yielded, and the stream from the start of the open block. */
  ghost predicate Parsed(target: Yielded<ServerSentEvent>, events: seq<ServerSentEvent>,
                         rest: seq<Text>, end: Option<SseError>, limit: nat)
  {
    var tail := Events(rest, end, limit);
    target == Yielded(events + tail.items, tail.error)
  }

  /** An empty line closes the open block and dispatches it. */
  lemma BlockCloses(target: Yielded<ServerSentEvent>, events: seq<ServerSentEvent>, rest: seq<Text>, k: nat,
                    end: Option<SseError>, name: Option<Text>, data: seq<Text>, size: nat, limit: nat)
    requires Parsed(target, events, rest, end, limit)
    requires k < |rest| && rest[k] == "" && Open(rest[..k], name, data, size, limit)
    ensures Parsed(target, events + Dispatch(rest[..k]), rest[k + 1..], end, limit)
  {
    BlockReaches(rest, k);
  }

  /** The stream ends inside the open block. */
  lemma StreamEnds(target: Yielded<ServerSentEvent>, events: seq<ServerSentEvent>, rest: seq<Text>,
                   end: Option<SseError>, name: Option<Text>, data: seq<Text>, size: nat, limit: nat)
    requires Parsed(target, events, rest, end, limit) && Open(rest, name, data, size, limit)
    ensures target == Yielded(if end.None? then events + Dispatch(rest) else events, end)
  {
    assert rest[..|rest|] == rest;
    BlockReaches(rest, |rest|);
    assert events + [] == events;
  }

  /** The three fields the parser keeps for the open block. */
  ghost predicate Open(block: seq<Text>, name: Option<Text>, data: seq<Text>, size: nat, limit: nat) {
    && name == NameOf(block) && data == DataOf(block) && size == SizeOf(block) && size <= limit
    && NoEmpty(block)
  }

  /** Before the first line nothing is open and nothing has been yielded. */
  lemma NothingRead(target: Yielded<ServerSentEvent>, lines: seq<Text>, end: Option<SseError>, limit: nat)
    ensures Open([], None, [], 0, limit) && Midway(lines, 0, [], lines)
    ensures target == Events(lines, end, limit) ==> Parsed(target, [], lines, end, limit)
  {
    assert lines[0..0] == [] && lines[0..] == lines;
    var items := Events(lines, end, limit).items;
    assert [] + items == items;
  }

  lemma DispatchOpen(events: seq<ServerSentEvent>, block: seq<Text>, name: Option<Text>, data: seq<Text>,
                     size: nat, limit: nat)
    requires Open(block, name, data, size, limit)
    ensures events + Dispatch(block)
         == if data != [] then events + [ServerSentEvent(name, JoinLines(data))] else events
  {
  }

  lemma {:induction false} LineJoinsBlock(block: seq<Text>, line: Text, name: Option<Text>, data: seq<Text>,
                                          size: nat, limit: nat)
    requires Open(block, name, data, size, limit) && line != "" && size + |line| + 1 <= limit
    ensures Open(block + [line],
                 if Field(line) == "event" then Some(FieldValue(line)) else name,
                 if Field(line) == "data" then data + [FieldValue(line)] else data,
                 size + |line| + 1, limit)
  {
    assert (block + [line])[..|block|] == block;
  }

  /** An event raises as soon as the lines read so far outgrow the limit. */
  lemma BlockOverflows(target: Yielded<ServerSentEvent>, events: seq<ServerSentEvent>, rest: seq<Text>, k: nat,
                       end: Option<SseError>, name: Option<Text>, data: seq<Text>, size: nat, limit: nat)
    requires Parsed(target, events, rest, end, limit)
    requires k < |rest| && rest[k] != "" && Open(rest[..k], name, data, size, limit)
    requires size + |rest[k]| + 1 > limit
    ensures target == Yielded(events, Some(EventTooLong))
  {
    assert rest[..k + 1] == rest[..k] + [rest[k]];
    BlockReaches(rest, k + 1);
    var block := rest[..BlockLength(rest)];
    SizeMonotone(block, k + 1);
    assert block[..k + 1] == rest[..k + 1] && rest[..k + 1][..k] == rest[..k];
    assert events + [] == events;
  }

  /** One non-empty line: a comment, an event name, a data line, or a field that is ignored. */
  method ReadField(line: Text, name0: Option<Text>, data0: seq<Text>) returns (name: Option<Text>, data: seq<Text>)
    requires line != ""
    ensures name == if Field(line) == "event" then Some(FieldValue(line)) else name0
    ensures data == if Field(line) == "data" then data0 + [FieldValue(line)] else data0
  {
    name, data := name0, data0;
    if line[0] == ':' {
      assert Field(line) == "";
      return;
    }
    var field := Field(line);
    if field == "event" {
      name := Some(FieldValue(line));
    } else if field == "data" {
      data := data + [FieldValue(line)];
    }
  }

  /** iter_server_sent_events over the lines `_iter_sse_lines` yields before `end`. */
  method CollectEvents(lines: seq<Text>, end: Option<SseError>, limit: nat)
    returns (events: seq<ServerSentEvent>, error: Option<SseError>)
    ensures Yielded(events, error) == Events(lines, end, limit)
  {
    var name: Option<Text> := None;
    var data: seq<Text> := [];
    var size: nat := 0;
    events, error := [], None;
    ghost var target := Events(lines, end, limit);
    ghost var block: seq<Text>, rest := [], lines;
    hide Events, Dispatch, Open, Parsed, Midway, JoinLines, Field, FieldValue;
    NothingRead(target, lines, end, limit);
    for i := 0 to |lines|
      invariant Midway(lines, i, block, rest) && Open(block, name, data, size, limit)
      invariant Parsed(target, events, rest, end, limit) && error.None?
    {
      var line := lines[i];
      if line == "" {
        rest := CloseBlock(lines, i, block, rest, target, events, end, name, data, size, limit);
        if data != [] {
          events := events + [ServerSentEvent(name, JoinLines(data))];
        }
        name, data, size, block := None, [], 0, [];
        continue;
      }
      ghost var before := size;
      size := size + |line| + 1;
      if size > limit {
        OverflowBlock(lines, i, block, rest, target, events, end, name, data, before, limit);
        error := Some(EventTooLong);
        return;
      }
      JoinBlock(lines, i, block, rest, name, data, before, limit);
      block := block + [line];
      name, data := ReadField(line, name, data);
    }
    EndBlock(lines, block, rest, target, events, end, name, data, size, limit);
    error := end;
    if end.None? && data != [] {
      events := events + [ServerSentEvent(name, JoinLines(data))];
    }
  }

  /** The open block is what has been read of the rest of the stream. */
  ghost predicate Midway(lines: seq<Text>, i: nat, block: seq<Text>, rest: seq<Text>) {
    exists start :: 0 <= start <= i <= |lines| && block == lines[start..i] && rest == lines[start..]
  }

  lemma CloseBlock(lines: seq<Text>, i: nat, block: seq<Text>, rest: seq<Text>, target: Yielded<ServerSentEvent>,
                   events: seq<ServerSentEvent>, end: Option<SseError>, name: Option<Text>, data: seq<Text>,
                   size: nat, limit: nat)
    returns (later: seq<Text>)
    requires i < |lines| && lines[i] == "" && Midway(lines, i, block, rest)
    requires Parsed(target, events, rest, end, limit) && Open(block, name, data, size, limit)
    ensures Midway(lines, i + 1, [], later) && Open([], None, [], 0, limit)
    ensures Parsed(target, if data != [] then events + [ServerSentEvent(name, JoinLines(data))] else events, later,
                   end, limit)
  {
    hide Parsed, Open, Dispatch;
    var start :| 0 <= start <= i && block == lines[start..i] && rest == lines[start..];
    BlockSlices(lines, start, i);
    DispatchOpen(events, block, name, data, size, limit);
    BlockCloses(target, events, rest, i - start, end, name, data, size, limit);
    NothingRead(target, lines, end, limit);
    later := lines[i + 1..];
  }

  lemma OverflowBlock(lines: seq<Text>, i: nat, block: seq<Text>, rest: seq<Text>, target: Yielded<ServerSentEvent>,
                      events: seq<ServerSentEvent>, end: Option<SseError>, name: Option<Text>, data: seq<Text>,
                      size: nat, limit: nat)
    requires i < |lines| && lines[i] != "" && size + |lines[i]| + 1 > limit && Midway(lines, i, block, rest)
    requires Parsed(target, events, rest, end, limit) && Open(block, name, data, size, limit)
    ensures target == Yielded(events, Some(EventTooLong))
  {
    hide Parsed, Open;
    var start :| 0 <= start <= i && block == lines[start..i] && rest == lines[start..];
    BlockSlices(lines, start, i);
    BlockOverflows(target, events, rest, i - start, end, name, data, size, limit);
  }

  lemma JoinBlock(lines: seq<Text>, i: nat, block: seq<Text>, rest: seq<Text>, name: Option<Text>, data: seq<Text>,
                  size: nat, limit: nat)
    requires i < |lines| && lines[i] != "" && size + |lines[i]| + 1 <= limit && Midway(lines, i, block, rest)
    requires Open(block, name, data, size, limit)
    ensures Midway(lines, i + 1, block + [lines[i]], rest)
    ensures Open(block + [lines[i]],
                 if Field(lines[i]) == "event" then Some(FieldValue(lines[i])) else name,
                 if Field(lines[i]) == "data" then data + [FieldValue(lines[i])] else data,
                 size + |lines[i]| + 1, limit)
  {
    hide Open, Field, FieldValue;
    var start :| 0 <= start <= i && block == lines[start..i] && rest == lines[start..];
    BlockSlices(lines, start, i);
    LineJoinsBlock(block, lines[i], name, data, size, limit);
  }

  lemma EndBlock(lines: seq<Text>, block: seq<Text>, rest: seq<Text>, target: Yielded<ServerSentEvent>,
                 events: seq<ServerSentEvent>, end: Option<SseError>, name: Option<Text>, data: seq<Text>,
                 size: nat, limit: nat)
    requires Midway(lines, |lines|, block, rest)
    requires Parsed(target, events, rest, end, limit) && Open(block, name, data, size, limit)
    ensures target == Yielded(
      if end.None? && data != [] then events + [ServerSentEvent(name, JoinLines(data))] else events, end)
  {
    hide Parsed, Open, Dispatch;
    var start :| 0 <= start <= |lines| && block == lines[start..|lines|] && rest == lines[start..];
    assert block == rest;
    StreamEnds(target, events, rest, end, name, data, size, limit);
    DispatchOpen(events, rest, name, data, size, limit);
  }

  lemma BlockSlices(lines: seq<Text>, start: nat, i: nat)
    requires start <= i < |lines|
    ensures lines[start..][..i - start] == lines[start..i] && lines[start..][i - start] == lines[i]
    ensures lines[start..][i - start + 1..] == lines[i + 1..] && Midway(lines, i + 1, [], lines[i + 1..])
    ensures lines[start..i + 1] == lines[start..i] + [lines[i]]
  {
    assert lines[i + 1..i + 1] == [];
  }

  /** What the parser makes of a text. */
  function ParsedOf(text: Text, maxLine: nat, maxEvent: nat, decodes: Decoder): Yielded<ServerSentEvent> {
    var lines := Checked(SplitLines(text), maxLine, decodes);
    Events(lines.items, lines.error, maxEvent)
  }

  /**
   * The whole parser: its events and its error depend on the bytes alone,
   * never on how the transport cut them into chunks.
   */
  method ParseEvents(chunks: seq<Text>, maxLine: nat, maxEvent: nat, decodes: Decoder)
    returns (events: seq<ServerSentEvent>, error: Option<SseError>)
    ensures Yielded(events, error) == ParsedOf(Join(chunks), maxLine, maxEvent, decodes)
  {
    var lines, end := IterLines(chunks, maxLine, decodes);
    events, error := CollectEvents(lines, end, maxEvent);
  }
}
