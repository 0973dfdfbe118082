/**
 * What the server-sent-event parser's lines, fields and events are, stated on
 * the characters of the stream (_http.py, section 9.2.5 of the WHATWG HTML
 * Standard).
 */
module SseText {
  import opened Wrappers
  import opened Messages
  import opened Sse

  // ------------------------------------------------------------------- lines

  predicate Terminator(t: Text) { t == "\r" || t == "\n" || t == "\r\n" }

  /** Lines written one after the other, each with what ends it. */
  function Spell(lines: seq<Text>, ends: seq<Text>): Text
    requires |lines| == |ends|
  {
    if lines == [] then "" else lines[0] + ends[0] + Spell(lines[1..], ends[1..])
  }

  /**
   * A text's lines and their terminators: only a last line that is not empty
   * may have none, and no CR stands right before an LF that ends another line.
   */
  predicate Spelled(lines: seq<Text>, ends: seq<Text>) {
    && |lines| == |ends|
    && (forall i :: 0 <= i < |lines| ==> NoTerminator(lines[i]))
    && (forall i :: 0 <= i < |lines| - 1 ==> Terminator(ends[i]))
    && (lines != [] ==> Terminator(ends[|ends| - 1]) || (ends[|ends| - 1] == "" && lines[|lines| - 1] != ""))
    && (forall i :: 0 <= i < |lines| - 1 ==> ends[i] == "\r" && lines[i + 1] == "" ==> ends[i + 1] != "\n")
  }

  lemma SpelledRest(lines: seq<Text>, ends: seq<Text>)
    requires Spelled(lines, ends) && lines != []
    ensures Spelled(lines[1..], ends[1..])
  {
  }

  /** A text that starts after a CR does not start with LF. */
  lemma {:induction false} StartsClear(lines: seq<Text>, ends: seq<Text>)
    requires Spelled(lines, ends) && lines != [] && (lines[0] == "" ==> ends[0] != "\n")
    ensures var s := Spell(lines, ends); s != "" && s[0] != LF
  {
    var s := lines[0] + ends[0];
    assert s[0] == if lines[0] == "" then ends[0][0] else lines[0][0];
  }

  lemma TailAfter(s: Text, line: Text, end: Text, rest: Text)
    requires s == line + (end + rest) && Terminator(end)
    requires end == "\r" ==> rest == "" || rest[0] != LF
    ensures |line| < |s| && AfterTerminator(s, |line|) == rest
  {
    assert s[|line|] == end[0];
    if end == "\r\n" {
      assert s[|line| + 1] == LF && s[|line| + 2..] == rest;
    } else {
      assert s[|line| + 1..] == rest;
      if rest != "" { assert s[|line| + 1] == rest[0]; }
    }
  }

  lemma SplitFirst(line: Text, end: Text, rest: Text)
    requires NoTerminator(line) && Terminator(end) && (end == "\r" ==> rest == "" || rest[0] != LF)
    ensures SplitLines(line + (end + rest)) == [line] + SplitLines(rest)
  {
    var s := line + (end + rest);
    assert LineLength(end + rest) == 0;
    LineLengthPast(line, end + rest);
    TailAfter(s, line, end, rest);
    assert s[..|line|] == line;
  }

  lemma SplitLast(line: Text)
    requires NoTerminator(line) && line != ""
    ensures SplitLines(line) == [line]
  {
    LineLengthPast(line, "");
    assert line + "" == line;
  }

  /** However lines are ended, splitting the text gives exactly the lines. */
  lemma {:induction false} SplitSpelled(lines: seq<Text>, ends: seq<Text>)
    requires Spelled(lines, ends)
    ensures SplitLines(Spell(lines, ends)) == lines
    decreases |lines|
  {
    if lines != [] {
      hide SplitLines, NoTerminator;
      var rest := Spell(lines[1..], ends[1..]);
      assert Spell(lines, ends) == lines[0] + (ends[0] + rest);
      SpelledRest(lines, ends);
      SplitSpelled(lines[1..], ends[1..]);
      if ends[0] == "" {
        assert lines[1..] == [] && rest == "" && lines[0] + ("" + rest) == lines[0];
        SplitLast(lines[0]);
      } else {
        if ends[0] == "\r" && lines[1..] != [] { StartsClear(lines[1..], ends[1..]); }
        SplitFirst(lines[0], ends[0], rest);
      }
    }
  }

  /** Every text is spelled by the lines it splits into. */
  lemma {:induction false} EveryTextIsSpelled(s: Text) returns (ends: seq<Text>)
    ensures Spelled(SplitLines(s), ends) && Spell(SplitLines(s), ends) == s
    decreases |s|
  {
    var n, lines := LineLength(s), SplitLines(s);
    if n == |s| {
      ends := if s == "" then [] else [""];
      if s != "" {
        assert lines == [s] && lines[1..] == [] && ends[1..] == [];
        assert s + "" + "" == s;
      }
    } else {
      var rest := AfterTerminator(s, n);
      var later := EveryTextIsSpelled(rest);
      var end := TerminatorAt(s, n);
      ends := [end] + later;
      assert lines[0] == s[..n] && lines[1..] == SplitLines(rest) && ends[1..] == later;
      SpelledMore(s[..n], end, SplitLines(rest), later);
    }
  }

  lemma TerminatorAt(s: Text, n: nat) returns (end: Text)
    requires n < |s| && (s[n] == CR || s[n] == LF)
    ensures Terminator(end) && s == s[..n] + end + AfterTerminator(s, n)
    ensures end == "\r" ==> AfterTerminator(s, n) == "" || AfterTerminator(s, n)[0] != LF
  {
    var rest := AfterTerminator(s, n);
    end := s[n..|s| - |rest|];
    assert rest == s[|s| - |rest|..];
    if |end| == 2 { assert end[0] == CR && end[1] == LF; }
  }

  lemma SpelledMore(line: Text, end: Text, lines: seq<Text>, ends: seq<Text>)
    requires NoTerminator(line) && Terminator(end) && Spelled(lines, ends)
    requires end == "\r" ==> Spell(lines, ends) == "" || Spell(lines, ends)[0] != LF
    ensures Spelled([line] + lines, [end] + ends)
    ensures Spell([line] + lines, [end] + ends) == line + end + Spell(lines, ends)
  {
    assert ([line] + lines)[1..] == lines && ([end] + ends)[1..] == ends;
    if end == "\r" && lines != [] && lines[0] == "" && Spell(lines, ends) != "" {
      FirstEnd(lines, ends, Spell(lines, ends));
    }
    if lines != [] && lines[0] == "" {
      assert ends[0] != "" && Spell(lines, ends) == ends[0] + Spell(lines[1..], ends[1..]);
    }
    var all, last := [line] + lines, [end] + ends;
    forall i | 0 <= i < |all| ensures NoTerminator(all[i]) { if i > 0 { assert all[i] == lines[i - 1]; } }
    forall i | 0 <= i < |all| - 1 ensures Terminator(last[i]) { if i > 0 { assert last[i] == ends[i - 1]; } }
    forall i | 0 <= i < |all| - 1 && last[i] == "\r" && all[i + 1] == "" ensures last[i + 1] != "\n" {
      if i > 0 { assert all[i + 1] == lines[i] && last[i] == ends[i - 1] && last[i + 1] == ends[i]; }
    }
  }

  lemma FirstEnd(lines: seq<Text>, ends: seq<Text>, s: Text)
    requires Spelled(lines, ends) && Spell(lines, ends) == s && lines != [] && lines[0] == "" && s != "" && s[0] != LF
    ensures ends[0] != "\n"
  {
    assert s == ends[0] + Spell(lines[1..], ends[1..]);
  }

  /** A line that is not too long and decodes. */
  predicate Good(line: Text, limit: nat, decodes: Decoder) { |line| <= limit && decodes(line) }

  /** Lines are yielded up to the first bad one, which says how it is bad. */
  lemma {:induction false} CheckedStops(lines: seq<Text>, limit: nat, decodes: Decoder)
    ensures var r := Checked(lines, limit, decodes);
      var n := |r.items|;
      && n <= |lines| && r.items == lines[..n] && (forall i :: 0 <= i < n ==> Good(lines[i], limit, decodes))
      && (r.error.None? <==> n == |lines|)
      && (n < |lines| ==>
            !Good(lines[n], limit, decodes)
            && r.error == Some(if |lines[n]| > limit then LineTooLong else BadEncoding))
  {
    if lines != [] && Good(lines[0], limit, decodes) {
      CheckedStops(lines[1..], limit, decodes);
      var rest := Checked(lines[1..], limit, decodes);
      var n := |rest.items|;
      assert lines[..n + 1] == [lines[0]] + lines[1..][..n];
      forall i | 0 <= i < n + 1 ensures Good(lines[i], limit, decodes) {
        if i > 0 { assert lines[1..][i - 1] == lines[i]; }
      }
    }
  }

  // ------------------------------------------------------------------ fields

  /** A line that gives a field a value: the bare name, or the name, a colon, at most one space, and the value. */
  predicate Gives(line: Text, name: Text, value: Text) {
    && ':' !in name
    && (|| (line == name && value == "")
        || (line == name + ":" + value && (value == "" || value[0] != ' '))
        || line == name + ": " + value)
  }

  lemma {:induction false} ColonAfter(name: Text, rest: Text)
    requires ':' !in name
    ensures FindColon(name + rest) == |name| + FindColon(rest)
  {
    if name == "" {
      assert name + rest == rest;
    } else {
      assert (name + rest)[1..] == name[1..] + rest;
      ColonAfter(name[1..], rest);
    }
  }

  lemma ReadIsGiven(line: Text)
    ensures Gives(line, Field(line), FieldValue(line))
  {
    var n := FindColon(line);
    assert ':' !in line[..n];
    if n == |line| {
      assert line[..n] == line;
    } else {
      assert line == line[..n] + ":" + line[n + 1..];
      if n + 1 < |line| && line[n + 1] == ' ' { assert line == line[..n] + ": " + line[n + 2..]; }
    }
  }

  lemma GivenIsRead(line: Text, name: Text, value: Text)
    requires Gives(line, name, value)
    ensures Field(line) == name && FieldValue(line) == value
  {
    if line == name && value == "" {
      ColonAfter(name, "");
      assert name + "" == name;
    } else if line == name + ":" + value && (value == "" || value[0] != ' ') {
      assert line == name + (":" + value);
      ColonAfter(name, ":" + value);
      assert line[|name| + 1..] == value && line[..|name|] == name;
    } else {
      assert line == name + (": " + value);
      ColonAfter(name, ": " + value);
      assert line[|name| + 2..] == value && line[|name| + 1] == ' ' && line[..|name|] == name;
    }
  }

  /** Every line gives exactly one field exactly one value: the ones the parser reads. */
  lemma LineGives(line: Text, name: Text, value: Text)
    ensures Gives(line, name, value) <==> Field(line) == name && FieldValue(line) == value
  {
    hide Gives, Field, FieldValue;
    ReadIsGiven(line);
    if Gives(line, name, value) { GivenIsRead(line, name, value); }
  }

  /** The line gives the field some value. */
  ghost predicate HasField(line: Text, name: Text) { exists value :: Gives(line, name, value) }

  lemma FieldIsGiven(line: Text, name: Text)
    ensures HasField(line, name) <==> Field(line) == name
    ensures Field(line) == name ==> Gives(line, name, FieldValue(line))
  {
    hide Gives;
    LineGives(line, Field(line), FieldValue(line));
    if HasField(line, name) {
      var value :| Gives(line, name, value);
      LineGives(line, name, value);
    }
  }

  /** The places of a block's lines that give a field, in order, and the values they give it. */
  ghost predicate Values(block: seq<Text>, name: Text, at: seq<nat>, values: seq<Text>) {
    && |at| == |values|
    && (forall k :: 0 <= k < |at| ==> at[k] < |block| && Gives(block[at[k]], name, values[k]))
    && (forall k, m :: 0 <= k < m < |at| ==> at[k] < at[m])
    && (forall i :: 0 <= i < |block| && HasField(block[i], name) ==> i in at)
  }

  /** The data values of a block are those of its data lines, in order. */
  lemma {:induction false} DataIs(block: seq<Text>) returns (at: seq<nat>)
    ensures Values(block, "data", at, DataOf(block))
  {
    if block == [] {
      at := [];
    } else {
      hide Field, FieldValue, Gives, HasField;
      var front, last := block[..|block| - 1], block[|block| - 1];
      at := DataIs(front);
      FieldIsGiven(last, "data");
      forall i | 0 <= i < |front| && HasField(block[i], "data") ensures i in at { assert front[i] == block[i]; }
      if Field(last) == "data" { at := at + [|front|]; }
    }
  }

  /** The name of a block is the value of its last event line, or none. */
  ghost predicate Named(block: seq<Text>, name: Option<Text>) {
    match name
    case None => forall i :: 0 <= i < |block| ==> !HasField(block[i], "event")
    case Some(value) =>
      exists i :: 0 <= i < |block| && Gives(block[i], "event", value)
                  && forall j :: i < j < |block| ==> !HasField(block[j], "event")
  }

  lemma {:induction false} NameIs(block: seq<Text>)
    ensures Named(block, NameOf(block))
  {
    if block != [] {
      hide Field, FieldValue, Gives, HasField;
      var front, last := block[..|block| - 1], block[|block| - 1];
      NameIs(front);
      FieldIsGiven(last, "event");
      if Field(last) == "event" {
        assert Gives(block[|block| - 1], "event", FieldValue(last));
      } else if NameOf(front).Some? {
        var i :| 0 <= i < |front| && Gives(front[i], "event", NameOf(front).value)
                 && forall j :: i < j < |front| ==> !HasField(front[j], "event");
        assert Gives(block[i], "event", NameOf(block).value);
        forall j | i < j < |block| ensures !HasField(block[j], "event") {
          if j < |front| { assert front[j] == block[j]; }
        }
      } else {
        forall i | 0 <= i < |block| ensures !HasField(block[i], "event") {
          if i < |front| { assert front[i] == block[i]; }
        }
      }
    }
  }

  // ------------------------------------------------------------------ events

  /** The pieces of a text between its line feeds. */
  function Cut(s: Text): (pieces: seq<Text>)
    ensures pieces != []
  {
    if s == "" then [""]
    else
      var rest := Cut(s[1..]);
      if s[0] == LF then [""] + rest else [[s[0]] + rest[0]] + rest[1..]
  }

  lemma {:induction false} CutPiece(line: Text, rest: Text)
    requires LF !in line
    ensures Cut(line) == [line]
    ensures Cut(line + "\n" + rest) == [line] + Cut(rest)
  {
    if line == "" {
      assert line + "\n" + rest == "\n" + rest && ("\n" + rest)[1..] == rest;
    } else {
      CutPiece(line[1..], rest);
      var s := line + "\n" + rest;
      assert s[1..] == line[1..] + "\n" + rest;
      assert [line[0]] + line[1..] == line;
      assert ([line[1..]] + Cut(rest))[1..] == Cut(rest);
    }
  }

  lemma {:induction false} CutJoined(values: seq<Text>)
    requires values != [] && forall v <- values :: LF !in v
    ensures Cut(JoinLines(values)) == values
  {
    assert values[0] in values;
    if |values| == 1 {
      CutPiece(values[0], "");
    } else {
      assert forall v <- values[1..] :: v in values;
      CutJoined(values[1..]);
      CutPiece(values[0], JoinLines(values[1..]));
      assert values == [values[0]] + values[1..];
    }
  }

  /** An event tells of a block: its name, and as data, between line feeds, exactly the data values in order. */
  ghost predicate Tells(block: seq<Text>, e: ServerSentEvent) {
    Named(block, e.event) && exists at :: Values(block, "data", at, Cut(e.data))
  }

  ghost predicate HasData(block: seq<Text>) { exists i :: 0 <= i < |block| && HasField(block[i], "data") }

  predicate Plain(block: seq<Text>) { forall line <- block :: NoTerminator(line) }

  lemma ValuesArePlain(block: seq<Text>, name: Text, at: seq<nat>, values: seq<Text>)
    requires Plain(block) && Values(block, name, at, values)
    ensures forall v <- values :: LF !in v
  {
    forall v <- values ensures LF !in v {
      var k :| 0 <= k < |values| && values[k] == v;
      var line := block[at[k]];
      assert NoTerminator(line) && Gives(line, name, v);
      ValueInLine(line, name, v);
    }
  }

  lemma ValueInLine(line: Text, name: Text, value: Text)
    requires Gives(line, name, value)
    ensures forall c <- value :: c in line
  {
    forall c <- value ensures c in line {
      var i :| 0 <= i < |value| && value[i] == c;
      if line == name + ":" + value { assert line[|name| + 1 + i] == c; } else { assert line[|name| + 2 + i] == c; }
    }
  }

  /** A block dispatches nothing, or one event that tells of it: the latter exactly when it has a data line. */
  lemma DispatchTells(block: seq<Text>)
    requires Plain(block)
    ensures HasData(block) ==> |Dispatch(block)| == 1 && Tells(block, Dispatch(block)[0])
    ensures !HasData(block) ==> Dispatch(block) == []
  {
    hide HasField, Gives, Field, FieldValue;
    var data := DataOf(block);
    var at := DataIs(block);
    NameIs(block);
    ValuesArePlain(block, "data", at, data);
    if data == [] {
      assert at == [];
    } else {
      assert Gives(block[at[0]], "data", data[0]);
      assert HasField(block[at[0]], "data") by { GivesField(block[at[0]], "data", data[0]); }
      CutJoined(data);
    }
  }

  lemma GivesField(line: Text, name: Text, value: Text)
    requires Gives(line, name, value)
    ensures HasField(line, name)
  {
  }

  /** The events tell of the blocks with data, one each, in order. */
  ghost predicate TellAll(blocks: seq<seq<Text>>, events: seq<ServerSentEvent>)
    decreases |blocks|
  {
    if blocks == [] then events == []
    else if HasData(blocks[0]) then events != [] && Tells(blocks[0], events[0]) && TellAll(blocks[1..], events[1..])
    else TellAll(blocks[1..], events)
  }

  // ------------------------------------------------------------------ blocks

  /** Blocks of non-empty lines with one empty line between any two. */
  function Laid(blocks: seq<seq<Text>>): seq<Text> {
    if blocks == [] then []
    else if |blocks| == 1 then blocks[0]
    else blocks[0] + [""] + Laid(blocks[1..])
  }

  /** The bytes of a block, one more for each line. */
  function Bytes(block: seq<Text>): nat { if block == [] then 0 else |block[0]| + 1 + Bytes(block[1..]) }

  lemma {:induction false} BytesSnoc(block: seq<Text>, line: Text)
    ensures Bytes(block + [line]) == Bytes(block) + |line| + 1
  {
    if block == [] {
      assert [line][1..] == [];
    } else {
      assert (block + [line])[1..] == block[1..] + [line];
      BytesSnoc(block[1..], line);
    }
  }

  lemma {:induction false} SizeIsBytes(block: seq<Text>)
    ensures SizeOf(block) == Bytes(block)
  {
    if block != [] {
      SizeIsBytes(block[..|block| - 1]);
      BytesSnoc(block[..|block| - 1], block[|block| - 1]);
      assert block == block[..|block| - 1] + [block[|block| - 1]];
    }
  }

  predicate AllFull(blocks: seq<seq<Text>>) { forall block <- blocks :: NoEmpty(block) }

  lemma {:induction false} BlockFirst(block: seq<Text>, rest: seq<Text>)
    requires NoEmpty(block) && (rest == [] || rest[0] == "")
    ensures BlockLength(block + rest) == |block|
  {
    if block == [] {
      assert block + rest == rest;
    } else {
      assert (block + rest)[1..] == block[1..] + rest;
      BlockFirst(block[1..], rest);
    }
  }

  /** How many blocks come before the first that is too big. */
  predicate FitsTo(blocks: seq<seq<Text>>, limit: nat, m: nat) {
    && m <= |blocks| && (forall i :: 0 <= i < m ==> Bytes(blocks[i]) <= limit)
    && (m < |blocks| ==> Bytes(blocks[m]) > limit)
  }

  /** What a stream of blocks yields when it ends, or raises, after its last line. */
  ghost predicate Yields(blocks: seq<seq<Text>>, end: Option<SseError>, m: nat, r: Yielded<ServerSentEvent>)
    requires m <= |blocks| && blocks != []
  {
    if m < |blocks| then TellAll(blocks[..m], r.items) && r.error == Some(EventTooLong)
    else if end.Some? then TellAll(blocks[..|blocks| - 1], r.items) && r.error == end
    else TellAll(blocks, r.items) && r.error.None?
  }

  lemma TellMore(block: seq<Text>, blocks: seq<seq<Text>>, events: seq<ServerSentEvent>)
    requires Plain(block) && TellAll(blocks, events)
    ensures TellAll([block] + blocks, Dispatch(block) + events)
  {
    DispatchTells(block);
    assert ([block] + blocks)[1..] == blocks;
    if HasData(block) { assert (Dispatch(block) + events)[1..] == events; } else { assert [] + events == events; }
  }

  predicate AllPlain(blocks: seq<seq<Text>>) { forall block <- blocks :: Plain(block) }

  /** The events of one block alone. */
  lemma EventsOfOne(block: seq<Text>, end: Option<SseError>, limit: nat)
    requires NoEmpty(block)
    ensures Events(block, end, limit)
         == if Bytes(block) > limit then Yielded([], Some(EventTooLong))
            else Yielded(if end.None? then Dispatch(block) else [], end)
  {
    hide Dispatch, NoEmpty;
    BlockFirst(block, []);
    SizeIsBytes(block);
    assert block + [] == block && block[..|block|] == block;
  }

  /** The events of a block, an empty line and what follows. */
  lemma EventsOfMore(block: seq<Text>, rest: seq<Text>, end: Option<SseError>, limit: nat)
    requires NoEmpty(block)
    ensures Events(block + ([""] + rest), end, limit)
         == if Bytes(block) > limit then Yielded([], Some(EventTooLong))
            else Yielded(Dispatch(block) + Events(rest, end, limit).items, Events(rest, end, limit).error)
  {
    hide Dispatch, NoEmpty;
    var lines := block + ([""] + rest);
    BlockFirst(block, [""] + rest);
    SizeIsBytes(block);
    assert lines[..|block|] == block && lines[|block| + 1..] == rest;
  }

  lemma LaidMore(blocks: seq<seq<Text>>)
    requires |blocks| > 1
    ensures Laid(blocks) == blocks[0] + ([""] + Laid(blocks[1..]))
  {
  }

  lemma {:induction false} EventsYield(blocks: seq<seq<Text>>, end: Option<SseError>, limit: nat, m: nat)
    requires blocks != [] && AllFull(blocks) && AllPlain(blocks) && FitsTo(blocks, limit, m)
    ensures Yields(blocks, end, m, Events(Laid(blocks), end, limit))
    decreases |blocks|
  {
    hide HasData, Tells, Dispatch, Plain, NoEmpty, Events;
    var first, rest := blocks[0], blocks[1..];
    assert first in blocks && (forall block <- rest :: block in blocks);
    if |blocks| == 1 {
      EventsOfOne(first, end, limit);
      LoneBlock(first, end);
      assert blocks == [first] && blocks[..1] == blocks && blocks[..0] == [];
    } else {
      LaidMore(blocks);
      hide Laid, TellAll;
      EventsOfMore(first, Laid(rest), end, limit);
      if m > 0 {
        FitsNext(blocks, limit, m);
        EventsYield(rest, end, limit, m - 1);
        YieldMore(first, rest, end, m - 1, Events(Laid(rest), end, limit));
        assert blocks == [first] + rest;
      } else {
        TellNothing();
        assert blocks[..0] == [];
      }
    }
  }

  lemma TellNothing()
    ensures TellAll([], [])
  {
  }

  lemma FitsNext(blocks: seq<seq<Text>>, limit: nat, m: nat)
    requires FitsTo(blocks, limit, m) && m > 0
    ensures FitsTo(blocks[1..], limit, m - 1)
  {
    forall i | 0 <= i < m - 1 ensures Bytes(blocks[1..][i]) <= limit { assert blocks[1..][i] == blocks[i + 1]; }
  }

  lemma LoneBlock(block: seq<Text>, end: Option<SseError>)
    requires Plain(block)
    ensures TellAll([block], Dispatch(block)) && TellAll([], [])
  {
    TellMore(block, [], []);
    assert [block] + [] == [block] && Dispatch(block) + [] == Dispatch(block);
  }

  lemma YieldMore(block: seq<Text>, blocks: seq<seq<Text>>, end: Option<SseError>, m: nat,
                  r: Yielded<ServerSentEvent>)
    requires Plain(block) && blocks != [] && m <= |blocks| && Yields(blocks, end, m, r)
    ensures Yields([block] + blocks, end, m + 1, Yielded(Dispatch(block) + r.items, r.error))
  {
    hide Tells, HasData, Dispatch, TellAll;
    var all := [block] + blocks;
    if m < |blocks| {
      TellMore(block, blocks[..m], r.items);
      assert all[..m + 1] == [block] + blocks[..m];
    } else if end.Some? {
      TellMore(block, blocks[..|blocks| - 1], r.items);
      assert all[..|all| - 1] == [block] + blocks[..|blocks| - 1];
    } else {
      TellMore(block, blocks, r.items);
    }
  }

  /** Every list of lines is laid out of blocks. */
  lemma {:induction false} EveryListIsLaid(lines: seq<Text>) returns (blocks: seq<seq<Text>>)
    ensures blocks != [] && Laid(blocks) == lines && AllFull(blocks)
    ensures forall block <- blocks, line <- block :: line in lines
    decreases |lines|
  {
    var n := BlockLength(lines);
    if n == |lines| {
      blocks := [lines];
    } else {
      var later := EveryListIsLaid(lines[n + 1..]);
      blocks := [lines[..n]] + later;
      assert blocks[1..] == later && |blocks| > 1;
      assert lines == lines[..n] + [""] + lines[n + 1..];
      forall block <- blocks, line <- block ensures line in lines {
        if block == lines[..n] { assert line in lines[..n]; } else { assert block in later && line in lines[n + 1..]; }
      }
      forall block <- blocks ensures NoEmpty(block) {
        if block != lines[..n] { assert block in later; }
      }
    }
  }

  lemma {:induction false} FirstTooBig(blocks: seq<seq<Text>>, limit: nat) returns (m: nat)
    ensures FitsTo(blocks, limit, m)
  {
    if blocks == [] || Bytes(blocks[0]) > limit {
      m := 0;
    } else {
      var later := FirstTooBig(blocks[1..], limit);
      m := later + 1;
      forall i | 0 <= i < m ensures Bytes(blocks[i]) <= limit { if i > 0 { assert blocks[1..][i - 1] == blocks[i]; } }
    }
  }

  // ------------------------------------------------------------ whole streams

  /** A text is read as its good leading lines, which are laid out of blocks; m of them come before one too big. */
  ghost predicate ReadAs(text: Text, maxLine: nat, maxEvent: nat, decodes: Decoder, lines: seq<Text>, ends: seq<Text>,
                         n: nat, blocks: seq<seq<Text>>, m: nat)
  {
    && Spelled(lines, ends) && Spell(lines, ends) == text
    && n <= |lines| && (forall i :: 0 <= i < n ==> Good(lines[i], maxLine, decodes))
    && (n < |lines| ==> !Good(lines[n], maxLine, decodes))
    && blocks != [] && AllFull(blocks) && Laid(blocks) == lines[..n] && FitsTo(blocks, maxEvent, m)
  }

  /** The error a stream raises after its last good line, if any. */
  function LineError(lines: seq<Text>, n: nat, maxLine: nat): Option<SseError>
    requires n <= |lines|
  {
    if n == |lines| then None else if |lines[n]| > maxLine then Some(LineTooLong) else Some(BadEncoding)
  }

  /**
   * However a stream is written as lines, terminators and blocks, the parser
   * yields one event for each block with a data line, in order, up to the first
   * block too big or the first bad line, and raises there.
   */
  lemma StreamMeans(text: Text, maxLine: nat, maxEvent: nat, decodes: Decoder, lines: seq<Text>, ends: seq<Text>,
                    n: nat, blocks: seq<seq<Text>>, m: nat)
    requires ReadAs(text, maxLine, maxEvent, decodes, lines, ends, n, blocks, m)
    ensures Yields(blocks, LineError(lines, n, maxLine), m, ParsedOf(text, maxLine, maxEvent, decodes))
  {
    SplitSpelled(lines, ends);
    CheckedStops(lines, maxLine, decodes);
    var checked := Checked(lines, maxLine, decodes);
    assert |checked.items| == n by { SameStop(lines, maxLine, decodes, n, |checked.items|); }
    forall block <- blocks ensures Plain(block) {
      forall line <- block ensures NoTerminator(line) { LaidLine(blocks, block, line); assert line in lines[..n]; }
    }
    EventsYield(blocks, checked.error, maxEvent, m);
  }

  lemma SameStop(lines: seq<Text>, limit: nat, decodes: Decoder, n: nat, k: nat)
    requires n <= |lines| && k <= |lines|
    requires (forall i :: 0 <= i < n ==> Good(lines[i], limit, decodes))
      && (n < |lines| ==> !Good(lines[n], limit, decodes))
    requires (forall i :: 0 <= i < k ==> Good(lines[i], limit, decodes))
      && (k < |lines| ==> !Good(lines[k], limit, decodes))
    ensures n == k
  {
  }

  lemma {:induction false} LaidLine(blocks: seq<seq<Text>>, block: seq<Text>, line: Text)
    requires block in blocks && line in block
    ensures line in Laid(blocks)
    decreases |blocks|
  {
    if |blocks| > 1 {
      assert Laid(blocks) == blocks[0] + ([""] + Laid(blocks[1..]));
      if block != blocks[0] {
        assert block in blocks[1..];
        LaidLine(blocks[1..], block, line);
      }
    }
  }

  /** Every stream can be written so. */
  lemma EveryStreamIsRead(text: Text, maxLine: nat, maxEvent: nat, decodes: Decoder)
    returns (lines: seq<Text>, ends: seq<Text>, n: nat, blocks: seq<seq<Text>>, m: nat)
    ensures ReadAs(text, maxLine, maxEvent, decodes, lines, ends, n, blocks, m)
  {
    lines := SplitLines(text);
    ends := EveryTextIsSpelled(text);
    CheckedStops(lines, maxLine, decodes);
    n := |Checked(lines, maxLine, decodes).items|;
    blocks := EveryListIsLaid(lines[..n]);
    m := FirstTooBig(blocks, maxEvent);
  }
}
