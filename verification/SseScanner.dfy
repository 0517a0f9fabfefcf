/** internal/llm/sse.go: reading server-sent events, the inverse of writing them
    (section 9.2.6 of the WHATWG HTML standard). */
module SseScanner {

  datatype Event = Event(event: string, data: string, id: string)

  // ---- lines ----

  function IndexOfLF(s: string): (i: nat)
    ensures i <= |s| && (i < |s| ==> s[i] == '\n')
    ensures forall j :: 0 <= j < i ==> s[j] != '\n'
  {
    if s == "" then 0 else if s[0] == '\n' then 0 else 1 + IndexOfLF(s[1..])
  }

  /** strings.TrimRight(line, "\r\n") */
  function Chomp(s: string): string {
    if s != "" && (s[|s| - 1] == '\r' || s[|s| - 1] == '\n') then Chomp(s[..|s| - 1]) else s
  }

  datatype Line = Line(text: string, rest: string, atEnd: bool)

  /** ReadString('\n') with the line end taken off: the last line may lack one. */
  function ReadLine(s: string): (r: Line)
    ensures !r.atEnd ==> |r.rest| < |s|
  {
    var i := IndexOfLF(s);
    if i < |s| then Line(Chomp(s[..i + 1]), s[i + 1..], false) else Line(Chomp(s), "", true)
  }

  // ---- fields ----

  datatype Fields = Fields(event: string, id: string, dataLines: seq<string>, any: bool)

  const NO_FIELDS := Fields("", "", [], false)

  function IndexOfColon(s: string): (i: nat)
    ensures i <= |s| && (i < |s| ==> s[i] == ':')
    ensures forall j :: 0 <= j < i ==> s[j] != ':'
  {
    if s == "" then 0 else if s[0] == ':' then 0 else 1 + IndexOfColon(s[1..])
  }

  /** strings.Cut at the first colon, one leading space of the value dropped. */
  function FieldName(line: string): string {
    line[..IndexOfColon(line)]
  }

  function FieldValue(line: string): string {
    var i := IndexOfColon(line);
    var v := if i < |line| then line[i + 1..] else "";
    if v != "" && v[0] == ' ' then v[1..] else v
  }

  function AddLine(f: Fields, line: string): Fields {
    if line == "" || line[0] == ':' then f
    else if FieldName(line) == "event" then f.(event := FieldValue(line), any := true)
    else if FieldName(line) == "data" then f.(dataLines := f.dataLines + [FieldValue(line)], any := true)
    else if FieldName(line) == "id" then f.(id := FieldValue(line), any := true)
    else f
  }

  function JoinLines(lines: seq<string>): string {
    if lines == [] then ""
    else if |lines| == 1 then lines[0]
    else lines[0] + "\n" + JoinLines(lines[1..])
  }

  function EventOf(f: Fields): Event {
    Event(f.event, JoinLines(f.dataLines), f.id)
  }

  // ---- Next ----

  datatype Scan = Found(event: Event, rest: string) | AtEnd

  /** The next event of `s` when `f` has been read of it already. The input ends
      with io.EOF if `eof`, otherwise with some other error. */
  function ScanFrom(s: string, f: Fields, eof: bool): Scan
    decreases |s|
  {
    var line := ReadLine(s);
    if line.text == "" && !line.atEnd then
      if f.any then Found(EventOf(f), line.rest) else ScanFrom(line.rest, f, eof)
    else
      var f' := AddLine(f, line.text);
      if !line.atEnd then ScanFrom(line.rest, f', eof)
      else if eof && f'.any then Found(EventOf(f'), "")
      else AtEnd
  }

  lemma {:induction false} ScanMakesProgress(s: string, f: Fields, eof: bool)
    requires ScanFrom(s, f, eof).Found?
    ensures |ScanFrom(s, f, eof).rest| <= |s|
    ensures !f.any ==> |ScanFrom(s, f, eof).rest| < |s|
    decreases |s|
  {
    var line := ReadLine(s);
    if line.text == "" && !line.atEnd {
      if !f.any { ScanMakesProgress(line.rest, f, eof); }
    } else if !line.atEnd {
      ScanMakesProgress(line.rest, AddLine(f, line.text), eof);
    }
  }

  /** All events, by calling Next until it returns false. */
  function ScanAll(s: string): seq<Event>
    decreases |s|
  {
    var r := ScanFrom(s, NO_FIELDS, true);
    if r.AtEnd? then []
    else
      ScanMakesProgress(s, NO_FIELDS, true);
      [r.event] + ScanAll(r.rest)
  }

  class Scanner {
    var input: string     // what the reader has not delivered
    const eof: bool       // whether it ends with io.EOF
    var cur: Event
    var ended: bool       // err is set

    constructor (input: string, eof: bool)
      ensures this.input == input && this.eof == eof && !ended
    {
      this.input, this.eof, cur, ended := input, eof, Event("", "", ""), false;
    }

    method ReadString() returns (line: string, atEnd: bool)
      modifies this`input
      ensures Line(Chomp(line), input, atEnd) == ReadLine(old(input))
    {
      var i := IndexOfLF(input);
      atEnd := i == |input|;
      if atEnd {
        line := input;
        input := "";
      } else {
        line := input[..i + 1];
        input := input[i + 1..];
      }
    }

    /** Advances to the next event, or says that there is none. */
    method Next() returns (ok: bool)
      modifies this
      ensures match ScanFrom(old(input), NO_FIELDS, eof)
              case AtEnd => !ok && ended && input == ""
              case Found(event, rest) => ok && cur == event && input == rest
    {
      hide AddLine, EventOf, Chomp;
      ghost var whole := ScanFrom(input, NO_FIELDS, eof);
      var event, id, dataLines, hasField := "", "", [], false;
      while true
        invariant ScanFrom(input, Fields(event, id, dataLines, hasField), eof) == whole
        decreases |input|
      {
        ghost var f := Fields(event, id, dataLines, hasField);
        var raw, atEnd := ReadString();
        var line := Chomp(raw);
        if line == "" && !atEnd {
          if hasField {
            cur := EventOf(Fields(event, id, dataLines, hasField));
            return true;
          }
          continue;
        }
        event, id, dataLines, hasField := AddField(event, id, dataLines, hasField, line);
        if atEnd {
          ended := true;
          if eof && hasField {
            cur := EventOf(Fields(event, id, dataLines, hasField));
            return true;
          }
          return false;
        }
      }
    }

    /** One non-boundary line: comments and unknown fields change nothing. */
    static method AddField(event: string, id: string, dataLines: seq<string>, hasField: bool, line: string)
      returns (event': string, id': string, dataLines': seq<string>, hasField': bool)
      ensures Fields(event', id', dataLines', hasField') == AddLine(Fields(event, id, dataLines, hasField), line)
    {
      event', id', dataLines', hasField' := event, id, dataLines, hasField;
      if line != "" && line[0] != ':' {
        var field, value := FieldName(line), FieldValue(line);
        if field == "event" {
          event', hasField' := value, true;
        } else if field == "data" {
          dataLines', hasField' := dataLines + [value], true;
        } else if field == "id" {
          id', hasField' := value, true;
        }
      }
    }
  }

  // ---- writing events ----

  function EndOfLine(crlf: bool): string {
    if crlf then "\r\n" else "\n"
  }

  /** A line in front of the text k. */
  function PutLine(text: string, crlf: bool, k: string): string {
    text + EndOfLine(crlf) + k
  }

  function SplitLines(s: string): (lines: seq<string>)
    ensures |lines| > 0
    ensures forall i :: 0 <= i < |lines| ==> '\n' !in lines[i]
    decreases |s|
  {
    var i := IndexOfLF(s);
    if i == |s| then [s] else [s[..i]] + SplitLines(s[i + 1..])
  }

  lemma JoinCons(first: string, rest: seq<string>)
    requires rest != []
    ensures JoinLines([first] + rest) == first + "\n" + JoinLines(rest)
  {
    assert ([first] + rest)[1..] == rest;
  }

  lemma {:induction false} SplitFirst(s: string)
    ensures var i := IndexOfLF(s);
            SplitLines(s) == if i == |s| then [s] else [s[..i]] + SplitLines(s[i + 1..])
  {
  }

  lemma CutAt(s: string, i: nat)
    requires i < |s| && s[i] == '\n'
    ensures s[..i] + "\n" + s[i + 1..] == s
  {
  }

  lemma {:induction false} JoinOfSplit(s: string)
    ensures JoinLines(SplitLines(s)) == s
    decreases |s|
  {
    hide SplitLines;
    var i := IndexOfLF(s);
    SplitFirst(s);
    if i < |s| {
      hide JoinLines;
      JoinOfSplit(s[i + 1..]);
      JoinCons(s[..i], SplitLines(s[i + 1..]));
      CutAt(s, i);
    }
  }

  function PutData(lines: seq<string>, crlf: bool, k: string): string {
    if lines == [] then k else PutLine("data: " + lines[0], crlf, PutData(lines[1..], crlf, k))
  }

  function PutOptional(name: string, value: string, crlf: bool, k: string): string {
    if value == "" then k else PutLine(name + value, crlf, k)
  }

  /** One frame: event and id lines when they are set, a data line per line of the
      data, the blank line. */
  function PutFrame(e: Event, crlf: bool, k: string): string {
    PutOptional("event: ", e.event, crlf,
                PutData(SplitLines(e.data), crlf, PutOptional("id: ", e.id, crlf, PutLine("", crlf, k))))
  }

  datatype Piece = Frame(e: Event, crlf: bool) | Comment(text: string, crlf: bool) | Blank(crlf: bool)

  /** A comment or a blank line between frames. */
  function PutNoise(p: Piece, k: string): string
    requires !p.Frame?
  {
    match p
    case Comment(text, crlf) => PutLine(":" + text, crlf, k)
    case Blank(crlf) => PutLine("", crlf, k)
  }

  function Encode(pieces: seq<Piece>): string {
    if pieces == [] then ""
    else
      match pieces[0]
      case Frame(e, crlf) => PutFrame(e, crlf, Encode(pieces[1..]))
      case noise => PutNoise(noise, Encode(pieces[1..]))
  }

  function EventsOf(pieces: seq<Piece>): seq<Event> {
    if pieces == [] then []
    else (if pieces[0].Frame? then [pieces[0].e] else []) + EventsOf(pieces[1..])
  }

  /** Event, ID and comments are one line each. */
  predicate SingleLined(pieces: seq<Piece>) {
    forall i :: 0 <= i < |pieces| ==>
      match pieces[i]
      case Frame(e, _) => '\n' !in e.event && '\n' !in e.id
      case Comment(text, _) => '\n' !in text
      case Blank(_) => true
  }

  function ChompLines(lines: seq<string>): seq<string> {
    if lines == [] then [] else [Chomp(lines[0])] + ChompLines(lines[1..])
  }

  /** The event without the carriage returns at the ends of its lines. */
  function ChompEvent(e: Event): Event {
    Event(Chomp(e.event), JoinLines(ChompLines(SplitLines(e.data))), Chomp(e.id))
  }

  function ChompEvents(events: seq<Event>): seq<Event> {
    if events == [] then [] else [ChompEvent(events[0])] + ChompEvents(events[1..])
  }

  // ---- reading what was written ----

  lemma {:induction false} ChompOfLine(text: string, crlf: bool)
    requires '\n' !in text
    ensures Chomp(text + EndOfLine(crlf)) == Chomp(text)
  {
    var line := text + EndOfLine(crlf);
    assert line[..|line| - 1] == if crlf then text + "\r" else text;
    if crlf {
      assert (text + "\r")[..|text|] == text;
    }
  }

  lemma LineIsRead(text: string, crlf: bool, k: string)
    requires '\n' !in text
    ensures ReadLine(PutLine(text, crlf, k)) == Line(Chomp(text), k, false)
  {
    var s := PutLine(text, crlf, k);
    var n := |text| + |EndOfLine(crlf)|;
    assert s[n - 1] == '\n' && forall j :: 0 <= j < n - 1 ==> s[j] != '\n';
    assert IndexOfLF(s) == n - 1;
    assert s[..n] == text + EndOfLine(crlf) && s[n..] == k;
    ChompOfLine(text, crlf);
  }

  lemma {:induction false} ChompPrefixed(p: string, s: string)
    requires p != "" && p[|p| - 1] == ' '
    ensures Chomp(p + s) == p + Chomp(s)
    decreases |s|
  {
    if s == "" {
      assert p + s == p;
    } else if s[|s| - 1] == '\r' || s[|s| - 1] == '\n' {
      assert (p + s)[..|p + s| - 1] == p + s[..|s| - 1];
      ChompPrefixed(p, s[..|s| - 1]);
    }
  }

  lemma ColonAt(line: string, i: nat)
    requires i < |line| && line[i] == ':' && forall j :: 0 <= j < i ==> line[j] != ':'
    ensures IndexOfColon(line) == i
  {
  }

  /** Which field a written line sets. */
  lemma FieldIsRead(f: Fields, value: string)
    ensures AddLine(f, "event: " + value) == f.(event := value, any := true)
    ensures AddLine(f, "data: " + value) == f.(dataLines := f.dataLines + [value], any := true)
    ensures AddLine(f, "id: " + value) == f.(id := value, any := true)
  {
    hide FieldName, FieldValue;
    NameAndValue("event: " + value, 5, value);
    NameAndValue("data: " + value, 4, value);
    NameAndValue("id: " + value, 2, value);
    assert ("event: " + value)[..5] == "event" && ("event: " + value)[0] != ':';
    assert ("data: " + value)[..4] == "data" && ("data: " + value)[0] != ':';
    assert ("id: " + value)[..2] == "id" && ("id: " + value)[0] != ':';
  }

  /** A line with its first colon at n, and a blank behind it. */
  lemma NameAndValue(line: string, n: nat, value: string)
    requires n + 2 <= |line| && line[n] == ':' && line[n + 1] == ' ' && line[n + 2..] == value
    requires forall j :: 0 <= j < n ==> line[j] != ':'
    ensures FieldName(line) == line[..n] && FieldValue(line) == value
  {
    ColonAt(line, n);
    assert line[n + 1..][1..] == value;
  }

  function WithData(f: Fields, lines: seq<string>): Fields {
    f.(dataLines := f.dataLines + lines, any := f.any || lines != [])
  }

  lemma WithDataInTwo(f: Fields, line: string, lines: seq<string>)
    ensures WithData(WithData(f, [line]), lines) == WithData(f, [line] + lines)
  {
    assert f.dataLines + [line] + lines == f.dataLines + ([line] + lines);
  }

  lemma {:induction false} DataIsRead(lines: seq<string>, crlf: bool, f: Fields, k: string)
    requires forall i :: 0 <= i < |lines| ==> '\n' !in lines[i]
    ensures ScanFrom(PutData(lines, crlf, k), f, true) == ScanFrom(k, WithData(f, ChompLines(lines)), true)
    decreases |lines|
  {
    hide ScanFrom, PutLine, Chomp;
    if lines == [] {
      assert f.dataLines + [] == f.dataLines;
    } else {
      DataLineIsRead(lines[0], crlf, f, PutData(lines[1..], crlf, k));
      DataIsRead(lines[1..], crlf, WithData(f, [Chomp(lines[0])]), k);
      hide WithData;
      WithDataInTwo(f, Chomp(lines[0]), ChompLines(lines[1..]));
    }
  }

  lemma DataLineIsRead(line: string, crlf: bool, f: Fields, k: string)
    requires '\n' !in line
    ensures ScanFrom(PutLine("data: " + line, crlf, k), f, true)
         == ScanFrom(k, WithData(f, [Chomp(line)]), true)
  {
    hide ReadLine, AddLine, Chomp, PutLine;
    NoLineFeed("data: ", line);
    LineIsRead("data: " + line, crlf, k);
    ChompPrefixed("data: ", line);
    FieldIsRead(f, Chomp(line));
  }

  lemma NoLineFeed(p: string, s: string)
    requires '\n' !in p && '\n' !in s
    ensures '\n' !in p + s
  {
  }

  lemma EventLineIsRead(value: string, crlf: bool, f: Fields, k: string)
    requires '\n' !in value && f.event == ""
    ensures ScanFrom(PutOptional("event: ", value, crlf, k), f, true)
         == ScanFrom(k, f.(event := Chomp(value), any := f.any || value != ""), true)
  {
    if value != "" {
      hide ReadLine, AddLine, Chomp, PutLine;
      NoLineFeed("event: ", value);
      LineIsRead("event: " + value, crlf, k);
      ChompPrefixed("event: ", value);
      FieldIsRead(f, Chomp(value));
    }
  }

  lemma IDLineIsRead(value: string, crlf: bool, f: Fields, k: string)
    requires '\n' !in value && f.id == ""
    ensures ScanFrom(PutOptional("id: ", value, crlf, k), f, true)
         == ScanFrom(k, f.(id := Chomp(value), any := f.any || value != ""), true)
  {
    if value != "" {
      hide ReadLine, AddLine, Chomp, PutLine;
      NoLineFeed("id: ", value);
      LineIsRead("id: " + value, crlf, k);
      ChompPrefixed("id: ", value);
      FieldIsRead(f, Chomp(value));
    }
  }

  lemma FrameIsRead(e: Event, crlf: bool, k: string)
    requires '\n' !in e.event && '\n' !in e.id
    ensures ScanFrom(PutFrame(e, crlf, k), NO_FIELDS, true) == Found(ChompEvent(e), k)
  {
    hide ReadLine, AddLine, PutData, PutOptional, PutLine;
    var blank := PutLine("", crlf, k);
    var ids := PutOptional("id: ", e.id, crlf, blank);
    var lines := SplitLines(e.data);
    EventLineIsRead(e.event, crlf, NO_FIELDS, PutData(lines, crlf, ids));
    var f1 := NO_FIELDS.(event := Chomp(e.event), any := e.event != "");
    DataIsRead(lines, crlf, f1, ids);
    var f2 := WithData(f1, ChompLines(lines));
    assert ChompLines(lines) != [] && [] + ChompLines(lines) == ChompLines(lines);
    IDLineIsRead(e.id, crlf, f2, blank);
    LineIsRead("", crlf, k);
  }

  lemma NoiseIsSkipped(p: Piece, k: string)
    requires !p.Frame? && SingleLined([p])
    ensures ScanFrom(PutNoise(p, k), NO_FIELDS, true) == ScanFrom(k, NO_FIELDS, true)
  {
    hide ReadLine, PutLine;
    assert [p][0] == p;
    match p {
      case Comment(text, crlf) =>
        NoLineFeed(":", text);
        LineIsRead(":" + text, crlf, k);
        CommentStays(text);
      case Blank(crlf) =>
        LineIsRead("", crlf, k);
    }
  }

  lemma {:induction false} CommentStays(text: string)
    ensures Chomp(":" + text) != "" && Chomp(":" + text)[0] == ':'
    decreases |text|
  {
    var s := ":" + text;
    if text != "" {
      assert s[..|s| - 1] == ":" + text[..|text| - 1];
      CommentStays(text[..|text| - 1]);
    }
  }

  /** Scanning a written stream yields its events, each without the carriage
      returns at its lines' ends, and then the end: with either line ending per
      frame, and comments and blank lines between frames. */
  lemma {:induction false} ScanOfEncoding(pieces: seq<Piece>)
    requires SingleLined(pieces)
    ensures ScanAll(Encode(pieces)) == ChompEvents(EventsOf(pieces))
    decreases |pieces|
  {
    if pieces != [] {
      hide ScanFrom, PutFrame, PutLine, ChompEvent;
      var rest := pieces[1..];
      assert SingleLined(rest) && SingleLined([pieces[0]]);
      ScanOfEncoding(rest);
      match pieces[0] {
        case Frame(e, crlf) =>
          FrameIsRead(e, crlf, Encode(rest));
          assert EventsOf(pieces)[1..] == EventsOf(rest);
        case _ =>
          NoiseIsSkipped(pieces[0], Encode(rest));
          assert [] + EventsOf(rest) == EventsOf(rest);
      }
    }
  }

  predicate NoTrailingCR(s: string) {
    s != "" ==> s[|s| - 1] != '\r'
  }

  predicate CleanEvent(e: Event) {
    NoTrailingCR(e.event) && NoTrailingCR(e.id) && forall l :: l in SplitLines(e.data) ==> NoTrailingCR(l)
  }

  lemma {:induction false} ChompShortens(s: string)
    requires '\n' !in s
    ensures if NoTrailingCR(s) then Chomp(s) == s else |Chomp(s)| < |s|
    decreases |s|
  {
    if s != "" && s[|s| - 1] == '\r' {
      ChompShortens(s[..|s| - 1]);
    }
  }

  lemma {:induction false} ChompLinesShortens(lines: seq<string>)
    requires forall i :: 0 <= i < |lines| ==> '\n' !in lines[i]
    ensures |ChompLines(lines)| == |lines|
    ensures if forall l :: l in lines ==> NoTrailingCR(l) then ChompLines(lines) == lines
            else |JoinLines(ChompLines(lines))| < |JoinLines(lines)|
    ensures |JoinLines(ChompLines(lines))| <= |JoinLines(lines)|
  {
    hide Chomp, NoTrailingCR;
    if lines != [] {
      assert lines == [lines[0]] + lines[1..];
      ChompShortens(lines[0]);
      ChompLinesShortens(lines[1..]);
    }
  }

  lemma CleanIsUnchanged(e: Event)
    requires '\n' !in e.event && '\n' !in e.id
    ensures ChompEvent(e) == e <==> CleanEvent(e)
  {
    hide Chomp, NoTrailingCR, JoinLines, ChompLines;
    ChompShortens(e.event);
    ChompShortens(e.id);
    JoinOfSplit(e.data);
    ChompLinesShortens(SplitLines(e.data));
  }

  lemma {:induction false} ChompEventsUnchanged(events: seq<Event>)
    requires forall e :: e in events ==> '\n' !in e.event && '\n' !in e.id
    ensures ChompEvents(events) == events <==> forall e :: e in events ==> CleanEvent(e)
  {
    hide ChompEvent, CleanEvent;
    if events != [] {
      assert events == [events[0]] + events[1..];
      CleanIsUnchanged(events[0]);
      ChompEventsUnchanged(events[1..]);
    }
  }

  lemma {:induction false} EventsAreSingleLined(pieces: seq<Piece>)
    requires SingleLined(pieces)
    ensures forall e :: e in EventsOf(pieces) ==> '\n' !in e.event && '\n' !in e.id
  {
    if pieces != [] {
      assert SingleLined(pieces[1..]);
      EventsAreSingleLined(pieces[1..]);
    }
  }

  /** Writing and scanning events undo each other exactly when no line of any of
      them ends in a carriage return. */
  lemma EventRoundTrip(pieces: seq<Piece>)
    requires SingleLined(pieces)
    ensures ScanAll(Encode(pieces)) == EventsOf(pieces) <==> forall e :: e in EventsOf(pieces) ==> CleanEvent(e)
  {
    hide ScanAll, Encode, CleanEvent, SingleLined;
    ScanOfEncoding(pieces);
    EventsAreSingleLined(pieces);
    ChompEventsUnchanged(EventsOf(pieces));
  }

  /** One event that does not come back: its data ends in CR. */
  lemma TrailingReturnIsLost()
    ensures var pieces := [Frame(Event("", "a\r", ""), false)];
            SingleLined(pieces) && ScanAll(Encode(pieces)) != EventsOf(pieces)
  {
    hide ScanAll, Encode;
    var e := Event("", "a\r", "");
    var pieces := [Frame(e, false)];
    assert pieces[1..] == [];
    assert EventsOf(pieces) == [e];
    SplitFirst("a\r");
    assert SplitLines("a\r") == ["a\r"];
    assert !NoTrailingCR("a\r");
    assert !CleanEvent(e);
    assert SingleLined(pieces);
    EventRoundTrip(pieces);
  }

  /** The frame the server writes is such a frame. */
  lemma ServerFrame(kind: string, json: string, seqNo: string, k: string)
    requires kind != "" && seqNo != "" && '\n' !in json
    ensures "event: " + kind + "\ndata: " + json + "\nid: " + seqNo + "\n\n" + k
         == PutFrame(Event(kind, json, seqNo), false, k)
  {
    assert SplitLines(json) == [json] && [json][1..] == [];
    assert PutData([json], false, "id: " + seqNo + "\n" + ("" + "\n" + k))
       == "data: " + json + "\n" + ("id: " + seqNo + "\n" + ("" + "\n" + k));
  }
}
