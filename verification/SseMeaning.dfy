/** Forms of the event format that the encoding does not use: fields without a
    blank, other fields, lines without a colon, an end without a blank line. */
module SseMeaning {
  import opened SseScanner

  /** A value with the one blank that may stand in front of it taken off. */
  function Unblanked(v: string): string {
    if v != "" && v[0] == ' ' then v[1..] else v
  }

  lemma FieldParts(name: string, v: string)
    requires ':' !in name
    ensures FieldName(name + ":" + v) == name && FieldValue(name + ":" + v) == Unblanked(v)
  {
    var line := name + ":" + v;
    assert forall j :: 0 <= j < |name| ==> line[j] == name[j] && name[j] in name;
    ColonAt(line, |name|);
    assert line[|name| + 1..] == v;
  }

  /** What each field does, whatever blank stands behind its colon. */
  lemma FieldMeans(f: Fields, v: string)
    ensures AddLine(f, "event:" + v) == f.(event := Unblanked(v), any := true)
    ensures AddLine(f, "data:" + v) == f.(dataLines := f.dataLines + [Unblanked(v)], any := true)
    ensures AddLine(f, "id:" + v) == f.(id := Unblanked(v), any := true)
  {
    hide FieldName, FieldValue;
    FieldParts("event", v);
    FieldParts("data", v);
    FieldParts("id", v);
    assert "event" + ":" + v == "event:" + v && "data" + ":" + v == "data:" + v && "id" + ":" + v == "id:" + v;
    assert ("event:" + v)[0] == 'e' && ("data:" + v)[0] == 'd' && ("id:" + v)[0] == 'i';
  }

  /** A field of another name is ignored, and so is a comment. */
  lemma OthersAreIgnored(f: Fields, name: string, v: string)
    requires ':' !in name && name !in ["event", "data", "id"]
    ensures AddLine(f, name + ":" + v) == f
  {
    hide FieldName, FieldValue;
    FieldParts(name, v);
  }

  /** A line of just "data" is an empty data line. */
  lemma NameWithoutColon(f: Fields)
    ensures AddLine(f, "data") == f.(dataLines := f.dataLines + [""], any := true)
  {
    assert IndexOfColon("data") == 4;
    assert "data"[..4] == "data";
  }

  /** An event that the input ends on without a blank line is delivered at a clean
      end of the input, and lost when reading failed. */
  lemma UnfinishedEvent(v: string)
    requires '\n' !in v && (v != "" ==> v[|v| - 1] != '\r')
    ensures ScanFrom("data:" + v, NO_FIELDS, true) == Found(Event("", Unblanked(v), ""), "")
    ensures ScanFrom("data:" + v, NO_FIELDS, false) == AtEnd
  {
    assert "data:"[4] == ':';
    hide *;
    LineEnds("data:", v);
    FieldMeans(NO_FIELDS, v);
    FirstDataLine(Unblanked(v));
    DataLineAtEnd("data:" + v, Unblanked(v));
  }

  lemma LineEnds(p: string, v: string)
    requires '\n' !in p && p != "" && p[|p| - 1] != '\r' && '\n' !in v && (v != "" ==> v[|v| - 1] != '\r')
    ensures '\n' !in p + v && p + v != "" && (p + v)[|p + v| - 1] != '\r'
  {
    NoLineFeed(p, v);
  }

  lemma FirstDataLine(v: string)
    ensures NO_FIELDS.(dataLines := NO_FIELDS.dataLines + [v], any := true) == NO_FIELDS.(dataLines := [v], any := true)
  {
    assert [] + [v] == [v];
  }

  lemma DataLineAtEnd(s: string, v: string)
    requires '\n' !in s && s != "" && s[|s| - 1] != '\r'
    requires AddLine(NO_FIELDS, s) == NO_FIELDS.(dataLines := [v], any := true)
    ensures ScanFrom(s, NO_FIELDS, true) == Found(Event("", v, ""), "") && ScanFrom(s, NO_FIELDS, false) == AtEnd
  {
    hide ReadLine, AddLine, ScanFrom;
    WholeLine(s);
    ScanOfLastLine(s, NO_FIELDS);
    OneDataLine(v);
  }

  lemma OneDataLine(v: string)
    ensures EventOf(Fields("", "", [v], true)) == Event("", v, "")
  {
  }

  lemma WholeLine(s: string)
    requires '\n' !in s && s != "" && s[|s| - 1] != '\r'
    ensures ReadLine(s) == Line(s, "", true)
  {
    assert forall j :: 0 <= j < |s| ==> s[j] in s;
  }

  lemma ScanOfLastLine(s: string, f: Fields)
    requires s != "" && ReadLine(s) == Line(s, "", true)
    ensures ScanFrom(s, f, true) == (if AddLine(f, s).any then Found(EventOf(AddLine(f, s)), "") else AtEnd)
    ensures ScanFrom(s, f, false) == AtEnd
  {
    hide ReadLine, AddLine, EventOf;
  }
}
