/**
 * Calendar-event flattening of services/loaders/ics_loader.py. Parsing the
 * calendar and formatting dates are library calls: the input is the walked
 * component list, each component with its properties already rendered as
 * strings under lower-case names.
 */
module IcsLoader {
  import opened Common
  import opened ChunkModel

  /** One component of `calendar.walk()`: its name and its stringified properties. */
  datatype Component = Component(name: string, properties: map<string, string>)

  /** Loading fails when an event lacks one of its dates. */
  datatype IcsError = MissingDate(property: string)

  /** The fields the loader reads from one event. */
  datatype Event = Event(
    summary: string,
    description: string,
    start: string,
    end: string,
    location: string,
    organizer: string,
    status: string)

  /** `str(component.get(key, ""))`: the property, or "" when absent. */
  function PropOrEmpty(c: Component, key: string): (r: string)
    ensures key in c.properties ==> r == c.properties[key]
    ensures key !in c.properties ==> r == ""
  {
    if key in c.properties then c.properties[key] else ""
  }

  /** The text properties an event may omit. */
  const OptionalProperties: set<string> := {"summary", "description", "location", "organizer", "status"}

  /** An event carrying both dates. */
  predicate HasDates(c: Component) {
    "dtstart" in c.properties && "dtend" in c.properties
  }

  /**
   * Reading one event's fields: optional text properties default to "", and a
   * missing start date (checked first) or end date is an error.
   */
  function ReadEvent(c: Component): (r: Result<Event, IcsError>)
    ensures r.Success? <==> HasDates(c)
    ensures "dtstart" !in c.properties ==> r == Failure(MissingDate("dtstart"))
    ensures "dtstart" in c.properties && "dtend" !in c.properties ==> r == Failure(MissingDate("dtend"))
    ensures r.Success? ==> r.value.start == c.properties["dtstart"] && r.value.end == c.properties["dtend"]
  {
    if "dtstart" !in c.properties then Failure(MissingDate("dtstart"))
    else if "dtend" !in c.properties then Failure(MissingDate("dtend"))
    else Success(Event(
      PropOrEmpty(c, "summary"),
      PropOrEmpty(c, "description"),
      c.properties["dtstart"],
      c.properties["dtend"],
      PropOrEmpty(c, "location"),
      PropOrEmpty(c, "organizer"),
      PropOrEmpty(c, "status")))
  }

  /** Optional text properties that are absent read as "", present ones are taken as they are. */
  lemma ReadEventFields(c: Component, key: string)
    requires HasDates(c) && key in OptionalProperties
    ensures key !in c.properties ==> FieldNamed(ReadEvent(c).value, key) == ""
    ensures key in c.properties ==> FieldNamed(ReadEvent(c).value, key) == c.properties[key]
  {
  }

  /** The event field that the property `key` fills. */
  function FieldNamed(e: Event, key: string): string {
    match key
    case "summary" => e.summary
    case "description" => e.description
    case "dtstart" => e.start
    case "dtend" => e.end
    case "location" => e.location
    case "organizer" => e.organizer
    case "status" => e.status
    case _ => ""
  }

  /** Python's `"\n".join(lines)`. */
  function JoinLines(lines: seq<string>): string {
    if |lines| == 0 then ""
    else if |lines| == 1 then lines[0]
    else lines[0] + "\n" + JoinLines(lines[1..])
  }

  /** The position of the first newline of `s`. */
  function FirstNewline(s: string): (i: nat)
    requires '\n' in s
    ensures i < |s| && s[i] == '\n' && '\n' !in s[..i]
  {
    if s[0] == '\n' then 0
    else
      var j := FirstNewline(s[1..]);
      assert s[..j + 1] == [s[0]] + s[1..][..j];
      j + 1
  }

  /** Python's `s.split("\n")`: the text between newlines, always at least one piece. */
  function SplitLines(s: string): (r: seq<string>)
    ensures |r| >= 1
    ensures forall i :: 0 <= i < |r| ==> '\n' !in r[i]
    decreases |s|
  {
    if '\n' !in s then [s]
    else
      var i := FirstNewline(s);
      [s[..i]] + SplitLines(s[i + 1..])
  }

  /** Joining newline-free lines and splitting the result again gives the lines back. */
  lemma {:induction false} SplitJoinLines(lines: seq<string>)
    requires |lines| >= 1
    requires forall i :: 0 <= i < |lines| ==> '\n' !in lines[i]
    ensures SplitLines(JoinLines(lines)) == lines
  {
    if |lines| > 1 {
      var head := lines[0];
      var rest := JoinLines(lines[1..]);
      var s := head + "\n" + rest;
      assert s[|head|] == '\n';
      var i := FirstNewline(s);
      assert s[..i] == head;
      assert s[i + 1..] == rest;
      SplitJoinLines(lines[1..]);
      assert lines == [head] + lines[1..];
    }
  }

  /** The joined text ends with the last line. */
  lemma {:induction false} JoinLinesEndsWithLast(lines: seq<string>)
    requires |lines| >= 1
    ensures var t := JoinLines(lines); var l := lines[|lines| - 1];
            |l| <= |t| && t[|t| - |l|..] == l
  {
    if |lines| > 1 {
      JoinLinesEndsWithLast(lines[1..]);
      var rest := JoinLines(lines[1..]);
      var t := lines[0] + "\n" + rest;
      assert t[|lines[0]| + 1..] == rest;
    }
  }

  /** The seven labelled lines of an event's text. */
  function EventLines(e: Event): seq<string> {
    [ "Event: " + e.summary,
      "Start: " + e.start,
      "End: " + e.end,
      "Location: " + e.location,
      "Organizer: " + e.organizer,
      "Status: " + e.status,
      "Description: " + e.description ]
  }

  /** An event's document text: its seven lines joined by newlines, without a trailing newline. */
  function EventText(e: Event): string {
    JoinLines(EventLines(e))
  }

  /** No field of the event holds a newline. */
  predicate SingleLineFields(e: Event) {
    && '\n' !in e.summary && '\n' !in e.start && '\n' !in e.end && '\n' !in e.location
    && '\n' !in e.organizer && '\n' !in e.status && '\n' !in e.description
  }

  /** When no field holds a newline, the text splits back into exactly the seven labelled lines. */
  lemma EventTextSplits(e: Event)
    requires SingleLineFields(e)
    ensures SplitLines(EventText(e)) == EventLines(e)
    ensures |SplitLines(EventText(e))| == 7
  {
    var ls := EventLines(e);
    forall i | 0 <= i < |ls|
      ensures '\n' !in ls[i]
    {
    }
    SplitJoinLines(ls);
  }

  /**
   * The text ends with the description line, so it ends in a newline only if
   * the description itself does.
   */
  lemma EventTextEndsWithDescription(e: Event)
    ensures var t := EventText(e); var d := "Description: " + e.description;
            |d| <= |t| && t[|t| - |d|..] == d
    ensures EventText(e)[|EventText(e)| - 1] == '\n' <==> |e.description| > 0 && e.description[|e.description| - 1] == '\n'
  {
    JoinLinesEndsWithLast(EventLines(e));
    var t := EventText(e);
    var d := "Description: " + e.description;
    assert t[|t| - 1] == d[|d| - 1];
  }

  /** The metadata of an event's document; the description is deliberately left out. */
  function EventMetadata(e: Event, source: string): (m: Metadata)
    ensures m.Keys == {"summary", "start", "end", "location", "organizer", "status", "source"}
    ensures "description" !in m
    ensures m["source"] == Str(source)
    ensures m["summary"] == Str(e.summary) && m["start"] == Str(e.start) && m["end"] == Str(e.end)
    ensures m["location"] == Str(e.location) && m["organizer"] == Str(e.organizer) && m["status"] == Str(e.status)
  {
    map[
      "summary" := Str(e.summary),
      "start" := Str(e.start),
      "end" := Str(e.end),
      "location" := Str(e.location),
      "organizer" := Str(e.organizer),
      "status" := Str(e.status),
      "source" := Str(source)]
  }

  /** The document built for one event read from a file with base name `source`. */
  function EventDocument(e: Event, source: string): Document {
    Document(EventText(e), EventMetadata(e, source))
  }

  /** `Path(path).name`: the part after the last '/'. */
  function BaseName(path: string): (r: string)
    ensures '/' !in r
    ensures |r| <= |path| && r == path[|path| - |r|..]
    ensures |r| == |path| || path[|path| - |r| - 1] == '/'
    decreases |path|
  {
    if |path| == 0 || path[|path| - 1] == '/' then ""
    else
      var r := BaseName(path[..|path| - 1]);
      assert path[..|path| - 1][|path| - 1 - |r|..] + [path[|path| - 1]] == path[|path| - |r| - 1..];
      r + [path[|path| - 1]]
  }

  /** The components named "VEVENT", in walk order. */
  function Events(walked: seq<Component>): (r: seq<Component>)
    ensures |r| <= |walked|
    ensures forall i :: 0 <= i < |r| ==> r[i].name == "VEVENT"
    ensures AllEventsDated(walked) ==> forall i :: 0 <= i < |r| ==> HasDates(r[i])
    ensures forall i :: 0 <= i < |walked| && walked[i].name == "VEVENT" ==> walked[i] in r
    ensures NoEvents(walked) ==> r == []
  {
    if |walked| == 0 then []
    else
      WalkCons(walked);
      assert forall i :: 1 <= i < |walked| ==> walked[i] == walked[1..][i - 1];
      if walked[0].name == "VEVENT" then [walked[0]] + Events(walked[1..])
      else Events(walked[1..])
  }

  /**
   * A single component is kept exactly when it is a VEVENT; with `EventsAppend`
   * this fixes the events of every walk.
   */
  lemma EventsOne(c: Component)
    ensures Events([c]) == if c.name == "VEVENT" then [c] else []
  {
    assert [c][1..] == [];
  }

  /** Filtering keeps walk order: the events of a concatenation are the events of each part, in turn. */
  lemma {:induction false} EventsAppend(a: seq<Component>, b: seq<Component>)
    ensures Events(a + b) == Events(a) + Events(b)
  {
    if |a| > 0 {
      assert (a + b)[1..] == a[1..] + b;
      EventsAppend(a[1..], b);
    } else {
      assert a + b == b;
    }
  }

  /** Every event in the walk carries both dates. */
  predicate AllEventsDated(walked: seq<Component>) {
    forall i :: 0 <= i < |walked| ==> walked[i].name == "VEVENT" ==> HasDates(walked[i])
  }

  /** No component of the walk is an event. */
  predicate NoEvents(walked: seq<Component>) {
    forall i :: 0 <= i < |walked| ==> walked[i].name != "VEVENT"
  }

  /** Both walk predicates split into the head and the rest of the walk. */
  lemma WalkCons(walked: seq<Component>)
    requires |walked| > 0
    ensures AllEventsDated(walked) <==> (walked[0].name == "VEVENT" ==> HasDates(walked[0])) && AllEventsDated(walked[1..])
    ensures NoEvents(walked) <==> walked[0].name != "VEVENT" && NoEvents(walked[1..])
  {
    assert forall i :: 1 <= i < |walked| ==> walked[i] == walked[1..][i - 1];
  }

  /** The documents of events that all carry both dates, in order. */
  function EventDocuments(events: seq<Component>, source: string): (r: seq<Document>)
    requires forall i :: 0 <= i < |events| ==> HasDates(events[i])
    ensures |r| == |events|
    ensures forall j :: 0 <= j < |r| ==> r[j] == EventDocument(ReadEvent(events[j]).value, source)
  {
    if |events| == 0 then []
    else
      var tail := events[1..];
      assert forall i :: 0 <= i < |tail| ==> tail[i] == events[i + 1];
      [EventDocument(ReadEvent(events[0]).value, source)] + EventDocuments(tail, source)
  }

  /**
   * The documents of the events in `walked`, stamped with `source`. The first
   * event without both dates aborts the whole load.
   */
  function LoadEvents(walked: seq<Component>, source: string): (r: Result<seq<Document>, IcsError>)
    ensures r.Success? <==> AllEventsDated(walked)
    ensures r.Success? ==> r.value == EventDocuments(Events(walked), source)
    ensures r.Failure? ==> r.error == MissingDate("dtstart") || r.error == MissingDate("dtend")
  {
    if |walked| == 0 then Success([])
    else
      var c := walked[0];
      WalkCons(walked);
      var rest := LoadEvents(walked[1..], source);
      if c.name != "VEVENT" then rest
      else
        match ReadEvent(c)
        case Failure(e) => Failure(e)
        case Success(ev) =>
          if rest.Failure? then rest
          else
            assert ([c] + Events(walked[1..]))[1..] == Events(walked[1..]);
            Success([EventDocument(ev, source)] + rest.value)
  }

  /** A failed load reports the first event, in walk order, that lacks a date. */
  lemma {:induction false} LoadEventsError(walked: seq<Component>, source: string)
    requires LoadEvents(walked, source).Failure?
    ensures exists i :: 0 <= i < |walked| && walked[i].name == "VEVENT"
                        && ReadEvent(walked[i]) == Failure(LoadEvents(walked, source).error)
                        && AllEventsDated(walked[..i])
  {
    var c := walked[0];
    WalkCons(walked);
    if c.name == "VEVENT" && !HasDates(c) {
      assert walked[..0] == [];
    } else {
      LoadEventsError(walked[1..], source);
      var i :| 0 <= i < |walked[1..]| && walked[1..][i].name == "VEVENT"
                && ReadEvent(walked[1..][i]) == Failure(LoadEvents(walked[1..], source).error)
                && AllEventsDated(walked[1..][..i]);
      assert walked[..i + 1] == [c] + walked[1..][..i];
    }
  }

  /**
   * `ICSLoader.load` after parsing: one document per event, in walk order; a
   * calendar without events gives none; a missing date fails the load.
   */
  function Load(filePath: string, walked: seq<Component>): (r: Result<seq<Document>, IcsError>)
    ensures r.Success? <==> AllEventsDated(walked)
    ensures NoEvents(walked) ==> r == Success([])
    ensures r.Success? ==> |r.value| == |Events(walked)|
    ensures forall i :: 0 <= i < |walked| && walked[i].name == "VEVENT" ==> walked[i] in Events(walked)
    ensures r.Failure? ==> r.error == MissingDate("dtstart") || r.error == MissingDate("dtend")
  {
    LoadEvents(walked, BaseName(filePath))
  }

  /**
   * Each loaded document is the seven-line text of its event with metadata
   * stamped by the file's base name and no description.
   */
  lemma LoadedDocument(filePath: string, walked: seq<Component>)
    requires AllEventsDated(walked)
    ensures forall j :: 0 <= j < |Load(filePath, walked).value| ==>
              var d := Load(filePath, walked).value[j];
              && ReadEvent(Events(walked)[j]).Success?
              && d.pageContent == EventText(ReadEvent(Events(walked)[j]).value)
              && d.metadata.Keys == {"summary", "start", "end", "location", "organizer", "status", "source"}
              && d.metadata["source"] == Str(BaseName(filePath))
              && "description" !in d.metadata
              && var e := ReadEvent(Events(walked)[j]).value;
                 && d.metadata["summary"] == Str(e.summary) && d.metadata["start"] == Str(e.start)
                 && d.metadata["end"] == Str(e.end) && d.metadata["location"] == Str(e.location)
                 && d.metadata["organizer"] == Str(e.organizer) && d.metadata["status"] == Str(e.status)
  {
  }
}
