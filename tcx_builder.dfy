/**
 * TCX export: a Garmin Training Center Database v2 document with one
 * Activity/Lap/Track per workout and one Trackpoint per sample.
 *
 * The document is described twice: as an element tree (`Document`) printed by
 * an indenting renderer (`Render`), and as the string `BuildTcx` accumulates
 * line by line. `BuildTcx` is proved to produce exactly the rendered tree.
 * The ISO 8601 timestamp formatter is a parameter `toIso` and is not interpreted.
 */
module Tcx {
  import opened Wrappers
  import opened Decimal
  import opened Records

  // ---------------------------------------------------------------------------
  // Escaping of character data (XML 1.0, section 2.4)

  /** `s.replace(/c/g, replacement)`: every occurrence of `c` replaced. */
  function ReplaceAll(s: string, c: char, replacement: string): (r: string)
    ensures c !in replacement ==> c !in r
  {
    if s == [] then [] else (if s[0] == c then replacement else [s[0]]) + ReplaceAll(s[1..], c, replacement)
  }

  /** `escapeXml`: `&` first, then `<`, then `>`. */
  function EscapeXml(s: string): string {
    ReplaceAll(ReplaceAll(ReplaceAll(s, '&', "&amp;"), '<', "&lt;"), '>', "&gt;")
  }

  /** The entity each markup character becomes. */
  function EscapeChar(c: char): string {
    if c == '&' then "&amp;" else if c == '<' then "&lt;" else if c == '>' then "&gt;" else [c]
  }

  lemma {:induction false} ReplaceAllConcat(a: string, b: string, c: char, replacement: string)
    ensures ReplaceAll(a + b, c, replacement) == ReplaceAll(a, c, replacement) + ReplaceAll(b, c, replacement)
  {
    if a == [] {
      assert a + b == b;
    } else {
      assert (a + b)[1..] == a[1..] + b;
      ReplaceAllConcat(a[1..], b, c, replacement);
    }
  }

  lemma {:induction false} ReplaceAllAbsent(s: string, c: char, replacement: string)
    requires c !in s
    ensures ReplaceAll(s, c, replacement) == s
  {
    if s != [] {
      ReplaceAllAbsent(s[1..], c, replacement);
    }
  }

  lemma ReplaceAllSingle(x: char, c: char, replacement: string)
    ensures ReplaceAll([x], c, replacement) == if x == c then replacement else [x]
  {
    assert [x][1..] == [];
  }

  /** Escaping distributes over concatenation: each pass replaces characters one at a time. */
  lemma EscapeXmlConcat(a: string, b: string)
    ensures EscapeXml(a + b) == EscapeXml(a) + EscapeXml(b)
  {
    var a1, b1 := ReplaceAll(a, '&', "&amp;"), ReplaceAll(b, '&', "&amp;");
    ReplaceAllConcat(a, b, '&', "&amp;");
    var a2, b2 := ReplaceAll(a1, '<', "&lt;"), ReplaceAll(b1, '<', "&lt;");
    ReplaceAllConcat(a1, b1, '<', "&lt;");
    ReplaceAllConcat(a2, b2, '>', "&gt;");
  }

  /** One character becomes its entity, or stays as it is. */
  lemma EscapeXmlSingle(c: char)
    ensures EscapeXml([c]) == EscapeChar(c)
  {
    ReplaceAllSingle(c, '&', "&amp;");
    if c == '&' {
      EscapeAmpersand();
    } else {
      ReplaceAllSingle(c, '<', "&lt;");
      if c == '<' {
        ReplaceAllAbsent("&lt;", '>', "&gt;");
      } else {
        ReplaceAllSingle(c, '>', "&gt;");
      }
    }
  }

  /** The later passes leave the entity for `&` alone. */
  lemma EscapeAmpersand()
    ensures ReplaceAll(ReplaceAll("&amp;", '<', "&lt;"), '>', "&gt;") == "&amp;"
  {
    var amp := "&amp;";
    assert '<' !in amp && '>' !in amp by {
      assert amp == ['&', 'a', 'm', 'p', ';'];
    }
    ReplaceAllAbsent(amp, '<', "&lt;");
    ReplaceAllAbsent(amp, '>', "&gt;");
  }

  /** The three passes act character by character: escaping `c + t` is escaping `c`, then `t`. */
  lemma EscapeXmlCons(c: char, t: string)
    ensures EscapeXml([c] + t) == EscapeChar(c) + EscapeXml(t)
  {
    EscapeXmlConcat([c], t);
    EscapeXmlSingle(c);
  }

  /** Escaped text holds no `<` and no `>`. */
  lemma {:induction false} EscapedHasNoMarkup(s: string)
    ensures '<' !in EscapeXml(s) && '>' !in EscapeXml(s)
  {
    if s != [] {
      assert s == [s[0]] + s[1..];
      EscapeXmlCons(s[0], s[1..]);
      EscapedHasNoMarkup(s[1..]);
    }
  }

  /** Text without `&`, `<` or `>` is left as it is. */
  lemma {:induction false} EscapeUnmarked(s: string)
    requires '&' !in s && '<' !in s && '>' !in s
    ensures EscapeXml(s) == s
  {
    if s != [] {
      assert s == [s[0]] + s[1..];
      EscapeXmlCons(s[0], s[1..]);
      EscapeUnmarked(s[1..]);
    }
  }

  /** Reading character data back: the entities `&amp;`, `&lt;` and `&gt;` become their characters. */
  function Unescape(s: string): string
    decreases |s|
  {
    if s == [] then []
    else if |s| >= 5 && s[..5] == "&amp;" then "&" + Unescape(s[5..])
    else if |s| >= 4 && s[..4] == "&lt;" then "<" + Unescape(s[4..])
    else if |s| >= 4 && s[..4] == "&gt;" then ">" + Unescape(s[4..])
    else [s[0]] + Unescape(s[1..])
  }

  /** Because `&` is replaced first, unescaping recovers the original text. */
  lemma {:induction false} UnescapeEscapeXml(s: string)
    ensures Unescape(EscapeXml(s)) == s
  {
    if s != [] {
      var c, t := s[0], s[1..];
      assert s == [c] + t;
      EscapeXmlCons(c, t);
      UnescapeEscapeXml(t);
      UnescapeEscapeChar(c, EscapeXml(t));
    }
  }

  /** Unescaping reads the entity or character `c` was written as, then carries on with the rest. */
  lemma UnescapeEscapeChar(c: char, rest: string)
    ensures Unescape(EscapeChar(c) + rest) == [c] + Unescape(rest)
  {
    if c == '&' {
      UnescapeAmp(rest);
    } else if c == '<' {
      UnescapeLt(rest);
    } else if c == '>' {
      UnescapeGt(rest);
    } else {
      UnescapePlain(c, rest);
    }
  }

  lemma UnescapePlain(c: char, rest: string)
    requires c != '&'
    ensures Unescape([c] + rest) == [c] + Unescape(rest)
  {
    var e := [c] + rest;
    assert e[0] == c && e[1..] == rest;
    assert |e| >= 4 ==> e[..4][0] == c;
    assert |e| >= 5 ==> e[..5][0] == c;
  }

  lemma UnescapeAmp(rest: string)
    ensures Unescape("&amp;" + rest) == "&" + Unescape(rest)
  {
    var e := "&amp;" + rest;
    assert e[..5] == "&amp;" && e[5..] == rest;
  }

  lemma UnescapeLt(rest: string)
    ensures Unescape("&lt;" + rest) == "<" + Unescape(rest)
  {
    var e := "&lt;" + rest;
    assert "&lt;" == ['&', 'l', 't', ';'] && "&amp;" == ['&', 'a', 'm', 'p', ';'];
    assert e[..4] == "&lt;" && e[4..] == rest;
    assert |e| >= 5 ==> e[..5][1] == 'l';
  }

  lemma UnescapeGt(rest: string)
    ensures Unescape("&gt;" + rest) == ">" + Unescape(rest)
  {
    var e := "&gt;" + rest;
    assert "&gt;" == ['&', 'g', 't', ';'] && "&lt;" == ['&', 'l', 't', ';'] && "&amp;" == ['&', 'a', 'm', 'p', ';'];
    assert e[..4] == "&gt;" && e[4..] == rest;
    assert |e| >= 5 ==> e[..5][1] == 'g';
    assert e[..4][1] == 'g';
  }

  // ---------------------------------------------------------------------------
  // Element trees and their indented rendering

  datatype Attribute = Attribute(name: string, value: string)

  datatype Xml = Element(name: string, attributes: seq<Attribute>, body: Body)

  /** An element holds either text on its own line or child elements on lines of their own. */
  datatype Body = Text(text: string) | Children(children: seq<Xml>)

  function Indent(depth: nat): string {
    if depth == 0 then "" else Indent(depth - 1) + "  "
  }

  function AttributesText(attributes: seq<Attribute>): string {
    if attributes == [] then ""
    else AttributesText(attributes[..|attributes| - 1]) +
         (" " + attributes[|attributes| - 1].name + "=\"" + attributes[|attributes| - 1].value + "\"")
  }

  /** One output line: the indentation for `depth`, the content, a newline. */
  function Line(depth: nat, content: string): string {
    Indent(depth) + content + "\n"
  }

  function OpenTag(name: string, attributes: seq<Attribute>): string {
    "<" + name + AttributesText(attributes) + ">"
  }

  function CloseTag(name: string): string {
    "</" + name + ">"
  }

  /**
   * An element at `depth`, indented two spaces per level: `<name attrs>text</name>`
   * on one line, or the opening tag, the children one level deeper, and the
   * closing tag on lines of their own.
   */
  function Render(e: Xml, depth: nat): string
    decreases e, 1
  {
    match e.body
    case Text(t) => Line(depth, OpenTag(e.name, e.attributes) + t + CloseTag(e.name))
    case Children(cs) => Line(depth, OpenTag(e.name, e.attributes)) + RenderAll(cs, depth + 1) + Line(depth, CloseTag(e.name))
  }

  function RenderAll(cs: seq<Xml>, depth: nat): string
    decreases cs, 0
  {
    if cs == [] then "" else RenderAll(cs[..|cs| - 1], depth) + Render(cs[|cs| - 1], depth)
  }

  /** Rendering a list of siblings is rendering each part in turn. */
  lemma {:induction false} RenderAllConcat(a: seq<Xml>, b: seq<Xml>, depth: nat)
    ensures RenderAll(a + b, depth) == RenderAll(a, depth) + RenderAll(b, depth)
  {
    if b == [] {
      assert a + b == a;
    } else {
      var b0, x := b[..|b| - 1], b[|b| - 1];
      assert b == b0 + [x];
      assert a + b == (a + b0) + [x];
      RenderAllConcat(a, b0, depth);
      RenderAllSnoc(a + b0, x, depth);
      RenderAllSnoc(b0, x, depth);
      Associative(RenderAll(a, depth), RenderAll(b0, depth), Render(x, depth));
    }
  }

  lemma RenderAllSingle(x: Xml, depth: nat)
    ensures RenderAll([x], depth) == Render(x, depth)
  {
    assert [x][..0] == [];
  }

  lemma RenderAllPair(x: Xml, y: Xml, depth: nat)
    ensures RenderAll([x, y], depth) == Render(x, depth) + Render(y, depth)
  {
    assert [x, y] == [x] + [y];
    RenderAllConcat([x], [y], depth);
    RenderAllSingle(x, depth);
    RenderAllSingle(y, depth);
  }

  // ---------------------------------------------------------------------------
  // The TCX document as a tree

  const Declaration := "<?xml version=\"1.0\" encoding=\"UTF-8\"?>\n"
  const Namespace := "http://www.garmin.com/xmlschemas/TrainingCenterDatabase/v2"

  /** `samplesByWorkout.get(w.id!) ?? []`. */
  function SamplesOf(w: Workout, samplesByWorkout: map<int, seq<WorkoutSample>>): seq<WorkoutSample> {
    if w.id.Some? && w.id.value in samplesByWorkout then samplesByWorkout[w.id.value] else []
  }

  function TextElement(name: string, text: string): Xml {
    Element(name, [], Text(text))
  }

  function NotesText(jumpTimeSeconds: int): string {
    EscapeXml("Jump time: " + IntToString(jumpTimeSeconds) + "s")
  }

  function TrackpointNode(s: WorkoutSample, toIso: int -> string): Xml {
    Element("Trackpoint", [], Children(
      [TextElement("Time", toIso(s.timestampMillis))] +
      if s.heartRate.Some?
      then [Element("HeartRateBpm", [], Children([TextElement("Value", IntToString(s.heartRate.value))]))]
      else []))
  }

  /** One node per item, in order. */
  function Nodes<T>(items: seq<T>, node: T -> Xml): seq<Xml> {
    seq(|items|, i requires 0 <= i < |items| => node(items[i]))
  }

  lemma NodesConcat<T>(a: seq<T>, b: seq<T>, node: T -> Xml)
    ensures Nodes(a + b, node) == Nodes(a, node) + Nodes(b, node)
  {
    var l, r := Nodes(a + b, node), Nodes(a, node) + Nodes(b, node);
    forall k | 0 <= k < |l|
      ensures l[k] == r[k]
    {
      if k < |a| {
        assert (a + b)[k] == a[k];
      } else {
        assert (a + b)[k] == b[k - |a|];
      }
    }
  }

  lemma NodesPrefix<T>(items: seq<T>, i: nat, node: T -> Xml)
    requires i < |items|
    ensures Nodes(items[..i + 1], node) == Nodes(items[..i], node) + [node(items[i])]
  {
    assert items[..i + 1] == items[..i] + [items[i]];
    NodesConcat(items[..i], [items[i]], node);
  }

  function TrackpointOf(toIso: int -> string): WorkoutSample -> Xml {
    s => TrackpointNode(s, toIso)
  }

  function TrackpointNodes(samples: seq<WorkoutSample>, toIso: int -> string): seq<Xml> {
    Nodes(samples, TrackpointOf(toIso))
  }

  function LapChildren(w: Workout, samples: seq<WorkoutSample>, toIso: int -> string): seq<Xml> {
    [TextElement("TotalTimeSeconds", IntToString(w.durationSeconds))] +
    (if w.jumpTimeSeconds.Some? then [TextElement("Notes", NotesText(w.jumpTimeSeconds.value))] else []) +
    [Element("Track", [], Children(TrackpointNodes(samples, toIso)))]
  }

  function ActivityNode(w: Workout, samplesByWorkout: map<int, seq<WorkoutSample>>, toIso: int -> string): Xml {
    var startTime := toIso(w.startTimeMillis);
    Element("Activity", [Attribute("Sport", "Other")], Children([
      TextElement("Id", startTime),
      Element("Lap", [Attribute("StartTime", startTime)],
              Children(LapChildren(w, SamplesOf(w, samplesByWorkout), toIso)))]))
  }

  function ActivityOf(samplesByWorkout: map<int, seq<WorkoutSample>>, toIso: int -> string): Workout -> Xml {
    w => ActivityNode(w, samplesByWorkout, toIso)
  }

  function ActivityNodes(workouts: seq<Workout>, samplesByWorkout: map<int, seq<WorkoutSample>>, toIso: int -> string): seq<Xml> {
    Nodes(workouts, ActivityOf(samplesByWorkout, toIso))
  }

  function Document(workouts: seq<Workout>, samplesByWorkout: map<int, seq<WorkoutSample>>, toIso: int -> string): Xml {
    Element("TrainingCenterDatabase", [Attribute("xmlns", Namespace)], Children([
      Element("Activities", [], Children(ActivityNodes(workouts, samplesByWorkout, toIso)))]))
  }

  /** The exported file: the XML declaration, then the rendered document. */
  function TcxText(workouts: seq<Workout>, samplesByWorkout: map<int, seq<WorkoutSample>>, toIso: int -> string): string {
    Declaration + Render(Document(workouts, samplesByWorkout, toIso), 0)
  }

  // ---------------------------------------------------------------------------
  // The rendered tree, line by line

  lemma PlainTags(name: string, text: string)
    ensures OpenTag(name, []) == "<" + name + ">"
    ensures OpenTag(name, []) + text + CloseTag(name) == "<" + name + ">" + text + "</" + name + ">"
  {
    assert AttributesText([]) == "";
  }

  lemma OneAttributeTag(name: string, attribute: string, value: string)
    ensures OpenTag(name, [Attribute(attribute, value)]) == "<" + name + " " + attribute + "=\"" + value + "\">"
  {
    var attrs := [Attribute(attribute, value)];
    assert attrs[..0] == [];
    assert AttributesText(attrs) == "" + (" " + attribute + "=\"" + value + "\"");
  }

  lemma TextLine(name: string, text: string, depth: nat)
    ensures Render(TextElement(name, text), depth) == Line(depth, "<" + name + ">" + text + "</" + name + ">")
  {
    PlainTags(name, text);
  }

  /** The text of a trackpoint's optional heart-rate block. */
  function HeartRateText(s: WorkoutSample): string {
    if s.heartRate.Some? then
      Line(6, "<HeartRateBpm>") + Line(7, "<Value>" + IntToString(s.heartRate.value) + "</Value>") + Line(6, "</HeartRateBpm>")
    else ""
  }

  lemma ChildrenLines(name: string, cs: seq<Xml>, depth: nat)
    ensures Render(Element(name, [], Children(cs)), depth) ==
            Line(depth, "<" + name + ">") + RenderAll(cs, depth + 1) + Line(depth, "</" + name + ">")
  {
    PlainTags(name, "");
  }

  lemma HeartRateLines(bpm: int)
    ensures Render(Element("HeartRateBpm", [], Children([TextElement("Value", IntToString(bpm))])), 6) ==
            Line(6, "<HeartRateBpm>") + Line(7, "<Value>" + IntToString(bpm) + "</Value>") + Line(6, "</HeartRateBpm>")
  {
    var value := TextElement("Value", IntToString(bpm));
    ChildrenLines("HeartRateBpm", [value], 6);
    RenderAllSingle(value, 7);
    TextLine("Value", IntToString(bpm), 7);
    LiteralTextTags(IntToString(bpm));
    LiteralTags();
  }

  lemma TrackpointChildLines(s: WorkoutSample, toIso: int -> string)
    ensures RenderAll(TrackpointNode(s, toIso).body.children, 6) ==
            Line(6, "<Time>" + toIso(s.timestampMillis) + "</Time>") + HeartRateText(s)
  {
    var time := TextElement("Time", toIso(s.timestampMillis));
    TextLine("Time", toIso(s.timestampMillis), 6);
    LiteralTextTags(toIso(s.timestampMillis));
    if s.heartRate.Some? {
      var hr := Element("HeartRateBpm", [], Children([TextElement("Value", IntToString(s.heartRate.value))]));
      assert TrackpointNode(s, toIso).body.children == [time, hr];
      RenderAllPair(time, hr, 6);
      HeartRateLines(s.heartRate.value);
    } else {
      assert TrackpointNode(s, toIso).body.children == [time];
      RenderAllSingle(time, 6);
    }
  }

  /** The lines `buildTcx` writes for one sample. */
  function TrackpointText(s: WorkoutSample, toIso: int -> string): string {
    Line(5, "<Trackpoint>") + Line(6, "<Time>" + toIso(s.timestampMillis) + "</Time>") +
    HeartRateText(s) + Line(5, "</Trackpoint>")
  }

  /** A trackpoint's rendering is exactly those lines. */
  lemma TrackpointLines(s: WorkoutSample, toIso: int -> string)
    ensures Render(TrackpointNode(s, toIso), 5) == TrackpointText(s, toIso)
  {
    ChildrenLines("Trackpoint", TrackpointNode(s, toIso).body.children, 5);
    TrackpointChildLines(s, toIso);
    LiteralTags();
  }

  /** The Notes line of an activity, present only when the jump time is recorded. */
  function NotesLine(w: Workout): string {
    if w.jumpTimeSeconds.Some? then Line(4, "<Notes>" + NotesText(w.jumpTimeSeconds.value) + "</Notes>") else ""
  }

  lemma AttributeChildrenLines(name: string, attribute: string, value: string, cs: seq<Xml>, depth: nat)
    ensures Render(Element(name, [Attribute(attribute, value)], Children(cs)), depth) ==
            Line(depth, "<" + name + " " + attribute + "=\"" + value + "\">") + RenderAll(cs, depth + 1) +
            Line(depth, "</" + name + ">")
  {
    OneAttributeTag(name, attribute, value);
  }

  const RootOpen := "<TrainingCenterDatabase xmlns=\"" + Namespace + "\">"

  lemma TrackLines(samples: seq<WorkoutSample>, toIso: int -> string)
    ensures Render(Element("Track", [], Children(TrackpointNodes(samples, toIso))), 4) ==
            Line(4, "<Track>") + RenderAll(TrackpointNodes(samples, toIso), 5) + Line(4, "</Track>")
  {
    ChildrenLines("Track", TrackpointNodes(samples, toIso), 4);
    LiteralTags();
  }

  lemma LapChildLines(w: Workout, samples: seq<WorkoutSample>, toIso: int -> string)
    ensures RenderAll(LapChildren(w, samples, toIso), 4) ==
      Line(4, "<TotalTimeSeconds>" + IntToString(w.durationSeconds) + "</TotalTimeSeconds>") +
      NotesLine(w) +
      (Line(4, "<Track>") + RenderAll(TrackpointNodes(samples, toIso), 5) + Line(4, "</Track>"))
  {
    var total := TextElement("TotalTimeSeconds", IntToString(w.durationSeconds));
    var track := Element("Track", [], Children(TrackpointNodes(samples, toIso)));
    var notes := if w.jumpTimeSeconds.Some? then [TextElement("Notes", NotesText(w.jumpTimeSeconds.value))] else [];
    assert LapChildren(w, samples, toIso) == [total] + notes + [track];
    RenderAllConcat([total] + notes, [track], 4);
    RenderAllConcat([total], notes, 4);
    RenderAllSingle(total, 4);
    RenderAllSingle(track, 4);
    TextLine("TotalTimeSeconds", IntToString(w.durationSeconds), 4);
    LiteralTextTags(IntToString(w.durationSeconds));
    TrackLines(samples, toIso);
    if w.jumpTimeSeconds.Some? {
      RenderAllSingle(notes[0], 4);
      TextLine("Notes", NotesText(w.jumpTimeSeconds.value), 4);
      LiteralTextTags(NotesText(w.jumpTimeSeconds.value));
    } else {
      assert notes == [];
    }
  }

  lemma LapLines(w: Workout, samples: seq<WorkoutSample>, toIso: int -> string, startTime: string)
    ensures Render(Element("Lap", [Attribute("StartTime", startTime)], Children(LapChildren(w, samples, toIso))), 3) ==
      Line(3, "<Lap StartTime=\"" + startTime + "\">") +
      (Line(4, "<TotalTimeSeconds>" + IntToString(w.durationSeconds) + "</TotalTimeSeconds>") +
       NotesLine(w) +
       (Line(4, "<Track>") + RenderAll(TrackpointNodes(samples, toIso), 5) + Line(4, "</Track>"))) +
      Line(3, "</Lap>")
  {
    AttributeChildrenLines("Lap", "StartTime", startTime, LapChildren(w, samples, toIso), 3);
    LiteralAttributeTags(startTime);
    LiteralTags();
    LapChildLines(w, samples, toIso);
  }

  /** The lines inside an activity's Lap, after its opening tag. */
  function LapBodyText(w: Workout, samplesByWorkout: map<int, seq<WorkoutSample>>, toIso: int -> string): string {
    Line(4, "<TotalTimeSeconds>" + IntToString(w.durationSeconds) + "</TotalTimeSeconds>") +
    NotesLine(w) +
    (Line(4, "<Track>") + RenderAll(TrackpointNodes(SamplesOf(w, samplesByWorkout), toIso), 5) + Line(4, "</Track>"))
  }

  /**
   * An activity prints as the lines `buildTcx` writes for one workout, with the
   * workout's trackpoints rendered inside its Track.
   */
  lemma ActivityLines(w: Workout, samplesByWorkout: map<int, seq<WorkoutSample>>, toIso: int -> string)
    ensures var startTime := toIso(w.startTimeMillis);
      Render(ActivityNode(w, samplesByWorkout, toIso), 2) ==
      Line(2, "<Activity Sport=\"Other\">") +
      (Line(3, "<Id>" + startTime + "</Id>") +
       (Line(3, "<Lap StartTime=\"" + startTime + "\">") + LapBodyText(w, samplesByWorkout, toIso) + Line(3, "</Lap>"))) +
      Line(2, "</Activity>")
  {
    var startTime := toIso(w.startTimeMillis);
    var samples := SamplesOf(w, samplesByWorkout);
    var id := TextElement("Id", startTime);
    var lap := Element("Lap", [Attribute("StartTime", startTime)], Children(LapChildren(w, samples, toIso)));
    AttributeChildrenLines("Activity", "Sport", "Other", [id, lap], 2);
    LiteralAttributeTags(startTime);
    LiteralTags();
    RenderAllPair(id, lap, 3);
    LapLines(w, samples, toIso, startTime);
    TextLine("Id", startTime, 3);
    LiteralTextTags(startTime);
  }

  /** The root element: its tag, the Activities tag, each activity, the closing tags. */
  lemma DocumentLines(workouts: seq<Workout>, samplesByWorkout: map<int, seq<WorkoutSample>>, toIso: int -> string)
    ensures Render(Document(workouts, samplesByWorkout, toIso), 0) ==
      Line(0, RootOpen) +
      (Line(1, "<Activities>") + RenderAll(ActivityNodes(workouts, samplesByWorkout, toIso), 2) + Line(1, "</Activities>")) +
      Line(0, "</TrainingCenterDatabase>")
  {
    var activities := Element("Activities", [], Children(ActivityNodes(workouts, samplesByWorkout, toIso)));
    AttributeChildrenLines("TrainingCenterDatabase", "xmlns", Namespace, [activities], 0);
    LiteralAttributeTags("");
    RenderAllSingle(activities, 1);
    ChildrenLines("Activities", ActivityNodes(workouts, samplesByWorkout, toIso), 1);
    LiteralTags();
  }

  // ---------------------------------------------------------------------------
  // Reading the document back

  /** The first child called `name`, as a reader of the file would look it up. */
  function Find(cs: seq<Xml>, name: string): (r: Option<Xml>)
    ensures r.Some? ==> r.value in cs && r.value.name == name
    ensures r.None? <==> forall i :: 0 <= i < |cs| ==> cs[i].name != name
  {
    if cs == [] then None
    else if cs[0].name == name then Some(cs[0])
    else Find(cs[1..], name)
  }

  function ChildrenOf(e: Option<Xml>): seq<Xml> {
    if e.Some? && e.value.body.Children? then e.value.body.children else []
  }

  /** An element's text read as an integer, as `parseInt` would. */
  function ReadInt(e: Option<Xml>): Option<int> {
    if e.Some? && e.value.body.Text? then ParseInt(e.value.body.text) else None
  }

  /** The digits and sign of a number are not markup. */
  lemma IntTextUnmarked(n: int)
    ensures '&' !in IntToString(n) && '<' !in IntToString(n) && '>' !in IntToString(n)
  {
    var digits := NatToString(if n < 0 then -n else n);
    assert forall i :: 0 <= i < |digits| ==> IsDigit(digits[i]);
  }

  /** The jump-time note passes through escaping unchanged. */
  lemma NotesTextPlain(jumpTimeSeconds: int)
    ensures NotesText(jumpTimeSeconds) == "Jump time: " + IntToString(jumpTimeSeconds) + "s"
  {
    IntTextUnmarked(jumpTimeSeconds);
    EscapeUnmarked("Jump time: " + IntToString(jumpTimeSeconds) + "s");
  }

  /**
   * A trackpoint carries its sample's time, and a heart-rate block exactly when
   * the sample has a heart rate, whose Value reads back as that heart rate.
   */
  lemma TrackpointReadBack(s: WorkoutSample, toIso: int -> string)
    ensures var cs := TrackpointNode(s, toIso).body.children;
      Find(cs, "Time") == Some(TextElement("Time", toIso(s.timestampMillis))) &&
      (Find(cs, "HeartRateBpm").Some? <==> s.heartRate.Some?) &&
      (s.heartRate.Some? ==> ReadInt(Find(ChildrenOf(Find(cs, "HeartRateBpm")), "Value")) == s.heartRate)
  {
    TrackpointTimeReadBack(s, toIso);
    TrackpointHeartRateReadBack(s, toIso);
  }

  lemma TrackpointTimeReadBack(s: WorkoutSample, toIso: int -> string)
    ensures Find(TrackpointNode(s, toIso).body.children, "Time") == Some(TextElement("Time", toIso(s.timestampMillis)))
  {
    assert TrackpointNode(s, toIso).body.children[0].name == "Time";
  }

  lemma TrackpointHeartRateReadBack(s: WorkoutSample, toIso: int -> string)
    ensures var cs := TrackpointNode(s, toIso).body.children;
      (Find(cs, "HeartRateBpm").Some? <==> s.heartRate.Some?) &&
      (s.heartRate.Some? ==> ReadInt(Find(ChildrenOf(Find(cs, "HeartRateBpm")), "Value")) == s.heartRate)
  {
    if s.heartRate.Some? {
      HeartRateBlockFound(s, toIso);
    } else {
      NoHeartRateBlock(s, toIso);
    }
  }

  lemma DistinctTrackpointNames()
    ensures "Time" != "HeartRateBpm"
  {
    assert "Time"[1] == 'i' && "HeartRateBpm"[1] == 'e';
  }

  lemma HeartRateBlockFound(s: WorkoutSample, toIso: int -> string)
    requires s.heartRate.Some?
    ensures var cs := TrackpointNode(s, toIso).body.children;
      Find(cs, "HeartRateBpm").Some? &&
      ReadInt(Find(ChildrenOf(Find(cs, "HeartRateBpm")), "Value")) == s.heartRate
  {
    var cs := TrackpointNode(s, toIso).body.children;
    DistinctTrackpointNames();
    assert cs[1..][0].name == "HeartRateBpm";
    ParseIntRoundTrip(s.heartRate.value);
  }

  lemma NoHeartRateBlock(s: WorkoutSample, toIso: int -> string)
    requires s.heartRate.None?
    ensures Find(TrackpointNode(s, toIso).body.children, "HeartRateBpm").None?
  {
    var cs := TrackpointNode(s, toIso).body.children;
    DistinctTrackpointNames();
    assert cs == [TextElement("Time", toIso(s.timestampMillis))];
  }

  /** A number written as an element's text reads back as that number. */
  lemma ReadIntText(name: string, n: int)
    ensures ReadInt(Some(TextElement(name, IntToString(n)))) == Some(n)
  {
    ParseIntRoundTrip(n);
  }

  lemma LapChildrenShape(w: Workout, samples: seq<WorkoutSample>, toIso: int -> string)
    ensures var cs := LapChildren(w, samples, toIso);
      var total := TextElement("TotalTimeSeconds", IntToString(w.durationSeconds));
      var track := Element("Track", [], Children(TrackpointNodes(samples, toIso)));
      Find(cs, "TotalTimeSeconds") == Some(total) &&
      Find(cs, "Track") == Some(track) &&
      Find(cs, "Notes") ==
        (if w.jumpTimeSeconds.Some? then Some(TextElement("Notes", NotesText(w.jumpTimeSeconds.value))) else None)
  {
    var cs := LapChildren(w, samples, toIso);
    assert cs[0].name == "TotalTimeSeconds";
    assert "TotalTimeSeconds" != "Notes" && "TotalTimeSeconds" != "Track" && "Notes" != "Track";
    if w.jumpTimeSeconds.Some? {
      assert cs[1..][0].name == "Notes";
      assert cs[1..][1..][0].name == "Track";
    } else {
      assert cs[1..][0].name == "Track";
      assert cs[1..][1..] == [];
    }
  }

  /**
   * A Lap holds a TotalTimeSeconds that reads back as the duration, a Notes
   * element exactly when a jump time is recorded, and a Track of the samples.
   */
  lemma LapReadBack(w: Workout, samples: seq<WorkoutSample>, toIso: int -> string)
    ensures var cs := LapChildren(w, samples, toIso);
      ReadInt(Find(cs, "TotalTimeSeconds")) == Some(w.durationSeconds) &&
      (Find(cs, "Notes").Some? <==> w.jumpTimeSeconds.Some?) &&
      (w.jumpTimeSeconds.Some? ==>
         Find(cs, "Notes") == Some(TextElement("Notes", "Jump time: " + IntToString(w.jumpTimeSeconds.value) + "s"))) &&
      ChildrenOf(Find(cs, "Track")) == TrackpointNodes(samples, toIso)
  {
    LapTotalReadBack(w, samples, toIso);
    LapNotesReadBack(w, samples, toIso);
    LapTrackReadBack(w, samples, toIso);
  }

  lemma LapTotalReadBack(w: Workout, samples: seq<WorkoutSample>, toIso: int -> string)
    ensures ReadInt(Find(LapChildren(w, samples, toIso), "TotalTimeSeconds")) == Some(w.durationSeconds)
  {
    LapChildrenShape(w, samples, toIso);
    ReadIntText("TotalTimeSeconds", w.durationSeconds);
  }

  lemma LapNotesReadBack(w: Workout, samples: seq<WorkoutSample>, toIso: int -> string)
    ensures var notes := Find(LapChildren(w, samples, toIso), "Notes");
      (notes.Some? <==> w.jumpTimeSeconds.Some?) &&
      (w.jumpTimeSeconds.Some? ==>
         notes == Some(TextElement("Notes", "Jump time: " + IntToString(w.jumpTimeSeconds.value) + "s")))
  {
    LapChildrenShape(w, samples, toIso);
    if w.jumpTimeSeconds.Some? {
      NotesTextPlain(w.jumpTimeSeconds.value);
    }
  }

  lemma LapTrackReadBack(w: Workout, samples: seq<WorkoutSample>, toIso: int -> string)
    ensures ChildrenOf(Find(LapChildren(w, samples, toIso), "Track")) == TrackpointNodes(samples, toIso)
  {
    LapChildrenShape(w, samples, toIso);
  }

  /**
   * An activity carries its start time as the Id and as the Lap's StartTime, the
   * Lap described by `LapReadBack`, and a Track with one Trackpoint per sample of
   * the workout, in order; a workout with no samples has an empty Track.
   */
  lemma ActivityReadBack(w: Workout, samplesByWorkout: map<int, seq<WorkoutSample>>, toIso: int -> string)
    ensures var a := ActivityNode(w, samplesByWorkout, toIso);
      var lap := Find(a.body.children, "Lap");
      var samples := SamplesOf(w, samplesByWorkout);
      a.attributes == [Attribute("Sport", "Other")] &&
      Find(a.body.children, "Id") == Some(TextElement("Id", toIso(w.startTimeMillis))) &&
      lap == Some(Element("Lap", [Attribute("StartTime", toIso(w.startTimeMillis))], Children(LapChildren(w, samples, toIso))))
    ensures var track := ChildrenOf(Find(LapChildren(w, SamplesOf(w, samplesByWorkout), toIso), "Track"));
      var samples := SamplesOf(w, samplesByWorkout);
      |track| == |samples| &&
      (forall i :: 0 <= i < |samples| ==> track[i] == TrackpointNode(samples[i], toIso)) &&
      (w.id.None? || w.id.value !in samplesByWorkout ==> track == [])
  {
    var a := ActivityNode(w, samplesByWorkout, toIso);
    assert a.body.children[0].name == "Id";
    assert "Id" != "Lap";
    assert a.body.children[1..][0].name == "Lap";
    LapReadBack(w, SamplesOf(w, samplesByWorkout), toIso);
  }

  /** The document holds one Activity per workout, in the order given. */
  lemma DocumentReadBack(workouts: seq<Workout>, samplesByWorkout: map<int, seq<WorkoutSample>>, toIso: int -> string)
    ensures var activities := ChildrenOf(Find(Document(workouts, samplesByWorkout, toIso).body.children, "Activities"));
      |activities| == |workouts| &&
      forall i :: 0 <= i < |workouts| ==>
        activities[i].name == "Activity" && activities[i] == ActivityNode(workouts[i], samplesByWorkout, toIso)
  {
    assert Document(workouts, samplesByWorkout, toIso).body.children[0].name == "Activities";
  }

  /** Exporting `a + b` writes the activities of `a`, then those of `b`. */
  lemma ActivitiesInOrder(a: seq<Workout>, b: seq<Workout>, samplesByWorkout: map<int, seq<WorkoutSample>>, toIso: int -> string)
    ensures RenderAll(ActivityNodes(a + b, samplesByWorkout, toIso), 2) ==
            RenderAll(ActivityNodes(a, samplesByWorkout, toIso), 2) + RenderAll(ActivityNodes(b, samplesByWorkout, toIso), 2)
  {
    NodesConcat(a, b, ActivityOf(samplesByWorkout, toIso));
    RenderAllConcat(ActivityNodes(a, samplesByWorkout, toIso), ActivityNodes(b, samplesByWorkout, toIso), 2);
  }

  /** With no workouts the file is the declaration and the empty Activities element. */
  lemma NoWorkouts(samplesByWorkout: map<int, seq<WorkoutSample>>, toIso: int -> string)
    ensures TcxText([], samplesByWorkout, toIso) ==
            Declaration + (Line(0, RootOpen) + (Line(1, "<Activities>") + Line(1, "</Activities>")) +
            Line(0, "</TrainingCenterDatabase>"))
  {
    DocumentLines([], samplesByWorkout, toIso);
    assert RenderAll(ActivityNodes([], samplesByWorkout, toIso), 2) == "";
    assert Line(1, "<Activities>") + "" == Line(1, "<Activities>");
  }

  // ---------------------------------------------------------------------------
  // buildTcx

  /** `buildTcx`: the document accumulated line by line over workouts and their samples. */
  method BuildTcx(workouts: seq<Workout>, samplesByWorkout: map<int, seq<WorkoutSample>>, toIso: int -> string)
    returns (xml: string)
    ensures xml == TcxText(workouts, samplesByWorkout, toIso)
  {
    xml := Declaration;
    xml := xml + Line(0, "<TrainingCenterDatabase xmlns=\"" + Namespace + "\">");
    xml := xml + Line(1, "<Activities>");
    ghost var head := xml;

    assert ActivityNodes(workouts[..0], samplesByWorkout, toIso) == [];
    for i := 0 to |workouts|
      invariant xml == head + RenderAll(ActivityNodes(workouts[..i], samplesByWorkout, toIso), 2)
    {
      ghost var done := RenderAll(ActivityNodes(workouts[..i], samplesByWorkout, toIso), 2);
      xml := WriteActivity(xml, workouts[i], samplesByWorkout, toIso);
      ActivityStep(workouts, i, samplesByWorkout, toIso);
      Associative(head, done, Render(ActivityNode(workouts[i], samplesByWorkout, toIso), 2));
    }

    assert workouts[..|workouts|] == workouts;
    ghost var activities := RenderAll(ActivityNodes(workouts, samplesByWorkout, toIso), 2);
    xml := xml + Line(1, "</Activities>");
    xml := xml + Line(0, "</TrainingCenterDatabase>");
    // regroup the appended lines as the tree nests them
    Associative(Declaration + Line(0, RootOpen), Line(1, "<Activities>"), activities);
    Associative(Declaration + Line(0, RootOpen), Line(1, "<Activities>") + activities, Line(1, "</Activities>"));
    Associative(Declaration, Line(0, RootOpen), Line(1, "<Activities>") + activities + Line(1, "</Activities>"));
    Associative(Declaration, Line(0, RootOpen) + (Line(1, "<Activities>") + activities + Line(1, "</Activities>")),
                Line(0, "</TrainingCenterDatabase>"));
    DocumentLines(workouts, samplesByWorkout, toIso);
  }

  lemma ActivityStep(workouts: seq<Workout>, i: nat, samplesByWorkout: map<int, seq<WorkoutSample>>, toIso: int -> string)
    requires i < |workouts|
    ensures RenderAll(ActivityNodes(workouts[..i + 1], samplesByWorkout, toIso), 2) ==
            RenderAll(ActivityNodes(workouts[..i], samplesByWorkout, toIso), 2) +
            Render(ActivityNode(workouts[i], samplesByWorkout, toIso), 2)
  {
    NodesPrefix(workouts, i, ActivityOf(samplesByWorkout, toIso));
    RenderAllSnoc(ActivityNodes(workouts[..i], samplesByWorkout, toIso), ActivityNode(workouts[i], samplesByWorkout, toIso), 2);
  }

  lemma RenderAllSnoc(xs: seq<Xml>, x: Xml, depth: nat)
    ensures RenderAll(xs + [x], depth) == RenderAll(xs, depth) + Render(x, depth)
  {
    assert (xs + [x])[..|xs|] == xs;
  }

  lemma TrackpointStep(samples: seq<WorkoutSample>, j: nat, toIso: int -> string)
    requires j < |samples|
    ensures RenderAll(TrackpointNodes(samples[..j + 1], toIso), 5) ==
            RenderAll(TrackpointNodes(samples[..j], toIso), 5) + Render(TrackpointNode(samples[j], toIso), 5)
  {
    NodesPrefix(samples, j, TrackpointOf(toIso));
    RenderAllSnoc(TrackpointNodes(samples[..j], toIso), TrackpointNode(samples[j], toIso), 5);
  }

  /** The body of `buildTcx`'s outer loop: append one workout's Activity. */
  method WriteActivity(xml0: string, w: Workout, samplesByWorkout: map<int, seq<WorkoutSample>>, toIso: int -> string)
    returns (xml: string)
    ensures xml == xml0 + Render(ActivityNode(w, samplesByWorkout, toIso), 2)
  {
    var startTime := toIso(w.startTimeMillis);
    ghost var activityOpen := Line(2, "<Activity Sport=\"Other\">");
    ghost var id := Line(3, "<Id>" + startTime + "</Id>");
    ghost var lapOpen := Line(3, "<Lap StartTime=\"" + startTime + "\">");
    ghost var lapBody := LapBodyText(w, samplesByWorkout, toIso);
    xml := xml0 + Line(2, "<Activity Sport=\"Other\">");
    xml := xml + Line(3, "<Id>" + startTime + "</Id>");
    xml := xml + Line(3, "<Lap StartTime=\"" + startTime + "\">");
    xml := WriteLapBody(xml, w, samplesByWorkout, toIso);
    xml := xml + Line(3, "</Lap>");
    // regroup the appended lines as the tree nests them
    Associative(xml0 + activityOpen + id, lapOpen, lapBody);
    Associative(xml0 + activityOpen + id, lapOpen + lapBody, Line(3, "</Lap>"));
    Associative(xml0 + activityOpen, id, lapOpen + lapBody + Line(3, "</Lap>"));
    Associative(xml0, activityOpen, id + (lapOpen + lapBody + Line(3, "</Lap>")));
    xml := xml + Line(2, "</Activity>");
    Associative(xml0, activityOpen + (id + (lapOpen + lapBody + Line(3, "</Lap>"))), Line(2, "</Activity>"));
    ActivityLines(w, samplesByWorkout, toIso);
  }

  /** The TotalTimeSeconds, Notes and Track lines of one workout's Lap. */
  method WriteLapBody(xml0: string, w: Workout, samplesByWorkout: map<int, seq<WorkoutSample>>, toIso: int -> string)
    returns (xml: string)
    ensures xml == xml0 + LapBodyText(w, samplesByWorkout, toIso)
  {
    var total := Line(4, "<TotalTimeSeconds>" + IntToString(w.durationSeconds) + "</TotalTimeSeconds>");
    xml := xml0 + total;
    if w.jumpTimeSeconds.Some? {
      xml := xml + Line(4, "<Notes>" + EscapeXml("Jump time: " + IntToString(w.jumpTimeSeconds.value) + "s") + "</Notes>");
    } else {
      assert xml + NotesLine(w) == xml;
    }
    Associative(xml0, total, NotesLine(w));
    ghost var head := total + NotesLine(w);
    xml := xml + Line(4, "<Track>");
    ghost var trackStart := xml;
    var samples := if w.id.Some? && w.id.value in samplesByWorkout then samplesByWorkout[w.id.value] else [];
    assert TrackpointNodes(samples[..0], toIso) == [];
    for j := 0 to |samples|
      invariant xml == trackStart + RenderAll(TrackpointNodes(samples[..j], toIso), 5)
    {
      ghost var done := RenderAll(TrackpointNodes(samples[..j], toIso), 5);
      xml := WriteTrackpoint(xml, samples[j], toIso);
      TrackpointLines(samples[j], toIso);
      TrackpointStep(samples, j, toIso);
      Associative(trackStart, done, TrackpointText(samples[j], toIso));
    }
    assert samples[..|samples|] == samples;
    ghost var points := RenderAll(TrackpointNodes(samples, toIso), 5);
    xml := xml + Line(4, "</Track>");
    Associative(xml0 + head, Line(4, "<Track>"), points);
    Associative(xml0 + head, Line(4, "<Track>") + points, Line(4, "</Track>"));
    Associative(xml0, head, Line(4, "<Track>") + points + Line(4, "</Track>"));
  }

  /** The body of `buildTcx`'s inner loop: append one sample's Trackpoint. */
  method WriteTrackpoint(xml0: string, s: WorkoutSample, toIso: int -> string) returns (xml: string)
    ensures xml == xml0 + TrackpointText(s, toIso)
  {
    var open, time := Line(5, "<Trackpoint>"), Line(6, "<Time>" + toIso(s.timestampMillis) + "</Time>");
    xml := xml0 + open;
    xml := xml + time;
    xml := WriteHeartRate(xml, s);
    xml := xml + Line(5, "</Trackpoint>");
    // regroup the appended lines as the trackpoint text groups them
    Associative(xml0, open, time);
    Associative(xml0, open + time, HeartRateText(s));
    Associative(xml0, open + time + HeartRateText(s), Line(5, "</Trackpoint>"));
  }

  /** The heart-rate block of a trackpoint, written only when the sample has a reading. */
  method WriteHeartRate(xml0: string, s: WorkoutSample) returns (xml: string)
    ensures xml == xml0 + HeartRateText(s)
  {
    xml := xml0;
    if s.heartRate.Some? {
      var open := Line(6, "<HeartRateBpm>");
      var value := Line(7, "<Value>" + IntToString(s.heartRate.value) + "</Value>");
      var close := Line(6, "</HeartRateBpm>");
      xml := xml + open;
      xml := xml + value;
      xml := xml + close;
      Associative(xml0, open, value);
      Associative(xml0, open + value, close);
    } else {
      assert xml0 + "" == xml0;
    }
  }

  // ---------------------------------------------------------------------------
  // Solver aids. These lemmas only spell out how string literals and
  // concatenations regroup, so that the proofs above go through; they state
  // nothing about the exported document.

  lemma LiteralTags()
    ensures "<" + "Trackpoint" + ">" == "<Trackpoint>" && "</" + "Trackpoint" + ">" == "</Trackpoint>"
    ensures "<" + "HeartRateBpm" + ">" == "<HeartRateBpm>" && "</" + "HeartRateBpm" + ">" == "</HeartRateBpm>"
    ensures "<" + "Track" + ">" == "<Track>" && "</" + "Track" + ">" == "</Track>"
    ensures "</" + "Lap" + ">" == "</Lap>" && "</" + "Activity" + ">" == "</Activity>"
    ensures "<" + "Activities" + ">" == "<Activities>" && "</" + "Activities" + ">" == "</Activities>"
    ensures "</" + "TrainingCenterDatabase" + ">" == "</TrainingCenterDatabase>"
  {
    TrackpointTags();
    TrackTags();
    DocumentTags();
  }

  lemma TrackpointTags()
    ensures "<" + "Trackpoint" + ">" == "<Trackpoint>" && "</" + "Trackpoint" + ">" == "</Trackpoint>"
    ensures "<" + "HeartRateBpm" + ">" == "<HeartRateBpm>" && "</" + "HeartRateBpm" + ">" == "</HeartRateBpm>"
  {
  }

  lemma TrackTags()
    ensures "<" + "Track" + ">" == "<Track>" && "</" + "Track" + ">" == "</Track>"
    ensures "</" + "Lap" + ">" == "</Lap>" && "</" + "Activity" + ">" == "</Activity>"
  {
  }

  lemma DocumentTags()
    ensures "<" + "Activities" + ">" == "<Activities>" && "</" + "Activities" + ">" == "</Activities>"
    ensures "</" + "TrainingCenterDatabase" + ">" == "</TrainingCenterDatabase>"
  {
  }

  /** `<name>text</name>` is the same string however the tag pieces are grouped. */
  lemma WrappedText(name: string, open: string, close: string, text: string)
    requires open == "<" + name + ">" && close == "</" + name + ">"
    ensures "<" + name + ">" + text + "</" + name + ">" == open + text + close
  {
  }

  lemma LiteralTextTags(text: string)
    ensures "<" + "Time" + ">" + text + "</" + "Time" + ">" == "<Time>" + text + "</Time>"
    ensures "<" + "Value" + ">" + text + "</" + "Value" + ">" == "<Value>" + text + "</Value>"
    ensures "<" + "Id" + ">" + text + "</" + "Id" + ">" == "<Id>" + text + "</Id>"
    ensures "<" + "Notes" + ">" + text + "</" + "Notes" + ">" == "<Notes>" + text + "</Notes>"
    ensures "<" + "TotalTimeSeconds" + ">" + text + "</" + "TotalTimeSeconds" + ">" ==
            "<TotalTimeSeconds>" + text + "</TotalTimeSeconds>"
  {
    TextTagLiterals();
    WrappedText("Time", "<Time>", "</Time>", text);
    WrappedText("Value", "<Value>", "</Value>", text);
    WrappedText("Id", "<Id>", "</Id>", text);
    WrappedText("Notes", "<Notes>", "</Notes>", text);
    WrappedText("TotalTimeSeconds", "<TotalTimeSeconds>", "</TotalTimeSeconds>", text);
  }

  lemma TextTagLiterals()
    ensures "<" + "Time" + ">" == "<Time>" && "</" + "Time" + ">" == "</Time>"
    ensures "<" + "Value" + ">" == "<Value>" && "</" + "Value" + ">" == "</Value>"
    ensures "<" + "Id" + ">" == "<Id>" && "</" + "Id" + ">" == "</Id>"
    ensures "<" + "Notes" + ">" == "<Notes>" && "</" + "Notes" + ">" == "</Notes>"
    ensures "<" + "TotalTimeSeconds" + ">" == "<TotalTimeSeconds>" && "</" + "TotalTimeSeconds" + ">" == "</TotalTimeSeconds>"
  {
  }

  lemma LiteralAttributeTags(text: string)
    ensures "<" + "Lap" + " " + "StartTime" + "=\"" + text + "\">" == "<Lap StartTime=\"" + text + "\">"
    ensures "<" + "Activity" + " " + "Sport" + "=\"" + "Other" + "\">" == "<Activity Sport=\"Other\">"
    ensures "<" + "TrainingCenterDatabase" + " " + "xmlns" + "=\"" + Namespace + "\">" == RootOpen
  {
    LapAttributeTag(text);
    FixedAttributeTags();
  }

  lemma LapAttributeTag(text: string)
    ensures "<" + "Lap" + " " + "StartTime" + "=\"" + text + "\">" == "<Lap StartTime=\"" + text + "\">"
  {
    assert "<" + "Lap" + " " + "StartTime" + "=\"" == "<Lap StartTime=\"";
  }

  lemma FixedAttributeTags()
    ensures "<" + "Activity" + " " + "Sport" + "=\"" + "Other" + "\">" == "<Activity Sport=\"Other\">"
    ensures "<" + "TrainingCenterDatabase" + " " + "xmlns" + "=\"" + Namespace + "\">" == RootOpen
  {
    RootOpenTag();
  }

  lemma RootOpenTag()
    ensures "<" + "TrainingCenterDatabase" + " " + "xmlns" + "=\"" + Namespace + "\">" == RootOpen
  {
    assert "<" + "TrainingCenterDatabase" + " " + "xmlns" + "=\"" == "<TrainingCenterDatabase xmlns=\"";
  }

  lemma Associative(a: string, b: string, c: string)
    ensures a + b + c == a + (b + c)
  {
  }
}
