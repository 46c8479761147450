/**
  titantv/mxf_generator.py: the MXF guide document of the second-generation
  scripts, built with `SubElement` calls and text assignments from the lineup
  record, the channel records and the schedule items that titantv/processor.py
  produces. The tree is handed back rather than written to a file.
 */
module TitanMxf {
  import opened Wrappers
  import opened Json
  import opened Seqs
  import opened Xml

  /** `r[key]` for a record holding `key`. */
  function Field(r: Value, key: string): Value {
    Get(r, key, JNull)
  }

  /** What lxml's `el.text = v` accepts: a string, or None for no text. */
  predicate TextLike(v: Value) {
    v.JStr? || v.JNull?
  }

  function TextValue(v: Value): Option<string> {
    if v.JStr? then Some(v.s) else None
  }

  // ----- The document the generator builds -----

  function LineupAttrs(lineup: Value): seq<(string, string)> {
    [("id", "1"), ("uid", Str(Field(lineup, "lineupId")))]
  }

  function LineupChildren(lineup: Value): seq<Node> {
    [TextElement("Name", TextValue(Field(lineup, "lineupName"))),
     TextElement("TimeZone", TextValue(Field(lineup, "timezone"))),
     TextElement("UTCOffset", Some(Str(Field(lineup, "utcOffset")))),
     TextElement("ObservesDaylightSaving", Some(Lower(Str(Field(lineup, "observesDst")))))]
  }

  function LineupsElement(lineup: Value): Node {
    Element("Lineups", [], [Element("Lineup", LineupAttrs(lineup), LineupChildren(lineup))])
  }

  function ChannelAttrs(channel: Value): seq<(string, string)> {
    [("id", Str(Field(channel, "channelId")))]
  }

  function ChannelChildren(channel: Value): seq<Node> {
    [TextElement("CallSign", TextValue(Field(channel, "callSign"))),
     TextElement("Name", TextValue(Field(channel, "network"))),
     TextElement("Description", TextValue(Field(channel, "description"))),
     TextElement("HD", Some(Lower(Str(Field(channel, "hdCapable"))))),
     TextElement("Logo", TextValue(Field(channel, "logo"))),
     TextElement("MajorChannel", Some(Str(Field(channel, "majorChannel")))),
     TextElement("MinorChannel", Some(Str(Field(channel, "minorChannel")))),
     TextElement("Lineup", Some("1"))]
  }

  function ChannelElement(channel: Value): Node {
    Element("Channel", ChannelAttrs(channel), ChannelChildren(channel))
  }

  function ProgramAttrs(item: Value): seq<(string, string)> {
    [("id", Str(Field(item, "eventId")))]
  }

  function ProgramChildren(item: Value): seq<Node> {
    [TextElement("Title", TextValue(Field(item, "title"))),
     TextElement("Description", TextValue(Field(item, "description"))),
     TextElement("StartTime", TextValue(Field(item, "startTime"))),
     TextElement("EndTime", TextValue(Field(item, "endTime"))),
     TextElement("ProgramType", TextValue(Field(item, "programType"))),
     TextElement("TVRating", TextValue(Get(item, "tvRating", JStr("")))),
     TextElement("ShowCard", TextValue(Get(item, "showCard", JStr("")))),
     TextElement("Channel", Some(Str(Field(item, "channelId"))))]
  }

  function ProgramElement(item: Value): Node {
    Element("Program", ProgramAttrs(item), ProgramChildren(item))
  }

  function EntryChildren(item: Value): seq<Node> {
    [TextElement("Channel", Some(Str(Field(item, "channelId")))),
     TextElement("Program", Some(Str(Field(item, "eventId")))),
     TextElement("StartTime", TextValue(Field(item, "startTime"))),
     TextElement("EndTime", TextValue(Field(item, "endTime")))]
  }

  function EntryElement(item: Value): Node {
    Element("ScheduleEntry", [], EntryChildren(item))
  }

  function ChannelsOf(data: Value): seq<Value> {
    Items(Field(data, "channels"))
  }

  function ScheduleOf(data: Value): seq<Value> {
    Items(Field(data, "schedule"))
  }

  /** Lineups, Channels, Programs and ScheduleEntries, the last two with one
      child per schedule item. */
  function MxfTree(data: Value): Node {
    Element("MXF", [], [
      LineupsElement(Field(data, "lineup")),
      Element("Channels", [], Map(ChannelElement, ChannelsOf(data))),
      Element("Programs", [], Map(ProgramElement, ScheduleOf(data))),
      Element("ScheduleEntries", [], Map(EntryElement, ScheduleOf(data)))])
  }

  // ----- What the generator runs on -----

  /** Every key read with `lineup[...]` is there; the uid attribute is a
      string and the texts are strings or None. */
  predicate LineupShaped(lineup: Value) {
    && Has(lineup, "lineupId") && Field(lineup, "lineupId").JStr?
    && Has(lineup, "lineupName") && TextLike(Field(lineup, "lineupName"))
    && Has(lineup, "timezone") && TextLike(Field(lineup, "timezone"))
    && Has(lineup, "utcOffset") && Has(lineup, "observesDst")
  }

  predicate ChannelShaped(channel: Value) {
    && Has(channel, "channelId") && Has(channel, "hdCapable")
    && Has(channel, "majorChannel") && Has(channel, "minorChannel")
    && Has(channel, "callSign") && TextLike(Field(channel, "callSign"))
    && Has(channel, "network") && TextLike(Field(channel, "network"))
    && Has(channel, "description") && TextLike(Field(channel, "description"))
    && Has(channel, "logo") && TextLike(Field(channel, "logo"))
  }

  predicate ItemShaped(item: Value) {
    && Has(item, "eventId") && Has(item, "channelId")
    && Has(item, "title") && TextLike(Field(item, "title"))
    && Has(item, "description") && TextLike(Field(item, "description"))
    && Has(item, "startTime") && TextLike(Field(item, "startTime"))
    && Has(item, "endTime") && TextLike(Field(item, "endTime"))
    && Has(item, "programType") && TextLike(Field(item, "programType"))
    && TextLike(Get(item, "tvRating", JStr(""))) && TextLike(Get(item, "showCard", JStr("")))
  }

  predicate MxfData(data: Value) {
    && Has(data, "lineup") && LineupShaped(Field(data, "lineup"))
    && Has(data, "channels") && Field(data, "channels").JArr?
    && (forall ch :: ch in ChannelsOf(data) ==> ChannelShaped(ch))
    && Has(data, "schedule") && Field(data, "schedule").JArr?
    && (forall item :: item in ScheduleOf(data) ==> ItemShaped(item))
  }

  // ----- The builder -----

  /** Appending under the last top-level section. */
  lemma GrowLast(head: seq<Node>, tag: string, items: seq<Node>, c: Node)
    ensures PathOk(Element("MXF", [], head + [Element(tag, [], items)]), [|head|])
    ensures ExtendAt(Element("MXF", [], head + [Element(tag, [], items)]), [|head|], [c])
            == Element("MXF", [], head + [Element(tag, [], items + [c])])
  {
    ExtendChild("MXF", [], head + [Element(tag, [], items)], |head|, c);
    assert (head + [Element(tag, [], items)])[|head| := Element(tag, [], items + [c])]
           == head + [Element(tag, [], items + [c])];
  }

  /** Opening a new top-level section after `head`. */
  lemma OpenLast(head: seq<Node>, tag: string)
    ensures ExtendAt(Element("MXF", [], head), [], [Element(tag, [], [])])
            == Element("MXF", [], head + [Element(tag, [], [])])
  {
  }

  method GenerateMxf(data: Value) returns (mxf: Node)
    requires MxfData(data)
    ensures mxf == MxfTree(data)
  {
    var root := new XmlElement("MXF", []);
    var lineup := Get(data, "lineup", JNull);
    AddLineups(root, lineup);
    var channels := Items(Get(data, "channels", JNull));
    var schedule := Items(Get(data, "schedule", JNull));
    AddRecords(root, LineupsElement(lineup), channels, schedule);
    mxf := root.Value();
  }

  /** The Channels, Programs and ScheduleEntries sections, in that order,
      after Lineups. */
  method AddRecords(root: XmlElement, ghost lineups: Node, channels: seq<Value>, schedule: seq<Value>)
    requires root.Value() == Element("MXF", [], [lineups])
    requires forall ch :: ch in channels ==> ChannelShaped(ch)
    requires forall item :: item in schedule ==> ItemShaped(item)
    modifies root
    ensures root.Value() == Element("MXF", [], [lineups,
              Element("Channels", [], Map(ChannelElement, channels)),
              Element("Programs", [], Map(ProgramElement, schedule)),
              Element("ScheduleEntries", [], Map(EntryElement, schedule))])
  {
    ghost var c := Element("Channels", [], Map(ChannelElement, channels));
    ghost var p := Element("Programs", [], Map(ProgramElement, schedule));
    AddChannels(root, [lineups], channels);
    assert [lineups] + [c] == [lineups, c];
    AddPrograms(root, [lineups, c], schedule);
    assert [lineups, c] + [p] == [lineups, c, p];
    AddEntries(root, [lineups, c, p], schedule);
  }

  /** The Channels section and its loop over the channel records. */
  method AddChannels(root: XmlElement, ghost head: seq<Node>, channels: seq<Value>)
    requires root.Value() == Element("MXF", [], head)
    requires forall ch :: ch in channels ==> ChannelShaped(ch)
    modifies root
    ensures root.Value() == Element("MXF", [], head + [Element("Channels", [], Map(ChannelElement, channels))])
  {
    OpenLast(head, "Channels");
    var channelsElem := root.SubElement([], "Channels", []);
    assert Map(ChannelElement, channels[..0]) == [];
    var k := 0;
    while k < |channels|
      invariant k <= |channels| && channelsElem == [|head|]
      invariant root.Value() == Element("MXF", [], head + [Element("Channels", [], Map(ChannelElement, channels[..k]))])
    {
      assert channels[..k + 1] == channels[..k] + [channels[k]];
      MapSnoc(ChannelElement, channels[..k], channels[k]);
      GrowLast(head, "Channels", Map(ChannelElement, channels[..k]), ChannelElement(channels[k]));
      AddChannel(root, channelsElem, channels[k]);
      k := k + 1;
    }
    assert channels[..k] == channels;
  }

  /** The Programs section, one Program per schedule item. */
  method AddPrograms(root: XmlElement, ghost head: seq<Node>, schedule: seq<Value>)
    requires root.Value() == Element("MXF", [], head)
    requires forall item :: item in schedule ==> ItemShaped(item)
    modifies root
    ensures root.Value() == Element("MXF", [], head + [Element("Programs", [], Map(ProgramElement, schedule))])
  {
    OpenLast(head, "Programs");
    var programsElem := root.SubElement([], "Programs", []);
    assert Map(ProgramElement, schedule[..0]) == [];
    var k := 0;
    while k < |schedule|
      invariant k <= |schedule| && programsElem == [|head|]
      invariant root.Value() == Element("MXF", [], head + [Element("Programs", [], Map(ProgramElement, schedule[..k]))])
    {
      assert schedule[..k + 1] == schedule[..k] + [schedule[k]];
      MapSnoc(ProgramElement, schedule[..k], schedule[k]);
      GrowLast(head, "Programs", Map(ProgramElement, schedule[..k]), ProgramElement(schedule[k]));
      AddProgram(root, programsElem, schedule[k]);
      k := k + 1;
    }
    assert schedule[..k] == schedule;
  }

  /** The ScheduleEntries section, one ScheduleEntry per schedule item. */
  method AddEntries(root: XmlElement, ghost head: seq<Node>, schedule: seq<Value>)
    requires root.Value() == Element("MXF", [], head)
    requires forall item :: item in schedule ==> ItemShaped(item)
    modifies root
    ensures root.Value() == Element("MXF", [], head + [Element("ScheduleEntries", [], Map(EntryElement, schedule))])
  {
    OpenLast(head, "ScheduleEntries");
    var scheduleElem := root.SubElement([], "ScheduleEntries", []);
    assert Map(EntryElement, schedule[..0]) == [];
    var k := 0;
    while k < |schedule|
      invariant k <= |schedule| && scheduleElem == [|head|]
      invariant root.Value()
                == Element("MXF", [], head + [Element("ScheduleEntries", [], Map(EntryElement, schedule[..k]))])
    {
      assert schedule[..k + 1] == schedule[..k] + [schedule[k]];
      MapSnoc(EntryElement, schedule[..k], schedule[k]);
      GrowLast(head, "ScheduleEntries", Map(EntryElement, schedule[..k]), EntryElement(schedule[k]));
      AddEntry(root, scheduleElem, schedule[k]);
      k := k + 1;
    }
    assert schedule[..k] == schedule;
  }

  /** The Lineups element with its one Lineup and the Lineup's four texts. */
  method AddLineups(root: XmlElement, lineup: Value)
    requires LineupShaped(lineup)
    modifies root
    ensures root.Value() == ExtendAt(old(root.Value()), [], [LineupsElement(lineup)])
  {
    ghost var v0 := root.Value();
    var lineupElem := root.SubElement([], "Lineups", []);
    ghost var v1 := root.Value();
    var attrs := [("id", "1"), ("uid", Get(lineup, "lineupId", JNull).s)];
    var lineupNode := root.SubElement(lineupElem, "Lineup", attrs);
    var name := TextValue(Get(lineup, "lineupName", JNull));
    var timezone := TextValue(Get(lineup, "timezone", JNull));
    var utcOffset := Some(Str(Get(lineup, "utcOffset", JNull)));
    var observesDst := Some(Lower(Str(Get(lineup, "observesDst", JNull))));
    ghost var nodes: seq<Node> := [];
    assert root.Value() == ExtendAt(v1, lineupElem, [Element("Lineup", attrs, nodes)]);
    AddTextTo(root, lineupNode, "Name", name, v1, lineupElem, "Lineup", attrs, nodes);
    nodes := nodes + [TextElement("Name", name)];
    AddTextTo(root, lineupNode, "TimeZone", timezone, v1, lineupElem, "Lineup", attrs, nodes);
    nodes := nodes + [TextElement("TimeZone", timezone)];
    AddTextTo(root, lineupNode, "UTCOffset", utcOffset, v1, lineupElem, "Lineup", attrs, nodes);
    nodes := nodes + [TextElement("UTCOffset", utcOffset)];
    AddTextTo(root, lineupNode, "ObservesDaylightSaving", observesDst, v1, lineupElem, "Lineup", attrs, nodes);
    nodes := nodes + [TextElement("ObservesDaylightSaving", observesDst)];
    Appended4(TextElement("Name", name), TextElement("TimeZone", timezone),
              TextElement("UTCOffset", utcOffset), TextElement("ObservesDaylightSaving", observesDst));
    assert nodes == LineupChildren(lineup);
    AppendToSection(v0, [], "Lineups", [], [], Element("Lineup", attrs, nodes));
    assert [] + [Element("Lineup", attrs, nodes)] == [Element("Lineup", attrs, nodes)];
  }

  /** One Channel with its eight texts, under `channelsElem`. */
  method AddChannel(root: XmlElement, channelsElem: seq<nat>, ch: Value)
    requires PathOk(root.Value(), channelsElem) && ChannelShaped(ch)
    modifies root
    ensures root.Value() == ExtendAt(old(root.Value()), channelsElem, [ChannelElement(ch)])
  {
    ghost var v0 := root.Value();
    var attrs := [("id", Str(Get(ch, "channelId", JNull)))];
    var chElem := root.SubElement(channelsElem, "Channel", attrs);
    var callSign := TextValue(Get(ch, "callSign", JNull));
    var network := TextValue(Get(ch, "network", JNull));
    var description := TextValue(Get(ch, "description", JNull));
    var hd := Some(Lower(Str(Get(ch, "hdCapable", JNull))));
    var logo := TextValue(Get(ch, "logo", JNull));
    var major := Some(Str(Get(ch, "majorChannel", JNull)));
    var minor := Some(Str(Get(ch, "minorChannel", JNull)));
    var lineupRef := Some("1");
    ghost var nodes: seq<Node> := [];
    AddTextTo(root, chElem, "CallSign", callSign, v0, channelsElem, "Channel", attrs, nodes);
    nodes := nodes + [TextElement("CallSign", callSign)];
    AddTextTo(root, chElem, "Name", network, v0, channelsElem, "Channel", attrs, nodes);
    nodes := nodes + [TextElement("Name", network)];
    AddTextTo(root, chElem, "Description", description, v0, channelsElem, "Channel", attrs, nodes);
    nodes := nodes + [TextElement("Description", description)];
    AddTextTo(root, chElem, "HD", hd, v0, channelsElem, "Channel", attrs, nodes);
    nodes := nodes + [TextElement("HD", hd)];
    AddTextTo(root, chElem, "Logo", logo, v0, channelsElem, "Channel", attrs, nodes);
    nodes := nodes + [TextElement("Logo", logo)];
    AddTextTo(root, chElem, "MajorChannel", major, v0, channelsElem, "Channel", attrs, nodes);
    nodes := nodes + [TextElement("MajorChannel", major)];
    AddTextTo(root, chElem, "MinorChannel", minor, v0, channelsElem, "Channel", attrs, nodes);
    nodes := nodes + [TextElement("MinorChannel", minor)];
    AddTextTo(root, chElem, "Lineup", lineupRef, v0, channelsElem, "Channel", attrs, nodes);
    nodes := nodes + [TextElement("Lineup", lineupRef)];
    Appended8(TextElement("CallSign", callSign), TextElement("Name", network),
              TextElement("Description", description), TextElement("HD", hd), TextElement("Logo", logo),
              TextElement("MajorChannel", major), TextElement("MinorChannel", minor),
              TextElement("Lineup", lineupRef));
    assert nodes == ChannelChildren(ch);
  }

  /** One Program with its eight texts, under `programsElem`. */
  method AddProgram(root: XmlElement, programsElem: seq<nat>, prog: Value)
    requires PathOk(root.Value(), programsElem) && ItemShaped(prog)
    modifies root
    ensures root.Value() == ExtendAt(old(root.Value()), programsElem, [ProgramElement(prog)])
  {
    ghost var v0 := root.Value();
    var attrs := [("id", Str(Get(prog, "eventId", JNull)))];
    var progElem := root.SubElement(programsElem, "Program", attrs);
    var title := TextValue(Get(prog, "title", JNull));
    var description := TextValue(Get(prog, "description", JNull));
    var startTime := TextValue(Get(prog, "startTime", JNull));
    var endTime := TextValue(Get(prog, "endTime", JNull));
    var programType := TextValue(Get(prog, "programType", JNull));
    var rating := TextValue(Get(prog, "tvRating", JStr("")));
    var showCard := TextValue(Get(prog, "showCard", JStr("")));
    var channel := Some(Str(Get(prog, "channelId", JNull)));
    ghost var nodes: seq<Node> := [];
    AddTextTo(root, progElem, "Title", title, v0, programsElem, "Program", attrs, nodes);
    nodes := nodes + [TextElement("Title", title)];
    AddTextTo(root, progElem, "Description", description, v0, programsElem, "Program", attrs, nodes);
    nodes := nodes + [TextElement("Description", description)];
    AddTextTo(root, progElem, "StartTime", startTime, v0, programsElem, "Program", attrs, nodes);
    nodes := nodes + [TextElement("StartTime", startTime)];
    AddTextTo(root, progElem, "EndTime", endTime, v0, programsElem, "Program", attrs, nodes);
    nodes := nodes + [TextElement("EndTime", endTime)];
    AddTextTo(root, progElem, "ProgramType", programType, v0, programsElem, "Program", attrs, nodes);
    nodes := nodes + [TextElement("ProgramType", programType)];
    AddTextTo(root, progElem, "TVRating", rating, v0, programsElem, "Program", attrs, nodes);
    nodes := nodes + [TextElement("TVRating", rating)];
    AddTextTo(root, progElem, "ShowCard", showCard, v0, programsElem, "Program", attrs, nodes);
    nodes := nodes + [TextElement("ShowCard", showCard)];
    AddTextTo(root, progElem, "Channel", channel, v0, programsElem, "Program", attrs, nodes);
    nodes := nodes + [TextElement("Channel", channel)];
    Appended8(TextElement("Title", title), TextElement("Description", description),
              TextElement("StartTime", startTime), TextElement("EndTime", endTime),
              TextElement("ProgramType", programType), TextElement("TVRating", rating),
              TextElement("ShowCard", showCard), TextElement("Channel", channel));
    assert nodes == ProgramChildren(prog);
  }

  /** One ScheduleEntry with its four texts, under `scheduleElem`. */
  method AddEntry(root: XmlElement, scheduleElem: seq<nat>, prog: Value)
    requires PathOk(root.Value(), scheduleElem) && ItemShaped(prog)
    modifies root
    ensures root.Value() == ExtendAt(old(root.Value()), scheduleElem, [EntryElement(prog)])
  {
    ghost var v0 := root.Value();
    var entry := root.SubElement(scheduleElem, "ScheduleEntry", []);
    var channel := Some(Str(Get(prog, "channelId", JNull)));
    var program := Some(Str(Get(prog, "eventId", JNull)));
    var startTime := TextValue(Get(prog, "startTime", JNull));
    var endTime := TextValue(Get(prog, "endTime", JNull));
    ghost var nodes: seq<Node> := [];
    AddTextTo(root, entry, "Channel", channel, v0, scheduleElem, "ScheduleEntry", [], nodes);
    nodes := nodes + [TextElement("Channel", channel)];
    AddTextTo(root, entry, "Program", program, v0, scheduleElem, "ScheduleEntry", [], nodes);
    nodes := nodes + [TextElement("Program", program)];
    AddTextTo(root, entry, "StartTime", startTime, v0, scheduleElem, "ScheduleEntry", [], nodes);
    nodes := nodes + [TextElement("StartTime", startTime)];
    AddTextTo(root, entry, "EndTime", endTime, v0, scheduleElem, "ScheduleEntry", [], nodes);
    nodes := nodes + [TextElement("EndTime", endTime)];
    Appended4(TextElement("Channel", channel), TextElement("Program", program),
              TextElement("StartTime", startTime), TextElement("EndTime", endTime));
    assert nodes == EntryChildren(prog);
  }

  // ----- What the document promises -----

  /** The root holds the four sections in order; Channels has one child per
      channel record, Programs and ScheduleEntries one per schedule item. */
  lemma MxfSections(data: Value)
    ensures var t := MxfTree(data);
      && Tags(t.children) == ["Lineups", "Channels", "Programs", "ScheduleEntries"]
      && |t.children[1].children| == |ChannelsOf(data)|
      && |t.children[2].children| == |ScheduleOf(data)|
      && |t.children[3].children| == |ScheduleOf(data)|
  {
  }

  /** Lineups holds one Lineup, `id="1"` and `uid` the lineup id, whose
      children are Name, TimeZone, UTCOffset and ObservesDaylightSaving. */
  lemma LineupLayout(data: Value)
    requires Field(Field(data, "lineup"), "lineupId").JStr?
    ensures var ls := MxfTree(data).children[0];
      && ls.tag == "Lineups" && |ls.children| == 1 && ls.children[0].Element?
      && ls.children[0].tag == "Lineup"
      && Attr(ls.children[0], "id") == Some("1")
      && Attr(ls.children[0], "uid") == Some(Field(Field(data, "lineup"), "lineupId").s)
      && Tags(ls.children[0].children) == ["Name", "TimeZone", "UTCOffset", "ObservesDaylightSaving"]
  {
    var l := MxfTree(data).children[0].children[0];
    assert l.attrs[1].0 == "uid" && "id"[0] != "uid"[0];
  }

  /** A boolean `observesDst` is written `true` or `false`. */
  lemma DaylightText(data: Value, b: bool)
    requires Field(Field(data, "lineup"), "observesDst") == JBool(b)
    ensures TextOf(MxfTree(data).children[0].children[0].children[3]) == Some(if b then "true" else "false")
  {
    LowerBool(b);
  }

  /** Channel `i` stands for the `i`-th channel record: its `id` is
      `str(channelId)`, its children come in the order written, and its Lineup
      text is the Lineup's `id`. */
  lemma ChannelLayout(data: Value, i: nat)
    requires i < |ChannelsOf(data)|
    ensures MxfTree(data).children[1].children[i] == ChannelElement(ChannelsOf(data)[i])
    ensures var t := MxfTree(data); var c := t.children[1].children[i];
      && c.tag == "Channel"
      && Attr(c, "id") == Some(Str(Field(ChannelsOf(data)[i], "channelId")))
      && Tags(c.children) == ["CallSign", "Name", "Description", "HD", "Logo", "MajorChannel", "MinorChannel", "Lineup"]
      && TextOf(c.children[0]) == TextValue(Field(ChannelsOf(data)[i], "callSign"))
      && TextOf(c.children[1]) == TextValue(Field(ChannelsOf(data)[i], "network"))
      && TextOf(c.children[7]) == Some("1")
      && TextOf(c.children[7]) == Attr(t.children[0].children[0], "id")
  {
    MapAt(ChannelElement, ChannelsOf(data), i);
  }

  /** A boolean `hdCapable` is written `true` or `false`. */
  lemma HdText(data: Value, i: nat, b: bool)
    requires i < |ChannelsOf(data)| && Field(ChannelsOf(data)[i], "hdCapable") == JBool(b)
    ensures MxfTree(data).children[1].children[i] == ChannelElement(ChannelsOf(data)[i])
    ensures TextOf(MxfTree(data).children[1].children[i].children[3]) == Some(if b then "true" else "false")
  {
    MapAt(ChannelElement, ChannelsOf(data), i);
    LowerBool(b);
  }

  /** ScheduleEntry `i` points at Program `i`: its Program text is the
      Program's `id`, and its Channel, StartTime and EndTime agree with the
      Program's. */
  lemma EntryMatchesProgram(data: Value, i: nat)
    requires i < |ScheduleOf(data)|
    ensures MxfTree(data).children[2].children[i] == ProgramElement(ScheduleOf(data)[i])
    ensures MxfTree(data).children[3].children[i] == EntryElement(ScheduleOf(data)[i])
    ensures var t := MxfTree(data); var p := t.children[2].children[i]; var e := t.children[3].children[i];
      && p.tag == "Program" && e.tag == "ScheduleEntry"
      && Tags(p.children)
         == ["Title", "Description", "StartTime", "EndTime", "ProgramType", "TVRating", "ShowCard", "Channel"]
      && Tags(e.children) == ["Channel", "Program", "StartTime", "EndTime"]
      && TextOf(e.children[1]) == Attr(p, "id")
      && TextOf(e.children[0]) == TextOf(p.children[7])
      && e.children[2] == p.children[2] && e.children[3] == p.children[3]
      && TextOf(e.children[2]) == TextValue(Field(ScheduleOf(data)[i], "startTime"))
      && TextOf(e.children[3]) == TextValue(Field(ScheduleOf(data)[i], "endTime"))
  {
    MapAt(ProgramElement, ScheduleOf(data), i);
    MapAt(EntryElement, ScheduleOf(data), i);
    ItemMatches(ScheduleOf(data)[i]);
  }

  /** The Program and the ScheduleEntry of one schedule item agree. */
  lemma ItemMatches(item: Value)
    ensures var p, e := ProgramElement(item), EntryElement(item);
      && p.tag == "Program" && e.tag == "ScheduleEntry"
      && Tags(p.children)
         == ["Title", "Description", "StartTime", "EndTime", "ProgramType", "TVRating", "ShowCard", "Channel"]
      && Tags(e.children) == ["Channel", "Program", "StartTime", "EndTime"]
      && TextOf(e.children[1]) == Attr(p, "id")
      && TextOf(e.children[0]) == TextOf(p.children[7])
      && e.children[2] == p.children[2] && e.children[3] == p.children[3]
      && TextOf(e.children[2]) == TextValue(Field(item, "startTime"))
      && TextOf(e.children[3]) == TextValue(Field(item, "endTime"))
  {
    ProgramTags(item);
    EntryTags(item);
  }

  lemma ProgramTags(item: Value)
    ensures Tags(ProgramChildren(item))
            == ["Title", "Description", "StartTime", "EndTime", "ProgramType", "TVRating", "ShowCard", "Channel"]
  {
    ProgramTagList(TextValue(Field(item, "title")), TextValue(Field(item, "description")),
                   TextValue(Field(item, "startTime")), TextValue(Field(item, "endTime")),
                   TextValue(Field(item, "programType")), TextValue(Get(item, "tvRating", JStr(""))),
                   TextValue(Get(item, "showCard", JStr(""))), Some(Str(Field(item, "channelId"))));
  }

  lemma ProgramTagList(title: Option<string>, description: Option<string>, startTime: Option<string>,
                       endTime: Option<string>, programType: Option<string>, rating: Option<string>,
                       showCard: Option<string>, channel: Option<string>)
    ensures Tags([TextElement("Title", title), TextElement("Description", description),
                  TextElement("StartTime", startTime), TextElement("EndTime", endTime),
                  TextElement("ProgramType", programType), TextElement("TVRating", rating),
                  TextElement("ShowCard", showCard), TextElement("Channel", channel)])
            == ["Title", "Description", "StartTime", "EndTime", "ProgramType", "TVRating", "ShowCard", "Channel"]
  {
  }

  lemma EntryTags(item: Value)
    ensures Tags(EntryChildren(item)) == ["Channel", "Program", "StartTime", "EndTime"]
  {
    var cs := EntryChildren(item);
    assert Tags(cs)[0] == "Channel" && Tags(cs)[1] == "Program";
    assert Tags(cs)[2] == "StartTime" && Tags(cs)[3] == "EndTime";
  }

  /** A schedule item without `tvRating` or `showCard` gets an empty text. */
  lemma RatingDefaults(data: Value, i: nat)
    requires i < |ScheduleOf(data)| && ScheduleOf(data)[i].JObj?
    ensures MxfTree(data).children[2].children[i] == ProgramElement(ScheduleOf(data)[i])
    ensures var p := MxfTree(data).children[2].children[i];
      && (!Has(ScheduleOf(data)[i], "tvRating") ==> TextOf(p.children[5]) == Some(""))
      && (!Has(ScheduleOf(data)[i], "showCard") ==> TextOf(p.children[6]) == Some(""))
  {
    MapAt(ProgramElement, ScheduleOf(data), i);
  }
}
