/**
  processing.py: the listing extractor and the lxml builders of the MXF guide
  document. Each `add_*_section` helper appends one section element to the
  element it is handed and fills it; here the element handed over is the
  `XmlElement` `w` together with the path `at` to it, and each builder is
  proved to append exactly its section value.
 */
module Processing {
  import opened Wrappers
  import opened Json
  import opened Seqs
  import opened Schedule
  import opened Xml

  // ----- safe_str (processing.py:4-6) -----

  /** `str(value)`, but nothing at all for None. */
  function SafeStr(v: Value): string {
    if v.JNull? then "" else Str(v)
  }

  /** The text "None" comes only from the string "None": a missing value never
      turns into it. */
  lemma SafeStrNone(v: Value)
    ensures SafeStr(v) == "None" <==> v == JStr("None")
  {
    StrIsNone(v);
  }

  /** The only values rendered as nothing are None and the empty string. */
  lemma SafeStrEmpty(v: Value)
    ensures SafeStr(v) == "" <==> v == JNull || v == JStr("")
  {
    StrIsEmpty(v);
  }

  /** A truthy value renders as a non-empty text. */
  lemma SafeStrTruthy(v: Value)
    requires Truthy(v)
    ensures SafeStr(v) == Str(v) && SafeStr(v) != ""
  {
    SafeStrEmpty(v);
  }

  // ----- extract_listings (processing.py:8-41) -----

  /** One listing dict, with the values copied from the event and its channel. */
  datatype Listing = Listing(
    title: Value, episodeTitle: Value, startTime: Value, endTime: Value,
    duration: Value, channelIndex: Value, description: Value,
    displayGenre: Value, showCard: Value)

  function ListingOf(o: Occurrence): Listing {
    var ev := o.event;
    Listing(
      Get(ev, "title", NA), Get(ev, "episodeTitle", NA), Get(ev, "startTime", NA),
      Get(ev, "endTime", NA), Get(ev, "duration", NA), Get(o.channel, "channelIndex", NA),
      Get(ev, "description", NA), Get(ev, "displayGenre", NA), Get(ev, "showCard", JStr("")))
  }

  /** The listings of a schedule document: one per event, in channel, day,
      event order; none for a falsy document or one without "channels". */
  function Listings(doc: Value): seq<Listing> {
    Map(ListingOf, Occurrences(doc))
  }

  /** A listing for every listed event and nothing else; its channel index is
      the one of the channel the event is listed under. */
  lemma ListingsListed(doc: Value, l: Listing)
    ensures l in Listings(doc) <==> exists o :: Listed(doc, o) && l == ListingOf(o)
  {
    MapHas(ListingOf, Occurrences(doc), l);
    forall o {
      OccurrencesListed(doc, o);
    }
  }

  /** Missing event fields read "N/A", a missing show card reads "", and a
      channel without an index gives "N/A". */
  lemma ListingDefaults(o: Occurrence)
    requires o.event.JObj? && o.channel.JObj?
    ensures !Has(o.event, "title") ==> ListingOf(o).title == NA
    ensures !Has(o.event, "episodeTitle") ==> ListingOf(o).episodeTitle == NA
    ensures !Has(o.event, "startTime") ==> ListingOf(o).startTime == NA
    ensures !Has(o.event, "endTime") ==> ListingOf(o).endTime == NA
    ensures !Has(o.event, "duration") ==> ListingOf(o).duration == NA
    ensures !Has(o.channel, "channelIndex") ==> ListingOf(o).channelIndex == NA
    ensures !Has(o.event, "description") ==> ListingOf(o).description == NA
    ensures !Has(o.event, "displayGenre") ==> ListingOf(o).displayGenre == NA
    ensures !Has(o.event, "showCard") ==> ListingOf(o).showCard == JStr("")
  {
  }

  /** The list `d[key]` that a loop guarded by `if key in d` walks: the same
      as walking `d.get(key, [])`. */
  function Guarded(d: Value, key: string): (r: seq<Value>)
    ensures r == Items(Get(d, key, JArr([])))
  {
    if Has(d, key) then
      GetPresent(d, key, JNull, JArr([]));
      Items(Get(d, key, JNull))
    else []
  }

  /** A dict whose channels the guarded walk can visit without raising: each
      channel either fails its `"days" in channel` test or is a dict holding a
      list of days, and each such day either fails its `"events" in day` test
      or is a dict holding a list of dicts. */
  predicate ListingWalkable(doc: Value) {
    && doc.JObj?
    && (Has(doc, "channels") ==> Get(doc, "channels", JNull).JArr?)
    && forall c :: c in ChannelsOf(doc) ==>
         || Lacks(c, "days")
         || (&& c.JObj? && Get(c, "days", JNull).JArr?
             && forall d :: d in DaysOf(c) ==> Lacks(d, "events") || (d.JObj? && ObjectList(Get(d, "events", JNull))))
  }

  /** What `extract_listings` accepts without raising. */
  predicate ListingShaped(doc: Value) {
    TurnedAway(doc) || ListingWalkable(doc)
  }

  /** The guarded walk accepts every document the `.get` walk of the other
      extractors does. */
  lemma ListingShapedWider(doc: Value)
    ensures ScheduleShaped(doc) ==> ListingShaped(doc)
  {
  }

  /** It also accepts channels that lack "days" and are lists or strings, which
      the `.get` walk would call `.get` on. */
  lemma SkippedChannels()
    ensures ListingShaped(JObj([("channels", JArr([JArr([]), JStr("x")]))]))
    ensures !ScheduleShaped(JObj([("channels", JArr([JArr([]), JStr("x")]))]))
  {
    var odd := JObj([("channels", JArr([JArr([]), JStr("x")]))]);
    assert ChannelsOf(odd) == [JArr([]), JStr("x")];
    assert !Substring("days", "x");
    assert JArr([]) in ChannelsOf(odd);
  }

  method ExtractListings(doc: Value) returns (listings: seq<Listing>)
    requires ListingShaped(doc)
    ensures listings == Listings(doc)
  {
    if !Truthy(doc) || !Has(doc, "channels") {
      return [];
    }
    var channels := Guarded(doc, "channels");
    listings := WalkChannels(ListingOf, channels);
  }

  // ----- add_services_section (processing.py:43-54) -----

  /** A channel gets a Service when both its call sign and its index are
      truthy; an index of 0 does not qualify. */
  predicate IsService(channel: Value) {
    Truthy(Get(channel, "callSign", JNull)) && Truthy(Get(channel, "channelIndex", JNull))
  }

  /** The id of the Service for a channel index; a lineup Channel refers to
      its Service by the same text. */
  function ServiceId(index: Value): string {
    "s" + SafeStr(index)
  }

  function ServiceNode(channel: Value): Node {
    var callSign := SafeStr(Get(channel, "callSign", JNull));
    var network := SafeStr(Get(channel, "network", JStr("")));
    Element("Service", [
      ("id", ServiceId(Get(channel, "channelIndex", JNull))),
      ("uid", "!Service!" + callSign),
      ("name", network),
      ("callSign", callSign),
      ("affiliate", "!Affiliate!" + network)], [])
  }

  /** The Services section: a Service per qualifying channel, in input order. */
  function ServicesSection(channels: seq<Value>): Node {
    Element("Services", [], Map(ServiceNode, Filter(IsService, channels)))
  }

  method AddServicesSection(w: XmlElement, at: seq<nat>, channels: seq<Value>)
    requires PathOk(w.Value(), at)
    requires forall ch :: ch in channels ==> ch.JObj?
    modifies w
    ensures w.Value() == ExtendAt(old(w.Value()), at, [ServicesSection(channels)])
  {
    ghost var v0 := w.Value();
    var services := w.SubElement(at, "Services", []);
    NoServices(channels);
    var k := 0;
    while k < |channels|
      invariant k <= |channels|
      invariant services == at + [|At(v0, at).children|]
      invariant w.Value() == ExtendAt(v0, at, [ServicesSection(channels[..k])])
    {
      AddService(w, services, channels, k, v0, at);
      k := k + 1;
    }
    assert channels[..k] == channels;
  }

  lemma NoServices(channels: seq<Value>)
    ensures Element("Services", [], []) == ServicesSection(channels[..0])
  {
    assert channels[..0] == [];
    assert Filter(IsService, []) == [];
  }

  /** One pass of the loop of `add_services_section`: a Service for the
      `k`-th channel when it qualifies. */
  method AddService(w: XmlElement, services: seq<nat>, channels: seq<Value>, k: nat,
                    ghost v0: Node, ghost at: seq<nat>)
    requires PathOk(v0, at) && k < |channels|
    requires services == at + [|At(v0, at).children|]
    requires w.Value() == ExtendAt(v0, at, [ServicesSection(channels[..k])])
    modifies w
    ensures w.Value() == ExtendAt(v0, at, [ServicesSection(channels[..k + 1])])
  {
    var channel := channels[k];
    FilterStep(IsService, channels, k);
    var kept := Filter(IsService, channels[..k]);
    if Truthy(Get(channel, "callSign", JNull)) && Truthy(Get(channel, "channelIndex", JNull)) {
      AppendToSection(v0, at, "Services", [], Map(ServiceNode, kept), ServiceNode(channel));
      MapSnoc(ServiceNode, kept, channel);
      var callSign := SafeStr(Get(channel, "callSign", JNull));
      var network := SafeStr(Get(channel, "network", JStr("")));
      var service := w.SubElement(services, "Service", [
        ("id", "s" + SafeStr(Get(channel, "channelIndex", JNull))),
        ("uid", "!Service!" + callSign),
        ("name", network),
        ("callSign", callSign),
        ("affiliate", "!Affiliate!" + network)]);
    } else {
      assert kept + [] == kept;
    }
  }

  /** The Services section holds a Service for exactly the qualifying
      channels. */
  lemma ServicesListed(channels: seq<Value>, n: Node)
    ensures n in ServicesSection(channels).children <==>
      exists ch :: ch in channels && IsService(ch) && n == ServiceNode(ch)
  {
    var kept := Filter(IsService, channels);
    MapHas(ServiceNode, kept, n);
    forall ch | ch in kept {
      FilterSound(IsService, channels, ch);
    }
    forall ch | ch in channels && IsService(ch) {
      FilterKeeps(IsService, channels, ch);
    }
  }

  /** A Service's id is "s" followed by the channel index, and its uid is
      "!Service!" followed by the call sign, neither of them empty. */
  lemma ServiceIds(channel: Value)
    requires IsService(channel)
    ensures Attr(ServiceNode(channel), "id") == Some("s" + Str(Get(channel, "channelIndex", JNull)))
    ensures Attr(ServiceNode(channel), "uid") == Some("!Service!" + Str(Get(channel, "callSign", JNull)))
    ensures Str(Get(channel, "channelIndex", JNull)) != "" && Str(Get(channel, "callSign", JNull)) != ""
  {
    var callSign := SafeStr(Get(channel, "callSign", JNull));
    var network := SafeStr(Get(channel, "network", JStr("")));
    ServiceAttrList(ServiceId(Get(channel, "channelIndex", JNull)), "!Service!" + callSign, network, callSign,
                    "!Affiliate!" + network);
    SafeStrTruthy(Get(channel, "channelIndex", JNull));
    SafeStrTruthy(Get(channel, "callSign", JNull));
  }

  lemma ServiceAttrList(id: string, uid: string, name: string, callSign: string, affiliate: string)
    ensures var attrs := [("id", id), ("uid", uid), ("name", name), ("callSign", callSign), ("affiliate", affiliate)];
      AttrIn(attrs, "id") == Some(id) && AttrIn(attrs, "uid") == Some(uid)
  {
    var attrs := [("id", id), ("uid", uid), ("name", name), ("callSign", callSign), ("affiliate", affiliate)];
    assert "id"[0] != "uid"[0];
    AttrAt(attrs, "uid", 1);
  }

  // ----- add_schedule_entries_section (processing.py:56-79) -----

  /** The group an entry belongs to: its service, when that is truthy. */
  function ServiceOf(entry: Value): Option<string> {
    var v := Get(entry, "service", JNull);
    if Truthy(v) && v.JStr? then Some(v.s) else None
  }

  /** An entry with a truthy program and start time gets a ScheduleEntry. */
  predicate Emits(entry: Value) {
    Truthy(Get(entry, "program", JNull)) && Truthy(Get(entry, "startTime", JNull))
  }

  function EntryNode(entry: Value): Node {
    Element("ScheduleEntry", [
      ("program", SafeStr(Get(entry, "program", JNull))),
      ("startTime", SafeStr(Get(entry, "startTime", JNull))),
      ("duration", SafeStr(Get(entry, "duration", JNull))),
      ("isCC", SafeStr(Get(entry, "isCC", JStr("0")))),
      ("audioFormat", SafeStr(Get(entry, "audioFormat", JStr("2"))))], [])
  }

  /** The services of the entries, each once, in the order first seen. */
  function ServicesSeen(entries: seq<Value>): seq<string> {
    if entries == [] then []
    else NextSeen(ServicesSeen(entries[..|entries| - 1]), entries[|entries| - 1])
  }

  /** The services seen once one more entry is looked at. */
  function NextSeen(seen: seq<string>, entry: Value): seq<string> {
    match ServiceOf(entry)
    case Some(s) => if s in seen then seen else seen + [s]
    case None => seen
  }

  /** The ScheduleEntry nodes of service `s`, in entry order. */
  function Members(entries: seq<Value>, s: string): seq<Node> {
    if entries == [] then []
    else
      var last := entries[|entries| - 1];
      Members(entries[..|entries| - 1], s) + (if ServiceOf(last) == Some(s) && Emits(last) then [EntryNode(last)] else [])
  }

  function GroupNode(s: string, members: seq<Node>): Node {
    Element("ScheduleEntries", [("service", s)], members)
  }

  /** One ScheduleEntries group per service, in first-seen order, each holding
      the entries of its service. */
  function ScheduleGroups(entries: seq<Value>): seq<Node> {
    var seen := ServicesSeen(entries);
    seq(|seen|, j requires 0 <= j < |seen| => GroupNode(seen[j], Members(entries, seen[j])))
  }

  /** `processed_data["schedule_entries"]`. */
  function EntriesOf(processedData: Value): seq<Value> {
    Items(Get(processedData, "schedule_entries", JNull))
  }

  /** What the builder runs on: a list of dicts under "schedule_entries", each
      truthy service a string (it becomes an attribute value) and each emitted
      entry with a "duration" to subscript. */
  predicate EntriesInput(processedData: Value) {
    && Has(processedData, "schedule_entries")
    && Get(processedData, "schedule_entries", JNull).JArr?
    && AllShaped(EntriesOf(processedData))
  }

  /** Every entry of the list can be filed without raising. */
  predicate AllShaped(entries: seq<Value>) {
    entries == [] || (AllShaped(entries[..|entries| - 1]) && EntryShaped(entries[|entries| - 1]))
  }

  /** Each entry of a list that can be filed can be filed on its own. */
  lemma {:induction false} ShapedAt(entries: seq<Value>, k: nat)
    requires AllShaped(entries) && k < |entries|
    ensures EntryShaped(entries[k])
  {
    if k < |entries| - 1 {
      ShapedAt(entries[..|entries| - 1], k);
    }
  }

  /** An entry the loop can file without raising: a dict whose service, when
      set, is a string, and which has a duration when it is added. */
  predicate EntryShaped(e: Value) {
    && e.JObj?
    && (Truthy(Get(e, "service", JNull)) ==> Get(e, "service", JNull).JStr?)
    && (Truthy(Get(e, "service", JNull)) && Emits(e) ==> Has(e, "duration"))
  }

  lemma MembersSnoc(es: seq<Value>, e: Value, s: string)
    ensures Members(es + [e], s)
            == Members(es, s) + (if ServiceOf(e) == Some(s) && Emits(e) then [EntryNode(e)] else [])
  {
    assert (es + [e])[..|es|] == es;
  }

  /** An entry without a service changes nothing. */
  lemma GroupsSkip(es: seq<Value>, e: Value)
    requires ServiceOf(e).None?
    ensures ServicesSeen(es + [e]) == ServicesSeen(es)
    ensures ScheduleGroups(es + [e]) == ScheduleGroups(es)
  {
    assert (es + [e])[..|es|] == es;
    var seen := ServicesSeen(es);
    forall j | 0 <= j < |seen|
      ensures ScheduleGroups(es + [e])[j] == ScheduleGroups(es)[j]
    {
      MembersSnoc(es, e, seen[j]);
      assert Members(es, seen[j]) + [] == Members(es, seen[j]);
    }
  }

  /** A service not seen yet has no members. */
  lemma {:induction false} MembersUnseen(es: seq<Value>, s: string)
    requires s !in ServicesSeen(es)
    ensures Members(es, s) == []
  {
    if es != [] {
      var init := es[..|es| - 1];
      assert es == init + [es[|es| - 1]];
      MembersUnseen(init, s);
      MembersSnoc(init, es[|es| - 1], s);
    }
  }

  /** An entry of a new service opens a group for it at the end. */
  lemma GroupsNew(es: seq<Value>, e: Value, s: string)
    requires ServiceOf(e) == Some(s) && s !in ServicesSeen(es)
    ensures ServicesSeen(es + [e]) == ServicesSeen(es) + [s]
    ensures Members(es, s) == []
    ensures var grown := ScheduleGroups(es) + [GroupNode(s, [])];
      ScheduleGroups(es + [e])
      == if Emits(e) then grown[|ScheduleGroups(es)| := GroupNode(s, [EntryNode(e)])] else grown
  {
    SeenNew(es, e, s);
    GroupsKept(es, e, s);
    MembersUnseen(es, s);
    LastGroup(es, e, s);
    var gs, gs2 := ScheduleGroups(es), ScheduleGroups(es + [e]);
    var last := GroupNode(s, if Emits(e) then [EntryNode(e)] else []);
    assert |gs2| == |gs| + 1 && gs2[|gs|] == last;
    assert gs2 == gs + [last];
  }

  lemma SeenNew(es: seq<Value>, e: Value, s: string)
    requires ServiceOf(e) == Some(s) && s !in ServicesSeen(es)
    ensures ServicesSeen(es + [e]) == ServicesSeen(es) + [s]
  {
    assert (es + [e])[..|es|] == es;
  }

  /** The groups opened before a new service's keep their members. */
  lemma GroupsKept(es: seq<Value>, e: Value, s: string)
    requires ServiceOf(e) == Some(s) && s !in ServicesSeen(es)
    requires ServicesSeen(es + [e]) == ServicesSeen(es) + [s]
    ensures forall j :: 0 <= j < |ServicesSeen(es)| ==> ScheduleGroups(es + [e])[j] == ScheduleGroups(es)[j]
  {
    var seen := ServicesSeen(es);
    forall j | 0 <= j < |seen|
      ensures ScheduleGroups(es + [e])[j] == ScheduleGroups(es)[j]
    {
      assert seen[j] != s;
      MembersOther(es, e, seen[j]);
    }
  }

  /** The group a new service opens holds its entry if that is added. */
  lemma LastGroup(es: seq<Value>, e: Value, s: string)
    requires ServiceOf(e) == Some(s) && Members(es, s) == []
    ensures Members(es + [e], s) == if Emits(e) then [EntryNode(e)] else []
  {
    MembersSnoc(es, e, s);
  }

  /** No service is seen twice. */
  lemma {:induction false} SeenDistinct(es: seq<Value>)
    ensures Distinct(ServicesSeen(es))
  {
    if es != [] {
      SeenDistinct(es[..|es| - 1]);
    }
  }

  /** A group other than the entry's, or any group for an entry that is not
      added, keeps its members. */
  lemma MembersOther(es: seq<Value>, e: Value, t: string)
    requires ServiceOf(e) != Some(t) || !Emits(e)
    ensures Members(es + [e], t) == Members(es, t)
  {
    MembersSnoc(es, e, t);
    assert Members(es, t) + [] == Members(es, t);
  }

  /** An entry of a service already seen adds no service. */
  lemma SeenOld(es: seq<Value>, e: Value, j: nat)
    requires j < |ServicesSeen(es)| && ServiceOf(e) == Some(ServicesSeen(es)[j])
    ensures ServicesSeen(es + [e]) == ServicesSeen(es)
  {
    assert (es + [e])[..|es|] == es;
  }

  /** An entry of a service already seen lands in that service's group, the
      `j`-th, and leaves the other groups alone. */
  lemma GroupsOld(es: seq<Value>, e: Value, j: nat)
    requires j < |ServicesSeen(es)| && ServiceOf(e) == Some(ServicesSeen(es)[j])
    ensures ServicesSeen(es + [e]) == ServicesSeen(es)
    ensures var s := ServicesSeen(es)[j];
      ScheduleGroups(es + [e])
      == if Emits(e) then ScheduleGroups(es)[j := GroupNode(s, Members(es, s) + [EntryNode(e)])] else ScheduleGroups(es)
  {
    SeenOld(es, e, j);
    var seen := ServicesSeen(es);
    if Emits(e) {
      GroupsOldEmits(es, e, j);
    } else {
      forall i | 0 <= i < |seen|
        ensures ScheduleGroups(es + [e])[i] == ScheduleGroups(es)[i]
      {
        MembersOther(es, e, seen[i]);
      }
    }
  }

  lemma GroupsOldEmits(es: seq<Value>, e: Value, j: nat)
    requires j < |ServicesSeen(es)| && ServiceOf(e) == Some(ServicesSeen(es)[j]) && Emits(e)
    requires ServicesSeen(es + [e]) == ServicesSeen(es)
    ensures var s := ServicesSeen(es)[j];
      ScheduleGroups(es + [e]) == ScheduleGroups(es)[j := GroupNode(s, Members(es, s) + [EntryNode(e)])]
  {
    var seen := ServicesSeen(es);
    var s := seen[j];
    var want := ScheduleGroups(es)[j := GroupNode(s, Members(es, s) + [EntryNode(e)])];
    SeenDistinct(es);
    forall i | 0 <= i < |seen|
      ensures ScheduleGroups(es + [e])[i] == want[i]
    {
      if i != j {
        assert seen[i] != s;
        MembersOther(es, e, seen[i]);
      } else {
        MembersSnoc(es, e, s);
      }
    }
  }

  /** The services seen have no repeats. */
  predicate Distinct(seen: seq<string>) {
    forall a, b :: 0 <= a < b < |seen| ==> seen[a] != seen[b]
  }

  /** Where `s` stands among the services seen. */
  function IndexOf(seen: seq<string>, s: string): (i: nat)
    requires s in seen
    ensures i < |seen| && seen[i] == s
    ensures forall k :: 0 <= k < i ==> seen[k] != s
  {
    if seen[0] == s then 0 else 1 + IndexOf(seen[1..], s)
  }

  /** The groups `gs` are those of `seen`, one each, in that order. */
  predicate GroupsFor(gs: seq<Node>, seen: seq<string>) {
    |gs| == |seen| && forall j :: 0 <= j < |gs| ==> gs[j] == GroupNode(seen[j], Children(gs[j]))
  }

  /** One turn of the loop on the groups opened so far, `gs`, one for each of
      the services `seen`: a new service opens a group at the end, and an entry
      with a program and a start time goes last into its service's group. */
  function NextGroups(gs: seq<Node>, seen: seq<string>, entry: Value): seq<Node>
    requires |gs| == |seen|
  {
    match ServiceOf(entry)
    case None => gs
    case Some(s) =>
      if s in seen then
        var i := IndexOf(seen, s);
        if Emits(entry) then gs[i := GroupNode(s, Children(gs[i]) + [EntryNode(entry)])] else gs
      else gs + [GroupNode(s, if Emits(entry) then [EntryNode(entry)] else [])]
  }

  /** The groups of all the entries are the groups of all but the last, taken
      one turn further. */
  lemma StepGroups(es: seq<Value>, e: Value)
    ensures GroupsFor(ScheduleGroups(es), ServicesSeen(es)) && Distinct(ServicesSeen(es))
    ensures ServicesSeen(es + [e]) == NextSeen(ServicesSeen(es), e)
    ensures ScheduleGroups(es + [e]) == NextGroups(ScheduleGroups(es), ServicesSeen(es), e)
  {
    assert (es + [e])[..|es|] == es;
    SeenDistinct(es);
    var seen := ServicesSeen(es);
    var gs := ScheduleGroups(es);
    match ServiceOf(e)
    case None =>
      GroupsSkip(es, e);
    case Some(s) =>
      if s in seen {
        GroupsOld(es, e, IndexOf(seen, s));
      } else {
        GroupsNew(es, e, s);
        assert (gs + [GroupNode(s, [])])[|gs| := GroupNode(s, [EntryNode(e)])] == gs + [GroupNode(s, [EntryNode(e)])];
      }
  }

  /** The entries that go into the group of `s`. */
  predicate FiledUnder(s: string, entry: Value) {
    ServiceOf(entry) == Some(s) && Emits(entry)
  }

  /** A group holds the ScheduleEntry nodes of exactly the entries of its
      service that have a program and a start time, in entry order. */
  lemma {:induction false} MembersFiltered(es: seq<Value>, s: string)
    ensures Members(es, s) == Map(EntryNode, Filter(e => FiledUnder(s, e), es))
  {
    if es != [] {
      var init, last := es[..|es| - 1], es[|es| - 1];
      assert es == init + [last];
      MembersFiltered(init, s);
      MembersSnoc(init, last, s);
      FilterSnoc(e => FiledUnder(s, e), init, last);
      MapSnoc(EntryNode, Filter(e => FiledUnder(s, e), init), last);
    }
  }

  /** A service gets a group exactly when some entry has it. */
  lemma {:induction false} SeenExact(es: seq<Value>, s: string)
    ensures s in ServicesSeen(es) <==> exists e :: e in es && ServiceOf(e) == Some(s)
  {
    if es != [] {
      var init, last := es[..|es| - 1], es[|es| - 1];
      assert es == init + [last];
      SeenExact(init, s);
      if exists e :: e in es && ServiceOf(e) == Some(s) {
        var e :| e in es && ServiceOf(e) == Some(s);
        if e != last {
          assert e in init;
        }
      }
    }
  }

  /** Later entries only add groups after the ones already opened, so the
      groups stand in the order their services first occur. */
  lemma {:induction false} SeenPrefix(es: seq<Value>, n: nat)
    requires n <= |es|
    ensures ServicesSeen(es[..n]) <= ServicesSeen(es)
    decreases |es| - n
  {
    if n < |es| {
      assert es[..n + 1][..n] == es[..n];
      SeenPrefix(es, n + 1);
    } else {
      assert es[..n] == es;
    }
  }

  /** Every entry with a service, a program and a start time is filed in the
      one group of that service. */
  lemma EntryFiled(es: seq<Value>, e: Value, s: string)
    requires e in es && FiledUnder(s, e)
    ensures exists j :: 0 <= j < |ScheduleGroups(es)| && ScheduleGroups(es)[j].attrs == [("service", s)]
                        && EntryNode(e) in ScheduleGroups(es)[j].children
    ensures forall j :: 0 <= j < |ScheduleGroups(es)| && ScheduleGroups(es)[j].attrs == [("service", s)]
                        ==> ScheduleGroups(es)[j].children == Members(es, s)
  {
    var p := x => FiledUnder(s, x);
    SeenExact(es, s);
    var seen := ServicesSeen(es);
    var j :| 0 <= j < |seen| && seen[j] == s;
    MembersFiltered(es, s);
    FilterKeeps(p, es, e);
    MapHas(EntryNode, Filter(p, es), EntryNode(e));
    assert EntryNode(e) in ScheduleGroups(es)[j].children;
  }

  /** A missing "isCC" or "audioFormat" reads as "0" and "2". */
  lemma EntryDefaults(entry: Value)
    ensures !Has(entry, "isCC") ==> Attr(EntryNode(entry), "isCC") == Some("0")
    ensures !Has(entry, "audioFormat") ==> Attr(EntryNode(entry), "audioFormat") == Some("2")
  {
    EntryAttrList(SafeStr(Get(entry, "program", JNull)), SafeStr(Get(entry, "startTime", JNull)),
                  SafeStr(Get(entry, "duration", JNull)), SafeStr(Get(entry, "isCC", JStr("0"))),
                  SafeStr(Get(entry, "audioFormat", JStr("2"))));
    DefaultRead(entry, "isCC", "0");
    DefaultRead(entry, "audioFormat", "2");
  }

  /** A missing key reads as its string default. */
  lemma DefaultRead(entry: Value, key: string, default: string)
    ensures !Has(entry, key) ==> SafeStr(Get(entry, key, JStr(default))) == default
  {
  }

  lemma EntryAttrList(program: string, startTime: string, duration: string, isCC: string, audioFormat: string)
    ensures var attrs := [("program", program), ("startTime", startTime), ("duration", duration),
                          ("isCC", isCC), ("audioFormat", audioFormat)];
      AttrIn(attrs, "isCC") == Some(isCC) && AttrIn(attrs, "audioFormat") == Some(audioFormat)
  {
    var attrs := [("program", program), ("startTime", startTime), ("duration", duration),
                  ("isCC", isCC), ("audioFormat", audioFormat)];
    assert "program"[0] == 'p' && "startTime"[0] == 's' && "duration"[0] == 'd';
    assert "isCC"[0] == 'i' && "audioFormat"[0] == 'a';
    AttrAt(attrs, "isCC", 3);
    AttrAt(attrs, "audioFormat", 4);
  }

  /** `schedule_entries_dict` after the groups of `seen` were opened under
      `at`, in that order: each service maps to the reference of its group. */
  function GroupRefs(seen: seq<string>, at: seq<nat>, base: nat): map<string, seq<nat>> {
    if seen == [] then map[]
    else GroupRefs(seen[..|seen| - 1], at, base)[seen[|seen| - 1] := at + [base + |seen| - 1]]
  }

  /** The map has exactly the services seen... */
  lemma {:induction false} GroupRefsHas(seen: seq<string>, at: seq<nat>, base: nat, s: string)
    ensures s in GroupRefs(seen, at, base) <==> s in seen
  {
    if seen != [] {
      var init := seen[..|seen| - 1];
      GroupRefsHas(init, at, base, s);
      assert seen == init + [seen[|seen| - 1]];
    }
  }

  /** ...and, the services being distinct, the `j`-th maps to the `j`-th group. */
  lemma {:induction false} GroupRefsAt(seen: seq<string>, at: seq<nat>, base: nat, j: nat)
    requires j < |seen| && Distinct(seen)
    ensures seen[j] in GroupRefs(seen, at, base) && GroupRefs(seen, at, base)[seen[j]] == at + [base + j]
  {
    var init := seen[..|seen| - 1];
    if j < |seen| - 1 {
      GroupRefsAt(init, at, base, j);
    }
  }

  /** A turn for an entry of a service not seen yet: its group, empty, goes
      after the others and is recorded in the map; then the entry goes into
      it. */
  lemma TurnNew(gs: seq<Node>, seen: seq<string>, entry: Value, s: string, at: seq<nat>, base: nat)
    requires GroupsFor(gs, seen) && ServiceOf(entry) == Some(s) && s !in seen
    ensures |gs| == |seen|
    ensures var grown := gs + [GroupNode(s, [])];
      NextGroups(gs, seen, entry)
      == if Emits(entry) then grown[|gs| := ExtendAt(grown[|gs|], [], [EntryNode(entry)])] else grown
    ensures GroupRefs(NextSeen(seen, entry), at, base) == GroupRefs(seen, at, base)[s := at + [base + |gs|]]
  {
    var n := EntryNode(entry);
    var grown := gs + [GroupNode(s, [])];
    assert ExtendAt(grown[|gs|], [], [n]) == GroupNode(s, [] + [n]);
    assert [] + [n] == [n];
    assert grown[|gs| := GroupNode(s, [n])] == gs + [GroupNode(s, [n])];
    assert (seen + [s])[..|seen|] == seen;
  }

  /** A turn for an entry of a service seen already, the `j`-th: the map keeps
      the reference of its group, and the entry goes into that group. */
  lemma TurnOld(gs: seq<Node>, seen: seq<string>, entry: Value, s: string, at: seq<nat>, base: nat)
    returns (j: nat)
    requires GroupsFor(gs, seen) && Distinct(seen) && ServiceOf(entry) == Some(s) && s in seen
    ensures j < |gs| && gs[j].Element?
    ensures s in GroupRefs(seen, at, base) && GroupRefs(seen, at, base)[s] == at + [base + j]
    ensures NextGroups(gs, seen, entry)
            == if Emits(entry) then gs[j := ExtendAt(gs[j], [], [EntryNode(entry)])] else gs
    ensures NextSeen(seen, entry) == seen
  {
    var n := EntryNode(entry);
    j := IndexOf(seen, s);
    GroupRefsAt(seen, at, base, j);
    assert gs[j] == GroupNode(s, Children(gs[j]));
    assert ExtendAt(gs[j], [], [n]) == GroupNode(s, Children(gs[j]) + [n]);
  }

  /** `etree.SubElement(with_section, "ScheduleEntries", ...)` for a service
      without a group: the group goes after the `gs` already added under `at`. */
  method OpenGroup(w: XmlElement, at: seq<nat>, service: string, ghost v0: Node, ghost gs: seq<Node>)
    returns (group: seq<nat>)
    requires PathOk(v0, at)
    requires w.Value() == ExtendAt(v0, at, gs)
    modifies w
    ensures w.Value() == ExtendAt(v0, at, gs + [GroupNode(service, [])])
    ensures group == at + [|At(v0, at).children| + |gs|]
  {
    ExtendAtGrows(v0, at, gs);
    ExtendTwice(v0, at, gs, [GroupNode(service, [])]);
    group := w.SubElement(at, "ScheduleEntries", [("service", service)]);
  }

  method AddScheduleEntriesSection(w: XmlElement, at: seq<nat>, processedData: Value)
    requires PathOk(w.Value(), at)
    requires EntriesInput(processedData)
    modifies w
    ensures w.Value() == ExtendAt(old(w.Value()), at, ScheduleGroups(EntriesOf(processedData)))
  {
    var entries := Items(Get(processedData, "schedule_entries", JNull));
    AddScheduleEntries(w, at, entries);
  }

  /** The loop of `add_schedule_entries_section` over the entry list, with the
      dict from service to its group's reference. */
  method AddScheduleEntries(w: XmlElement, at: seq<nat>, entries: seq<Value>)
    requires PathOk(w.Value(), at)
    requires AllShaped(entries)
    modifies w
    ensures w.Value() == ExtendAt(old(w.Value()), at, ScheduleGroups(entries))
  {
    ghost var v0 := w.Value();
    var scheduleEntriesDict: map<string, seq<nat>> := map[];
    ghost var base := |At(v0, at).children|;
    NoGroups(v0, at, entries, base);
    var k := 0;
    while k < |entries|
      invariant k <= |entries|
      invariant w.Value() == ExtendAt(v0, at, ScheduleGroups(entries[..k]))
      invariant scheduleEntriesDict == GroupRefs(ServicesSeen(entries[..k]), at, base)
    {
      scheduleEntriesDict := AddScheduleEntryAt(w, at, scheduleEntriesDict, entries, k, v0, base);
      k := k + 1;
    }
    assert entries[..k] == entries;
  }

  /** Before the first entry there are no groups and the dict is empty. */
  lemma NoGroups(v0: Node, at: seq<nat>, entries: seq<Value>, base: nat)
    requires PathOk(v0, at)
    ensures v0 == ExtendAt(v0, at, ScheduleGroups(entries[..0]))
    ensures map[] == GroupRefs(ServicesSeen(entries[..0]), at, base)
  {
    assert entries[..0] == [];
    assert ServicesSeen([]) == [];
    assert ScheduleGroups([]) == [];
    ExtendNothing(v0, at);
  }

  /** The loop body on entry `k`, stated on the first `k` entries and the
      first `k + 1`. */
  method AddScheduleEntryAt(w: XmlElement, at: seq<nat>, groups: map<string, seq<nat>>,
                            entries: seq<Value>, k: nat, ghost v0: Node, ghost base: nat)
    returns (groups': map<string, seq<nat>>)
    requires k < |entries| && AllShaped(entries) && PathOk(v0, at) && base == |At(v0, at).children|
    requires w.Value() == ExtendAt(v0, at, ScheduleGroups(entries[..k]))
    requires groups == GroupRefs(ServicesSeen(entries[..k]), at, base)
    modifies w
    ensures w.Value() == ExtendAt(v0, at, ScheduleGroups(entries[..k + 1]))
    ensures groups' == GroupRefs(ServicesSeen(entries[..k + 1]), at, base)
  {
    assert entries[..k + 1] == entries[..k] + [entries[k]];
    ShapedAt(entries, k);
    StepGroups(entries[..k], entries[k]);
    groups' := AddScheduleEntry(w, at, groups, entries[k], v0,
                                ScheduleGroups(entries[..k]), ServicesSeen(entries[..k]));
  }

  /** One turn of the loop over the schedule entries, on the groups `gs` of
      the services `seen` already under `at`: skip an entry without a service,
      open its service's group if needed, then append the entry to that group
      if it has a program and a start time. */
  method AddScheduleEntry(w: XmlElement, at: seq<nat>, groups: map<string, seq<nat>>, entry: Value,
                          ghost v0: Node, ghost gs: seq<Node>, ghost seen: seq<string>)
    returns (groups': map<string, seq<nat>>)
    requires PathOk(v0, at) && w.Value() == ExtendAt(v0, at, gs)
    requires GroupsFor(gs, seen) && Distinct(seen)
    requires groups == GroupRefs(seen, at, |At(v0, at).children|)
    requires EntryShaped(entry)
    modifies w
    ensures w.Value() == ExtendAt(v0, at, NextGroups(gs, seen, entry))
    ensures groups' == GroupRefs(NextSeen(seen, entry), at, |At(v0, at).children|)
  {
    groups' := groups;
    var serviceId := Get(entry, "service", JNull);
    if !Truthy(serviceId) {
      return;
    }
    groups' := FileEntry(w, at, groups, entry, serviceId.s, v0, gs, seen);
  }

  /** The turn for an entry whose service is `service`: its group is opened
      if the map has none yet, and the entry goes into it. */
  method FileEntry(w: XmlElement, at: seq<nat>, groups: map<string, seq<nat>>, entry: Value, service: string,
                   ghost v0: Node, ghost gs: seq<Node>, ghost seen: seq<string>)
    returns (groups': map<string, seq<nat>>)
    requires PathOk(v0, at) && w.Value() == ExtendAt(v0, at, gs)
    requires GroupsFor(gs, seen) && Distinct(seen)
    requires groups == GroupRefs(seen, at, |At(v0, at).children|)
    requires ServiceOf(entry) == Some(service)
    requires entry.JObj? && (Emits(entry) ==> Has(entry, "duration"))
    modifies w
    ensures w.Value() == ExtendAt(v0, at, NextGroups(gs, seen, entry))
    ensures groups' == GroupRefs(NextSeen(seen, entry), at, |At(v0, at).children|)
  {
    GroupRefsHas(seen, at, |At(v0, at).children|, service);
    if service !in groups {
      groups' := FileNew(w, at, groups, entry, service, v0, gs, seen);
    } else {
      groups' := FileOld(w, at, groups, entry, service, v0, gs, seen);
    }
  }

  /** The turn for an entry of a service the map does not hold yet. */
  method FileNew(w: XmlElement, at: seq<nat>, groups: map<string, seq<nat>>, entry: Value, service: string,
                 ghost v0: Node, ghost gs: seq<Node>, ghost seen: seq<string>)
    returns (groups': map<string, seq<nat>>)
    requires PathOk(v0, at) && w.Value() == ExtendAt(v0, at, gs)
    requires GroupsFor(gs, seen)
    requires groups == GroupRefs(seen, at, |At(v0, at).children|)
    requires ServiceOf(entry) == Some(service) && service !in seen
    requires entry.JObj? && (Emits(entry) ==> Has(entry, "duration"))
    modifies w
    ensures w.Value() == ExtendAt(v0, at, NextGroups(gs, seen, entry))
    ensures groups' == GroupRefs(NextSeen(seen, entry), at, |At(v0, at).children|)
  {
    TurnNew(gs, seen, entry, service, at, |At(v0, at).children|);
    var group := OpenGroup(w, at, service, v0, gs);
    groups' := groups[service := group];
    ghost var grown := gs + [GroupNode(service, [])];
    assert grown[|gs|] == GroupNode(service, []);
    AppendEntry(w, group, entry, v0, at, grown, |gs|);
  }

  /** The turn for an entry of a service whose group the map holds. */
  method FileOld(w: XmlElement, at: seq<nat>, groups: map<string, seq<nat>>, entry: Value, service: string,
                 ghost v0: Node, ghost gs: seq<Node>, ghost seen: seq<string>)
    returns (groups': map<string, seq<nat>>)
    requires PathOk(v0, at) && w.Value() == ExtendAt(v0, at, gs)
    requires GroupsFor(gs, seen) && Distinct(seen)
    requires groups == GroupRefs(seen, at, |At(v0, at).children|)
    requires ServiceOf(entry) == Some(service) && service in seen
    requires entry.JObj? && (Emits(entry) ==> Has(entry, "duration"))
    modifies w
    ensures w.Value() == ExtendAt(v0, at, NextGroups(gs, seen, entry))
    ensures groups' == GroupRefs(NextSeen(seen, entry), at, |At(v0, at).children|)
  {
    ghost var j := TurnOld(gs, seen, entry, service, at, |At(v0, at).children|);
    groups' := groups;
    AppendEntry(w, groups[service], entry, v0, at, gs, j);
  }

  /** The last step of a turn: the entry goes into its group, the `j`-th of
      the groups `grown` under `at`, when it has a program and a start time. */
  method AppendEntry(w: XmlElement, group: seq<nat>, entry: Value,
                     ghost v0: Node, ghost at: seq<nat>, ghost grown: seq<Node>, ghost j: nat)
    requires PathOk(v0, at) && w.Value() == ExtendAt(v0, at, grown)
    requires j < |grown| && grown[j].Element?
    requires group == at + [|At(v0, at).children| + j]
    requires entry.JObj? && (Emits(entry) ==> Has(entry, "duration"))
    modifies w
    ensures w.Value() == ExtendAt(v0, at, if Emits(entry) then grown[j := ExtendAt(grown[j], [], [EntryNode(entry)])] else grown)
  {
    if Truthy(Get(entry, "program", JNull)) && Truthy(Get(entry, "startTime", JNull)) {
      ExtendInside(v0, at, grown, j, [], EntryNode(entry));
      assert group + [] == group;
      var added := w.SubElement(group, "ScheduleEntry", [
        ("program", SafeStr(Get(entry, "program", JNull))),
        ("startTime", SafeStr(Get(entry, "startTime", JNull))),
        ("duration", SafeStr(Get(entry, "duration", JNull))),
        ("isCC", SafeStr(Get(entry, "isCC", JStr("0")))),
        ("audioFormat", SafeStr(Get(entry, "audioFormat", JStr("2"))))]);
    }
  }

  // ----- add_lineups_section (processing.py:81-105) -----

  /** `lineup_info['lineupName']`, as it is printed. */
  function LineupName(lineupInfo: Value): string {
    SafeStr(Get(lineupInfo, "lineupName", JNull))
  }

  /** "major.minor", with -1 for a missing major and 0 for a missing minor
      number. */
  function ChannelNumber(channel: Value): string {
    SafeStr(Get(channel, "majorChannel", JInt(-1))) + "." + SafeStr(Get(channel, "minorChannel", JInt(0)))
  }

  /** A channel gets a lineup Channel when its index is truthy. */
  predicate Indexed(channel: Value) {
    Truthy(Get(channel, "channelIndex", JNull))
  }

  function LineupChannelNode(lineupName: string, channel: Value): Node {
    var number := ChannelNumber(channel);
    Element("Channel", [
      ("uid", "!Channel!" + lineupName + "!" + number),
      ("lineup", "l1"),
      ("service", ServiceId(Get(channel, "channelIndex", JNull))),
      ("number", number),
      ("matchName", SafeStr(Get(channel, "callSign", JStr(""))))], [])
  }

  /** The Channel nodes of the indexed channels, in input order. */
  function LineupChannels(lineupName: string, channels: seq<Value>): seq<Node> {
    if channels == [] then []
    else
      var last := channels[|channels| - 1];
      LineupChannels(lineupName, channels[..|channels| - 1])
      + (if Indexed(last) then [LineupChannelNode(lineupName, last)] else [])
  }

  /** Lineups > Lineup (id "l1") > channels > the Channel nodes. */
  function LineupsNode(lineupName: string, channelNodes: seq<Node>): Node {
    Element("Lineups", [], [Element("Lineup", LineupAttrs(lineupName), [Element("channels", [], channelNodes)])])
  }

  function LineupsSection(lineupInfo: Value, channels: seq<Value>): Node {
    var name := LineupName(lineupInfo);
    LineupsNode(name, LineupChannels(name, channels))
  }

  function LineupAttrs(lineupName: string): seq<(string, string)> {
    [("id", "l1"), ("uid", "!Lineup!" + lineupName), ("name", lineupName)]
  }

  /** The channels element goes, empty, under the Lineup. */
  lemma LineupsOpen(lineupName: string)
    ensures var l := Element("Lineups", [], [Element("Lineup", LineupAttrs(lineupName), [])]);
      PathOk(l, [0]) && At(l, [0]).children == []
      && [l][0 := ExtendAt(l, [0], [Element("channels", [], [])])] == [LineupsNode(lineupName, [])]
  {
    var l := Element("Lineups", [], [Element("Lineup", LineupAttrs(lineupName), [])]);
    var cs := [Element("channels", [], [])];
    assert [0][1..] == [];
    assert [] + cs == cs;
    assert ExtendAt(l.children[0], [], cs) == Element("Lineup", LineupAttrs(lineupName), cs);
    assert l.children[0 := Element("Lineup", LineupAttrs(lineupName), cs)] == [Element("Lineup", LineupAttrs(lineupName), cs)];
    assert ExtendAt(l, [0], cs) == LineupsNode(lineupName, []);
  }

  /** Appending under the channels element adds one more Channel. */
  lemma LineupsGrow(lineupName: string, channelNodes: seq<Node>, c: Node)
    ensures PathOk(LineupsNode(lineupName, channelNodes), [0, 0])
    ensures [LineupsNode(lineupName, channelNodes)][0 := ExtendAt(LineupsNode(lineupName, channelNodes), [0, 0], [c])]
            == [LineupsNode(lineupName, channelNodes + [c])]
  {
    var channels := Element("channels", [], channelNodes);
    var lineup := Element("Lineup", LineupAttrs(lineupName), [channels]);
    assert [0, 0][1..] == [0];
    assert [0][1..] == [];
    var channels' := Element("channels", [], channelNodes + [c]);
    var lineup' := Element("Lineup", LineupAttrs(lineupName), [channels']);
    assert ExtendAt(channels, [], [c]) == channels';
    assert [channels][0 := channels'] == [channels'];
    assert ExtendAt(lineup, [0], [c]) == lineup';
    assert [lineup][0 := lineup'] == [lineup'];
    assert ExtendAt(LineupsNode(lineupName, channelNodes), [0, 0], [c]) == LineupsNode(lineupName, channelNodes + [c]);
  }

  /** The Lineups, Lineup and channels elements, one inside the other, with
      the reference to the last. */
  method OpenLineups(w: XmlElement, at: seq<nat>, name: string) returns (channelsElement: seq<nat>)
    requires PathOk(w.Value(), at)
    modifies w
    ensures w.Value() == ExtendAt(old(w.Value()), at, [LineupsNode(name, [])])
    ensures channelsElement == at + [|At(old(w.Value()), at).children|] + [0, 0]
  {
    ghost var v0 := w.Value();
    ghost var base := |At(v0, at).children|;
    var lineups := w.SubElement(at, "Lineups", []);
    var lineupAttrs := [("id", "l1"), ("uid", "!Lineup!" + name), ("name", name)];
    assert lineupAttrs == LineupAttrs(name);
    AppendToSection(v0, at, "Lineups", [], [], Element("Lineup", lineupAttrs, []));
    var lineup := w.SubElement(lineups, "Lineup", lineupAttrs);
    assert lineup == at + [base] + [0];
    ghost var started := [Element("Lineups", [], [Element("Lineup", lineupAttrs, [])])];
    assert [] + [Element("Lineup", lineupAttrs, [])] == [Element("Lineup", lineupAttrs, [])];
    assert w.Value() == ExtendAt(v0, at, started);
    LineupsOpen(name);
    ExtendInside(v0, at, started, 0, [0], Element("channels", [], []));
    assert at + [base + 0] + [0] == lineup;
    channelsElement := w.SubElement(lineup, "channels", []);
  }

  method AddLineupsSection(w: XmlElement, at: seq<nat>, lineupInfo: Value, channels: seq<Value>)
    requires PathOk(w.Value(), at)
    requires Has(lineupInfo, "lineupName")
    requires forall ch :: ch in channels ==> ch.JObj?
    modifies w
    ensures w.Value() == ExtendAt(old(w.Value()), at, [LineupsSection(lineupInfo, channels)])
  {
    ghost var v0 := w.Value();
    ghost var base := |At(v0, at).children|;
    var name := SafeStr(Get(lineupInfo, "lineupName", JNull));
    var channelsElement := OpenLineups(w, at, name);
    NoLineupChannels(name, channels);
    var k := 0;
    while k < |channels|
      invariant k <= |channels|
      invariant channelsElement == at + [base] + [0, 0]
      invariant w.Value() == ExtendAt(v0, at, [LineupsNode(name, LineupChannels(name, channels[..k]))])
    {
      AddLineupChannel(w, channelsElement, name, channels[k], channels, k, v0, at, base);
      k := k + 1;
    }
    assert channels[..k] == channels;
  }

  /** Before the first channel the channels element is empty. */
  lemma NoLineupChannels(name: string, channels: seq<Value>)
    ensures LineupsNode(name, []) == LineupsNode(name, LineupChannels(name, channels[..0]))
  {
    assert channels[..0] == [];
  }

  /** One turn of the loop: `channel`, the `k`-th, gets a lineup Channel,
      appended through the kept reference `channelsElement`, when its index is
      truthy. */
  method AddLineupChannel(w: XmlElement, channelsElement: seq<nat>, name: string, channel: Value,
                          ghost channels: seq<Value>, ghost k: nat, ghost v0: Node, ghost at: seq<nat>,
                          ghost base: nat)
    requires PathOk(v0, at) && base == |At(v0, at).children|
    requires k < |channels| && channel == channels[k] && channel.JObj?
    requires channelsElement == at + [base] + [0, 0]
    requires w.Value() == ExtendAt(v0, at, [LineupsNode(name, LineupChannels(name, channels[..k]))])
    modifies w
    ensures w.Value() == ExtendAt(v0, at, [LineupsNode(name, LineupChannels(name, channels[..k + 1]))])
  {
    assert channels[..k + 1][..k] == channels[..k];
    var nodes := LineupChannels(name, channels[..k]);
    assert LineupChannels(name, channels[..k + 1])
           == nodes + (if Indexed(channel) then [LineupChannelNode(name, channel)] else []);
    if Truthy(Get(channel, "channelIndex", JNull)) {
      LineupsGrow(name, nodes, LineupChannelNode(name, channel));
      ExtendInside(v0, at, [LineupsNode(name, nodes)], 0, [0, 0], LineupChannelNode(name, channel));
      assert at + [base + 0] + [0, 0] == channelsElement;
      var majorChannel := SafeStr(Get(channel, "majorChannel", JInt(-1)));
      var minorChannel := SafeStr(Get(channel, "minorChannel", JInt(0)));
      var number := majorChannel + "." + minorChannel;
      var channelUid := "!Channel!" + name + "!" + number;
      var serviceId := "s" + SafeStr(Get(channel, "channelIndex", JNull));
      var matchName := SafeStr(Get(channel, "callSign", JStr("")));
      var added := w.SubElement(channelsElement, "Channel", [
        ("uid", channelUid),
        ("lineup", "l1"),
        ("service", serviceId),
        ("number", number),
        ("matchName", matchName)]);
    } else {
      assert nodes + [] == nodes;
    }
  }

  /** The channels element holds a Channel for exactly the indexed channels. */
  lemma {:induction false} LineupChannelsListed(lineupName: string, channels: seq<Value>, n: Node)
    ensures n in LineupChannels(lineupName, channels)
            <==> exists ch :: ch in channels && Indexed(ch) && n == LineupChannelNode(lineupName, ch)
  {
    if channels != [] {
      var init, last := channels[..|channels| - 1], channels[|channels| - 1];
      var tail := if Indexed(last) then [LineupChannelNode(lineupName, last)] else [];
      assert channels == init + [last];
      assert LineupChannels(lineupName, channels) == LineupChannels(lineupName, init) + tail;
      LineupChannelsListed(lineupName, init, n);
      if n in LineupChannels(lineupName, channels) {
        if n in tail {
          assert last in channels && Indexed(last) && n == LineupChannelNode(lineupName, last);
        } else {
          var ch :| ch in init && Indexed(ch) && n == LineupChannelNode(lineupName, ch);
          assert ch in channels;
        }
      }
      if exists ch :: ch in channels && Indexed(ch) && n == LineupChannelNode(lineupName, ch) {
        var ch :| ch in channels && Indexed(ch) && n == LineupChannelNode(lineupName, ch);
        if ch != last {
          assert ch in init;
        } else {
          assert n in tail;
        }
      }
    }
  }

  /** What a Channel says: its uid is built from the lineup name and its
      number, it belongs to lineup "l1", it names the Service "s" + index, and
      its number is "major.minor". */
  lemma ChannelAttrs(lineupName: string, channel: Value)
    ensures var n := LineupChannelNode(lineupName, channel);
      && Attr(n, "uid") == Some("!Channel!" + lineupName + "!" + ChannelNumber(channel))
      && Attr(n, "lineup") == Some("l1")
      && Attr(n, "service") == Some(ServiceId(Get(channel, "channelIndex", JNull)))
      && Attr(n, "number") == Some(ChannelNumber(channel))
  {
    var number := ChannelNumber(channel);
    ChannelAttrList("!Channel!" + lineupName + "!" + number, ServiceId(Get(channel, "channelIndex", JNull)),
                    number, SafeStr(Get(channel, "callSign", JStr(""))));
  }

  lemma ChannelAttrList(uid: string, service: string, number: string, matchName: string)
    ensures var attrs := [("uid", uid), ("lineup", "l1"), ("service", service), ("number", number), ("matchName", matchName)];
      && AttrIn(attrs, "uid") == Some(uid) && AttrIn(attrs, "lineup") == Some("l1")
      && AttrIn(attrs, "service") == Some(service) && AttrIn(attrs, "number") == Some(number)
  {
    var attrs := [("uid", uid), ("lineup", "l1"), ("service", service), ("number", number), ("matchName", matchName)];
    assert "lineup"[0] != "number"[0];
    AttrAt(attrs, "lineup", 1);
    AttrAt(attrs, "service", 2);
    AttrAt(attrs, "number", 3);
  }

  /** A Channel refers to the Service of its channel by that Service's own id,
      and every channel with a Service also gets a Channel. */
  lemma ChannelServiceMatches(lineupName: string, channel: Value)
    ensures Attr(LineupChannelNode(lineupName, channel), "service") == Attr(ServiceNode(channel), "id")
    ensures IsService(channel) ==> Indexed(channel)
  {
    ChannelAttrs(lineupName, channel);
  }

  /** One Lineup, with id "l1", which every Channel names as its lineup; its
      uid and name come from the lineup name. */
  lemma LineupLayout(lineupInfo: Value, channels: seq<Value>)
    ensures var s := LineupsSection(lineupInfo, channels);
      |s.children| == 1 && s.children[0].tag == "Lineup"
      && Attr(s.children[0], "id") == Some("l1")
      && Attr(s.children[0], "uid") == Some("!Lineup!" + LineupName(lineupInfo))
      && Tags(s.children[0].children) == ["channels"]
    ensures forall n :: n in LineupChannels(LineupName(lineupInfo), channels) ==> Attr(n, "lineup") == Some("l1")
  {
    var name := LineupName(lineupInfo);
    AttrAt(LineupAttrs(name), "uid", 1);
    forall n | n in LineupChannels(name, channels)
      ensures Attr(n, "lineup") == Some("l1")
    {
      LineupChannelsListed(name, channels, n);
      var ch :| ch in channels && Indexed(ch) && n == LineupChannelNode(name, ch);
      ChannelAttrs(name, ch);
    }
  }

  /** "-1" stands in for a missing major number and "0" for a missing minor
      one. */
  lemma ChannelNumberDefaults(channel: Value)
    ensures !Has(channel, "majorChannel") && !Has(channel, "minorChannel") ==> ChannelNumber(channel) == "-1.0"
    ensures !Has(channel, "majorChannel") ==> ChannelNumber(channel) == "-1." + SafeStr(Get(channel, "minorChannel", JInt(0)))
  {
    assert Str(JInt(-1)) == "-1";
    assert Str(JInt(0)) == "0";
  }

  // ----- add_people_section (processing.py:107-116) -----

  /** A cast member who gets a Person: one with a truthy name. */
  predicate Named(person: Value) {
    Truthy(Get(person, "name", JNull))
  }

  function PersonNode(person: Value): Node {
    var name := SafeStr(Get(person, "name", JNull));
    Element("Person", [
      ("id", "p" + SafeStr(Get(person, "personId", JNull))),
      ("name", name),
      ("uid", "!Person!" + name)], [])
  }

  /** The People section: a Person per named cast member, in input order. */
  function PeopleSection(castAndCrew: seq<Value>): Node {
    Element("People", [], Map(PersonNode, Filter(Named, castAndCrew)))
  }

  /** `person.get(...)` needs a dict, and a named person's `person['personId']`
      must be there. */
  predicate PeopleShaped(castAndCrew: seq<Value>) {
    forall p :: p in castAndCrew ==> p.JObj? && (Named(p) ==> Has(p, "personId"))
  }

  method AddPeopleSection(w: XmlElement, at: seq<nat>, castAndCrew: seq<Value>)
    requires PathOk(w.Value(), at)
    requires PeopleShaped(castAndCrew)
    modifies w
    ensures w.Value() == ExtendAt(old(w.Value()), at, [PeopleSection(castAndCrew)])
  {
    ghost var v0 := w.Value();
    var people := w.SubElement(at, "People", []);
    NoPeople(castAndCrew);
    var k := 0;
    while k < |castAndCrew|
      invariant k <= |castAndCrew|
      invariant people == at + [|At(v0, at).children|]
      invariant w.Value() == ExtendAt(v0, at, [PeopleSection(castAndCrew[..k])])
    {
      AddPerson(w, people, castAndCrew, k, v0, at);
      k := k + 1;
    }
    assert castAndCrew[..k] == castAndCrew;
  }

  /** Before the first cast member the People element is empty. */
  lemma NoPeople(castAndCrew: seq<Value>)
    ensures Element("People", [], []) == PeopleSection(castAndCrew[..0])
  {
    assert castAndCrew[..0] == [];
  }

  /** One turn of the loop: the `k`-th cast member gets a Person, appended
      through the kept reference `people`, when the name is truthy. */
  method AddPerson(w: XmlElement, people: seq<nat>, castAndCrew: seq<Value>, k: nat,
                   ghost v0: Node, ghost at: seq<nat>)
    requires PathOk(v0, at) && k < |castAndCrew| && PeopleShaped(castAndCrew)
    requires people == at + [|At(v0, at).children|]
    requires w.Value() == ExtendAt(v0, at, [PeopleSection(castAndCrew[..k])])
    modifies w
    ensures w.Value() == ExtendAt(v0, at, [PeopleSection(castAndCrew[..k + 1])])
  {
    var person := castAndCrew[k];
    FilterStep(Named, castAndCrew, k);
    var kept := Filter(Named, castAndCrew[..k]);
    if Truthy(Get(person, "name", JNull)) {
      assert Has(person, "personId");
      AppendToSection(v0, at, "People", [], Map(PersonNode, kept), PersonNode(person));
      MapSnoc(PersonNode, kept, person);
      var name := SafeStr(Get(person, "name", JNull));
      var added := w.SubElement(people, "Person", [
        ("id", "p" + SafeStr(Get(person, "personId", JNull))),
        ("name", name),
        ("uid", "!Person!" + name)]);
    } else {
      assert kept + [] == kept;
    }
  }

  /** The People section holds a Person for exactly the named cast members. */
  lemma PeopleListed(castAndCrew: seq<Value>, n: Node)
    ensures n in PeopleSection(castAndCrew).children <==>
      exists p :: p in castAndCrew && Named(p) && n == PersonNode(p)
  {
    var kept := Filter(Named, castAndCrew);
    MapHas(PersonNode, kept, n);
    forall p | p in kept {
      FilterSound(Named, castAndCrew, p);
    }
    forall p | p in castAndCrew && Named(p) {
      FilterKeeps(Named, castAndCrew, p);
    }
  }

  /** Every Person has a non-empty name and the uid "!Person!" + name. */
  lemma PersonNames(castAndCrew: seq<Value>, n: Node)
    requires n in PeopleSection(castAndCrew).children
    ensures Attr(n, "name").Some? && Attr(n, "name").value != ""
    ensures Attr(n, "uid") == Some("!Person!" + Attr(n, "name").value)
  {
    PeopleListed(castAndCrew, n);
    var p :| p in castAndCrew && Named(p) && n == PersonNode(p);
    var name := SafeStr(Get(p, "name", JNull));
    SafeStrTruthy(Get(p, "name", JNull));
    PersonAttrList("p" + SafeStr(Get(p, "personId", JNull)), name);
  }

  lemma PersonAttrList(id: string, name: string)
    ensures var attrs := [("id", id), ("name", name), ("uid", "!Person!" + name)];
      AttrIn(attrs, "name") == Some(name) && AttrIn(attrs, "uid") == Some("!Person!" + name)
  {
    var attrs := [("id", id), ("name", name), ("uid", "!Person!" + name)];
    assert "id"[0] != "name"[0] && "id"[0] != "uid"[0] && "name"[0] != "uid"[0];
    AttrAt(attrs, "name", 1);
    AttrAt(attrs, "uid", 2);
  }

  // ----- add_series_infos_section (processing.py:118-130) -----

  /** The fields a SeriesInfo copies, each into the attribute of the same name. */
  const SeriesKeys: seq<string> :=
    ["id", "uid", "title", "shortTitle", "description", "shortDescription", "startAirdate"]

  function SeriesNode(series: Value): Node {
    Element("SeriesInfo", [
      ("id", SafeStr(Get(series, "id", JNull))),
      ("uid", SafeStr(Get(series, "uid", JNull))),
      ("title", SafeStr(Get(series, "title", JNull))),
      ("shortTitle", SafeStr(Get(series, "shortTitle", JNull))),
      ("description", SafeStr(Get(series, "description", JNull))),
      ("shortDescription", SafeStr(Get(series, "shortDescription", JNull))),
      ("startAirdate", SafeStr(Get(series, "startAirdate", JNull)))], [])
  }

  function SeriesInfosSection(seriesInfo: seq<Value>): Node {
    Element("SeriesInfos", [], Map(SeriesNode, seriesInfo))
  }

  /** Every series record is subscripted for all seven fields. */
  predicate SeriesShaped(seriesInfo: seq<Value>) {
    forall s :: s in seriesInfo ==> forall k :: k in SeriesKeys ==> Has(s, k)
  }

  method AddSeriesInfosSection(w: XmlElement, at: seq<nat>, seriesInfo: seq<Value>)
    requires PathOk(w.Value(), at)
    requires SeriesShaped(seriesInfo)
    modifies w
    ensures w.Value() == ExtendAt(old(w.Value()), at, [SeriesInfosSection(seriesInfo)])
  {
    ghost var v0 := w.Value();
    var seriesInfos := w.SubElement(at, "SeriesInfos", []);
    var k := 0;
    assert seriesInfo[..0] == [];
    assert SeriesInfosSection(seriesInfo[..0]) == Element("SeriesInfos", [], []);
    while k < |seriesInfo|
      invariant k <= |seriesInfo|
      invariant seriesInfos == at + [|At(v0, at).children|]
      invariant w.Value() == ExtendAt(v0, at, [SeriesInfosSection(seriesInfo[..k])])
    {
      var series := seriesInfo[k];
      AppendToSection(v0, at, "SeriesInfos", [], Map(SeriesNode, seriesInfo[..k]), SeriesNode(series));
      assert seriesInfo[..k + 1] == seriesInfo[..k] + [series];
      MapSnoc(SeriesNode, seriesInfo[..k], series);
      var added := w.SubElement(seriesInfos, "SeriesInfo", [
        ("id", SafeStr(Get(series, "id", JNull))),
        ("uid", SafeStr(Get(series, "uid", JNull))),
        ("title", SafeStr(Get(series, "title", JNull))),
        ("shortTitle", SafeStr(Get(series, "shortTitle", JNull))),
        ("description", SafeStr(Get(series, "description", JNull))),
        ("shortDescription", SafeStr(Get(series, "shortDescription", JNull))),
        ("startAirdate", SafeStr(Get(series, "startAirdate", JNull)))]);
      k := k + 1;
    }
    assert seriesInfo[..k] == seriesInfo;
  }

  /** One SeriesInfo per series record, in order, each attribute holding the
      field of the same name. */
  lemma SeriesInfosCopied(seriesInfo: seq<Value>, i: nat, k: nat)
    requires i < |seriesInfo| && k < |SeriesKeys|
    ensures |SeriesInfosSection(seriesInfo).children| == |seriesInfo|
    ensures Attr(SeriesInfosSection(seriesInfo).children[i], SeriesKeys[k])
            == Some(SafeStr(Get(seriesInfo[i], SeriesKeys[k], JNull)))
  {
    var n := SeriesNode(seriesInfo[i]);
    assert SeriesInfosSection(seriesInfo).children[i] == n;
    AttrAt(n.attrs, SeriesKeys[k], k);
  }

  // ----- add_programs_section (processing.py:132-147) -----

  /** The fields a Program is built from. */
  const ProgramKeys: seq<string> :=
    ["programId", "title", "description", "shortDescription", "episodeTitle",
     "originalAirDate", "keywords", "isSeries", "isKids"]

  function ProgramNode(program: Value): Node {
    var id := SafeStr(Get(program, "programId", JNull));
    Element("Program", [
      ("id", id),
      ("uid", "!Program!" + id),
      ("title", SafeStr(Get(program, "title", JNull))),
      ("description", SafeStr(Get(program, "description", JNull))),
      ("shortDescription", SafeStr(Get(program, "shortDescription", JNull))),
      ("episodeTitle", SafeStr(Get(program, "episodeTitle", JNull))),
      ("originalAirdate", SafeStr(Get(program, "originalAirDate", JNull))),
      ("keywords", SafeStr(Get(program, "keywords", JNull))),
      ("isSeries", SafeStr(Get(program, "isSeries", JNull))),
      ("isKids", SafeStr(Get(program, "isKids", JNull)))], [])
  }

  function ProgramsSection(programs: seq<Value>): Node {
    Element("Programs", [], Map(ProgramNode, programs))
  }

  /** Every program record is subscripted for all nine fields. */
  predicate ProgramsShaped(programs: seq<Value>) {
    forall p :: p in programs ==> forall k :: k in ProgramKeys ==> Has(p, k)
  }

  method AddProgramsSection(w: XmlElement, at: seq<nat>, programs: seq<Value>)
    requires PathOk(w.Value(), at)
    requires ProgramsShaped(programs)
    modifies w
    ensures w.Value() == ExtendAt(old(w.Value()), at, [ProgramsSection(programs)])
  {
    ghost var v0 := w.Value();
    var programsSection := w.SubElement(at, "Programs", []);
    var k := 0;
    assert programs[..0] == [];
    assert ProgramsSection(programs[..0]) == Element("Programs", [], []);
    while k < |programs|
      invariant k <= |programs|
      invariant programsSection == at + [|At(v0, at).children|]
      invariant w.Value() == ExtendAt(v0, at, [ProgramsSection(programs[..k])])
    {
      var program := programs[k];
      AppendToSection(v0, at, "Programs", [], Map(ProgramNode, programs[..k]), ProgramNode(program));
      assert programs[..k + 1] == programs[..k] + [program];
      MapSnoc(ProgramNode, programs[..k], program);
      var added := w.SubElement(programsSection, "Program", [
        ("id", SafeStr(Get(program, "programId", JNull))),
        ("uid", "!Program!" + SafeStr(Get(program, "programId", JNull))),
        ("title", SafeStr(Get(program, "title", JNull))),
        ("description", SafeStr(Get(program, "description", JNull))),
        ("shortDescription", SafeStr(Get(program, "shortDescription", JNull))),
        ("episodeTitle", SafeStr(Get(program, "episodeTitle", JNull))),
        ("originalAirdate", SafeStr(Get(program, "originalAirDate", JNull))),
        ("keywords", SafeStr(Get(program, "keywords", JNull))),
        ("isSeries", SafeStr(Get(program, "isSeries", JNull))),
        ("isKids", SafeStr(Get(program, "isKids", JNull)))]);
      k := k + 1;
    }
    assert programs[..k] == programs;
  }

  /** One Program per program record, in order, with id the programId and
      uid "!Program!" + programId. */
  lemma ProgramsCopied(programs: seq<Value>, i: nat)
    requires i < |programs|
    ensures |ProgramsSection(programs).children| == |programs|
    ensures Attr(ProgramsSection(programs).children[i], "id")
            == Some(SafeStr(Get(programs[i], "programId", JNull)))
    ensures Attr(ProgramsSection(programs).children[i], "uid")
            == Some("!Program!" + SafeStr(Get(programs[i], "programId", JNull)))
  {
    var n := ProgramNode(programs[i]);
    assert ProgramsSection(programs).children[i] == n;
    AttrAt(n.attrs, "id", 0);
    AttrAt(n.attrs, "uid", 1);
  }

  /** A Program's originalAirdate attribute is read from the record's
      "originalAirDate" field. */
  lemma ProgramAirdate(program: Value)
    ensures Attr(ProgramNode(program), "originalAirdate")
            == Some(SafeStr(Get(program, "originalAirDate", JNull)))
  {
    AttrAt(ProgramNode(program).attrs, "originalAirdate", 6);
  }

  // ----- generate_mxf (processing.py:149-190) -----

  /** The public key of the mcepg assembly the document names. */
  const PublicKey := "0024000004800000940000000602000000240000525341310004000001000100B5FC90E7027F67871E773A8FDE8938C81DD402BA65B9201D60593E96C492651E889CC13F1415EBB53FAC1131AE0BD333C5EE6021672D9718EA31A8AEBD0DA0072F25D87DBA6FC90FFD598ED4DA35E44C398C454307E8E33B8426143DAEC9F596836F97C8F74750E5975C64E2189F45DEF46B2A2B1247ADC3652BF5C308055DA9"

  const Copyright := "Â© 2025 TitanTV Inc. All Rights Reserved."

  function AssemblyNode(): Node {
    Element("Assembly", [("name", "mcepg"), ("version", "6.0.6000.0"), ("cultureInfo", ""), ("publicKey", PublicKey)], [])
  }

  /** `provider_info.get("providerId")`, as printed. */
  function ProviderId(providerInfo: Value): string {
    SafeStr(Get(providerInfo, "providerId", JNull))
  }

  function ProviderAttrs(providerInfo: Value): seq<(string, string)> {
    var name := SafeStr(Get(providerInfo, "providerName", JNull));
    [("id", ProviderId(providerInfo)), ("name", name), ("displayName", name), ("copyright", Copyright)]
  }

  function ProvidersNode(providerInfo: Value): Node {
    Element("Providers", [], [Element("Provider", ProviderAttrs(providerInfo), [])])
  }

  /** The sections `generate_mxf` fills the With element with. */
  function WithNode(providerInfo: Value, processedData: Value): Node {
    Element("With", [("provider", ProviderId(providerInfo))], [
      PeopleSection(Items(Get(processedData, "cast_and_crew", JNull))),
      SeriesInfosSection(Items(Get(processedData, "series_info", JNull))),
      ProgramsSection(Items(Get(processedData, "programs", JNull)))])
  }

  /** The guide document `generate_mxf` builds, before it is serialised. */
  function MxfDocument(providerInfo: Value, processedData: Value): Node {
    Element("MXF", [], [AssemblyNode(), ProvidersNode(providerInfo), WithNode(providerInfo, processedData)])
  }

  /** A list stored under `key`. */
  predicate ListAt(processedData: Value, key: string) {
    Has(processedData, key) && Get(processedData, key, JNull).JArr?
  }

  /** What `generate_mxf` runs on: a provider dict, and the three lists it
      subscripts, each shaped for its builder. */
  predicate MxfInput(providerInfo: Value, processedData: Value) {
    && providerInfo.JObj?
    && ListAt(processedData, "cast_and_crew") && PeopleShaped(Items(Get(processedData, "cast_and_crew", JNull)))
    && ListAt(processedData, "series_info") && SeriesShaped(Items(Get(processedData, "series_info", JNull)))
    && ListAt(processedData, "programs") && ProgramsShaped(Items(Get(processedData, "programs", JNull)))
  }

  /** The With element before its sections are added. */
  function EmptyWith(providerInfo: Value): Node {
    Element("With", [("provider", ProviderId(providerInfo))], [])
  }

  /** The root with Assembly, Providers and an empty With. */
  method NewMxfRoot(providerInfo: Value) returns (root: XmlElement)
    ensures fresh(root)
    ensures root.Value() == Element("MXF", [], [AssemblyNode(), ProvidersNode(providerInfo), EmptyWith(providerInfo)])
  {
    root := new XmlElement("MXF", []);
    var assembly := root.SubElement([], "Assembly", [
      ("name", "mcepg"), ("version", "6.0.6000.0"), ("cultureInfo", ""), ("publicKey", PublicKey)]);
    var providers := root.SubElement([], "Providers", []);
    assert root.Value() == Element("MXF", [], [AssemblyNode(), Element("Providers", [], [])]);
    var providerName := SafeStr(Get(providerInfo, "providerName", JNull));
    ExtendChild("MXF", [], [AssemblyNode(), Element("Providers", [], [])], 1, Element("Provider", ProviderAttrs(providerInfo), []));
    var provider := root.SubElement(providers, "Provider", [
      ("id", SafeStr(Get(providerInfo, "providerId", JNull))),
      ("name", providerName),
      ("displayName", providerName),
      ("copyright", Copyright)]);
    assert [] + [Element("Provider", ProviderAttrs(providerInfo), [])] == [Element("Provider", ProviderAttrs(providerInfo), [])];
    assert [AssemblyNode(), Element("Providers", [], [])][1 := ProvidersNode(providerInfo)]
           == [AssemblyNode(), ProvidersNode(providerInfo)];
    assert root.Value() == Element("MXF", [], [AssemblyNode(), ProvidersNode(providerInfo)]);
    var withSection := root.SubElement([], "With", [("provider", SafeStr(Get(providerInfo, "providerId", JNull)))]);
  }

  /** A section appended under With, the root's third child. */
  lemma WithGains(head: seq<Node>, attrs: seq<(string, string)>, cs: seq<Node>, section: Node)
    requires |head| == 2
    ensures PathOk(Element("MXF", [], head + [Element("With", attrs, cs)]), [2])
    ensures ExtendAt(Element("MXF", [], head + [Element("With", attrs, cs)]), [2], [section])
            == Element("MXF", [], head + [Element("With", attrs, cs + [section])])
  {
    ExtendChild("MXF", [], head + [Element("With", attrs, cs)], 2, section);
    assert (head + [Element("With", attrs, cs)])[2 := Element("With", attrs, cs + [section])]
           == head + [Element("With", attrs, cs + [section])];
  }

  method GenerateMxf(providerInfo: Value, processedData: Value) returns (mxf: Node)
    requires MxfInput(providerInfo, processedData)
    ensures mxf == MxfDocument(providerInfo, processedData)
  {
    var root := NewMxfRoot(providerInfo);
    var castAndCrew := Items(Get(processedData, "cast_and_crew", JNull));
    var seriesInfo := Items(Get(processedData, "series_info", JNull));
    var programs := Items(Get(processedData, "programs", JNull));
    ghost var head := [AssemblyNode(), ProvidersNode(providerInfo)];
    assert root.Value() == Element("MXF", [], head + [Element("With", EmptyWith(providerInfo).attrs, [])]);
    AddWithSections(root, castAndCrew, seriesInfo, programs, head, EmptyWith(providerInfo).attrs);
    mxf := root.Value();
  }

  /** The three `add_*_section` calls of `generate_mxf`, in order, on the With
      element, the root's third child. */
  method AddWithSections(root: XmlElement, castAndCrew: seq<Value>, seriesInfo: seq<Value>, programs: seq<Value>,
                         ghost head: seq<Node>, ghost attrs: seq<(string, string)>)
    requires |head| == 2 && root.Value() == Element("MXF", [], head + [Element("With", attrs, [])])
    requires PeopleShaped(castAndCrew) && SeriesShaped(seriesInfo) && ProgramsShaped(programs)
    modifies root
    ensures root.Value() == Element("MXF", [], head + [Element("With", attrs,
              [PeopleSection(castAndCrew), SeriesInfosSection(seriesInfo), ProgramsSection(programs)])])
  {
    var withSection := [2];
    ghost var people, series := PeopleSection(castAndCrew), SeriesInfosSection(seriesInfo);
    WithGains(head, attrs, [], people);
    AddPeopleSection(root, withSection, castAndCrew);
    assert [] + [people] == [people];
    WithGains(head, attrs, [people], series);
    AddSeriesInfosSection(root, withSection, seriesInfo);
    assert [people] + [series] == [people, series];
    WithGains(head, attrs, [people, series], ProgramsSection(programs));
    AddProgramsSection(root, withSection, programs);
    assert [people, series] + [ProgramsSection(programs)] == [people, series, ProgramsSection(programs)];
  }

  /** MXF holds Assembly, Providers and With, in that order; With holds People,
      SeriesInfos and Programs, in that order, and names the provider by its
      id. */
  lemma MxfLayout(providerInfo: Value, processedData: Value)
    ensures var doc := MxfDocument(providerInfo, processedData);
      && Tags(doc.children) == ["Assembly", "Providers", "With"]
      && Tags(doc.children[2].children) == ["People", "SeriesInfos", "Programs"]
      && Attr(doc.children[2], "provider") == Attr(doc.children[1].children[0], "id")
      && Attr(doc.children[1].children[0], "copyright") == Some(Copyright)
  {
    var doc := MxfDocument(providerInfo, processedData);
    assert doc.children[0].tag == "Assembly" && doc.children[1].tag == "Providers" && doc.children[2].tag == "With";
    assert Tags(doc.children) == ["Assembly", "Providers", "With"];
    ProviderLayout(providerInfo);
    WithLayout(providerInfo, processedData);
  }

  lemma ProviderLayout(providerInfo: Value)
    ensures var p := ProvidersNode(providerInfo).children[0];
      Attr(p, "id") == Some(ProviderId(providerInfo)) && Attr(p, "copyright") == Some(Copyright)
  {
    AttrAt(ProviderAttrs(providerInfo), "copyright", 3);
  }

  lemma WithLayout(providerInfo: Value, processedData: Value)
    ensures Tags(WithNode(providerInfo, processedData).children) == ["People", "SeriesInfos", "Programs"]
    ensures Attr(WithNode(providerInfo, processedData), "provider") == Some(ProviderId(providerInfo))
  {
  }
}
