/**
  extract.py: five extractors that walk a schedule document and turn every
  event (and every castAndCrew entry) into a flat record, reading each field
  with `.get(key, default)`.
 */
module Extract {
  import opened Json
  import opened Seqs
  import opened Schedule

  datatype ProgramRecord = ProgramRecord(
    programId: Value, title: Value, episodeTitle: Value, description: Value,
    originalAirDate: Value, keywords: Value, isSeries: string, isKids: string)

  datatype EntryRecord = EntryRecord(
    service: string, program: Value, startTime: Value, duration: Value,
    isCC: string, audioFormat: string)

  datatype PersonRecord = PersonRecord(personId: Value, name: Value)

  datatype RoleRecord = RoleRecord(personId: Value, role: Value, programId: Value)

  datatype CastRecord = CastRecord(personId: Value, name: Value, role: Value, programId: Value)

  datatype GuideImage = GuideImage(id: string, uid: string, imageUrl: Value)

  /** `"1" if v else "0"`. */
  function Flag(v: Value): string {
    if Truthy(v) then "1" else "0"
  }

  // ----- One record per event (extract.py:14-23, 42-49) -----

  function ProgramOf(o: Occurrence): ProgramRecord {
    var ev := o.event;
    ProgramRecord(
      Get(ev, "programId", NA), Get(ev, "title", NA), Get(ev, "episodeTitle", NA),
      Get(ev, "description", NA), Get(ev, "originalAirDate", NA),
      Get(ev, "displayGenre", NA),
      Flag(Get(ev, "isSeries", JBool(false))), Flag(Get(ev, "isKids", JBool(false))))
  }

  /** The service id of a channel: `f"s{channel.get('channelIndex', 'unknown')}"`. */
  function ServiceIdOf(channel: Value): string {
    "s" + Str(Get(channel, "channelIndex", JStr("unknown")))
  }

  function EntryOf(o: Occurrence): EntryRecord {
    var ev := o.event;
    EntryRecord(
      ServiceIdOf(o.channel), Get(ev, "programId", NA), Get(ev, "startTime", NA),
      Get(ev, "duration", NA), Flag(Get(ev, "isCC", JBool(false))),
      if Truthy(Get(ev, "isStereo", JBool(false))) then "2" else "1")
  }

  function Programs(doc: Value): seq<ProgramRecord> {
    Map(ProgramOf, Occurrences(doc))
  }

  function ScheduleEntries(doc: Value): seq<EntryRecord> {
    Map(EntryOf, Occurrences(doc))
  }

  // ----- One record per castAndCrew entry (extract.py:69-77, 126-131) -----

  function PersonOf(cr: Credit): PersonRecord {
    PersonRecord(Get(cr.person, "personId", NA), Get(cr.person, "name", NA))
  }

  function RoleOf(cr: Credit): RoleRecord {
    RoleRecord(Get(cr.person, "personId", NA), Get(cr.person, "role", NA), Get(cr.event, "programId", NA))
  }

  function CastRecordOf(cr: Credit): CastRecord {
    CastRecord(Get(cr.person, "personId", NA), Get(cr.person, "name", NA),
               Get(cr.person, "role", NA), Get(cr.event, "programId", NA))
  }

  // ----- Guide images (extract.py:90-109) -----

  predicate HasShowCard(o: Occurrence) {
    Truthy(Get(o.event, "showCard", JStr("")))
  }

  function ShowCardImage(o: Occurrence): GuideImage {
    var pid := Str(Get(o.event, "programId", JStr("unknown")));
    GuideImage("i" + pid, "!Image!" + pid, Get(o.event, "showCard", JStr("")))
  }

  predicate HasLogo(channel: Value) {
    Truthy(Get(channel, "logo", JStr("")))
  }

  function LogoImage(channel: Value): GuideImage {
    GuideImage("i" + Str(Get(channel, "channelIndex", JNull)),
               "!Image!" + Str(Get(channel, "callSign", JNull)),
               Get(channel, "logo", JStr("")))
  }

  /** The image of every listed event whose showCard is truthy, in order. */
  function ShowCards(occs: seq<Occurrence>): seq<GuideImage> {
    if occs == [] then []
    else
      var last := occs[|occs| - 1];
      ShowCards(occs[..|occs| - 1]) + (if HasShowCard(last) then [ShowCardImage(last)] else [])
  }

  /** The image of every channel whose logo is truthy, in order. */
  function Logos(channels: seq<Value>): seq<GuideImage> {
    if channels == [] then []
    else
      var last := channels[|channels| - 1];
      Logos(channels[..|channels| - 1]) + (if HasLogo(last) then [LogoImage(last)] else [])
  }

  lemma ShowCardsSnoc(occs: seq<Occurrence>, o: Occurrence)
    ensures ShowCards(occs + [o]) == ShowCards(occs) + (if HasShowCard(o) then [ShowCardImage(o)] else [])
  {
    assert (occs + [o])[..|occs|] == occs;
  }

  lemma NextLogo(channels: seq<Value>, k: nat)
    requires k < |channels|
    ensures Logos(channels[..k + 1])
            == Logos(channels[..k]) + (if HasLogo(channels[k]) then [LogoImage(channels[k])] else [])
  {
    assert channels[..k + 1][..k] == channels[..k];
  }

  /** All show-card images, then all logo images. */
  function GuideImages(doc: Value, channels: seq<Value>): seq<GuideImage> {
    ShowCards(Occurrences(doc)) + Logos(channels)
  }

  /** The channel list `extract_guide_images` can index: dicts, and every one
      with a logo has `channelIndex` and `callSign`. */
  predicate LogoChannelsShaped(channels: seq<Value>) {
    forall ch :: ch in channels ==>
      ch.JObj? && (HasLogo(ch) ==> Has(ch, "channelIndex") && Has(ch, "callSign"))
  }

  // ----- What the record lists hold -----

  /** A program record for every listed event, and nothing else. */
  lemma ProgramsListed(doc: Value, p: ProgramRecord)
    ensures p in Programs(doc) <==> exists o :: Listed(doc, o) && p == ProgramOf(o)
  {
    MapHas(ProgramOf, Occurrences(doc), p);
    forall o {
      OccurrencesListed(doc, o);
    }
  }

  /** A schedule entry for every listed event, and nothing else. */
  lemma EntriesListed(doc: Value, r: EntryRecord)
    ensures r in ScheduleEntries(doc) <==> exists o :: Listed(doc, o) && r == EntryOf(o)
  {
    MapHas(EntryOf, Occurrences(doc), r);
    forall o {
      OccurrencesListed(doc, o);
    }
  }

  /** The two per-event lists run in step: the i-th schedule entry points at
      the i-th program. */
  lemma EntriesMatchPrograms(doc: Value)
    ensures |ScheduleEntries(doc)| == |Programs(doc)|
    ensures forall i :: 0 <= i < |Programs(doc)| ==> ScheduleEntries(doc)[i].program == Programs(doc)[i].programId
  {
    var occs := Occurrences(doc);
    forall i | 0 <= i < |Programs(doc)|
      ensures ScheduleEntries(doc)[i].program == Programs(doc)[i].programId
    {
      assert ScheduleEntries(doc)[i] == EntryOf(occs[i]);
      assert Programs(doc)[i] == ProgramOf(occs[i]);
    }
  }

  /** A flag that the event leaves out reads as "0"; the audio format is "2"
      only for an event that says it is stereo. */
  lemma EventFlags(o: Occurrence)
    ensures ProgramOf(o).isSeries == "1" <==> Has(o.event, "isSeries") && Truthy(Get(o.event, "isSeries", JNull))
    ensures ProgramOf(o).isKids == "1" <==> Has(o.event, "isKids") && Truthy(Get(o.event, "isKids", JNull))
    ensures EntryOf(o).isCC == "1" <==> Has(o.event, "isCC") && Truthy(Get(o.event, "isCC", JNull))
    ensures EntryOf(o).audioFormat == "2" <==> Has(o.event, "isStereo") && Truthy(Get(o.event, "isStereo", JNull))
  {
  }

  /** A field that the event leaves out reads as "N/A". */
  lemma ProgramDefaults(o: Occurrence)
    requires o.event.JObj?
    ensures !Has(o.event, "programId") ==> ProgramOf(o).programId == NA && EntryOf(o).program == NA
    ensures !Has(o.event, "title") ==> ProgramOf(o).title == NA
    ensures !Has(o.event, "episodeTitle") ==> ProgramOf(o).episodeTitle == NA
    ensures !Has(o.event, "description") ==> ProgramOf(o).description == NA
    ensures !Has(o.event, "originalAirDate") ==> ProgramOf(o).originalAirDate == NA
    ensures !Has(o.event, "displayGenre") ==> ProgramOf(o).keywords == NA
    ensures !Has(o.event, "startTime") ==> EntryOf(o).startTime == NA
    ensures !Has(o.event, "duration") ==> EntryOf(o).duration == NA
  {
  }

  /** A people record and a role record per castAndCrew entry, side by side:
      the i-th of each describe the same person, and the combined cast record
      is their join. */
  lemma CastJoinsPeopleAndRoles(credits: seq<Credit>)
    ensures |Map(PersonOf, credits)| == |Map(RoleOf, credits)| == |Map(CastRecordOf, credits)| == |credits|
    ensures forall i :: 0 <= i < |credits| ==>
      && Map(PersonOf, credits)[i].personId == Map(RoleOf, credits)[i].personId
      && Map(CastRecordOf, credits)[i]
         == CastRecord(Map(PersonOf, credits)[i].personId, Map(PersonOf, credits)[i].name,
                       Map(RoleOf, credits)[i].role, Map(RoleOf, credits)[i].programId)
  {
    forall i | 0 <= i < |credits|
      ensures Map(PersonOf, credits)[i] == PersonOf(credits[i])
      ensures Map(RoleOf, credits)[i] == RoleOf(credits[i])
      ensures Map(CastRecordOf, credits)[i] == CastRecordOf(credits[i])
    {
    }
  }

  /** One cast record per castAndCrew entry of the schedule. */
  lemma CastCount(doc: Value)
    ensures |Map(CastRecordOf, Credits(doc))| == CrewCount(Occurrences(doc))
  {
    CreditsWalk(doc);
    CreditsCount(Occurrences(doc));
  }

  /** Every role names a person that the castAndCrew of a listed event holds,
      and carries that event's programId; every such person has a role. */
  lemma RolesListed(doc: Value, r: RoleRecord)
    ensures r in Map(RoleOf, Credits(doc)) <==>
            exists cr :: cr in Credits(doc) && r == RoleOf(cr)
    ensures forall cr :: cr in Credits(doc) ==>
            exists o :: Listed(doc, o) && o.event == cr.event && cr.person in CastOf(o.event)
  {
    MapHas(RoleOf, Credits(doc), r);
    forall cr | cr in Credits(doc) {
      CreditsListed(doc, cr);
    }
  }

  lemma {:induction false} ShowCardsHas(occs: seq<Occurrence>, img: GuideImage)
    ensures img in ShowCards(occs) <==> exists o :: o in occs && HasShowCard(o) && img == ShowCardImage(o)
  {
    if occs != [] {
      var init, last := occs[..|occs| - 1], occs[|occs| - 1];
      assert occs == init + [last];
      ShowCardsHas(init, img);
      if exists o :: o in occs && HasShowCard(o) && img == ShowCardImage(o) {
        var o :| o in occs && HasShowCard(o) && img == ShowCardImage(o);
        if o != last {
          assert o in init;
        }
      }
    }
  }

  lemma {:induction false} LogosHas(channels: seq<Value>, img: GuideImage)
    ensures img in Logos(channels) <==> exists ch :: ch in channels && HasLogo(ch) && img == LogoImage(ch)
  {
    if channels != [] {
      var init, last := channels[..|channels| - 1], channels[|channels| - 1];
      assert channels == init + [last];
      LogosHas(init, img);
      if exists ch :: ch in channels && HasLogo(ch) && img == LogoImage(ch) {
        var ch :| ch in channels && HasLogo(ch) && img == LogoImage(ch);
        if ch != last {
          assert ch in init;
        }
      }
    }
  }

  /** The guide images are the show cards of the listed events that have one
      and the logos of the channels that have one, nothing more. */
  lemma GuideImagesListed(doc: Value, channels: seq<Value>, img: GuideImage)
    ensures img in GuideImages(doc, channels) <==>
            || (exists o :: Listed(doc, o) && HasShowCard(o) && img == ShowCardImage(o))
            || (exists ch :: ch in channels && HasLogo(ch) && img == LogoImage(ch))
  {
    ShowCardsHas(Occurrences(doc), img);
    LogosHas(channels, img);
    forall o {
      OccurrencesListed(doc, o);
    }
  }

  // ----- The extractors -----

  method ExtractPrograms(doc: Value) returns (programs: seq<ProgramRecord>)
    requires ScheduleShaped(doc)
    ensures programs == Programs(doc)
  {
    if !Truthy(doc) || !Has(doc, "channels") {
      return [];
    }
    programs := WalkChannels(ProgramOf, ChannelsOf(doc));
  }

  method ExtractScheduleEntries(doc: Value) returns (entries: seq<EntryRecord>)
    requires ScheduleShaped(doc)
    ensures entries == ScheduleEntries(doc)
  {
    if !Truthy(doc) || !Has(doc, "channels") {
      return [];
    }
    entries := WalkChannels(EntryOf, ChannelsOf(doc));
  }

  /** The innermost loop of `extract_people_and_roles`: one person and one role
      per castAndCrew entry of `event`, appended to what was collected so far. */
  method AppendPeopleAndRoles(event: Value, people0: seq<PersonRecord>, roles0: seq<RoleRecord>)
    returns (people: seq<PersonRecord>, roles: seq<RoleRecord>)
    ensures people == people0 + Map(PersonOf, EventCredits(event, CastOf(event)))
    ensures roles == roles0 + Map(RoleOf, EventCredits(event, CastOf(event)))
  {
    people, roles := people0, roles0;
    var cast := Items(Get(event, "castAndCrew", JArr([])));
    var p := 0;
    while p < |cast|
      invariant p <= |cast|
      invariant people == people0 + Map(PersonOf, EventCredits(event, cast[..p]))
      invariant roles == roles0 + Map(RoleOf, EventCredits(event, cast[..p]))
    {
      var cr := Credit(event, cast[p]);
      NextCredit([], event, cast, p);
      MapSnoc(PersonOf, EventCredits(event, cast[..p]), cr);
      MapSnoc(RoleOf, EventCredits(event, cast[..p]), cr);
      people := people + [PersonOf(cr)];
      roles := roles + [RoleOf(cr)];
      p := p + 1;
    }
    assert cast[..p] == cast;
  }

  method ExtractPeopleAndRoles(doc: Value) returns (people: seq<PersonRecord>, roles: seq<RoleRecord>)
    requires ScheduleShaped(doc) && CastShaped(doc)
    ensures people == Map(PersonOf, Credits(doc))
    ensures roles == Map(RoleOf, Credits(doc))
  {
    if !Truthy(doc) || !Has(doc, "channels") {
      return [], [];
    }
    people, roles := [], [];
    ghost var done: seq<Credit> := [];
    var channels := Items(Get(doc, "channels", JArr([])));
    var c := 0;
    while c < |channels|
      invariant c <= |channels|
      invariant done == ChannelsCredits(channels[..c])
      invariant people == Map(PersonOf, done) && roles == Map(RoleOf, done)
    {
      var channel := channels[c];
      ghost var before := done;
      var days := Items(Get(channel, "days", JArr([])));
      var d := 0;
      while d < |days|
        invariant d <= |days|
        invariant done == before + DaysCredits(days[..d])
        invariant people == Map(PersonOf, done) && roles == Map(RoleOf, done)
      {
        ghost var today := done;
        var events := Items(Get(days[d], "events", JArr([])));
        var e := 0;
        while e < |events|
          invariant e <= |events|
          invariant done == today + EventsCredits(events[..e])
          invariant people == Map(PersonOf, done) && roles == Map(RoleOf, done)
        {
          var event := events[e];
          ghost var credits := EventCredits(event, CastOf(event));
          people, roles := AppendPeopleAndRoles(event, people, roles);
          MapAppend(PersonOf, done, credits);
          MapAppend(RoleOf, done, credits);
          NextEventCredits(today, events, e);
          done := done + credits;
          e := e + 1;
        }
        assert events[..e] == events;
        NextDayCredits(before, days, d);
        d := d + 1;
      }
      assert days[..d] == days;
      NextChannelCredits(channels, c);
      c := c + 1;
    }
    assert channels[..c] == channels;
  }

  /** Show-card images of consecutive runs of events concatenate. */
  lemma {:induction false} ShowCardsAppend(a: seq<Occurrence>, b: seq<Occurrence>)
    ensures ShowCards(a + b) == ShowCards(a) + ShowCards(b)
    decreases |b|
  {
    if b != [] {
      var init, last := b[..|b| - 1], b[|b| - 1];
      assert b == init + [last];
      assert a + b == (a + init) + [last];
      ShowCardsSnoc(a + init, last);
      ShowCardsAppend(a, init);
      ShowCardsSnoc(init, last);
      Assoc(ShowCards(a), ShowCards(init), if HasShowCard(last) then [ShowCardImage(last)] else []);
    } else {
      assert a + b == a;
    }
  }

  /** The innermost loop of the first loop of `extract_guide_images`: the
      show-card images of one day's events, appended to the images so far. */
  method ShowCardEvents(channel: Value, events: seq<Value>, images0: seq<GuideImage>) returns (images: seq<GuideImage>)
    ensures images == images0 + ShowCards(DayOccurrences(channel, events))
  {
    images := images0;
    NoShowCardEvents(channel, events, images0);
    var e := 0;
    while e < |events|
      invariant e <= |events|
      invariant images == images0 + ShowCards(DayOccurrences(channel, events[..e]))
    {
      var o := Occurrence(channel, events[e]);
      ghost var before := DayOccurrences(channel, events[..e]);
      EventStep(channel, events, e);
      ShowCardsSnoc(before, o);
      if HasShowCard(o) {
        Assoc(images0, ShowCards(before), [ShowCardImage(o)]);
        images := images + [ShowCardImage(o)];
      } else {
        assert ShowCards(before) + [] == ShowCards(before);
      }
      e := e + 1;
    }
    assert events[..e] == events;
  }

  lemma NoShowCardEvents(channel: Value, events: seq<Value>, images0: seq<GuideImage>)
    ensures images0 == images0 + ShowCards(DayOccurrences(channel, events[..0]))
  {
    assert events[..0] == [];
    assert DayOccurrences(channel, []) == [];
  }

  /** The middle loop: the show-card images of one channel's days. */
  method ShowCardDays(channel: Value, days: seq<Value>, images0: seq<GuideImage>) returns (images: seq<GuideImage>)
    ensures images == images0 + ShowCards(ChannelOccurrences(channel, days))
  {
    images := images0;
    NoShowCardDays(channel, days, images0);
    var d := 0;
    while d < |days|
      invariant d <= |days|
      invariant images == images0 + ShowCards(ChannelOccurrences(channel, days[..d]))
    {
      ghost var before := ChannelOccurrences(channel, days[..d]);
      ghost var today := DayOccurrences(channel, EventsOf(days[d]));
      DayStep(channel, days, d);
      ShowCardsAppend(before, today);
      Assoc(images0, ShowCards(before), ShowCards(today));
      images := ShowCardEvents(channel, EventsOf(days[d]), images);
      d := d + 1;
    }
    assert days[..d] == days;
  }

  lemma NoShowCardDays(channel: Value, days: seq<Value>, images0: seq<GuideImage>)
    ensures images0 == images0 + ShowCards(ChannelOccurrences(channel, days[..0]))
  {
    assert days[..0] == [];
    assert ChannelOccurrences(channel, []) == [];
  }

  /** The first loop of `extract_guide_images`: a show-card image for every
      event of the schedule whose showCard is truthy. */
  method ShowCardImages(doc: Value) returns (images: seq<GuideImage>)
    requires Walkable(doc)
    ensures images == ShowCards(Occurrences(doc))
  {
    images := [];
    var scheduled := ChannelsOf(doc);
    NoShowCardChannels(scheduled);
    var c := 0;
    while c < |scheduled|
      invariant c <= |scheduled|
      invariant images == ShowCards(OccurrencesIn(scheduled[..c]))
    {
      ghost var before := OccurrencesIn(scheduled[..c]);
      ghost var here := ChannelOccurrences(scheduled[c], DaysOf(scheduled[c]));
      NextChannel(scheduled, c);
      ShowCardsAppend(before, here);
      images := ShowCardDays(scheduled[c], DaysOf(scheduled[c]), images);
      c := c + 1;
    }
    assert scheduled[..c] == scheduled;
    OccurrencesOfDict(doc);
  }

  lemma NoShowCardChannels(channels: seq<Value>)
    ensures [] == ShowCards(OccurrencesIn(channels[..0]))
  {
    assert channels[..0] == [];
    assert OccurrencesIn([]) == [];
  }

  /** The second loop of `extract_guide_images`: a logo image for every
      channel whose logo is truthy, appended to the images so far. */
  method LogoImages(channels: seq<Value>, images0: seq<GuideImage>) returns (images: seq<GuideImage>)
    requires LogoChannelsShaped(channels)
    ensures images == images0 + Logos(channels)
  {
    images := images0;
    var k := 0;
    while k < |channels|
      invariant k <= |channels|
      invariant images == images0 + Logos(channels[..k])
    {
      var channel := channels[k];
      NextLogo(channels, k);
      if HasLogo(channel) {
        images := images + [LogoImage(channel)];
      }
      k := k + 1;
    }
    assert channels[..k] == channels;
  }

  /** `extract_guide_images`: the show-card images of the schedule, then one
      logo image for every channel of the lineup whose logo is truthy. */
  method ExtractGuideImages(doc: Value, channels: seq<Value>) returns (images: seq<GuideImage>)
    requires Walkable(doc) && LogoChannelsShaped(channels)
    ensures images == GuideImages(doc, channels)
  {
    images := ShowCardImages(doc);
    images := LogoImages(channels, images);
  }

  /** The innermost loop of `extract_cast_and_crew`: one record per
      castAndCrew entry of `event`, appended to what was collected so far. */
  method AppendCastRecords(event: Value, records0: seq<CastRecord>) returns (records: seq<CastRecord>)
    ensures records == records0 + Map(CastRecordOf, EventCredits(event, CastOf(event)))
  {
    records := records0;
    var cast := Items(Get(event, "castAndCrew", JArr([])));
    var p := 0;
    while p < |cast|
      invariant p <= |cast|
      invariant records == records0 + Map(CastRecordOf, EventCredits(event, cast[..p]))
    {
      var cr := Credit(event, cast[p]);
      NextCredit([], event, cast, p);
      MapSnoc(CastRecordOf, EventCredits(event, cast[..p]), cr);
      records := records + [CastRecordOf(cr)];
      p := p + 1;
    }
    assert cast[..p] == cast;
  }

  method ExtractCastAndCrew(doc: Value) returns (castAndCrew: seq<CastRecord>)
    requires ScheduleShaped(doc) && CastShaped(doc)
    ensures castAndCrew == Map(CastRecordOf, Credits(doc))
  {
    if !Truthy(doc) || !Has(doc, "channels") {
      return [];
    }
    castAndCrew := [];
    ghost var done: seq<Credit> := [];
    var channels := Items(Get(doc, "channels", JArr([])));
    var c := 0;
    while c < |channels|
      invariant c <= |channels|
      invariant done == ChannelsCredits(channels[..c])
      invariant castAndCrew == Map(CastRecordOf, done)
    {
      var channel := channels[c];
      ghost var before := done;
      var days := Items(Get(channel, "days", JArr([])));
      var d := 0;
      while d < |days|
        invariant d <= |days|
        invariant done == before + DaysCredits(days[..d])
        invariant castAndCrew == Map(CastRecordOf, done)
      {
        ghost var today := done;
        var events := Items(Get(days[d], "events", JArr([])));
        var e := 0;
        while e < |events|
          invariant e <= |events|
          invariant done == today + EventsCredits(events[..e])
          invariant castAndCrew == Map(CastRecordOf, done)
        {
          var event := events[e];
          ghost var credits := EventCredits(event, CastOf(event));
          castAndCrew := AppendCastRecords(event, castAndCrew);
          MapAppend(CastRecordOf, done, credits);
          NextEventCredits(today, events, e);
          done := done + credits;
          e := e + 1;
        }
        assert events[..e] == events;
        NextDayCredits(before, days, d);
        d := d + 1;
      }
      assert days[..d] == days;
      NextChannelCredits(channels, c);
      c := c + 1;
    }
    assert channels[..c] == channels;
  }
}
