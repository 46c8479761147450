/**
  The walk that every extractor makes over a schedule document
  `{"channels": [{"channelIndex": ..., "days": [{"events": [event, ...]}]}]}`:
  channel, then day, then event, and for the people extractors each event's
  `castAndCrew` list. A missing `channels`, `days`, `events` or `castAndCrew`
  key contributes nothing. Each level is defined by its last element, the order
  in which the Python loops append.
 */
module Schedule {
  import opened Json
  import opened Seqs

  /** The default the extractors read for a missing field. */
  const NA := JStr("N/A")

  /** One event of the schedule together with the channel it was listed under. */
  datatype Occurrence = Occurrence(channel: Value, event: Value)

  /** One castAndCrew entry together with the event it belongs to. */
  datatype Credit = Credit(event: Value, person: Value)

  function ChannelsOf(doc: Value): seq<Value> { Items(Get(doc, "channels", JArr([]))) }
  function DaysOf(channel: Value): seq<Value> { Items(Get(channel, "days", JArr([]))) }
  function EventsOf(day: Value): seq<Value> { Items(Get(day, "events", JArr([]))) }
  function CastOf(event: Value): seq<Value> { Items(Get(event, "castAndCrew", JArr([]))) }

  /** The events of one day, each paired with `channel`. */
  function DayOccurrences(channel: Value, events: seq<Value>): (r: seq<Occurrence>)
    ensures |r| == |events|
    ensures forall k :: 0 <= k < |events| ==> r[k] == Occurrence(channel, events[k])
  {
    if events == [] then []
    else DayOccurrences(channel, events[..|events| - 1]) + [Occurrence(channel, events[|events| - 1])]
  }

  /** The events of `channel` over the given days, day by day. */
  function ChannelOccurrences(channel: Value, days: seq<Value>): seq<Occurrence> {
    if days == [] then []
    else ChannelOccurrences(channel, days[..|days| - 1]) + DayOccurrences(channel, EventsOf(days[|days| - 1]))
  }

  /** The events of all the given channels, channel by channel. */
  function OccurrencesIn(channels: seq<Value>): seq<Occurrence> {
    if channels == [] then []
    else
      var last := channels[|channels| - 1];
      OccurrencesIn(channels[..|channels| - 1]) + ChannelOccurrences(last, DaysOf(last))
  }

  /** Every event of a schedule document, in channel, day, event order. A falsy
      document or one without "channels" has none. */
  function Occurrences(doc: Value): seq<Occurrence> {
    if !Truthy(doc) || !Has(doc, "channels") then [] else OccurrencesIn(ChannelsOf(doc))
  }

  /** The castAndCrew entries of one event, each paired with that event. */
  function EventCredits(event: Value, people: seq<Value>): (r: seq<Credit>)
    ensures |r| == |people|
    ensures forall k :: 0 <= k < |people| ==> r[k] == Credit(event, people[k])
  {
    if people == [] then []
    else EventCredits(event, people[..|people| - 1]) + [Credit(event, people[|people| - 1])]
  }

  /** All castAndCrew entries of the given events, event by event. */
  function CreditsIn(occs: seq<Occurrence>): seq<Credit> {
    if occs == [] then []
    else
      var last := occs[|occs| - 1].event;
      CreditsIn(occs[..|occs| - 1]) + EventCredits(last, CastOf(last))
  }

  /** The castAndCrew entries of the given events, the walk the people
      extractors make: event by event, then day by day, then channel by channel. */
  function EventsCredits(events: seq<Value>): seq<Credit> {
    if events == [] then []
    else
      var last := events[|events| - 1];
      EventsCredits(events[..|events| - 1]) + EventCredits(last, CastOf(last))
  }

  function DaysCredits(days: seq<Value>): seq<Credit> {
    if days == [] then [] else DaysCredits(days[..|days| - 1]) + EventsCredits(EventsOf(days[|days| - 1]))
  }

  function ChannelsCredits(channels: seq<Value>): seq<Credit> {
    if channels == [] then []
    else ChannelsCredits(channels[..|channels| - 1]) + DaysCredits(DaysOf(channels[|channels| - 1]))
  }

  /** Every castAndCrew entry of a schedule document, walked as the people
      extractors walk it. */
  function Credits(doc: Value): seq<Credit> {
    if !Truthy(doc) || !Has(doc, "channels") then [] else ChannelsCredits(ChannelsOf(doc))
  }

  /** The number of castAndCrew entries over the given events, counted from the front. */
  function CrewCount(occs: seq<Occurrence>): nat {
    if occs == [] then 0 else |CastOf(occs[0].event)| + CrewCount(occs[1..])
  }

  // ----- Shapes the Python loops can walk without raising -----

  /** `for x in d.get(key, []): x.get(...)` runs: the key is absent or holds a list of dicts. */
  predicate ListOrAbsent(obj: Value, key: string) {
    !Has(obj, key) || ObjectList(Get(obj, key, JNull))
  }

  /** A dict whose channels, days and events the three-level walk can visit. */
  predicate Walkable(doc: Value) {
    && doc.JObj?
    && ListOrAbsent(doc, "channels")
    && forall c :: c in ChannelsOf(doc) ==>
         && c.JObj?
         && ListOrAbsent(c, "days")
         && forall d :: d in DaysOf(c) ==> d.JObj? && ListOrAbsent(d, "events")
  }

  /** `not doc or "channels" not in doc` holds without raising: a falsy value,
      or a list or string with no "channels" in it. */
  predicate TurnedAway(doc: Value) {
    !Truthy(doc) || (!doc.JObj? && Lacks(doc, "channels"))
  }

  /** What the extractors accept without raising: a document the guard turns
      away, or a walkable dict. */
  predicate ScheduleShaped(doc: Value) {
    TurnedAway(doc) || Walkable(doc)
  }

  /** A document the guard turns away yields no event and no castAndCrew entry. */
  lemma TurnedAwayEmpty(doc: Value)
    requires TurnedAway(doc)
    ensures Occurrences(doc) == [] && Credits(doc) == []
  {
  }

  /** Every event's castAndCrew is absent or a list of dicts. */
  predicate CastShaped(doc: Value) {
    forall c :: c in ChannelsOf(doc) ==>
      forall d :: d in DaysOf(c) ==>
        forall e :: e in EventsOf(d) ==> ListOrAbsent(e, "castAndCrew")
  }

  // ----- Unfolding one step of the walk -----

  lemma NextChannel(channels: seq<Value>, c: nat)
    requires c < |channels|
    ensures OccurrencesIn(channels[..c + 1])
            == OccurrencesIn(channels[..c]) + ChannelOccurrences(channels[c], DaysOf(channels[c]))
  {
    assert channels[..c + 1][..c] == channels[..c];
  }

  lemma EventStep(channel: Value, events: seq<Value>, e: nat)
    requires e < |events|
    ensures DayOccurrences(channel, events[..e + 1])
            == DayOccurrences(channel, events[..e]) + [Occurrence(channel, events[e])]
  {
    assert events[..e + 1][..e] == events[..e];
  }

  lemma DayStep(channel: Value, days: seq<Value>, d: nat)
    requires d < |days|
    ensures ChannelOccurrences(channel, days[..d + 1])
            == ChannelOccurrences(channel, days[..d]) + DayOccurrences(channel, EventsOf(days[d]))
  {
    assert days[..d + 1][..d] == days[..d];
  }

  // ----- The walk itself -----

  /** `for event in day.get("events", []): records.append(f(channel, event))`,
      appending to the records `acc0` collected so far. */
  method WalkEvents<R>(f: Occurrence -> R, channel: Value, events: seq<Value>, acc0: seq<R>)
    returns (acc: seq<R>)
    ensures acc == acc0 + Map(f, DayOccurrences(channel, events))
  {
    acc := acc0;
    NoneWalked(f, channel, events, acc0);
    var e := 0;
    while e < |events|
      invariant e <= |events|
      invariant acc == acc0 + Map(f, DayOccurrences(channel, events[..e]))
    {
      var o := Occurrence(channel, events[e]);
      ghost var before := DayOccurrences(channel, events[..e]);
      EventStep(channel, events, e);
      MapSnoc(f, before, o);
      Assoc(acc0, Map(f, before), [f(o)]);
      acc := acc + [f(o)];
      e := e + 1;
    }
    assert events[..e] == events;
  }

  lemma NoneWalked<R>(f: Occurrence -> R, channel: Value, events: seq<Value>, acc0: seq<R>)
    ensures acc0 == acc0 + Map(f, DayOccurrences(channel, events[..0]))
  {
    assert events[..0] == [];
    assert DayOccurrences(channel, []) == [];
  }

  /** `for day in channel.get("days", []):` the walk over each day's events,
      appending to the records `acc0` collected so far. */
  method WalkDays<R>(f: Occurrence -> R, channel: Value, days: seq<Value>, acc0: seq<R>)
    returns (acc: seq<R>)
    ensures acc == acc0 + Map(f, ChannelOccurrences(channel, days))
  {
    acc := acc0;
    NoDaysWalked(f, channel, days, acc0);
    var d := 0;
    while d < |days|
      invariant d <= |days|
      invariant acc == acc0 + Map(f, ChannelOccurrences(channel, days[..d]))
    {
      ghost var before := ChannelOccurrences(channel, days[..d]);
      ghost var today := DayOccurrences(channel, EventsOf(days[d]));
      DayStep(channel, days, d);
      MapAppend(f, before, today);
      Assoc(acc0, Map(f, before), Map(f, today));
      acc := WalkEvents(f, channel, EventsOf(days[d]), acc);
      d := d + 1;
    }
    assert days[..d] == days;
  }

  lemma NoDaysWalked<R>(f: Occurrence -> R, channel: Value, days: seq<Value>, acc0: seq<R>)
    ensures acc0 == acc0 + Map(f, ChannelOccurrences(channel, days[..0]))
  {
    assert days[..0] == [];
    assert ChannelOccurrences(channel, []) == [];
  }

  /** `for channel in channels:` the walk over each channel's days: one record
      `f(o)` per occurrence, in channel, day, event order. */
  method WalkChannels<R>(f: Occurrence -> R, channels: seq<Value>) returns (acc: seq<R>)
    ensures acc == Map(f, OccurrencesIn(channels))
  {
    acc := [];
    NoChannelsWalked(f, channels);
    var c := 0;
    while c < |channels|
      invariant c <= |channels|
      invariant acc == Map(f, OccurrencesIn(channels[..c]))
    {
      ghost var before := OccurrencesIn(channels[..c]);
      ghost var here := ChannelOccurrences(channels[c], DaysOf(channels[c]));
      NextChannel(channels, c);
      MapAppend(f, before, here);
      acc := WalkDays(f, channels[c], DaysOf(channels[c]), acc);
      c := c + 1;
    }
    assert channels[..c] == channels;
  }

  lemma NoChannelsWalked<R>(f: Occurrence -> R, channels: seq<Value>)
    ensures [] == Map(f, OccurrencesIn(channels[..0]))
  {
    assert channels[..0] == [];
    assert OccurrencesIn([]) == [];
  }

  lemma NextCredit(prior: seq<Credit>, event: Value, people: seq<Value>, p: nat)
    requires p < |people|
    ensures prior + EventCredits(event, people[..p + 1])
            == (prior + EventCredits(event, people[..p])) + [Credit(event, people[p])]
  {
    assert people[..p + 1][..p] == people[..p];
  }

  lemma CreditsSnoc(occs: seq<Occurrence>, o: Occurrence)
    ensures CreditsIn(occs + [o]) == CreditsIn(occs) + EventCredits(o.event, CastOf(o.event))
  {
    assert (occs + [o])[..|occs|] == occs;
  }

  lemma NextEventCredits(prior: seq<Credit>, events: seq<Value>, e: nat)
    requires e < |events|
    ensures prior + EventsCredits(events[..e + 1])
            == (prior + EventsCredits(events[..e])) + EventCredits(events[e], CastOf(events[e]))
  {
    assert events[..e + 1][..e] == events[..e];
  }

  lemma NextDayCredits(prior: seq<Credit>, days: seq<Value>, d: nat)
    requires d < |days|
    ensures prior + DaysCredits(days[..d + 1]) == (prior + DaysCredits(days[..d])) + EventsCredits(EventsOf(days[d]))
  {
    assert days[..d + 1][..d] == days[..d];
  }

  lemma NextChannelCredits(channels: seq<Value>, c: nat)
    requires c < |channels|
    ensures ChannelsCredits(channels[..c + 1]) == ChannelsCredits(channels[..c]) + DaysCredits(DaysOf(channels[c]))
  {
    assert channels[..c + 1][..c] == channels[..c];
  }

  /** Flattening events concatenates their castAndCrew lists. */
  lemma {:induction false} CreditsAppend(a: seq<Occurrence>, b: seq<Occurrence>)
    ensures CreditsIn(a + b) == CreditsIn(a) + CreditsIn(b)
    decreases |b|
  {
    if b != [] {
      var init, last := b[..|b| - 1], b[|b| - 1];
      assert a + b == (a + init) + [last];
      assert b == init + [last];
      CreditsSnoc(a + init, last);
      CreditsAppend(a, init);
      CreditsSnoc(init, last);
      assert CreditsIn(a + b) == CreditsIn(a) + CreditsIn(init) + EventCredits(last.event, CastOf(last.event));
    } else {
      assert a + b == a;
    }
  }

  lemma {:induction false} EventsCreditsWalk(channel: Value, events: seq<Value>)
    ensures CreditsIn(DayOccurrences(channel, events)) == EventsCredits(events)
  {
    if events != [] {
      var init, last := events[..|events| - 1], events[|events| - 1];
      EventsCreditsWalk(channel, init);
      CreditsSnoc(DayOccurrences(channel, init), Occurrence(channel, last));
    }
  }

  lemma {:induction false} DaysCreditsWalk(channel: Value, days: seq<Value>)
    ensures CreditsIn(ChannelOccurrences(channel, days)) == DaysCredits(days)
  {
    if days != [] {
      var init, last := days[..|days| - 1], days[|days| - 1];
      DaysCreditsWalk(channel, init);
      EventsCreditsWalk(channel, EventsOf(last));
      CreditsAppend(ChannelOccurrences(channel, init), DayOccurrences(channel, EventsOf(last)));
    }
  }

  lemma {:induction false} ChannelsCreditsWalk(channels: seq<Value>)
    ensures CreditsIn(OccurrencesIn(channels)) == ChannelsCredits(channels)
  {
    if channels != [] {
      var init, last := channels[..|channels| - 1], channels[|channels| - 1];
      ChannelsCreditsWalk(init);
      DaysCreditsWalk(last, DaysOf(last));
      CreditsAppend(OccurrencesIn(init), ChannelOccurrences(last, DaysOf(last)));
    }
  }

  /** The people extractors' walk meets the castAndCrew entries of exactly the
      schedule's events, in schedule order. */
  lemma CreditsWalk(doc: Value)
    ensures Credits(doc) == CreditsIn(Occurrences(doc))
  {
    ChannelsCreditsWalk(ChannelsOf(doc));
  }

  /** A dict's walk does not depend on the emptiness test: for a dict, the
      events are those of its channels whether or not it is truthy. */
  lemma OccurrencesOfDict(doc: Value)
    requires doc.JObj?
    ensures Occurrences(doc) == OccurrencesIn(ChannelsOf(doc))
  {
    if Has(doc, "channels") {
      HasIsTruthy(doc, "channels");
    } else {
      GetAbsent(doc, "channels", JArr([]));
    }
  }

  /** Every event of the document lies on one of its channels' days. */
  lemma {:induction false} OccurrenceOrigin(channels: seq<Value>, o: Occurrence)
    requires o in OccurrencesIn(channels)
    ensures o.channel in channels
    ensures exists d :: d in DaysOf(o.channel) && o.event in EventsOf(d)
  {
    var last := channels[|channels| - 1];
    if o in OccurrencesIn(channels[..|channels| - 1]) {
      OccurrenceOrigin(channels[..|channels| - 1], o);
    } else {
      ChannelOrigin(last, DaysOf(last), o);
    }
  }

  lemma {:induction false} ChannelOrigin(channel: Value, days: seq<Value>, o: Occurrence)
    requires o in ChannelOccurrences(channel, days)
    ensures o.channel == channel
    ensures exists d :: d in days && o.event in EventsOf(d)
  {
    var last := days[|days| - 1];
    if o in ChannelOccurrences(channel, days[..|days| - 1]) {
      ChannelOrigin(channel, days[..|days| - 1], o);
    } else {
      var es := EventsOf(last);
      var k :| 0 <= k < |es| && DayOccurrences(channel, es)[k] == o;
      assert o.event == es[k];
    }
  }

  /** `o` pairs a channel of `doc` with an event listed on one of that channel's days. */
  predicate Listed(doc: Value, o: Occurrence) {
    o.channel in ChannelsOf(doc) && exists d :: d in DaysOf(o.channel) && o.event in EventsOf(d)
  }

  lemma DayHas(channel: Value, events: seq<Value>, e: Value)
    requires e in events
    ensures Occurrence(channel, e) in DayOccurrences(channel, events)
  {
    var k :| 0 <= k < |events| && events[k] == e;
    assert DayOccurrences(channel, events)[k] == Occurrence(channel, e);
  }

  lemma {:induction false} ChannelHas(channel: Value, days: seq<Value>, d: Value, e: Value)
    requires d in days && e in EventsOf(d)
    ensures Occurrence(channel, e) in ChannelOccurrences(channel, days)
  {
    var init := days[..|days| - 1];
    assert days == init + [days[|days| - 1]];
    if d == days[|days| - 1] {
      DayHas(channel, EventsOf(d), e);
    } else {
      ChannelHas(channel, init, d, e);
    }
  }

  lemma {:induction false} ChannelsHave(channels: seq<Value>, c: Value, d: Value, e: Value)
    requires c in channels && d in DaysOf(c) && e in EventsOf(d)
    ensures Occurrence(c, e) in OccurrencesIn(channels)
  {
    var init := channels[..|channels| - 1];
    assert channels == init + [channels[|channels| - 1]];
    if c == channels[|channels| - 1] {
      ChannelHas(c, DaysOf(c), d, e);
    } else {
      ChannelsHave(init, c, d, e);
    }
  }

  /** The walk visits exactly the listed events: nothing is skipped and nothing
      is invented. */
  lemma OccurrencesListed(doc: Value, o: Occurrence)
    ensures o in Occurrences(doc) <==> Listed(doc, o)
  {
    if o in Occurrences(doc) {
      OccurrenceOrigin(ChannelsOf(doc), o);
    }
    if Listed(doc, o) {
      var d :| d in DaysOf(o.channel) && o.event in EventsOf(d);
      assert Has(doc, "channels");
      HasIsTruthy(doc, "channels");
      ChannelsHave(ChannelsOf(doc), o.channel, d, o.event);
    }
  }

  lemma EventCreditsHas(event: Value, people: seq<Value>, cr: Credit)
    ensures cr in EventCredits(event, people) <==> cr.event == event && cr.person in people
  {
    var r := EventCredits(event, people);
    if cr in r {
      var k :| 0 <= k < |r| && r[k] == cr;
      assert people[k] == cr.person;
    }
    if cr.event == event && cr.person in people {
      var k :| 0 <= k < |people| && people[k] == cr.person;
      assert r[k] == cr;
    }
  }

  /** A credit belongs to the flattened list exactly when its person is in the
      castAndCrew of one of the events. */
  lemma {:induction false} CreditsHas(occs: seq<Occurrence>, cr: Credit)
    ensures cr in CreditsIn(occs) <==>
            exists o :: o in occs && o.event == cr.event && cr.person in CastOf(o.event)
  {
    if occs == [] {
    } else {
      var init, last := occs[..|occs| - 1], occs[|occs| - 1];
      assert occs == init + [last];
      CreditsHas(init, cr);
      EventCreditsHas(last.event, CastOf(last.event), cr);
      if cr in CreditsIn(occs) && cr !in CreditsIn(init) {
        assert last in occs;
      }
      if exists o :: o in occs && o.event == cr.event && cr.person in CastOf(o.event) {
        var o :| o in occs && o.event == cr.event && cr.person in CastOf(o.event);
        if o != last {
          assert o in init;
        }
      }
    }
  }

  /** The people extractors meet exactly the castAndCrew entries of the listed events. */
  lemma CreditsListed(doc: Value, cr: Credit)
    ensures cr in Credits(doc) <==>
            exists o :: Listed(doc, o) && o.event == cr.event && cr.person in CastOf(o.event)
  {
    CreditsWalk(doc);
    CreditsHas(Occurrences(doc), cr);
    forall o {
      OccurrencesListed(doc, o);
    }
  }

  /** Walking a well-shaped document only ever meets dicts. */
  lemma OccurrencesAreDicts(doc: Value, o: Occurrence)
    requires Walkable(doc) && o in Occurrences(doc)
    ensures o.channel.JObj? && o.event.JObj?
  {
    OccurrenceOrigin(ChannelsOf(doc), o);
    var d :| d in DaysOf(o.channel) && o.event in EventsOf(d);
    assert ObjectList(Get(d, "events", JNull)) by {
      assert Has(d, "events");
    }
  }

  lemma {:induction false} CrewCountSnoc(occs: seq<Occurrence>, o: Occurrence)
    ensures CrewCount(occs + [o]) == CrewCount(occs) + |CastOf(o.event)|
  {
    if occs == [] {
      assert [o][1..] == [];
    } else {
      assert (occs + [o])[1..] == occs[1..] + [o];
      CrewCountSnoc(occs[1..], o);
    }
  }

  /** One credit per castAndCrew entry: the flattened list is as long as the
      entries counted one event at a time. */
  lemma {:induction false} CreditsCount(occs: seq<Occurrence>)
    ensures |CreditsIn(occs)| == CrewCount(occs)
  {
    if occs != [] {
      var init, last := occs[..|occs| - 1], occs[|occs| - 1];
      assert occs == init + [last];
      CreditsCount(init);
      CrewCountSnoc(init, last);
    }
  }
}
