/**
  titantv/processor.py: reshapes the API's lineup, channel and schedule
  documents into the flat records the MXF generator reads. Python's `d[key]`
  raises for a missing key; the records' required keys are therefore
  preconditions, while `.get(key, default)` is modelled by `Get`.
 */
module TitanProcessor {
  import opened Wrappers
  import opened Json
  import opened Seqs
  import opened Schedule

  // ----- process_lineup_data (titantv/processor.py:5-13) -----

  /** The record's keys, each with the lineup field it is read from. */
  const LineupFields: seq<(string, string)> := [
    ("lineupId", "lineupId"),
    ("lineupName", "lineupName"),
    ("timezone", "timeZone"),
    ("utcOffset", "utcOffset"),
    ("observesDst", "observesDst")]

  /** `lineup_data["lineups"][0]` is a lineup dict with every field read. */
  predicate LineupInput(lineupData: Value) {
    && Has(lineupData, "lineups")
    && Get(lineupData, "lineups", JNull).JArr?
    && |Get(lineupData, "lineups", JNull).items| > 0
    && forall i :: 0 <= i < |LineupFields| ==> Has(Get(lineupData, "lineups", JNull).items[0], LineupFields[i].1)
  }

  /** The first lineup, the only one read. */
  function FirstLineup(lineupData: Value): Value
    requires LineupInput(lineupData)
  {
    Get(lineupData, "lineups", JNull).items[0]
  }

  /** A dict with exactly the five record keys, in the order written. */
  function ProcessLineupData(lineupData: Value): (r: Value)
    requires LineupInput(lineupData)
    ensures r.JObj? && |r.fields| == |LineupFields|
    ensures forall i :: 0 <= i < |LineupFields| ==> r.fields[i].0 == LineupFields[i].0
  {
    Project(FirstLineup(lineupData), LineupFields)
  }

  lemma LineupKeysDistinct()
    ensures KeysDistinct(LineupFields)
  {
    assert "lineupId"[6] != "lineupName"[6];
    assert "utcOffset"[0] != "timezone"[0];
  }

  /** The record copies the first lineup's five fields, `timeZone` renamed to
      `timezone`, and holds nothing else. */
  lemma LineupCopied(lineupData: Value)
    requires LineupInput(lineupData)
    ensures var lineup, r := FirstLineup(lineupData), ProcessLineupData(lineupData);
      && Get(r, "lineupId", JNull) == Get(lineup, "lineupId", JNull)
      && Get(r, "lineupName", JNull) == Get(lineup, "lineupName", JNull)
      && Get(r, "timezone", JNull) == Get(lineup, "timeZone", JNull)
      && Get(r, "utcOffset", JNull) == Get(lineup, "utcOffset", JNull)
      && Get(r, "observesDst", JNull) == Get(lineup, "observesDst", JNull)
      && !Has(r, "timeZone")
  {
    var lineup := FirstLineup(lineupData);
    LineupKeysDistinct();
    ProjectGets(lineup, LineupFields, 0, JNull);
    ProjectGets(lineup, LineupFields, 1, JNull);
    ProjectGets(lineup, LineupFields, 2, JNull);
    ProjectGets(lineup, LineupFields, 3, JNull);
    ProjectGets(lineup, LineupFields, 4, JNull);
    assert forall j :: 0 <= j < |LineupFields| ==> LineupFields[j].0 != "timeZone";
  }

  // ----- process_channels_data (titantv/processor.py:16-30) -----

  /** The channel fields copied, under their own names. */
  const ChannelFields: seq<(string, string)> := [
    ("channelId", "channelId"),
    ("callSign", "callSign"),
    ("network", "network"),
    ("description", "description"),
    ("hdCapable", "hdCapable"),
    ("logo", "logo"),
    ("sortOrder", "sortOrder"),
    ("majorChannel", "majorChannel"),
    ("minorChannel", "minorChannel")]

  function ChannelRecord(channel: Value): Value {
    Project(channel, ChannelFields)
  }

  /** `channels_data.get("channels", [])`: a dict whose channels, if any, are
      dicts with every field read. */
  predicate ChannelsInput(channelsData: Value) {
    && channelsData.JObj?
    && ListOrAbsent(channelsData, "channels")
    && forall c :: c in ChannelsOf(channelsData) ==> forall i :: 0 <= i < |ChannelFields| ==> Has(c, ChannelFields[i].1)
  }

  /** One record per channel, in input order, each a dict with exactly the nine
      record keys. */
  function ProcessChannelsData(channelsData: Value): (r: seq<Value>)
    requires ChannelsInput(channelsData)
    ensures |r| == |ChannelsOf(channelsData)|
    ensures forall k :: 0 <= k < |r| ==> r[k].JObj? && |r[k].fields| == |ChannelFields|
    ensures forall k, i :: 0 <= k < |r| && 0 <= i < |ChannelFields| ==> r[k].fields[i].0 == ChannelFields[i].0
  {
    RecordKeys(ChannelsOf(channelsData));
    Map(ChannelRecord, ChannelsOf(channelsData))
  }

  lemma RecordKeys(channels: seq<Value>)
    ensures forall k :: 0 <= k < |channels| ==>
      Map(ChannelRecord, channels)[k].JObj? && |Map(ChannelRecord, channels)[k].fields| == |ChannelFields|
    ensures forall k, i :: 0 <= k < |channels| && 0 <= i < |ChannelFields| ==>
      Map(ChannelRecord, channels)[k].fields[i].0 == ChannelFields[i].0
  {
    forall k | 0 <= k < |channels|
      ensures Map(ChannelRecord, channels)[k] == ChannelRecord(channels[k])
    {
      MapAt(ChannelRecord, channels, k);
    }
  }

  lemma ChannelKeysDistinct()
    ensures KeysDistinct(ChannelFields)
  {
    assert "majorChannel"[1] != "minorChannel"[1];
    assert "channelId"[0] != "sortOrder"[0] && "channelId"[0] != "hdCapable"[0] && "hdCapable"[0] != "sortOrder"[0];
  }

  /** One record per channel, in input order, each field copied unchanged; no
      "channels" key gives no records. */
  lemma ChannelsCopied(channelsData: Value, k: nat, i: nat)
    requires ChannelsInput(channelsData)
    requires k < |ChannelsOf(channelsData)| && i < |ChannelFields|
    ensures |ProcessChannelsData(channelsData)| == |ChannelsOf(channelsData)|
    ensures Get(ProcessChannelsData(channelsData)[k], ChannelFields[i].0, JNull)
            == Get(ChannelsOf(channelsData)[k], ChannelFields[i].0, JNull)
  {
    ChannelKeysDistinct();
    ProjectGets(ChannelsOf(channelsData)[k], ChannelFields, i, JNull);
    assert ChannelFields[i].1 == ChannelFields[i].0;
    assert ProcessChannelsData(channelsData)[k] == ChannelRecord(ChannelsOf(channelsData)[k]);
  }

  lemma NoChannels(channelsData: Value)
    requires ChannelsInput(channelsData) && !Has(channelsData, "channels")
    ensures ProcessChannelsData(channelsData) == []
  {
  }

  // ----- process_schedule_data (titantv/processor.py:33-51) -----

  function ItemOf(o: Occurrence): Value {
    JObj([
      ("channelId", Get(o.channel, "channelIndex", JNull)),
      ("eventId", Get(o.event, "eventId", JNull)),
      ("startTime", Get(o.event, "startTime", JNull)),
      ("endTime", Get(o.event, "endTime", JNull)),
      ("title", Get(o.event, "title", JNull)),
      ("description", Get(o.event, "description", JNull)),
      ("programType", Get(o.event, "programType", JNull)),
      ("tvRating", Get(o.event, "tvRating", JStr(""))),
      ("showCard", Get(o.event, "showCard", JStr("")))])
  }

  /** The event fields an item requires. */
  const EventKeys := ["eventId", "startTime", "endTime", "title", "description", "programType"]

  /** A walkable document whose every event has the required fields, under a
      channel with a "channelIndex". */
  predicate ScheduleInput(scheduleData: Value) {
    && Walkable(scheduleData)
    && forall c :: c in ChannelsOf(scheduleData) ==>
         forall d :: d in DaysOf(c) ==>
           forall e :: e in EventsOf(d) ==>
             Has(c, "channelIndex") && forall i :: 0 <= i < |EventKeys| ==> Has(e, EventKeys[i])
  }

  /** One item per event, in channel, day, event order. */
  function ScheduleItems(scheduleData: Value): seq<Value> {
    Map(ItemOf, OccurrencesIn(ChannelsOf(scheduleData)))
  }

  method ProcessScheduleData(scheduleData: Value) returns (schedule: seq<Value>)
    requires ScheduleInput(scheduleData)
    ensures schedule == ScheduleItems(scheduleData)
  {
    schedule := WalkChannels(ItemOf, ChannelsOf(scheduleData));
  }

  /** The schedule has an item for exactly the listed events, and one per
      event: as many items as the walk visits. */
  lemma ScheduleListed(scheduleData: Value, item: Value)
    requires scheduleData.JObj?
    ensures item in ScheduleItems(scheduleData) <==> exists o :: Listed(scheduleData, o) && item == ItemOf(o)
    ensures |ScheduleItems(scheduleData)| == |Occurrences(scheduleData)|
  {
    OccurrencesOfDict(scheduleData);
    MapHas(ItemOf, Occurrences(scheduleData), item);
    forall o {
      OccurrencesListed(scheduleData, o);
    }
  }

  lemma ItemAttrs(channelId: Value, eventId: Value, startTime: Value, endTime: Value, title: Value,
                  description: Value, programType: Value, tvRating: Value, showCard: Value)
    ensures var fields := [("channelId", channelId), ("eventId", eventId), ("startTime", startTime),
                           ("endTime", endTime), ("title", title), ("description", description),
                           ("programType", programType), ("tvRating", tvRating), ("showCard", showCard)];
      && Lookup(fields, "channelId") == Some(channelId)
      && Lookup(fields, "eventId") == Some(eventId)
      && Lookup(fields, "startTime") == Some(startTime)
      && Lookup(fields, "endTime") == Some(endTime)
      && Lookup(fields, "tvRating") == Some(tvRating)
      && Lookup(fields, "showCard") == Some(showCard)
  {
    var fields := [("channelId", channelId), ("eventId", eventId), ("startTime", startTime),
                   ("endTime", endTime), ("title", title), ("description", description),
                   ("programType", programType), ("tvRating", tvRating), ("showCard", showCard)];
    assert "channelId"[0] != "startTime"[0] && "eventId"[1] != "endTime"[1];
    assert "description"[0] != "programType"[0] && "tvRating"[0] != "showCard"[0];
    LookupAt(fields, "channelId", 0);
    LookupAt(fields, "eventId", 1);
    LookupAt(fields, "startTime", 2);
    LookupAt(fields, "endTime", 3);
    LookupAt(fields, "tvRating", 7);
    LookupAt(fields, "showCard", 8);
  }

  /** An item's channelId is its channel's channelIndex, its eventId and
      times are the event's, and a missing tvRating or showCard reads "". */
  lemma ItemFields(o: Occurrence)
    ensures Get(ItemOf(o), "channelId", JNull) == Get(o.channel, "channelIndex", JNull)
    ensures Get(ItemOf(o), "eventId", JNull) == Get(o.event, "eventId", JNull)
    ensures Get(ItemOf(o), "startTime", JNull) == Get(o.event, "startTime", JNull)
    ensures Get(ItemOf(o), "endTime", JNull) == Get(o.event, "endTime", JNull)
    ensures !Has(o.event, "tvRating") ==> Get(ItemOf(o), "tvRating", JNull) == JStr("")
    ensures !Has(o.event, "showCard") ==> Get(ItemOf(o), "showCard", JNull) == JStr("")
  {
    ItemAttrs(Get(o.channel, "channelIndex", JNull), Get(o.event, "eventId", JNull),
              Get(o.event, "startTime", JNull), Get(o.event, "endTime", JNull), Get(o.event, "title", JNull),
              Get(o.event, "description", JNull), Get(o.event, "programType", JNull),
              Get(o.event, "tvRating", JStr("")), Get(o.event, "showCard", JStr("")));
  }
}
