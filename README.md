# titan2wmc: the record shaping and MXF building, in Dafny

titan2wmc fetches TitanTV lineup, channel and schedule documents. It reshapes
them into flat records and writes a Windows Media Center guide file (MXF). This
project models the part that does not talk to the network or the disk, and
proves what it computes.

- **Extractors**:
  - `extract.py`;
  - the `extract_listings` copies in `processing.py` and `data_processing.py`;
  - `titantv/processor.py`.

  Each walks a schedule document channel by channel, day by day and event by
  event. It turns every event, or every castAndCrew entry, into a record.
- **Tree builders**:
  - the `add_*_section` helpers and `generate_mxf` of `processing.py`;
  - `generate_mxf` in `titantv/mxf_generator.py`.

  They grow an lxml element tree with `SubElement` calls and text
  assignments.

## Modelling choices

- **JSON values.** A decoded document is a `Json.Value`: None, bool, int, str,
  list, or a dict kept as its key/value pairs in document order.
  - A dict lookup finds the last value of a repeated key, as `json.loads` keeps it.
  - `d.get(key, default)`, `key in d`, truthiness, `str()` and `lower()` are
    functions on these values.
- **Crashes become preconditions.** Where the Python code would raise, the
  model states the input shape as a precondition. Examples: `d[key]` on a
  missing key, `.get` on a non-dict, or an lxml text that is not a string.
  The one exception is lxml's rejection of strings holding characters XML
  forbids, which is left out (see "## Left out").
  Every `.get` default and every guard the code has is modelled as written.
  The `not schedule_data or "channels" not in schedule_data` guard turns away
  any falsy value and any list or string with no "channels" in it
  (`Schedule.TurnedAway`); Python's `in` on dicts, lists and strings is
  `Json.In`.
- **lxml trees.** An element tree is an `Xml.Node` value.
  - The element a builder is handed is an `Xml.XmlElement` object, whose
    children the methods change in place.
  - A reference to a sub-element that Python keeps in a variable or a dict
    is the path of child indices from the root. The dict of
    `add_schedule_entries_section` is a `map` from service to such a path.
  - `XmlElement.SubElement` appends under the element a path leads to.
- **Spec functions and methods.**
  - Each loop-based operation is a method with loops and invariants, proved
    equal to a function over the input or the old tree.
  - The recursive functions are defined by their last element, in the order
    the loops append. `Seqs.Map` is a sequence comprehension, with no order
    to follow.
  - The properties the code promises are lemmas about those functions.

## Remarks on the source

- `processing.generate_mxf` adds only the People, SeriesInfos and Programs
  sections. `add_services_section`, `add_schedule_entries_section` and
  `add_lineups_section` are defined beside it but called nowhere. They are
  modelled as the builders they are, each on an element handed to it.
- A lineup `Channel` refers to its `Service` by the same text
  (`Processing.ChannelServiceMatches`). Every channel that gets a Service also
  gets a lineup Channel.
  - The converse does not hold: a channel with a truthy `channelIndex` and a
    falsy `callSign` gets a lineup Channel whose `service` names no Service,
    unless another channel with the same `channelIndex` and a truthy
    `callSign` gets a Service with that id.
- `add_programs_section` subscripts `program["shortDescription"]`, which the
  records of `extract_programs` do not have. Nothing in the repository
  connects the two, so this is not modelled as a crash of either.
- The `try`/`except KeyError` blocks of the extractors guard only `.get`
  calls, which do not raise. The models have no error path there.
- The second `"channels" in schedule_data` test in `extract_listings` always
  holds once the first guard has passed, so its else branch is unreachable and
  the model has none. The inner `"days" in channel` and `"events" in day`
  guards followed by subscripts walk the same lists as the `.get(key, [])`
  loops of the other extractors when the channel or day is a dict
  (`Processing.Guarded`). A channel or day that is a list or a string
  without the key fails its `in` test; the model's walk gives it no days or
  events either (`Processing.ListingShaped`, `Processing.SkippedChannels`).

## Model

| member | source | states |
|---|---|---|
| Json.LookupFinds | processing.py:47 | a dict lookup finds a value exactly when the key occurs in the dict, and the value it finds is stored under that key |
| Json.LookupAt | titantv/processor.py:7-13 | in a dict literal, a key reads back the value written at its last occurrence |
| Json.ProjectGets | titantv/processor.py:7-13 | each output key of a dict literal that copies input fields holds the input field it is read from, and the dict has no other key |
| Json.GetAbsent | extract.py:15-22 | `d.get(key, default)` is the default exactly for a key the dict lacks |
| Json.GetPresent | titantv/mxf_generator.py:49-50 | for a key the dict holds, `d.get(key, x)` gives the stored value whatever `x` is, the same as `d[key]` |
| Json.HasIsTruthy | extract.py:5 | a dict holding "channels" passes the `not schedule_data` test |
| Json.NatToDecimal | processing.py:93-95 | the decimal text of a number is non-empty, all digits, and starts with 0 only for zero |
| Json.Lower | titantv/mxf_generator.py:34 | `lower()` keeps the length and lowers each letter |
| Json.LowerBool | titantv/mxf_generator.py:23-25 | `str(b).lower()` of a boolean is "true" or "false" |
| Json.StrIsEmpty | processing.py:4-6 | `str(v)` is empty exactly for the empty string |
| Json.SubstringFinds | extract.py:5 | `t in s` on strings holds exactly when some position of `s` starts a copy of `t` |
| Json.StrIsNone | processing.py:4-6 | `str(v)` is "None" exactly for None and the string "None" |
| Xml.Attr | processing.py:48-54 | an attribute found is stored on the element under that name; none found means no attribute has the name |
| Xml.AttrAt | processing.py:48-54 | an attribute written in an `attrib` dict reads back as the value written |
| Xml.At | processing.py:66-73 | a kept reference leads to an element |
| Xml.ExtendAtGrows | processing.py:45 | appending under a reference changes only the element it leads to, which gains the new nodes after its children, and the reference still leads there |
| Xml.ExtendInside | processing.py:73 | appending through a reference kept to an element added earlier gives the tree in which that element was added with the extra child |
| Xml.AppendToSection | processing.py:48 | appending under the section element added last gives the tree with that section holding one more child |
| Xml.XmlElement.SubElement | processing.py:45 | `etree.SubElement` appends one empty child with the given tag and attributes under the parent, returns the reference to it, and changes nothing else |
| Xml.XmlElement.SetText | titantv/mxf_generator.py:20 | `.text = v` on an element with no content makes `v` its only content; None leaves it empty |
| Xml.TextElement | titantv/mxf_generator.py:20 | the text of the element reads back as the value assigned |
| Xml.AddTextElement | titantv/mxf_generator.py:20-25 | `SubElement(parent, tag).text = v` appends under `parent` one element whose text is `v` |
| Xml.AddTextTo | titantv/mxf_generator.py:31-38 | the same, under the element a loop turn opened last, which then holds one more child |
| Schedule.DayOccurrences | extract.py:12 | one (channel, event) pair per event of a day, in order |
| Schedule.ChannelOrigin | extract.py:11-12 | a pair a channel's days yield carries that channel, and its event is in one of those days |
| Schedule.WalkEvents | extract.py:12 | the loop over a day's events appends one record per event, in order, after the records so far |
| Schedule.WalkDays | extract.py:11-12 | the loop over a channel's days appends the records of each day's events, day by day |
| Schedule.WalkChannels | extract.py:10-12 | the triple loop yields one record per (channel, event) pair, in channel, day, event order |
| Schedule.EventCredits | extract.py:67 | one (event, person) pair per castAndCrew entry, in order |
| Schedule.OccurrencesListed | extract.py:10-12 | the walk visits a pair exactly when its channel is in "channels" and its event is in the "events" of one of that channel's days |
| Schedule.TurnedAwayEmpty | extract.py:5-7 | a document the guard turns away, any falsy value or a list or string with no "channels" in it, yields no event and no castAndCrew entry |
| Schedule.OccurrencesOfDict | extract.py:5-10 | for a dict document, the `not schedule_data or "channels" not in` guard does not change what the walk yields |
| Schedule.OccurrenceOrigin | extract.py:10-12 | a visited pair's channel is in the list and its event is in one of that channel's days |
| Schedule.OccurrencesAreDicts | extract.py:10-12 | in a document the loops can walk, every visited channel and event is a dict |
| Schedule.CreditsListed | extract.py:64-67 | the castAndCrew walk visits (event, person) exactly when the event is listed and the person is in its castAndCrew |
| Schedule.CreditsWalk | extract.py:121-124 | walking castAndCrew channel by channel and day by day gives the credits of the listed events in event order |
| Schedule.CreditsCount | extract.py:124 | there are as many credits as the castAndCrew lists of the events hold in total |
| Extract.ExtractPrograms | extract.py:3-27 | one program record per listed event, in channel, day, event order, with the `.get` defaults; none for a document the guard turns away (any falsy value, a list or string without "channels") or a dict without "channels" |
| Extract.ProgramsListed | extract.py:9-24 | there is a program record for every listed event and for nothing else |
| Extract.ProgramDefaults | extract.py:15-46 | a missing programId, title, episodeTitle, description, originalAirDate, displayGenre, startTime or duration becomes "N/A" |
| Extract.EventFlags | extract.py:21-48 | isSeries, isKids and isCC are "1" and audioFormat is "2" exactly when the event holds a truthy value under that key |
| Extract.ExtractScheduleEntries | extract.py:30-53 | one schedule entry per listed event, in the same order, with service "s" + the channel's index; none for a document the guard turns away |
| Extract.EntriesListed | extract.py:36-50 | there is a schedule entry for every listed event and for nothing else |
| Extract.EntriesMatchPrograms | extract.py:14-49 | there are as many entries as programs, and entry i's program is program i's programId |
| Extract.ExtractPeopleAndRoles | extract.py:56-82 | a person record and a role record for every castAndCrew entry of every listed event, in order; none for a document the guard turns away |
| Extract.AppendPeopleAndRoles | extract.py:67-79 | the innermost loop appends one person and one role per castAndCrew entry of the event |
| Extract.RolesListed | extract.py:73-79 | a role record exists exactly for each credit, and each credit belongs to a listed event whose castAndCrew holds the person |
| Extract.CastJoinsPeopleAndRoles | extract.py:69-131 | people, roles and cast records have one entry per credit, and cast record i joins person i with role i |
| Extract.ExtractCastAndCrew | extract.py:114-134 | a cast record for every castAndCrew entry of every listed event, in order; none for a document the guard turns away |
| Extract.AppendCastRecords | extract.py:124-131 | the innermost loop appends one cast record per castAndCrew entry of the event |
| Extract.CastCount | extract.py:120-131 | there are as many cast records as castAndCrew entries in total |
| Extract.ShowCardsAppend | extract.py:93-99 | the show-card images of consecutive runs of events are the concatenation of those of each run |
| Extract.ShowCardEvents | extract.py:92-99 | the loop over a day's events appends, in order, the image of each event with a truthy showCard |
| Extract.ShowCardDays | extract.py:91-99 | the loop over a channel's days appends the show-card images of each day, day by day |
| Extract.ShowCardImages | extract.py:90-99 | the image of every listed event with a truthy showCard, in order |
| Extract.LogoImages | extract.py:102-109 | after the given images, the image of every channel with a truthy logo, in order |
| Extract.ExtractGuideImages | extract.py:85-111 | the show-card images, followed by the logo images |
| Extract.ShowCardsHas | extract.py:93-99 | an image is a show-card image exactly when it is built from an event with a truthy showCard |
| Extract.LogosHas | extract.py:103-109 | an image is a logo image exactly when it is built from a channel with a truthy logo |
| Extract.GuideImagesListed | extract.py:85-111 | an image is produced exactly when it comes from a listed event with a showCard or from a channel with a logo |
| Processing.SafeStrNone | processing.py:4-6 | `safe_str` yields "None" only for the string "None", never for a missing value |
| Processing.SafeStrEmpty | processing.py:4-6 | `safe_str` yields "" exactly for None and the empty string |
| Processing.SafeStrTruthy | processing.py:4-6 | for a truthy value, `safe_str` is `str` and not empty |
| Processing.ExtractListings | processing.py:8-41 | one listing per listed event, in channel, day, event order; none for a document the guard turns away or a dict without "channels"; channels and days that fail their `in` test contribute nothing |
| Processing.ListingsListed | processing.py:14-35 | there is a listing for every listed event and for nothing else |
| Processing.ListingDefaults | processing.py:24-34 | each missing field becomes "N/A", and a missing showCard becomes "" |
| Processing.ListingShapedWider | processing.py:17-22 | every document the `.get` walk of extract.py accepts, the guarded walk accepts too |
| Processing.SkippedChannels | processing.py:19-21 | channels that are a list or a string without "days" are accepted and skipped, where the `.get` walk would raise |
| Processing.Guarded | processing.py:17-22 | guarding with `key in d` and then subscripting walks the same list as `d.get(key, [])` |
| Processing.AddServicesSection | processing.py:43-54 | appends one Services element holding a Service for each channel with a truthy callSign and channelIndex, in input order, and changes nothing else |
| Processing.AddService | processing.py:47-54 | one loop turn: a qualifying channel adds its Service last in the Services element, any other changes nothing |
| Processing.ServicesListed | processing.py:46-54 | a Service exists exactly for each channel with a truthy callSign and channelIndex |
| Processing.ServiceIds | processing.py:47-52 | a Service's id is "s" + the index and its uid is "!Service!" + the call sign, both non-empty |
| Processing.AddScheduleEntriesSection | processing.py:56-79 | appends one ScheduleEntries group per service in first-seen order, each holding the entries of its service that have a program and a start time |
| Processing.AddScheduleEntries | processing.py:58-79 | the loop over the entries appends all their groups, in first-seen order, under the element handed over |
| Processing.AddScheduleEntryAt | processing.py:60-79 | one loop turn takes the groups and the service dict of the first k entries to those of the first k + 1 |
| Processing.AddScheduleEntry | processing.py:61-79 | an entry without a service changes nothing; otherwise it is filed under its service's group |
| Processing.FileEntry | processing.py:65-79 | a new service opens its group at the end and is recorded in the dict; the entry then goes last into its group if it has a program and a start time |
| Processing.FileNew | processing.py:65-79 | for a service not yet in the dict, the turn opens its group at the end, records the reference, and files the entry there if it has a program and a start time |
| Processing.FileOld | processing.py:72-79 | for a service already in the dict, the turn opens nothing, leaves the dict as it is, and files the entry under the group the dict leads to |
| Processing.OpenGroup | processing.py:66-70 | opens an empty group with the service attribute after the groups so far, and returns the reference to it |
| Processing.AppendEntry | processing.py:72-79 | an entry with a program and a start time gets a ScheduleEntry, appended through the kept reference to its group |
| Processing.StepGroups | processing.py:60-79 | the groups of one more entry are one loop turn applied to the groups so far, and each service has one group |
| Processing.GroupsSkip | processing.py:61-63 | an entry without a service changes no group |
| Processing.GroupsNew | processing.py:65-70 | an entry of a new service adds its group at the end, holding the entry if it is added |
| Processing.GroupsOld | processing.py:72-79 | an entry of a known service goes into that service's existing group and opens none |
| Processing.MembersSnoc | processing.py:72-73 | a service's group gains an entry exactly when the entry is of that service and has a program and a start time |
| Processing.MembersUnseen | processing.py:65-73 | a service not yet seen has no entries filed |
| Processing.SeenDistinct | processing.py:65-70 | no service gets two groups |
| Processing.SeenExact | processing.py:61-70 | a service gets a group exactly when some entry names it |
| Processing.SeenPrefix | processing.py:65-70 | groups once opened stay, in the order opened |
| Processing.MembersFiltered | processing.py:72-79 | a group holds the ScheduleEntry of exactly the entries of its service that have a program and a start time, in entry order |
| Processing.EntryFiled | processing.py:65-79 | an added entry is in a group with its service attribute, and every group with that attribute holds exactly that service's entries |
| Processing.EntryDefaults | processing.py:77-78 | a missing isCC is written "0" and a missing audioFormat "2" |
| Processing.GroupRefsHas | processing.py:65 | the dict holds exactly the services seen |
| Processing.GroupRefsAt | processing.py:66-70 | the dict maps each service to the reference of its group |
| Processing.TurnNew | processing.py:65-73 | for a new service, one turn adds its group and records the group's reference in the dict |
| Processing.TurnOld | processing.py:65-73 | for a known service, the dict already leads to its group, and that group is the one that grows |
| Processing.OpenLineups | processing.py:83-90 | appends Lineups > Lineup (id "l1", uid, name) > an empty channels element, and returns the reference to channels |
| Processing.AddLineupsSection | processing.py:81-105 | appends the Lineups section with a Channel for each channel with a truthy channelIndex, in input order, and changes nothing else |
| Processing.AddLineupChannel | processing.py:92-105 | one loop turn: a channel with a truthy channelIndex adds its Channel last under channels, any other changes nothing |
| Processing.LineupChannelsListed | processing.py:91-105 | a lineup Channel exists exactly for each channel with a truthy channelIndex |
| Processing.ChannelAttrs | processing.py:93-104 | a Channel's uid is "!Channel!" + lineup name + "!" + number; lineup is "l1"; service is "s" + the index; number is "major.minor" |
| Processing.ChannelServiceMatches | processing.py:47-102 | a lineup Channel's service is the id of the Service for the same channel, and every channel with a Service has an index |
| Processing.LineupLayout | processing.py:84-90 | one Lineup, id "l1", uid "!Lineup!" + name, whose only child is channels; every Channel's lineup is "l1" |
| Processing.ChannelNumberDefaults | processing.py:93-95 | a missing major number is written -1 and a missing minor number 0 |
| Processing.AddPeopleSection | processing.py:107-116 | appends one People element with a Person for each cast member with a truthy name, in input order |
| Processing.AddPerson | processing.py:111-116 | one loop turn: a cast member with a truthy name adds its Person last under People, any other changes nothing |
| Processing.PeopleListed | processing.py:110-116 | a Person exists exactly for each cast member with a truthy name |
| Processing.PersonNames | processing.py:111-116 | every Person has a non-empty name and the uid "!Person!" + that name |
| Processing.AddSeriesInfosSection | processing.py:118-130 | appends one SeriesInfos element with a SeriesInfo per series record, in input order |
| Processing.SeriesInfosCopied | processing.py:121-130 | one SeriesInfo per record, each attribute the `safe_str` of the record's field |
| Processing.AddProgramsSection | processing.py:132-147 | appends one Programs element with a Program per program record, in input order |
| Processing.ProgramsCopied | processing.py:135-138 | one Program per record, with id the programId and uid "!Program!" + programId |
| Processing.ProgramAirdate | processing.py:143 | the originalAirdate attribute is read from the "originalAirDate" field |
| Processing.NewMxfRoot | processing.py:151-176 | a fresh root holding Assembly, Providers and an empty With, with the constants and provider fields written as the source writes them |
| Processing.AddWithSections | processing.py:178-185 | the three section calls leave With holding People, SeriesInfos and Programs, in that order, built from their records, and change nothing else |
| Processing.GenerateMxf | processing.py:149-190 | the document: Assembly, Providers, and With holding People, SeriesInfos and Programs built from the processed data |
| Processing.MxfLayout | processing.py:157-185 | the root's sections are Assembly, Providers, With; With holds People, SeriesInfos, Programs; With's provider is the Provider's id; the copyright is the constant |
| Processing.ProviderLayout | processing.py:165-171 | the Provider's id is the `safe_str` of providerId and its copyright attribute is the constant |
| Processing.WithLayout | processing.py:173-185 | With carries the same provider id and holds exactly People, SeriesInfos and Programs |
| DataProcessing.ExtractListings | data_processing.py:3-36 | the same listings as processing.py's extractor on the same inputs: one per listed event in channel, day, event order, none for a document the guard turns away or a dict without "channels" |
| TitanProcessor.ProcessLineupData | titantv/processor.py:5-13 | the record is a dict with exactly the keys lineupId, lineupName, timezone, utcOffset and observesDst, in that order |
| TitanProcessor.LineupKeysDistinct | titantv/processor.py:7-13 | the lineup record writes each key once |
| TitanProcessor.LineupCopied | titantv/processor.py:5-13 | the record copies the first lineup's five fields, with timeZone renamed to timezone, and holds no timeZone key |
| TitanProcessor.ProcessChannelsData | titantv/processor.py:16-30 | one record per channel of "channels", in order, each a dict with exactly the nine keys written |
| TitanProcessor.ChannelKeysDistinct | titantv/processor.py:18-28 | the channel record writes each key once |
| TitanProcessor.ChannelsCopied | titantv/processor.py:16-30 | one record per channel, in order, each copying every listed field unchanged |
| TitanProcessor.NoChannels | titantv/processor.py:29 | without "channels" the result is empty |
| TitanProcessor.ProcessScheduleData | titantv/processor.py:33-51 | one item per event, in channel, day, event order; missing channels, days or events contribute nothing |
| TitanProcessor.ScheduleListed | titantv/processor.py:34-50 | there is an item for every listed event and for nothing else, as many as there are listed events |
| TitanProcessor.ItemAttrs | titantv/processor.py:39-49 | each field of the item literal reads back as the value written for it |
| TitanProcessor.ItemFields | titantv/processor.py:40-48 | an item's channelId is its channel's channelIndex; eventId, startTime and endTime are the event's; tvRating and showCard default to "" |
| TitanMxf.GenerateMxf | titantv/mxf_generator.py:10-60 | builds MXF with Lineups, Channels, Programs and ScheduleEntries from the lineup, channel and schedule records |
| TitanMxf.AddRecords | titantv/mxf_generator.py:28-60 | after Lineups, appends Channels, Programs and ScheduleEntries, each with one element per record in order |
| TitanMxf.AddLineups | titantv/mxf_generator.py:15-25 | appends Lineups holding one Lineup (id "1", uid the lineupId) with Name, TimeZone, UTCOffset and ObservesDaylightSaving texts |
| TitanMxf.AddChannels | titantv/mxf_generator.py:28-38 | appends Channels with one Channel per channel record, in order |
| TitanMxf.AddChannel | titantv/mxf_generator.py:30-38 | appends one Channel with its id and eight texts, and changes nothing else |
| TitanMxf.AddPrograms | titantv/mxf_generator.py:41-51 | appends Programs with one Program per schedule item, in order |
| TitanMxf.AddProgram | titantv/mxf_generator.py:43-51 | appends one Program with its id and eight texts, and changes nothing else |
| TitanMxf.AddEntries | titantv/mxf_generator.py:54-60 | appends ScheduleEntries with one ScheduleEntry per schedule item, in order |
| TitanMxf.AddEntry | titantv/mxf_generator.py:56-60 | appends one ScheduleEntry with Channel, Program, StartTime and EndTime texts |
| TitanMxf.MxfSections | titantv/mxf_generator.py:15-54 | the root holds exactly Lineups, Channels, Programs and ScheduleEntries, in order; one Channel per channel record; one Program and one ScheduleEntry per schedule item |
| TitanMxf.LineupLayout | titantv/mxf_generator.py:17-25 | Lineups holds one Lineup, id "1" and uid the lineupId, whose children are Name, TimeZone, UTCOffset, ObservesDaylightSaving |
| TitanMxf.DaylightText | titantv/mxf_generator.py:23-25 | a boolean observesDst is written "true" or "false" |
| TitanMxf.ChannelLayout | titantv/mxf_generator.py:29-38 | Channel i stands for channel record i, with id str(channelId), its eight children in order, and a Lineup text "1" that equals the Lineup's id |
| TitanMxf.HdText | titantv/mxf_generator.py:34 | a boolean hdCapable is written "true" or "false" |
| TitanMxf.EntryMatchesProgram | titantv/mxf_generator.py:42-60 | ScheduleEntry i's Program text is Program i's id; its Channel, StartTime and EndTime agree with Program i's, and the times are the item's |
| TitanMxf.ItemMatches | titantv/mxf_generator.py:43-60 | for one schedule item, the Program has its eight texts in order, the ScheduleEntry its four, and the entry's Program text is the Program's id while its Channel and times agree with the Program's |
| TitanMxf.RatingDefaults | titantv/mxf_generator.py:49-50 | an item without tvRating or showCard gets an empty TVRating or ShowCard text |

## Left out

- Network, credentials and files are not part of this model. This covers
  api_requests.py, fetch.py, auth.py, utils.py, main.py and the titantv api,
  auth, config, logger and utils modules, which only do HTTP, environment,
  clock and file I/O.
- `logging` calls and `summarize_listings` / `save_listings_to_file`
  (data_processing.py:38-57): logging is a no-op in the model, and the rest
  is file output.
- Processing.GenerateMxf: hands back the tree. The `nsmap` of the root
  (processing.py:151-154) and the serialisation to a string
  (processing.py:188-190) are lxml output details and are not modelled.
- Processing.GenerateMxf: takes no `lineup_info`, `channels` or
  `schedule_data`, because generate_mxf never reads them (processing.py:149).
  `add_schedule_entries_section` likewise takes no `schedule_data`.
- TitanMxf.GenerateMxf: the `xmlns` attribute of the root
  (titantv/mxf_generator.py:12) and the file write
  (titantv/mxf_generator.py:62-69) are not modelled, and `output_path` is
  dropped. The tree is handed back instead.
- TitanMxf.GenerateMxf: does not model lxml's rejection of text or attribute
  values holding characters XML forbids. Non-string values are excluded by
  the precondition.
- Processing.AddServicesSection, AddScheduleEntriesSection, AddLineupsSection,
  AddPeopleSection, AddSeriesInfosSection, AddProgramsSection, NewMxfRoot and
  GenerateMxf: do not model the ValueError lxml raises for an attribute value
  holding NUL or a control character (processing.py:45-146, 157-176). XML
  character validity is not modelled, so the model appends the element with
  that value where Python raises.
- Json.Str: does not escape quotes or backslashes inside the `repr` of
  strings nested in lists and dicts. Floats are not among the values, since
  the scripts only pass them through. A dict with a repeated key prints every
  pair, where the dict `json.loads` builds prints the key once, with its
  last value.
- Json.Lower: lowers ASCII letters only. In the model `lower()` is only ever
  applied to `str` of a value, and for booleans it gives the plain "true" or
  "false" (`Json.LowerBool`).
- Schedule.ListOrAbsent: also rejects an empty string or an empty dict under
  a walked key (`channels`, `days`, `events`, `castAndCrew`). Python iterates
  over those without error.
- Helper methods: each loop body that builds one element is a method of its
  own, so that its proof stays small. This covers
  Processing.AddScheduleEntry, FileEntry, OpenGroup, AppendEntry and
  OpenLineups, and TitanMxf.AddChannel, AddProgram, AddEntry and
  AddLineups. Each still performs the same `SubElement` calls in the same
  order.
- Loop bodies of the section builders are methods of their own for the same
  reason: Processing.AddService, AddScheduleEntries (with AddScheduleEntryAt),
  AddLineupChannel and AddPerson. The two branches of the `service_id not in
  schedule_entries_dict` test are Processing.FileNew and FileOld.
- Consecutive `SubElement` calls on one parent are grouped into methods of
  their own: Processing.AddWithSections for the three sections under With,
  TitanMxf.AddRecords for Channels, Programs and ScheduleEntries.
- Nested loops: each level of a channel > day > event walk is a method of its
  own. Extract.ExtractPrograms, Extract.ExtractScheduleEntries,
  Processing.ExtractListings and TitanProcessor.ProcessScheduleData share
  one walker
  (Schedule.WalkChannels, WalkDays, WalkEvents), handed the function that
  builds one record. Extract.ShowCardImages walks in ShowCardDays and
  ShowCardEvents. The innermost castAndCrew loops of
  Extract.ExtractPeopleAndRoles and Extract.ExtractCastAndCrew are
  AppendPeopleAndRoles and AppendCastRecords.
- Processing.ExtractListings: the `"days" in channel` and `"events" in day`
  guards followed by subscripts are walked as `.get(key, [])`.
  Processing.Guarded shows the two give the same lists for a dict; a list or
  string channel or day without the key gets no days or events in both.
- Processing.ListingShaped: requires `schedule_data["channels"]` and a
  channel's "days" to be lists. Python also iterates a string (its
  characters) or a dict (its keys) there. It requires the events to be
  dicts, though an empty string or dict would also be walked without error.
- Schedule.TurnedAway: a truthy number or `True` as the document makes the
  `in` test raise. So does a list holding the string "channels" or a string
  containing it, once the code goes on to `.get` or subscript it. The model
  excludes all of these by its precondition.
- Dict key order matters only for lookups. A record's later reordering or
  printing is not modelled.
