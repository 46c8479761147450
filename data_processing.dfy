/**
  data_processing.py: the stand-alone copy of the listing extractor. Its
  `extract_listings` (data_processing.py:3-36) is the same code as the one in
  processing.py (processing.py:8-41), line for line, so it runs that model.
 */
module DataProcessing {
  import opened Json
  import opened Seqs
  import opened Schedule
  import Processing

  /** One listing per event, channel by channel and day by day, or none for a
      falsy document or one without "channels": the same listings as
      processing.py's extractor on every input. */
  method ExtractListings(scheduleData: Value) returns (listings: seq<Processing.Listing>)
    requires Processing.ListingShaped(scheduleData)
    ensures listings == Processing.Listings(scheduleData)
    ensures !Truthy(scheduleData) || !Has(scheduleData, "channels") ==> listings == []
    ensures |listings| == |Occurrences(scheduleData)|
    ensures forall k :: 0 <= k < |listings| ==> listings[k] == Processing.ListingOf(Occurrences(scheduleData)[k])
  {
    listings := Processing.ExtractListings(scheduleData);
  }
}
