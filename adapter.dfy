/** TimeEntryAdapter: the conversions between the tracker's time entry and the
    data layer's. Both records carry the same seven fields, so both are the
    one TimeEntry datatype; the conversions differ only in ProjectName. */
module Adapter {
  import opened Common

  /** The six fields the two conversions copy. */
  predicate SameCore(a: TimeEntry, b: TimeEntry)
  {
    a.id == b.id && a.startTime == b.startTime && a.endTime == b.endTime &&
    a.windowTitle == b.windowTitle && a.applicationName == b.applicationName &&
    a.projectId == b.projectId
  }

  /** ConvertToDataModel: copies the six core fields; ProjectName is not set. */
  function ConvertToDataModel(trackingEntry: TimeEntry): (r: TimeEntry)
    ensures SameCore(r, trackingEntry)
    ensures r.projectName.None?
  {
    TimeEntry(trackingEntry.id, trackingEntry.startTime, trackingEntry.endTime,
              trackingEntry.windowTitle, trackingEntry.applicationName,
              trackingEntry.projectId, None)
  }

  /** ConvertToTrackingModel: copies the six core fields and ProjectName. */
  function ConvertToTrackingModel(dataEntry: TimeEntry): (r: TimeEntry)
    ensures SameCore(r, dataEntry)
    ensures r.projectName == dataEntry.projectName
  {
    TimeEntry(dataEntry.id, dataEntry.startTime, dataEntry.endTime,
              dataEntry.windowTitle, dataEntry.applicationName,
              dataEntry.projectId, dataEntry.projectName)
  }

  /** Tracking -> Data -> Tracking keeps every field but ProjectName, which is
      lost; the round trip is the identity exactly on entries without a name. */
  lemma TrackingRoundTrip(e: TimeEntry)
    ensures ConvertToTrackingModel(ConvertToDataModel(e)) == e.(projectName := None)
    ensures ConvertToTrackingModel(ConvertToDataModel(e)) == e <==> e.projectName.None?
  {
  }

  /** Data -> Tracking -> Data keeps every field but ProjectName, which is lost. */
  lemma DataRoundTrip(e: TimeEntry)
    ensures ConvertToDataModel(ConvertToTrackingModel(e)) == e.(projectName := None)
    ensures ConvertToDataModel(ConvertToTrackingModel(e)) == e <==> e.projectName.None?
  {
  }
}
