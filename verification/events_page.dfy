/**
 * The masterclass list (src/pages/EventsPage.tsx): the registration toggle, the live event
 * shown on top and the upcoming list under it.
 */
module EventsPage {
  import opened Optional
  import opened JsArray

  /** A masterclass; absent `live` and `registered` flags are `false`. */
  datatype MasterclassEvent = MasterclassEvent(
    id: string, title: string, speaker: string, date: string, time: string,
    live: bool, registered: bool)

  /** `liveEvent`: the first live event, or none when no event is live. */
  function LiveEvent(events: seq<MasterclassEvent>): (r: Option<MasterclassEvent>)
    ensures r.None? <==> forall i :: 0 <= i < |events| ==> !events[i].live
    ensures r.Some? ==> exists i :: 0 <= i < |events| && events[i] == r.value && r.value.live
                                  && forall j :: 0 <= j < i ==> !events[j].live
  {
    Find(events, (e: MasterclassEvent) => e.live)
  }

  /** `upcoming`: the events that are not live, in order. */
  function Upcoming(events: seq<MasterclassEvent>): (r: seq<MasterclassEvent>)
    ensures forall e :: e in r <==> e in events && !e.live
  {
    Filter(events, (e: MasterclassEvent) => !e.live)
  }

  /** The live event is never listed again among the upcoming ones. */
  lemma LiveEventNotUpcoming(events: seq<MasterclassEvent>)
    ensures LiveEvent(events).Some? ==> LiveEvent(events).value !in Upcoming(events)
  {
  }

  /** Every event is either live or upcoming: the two filters split the list between them. */
  lemma {:induction false} UpcomingCount(events: seq<MasterclassEvent>)
    ensures |Upcoming(events)| + |Filter(events, (e: MasterclassEvent) => e.live)| == |events|
    decreases |events|
  {
    if events != [] {
      UpcomingCount(events[1..]);
    }
  }
}
