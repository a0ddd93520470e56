/** The Garoon groupware records the rescheduler reads and writes, and the
    Garoon client as an external collaborator: its queries are opaque
    functions fixed when the client is built, its event store is state. */
module Garoon {
  import opened Wrappers
  import opened Clock

  /** A meeting room. `code` is what the exclusion list is matched against. */
  datatype Facility = Facility(id: string, name: string, code: string, facilityGroup: string)

  datatype Attendee = Attendee(id: string, code: string)

  /** A schedule entry (a meeting). */
  datatype Event = Event(
    id: string,
    subject: string,
    start: Instant,
    end: Instant,
    isAllDay: bool,
    isStartOnly: bool,
    attendees: seq<Attendee>,
    facilities: seq<Facility>)

  /** One span to search in. */
  datatype DateTimePeriod = DateTimePeriod(start: Instant, end: Instant)

  /** One free slot returned by the availability search. */
  datatype AvailableTime = AvailableTime(start: Instant, end: Instant, facility: Facility)

  /** The request of the availability search. `timeInterval` is the meeting's
      length in minutes. */
  datatype AvailableTimeParameter = AvailableTimeParameter(
    timeRanges: seq<DateTimePeriod>,
    timeInterval: int,
    attendees: seq<Attendee>,
    facilities: seq<Facility>,
    facilitySearchCondition: string)

  /** The facility with only its ID set, as `garoon.Facility{ID: id}` builds it. */
  function FacilityWithId(id: string): (f: Facility)
    ensures f.id == id && f.name == "" && f.code == "" && f.facilityGroup == ""
  {
    Facility(id, "", "", "")
  }

  class Client {
    /** The events stored on the server, by ID. */
    var events: map<string, Event>
    /** Every event handed to UpdateEvent, in call order. */
    var updates: seq<Event>

    /** SearchAvailableTimes. */
    const availableTimes: AvailableTimeParameter -> Result<seq<AvailableTime>>
    /** GetFacilities with the single query parameter `name`. */
    const facilitiesByName: string -> Result<seq<Facility>>
    /** GetFacilitiesByFacilityGroup. */
    const facilitiesInGroup: string -> Result<seq<Facility>>
    /** SearchEvents with the parameter `keyword` (the others are fixed). */
    const eventsByKeyword: string -> Result<seq<Event>>
    /** Whether the server accepts an update of an existing event. */
    const acceptsUpdate: Event -> bool

    /** Every stored event is filed under its own ID. */
    ghost predicate Valid()
      reads this
    {
      forall id :: id in events ==> events[id].id == id
    }

    constructor (
      events: map<string, Event>,
      availableTimes: AvailableTimeParameter -> Result<seq<AvailableTime>>,
      facilitiesByName: string -> Result<seq<Facility>>,
      facilitiesInGroup: string -> Result<seq<Facility>>,
      eventsByKeyword: string -> Result<seq<Event>>,
      acceptsUpdate: Event -> bool)
      requires forall id :: id in events ==> events[id].id == id
      ensures Valid() && this.events == events && updates == []
      ensures this.availableTimes == availableTimes && this.facilitiesByName == facilitiesByName
      ensures this.facilitiesInGroup == facilitiesInGroup && this.eventsByKeyword == eventsByKeyword
      ensures this.acceptsUpdate == acceptsUpdate
    {
      this.events := events;
      this.updates := [];
      this.availableTimes := availableTimes;
      this.facilitiesByName := facilitiesByName;
      this.facilitiesInGroup := facilitiesInGroup;
      this.eventsByKeyword := eventsByKeyword;
      this.acceptsUpdate := acceptsUpdate;
    }

    /** FindEvent: the stored event, or an error when there is none. */
    function FindEvent(id: string): (r: Result<Event>)
      reads this
      requires Valid()
      ensures r.Ok? <==> id in events
      ensures r.Ok? ==> r.value == events[id] && r.value.id == id
    {
      if id in events then Ok(events[id]) else Err(Upstream("event not found"))
    }

    /** UpdateEvent: overwrites the stored event with the same ID, when the
        server accepts it. Every call is recorded, accepted or not. */
    method UpdateEvent(ev: Event) returns (r: Result<Event>)
      requires Valid()
      modifies this
      ensures Valid()
      ensures updates == old(updates) + [ev]
      ensures r.Ok? <==> ev.id in old(events) && acceptsUpdate(ev)
      ensures r.Ok? ==> r.value == ev && events == old(events)[ev.id := ev]
      ensures r.Err? ==> events == old(events)
    {
      updates := updates + [ev];
      if ev.id in events && acceptsUpdate(ev) {
        events := events[ev.id := ev];
        r := Ok(ev);
      } else {
        r := Err(Upstream("update rejected"));
      }
    }
  }
}
