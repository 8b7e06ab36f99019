/** The in-memory store of the dashboard: the shipment, flight and activity
    arrays that the page handlers change in place or replace, and the write-through to
    browser storage after every change. */
module Store {

  import opened Records
  import opened Text
  import opened Codes
  import opened Shipments
  import opened Flights
  import opened Tracking
  import opened ActivityLog
  import opened SeedData

  /** The payload written under the storage key. */
  datatype Snapshot = Snapshot(shipments: seq<Shipment>, flights: seq<Flight>, activity: seq<Entry>)

  /** A stored payload after decoding; a part that is absent (or falsy) is None. */
  datatype Payload = Payload(shipments: Option<seq<Shipment>>, flights: Option<seq<Flight>>, activity: Option<seq<Entry>>)

  class Store {
    var shipments: seq<Shipment>
    var flights: seq<Flight>
    var activity: seq<Entry>
    /** What sits under the storage key; None until the first write. */
    var stored: Option<Snapshot>

    function Current(): Snapshot
      reads this
    {
      Snapshot(shipments, flights, activity)
    }

    /** The state at page load: copies of the seed lists and an empty feed. */
    constructor ()
      ensures shipments == SeedShipments && flights == SeedFlights && activity == []
      ensures stored == None
      ensures Consistent(shipments)
    {
      shipments := SeedShipments;
      flights := SeedFlights;
      activity := [];
      stored := None;
      SeedConsistent();
    }

    /** `persist`: write the whole state under the storage key. */
    method Persist()
      modifies this`stored
      ensures stored == Some(Current())
    {
      stored := Some(Snapshot(shipments, flights, activity));
    }

    /** `loadPersist`, given the decoded payload (None when the key is missing or
        the payload does not parse): each part present replaces the one in memory. */
    method LoadPersist(decoded: Option<Payload>)
      modifies this`shipments, this`flights, this`activity
      ensures decoded.None? ==> Current() == old(Current())
      ensures decoded.Some? ==>
        && shipments == (if decoded.value.shipments.Some? then decoded.value.shipments.value else old(shipments))
        && flights == (if decoded.value.flights.Some? then decoded.value.flights.value else old(flights))
        && activity == (if decoded.value.activity.Some? then decoded.value.activity.value else old(activity))
    {
      if decoded.Some? {
        var parsed := decoded.value;
        if parsed.shipments.Some? {
          shipments := parsed.shipments.value;
        }
        if parsed.flights.Some? {
          flights := parsed.flights.value;
        }
        if parsed.activity.Some? {
          activity := parsed.activity.value;
        }
      }
    }

    /** `pushActivity`: the new line goes in front, the feed keeps at most 200
        lines if it had at most 200, and the state is written out. */
    method PushActivity(now: string, text: string)
      modifies this`activity, this`stored
      ensures activity == Pushed(old(activity), Entry(now, text))
      ensures |old(activity)| <= MaxEntries ==> |activity| <= MaxEntries
      ensures stored == Some(Current())
    {
      activity := [Entry(now, text)] + activity;
      if |activity| > MaxEntries {
        activity := activity[..|activity| - 1];
      }
      Persist();
    }

    /** The "clear feed" button. */
    method ClearActivity()
      modifies this`activity, this`stored
      ensures activity == [] && stored == Some(Current())
    {
      activity := [];
      Persist();
    }

    /** The "new shipment" button: a fresh id, its default tracking code, status
        Pending and one history line, inserted at the front. */
    method CreateShipment(now: string) returns (s: Shipment)
      modifies this`shipments, this`activity, this`stored
      ensures s == NewShipment(NextId(old(shipments)), now)
      ensures forall x :: x in old(shipments) ==> x.id < s.id
      ensures shipments == [s] + old(shipments) && shipments == WithNewShipment(old(shipments), now)
      ensures activity == Pushed(old(activity), Entry(now, "Shipment " + s.tracking + " created"))
      ensures Consistent(old(shipments)) ==> Consistent(shipments)
      ensures stored == Some(Current())
    {
      var newId := NextId(shipments);
      var defaultTracking := TrackingCode(newId);
      s := Shipment(newId, "New Sender", "New Recipient", defaultTracking, StatusPending, None, "", "", 0,
                    [Entry(now, "Shipment created")]);
      shipments := [s] + shipments;
      PushActivity(now, "Shipment " + s.tracking + " created");
      Persist();
      if Consistent(old(shipments)) {
        CreateKeepsConsistent(old(shipments), now);
      }
    }

    /** The "new flight" button, given the random draw `n` in [100, 999] and the
        departure and arrival stamps. No check that the number is unused. */
    method CreateFlight(n: int, now: string, etd: string, eta: string) returns (f: Flight)
      requires 100 <= n <= 999
      modifies this`flights, this`activity, this`stored
      ensures f == NewFlight(n, etd, eta) && f.flightNumber == FlightNumber(n)
      ensures flights == [f] + old(flights)
      ensures activity == Pushed(old(activity), Entry(now, "Flight " + f.flightNumber + " created"))
      ensures stored == Some(Current())
    {
      var newId := "HM" + IntToString(n);
      f := Flight(newId, newId, "LHR", "CDG", etd, eta, [], FlightUpcoming);
      flights := [f] + flights;
      PushActivity(now, "Flight " + f.flightNumber + " created");
      Persist();
    }

    /** The delete button of the shipment dialog, for the shipment at `k`: every
        record with its id goes; flights keep their assigned ids. */
    method DeleteShipment(k: nat, now: string)
      requires k < |shipments|
      modifies this`shipments, this`activity, this`stored
      ensures shipments == WithoutId(old(shipments), old(shipments)[k].id)
      ensures IdsDistinct(old(shipments)) ==> |shipments| == |old(shipments)| - 1
      ensures activity == Pushed(old(activity), Entry(now, "Shipment " + old(shipments)[k].tracking + " deleted"))
      ensures Consistent(old(shipments)) ==> Consistent(shipments)
      ensures stored == Some(Current())
    {
      var viewed := shipments[k];
      shipments := WithoutId(shipments, viewed.id);
      PushActivity(now, "Shipment " + viewed.tracking + " deleted");
      Persist();
      if IdsDistinct(old(shipments)) {
        WithoutIdRemovesOne(old(shipments), k);
      }
      if Consistent(old(shipments)) {
        DeleteKeepsConsistent(old(shipments), viewed.id);
      }
    }

    /** `HM.deleteShipment(id)`: as above, for any id, present or not. */
    method AdminDeleteShipment(id: int, now: string)
      modifies this`shipments, this`activity, this`stored
      ensures shipments == WithoutId(old(shipments), id)
      ensures (forall x :: x in old(shipments) ==> x.id != id) ==> shipments == old(shipments)
      ensures activity == Pushed(old(activity), Entry(now, "Shipment " + IntToString(id) + " deleted"))
      ensures stored == Some(Current())
    {
      shipments := WithoutId(shipments, id);
      PushActivity(now, "Shipment " + IntToString(id) + " deleted");
      Persist();
      if forall x :: x in old(shipments) ==> x.id != id {
        WithoutAbsentId(old(shipments), id);
      }
    }

    /** `HM.addShipment(obj)`: inserted in front as given, with no check on its id
        or tracking code. */
    method AdminAddShipment(obj: Shipment, now: string)
      modifies this`shipments, this`activity, this`stored
      ensures shipments == [obj] + old(shipments)
      ensures activity == Pushed(old(activity), Entry(now, "Shipment " + obj.tracking + " added"))
      ensures stored == Some(Current())
    {
      shipments := [obj] + shipments;
      PushActivity(now, "Shipment " + obj.tracking + " added");
      Persist();
    }

    /** The save button of the edit form, for the shipment at `k`. */
    method SaveEdit(k: nat, senderIn: string, recipientIn: string, flightIn: string,
                    weightKg: int, status: string, now: string)
      requires k < |shipments|
      modifies this`shipments, this`activity, this`stored
      ensures shipments == old(shipments)[k := Edited(old(shipments)[k], senderIn, recipientIn, flightIn, weightKg, status, now)]
      ensures activity == Pushed(old(activity), Entry(now, "Shipment " + old(shipments)[k].tracking + " updated"))
      ensures Consistent(old(shipments)) ==> Consistent(shipments)
      ensures stored == Some(Current())
    {
      var s := shipments[k];
      var flight := Trim(flightIn);
      s := s.(sender := Trim(senderIn), recipient := Trim(recipientIn));
      s := s.(flight := if flight == "" then None else Some(flight), weightKg := weightKg);
      if s.status != status {
        s := s.(status := status);
        s := s.(history := s.history + [Entry(now, "Status changed to " + status)]);
      }
      shipments := shipments[k := s];
      PushActivity(now, "Shipment " + s.tracking + " updated");
      Persist();
      if Consistent(old(shipments)) {
        EditKeepsConsistent(old(shipments), k, senderIn, recipientIn, flightIn, weightKg, status, now);
      }
    }

    /** One tick of the tracking simulation for the shipment at `k`. It returns
        false, changing nothing, when the shipment is already Delivered (the timer
        is then cleared). */
    method TrackTick(k: nat, now: string) returns (running: bool)
      requires k < |shipments|
      modifies this`shipments, this`activity, this`stored
      ensures running <==> old(shipments)[k].status != StatusDelivered
      ensures shipments == old(shipments)[k := Ticked(old(shipments)[k], now)]
      ensures running ==> Rank(shipments[k].status) == Rank(old(shipments)[k].status) + 1
      ensures running ==> activity == Pushed(old(activity),
        Entry(now, "Tracking " + old(shipments)[k].tracking + " status \U{2192} " + shipments[k].status))
      ensures running ==> stored == Some(Current())
      ensures !running ==> activity == old(activity) && stored == old(stored)
      ensures Consistent(old(shipments)) ==> Consistent(shipments)
    {
      var s := shipments[k];
      var idx := Rank(s.status);
      if idx < 2 {
        var next := StatusOrder[idx + 1];
        s := s.(status := next);
        s := s.(history := s.history + [Entry(now, "Status updated to " + next)]);
        shipments := shipments[k := s];
        PushActivity(now, "Tracking " + s.tracking + " status \U{2192} " + next);
        Persist();
        running := true;
      } else {
        running := false;
      }
      if Consistent(old(shipments)) {
        TickKeepsConsistent(old(shipments), k, now);
      }
    }
  }
}
