/** The records the dashboard keeps in memory: shipments, flights and the
    timestamped lines used both for a shipment's history and for the activity feed. */
module Records {

  datatype Option<+T> = None | Some(value: T)

  datatype Result<+R, +E> = Success(value: R) | Failure(error: E)

  /** A history or activity line: an ISO-8601 timestamp (kept opaque) and a text. */
  datatype Entry = Entry(time: string, text: string)

  /** A shipment. `flight` is null in the source when no flight is set. */
  datatype Shipment = Shipment(
    id: int,
    sender: string,
    recipient: string,
    tracking: string,
    status: string,
    flight: Option<string>,
    origin: string,
    destination: string,
    weightKg: int,
    history: seq<Entry>)

  /** A flight; `assignedIds` (the source's `assigned`) holds shipment ids (a back-reference, never cleaned up). */
  datatype Flight = Flight(
    id: string,
    flightNumber: string,
    origin: string,
    destination: string,
    etd: string,
    eta: string,
    assignedIds: seq<int>,
    status: string)

  // The three shipment statuses, in the order the tracking simulation walks them.
  const StatusPending: string := "Pending"
  const StatusInTransit: string := "In Transit"
  const StatusDelivered: string := "Delivered"
  const StatusOrder: seq<string> := [StatusPending, StatusInTransit, StatusDelivered]

  // Flight statuses used by the seed data and the flight form.
  const FlightUpcoming: string := "Upcoming"
  const FlightActive: string := "Active"
  const FlightCompleted: string := "Completed"
}
