/** The flight operations of the dashboard: the record the "new flight" button
    builds and lookup by flight number. */
module Flights {

  import opened Records
  import opened Seqs
  import opened Text
  import opened Codes

  /** The flight a "new flight" click inserts; `n` is the random draw in [100, 999]
      and `etd`/`eta` the timestamps 24 and 26 hours from now. */
  function NewFlight(n: int, etd: string, eta: string): (f: Flight)
    requires 100 <= n <= 999
    ensures f.flightNumber == FlightNumber(n) && f.id == f.flightNumber
    ensures |f.flightNumber| == 5 && f.flightNumber[..2] == "HM"
    ensures AllDigits(f.flightNumber[2..]) && ParseDigits(f.flightNumber[2..]) == n
    ensures f.assignedIds == [] && f.status == FlightUpcoming
    ensures f.origin == "LHR" && f.destination == "CDG" && f.etd == etd && f.eta == eta
  {
    FlightNumberShape(n);
    Flight(FlightNumber(n), FlightNumber(n), "LHR", "CDG", etd, eta, [], FlightUpcoming)
  }

  function HasNumber(number: string): Flight -> bool
  {
    (f: Flight) => f.flightNumber == number
  }

  function HasFlightStatus(status: string): Flight -> bool
  {
    (f: Flight) => f.status == status
  }

  /** `flights.find(x => x.flightNumber === number)`, as the position of the first hit. */
  function FindFlight(fs: seq<Flight>, number: string): (r: Option<nat>)
    ensures r.Some? ==> r.value < |fs| && fs[r.value].flightNumber == number
    ensures r.Some? ==> forall j :: 0 <= j < r.value ==> fs[j].flightNumber != number
    ensures r.None? <==> forall f :: f in fs ==> f.flightNumber != number
  {
    FirstIndex(fs, HasNumber(number))
  }
}
