/** The current-trip card of src/pages/DriverDashboard.tsx: one boolean cell, `tripActive`. */
module DriverDashboard {

  /** What the card body shows. */
  datatype TripCard = RouteDetails | NoActiveTrip

  /** The status badge. */
  function TripBadge(active: bool): (s: string)
    ensures s == "\U{25CF} Active" <==> active
    ensures s == "Idle" <==> !active
  {
    if active then "\U{25CF} Active" else "Idle"
  }

  /** The button caption. */
  function TripButtonLabel(active: bool): (s: string)
    ensures s == "End Trip" <==> active
    ensures s == "Start Trip" <==> !active
  {
    if active then "End Trip" else "Start Trip"
  }

  /** Route details are on the card exactly while a trip is active. */
  function TripCardContent(active: bool): (c: TripCard)
    ensures c == RouteDetails <==> active
  {
    if active then RouteDetails else NoActiveTrip
  }

  class TripPanel {
    var tripActive: bool

    /** The trip starts idle. */
    constructor ()
      ensures !tripActive
    {
      tripActive := false;
    }

    /** `setTripActive(!tripActive)` */
    method PressTripButton()
      modifies this
      ensures tripActive == !old(tripActive)
    {
      tripActive := !tripActive;
    }
  }

  /** Pressing the button twice restores the trip state and what the card shows. */
  method PressTwice(p: TripPanel)
    modifies p
    ensures p.tripActive == old(p.tripActive)
    ensures TripBadge(p.tripActive) == old(TripBadge(p.tripActive))
  {
    p.PressTripButton();
    p.PressTripButton();
  }
}
