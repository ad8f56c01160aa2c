/**
 * The directory as the running service holds it: the fixed tables of cancelled
 * flights and their alternatives, the live alternative flights whose seat
 * counts go down as bookings are made, and the bookings table.
 */
module Directory {
  import opened Text
  import opened FlightTables
  import opened FlightData

  /**
   * The module-level tables of the source as one object: the alternative
   * flights (whose seat counts change) and the bookings table.
   */
  class FlightDirectory {
    const cancelledFlights: map<string, CancelledFlight>
    const flightAlternativesMap: map<string, seq<string>>
    var alternativeFlights: map<string, AlternativeFlight>
    var bookingsDatabase: map<string, Booking>

    /**
     * The tables agree with each other, no seat count is negative, and each
     * booking sits under its own well-formed code, is confirmed and names an
     * alternative flight.
     */
    ghost predicate Valid()
      reads this
    {
      && TablesAgree(cancelledFlights, flightAlternativesMap, alternativeFlights)
      && (forall k :: k in alternativeFlights ==> alternativeFlights[k].availableSeats >= 0)
      && BookingsNameFlights(bookingsDatabase, alternativeFlights)
      && BookingsWellKeyed(bookingsDatabase)
    }

    /** The tables as the module defines them, with no bookings yet. */
    constructor()
      ensures Valid()
      ensures cancelledFlights == CancelledFlights && flightAlternativesMap == FlightAlternativesMap
      ensures alternativeFlights == InitialAlternativeFlights && bookingsDatabase == map[]
    {
      cancelledFlights := CancelledFlights;
      flightAlternativesMap := FlightAlternativesMap;
      alternativeFlights := InitialAlternativeFlights;
      bookingsDatabase := map[];
      new;
      InitialTablesAgree();
      RecordsKeyed();
    }

    /** The ids listed for a cancelled flight, or none (the dict's get with a default). */
    function AlternativeIds(cancelled: string): seq<string>
      reads this
    {
      if cancelled in flightAlternativesMap then flightAlternativesMap[cancelled] else []
    }

    /**
     * get_flight_status: the cancelled record if the normalised id is cancelled,
     * otherwise the alternative record with its current seat count, otherwise
     * an error naming the id.
     */
    function GetFlightStatus(flightNumber: string): (r: StatusResult)
      reads this
      requires Valid()
      ensures var n := NormalizeFlightNumber(flightNumber);
        && (r.StatusFound? <==> n in cancelledFlights || n in alternativeFlights)
        && (r.StatusFound? ==> r.flight.Number() == n)
        && (r.StatusFound? ==> (r.flight.CancelledRecord? <==> n in cancelledFlights))
        && (r.StatusFound? ==> r.flight == if n in cancelledFlights then CancelledRecord(cancelledFlights[n])
                                           else AlternativeRecord(alternativeFlights[n]))
        && (r.StatusNotFound? ==> r.error == "Vuelo " + n + " no encontrado en el sistema")
    {
      var n := NormalizeFlightNumber(flightNumber);
      if n in cancelledFlights then StatusFound(CancelledRecord(cancelledFlights[n]))
      else if n in alternativeFlights then StatusFound(AlternativeRecord(alternativeFlights[n]))
      else StatusNotFound("Vuelo " + n + " no encontrado en el sistema")
    }

    /**
     * find_alternatives: an error iff the normalised id is not a cancelled
     * flight; otherwise the cancelled record, the current records of its
     * listed alternatives in list order, and their count.
     */
    function FindAlternatives(cancelledFlightNumber: string): (r: AlternativesResult)
      reads this
      requires Valid()
      ensures var n := NormalizeFlightNumber(cancelledFlightNumber);
        && (r.AlternativesNotFound? <==> n !in cancelledFlights)
        && (r.AlternativesNotFound? ==> r.error == "El vuelo " + n + " no está en la lista de cancelados")
        && (r.AlternativesFound? ==>
              && r.originalFlight == cancelledFlights[n]
              && r.count == |r.alternatives| == |AlternativeIds(n)|
              && forall i :: 0 <= i < |r.alternatives| ==>
                   AlternativeIds(n)[i] in alternativeFlights && r.alternatives[i] == alternativeFlights[AlternativeIds(n)[i]])
    {
      var n := NormalizeFlightNumber(cancelledFlightNumber);
      if n !in cancelledFlights then
        AlternativesNotFound("El vuelo " + n + " no está en la lista de cancelados")
      else
        var ids := AlternativeIds(n);
        var table := alternativeFlights;
        var alternatives := seq(|ids|, i requires 0 <= i < |ids| => table[ids[i]]);
        AlternativesFound(cancelledFlights[n], alternatives, |alternatives|)
    }

    /** There is at least one alternative, and each is the live record of a bookable flight. */
    lemma AlternativesAreBookable(cancelledFlightNumber: string)
      requires Valid()
      ensures var r := FindAlternatives(cancelledFlightNumber);
        r.AlternativesFound? ==> r.count > 0 && forall i :: 0 <= i < |r.alternatives| ==>
          && r.alternatives[i].number in alternativeFlights
          && alternativeFlights[r.alternatives[i].number] == r.alternatives[i]
    {
    }

    /** A cancelled flight can never be booked, whatever case or spacing its id is written in. */
    lemma CancelledFlightCannotBeBooked(passengerName: string, flightNumber: string, draw: nat, now: Timestamp)
      requires Valid()
      requires NormalizeFlightNumber(flightNumber) in cancelledFlights
      ensures Book(alternativeFlights, bookingsDatabase, passengerName, flightNumber, draw, now).result
        == BookingFailed("El vuelo " + NormalizeFlightNumber(flightNumber) + " no está disponible para reservar")
    {
    }

    /**
     * create_booking: the tables change exactly as Book says, the directory
     * stays valid, and a new booking is found under its code afterwards.
     */
    method CreateBooking(passengerName: string, flightNumber: string, draw: int, now: Timestamp) returns (r: BookingResult)
      requires Valid()
      requires 100000 <= draw <= 999999
      modifies this
      ensures Valid()
      ensures BookingStep(r, alternativeFlights, bookingsDatabase)
        == Book(old(alternativeFlights), old(bookingsDatabase), passengerName, flightNumber, draw, now)
      ensures r.BookingCreated? ==> GetBooking(r.booking.confirmationCode) == BookingFound(r.booking, r.flightDetails)
    {
      var n := NormalizeFlightNumber(flightNumber);
      if n !in alternativeFlights {
        BookRefuses(alternativeFlights, bookingsDatabase, passengerName, flightNumber, draw, now);
        return BookingFailed("El vuelo " + n + " no está disponible para reservar");
      }
      var flight := alternativeFlights[n];
      if flight.availableSeats <= 0 {
        BookRefuses(alternativeFlights, bookingsDatabase, passengerName, flightNumber, draw, now);
        return BookingFailed("No hay asientos disponibles en el vuelo " + n);
      }
      BookCreates(alternativeFlights, bookingsDatabase, passengerName, flightNumber, draw, now);
      SeatTakenKeepsTablesAgreeing(cancelledFlights, flightAlternativesMap, alternativeFlights, n);
      var code := ConfirmationCode(draw);
      var booking := Booking(code, passengerName, n, now, "CONFIRMED");
      NewBookingKeepsBookingsWellKeyed(bookingsDatabase, draw, booking);
      bookingsDatabase := bookingsDatabase[code := booking];
      alternativeFlights := alternativeFlights[n := flight.(availableSeats := flight.availableSeats - 1)];
      r := BookingCreated(booking, alternativeFlights[n]);
    }

    /**
     * get_booking: found exactly for a key of the bookings table, compared as
     * given; the flight details are the flight's current record.
     */
    function GetBooking(confirmationCode: string): (r: LookupResult)
      reads this
      requires Valid()
      ensures r.BookingFound? <==> confirmationCode in bookingsDatabase
      ensures r.BookingFound? ==>
        && r.booking == bookingsDatabase[confirmationCode]
        && r.booking.confirmationCode == confirmationCode
        && r.flightDetails == alternativeFlights[r.booking.flightNumber]
      ensures r.BookingNotFound? ==> r.error == "No se encontró reserva con código " + confirmationCode
    {
      FindBooking(bookingsDatabase, alternativeFlights, confirmationCode)
    }

    /**
     * Codes are not normalised: anything that is not exactly ITTI- and six
     * digits (lower case, surrounding spaces) is never found, and every stored
     * code comes from a draw in 100000..999999.
     */
    lemma LookupIsExact(confirmationCode: string)
      requires Valid()
      ensures !IsConfirmationCode(confirmationCode) ==> GetBooking(confirmationCode).BookingNotFound?
      ensures GetBooking(confirmationCode).BookingFound? ==>
        var d := ParseDecimal(confirmationCode[5..]);
        100000 <= d <= 999999 && ConfirmationCode(d) == confirmationCode
    {
      if confirmationCode in bookingsDatabase {
        ConfirmationCodeOnto(confirmationCode);
      }
    }

    /** The booking's flight record reports the booked flight and its current seat count. */
    lemma BookedFlightDetails(confirmationCode: string)
      requires Valid()
      ensures var r := GetBooking(confirmationCode);
        r.BookingFound? ==> r.flightDetails.number == r.booking.flightNumber && r.flightDetails.availableSeats >= 0
    {
    }
  }
}
