/**
 * The mock airline directory: the cancelled flights, the alternative flights
 * with their seat counts, the map from each cancelled flight to its
 * alternatives, and the bookings table that fills up as passengers rebook.
 * Lookups normalise the flight id with upper() then strip(); bookings are
 * looked up by their exact code.
 */
module FlightData {
  import opened Text
  import opened FlightTables

  /** The clock reading stored as the booking date, given by the caller. */
  type Timestamp = string

  /** A record found by flight id: either table may answer. */
  datatype FlightRecord =
    | CancelledRecord(cancelled: CancelledFlight)
    | AlternativeRecord(alternative: AlternativeFlight)
  {
    function Number(): string {
      match this
      case CancelledRecord(c) => c.number
      case AlternativeRecord(a) => a.number
    }
  }

  datatype StatusResult = StatusFound(flight: FlightRecord) | StatusNotFound(error: string)

  datatype AlternativesResult =
    | AlternativesFound(originalFlight: CancelledFlight, alternatives: seq<AlternativeFlight>, count: nat)
    | AlternativesNotFound(error: string)

  /**
   * A stored booking. It names its flight by id; the flight details shown with
   * it are read from the live alternatives table, as the source shares one
   * record between the two.
   */
  datatype Booking = Booking(
    confirmationCode: string, passengerName: string, flightNumber: string,
    bookingDate: Timestamp, status: string)

  datatype BookingResult =
    | BookingCreated(booking: Booking, flightDetails: AlternativeFlight)
    | BookingFailed(error: string)

  datatype LookupResult =
    | BookingFound(booking: Booking, flightDetails: AlternativeFlight)
    | BookingNotFound(error: string)

  /** The outcome of a booking attempt together with both tables afterwards. */
  datatype BookingStep = BookingStep(
    result: BookingResult,
    alternativeFlights: map<string, AlternativeFlight>,
    bookings: map<string, Booking>)

  /** upper() followed by strip(), as applied to every flight id before a lookup. */
  function NormalizeFlightNumber(s: string): string {
    Strip(Upper(s))
  }

  /** Normalising an already normalised id changes nothing. */
  lemma NormalizeIdempotent(s: string)
    ensures NormalizeFlightNumber(NormalizeFlightNumber(s)) == NormalizeFlightNumber(s)
  {
    var n := Strip(Upper(s));
    var k :| OccursAt(Upper(s), n, k);
    UpperSliceIsUpper(s, n, k);
    StripFixed(n);
  }

  /** Lower-casing an id first does not change its normal form. */
  lemma NormalizeIgnoresCase(s: string)
    ensures NormalizeFlightNumber(Lower(s)) == NormalizeFlightNumber(s)
  {
    forall i | 0 <= i < |s|
      ensures UpperChar(LowerChar(s[i])) == UpperChar(s[i])
    {
    }
    assert Upper(Lower(s)) == Upper(s);
  }

  /** The code printed as ITTI- followed by the random draw. */
  function ConfirmationCode(draw: nat): (r: string)
    ensures |r| > 5 && r[..5] == "ITTI-"
  {
    "ITTI-" + DecimalString(draw)
  }

  /** ITTI- and six decimal digits, the first of them not zero. */
  predicate IsConfirmationCode(code: string) {
    && |code| == 11
    && code[..5] == "ITTI-"
    && (forall i :: 5 <= i < 11 ==> '0' <= code[i] <= '9')
    && code[5] != '0'
  }

  /** A draw from 100000..999999 gives a well-formed code that reads back as the draw. */
  lemma ConfirmationCodeFormat(draw: nat)
    requires 100000 <= draw <= 999999
    ensures IsConfirmationCode(ConfirmationCode(draw))
    ensures ParseDecimal(ConfirmationCode(draw)[5..]) == draw
  {
    assert Pow10(5) == 100000;
    DecimalStringLength(draw, 5);
    ParseDecimalString(draw);
    assert ConfirmationCode(draw)[5..] == DecimalString(draw);
  }

  /** Different draws give different codes. */
  lemma ConfirmationCodeInjective(d1: nat, d2: nat)
    requires ConfirmationCode(d1) == ConfirmationCode(d2)
    ensures d1 == d2
  {
    assert ConfirmationCode(d1)[5..] == DecimalString(d1);
    assert ConfirmationCode(d2)[5..] == DecimalString(d2);
    ParseDecimalString(d1);
    ParseDecimalString(d2);
  }

  /** A digit string without a leading zero has a value of at least 10^(length-1). */
  lemma {:induction false} ParseDecimalBounds(s: string)
    requires s != [] && forall i :: 0 <= i < |s| ==> '0' <= s[i] <= '9'
    requires s[0] != '0'
    ensures Pow10(|s| - 1) <= ParseDecimal(s) < Pow10(|s|)
  {
    if |s| > 1 {
      var front := s[..|s| - 1];
      assert front[0] == s[0];
      ParseDecimalBounds(front);
    }
  }

  /** Reading then printing a digit string without leading zero gives it back. */
  lemma {:induction false} DecimalStringParse(s: string)
    requires s != [] && forall i :: 0 <= i < |s| ==> '0' <= s[i] <= '9'
    requires |s| > 1 ==> s[0] != '0'
    ensures DecimalString(ParseDecimal(s)) == s
  {
    if |s| > 1 {
      var front := s[..|s| - 1];
      assert front[0] == s[0];
      ParseDecimalBounds(front);
      DecimalStringParse(front);
      var n := ParseDecimal(s);
      assert n / 10 == ParseDecimal(front);
      assert s == front + [s[|s| - 1]];
    }
  }

  /** Every well-formed code is the code of exactly one draw from 100000..999999. */
  lemma ConfirmationCodeOnto(code: string)
    requires IsConfirmationCode(code)
    ensures 100000 <= ParseDecimal(code[5..]) <= 999999
    ensures ConfirmationCode(ParseDecimal(code[5..])) == code
  {
    var digits := code[5..];
    assert digits[0] == code[5];
    ParseDecimalBounds(digits);
    assert Pow10(5) == 100000 && Pow10(6) == 1000000;
    DecimalStringParse(digits);
    assert code == code[..5] + digits;
  }

  /** The seat table after one seat of flight n is taken; nothing else in it changes. */
  function WithSeatTaken(alternativeFlights: map<string, AlternativeFlight>, n: string): map<string, AlternativeFlight>
    requires n in alternativeFlights
  {
    alternativeFlights[n := alternativeFlights[n].(availableSeats := alternativeFlights[n].availableSeats - 1)]
  }

  /**
   * create_booking on the two tables: the normalised id must be an alternative
   * flight with a free seat; then the booking is stored under its code
   * (replacing any booking already there) and one seat is taken.
   */
  function Book(alternativeFlights: map<string, AlternativeFlight>, bookings: map<string, Booking>,
                passengerName: string, flightNumber: string, draw: nat, now: Timestamp): BookingStep
  {
    var n := NormalizeFlightNumber(flightNumber);
    if n !in alternativeFlights then
      BookingStep(BookingFailed("El vuelo " + n + " no está disponible para reservar"), alternativeFlights, bookings)
    else if alternativeFlights[n].availableSeats <= 0 then
      BookingStep(BookingFailed("No hay asientos disponibles en el vuelo " + n), alternativeFlights, bookings)
    else
      var booking := Booking(ConfirmationCode(draw), passengerName, n, now, "CONFIRMED");
      var seats := WithSeatTaken(alternativeFlights, n);
      BookingStep(BookingCreated(booking, seats[n]), seats, bookings[booking.confirmationCode := booking])
  }

  /**
   * What create_booking promises: it fails exactly when the normalised id is
   * not an alternative flight or has no free seat, and then changes nothing;
   * otherwise the new confirmed booking is stored under its code (replacing
   * any booking already there), that flight loses exactly one seat, every
   * other flight and booking is kept, and the reported flight details are the
   * updated record.
   */
  lemma BookEffect(alternativeFlights: map<string, AlternativeFlight>, bookings: map<string, Booking>,
                   passengerName: string, flightNumber: string, draw: nat, now: Timestamp)
    ensures var r := Book(alternativeFlights, bookings, passengerName, flightNumber, draw, now);
      var n := NormalizeFlightNumber(flightNumber);
      (r.result.BookingFailed? <==> n !in alternativeFlights || alternativeFlights[n].availableSeats <= 0)
    ensures var r := Book(alternativeFlights, bookings, passengerName, flightNumber, draw, now);
      r.result.BookingFailed? ==> r.alternativeFlights == alternativeFlights && r.bookings == bookings
    ensures var r := Book(alternativeFlights, bookings, passengerName, flightNumber, draw, now);
      var n := NormalizeFlightNumber(flightNumber);
      r.result.BookingFailed? ==>
        r.result.error == (if n !in alternativeFlights then "El vuelo " + n + " no está disponible para reservar"
                           else "No hay asientos disponibles en el vuelo " + n)
    ensures var r := Book(alternativeFlights, bookings, passengerName, flightNumber, draw, now);
      var n := NormalizeFlightNumber(flightNumber);
      r.result.BookingCreated? ==>
        && r.result.booking == Booking(ConfirmationCode(draw), passengerName, n, now, "CONFIRMED")
        && r.bookings.Keys == bookings.Keys + {ConfirmationCode(draw)}
        && r.bookings[ConfirmationCode(draw)] == r.result.booking
        && (forall c :: c in bookings && c != ConfirmationCode(draw) ==> r.bookings[c] == bookings[c])
        && r.alternativeFlights.Keys == alternativeFlights.Keys
        && r.alternativeFlights[n] == alternativeFlights[n].(availableSeats := alternativeFlights[n].availableSeats - 1)
        && (forall k :: k in alternativeFlights && k != n ==> r.alternativeFlights[k] == alternativeFlights[k])
        && r.result.flightDetails == r.alternativeFlights[n]
  {
    var n := NormalizeFlightNumber(flightNumber);
    if n in alternativeFlights && alternativeFlights[n].availableSeats > 0 {
      BookCreates(alternativeFlights, bookings, passengerName, flightNumber, draw, now);
    } else {
      BookRefuses(alternativeFlights, bookings, passengerName, flightNumber, draw, now);
    }
  }

  /** A refused booking reports why and leaves both tables as they were. */
  lemma BookRefuses(alternativeFlights: map<string, AlternativeFlight>, bookings: map<string, Booking>,
                    passengerName: string, flightNumber: string, draw: nat, now: Timestamp)
    requires var n := NormalizeFlightNumber(flightNumber);
      n !in alternativeFlights || alternativeFlights[n].availableSeats <= 0
    ensures var r := Book(alternativeFlights, bookings, passengerName, flightNumber, draw, now);
      var n := NormalizeFlightNumber(flightNumber);
      && r.alternativeFlights == alternativeFlights && r.bookings == bookings
      && r.result == BookingFailed(if n !in alternativeFlights then "El vuelo " + n + " no está disponible para reservar"
                                   else "No hay asientos disponibles en el vuelo " + n)
  {
  }

  /** An accepted booking is stored under its code and takes exactly one seat of its flight. */
  lemma BookCreates(alternativeFlights: map<string, AlternativeFlight>, bookings: map<string, Booking>,
                    passengerName: string, flightNumber: string, draw: nat, now: Timestamp)
    requires var n := NormalizeFlightNumber(flightNumber);
      n in alternativeFlights && alternativeFlights[n].availableSeats > 0
    ensures var r := Book(alternativeFlights, bookings, passengerName, flightNumber, draw, now);
      var n := NormalizeFlightNumber(flightNumber);
      && r.result.BookingCreated?
      && r.result.booking == Booking(ConfirmationCode(draw), passengerName, n, now, "CONFIRMED")
      && r.bookings == bookings[ConfirmationCode(draw) := r.result.booking]
      && r.alternativeFlights == alternativeFlights[n := alternativeFlights[n].(availableSeats := alternativeFlights[n].availableSeats - 1)]
      && r.result.flightDetails == r.alternativeFlights[n]
  {
  }

  /** Seat counts that start non-negative stay non-negative: a full flight is refused. */
  lemma BookingKeepsSeatsNonNegative(alternativeFlights: map<string, AlternativeFlight>, bookings: map<string, Booking>,
                                      passengerName: string, flightNumber: string, draw: nat, now: Timestamp)
    requires forall k :: k in alternativeFlights ==> alternativeFlights[k].availableSeats >= 0
    ensures var r := Book(alternativeFlights, bookings, passengerName, flightNumber, draw, now);
      forall k :: k in r.alternativeFlights ==> r.alternativeFlights[k].availableSeats >= 0
  {
  }

  /** Booking twice on the same draw keeps one booking per code: the second replaces the first. */
  lemma SameDrawOverwrites(alternativeFlights: map<string, AlternativeFlight>, bookings: map<string, Booking>,
                           p1: string, f1: string, p2: string, f2: string, draw: nat, t1: Timestamp, t2: Timestamp)
    requires Book(alternativeFlights, bookings, p1, f1, draw, t1).result.BookingCreated?
    ensures var s1 := Book(alternativeFlights, bookings, p1, f1, draw, t1);
      var s2 := Book(s1.alternativeFlights, s1.bookings, p2, f2, draw, t2);
      s2.result.BookingCreated? ==>
        s2.bookings.Keys == s1.bookings.Keys && s2.bookings[ConfirmationCode(draw)].passengerName == p2
  {
  }

  /** Every booking names a flight of the table. */
  ghost predicate BookingsNameFlights(bookings: map<string, Booking>, alternativeFlights: map<string, AlternativeFlight>) {
    forall c :: c in bookings ==> bookings[c].flightNumber in alternativeFlights
  }

  /**
   * get_booking on the two tables: found exactly for a key of the bookings
   * table, compared as given; the flight details are the flight's current record.
   */
  function FindBooking(bookings: map<string, Booking>, alternativeFlights: map<string, AlternativeFlight>,
                       confirmationCode: string): (r: LookupResult)
    requires BookingsNameFlights(bookings, alternativeFlights)
    ensures r.BookingFound? <==> confirmationCode in bookings
    ensures r.BookingFound? ==>
      && r.booking == bookings[confirmationCode]
      && r.flightDetails == alternativeFlights[r.booking.flightNumber]
    ensures r.BookingNotFound? ==> r.error == "No se encontró reserva con código " + confirmationCode
  {
    if confirmationCode in bookings then
      var booking := bookings[confirmationCode];
      BookingFound(booking, alternativeFlights[booking.flightNumber])
    else
      BookingNotFound("No se encontró reserva con código " + confirmationCode)
  }

  /**
   * After a successful booking its code is found, with the booking and the
   * flight record the booking call returned; a failed booking leaves every
   * lookup as it was.
   */
  lemma BookedCodeIsFound(alternativeFlights: map<string, AlternativeFlight>, bookings: map<string, Booking>,
                          passengerName: string, flightNumber: string, draw: nat, now: Timestamp, code: string)
    requires BookingsNameFlights(bookings, alternativeFlights)
    ensures var s := Book(alternativeFlights, bookings, passengerName, flightNumber, draw, now);
      && BookingsNameFlights(s.bookings, s.alternativeFlights)
      && (s.result.BookingCreated? ==>
            FindBooking(s.bookings, s.alternativeFlights, s.result.booking.confirmationCode)
              == BookingFound(s.result.booking, s.result.flightDetails))
      && (s.result.BookingFailed? ==>
            FindBooking(s.bookings, s.alternativeFlights, code) == FindBooking(bookings, alternativeFlights, code))
  {
  }

  /** Each booking sits under its own well-formed code and is confirmed. */
  ghost predicate BookingsWellKeyed(bookings: map<string, Booking>) {
    forall c :: c in bookings ==>
      && bookings[c].confirmationCode == c
      && IsConfirmationCode(c)
      && bookings[c].status == "CONFIRMED"
  }

  /** Taking a seat changes one seat count only, so the flight tables still index each other. */
  lemma SeatTakenKeepsTablesAgreeing(cancelled: map<string, CancelledFlight>, alternativesOf: map<string, seq<string>>,
                                     alternativeFlights: map<string, AlternativeFlight>, n: string)
    requires TablesAgree(cancelled, alternativesOf, alternativeFlights)
    requires n in alternativeFlights
    ensures TablesAgree(cancelled, alternativesOf, WithSeatTaken(alternativeFlights, n))
  {
    assert WithSeatTaken(alternativeFlights, n).Keys == alternativeFlights.Keys;
  }

  /** Storing a confirmed booking under its own code drawn in randint's range keeps every code well formed. */
  lemma NewBookingKeepsBookingsWellKeyed(bookings: map<string, Booking>, draw: nat, booking: Booking)
    requires 100000 <= draw <= 999999
    requires BookingsWellKeyed(bookings)
    requires booking.confirmationCode == ConfirmationCode(draw) && booking.status == "CONFIRMED"
    ensures BookingsWellKeyed(bookings[ConfirmationCode(draw) := booking])
  {
    ConfirmationCodeFormat(draw);
  }
}
