/**
 * The airline tables as the mock directory loads them: the cancelled flights,
 * the alternative flights with their initial seat counts, and the map from each
 * cancelled flight to its alternatives, with the facts about how they index
 * each other.
 */
module FlightTables {

  datatype CancelledFlight = CancelledFlight(
    number: string, origin: string, destination: string,
    scheduledTime: string, status: string, reason: string)

  datatype AlternativeFlight = AlternativeFlight(
    number: string, origin: string, destination: string, scheduledTime: string,
    status: string, availableSeats: int, departureDay: string, cabinClass: string)

  const CancelledFlights: map<string, CancelledFlight> := map[
    "ITTI-FLY-001" := CancelledFlight("ITTI-FLY-001", "Buenos Aires (EZE)", "Lima (LIM)", "14:30", "CANCELLED", "Condiciones meteorológicas adversas"),
    "ITTI-FLY-002" := CancelledFlight("ITTI-FLY-002", "Buenos Aires (EZE)", "Santiago (SCL)", "09:15", "CANCELLED", "Problema técnico en la aeronave"),
    "ITTI-FLY-003" := CancelledFlight("ITTI-FLY-003", "Buenos Aires (EZE)", "Bogotá (BOG)", "11:00", "CANCELLED", "Falta de tripulación"),
    "ITTI-FLY-004" := CancelledFlight("ITTI-FLY-004", "Buenos Aires (EZE)", "Ciudad de México (MEX)", "16:45", "CANCELLED", "Condiciones meteorológicas adversas"),
    "ITTI-FLY-005" := CancelledFlight("ITTI-FLY-005", "Buenos Aires (EZE)", "São Paulo (GRU)", "08:30", "CANCELLED", "Problema técnico en la aeronave"),
    "ITTI-FLY-006" := CancelledFlight("ITTI-FLY-006", "Buenos Aires (EZE)", "Montevideo (MVD)", "19:00", "CANCELLED", "Condiciones meteorológicas adversas"),
    "ITTI-FLY-007" := CancelledFlight("ITTI-FLY-007", "Buenos Aires (EZE)", "Asunción (ASU)", "13:20", "CANCELLED", "Falta de tripulación"),
    "ITTI-FLY-008" := CancelledFlight("ITTI-FLY-008", "Buenos Aires (EZE)", "Río de Janeiro (GIG)", "15:30", "CANCELLED", "Problema técnico en la aeronave")
  ]

  const InitialAlternativeFlights: map<string, AlternativeFlight> := map[
    "ITTI-FLY-021" := AlternativeFlight("ITTI-FLY-021", "Buenos Aires (EZE)", "Lima (LIM)", "18:45", "AVAILABLE", 15, "today", "Economy"),
    "ITTI-FLY-022" := AlternativeFlight("ITTI-FLY-022", "Buenos Aires (EZE)", "Lima (LIM)", "22:30", "AVAILABLE", 8, "today", "Economy"),
    "ITTI-FLY-023" := AlternativeFlight("ITTI-FLY-023", "Buenos Aires (EZE)", "Lima (LIM)", "10:00", "AVAILABLE", 22, "tomorrow", "Economy"),
    "ITTI-FLY-024" := AlternativeFlight("ITTI-FLY-024", "Buenos Aires (EZE)", "Santiago (SCL)", "13:30", "AVAILABLE", 18, "today", "Economy"),
    "ITTI-FLY-025" := AlternativeFlight("ITTI-FLY-025", "Buenos Aires (EZE)", "Santiago (SCL)", "17:15", "AVAILABLE", 10, "today", "Economy"),
    "ITTI-FLY-026" := AlternativeFlight("ITTI-FLY-026", "Buenos Aires (EZE)", "Santiago (SCL)", "09:45", "AVAILABLE", 25, "tomorrow", "Economy"),
    "ITTI-FLY-027" := AlternativeFlight("ITTI-FLY-027", "Buenos Aires (EZE)", "Bogotá (BOG)", "15:20", "AVAILABLE", 12, "today", "Economy"),
    "ITTI-FLY-028" := AlternativeFlight("ITTI-FLY-028", "Buenos Aires (EZE)", "Bogotá (BOG)", "20:00", "AVAILABLE", 6, "today", "Economy"),
    "ITTI-FLY-029" := AlternativeFlight("ITTI-FLY-029", "Buenos Aires (EZE)", "Bogotá (BOG)", "11:30", "AVAILABLE", 20, "tomorrow", "Economy"),
    "ITTI-FLY-030" := AlternativeFlight("ITTI-FLY-030", "Buenos Aires (EZE)", "Ciudad de México (MEX)", "19:30", "AVAILABLE", 14, "today", "Economy"),
    "ITTI-FLY-031" := AlternativeFlight("ITTI-FLY-031", "Buenos Aires (EZE)", "Ciudad de México (MEX)", "23:45", "AVAILABLE", 9, "today", "Economy"),
    "ITTI-FLY-032" := AlternativeFlight("ITTI-FLY-032", "Buenos Aires (EZE)", "Ciudad de México (MEX)", "12:15", "AVAILABLE", 19, "tomorrow", "Economy"),
    "ITTI-FLY-033" := AlternativeFlight("ITTI-FLY-033", "Buenos Aires (EZE)", "São Paulo (GRU)", "12:00", "AVAILABLE", 16, "today", "Economy"),
    "ITTI-FLY-034" := AlternativeFlight("ITTI-FLY-034", "Buenos Aires (EZE)", "São Paulo (GRU)", "16:30", "AVAILABLE", 11, "today", "Economy"),
    "ITTI-FLY-035" := AlternativeFlight("ITTI-FLY-035", "Buenos Aires (EZE)", "São Paulo (GRU)", "08:45", "AVAILABLE", 24, "tomorrow", "Economy"),
    "ITTI-FLY-036" := AlternativeFlight("ITTI-FLY-036", "Buenos Aires (EZE)", "Montevideo (MVD)", "21:15", "AVAILABLE", 13, "today", "Economy"),
    "ITTI-FLY-037" := AlternativeFlight("ITTI-FLY-037", "Buenos Aires (EZE)", "Montevideo (MVD)", "07:30", "AVAILABLE", 17, "tomorrow", "Economy"),
    "ITTI-FLY-038" := AlternativeFlight("ITTI-FLY-038", "Buenos Aires (EZE)", "Montevideo (MVD)", "14:00", "AVAILABLE", 21, "tomorrow", "Economy"),
    "ITTI-FLY-039" := AlternativeFlight("ITTI-FLY-039", "Buenos Aires (EZE)", "Asunción (ASU)", "17:45", "AVAILABLE", 10, "today", "Economy"),
    "ITTI-FLY-040" := AlternativeFlight("ITTI-FLY-040", "Buenos Aires (EZE)", "Asunción (ASU)", "21:30", "AVAILABLE", 7, "today", "Economy"),
    "ITTI-FLY-041" := AlternativeFlight("ITTI-FLY-041", "Buenos Aires (EZE)", "Asunción (ASU)", "10:30", "AVAILABLE", 18, "tomorrow", "Economy"),
    "ITTI-FLY-042" := AlternativeFlight("ITTI-FLY-042", "Buenos Aires (EZE)", "Río de Janeiro (GIG)", "18:00", "AVAILABLE", 15, "today", "Economy"),
    "ITTI-FLY-043" := AlternativeFlight("ITTI-FLY-043", "Buenos Aires (EZE)", "Río de Janeiro (GIG)", "22:15", "AVAILABLE", 9, "today", "Economy"),
    "ITTI-FLY-044" := AlternativeFlight("ITTI-FLY-044", "Buenos Aires (EZE)", "Río de Janeiro (GIG)", "11:00", "AVAILABLE", 23, "tomorrow", "Economy")
  ]

  const FlightAlternativesMap: map<string, seq<string>> := map[
    "ITTI-FLY-001" := ["ITTI-FLY-021", "ITTI-FLY-022", "ITTI-FLY-023"],
    "ITTI-FLY-002" := ["ITTI-FLY-024", "ITTI-FLY-025", "ITTI-FLY-026"],
    "ITTI-FLY-003" := ["ITTI-FLY-027", "ITTI-FLY-028", "ITTI-FLY-029"],
    "ITTI-FLY-004" := ["ITTI-FLY-030", "ITTI-FLY-031", "ITTI-FLY-032"],
    "ITTI-FLY-005" := ["ITTI-FLY-033", "ITTI-FLY-034", "ITTI-FLY-035"],
    "ITTI-FLY-006" := ["ITTI-FLY-036", "ITTI-FLY-037", "ITTI-FLY-038"],
    "ITTI-FLY-007" := ["ITTI-FLY-039", "ITTI-FLY-040", "ITTI-FLY-041"],
    "ITTI-FLY-008" := ["ITTI-FLY-042", "ITTI-FLY-043", "ITTI-FLY-044"]
  ]


  /**
   * How the three tables index each other: the alternatives map covers
   * exactly the cancelled flights and lists at least one alternative for
   * each, every listed id is an alternative flight, no flight is both
   * cancelled and an alternative, and every record carries its own key as
   * its number.
   */
  ghost predicate TablesAgree(cancelled: map<string, CancelledFlight>, alternativesOf: map<string, seq<string>>,
                              flights: map<string, AlternativeFlight>) {
    && alternativesOf.Keys == cancelled.Keys
    && (forall k :: k in cancelled ==> k !in flights && cancelled[k].number == k)
    && (forall k :: k in flights ==> flights[k].number == k)
    && (forall k :: k in alternativesOf ==> |alternativesOf[k]| > 0)
    && (forall k, i :: k in alternativesOf && 0 <= i < |alternativesOf[k]| ==> alternativesOf[k][i] in flights)
  }

  /** Every cancelled id has the shape ITTI-FLY-00d. */
  lemma CancelledIdShape()
    ensures forall k :: k in CancelledFlights ==> |k| == 12 && k[10] == '0'
  {
  }

  /** No alternative id has a 0 in that position. */
  lemma AlternativeIdShape()
    ensures forall k :: k in InitialAlternativeFlights ==> |k| == 12 && k[10] != '0'
  {
  }

  /** Every listed alternative is an alternative flight. */
  lemma ListedAlternativesExist()
    ensures forall k, i :: k in FlightAlternativesMap && 0 <= i < |FlightAlternativesMap[k]| ==>
      FlightAlternativesMap[k][i] in InitialAlternativeFlights
  {
  }

  /** The alternatives map is keyed by the cancelled flights, each with some alternative. */
  lemma AlternativesMapKeyed()
    ensures FlightAlternativesMap.Keys == CancelledFlights.Keys
    ensures forall k :: k in FlightAlternativesMap ==> |FlightAlternativesMap[k]| > 0
  {
  }

  /** Each record carries its key as its number, and every alternative flight has seats. */
  lemma RecordsKeyed()
    ensures forall k :: k in CancelledFlights ==> CancelledFlights[k].number == k
    ensures forall k :: k in InitialAlternativeFlights ==>
      InitialAlternativeFlights[k].number == k && InitialAlternativeFlights[k].availableSeats > 0
  {
  }

  /** The tables as loaded agree with each other. */
  lemma InitialTablesAgree()
    ensures TablesAgree(CancelledFlights, FlightAlternativesMap, InitialAlternativeFlights)
  {
    CancelledIdShape();
    AlternativeIdShape();
    AlternativesMapKeyed();
    RecordsKeyed();
    ListedAlternativesExist();
  }
}
