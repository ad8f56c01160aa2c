# Flight-cancellation assistant: conversation tracker and flight directory

This project models the two stateful pieces of a customer-service assistant for
passengers whose flight was cancelled.

- **The conversation tracker** (`utils/state_manager.py`) follows a conversation
  through four phases: notified, rebooking, refund and resolved. After every
  turn it scans the lower-cased user message and agent reply for keywords. It
  moves to at most one new phase and records every phase change, with a
  timestamp, in a history. It counts interruptions, meaning switches between
  the rebooking path and the refund path, and it derives a progress percentage
  from the history.
- **The mock flight directory** (`data/flights.py`) holds three tables: the
  cancelled flights, the alternative flights with their seat counts, and a map
  from each cancelled flight to its alternatives. It also holds a bookings
  table that fills as passengers rebook. Its operations look up a flight, list
  the alternatives of a cancelled flight, create a booking (one seat is taken)
  and look up a booking by its code.

Files:

- `text.dfy` (module `Text`): the string primitives the source relies on.
  - `str.lower`, `str.upper` and `str.strip`.
  - The substring test `kw in text` and `any(...)` over a keyword list.
  - The decimal rendering of an integer.
- `state_manager.dfy` (module `Conversation`): the tracker.
  - The pure function `Observe` gives one turn's outcome; lemmas about it
    state the rules.
  - The class `StateManager` follows the source method by method. Its
    `UpdateState` is proved against `Observe`.
- `scenarios.dfy` (module `ConversationScenarios`): concrete conversations
  with their literal texts, and a client method that drives a `StateManager`
  through one of them.
- `flight_tables.dfy` (module `FlightTables`): the three tables, copied
  verbatim, and the facts about how they index each other.
- `flights.dfy` (module `FlightData`):
  - flight-id normalisation and the confirmation code;
  - `Book`, the booking operation as a function on the two mutable tables;
  - `FindBooking`, the booking lookup.
- `directory.dfy` (module `Directory`): the class `FlightDirectory`. It holds
  the tables as fields, with `CreateBooking` as a method that updates them in
  place, proved against `Book`.

Two behaviours of the code differ from what its own comments lead a reader to
expect. The model follows the code:

- **Resolved is not final.** The docstring of `is_final_state`
  (`utils/state_manager.py:191-194`) says that once the flow is complete,
  further changes require calling the 0800 line. In the code, the resolution
  check only guards the move *into* Resolved (`utils/state_manager.py:85-88`).
  Control then falls through to the rebooking and refund checks. So from
  Resolved, a user message with a rebooking word moves to Rebooking, and one
  with only a refund word moves to Refund. `ResolvedLeftForRebooking`,
  `ResolvedLeftForRefund` and `FlightWordLeavesResolved` prove this.
- **The options-offered test never changes the outcome.** Inside the
  rebooking branch, the comment at `utils/state_manager.py:101` introduces a
  test on the agent's reply: from Notified, the tracker moves to Rebooking when
  the reply mentions options (`utils/state_manager.py:101-105`). But the next
  test (`utils/state_manager.py:107-109`) moves every phase other than
  Rebooking to Rebooking anyway. So with or without those words in the reply,
  a rebooking word from Notified leads to Rebooking. `RebookingBranch` proves
  this for any agent reply, and `ObserveFollowsRules` shows that the turn
  follows `PhaseRule`, a rule table with no options test at all.

## Model

| member | source | states |
|---|---|---|
| Text.Lower | utils/state_manager.py:71-72 | the lowered text has the same length and each character is the character's lower case |
| Text.Upper | data/flights.py:364 | the upper-cased text has the same length and each character is the character's upper case |
| Text.LowerIdempotent | utils/state_manager.py:71-72 | lowering twice equals lowering once |
| Text.Strip | data/flights.py:364 | strip removes exactly the leading and trailing whitespace: the result is a stretch of the input with only whitespace before and after it, and it neither begins nor ends with whitespace |
| Text.StripFixed | data/flights.py:364 | a text without surrounding whitespace is its own strip |
| Text.ContainsIffOccurs | utils/state_manager.py:85 | `kw in text` holds exactly when kw occurs at some index of text |
| Text.ContainsAnyIffSome | utils/state_manager.py:85 | `any(kw in text for kw in kws)` holds exactly when some keyword of the list occurs |
| Text.NoMatch | utils/state_manager.py:96 | if each keyword holds a character the text lacks, no keyword of the list matches |
| Text.DecimalString | data/flights.py:441 | the decimal rendering is a non-empty digit string without a leading zero |
| Text.ParseDecimalString | data/flights.py:441 | reading back the decimal rendering gives the number |
| Text.DecimalStringLength | data/flights.py:441 | a number between 10^k and 10^(k+1) - 1 renders as k + 1 digits |
| Conversation.ObserveFollowsRules | utils/state_manager.py:85-124 | a turn's new phase is the prioritised rule: resolution, then rebooking, then refund. The counter rises by one exactly on an interruption: a switch between the refund and rebooking paths |
| Conversation.ResolutionPrecedence | utils/state_manager.py:85-88 | a resolution phrase in the agent text moves every phase except Resolved to Resolved, keeps the counter, and ignores the user text |
| Conversation.RebookingBranch | utils/state_manager.py:96-109 | absent a firing resolution, any rebooking word moves every phase other than Rebooking to Rebooking, whatever the options-offered sub-test says |
| Conversation.RebookingFallsThrough | utils/state_manager.py:107-117 | from Rebooking, a rebooking word does not return; control reaches the refund check |
| Conversation.RefundBranch | utils/state_manager.py:117-124 | when the refund check is reached with a refund word, the phase ends as Refund; from Refund nothing changes |
| Conversation.NoKeywordNoChange | utils/state_manager.py:85-124 | a turn with no keyword of any list changes neither phase nor counter |
| Conversation.ResolvedLeftForRebooking | utils/state_manager.py:86-109 | Resolved is not absorbing: a rebooking word moves it to Rebooking |
| Conversation.ResolvedLeftForRefund | utils/state_manager.py:117-124 | Resolved is not absorbing: a refund word without a rebooking word moves it to Refund |
| Conversation.ObserveSmallStep | utils/state_manager.py:96-124 | one turn raises the counter by 0 or 1, and by 1 exactly when the phase switches between Refund and Rebooking |
| Conversation.ObserveIgnoresCase | utils/state_manager.py:71-72 | lower-casing either text beforehand does not change the outcome |
| Conversation.ReplayInterruptionBounds | utils/state_manager.py:99-120 | over a conversation of n turns the counter never decreases and rises by at most n |
| Conversation.ProgressIsMaximum | utils/state_manager.py:152-165 | the progress is the largest weight of any phase in the history, or 0 for an empty history |
| Conversation.ProgressValues | utils/state_manager.py:152-157 | over a non-empty history the progress is 25, 50 or 100 |
| Conversation.ProgressAppend | utils/state_manager.py:160-163 | one more entry raises the progress to that entry's weight if it is larger |
| Conversation.ProgressMonotone | utils/state_manager.py:159-165 | extending the history never lowers the progress |
| Conversation.ProgressFullIffResolved | utils/state_manager.py:152-165 | the progress is 100 exactly when Resolved occurs in the history |
| Conversation.AnyEntryIs | utils/state_manager.py:140 | the scan finds the phase exactly when some history entry has it |
| Conversation.StateEmoji | utils/state_manager.py:167-175 | every phase has its own emoji; the fallback is never returned |
| Conversation.StateLabel | utils/state_manager.py:177-188 | "Sin Estado" exactly for no phase; the "Desconocido" fallback is never returned |
| Conversation.DisplayDistinguishesPhases | utils/state_manager.py:167-188 | different phases get different labels and different emoji |
| Conversation.NeedsConfirmation | utils/state_manager.py:197-207 | always false |
| Conversation.StateManager.constructor | utils/state_manager.py:37-43 | a fresh tracker is in Notified with no previous phase, count 0, a history of one Notified entry, and progress 25 |
| Conversation.StateManager.AddToHistory | utils/state_manager.py:45-48 | appends exactly one entry with the given phase and time; nothing else changes |
| Conversation.StateManager.TransitionTo | utils/state_manager.py:50-55 | a no-op on the current phase. Otherwise it records the old phase as previous, sets the new phase and appends one entry. The history invariant is kept: last entry is the current phase, no two consecutive entries repeat |
| Conversation.StateManager.UpdateState | utils/state_manager.py:57-124 | the new phase and counter are Observe of the old ones. The history grows by at most one entry, exactly when the phase changed. The invariant is kept. The counter and the progress never decrease |
| Conversation.StateManager.GetProgressPercentage | utils/state_manager.py:142-165 | the loop's running maximum equals Progress of the history |
| Conversation.StateManager.HasReachedState | utils/state_manager.py:138-140 | true exactly when the phase occurs in the history; then the progress is at least its weight |
| Conversation.StateManager.IsFinalState | utils/state_manager.py:190-195 | true exactly in Resolved; then the progress is 100 |
| ConversationScenarios.AlternativesRequestStartsRebooking | utils/state_manager.py:96-109 | "quiero ver vuelos alternativos" moves a fresh tracker to Rebooking without an interruption |
| ConversationScenarios.RefundRequestInterruptsRebooking | utils/state_manager.py:117-124 | "mejor quiero el reembolso" moves Rebooking to Refund and counts one interruption |
| ConversationScenarios.ConfirmationReplySignalsResolution | utils/state_manager.py:75-85 | the agent reply "✅ Reembolso confirmado." contains a resolution phrase |
| ConversationScenarios.RefundConfirmationResolves | utils/state_manager.py:85-88 | an agent reply starting "✅ Reembolso confirmado" resolves every unresolved phase |
| ConversationScenarios.OptionsQuestionLeavesNotified | utils/state_manager.py:91-109 | "hola, ¿qué opciones tengo?" moves Notified to Rebooking although the agent offered nothing |
| ConversationScenarios.FlightWordLeavesResolved | utils/state_manager.py:96-109 | "quiero cambiar mi vuelo" moves Resolved back to Rebooking |
| ConversationScenarios.RefundWishIsNoRebooking | utils/state_manager.py:91-96 | "mejor quiero el reembolso" contains no rebooking keyword |
| FlightTables.InitialTablesAgree | data/flights.py:11-347 | in the tables as loaded: the alternatives map is keyed by exactly the cancelled flights, and every listed id is an alternative flight. No flight is both cancelled and an alternative, and each record's number is its key |
| FlightTables.ListedAlternativesExist | data/flights.py:338-347 | every id in the alternatives map is a key of the alternative flights table |
| FlightTables.AlternativesMapKeyed | data/flights.py:338-347 | the alternatives map has exactly the cancelled flights as keys, each with at least one alternative |
| FlightTables.RecordsKeyed | data/flights.py:11-335 | every record's number is its key; every alternative flight starts with seats |
| FlightData.NormalizeIdempotent | data/flights.py:364 | normalising a normalised flight id changes nothing |
| FlightData.NormalizeIgnoresCase | data/flights.py:364 | lower-casing an id beforehand does not change its normal form |
| FlightData.ConfirmationCodeFormat | data/flights.py:441 | a draw in 100000..999999 gives "ITTI-" followed by six digits, first digit non-zero, which read back as the draw |
| FlightData.ConfirmationCodeInjective | data/flights.py:441 | different draws give different codes |
| FlightData.ConfirmationCodeOnto | data/flights.py:441 | every well-formed code is the code of a draw in 100000..999999 |
| FlightData.BookEffect | data/flights.py:416-462 | a booking fails exactly for an unknown id or a flight without seats, with the source's messages, and then changes nothing. Otherwise it stores the confirmed booking under its code (overwriting an old one) and takes exactly one seat of that flight; all else is kept |
| FlightData.BookRefuses | data/flights.py:422-438 | an unknown flight id (after upper-casing and stripping) or a flight with no seat left yields the source's error message for that case, and both tables are left as they were |
| FlightData.BookCreates | data/flights.py:440-462 | a known flight with a seat left yields a confirmed booking under the code drawn, for that passenger and normalised flight id. The booking is stored under its code, that flight loses exactly one seat, and the returned flight details are the updated flight |
| FlightData.SeatTakenKeepsTablesAgreeing | data/flights.py:456-457 | taking a seat on a listed alternative flight keeps the three flight tables indexing each other |
| FlightData.NewBookingKeepsBookingsWellKeyed | data/flights.py:441-454 | storing a confirmed booking under its own code drawn from randint's range keeps every stored booking confirmed, under its own code, and that code of the form "ITTI-" and six digits |
| FlightData.BookingKeepsSeatsNonNegative | data/flights.py:433-457 | if no seat count is negative before a booking, none is after |
| FlightData.SameDrawOverwrites | data/flights.py:454 | a second booking on an existing code replaces the first and adds no key |
| FlightData.FindBooking | data/flights.py:465-480 | found exactly for a key of the bookings table, with that booking and its flight's current record; otherwise the source's message |
| FlightData.BookedCodeIsFound | data/flights.py:454-480 | after a successful booking its code is found with the returned booking and flight details; a failed booking leaves every lookup as it was |
| Directory.FlightDirectory.constructor | data/flights.py:11-350 | the directory starts with the loaded tables, no bookings, and its invariant holding |
| Directory.FlightDirectory.GetFlightStatus | data/flights.py:358-384 | found exactly when the normalised id is a cancelled or alternative flight. The record returned is the cancelled record when the id is cancelled, otherwise the alternative record with its current seat count. Otherwise the source's message |
| Directory.FlightDirectory.FindAlternatives | data/flights.py:387-413 | an error exactly when the normalised id is not a cancelled flight. Otherwise: the cancelled record; the current records of the listed ids, in list order; and their count |
| Directory.FlightDirectory.AlternativesAreBookable | data/flights.py:387-413 | at least one alternative is offered, and each is the live record of the flight it names |
| Directory.FlightDirectory.CancelledFlightCannotBeBooked | data/flights.py:422-429 | booking a cancelled flight, in any case or spacing, fails as not available |
| Directory.FlightDirectory.CreateBooking | data/flights.py:416-462 | both tables change exactly as Book says. The directory's invariant is kept: seats non-negative, bookings under well-formed codes. A new booking is then found under its code |
| Directory.FlightDirectory.GetBooking | data/flights.py:465-480 | found exactly for a key of the bookings table, compared as given. Then it returns the stored booking, which carries that code, and the live record of its flight. Otherwise the source's message |
| Directory.FlightDirectory.LookupIsExact | data/flights.py:465-480 | codes are not normalised: a string that is not exactly "ITTI-" and six digits is never found. Every stored code comes from a draw in range |
| Directory.FlightDirectory.BookedFlightDetails | data/flights.py:447-457 | a found booking's flight details name the booked flight and show its current, non-negative seat count |

## Left out

- Text.Lower, Text.Upper: only ASCII and Latin-1 letters (U+00C0 to U+00FE, except × and ÷) change case. Python's full Unicode case mapping is not modelled. Every cased letter in the source's keywords and flight ids lies within this range.
- FlightData.NormalizeIgnoresCase: holds only under this restricted case mapping. Under Python's full mapping it fails: U+212A KELVIN SIGN lowers to "k", which upper() turns into "K", while upper() alone keeps U+212A.
- Clock and randomness: `datetime.now()` (utils/state_manager.py:47, data/flights.py:449) is a timestamp parameter. `random.randint(100000, 999999)` (data/flights.py:441) is a `draw` parameter whose range is required of the caller.
- The getters `get_current_state`, `get_interruption_count` and `get_state_history` (utils/state_manager.py:126-136) return fields unchanged. The model reads the fields directly.
- The `flight_details` aliasing: the source stores, inside a booking, the very dict that sits in the alternative-flights table (data/flights.py:431, 447), so later seat changes show through the booking. The model stores the flight id in the booking and reads the live record when a booking is returned. This gives the same observable result. Object identity is not modelled.
- The tables are copied as data. The route columns (origin, destination) are copied but no property is proved about them.
- `get_state_emoji` and `get_state_label` fall back to "❓" and "Desconocido" for values outside the enum. The model's phase type has no such values, so those fallbacks are proved unreachable rather than modelled.
- The dict results of the directory functions become one datatype per operation. Their `found`/`success` flag becomes the variant.
- Everything outside the two core files is not part of this model: the chat loop, the prompts, the tool wrappers that format directory results, and the configuration.
