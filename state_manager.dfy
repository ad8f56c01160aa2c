/**
 * The conversation-phase tracker: four business phases, a history of the
 * phases visited, and an interruption counter, updated once per turn from
 * the raw user text and the raw agent text by keyword matching.
 */
module Conversation {
  import opened Text

  datatype ConversationState = Notified | Rebooking | Refund | Resolved

  datatype Option<T> = None | Some(value: T)

  /** Wall-clock time as the tracker records it ("%H:%M:%S"); supplied by the caller. */
  type Timestamp = string

  datatype HistoryEntry = HistoryEntry(state: ConversationState, timestamp: Timestamp)

  /** Phrases in the agent's reply that signal a confirmed booking or refund. */
  const ResolutionKeywords: seq<string> := [
    "reserva confirmada", "booking confirmado", "¡reserva confirmada!",
    "código de confirmación", "reserva exitosa",
    "reembolso confirmado", "reembolso procesado", "devolución confirmada",
    "✅ reembolso", "reembolso exitoso", "hemos procesado su reembolso",
    "su reembolso ha sido", "reembolso aprobado"
  ]

  /** Words in the user's message that ask for another flight. */
  const RebookingKeywords: seq<string> := [
    "vuelo", "vuelos", "alternativas", "opciones", "disponibles",
    "muéstr", "busca", "ver", "reserva", "reservar", "booking"
  ]

  /** Words in the agent's reply that show it offered flights. */
  const OptionsOfferedKeywords: seq<string> := ["opciones", "alternativas", "vuelos disponibles"]

  /** Words in the user's message that ask for the money back. */
  const RefundKeywords: seq<string> := [
    "reembolso", "devol", "dinero", "plata",
    "refund", "money back", "me devuelvan"
  ]

  predicate ResolutionSignalled(agentResponse: string) {
    ContainsAny(Lower(agentResponse), ResolutionKeywords)
  }

  predicate RebookingRequested(userMessage: string) {
    ContainsAny(Lower(userMessage), RebookingKeywords)
  }

  predicate OptionsOffered(agentResponse: string) {
    ContainsAny(Lower(agentResponse), OptionsOfferedKeywords)
  }

  predicate RefundRequested(userMessage: string) {
    ContainsAny(Lower(userMessage), RefundKeywords)
  }

  /** The phase and the interruption count after one turn. */
  datatype Outcome = Outcome(state: ConversationState, interruptions: nat)

  /**
   * One turn of update_state as a function of the phase and counter before it:
   * resolution check on the agent text, then the rebooking check on the user
   * text, then the refund check, each returning as soon as it transitions.
   */
  function Observe(state: ConversationState, count: nat, userMessage: string, agentResponse: string): Outcome
  {
    if ResolutionSignalled(agentResponse) && state != Resolved then
      Outcome(Resolved, count)
    else if RebookingRequested(userMessage) then
      var c := if state == Refund then count + 1 else count;
      if state == Notified && OptionsOffered(agentResponse) then Outcome(Rebooking, c)
      else if state != Rebooking then Outcome(Rebooking, c)
      else RefundCheck(state, c, userMessage)
    else
      RefundCheck(state, count, userMessage)
  }

  /** The third step of update_state, reached only when the first two did not return. */
  function RefundCheck(state: ConversationState, count: nat, userMessage: string): Outcome
  {
    if RefundRequested(userMessage) then
      var c := if state == Rebooking then count + 1 else count;
      if state != Refund then Outcome(Refund, c) else Outcome(state, c)
    else
      Outcome(state, count)
  }

  /**
   * Where one turn leads, stated as three prioritised rules without the
   * chain of early returns (and without the options-offered sub-test).
   */
  function PhaseRule(state: ConversationState, userMessage: string, agentResponse: string): ConversationState
  {
    if ResolutionSignalled(agentResponse) && state != Resolved then Resolved
    else if RebookingRequested(userMessage) && state != Rebooking then Rebooking
    else if RefundRequested(userMessage) then Refund
    else state
  }

  /** A turn that switches between the two paths while the resolution check did not fire. */
  predicate IsInterruption(state: ConversationState, userMessage: string, agentResponse: string)
  {
    && !(ResolutionSignalled(agentResponse) && state != Resolved)
    && ((state == Refund && RebookingRequested(userMessage))
        || (state == Rebooking && RefundRequested(userMessage)))
  }

  /** update_state agrees with the rule table: the phase, and a counter that rises exactly on an interruption. */
  lemma ObserveFollowsRules(state: ConversationState, count: nat, userMessage: string, agentResponse: string)
    ensures Observe(state, count, userMessage, agentResponse).state == PhaseRule(state, userMessage, agentResponse)
    ensures Observe(state, count, userMessage, agentResponse).interruptions
            == count + (if IsInterruption(state, userMessage, agentResponse) then 1 else 0)
  {
  }

  /** Resolution wins over everything else, and the user text is not even looked at. */
  lemma ResolutionPrecedence(state: ConversationState, count: nat, userMessage: string, agentResponse: string)
    requires ResolutionSignalled(agentResponse) && state != Resolved
    ensures Observe(state, count, userMessage, agentResponse) == Outcome(Resolved, count)
    ensures forall other :: Observe(state, count, other, agentResponse) == Outcome(Resolved, count)
  {
  }

  /** Any rebooking word leaves every phase but Rebooking for Rebooking; the options sub-test is irrelevant. */
  lemma RebookingBranch(state: ConversationState, count: nat, userMessage: string, agentResponse: string)
    requires !(ResolutionSignalled(agentResponse) && state != Resolved)
    requires RebookingRequested(userMessage) && state != Rebooking
    ensures Observe(state, count, userMessage, agentResponse).state == Rebooking
  {
  }

  /** From Rebooking a rebooking word falls through to the refund check. */
  lemma RebookingFallsThrough(count: nat, userMessage: string, agentResponse: string)
    requires !ResolutionSignalled(agentResponse)
    ensures Observe(Rebooking, count, userMessage, agentResponse) == RefundCheck(Rebooking, count, userMessage)
  {
  }

  /** Once reached, the refund check moves to Refund from any other phase; from Refund it changes nothing. */
  lemma RefundBranch(state: ConversationState, count: nat, userMessage: string, agentResponse: string)
    requires !(ResolutionSignalled(agentResponse) && state != Resolved)
    requires !RebookingRequested(userMessage) || state == Rebooking
    requires RefundRequested(userMessage)
    ensures Observe(state, count, userMessage, agentResponse).state == Refund
    ensures state == Refund ==> Observe(state, count, userMessage, agentResponse) == Outcome(Refund, count)
  {
  }

  /** With no keyword of any list, a turn changes nothing. */
  lemma NoKeywordNoChange(state: ConversationState, count: nat, userMessage: string, agentResponse: string)
    requires !ResolutionSignalled(agentResponse)
    requires !RebookingRequested(userMessage) && !RefundRequested(userMessage)
    ensures Observe(state, count, userMessage, agentResponse) == Outcome(state, count)
  {
  }

  /** Resolved is not absorbing: a rebooking word leaves it, whatever the agent said. */
  lemma ResolvedLeftForRebooking(count: nat, userMessage: string, agentResponse: string)
    requires RebookingRequested(userMessage)
    ensures Observe(Resolved, count, userMessage, agentResponse) == Outcome(Rebooking, count)
  {
  }

  /** Resolved is not absorbing: a refund word (and no rebooking word) leaves it for Refund. */
  lemma ResolvedLeftForRefund(count: nat, userMessage: string, agentResponse: string)
    requires !RebookingRequested(userMessage) && RefundRequested(userMessage)
    ensures Observe(Resolved, count, userMessage, agentResponse) == Outcome(Refund, count)
  {
  }

  /** A turn changes the phase at most once and moves the counter by 0 or 1. */
  lemma ObserveSmallStep(state: ConversationState, count: nat, userMessage: string, agentResponse: string)
    ensures var o := Observe(state, count, userMessage, agentResponse);
            o.interruptions == count || o.interruptions == count + 1
    ensures var o := Observe(state, count, userMessage, agentResponse);
            o.interruptions == count + 1 <==>
              (state == Refund && o.state == Rebooking) || (state == Rebooking && o.state == Refund)
  {
  }

  /** Matching is case-blind: lower-casing either text first changes nothing. */
  lemma ObserveIgnoresCase(state: ConversationState, count: nat, userMessage: string, agentResponse: string)
    ensures Observe(state, count, Lower(userMessage), Lower(agentResponse))
            == Observe(state, count, userMessage, agentResponse)
  {
    LowerIdempotent(userMessage);
    LowerIdempotent(agentResponse);
  }

  /** One user message and the agent's reply to it. */
  datatype Turn = Turn(userMessage: string, agentResponse: string)

  /** A whole conversation: update_state applied once per turn, in order. */
  function Replay(o: Outcome, turns: seq<Turn>): Outcome
    decreases |turns|
  {
    if turns == [] then o
    else Replay(Observe(o.state, o.interruptions, turns[0].userMessage, turns[0].agentResponse), turns[1..])
  }

  /** The interruption counter never decreases and rises at most once per turn. */
  lemma {:induction false} ReplayInterruptionBounds(o: Outcome, turns: seq<Turn>)
    ensures o.interruptions <= Replay(o, turns).interruptions <= o.interruptions + |turns|
    decreases |turns|
  {
    if turns != [] {
      ObserveSmallStep(o.state, o.interruptions, turns[0].userMessage, turns[0].agentResponse);
      ReplayInterruptionBounds(
        Observe(o.state, o.interruptions, turns[0].userMessage, turns[0].agentResponse), turns[1..]);
    }
  }

  /** The weight each phase contributes to the progress bar. */
  function Weight(state: ConversationState): nat {
    match state
    case Notified => 25
    case Rebooking => 50
    case Refund => 50
    case Resolved => 100
  }

  function Max(a: nat, b: nat): nat {
    if a < b then b else a
  }

  /** get_progress_percentage: the running maximum of the weights in the history, from 0. */
  function Progress(history: seq<HistoryEntry>): nat {
    if history == [] then 0
    else Max(Progress(history[..|history| - 1]), Weight(history[|history| - 1].state))
  }

  /** The progress is the largest weight of any visited phase (0 for an empty history). */
  lemma {:induction false} ProgressIsMaximum(history: seq<HistoryEntry>)
    ensures forall i :: 0 <= i < |history| ==> Weight(history[i].state) <= Progress(history)
    ensures history == [] ==> Progress(history) == 0
    ensures history != [] ==> exists i :: 0 <= i < |history| && Weight(history[i].state) == Progress(history)
  {
    if history != [] {
      var front := history[..|history| - 1];
      ProgressIsMaximum(front);
      assert forall i :: 0 <= i < |front| ==> history[i] == front[i];
      if front != [] && Progress(front) >= Weight(history[|history| - 1].state) {
        var i :| 0 <= i < |front| && Weight(front[i].state) == Progress(front);
        assert history[i] == front[i];
      }
    }
  }

  /** Progress over a non-empty history is one of the three bar positions. */
  lemma ProgressValues(history: seq<HistoryEntry>)
    requires history != []
    ensures Progress(history) in {25, 50, 100}
  {
    ProgressIsMaximum(history);
  }

  /** One more entry raises the progress to that entry's weight if it is larger. */
  lemma ProgressAppend(history: seq<HistoryEntry>, e: HistoryEntry)
    ensures Progress(history + [e]) == Max(Progress(history), Weight(e.state))
  {
    assert (history + [e])[..|history|] == history;
  }

  /** Appending to the history never lowers the progress. */
  lemma ProgressMonotone(history: seq<HistoryEntry>, more: seq<HistoryEntry>)
    ensures Progress(history) <= Progress(history + more)
  {
    ProgressIsMaximum(history);
    ProgressIsMaximum(history + more);
    if history != [] {
      var i :| 0 <= i < |history| && Weight(history[i].state) == Progress(history);
      assert (history + more)[i] == history[i];
    }
  }

  /** The bar is full exactly when Resolved occurs somewhere in the history. */
  lemma ProgressFullIffResolved(history: seq<HistoryEntry>)
    ensures Progress(history) == 100 <==> exists i :: 0 <= i < |history| && history[i].state == Resolved
  {
    ProgressIsMaximum(history);
  }

  /** Python's `any(s == state for s, _ in history)`. */
  function AnyEntryIs(history: seq<HistoryEntry>, state: ConversationState): (r: bool)
    ensures r <==> exists i :: 0 <= i < |history| && history[i].state == state
  {
    history != [] && (history[0].state == state || AnyEntryIs(history[1..], state))
  }

  /** The no-repeat invariant of the history: consecutive entries name different phases. */
  ghost predicate NoConsecutiveRepeats(history: seq<HistoryEntry>) {
    forall i :: 0 < i < |history| ==> history[i - 1].state != history[i].state
  }

  /** get_state_emoji; the "❓" fallback is unreachable for a real phase. */
  function StateEmoji(state: ConversationState): (r: string)
    ensures r != "❓"
  {
    match state
    case Notified => "📢"
    case Rebooking => "✈️"
    case Refund => "💰"
    case Resolved => "✅"
  }

  /** get_state_label; "Sin Estado" exactly for no phase, and the "Desconocido" fallback is unreachable. */
  function StateLabel(state: Option<ConversationState>): (r: string)
    ensures r == "Sin Estado" <==> state == None
    ensures r != "Desconocido"
  {
    match state
    case None => "Sin Estado"
    case Some(Notified) => "Pasajero notificado"
    case Some(Rebooking) => "Procesando rebooking"
    case Some(Refund) => "Procesando reembolso"
    case Some(Resolved) => "Problema resuelto"
  }

  /** Different phases are shown with different labels and different emoji. */
  lemma DisplayDistinguishesPhases(a: ConversationState, b: ConversationState)
    requires a != b
    ensures StateLabel(Some(a)) != StateLabel(Some(b))
    ensures StateEmoji(a) != StateEmoji(b)
  {
  }

  /** needs_confirmation: permanently disabled, confirmations are the agent's business. */
  function NeedsConfirmation(): (r: bool)
    ensures !r
  {
    false
  }

  class StateManager {
    var currentState: ConversationState
    var previousState: Option<ConversationState>
    var interruptionCount: nat
    var stateHistory: seq<HistoryEntry>

    /**
     * The history is never empty, its last entry is the current phase, no two
     * consecutive entries repeat a phase, and the previous phase is the one
     * before the last entry (none while only the initial entry exists).
     */
    ghost predicate Valid()
      reads this
    {
      && |stateHistory| > 0
      && stateHistory[|stateHistory| - 1].state == currentState
      && NoConsecutiveRepeats(stateHistory)
      && (|stateHistory| == 1 <==> previousState == None)
      && (|stateHistory| > 1 ==> previousState == Some(stateHistory[|stateHistory| - 2].state))
    }

    constructor (now: Timestamp)
      ensures Valid()
      ensures currentState == Notified && previousState == None && interruptionCount == 0
      ensures stateHistory == [HistoryEntry(Notified, now)]
      ensures Progress(stateHistory) == 25
    {
      currentState := Notified;
      previousState := None;
      interruptionCount := 0;
      stateHistory := [];
      new;
      AddToHistory(Notified, now);
    }

    /** _add_to_history: append one entry stamped with the given time. */
    method AddToHistory(state: ConversationState, now: Timestamp)
      modifies this
      ensures stateHistory == old(stateHistory) + [HistoryEntry(state, now)]
      ensures currentState == old(currentState) && previousState == old(previousState)
      ensures interruptionCount == old(interruptionCount)
    {
      stateHistory := stateHistory + [HistoryEntry(state, now)];
    }

    /** transition_to: a no-op on the current phase, otherwise exactly one recorded step. */
    method TransitionTo(newState: ConversationState, now: Timestamp)
      requires Valid()
      modifies this
      ensures Valid()
      ensures interruptionCount == old(interruptionCount)
      ensures newState == old(currentState) ==>
                currentState == old(currentState) && previousState == old(previousState)
                && stateHistory == old(stateHistory)
      ensures newState != old(currentState) ==>
                currentState == newState && previousState == Some(old(currentState))
                && stateHistory == old(stateHistory) + [HistoryEntry(newState, now)]
    {
      if newState != currentState {
        previousState := Some(currentState);
        currentState := newState;
        AddToHistory(newState, now);
      }
    }

    /** update_state: one turn, as Observe describes it, recorded through TransitionTo. */
    method UpdateState(userMessage: string, agentResponse: string, now: Timestamp)
      requires Valid()
      modifies this
      ensures Valid()
      ensures currentState == Observe(old(currentState), old(interruptionCount), userMessage, agentResponse).state
      ensures interruptionCount
              == Observe(old(currentState), old(interruptionCount), userMessage, agentResponse).interruptions
      ensures currentState == old(currentState) ==>
                stateHistory == old(stateHistory) && previousState == old(previousState)
      ensures currentState != old(currentState) ==>
                stateHistory == old(stateHistory) + [HistoryEntry(currentState, now)]
                && previousState == Some(old(currentState))
      ensures old(interruptionCount) <= interruptionCount <= old(interruptionCount) + 1
      ensures Progress(old(stateHistory)) <= Progress(stateHistory)
    {
      ProgressAppend(stateHistory, HistoryEntry(Resolved, now));
      ProgressAppend(stateHistory, HistoryEntry(Rebooking, now));
      ProgressAppend(stateHistory, HistoryEntry(Refund, now));
      if ResolutionSignalled(agentResponse) {
        if currentState != Resolved {
          TransitionTo(Resolved, now);
          return;
        }
      }

      if RebookingRequested(userMessage) {
        if currentState == Refund {
          interruptionCount := interruptionCount + 1;
        }
        if currentState == Notified {
          if OptionsOffered(agentResponse) {
            TransitionTo(Rebooking, now);
            return;
          }
        }
        if currentState != Rebooking {
          TransitionTo(Rebooking, now);
          return;
        }
      }

      if RefundRequested(userMessage) {
        if currentState == Rebooking {
          interruptionCount := interruptionCount + 1;
        }
        if currentState != Refund {
          TransitionTo(Refund, now);
          return;
        }
      }
    }

    /** get_progress_percentage: a running maximum over the history. */
    method GetProgressPercentage() returns (progress: nat)
      ensures progress == Progress(stateHistory)
    {
      progress := 0;
      var i := 0;
      while i < |stateHistory|
        invariant 0 <= i <= |stateHistory|
        invariant progress == Progress(stateHistory[..i])
      {
        assert stateHistory[..i + 1][..i] == stateHistory[..i];
        progress := Max(progress, Weight(stateHistory[i].state));
        i := i + 1;
      }
      assert stateHistory[..i] == stateHistory;
    }

    /** has_reached_state: the phase occurs somewhere in the history. */
    function HasReachedState(state: ConversationState): (r: bool)
      reads this
      ensures r <==> exists i :: 0 <= i < |stateHistory| && stateHistory[i].state == state
      ensures r ==> Weight(state) <= Progress(stateHistory)
    {
      ProgressIsMaximum(stateHistory);
      AnyEntryIs(stateHistory, state)
    }

    /** is_final_state: the current phase is Resolved, and then the bar is full. */
    function IsFinalState(): (r: bool)
      reads this
      requires Valid()
      ensures r <==> currentState == Resolved
      ensures r ==> Progress(stateHistory) == 100
    {
      ProgressFullIffResolved(stateHistory);
      currentState == Resolved
    }
  }
}
