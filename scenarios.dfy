/**
 * Whole conversations through the tracker, stated as lemmas over concrete texts, including
 * a question about "opciones" (a rebooking keyword) leaving Notified, and
 * Resolved being left again although its docstring says the flow is complete.
 * The texts are passed as parameters fixed by the requires clauses.
 */
module ConversationScenarios {
  import opened Text
  import opened Conversation

  /** The reply listing the alternatives holds no resolution phrase (it lacks c, m and x). */
  lemma AlternativesReplyIsNoResolution(agent: string)
    requires agent == "Aquí tiene las alternativas."
    ensures !ResolutionSignalled(agent)
  {
    assert forall i :: 0 <= i < |agent| ==>
      agent[i] != 'c' && agent[i] != 'C' && agent[i] != 'm' && agent[i] != 'M' && agent[i] != 'x' && agent[i] != 'X';
    LowerKeepsAbsent(agent, 'c');
    LowerKeepsAbsent(agent, 'm');
    LowerKeepsAbsent(agent, 'x');
    NoMatch(Lower(agent), ResolutionKeywords, "ccccxcccmmmmm");
  }

  /** The acknowledgement of a refund request holds no resolution phrase (it lacks b, f and x). */
  lemma AcknowledgementIsNoResolution(agent: string)
    requires agent == "Entendido, procesaremos..."
    ensures !ResolutionSignalled(agent)
  {
    assert forall i :: 0 <= i < |agent| ==>
      agent[i] != 'b' && agent[i] != 'B' && agent[i] != 'f' && agent[i] != 'F' && agent[i] != 'x' && agent[i] != 'X';
    LowerKeepsAbsent(agent, 'b');
    LowerKeepsAbsent(agent, 'f');
    LowerKeepsAbsent(agent, 'x');
    NoMatch(Lower(agent), ResolutionKeywords, "fbffxbbfbbbbb");
  }

  /** The apology that opens the conversation holds no resolution phrase (it lacks b, c and x). */
  lemma ApologyIsNoResolution(agent: string)
    requires agent == "Lamentamos informarle..."
    ensures !ResolutionSignalled(agent)
  {
    assert forall i :: 0 <= i < |agent| ==>
      agent[i] != 'b' && agent[i] != 'B' && agent[i] != 'c' && agent[i] != 'C' && agent[i] != 'x' && agent[i] != 'X';
    LowerKeepsAbsent(agent, 'b');
    LowerKeepsAbsent(agent, 'c');
    LowerKeepsAbsent(agent, 'x');
    NoMatch(Lower(agent), ResolutionKeywords, "ccccxcccbbbbb");
  }

  /** "mejor quiero el reembolso" holds no rebooking word (it lacks v, c, d, t and g). */
  lemma RefundWishIsNoRebooking(user: string)
    requires user == "mejor quiero el reembolso"
    ensures !RebookingRequested(user)
  {
    assert forall i :: 0 <= i < |user| ==>
      && user[i] != 'v' && user[i] != 'V' && user[i] != 'c' && user[i] != 'C'
      && user[i] != 'd' && user[i] != 'D' && user[i] != 't' && user[i] != 'T'
      && user[i] != 'g' && user[i] != 'G';
    LowerKeepsAbsent(user, 'v');
    LowerKeepsAbsent(user, 'c');
    LowerKeepsAbsent(user, 'd');
    LowerKeepsAbsent(user, 't');
    LowerKeepsAbsent(user, 'g');
    NoMatch(Lower(user), RebookingKeywords, "vvvcdtcvvvg");
  }

  /** A request for alternative flights, answered with the alternatives, starts rebooking. */
  lemma AlternativesRequestStartsRebooking(user: string, agent: string)
    requires user == "quiero ver vuelos alternativos"
    requires agent == "Aquí tiene las alternativas."
    ensures Observe(Notified, 0, user, agent) == Outcome(Rebooking, 0)
  {
    AlternativesReplyIsNoResolution(agent);
    assert user[11] == 'v';
    assert user[12] == 'u';
    assert user[13] == 'e';
    assert user[14] == 'l';
    assert user[15] == 'o';
    LoweredOccurs(user, "vuelo", 11);
    MatchAt(Lower(user), RebookingKeywords, 0, 11);
  }

  /** Asking for the refund while rebooking switches paths and counts one interruption. */
  lemma RefundRequestInterruptsRebooking(user: string, agent: string, count: nat)
    requires user == "mejor quiero el reembolso"
    requires agent == "Entendido, procesaremos..."
    ensures Observe(Rebooking, count, user, agent) == Outcome(Refund, count + 1)
  {
    AcknowledgementIsNoResolution(agent);
    RefundWishIsNoRebooking(user);
    assert user[16] == 'r';
    assert user[17] == 'e';
    assert user[18] == 'e';
    assert user[19] == 'm';
    assert user[20] == 'b';
    assert user[21] == 'o';
    assert user[22] == 'l';
    assert user[23] == 's';
    assert user[24] == 'o';
    LoweredOccurs(user, "reembolso", 16);
    MatchAt(Lower(user), RefundKeywords, 0, 16);
  }

  /** The agent's refund confirmation holds the phrase "✅ reembolso" once lowered. */
  lemma ConfirmationReplySignalsResolution(agent: string)
    requires agent == "✅ Reembolso confirmado."
    ensures ResolutionSignalled(agent)
  {
    assert agent[0] == '✅';
    assert agent[1] == ' ';
    assert agent[2] == 'R';
    assert agent[3] == 'e';
    assert agent[4] == 'e';
    assert agent[5] == 'm';
    assert agent[6] == 'b';
    assert agent[7] == 'o';
    assert agent[8] == 'l';
    assert agent[9] == 's';
    assert agent[10] == 'o';
    LoweredOccurs(agent, "✅ reembolso", 0);
    MatchAt(Lower(agent), ResolutionKeywords, 8, 0);
  }

  /** The agent's refund confirmation resolves the conversation from any other phase. */
  lemma RefundConfirmationResolves(user: string, agent: string, state: ConversationState, count: nat)
    requires user == "sí confirmo el reembolso"
    requires agent == "✅ Reembolso confirmado."
    requires state != Resolved
    ensures Observe(state, count, user, agent) == Outcome(Resolved, count)
  {
    ConfirmationReplySignalsResolution(agent);
    ResolutionPrecedence(state, count, user, agent);
  }

  /** "¿qué opciones tengo?" moves a fresh conversation to Rebooking, whatever the agent said. */
  lemma OptionsQuestionLeavesNotified(user: string, agent: string)
    requires user == "hola, ¿qué opciones tengo?"
    requires agent == "Lamentamos informarle..."
    ensures Observe(Notified, 0, user, agent) == Outcome(Rebooking, 0)
  {
    ApologyIsNoResolution(agent);
    assert user[11] == 'o';
    assert user[12] == 'p';
    assert user[13] == 'c';
    assert user[14] == 'i';
    assert user[15] == 'o';
    assert user[16] == 'n';
    assert user[17] == 'e';
    assert user[18] == 's';
    LoweredOccurs(user, "opciones", 11);
    MatchAt(Lower(user), RebookingKeywords, 3, 11);
  }

  /** A flight word after the resolution moves the conversation back to Rebooking. */
  lemma FlightWordLeavesResolved(user: string, agent: string, count: nat)
    requires user == "quiero cambiar mi vuelo"
    requires agent == "Su reserva ya fue procesada..."
    ensures Observe(Resolved, count, user, agent) == Outcome(Rebooking, count)
  {
    assert user[18] == 'v';
    assert user[19] == 'u';
    assert user[20] == 'e';
    assert user[21] == 'l';
    assert user[22] == 'o';
    LoweredOccurs(user, "vuelo", 18);
    MatchAt(Lower(user), RebookingKeywords, 0, 18);
  }

  /**
   * A rebooking conversation that switches to a refund, is resolved, and is
   * then reopened by a flight word: the bar stays full but the phase is no
   * longer final.
   */
  method Walkthrough(u1: string, a1: string, u2: string, a2: string,
                     u3: string, a3: string, u4: string, a4: string)
    requires u1 == "quiero ver vuelos alternativos" && a1 == "Aquí tiene las alternativas."
    requires u2 == "mejor quiero el reembolso" && a2 == "Entendido, procesaremos..."
    requires u3 == "sí confirmo el reembolso" && a3 == "✅ Reembolso confirmado."
    requires u4 == "quiero cambiar mi vuelo" && a4 == "Su reserva ya fue procesada..."
  {
    var m := new StateManager("10:00:00");
    var p := m.GetProgressPercentage();
    assert m.currentState == Notified && p == 25 && m.interruptionCount == 0;

    AlternativesRequestStartsRebooking(u1, a1);
    m.UpdateState(u1, a1, "10:01:00");
    p := m.GetProgressPercentage();
    assert m.currentState == Rebooking && p == 50;

    RefundRequestInterruptsRebooking(u2, a2, 0);
    m.UpdateState(u2, a2, "10:02:00");
    assert m.currentState == Refund && m.interruptionCount == 1;

    RefundConfirmationResolves(u3, a3, Refund, 1);
    m.UpdateState(u3, a3, "10:03:00");
    p := m.GetProgressPercentage();
    assert m.IsFinalState() && p == 100;

    FlightWordLeavesResolved(u4, a4, 1);
    m.UpdateState(u4, a4, "10:04:00");
    p := m.GetProgressPercentage();
    assert !m.IsFinalState() && m.currentState == Rebooking && p == 100;
    assert |m.stateHistory| == 5;
  }
}
