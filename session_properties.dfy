/** What the source promises about one player's session, proved of the
    functions in module Sessions. */
module SessionProperties {
  import opened PlayerStates
  import opened Config
  import opened Text
  import opened Sessions

  /** The setter's one-way gate (underworld.py:58): the assignment is rejected
      exactly when the state is final and the value differs, and a rejected
      assignment changes nothing. An accepted one sets the state and touches
      neither the reason nor the input buffer. */
  lemma SetStateGate(s: Session, value: PlayerState)
    ensures SetState(s, value).raised <==> IsFinal(s.state) && s.state != value
    ensures SetState(s, value).raised ==> SetState(s, value).after == s
    ensures !SetState(s, value).raised ==>
              var t := SetState(s, value).after;
              t.state == value && t.reason == s.reason
              && t.messageFromPlayer == s.messageFromPlayer && t.receivedLinesNo == s.receivedLinesNo
  {
  }

  /** The setter's side effects (underworld.py:59-71): cleanup runs when a final
      state is entered from a different one, `onReady` is called when the state
      changes to anything but THINKING, the event follows the new state, and
      re-assigning the current value changes nothing. */
  lemma SetStateEffects(s: Session, value: PlayerState)
    requires !Rejects(s.state, value)
    ensures var t := SetState(s, value).after;
            t.cleanupCount == s.cleanupCount + (if IsFinal(value) && s.state != value then 1 else 0)
            && t.onReadyCalls == s.onReadyCalls + (if NotifiesReady(s.state, value) then 1 else 0)
            && (value != s.state ==> t.startThinkingEvent == (value == Thinking))
            && (value == s.state ==> t == s)
  {
  }

  /** Any assignment, accepted or rejected, to a consistent session keeps "event
      set iff THINKING" and "cleanup ran once iff final" (underworld.py:58-72). */
  lemma SetStateKeepsConsistent(s: Session, value: PlayerState)
    requires Consistent(s)
    ensures Consistent(SetState(s, value).after)
  {
  }

  /** `kick` always leaves the player KICKED unless it holds an outcome, in which
      case the setter's assertion fails; the first kick's reason survives later kicks
      (underworld.py:165-170). */
  lemma KickEffects(s: Session, reason: string)
    ensures Kick(s, reason).raised <==> IsOutcome(s.state)
    ensures !Kick(s, reason).raised ==> Kick(s, reason).after.state == Kicked
    ensures Kick(s, reason).after.reason == (if s.state == Kicked then s.reason else reason)
    ensures Kick(s, reason).after.messageFromPlayer == s.messageFromPlayer
    ensures s.state == Kicked ==> Kick(s, reason).after == s
  {
  }

  /** `handshake` changes the state only from NOT_INITIATED, to READY exactly when
      the stripped answer is the acknowledgement and to KICKED otherwise; a wrong
      answer sets the reason "Handshake failed" whatever the state
      (underworld.py:121-131). */
  lemma HandshakeEffects(cfg: Settings, s: Session, line: string)
    ensures s.state == NotInitiated ==>
              Handshake(cfg, s, line).state == (if Strip(line) == cfg.handshakeAck then Ready else Kicked)
    ensures s.state != NotInitiated ==> Handshake(cfg, s, line).state == s.state
    ensures Handshake(cfg, s, line).reason ==
              (if Strip(line) != cfg.handshakeAck then "Handshake failed" else s.reason)
    ensures Handshake(cfg, s, line).messageFromPlayer == s.messageFromPlayer
    ensures Consistent(s) ==> Consistent(Handshake(cfg, s, line))
  {
  }

  /** A line whose strip is "end" moves the player to READY and leaves the buffer
      and the counter alone; the loop is left only when the setter rejects it
      (underworld.py:144-145). */
  lemma EndLineEndsTurn(cfg: Settings, s: Session, line: string)
    requires Strip(line) == "end"
    ensures var r := ReceiveLine(cfg, s, line);
            r.after.messageFromPlayer == s.messageFromPlayer
            && r.after.receivedLinesNo == s.receivedLinesNo
            && r.leavesLoop == IsFinal(s.state)
            && (!IsFinal(s.state) ==> r.after.state == Ready)
  {
  }

  /** Any other line is appended, with the counter raised by one, exactly when it
      passes the security check; otherwise nothing changes and the loop is left
      (underworld.py:147-152, 157-159). */
  lemma OtherLineAppendedIffSecure(cfg: Settings, s: Session, line: string)
    requires Strip(line) != "end"
    ensures var r := ReceiveLine(cfg, s, line);
            if IsMessageSecure(cfg, s, line) then
              r.after == s.(messageFromPlayer := s.messageFromPlayer + line,
                            receivedLinesNo := s.receivedLinesNo + 1) && !r.leavesLoop
            else r.after == s && r.leavesLoop
  {
  }

  /** The spam bound: a received line keeps the buffer below the size ceiling and
      the counter at or below the line ceiling (underworld.py:151-152, 157-158). */
  lemma ReceiveLineKeepsLimits(cfg: Settings, s: Session, line: string)
    requires WithinLimits(cfg, s)
    ensures WithinLimits(cfg, ReceiveLine(cfg, s, line).after)
  {
    if Strip(line) != "end" && IsMessageSecure(cfg, s, line) {
      assert |s.messageFromPlayer + line| == |s.messageFromPlayer| + |line|;
    }
  }

  /** As written, a rejected line is never appended and the player ends KICKED,
      but with the reason "Disconnected": the NameError at underworld.py:148
      bypasses `kick("Spam protection")` and the kick at underworld.py:155 runs. */
  lemma RejectedLineAsWritten(cfg: Settings, s: Session, line: string)
    requires Strip(line) != "end" && !IsMessageSecure(cfg, s, line) && !IsOutcome(s.state)
    ensures var t := AfterLine(cfg, s, line);
            !t.raised && t.after.state == Kicked
            && t.after.messageFromPlayer == s.messageFromPlayer
            && t.after.reason == (if s.state == Kicked then s.reason else "Disconnected")
  {
    KickEffects(s, "Disconnected");
  }

  /** With the intended handling, the same line kicks the player with reason
      "Spam protection", and the kick after the loop keeps that reason. */
  lemma RejectedLineIntended(cfg: Settings, s: Session, line: string)
    requires Strip(line) != "end" && !IsMessageSecure(cfg, s, line) && !IsOutcome(s.state)
    ensures var t := AfterLineIntended(cfg, s, line);
            !t.raised && t.after.state == Kicked
            && t.after.messageFromPlayer == s.messageFromPlayer
            && t.after.reason == (if s.state == Kicked then s.reason else "Spam protection")
  {
    var k := Kick(s, "Spam protection");
    KickEffects(s, "Spam protection");
    KickEffects(k.after, "Disconnected");
  }

  /** A concrete input on which the two differ: a THINKING player with a line
      ceiling of zero sends one well-formed line. */
  lemma SpamReasonDiffers()
    ensures var cfg := Settings("syn", "ack", 0, 100, 100);
            var s := Initial().(state := Thinking, startThinkingEvent := true);
            AfterLine(cfg, s, "move\n").after.reason == "Disconnected"
            && AfterLineIntended(cfg, s, "move\n").after.reason == "Spam protection"
  {
    var cfg := Settings("syn", "ack", 0, 100, 100);
    var s := Initial().(state := Thinking, startThinkingEvent := true);
    assert Strip("move\n") == "move" by { StripPadded("", "move", "\n"); assert "" + "move" + "\n" == "move\n"; }
    RejectedLineAsWritten(cfg, s, "move\n");
    RejectedLineIntended(cfg, s, "move\n");
  }

  /** Initial round: a READY player becomes THINKING; any other player is kicked
      with "Handshake timeout" (underworld.py:203-208). */
  lemma PromoteEffects(s: Session)
    requires !IsOutcome(s.state)
    ensures !Promote(s).raised
    ensures s.state == Ready ==> Promote(s).after.state == Thinking
    ensures s.state != Ready ==>
              (Promote(s).after.state == Kicked
               && Promote(s).after.reason == (if s.state == Kicked then s.reason else "Handshake timeout"))
  {
  }

  /** Move collection: the move is absent exactly for a THINKING player, which is
      kicked with "Timeout"; every other player hands over its buffer, which is
      reset with the counter; nobody is THINKING afterwards (underworld.py:216-222). */
  lemma CollectEffects(s: Session)
    ensures var (t, move) := Collect(s);
            (move.None? <==> s.state == Thinking)
            && (s.state == Thinking ==> t.state == Kicked && t.reason == "Timeout")
            && (s.state != Thinking ==>
                  (move == Some(s.messageFromPlayer) && t.state == s.state
                   && t.messageFromPlayer == "" && t.receivedLinesNo == 0))
            && t.state != Thinking
  {
  }

  /** Reply application: a player in a final state is left as it is, any other
      takes the engine's state (underworld.py:231-232). */
  lemma ApplyStateEffects(s: Session, value: PlayerState)
    ensures IsFinal(s.state) ==> ApplyState(s, value) == s
    ensures !IsFinal(s.state) ==> ApplyState(s, value).state == value
  {
  }

  /** Anything that can happen to a session: a setter call, a kick, the handshake,
      a received line (as written, or with the intended spam handling), the kick
      after the loop, and the coordinator's three steps. */
  datatype Event =
    | Assign(value: PlayerState)
    | KickFor(reason: string)
    | HandshakeWith(answer: string)
    | LineReceived(line: string)
    | LineReceivedIntended(line: string)
    | LoopLeft
    | InitialRound
    | MovesCollected
    | ReplyApplied(value: PlayerState)

  function Apply(cfg: Settings, s: Session, e: Event): Session {
    match e
    case Assign(v) => SetState(s, v).after
    case KickFor(r) => Kick(s, r).after
    case HandshakeWith(line) => Handshake(cfg, s, line)
    case LineReceived(line) => ReceiveLine(cfg, s, line).after
    case LineReceivedIntended(line) => ReceiveLineIntended(cfg, s, line).after
    case LoopLeft => Disconnect(s).after
    case InitialRound => Promote(s).after
    case MovesCollected => Collect(s).0
    case ReplyApplied(v) => ApplyState(s, v)
  }

  /** The session after a sequence of events, in order. */
  function Run(cfg: Settings, s: Session, es: seq<Event>): Session
    decreases |es|
  {
    if es == [] then s else Run(cfg, Apply(cfg, s, es[0]), es[1..])
  }

  /** A received line keeps a session consistent, with either spam handling. */
  lemma LineKeepsConsistent(cfg: Settings, s: Session, line: string)
    requires Consistent(s)
    ensures Consistent(ReceiveLine(cfg, s, line).after)
    ensures Consistent(ReceiveLineIntended(cfg, s, line).after)
  {
    SetStateKeepsConsistent(s, Ready);
    SetStateKeepsConsistent(if s.state != Kicked then s.(reason := "Spam protection") else s, Kicked);
  }

  lemma ApplyKeepsConsistent(cfg: Settings, s: Session, e: Event)
    requires Consistent(s)
    ensures Consistent(Apply(cfg, s, e))
  {
    match e
    case Assign(v) => SetStateKeepsConsistent(s, v);
    case KickFor(r) => SetStateKeepsConsistent(if s.state != Kicked then s.(reason := r) else s, Kicked);
    case HandshakeWith(line) => HandshakeEffects(cfg, s, line);
    case LineReceived(line) => LineKeepsConsistent(cfg, s, line);
    case LineReceivedIntended(line) => LineKeepsConsistent(cfg, s, line);
    case LoopLeft => SetStateKeepsConsistent(if s.state != Kicked then s.(reason := "Disconnected") else s, Kicked);
    case InitialRound =>
      SetStateKeepsConsistent(s, Thinking);
      SetStateKeepsConsistent(if s.state != Kicked then s.(reason := "Handshake timeout") else s, Kicked);
    case MovesCollected =>
      SetStateKeepsConsistent(if s.state != Kicked then s.(reason := "Timeout") else s, Kicked);
    case ReplyApplied(v) => SetStateKeepsConsistent(s, v);
  }

  /** "Event set iff THINKING" and "cleanup ran exactly once iff final" hold after
      any sequence of events from a consistent session, in particular from a new one. */
  lemma {:induction false} RunKeepsConsistent(cfg: Settings, s: Session, es: seq<Event>)
    requires Consistent(s)
    ensures Consistent(Run(cfg, s, es))
    decreases |es|
  {
    if es != [] {
      ApplyKeepsConsistent(cfg, s, es[0]);
      RunKeepsConsistent(cfg, Apply(cfg, s, es[0]), es[1..]);
    }
  }

  lemma NewSessionConsistent(cfg: Settings, es: seq<Event>)
    ensures Consistent(Run(cfg, Initial(), es))
  {
    RunKeepsConsistent(cfg, Initial(), es);
  }

  /** The per-turn input never exceeds its ceilings, whatever happens. */
  lemma {:induction false} RunKeepsLimits(cfg: Settings, s: Session, es: seq<Event>)
    requires WithinLimits(cfg, s)
    ensures WithinLimits(cfg, Run(cfg, s, es))
    decreases |es|
  {
    if es != [] {
      ApplyKeepsLimits(cfg, s, es[0]);
      RunKeepsLimits(cfg, Apply(cfg, s, es[0]), es[1..]);
    }
  }

  lemma ApplyKeepsLimits(cfg: Settings, s: Session, e: Event)
    requires WithinLimits(cfg, s)
    ensures WithinLimits(cfg, Apply(cfg, s, e))
  {
    match e
    case Assign(v) =>
    case KickFor(r) =>
    case HandshakeWith(line) => HandshakeEffects(cfg, s, line);
    case LineReceived(line) => ReceiveLineKeepsLimits(cfg, s, line);
    case LineReceivedIntended(line) => ReceiveLineKeepsLimits(cfg, s, line);
    case LoopLeft =>
    case InitialRound =>
    case MovesCollected =>
    case ReplyApplied(v) =>
  }

  /** A line received in a final state leaves the state and the reason as they
      are, with either spam handling. */
  lemma FinalLineChangesNothing(cfg: Settings, s: Session, line: string)
    requires IsFinal(s.state)
    ensures ReceiveLine(cfg, s, line).after.state == s.state
    ensures ReceiveLine(cfg, s, line).after.reason == s.reason
    ensures ReceiveLineIntended(cfg, s, line).after.state == s.state
    ensures s.state == Kicked ==> ReceiveLineIntended(cfg, s, line).after.reason == s.reason
  {
  }

  lemma ApplyKeepsFinal(cfg: Settings, s: Session, e: Event)
    requires IsFinal(s.state)
    ensures Apply(cfg, s, e).state == s.state
  {
    match e
    case Assign(v) =>
    case KickFor(r) =>
    case HandshakeWith(line) => HandshakeEffects(cfg, s, line);
    case LineReceived(line) => FinalLineChangesNothing(cfg, s, line);
    case LineReceivedIntended(line) => FinalLineChangesNothing(cfg, s, line);
    case LoopLeft =>
    case InitialRound =>
    case MovesCollected =>
    case ReplyApplied(v) =>
  }

  lemma ApplyKeepsKickedReason(cfg: Settings, s: Session, e: Event)
    requires s.state == Kicked && !e.HandshakeWith?
    ensures Apply(cfg, s, e).reason == s.reason && Apply(cfg, s, e).state == Kicked
  {
    match e
    case Assign(v) =>
    case KickFor(r) =>
    case HandshakeWith(line) =>
    case LineReceived(line) => FinalLineChangesNothing(cfg, s, line);
    case LineReceivedIntended(line) => FinalLineChangesNothing(cfg, s, line);
    case LoopLeft =>
    case InitialRound =>
    case MovesCollected =>
    case ReplyApplied(v) =>
  }

  /** Final states are a one-way gate: once final, the state never changes. */
  lemma {:induction false} FinalIsAbsorbing(cfg: Settings, s: Session, es: seq<Event>)
    requires IsFinal(s.state)
    ensures Run(cfg, s, es).state == s.state
    decreases |es|
  {
    if es != [] {
      ApplyKeepsFinal(cfg, s, es[0]);
      FinalIsAbsorbing(cfg, Apply(cfg, s, es[0]), es[1..]);
    }
  }

  /** Once KICKED, the reason is the first kick's: later kicks, collected moves and
      replies do not change it; only a handshake answer can (underworld.py:125-126). */
  lemma {:induction false} KickedReasonStable(cfg: Settings, s: Session, es: seq<Event>)
    requires s.state == Kicked
    requires forall i :: 0 <= i < |es| ==> !es[i].HandshakeWith?
    ensures Run(cfg, s, es).reason == s.reason && Run(cfg, s, es).state == Kicked
    decreases |es|
  {
    if es != [] {
      var t := Apply(cfg, s, es[0]);
      ApplyKeepsKickedReason(cfg, s, es[0]);
      KickedReasonStable(cfg, t, es[1..]);
    }
  }

  /** The exception: a player kicked in the initial round whose wrong handshake
      answer arrives afterwards stays KICKED, but its reason becomes
      "Handshake failed" instead of "Handshake timeout" (underworld.py:125-126, 207). */
  lemma LateHandshakeOverwritesReason(cfg: Settings, line: string)
    requires Strip(line) != cfg.handshakeAck
    ensures Run(cfg, Initial(), [InitialRound]).reason == "Handshake timeout"
    ensures Run(cfg, Initial(), [InitialRound, HandshakeWith(line)]).state == Kicked
    ensures Run(cfg, Initial(), [InitialRound, HandshakeWith(line)]).reason == "Handshake failed"
  {
    var s1 := Apply(cfg, Initial(), InitialRound);
    assert s1.state == Kicked && s1.reason == "Handshake timeout";
    RunOne(cfg, Initial(), InitialRound);
    HandshakeEffects(cfg, s1, line);
    assert [InitialRound, HandshakeWith(line)][1..] == [HandshakeWith(line)];
    RunOne(cfg, s1, HandshakeWith(line));
  }

  /** Two players: player 0 answers the handshake, is promoted, sends one
      acceptable move line and then "end"; player 1 never answers and is kicked in
      the initial round. At move collection player 0 hands over its line and
      player 1, being KICKED rather than THINKING, hands over its empty buffer,
      not an absent move. */
  lemma TwoPlayerTurn(cfg: Settings, answer: string, move: string, endLine: string)
    requires Strip(answer) == cfg.handshakeAck
    requires Strip(move) != "end" && (move == "" || move[|move| - 1] == '\n')
    requires 0 < cfg.maxRecvLinesNo && |move| < cfg.maxRecvSize
    requires Strip(endLine) == "end"
    ensures var p0 := Run(cfg, Initial(), [HandshakeWith(answer), InitialRound,
                                           LineReceived(move), LineReceived(endLine)]);
            p0.state == Ready && Collect(p0).1 == Some(move)
    ensures var p1 := Run(cfg, Initial(), [InitialRound]);
            p1.state == Kicked && p1.reason == "Handshake timeout" && Collect(p1).1 == Some("")
  {
    var s4 := PlayerZero(cfg, answer, move, endLine);
    RunOne(cfg, Initial(), InitialRound);
  }

  lemma PlayerZero(cfg: Settings, answer: string, move: string, endLine: string) returns (s4: Session)
    requires Strip(answer) == cfg.handshakeAck
    requires Strip(move) != "end" && (move == "" || move[|move| - 1] == '\n')
    requires 0 < cfg.maxRecvLinesNo && |move| < cfg.maxRecvSize
    requires Strip(endLine) == "end"
    ensures s4 == Run(cfg, Initial(), [HandshakeWith(answer), InitialRound, LineReceived(move), LineReceived(endLine)])
    ensures s4.state == Ready && s4.messageFromPlayer == move
  {
    var s2 := Acknowledged(cfg, answer);
    var s3 := Apply(cfg, s2, LineReceived(move));
    OtherLineAppendedIffSecure(cfg, s2, move);
    s4 := Apply(cfg, s3, LineReceived(endLine));
    EndLineEndsTurn(cfg, s3, endLine);
    RunFour(cfg, Initial(), HandshakeWith(answer), InitialRound, LineReceived(move), LineReceived(endLine));
  }

  /** A player that acknowledges the handshake is THINKING after the initial
      round, with an empty buffer. */
  lemma Acknowledged(cfg: Settings, answer: string) returns (s2: Session)
    requires Strip(answer) == cfg.handshakeAck
    ensures s2 == Apply(cfg, Apply(cfg, Initial(), HandshakeWith(answer)), InitialRound)
    ensures s2.state == Thinking && s2.messageFromPlayer == "" && s2.receivedLinesNo == 0
  {
    var s1 := Apply(cfg, Initial(), HandshakeWith(answer));
    HandshakeEffects(cfg, Initial(), answer);
    s2 := Apply(cfg, s1, InitialRound);
  }

  lemma RunOne(cfg: Settings, s: Session, e: Event)
    ensures Run(cfg, s, [e]) == Apply(cfg, s, e)
  {
    assert [e][1..] == [];
  }

  lemma RunFour(cfg: Settings, s: Session, e1: Event, e2: Event, e3: Event, e4: Event)
    ensures Run(cfg, s, [e1, e2, e3, e4])
         == Apply(cfg, Apply(cfg, Apply(cfg, Apply(cfg, s, e1), e2), e3), e4)
  {
    var s1 := Apply(cfg, s, e1);
    var s2 := Apply(cfg, s1, e2);
    var s3 := Apply(cfg, s2, e3);
    assert [e1, e2, e3, e4][1..] == [e2, e3, e4];
    assert Run(cfg, s, [e1, e2, e3, e4]) == Run(cfg, s1, [e2, e3, e4]);
    assert [e2, e3, e4][1..] == [e3, e4];
    assert Run(cfg, s1, [e2, e3, e4]) == Run(cfg, s2, [e3, e4]);
    assert [e3, e4][1..] == [e4];
    assert Run(cfg, s2, [e3, e4]) == Run(cfg, s3, [e4]);
    RunOne(cfg, s3, e4);
  }
}
