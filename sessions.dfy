/** The per-player session of the server (class `Client` in underworld.py) as a
    value, with one function per block the source runs under the player's lock.
    The class `Underworld.Client` holds the same fields and its methods are
    specified by these functions; the lemmas below state what the source
    promises about them. */
module Sessions {
  import opened PlayerStates
  import opened Config
  import opened Text

  /** The fields of a `Client` that its state machine reads and writes.
      `cleanupCount` counts calls to `cleanup` (which closes the connection) and
      `onReadyCalls` counts the notifications the setter makes. The source calls
      `onReady` only when it is callable (underworld.py:70); `runGame` registers
      it for every player before any player thread starts (underworld.py:193-195),
      so the model treats the callback as always registered. */
  datatype Session = Session(
    state: PlayerState,
    reason: string,
    messageFromPlayer: string,
    receivedLinesNo: nat,
    startThinkingEvent: bool,
    cleanupCount: nat,
    onReadyCalls: nat)

  /** The session after an operation, and whether the operation ended in the
      assertion of the state setter failing (an AssertionError). */
  datatype Step = Step(after: Session, raised: bool)

  /** A freshly constructed client (underworld.py:85-91). */
  function Initial(): Session {
    Session(NotInitiated, "", "", 0, false, 0, 0)
  }

  /** The start-thinking event is set exactly in THINKING, and cleanup has run
      once if and only if the state is final. */
  predicate Consistent(s: Session) {
    s.startThinkingEvent == (s.state == Thinking)
    && s.cleanupCount == (if IsFinal(s.state) then 1 else 0)
  }

  /** The per-turn input stays within the configured ceilings. */
  predicate WithinLimits(cfg: Settings, s: Session) {
    s.receivedLinesNo <= cfg.maxRecvLinesNo
    && (s.messageFromPlayer == "" || |s.messageFromPlayer| < cfg.maxRecvSize)
  }

  /** The setter's assertion fails: a final state may only be re-assigned itself. */
  predicate Rejects(from: PlayerState, to: PlayerState) {
    IsFinal(from) && from != to
  }

  /** The setter calls `onReady`: an accepted change to anything but THINKING. */
  predicate NotifiesReady(from: PlayerState, to: PlayerState) {
    !Rejects(from, to) && to != from && to != Thinking
  }

  /** The `state` property setter (underworld.py:55-72). */
  function SetState(s: Session, value: PlayerState): Step {
    if Rejects(s.state, value) then Step(s, true)
    else if value == s.state then Step(s, false)
    else
      Step(s.(state := value,
              cleanupCount := s.cleanupCount + (if IsFinal(value) then 1 else 0),
              startThinkingEvent := value == Thinking,
              onReadyCalls := s.onReadyCalls + (if value == Thinking then 0 else 1)),
           false)
  }

  /** `kick` (underworld.py:165-170): the reason is written before the setter runs,
      so a player in an outcome state gets the new reason and then the assertion fails. */
  function Kick(s: Session, reason: string): Step {
    var s1 := if s.state != Kicked then s.(reason := reason) else s;
    SetState(s1, Kicked)
  }

  /** The locked part of `handshake` (underworld.py:123-131), given the line read. */
  function Handshake(cfg: Settings, s: Session, line: string): Session {
    var answer := Strip(line);
    var s1 := if answer != cfg.handshakeAck then s.(reason := "Handshake failed") else s;
    if s.state == NotInitiated then
      SetState(s1, if answer == cfg.handshakeAck then Ready else Kicked).after
    else s1
  }

  /** `_isMessageSecure` (underworld.py:156-159). */
  predicate IsMessageSecure(cfg: Settings, s: Session, message: string) {
    s.receivedLinesNo < cfg.maxRecvLinesNo
    && |s.messageFromPlayer| + |message| < cfg.maxRecvSize
    && (message == "" || message[|message| - 1] == '\n')
  }

  /** The session after one received line, and whether the session loop is left. */
  datatype Received = Received(after: Session, leavesLoop: bool)

  /** The locked block of `playerLoop` for one received line (underworld.py:143-152),
      as written. An "end" line that the setter rejects raises AssertionError; a line
      that fails the security check reaches `print(recievedMessage)`, a name that is
      not defined, so NameError is raised before `kick("Spam protection")`. Both are
      caught at underworld.py:153 and leave the loop without changing the session. */
  function ReceiveLine(cfg: Settings, s: Session, line: string): Received {
    if Strip(line) == "end" then
      var st := SetState(s, Ready);
      Received(st.after, st.raised)
    else if !IsMessageSecure(cfg, s, line) then
      Received(s, true)
    else
      Received(s.(messageFromPlayer := s.messageFromPlayer + line,
                  receivedLinesNo := s.receivedLinesNo + 1), false)
  }

  /** The same block as its authors evidently intended it: a line that fails the
      security check kicks the player with reason "Spam protection". */
  function ReceiveLineIntended(cfg: Settings, s: Session, line: string): Received {
    if Strip(line) != "end" && !IsMessageSecure(cfg, s, line) then
      Received(Kick(s, "Spam protection").after, true)
    else ReceiveLine(cfg, s, line)
  }

  /** The kick that follows the session loop, however it was left (underworld.py:155). */
  function Disconnect(s: Session): Step {
    Kick(s, "Disconnected")
  }

  /** One received line followed, when the loop is left, by the kick at underworld.py:155. */
  function AfterLine(cfg: Settings, s: Session, line: string): Step {
    var r := ReceiveLine(cfg, s, line);
    if r.leavesLoop then Disconnect(r.after) else Step(r.after, false)
  }

  /** AfterLine with the intended spam handling. */
  function AfterLineIntended(cfg: Settings, s: Session, line: string): Step {
    var r := ReceiveLineIntended(cfg, s, line);
    if r.leavesLoop then Disconnect(r.after) else Step(r.after, false)
  }

  /** What the initial round of `runGame` does to one player (underworld.py:203-208). */
  function Promote(s: Session): Step {
    if s.state == Ready then SetState(s, Thinking) else Kick(s, "Handshake timeout")
  }

  /** What move collection does to one player, and the move it records for it
      (underworld.py:216-222). */
  function Collect(s: Session): (Session, Option<string>) {
    if s.state == Thinking then (Kick(s, "Timeout").after, None)
    else (s.(messageFromPlayer := "", receivedLinesNo := 0), Some(s.messageFromPlayer))
  }

  /** What applying the engine's reply does to one player (underworld.py:231-232). */
  function ApplyState(s: Session, value: PlayerState): Session {
    if IsFinal(s.state) then s else SetState(s, value).after
  }

  /** Under the engine's reply `to`, a player in state `from` is sent the engine's
      message and joins the thinking set (underworld.py:231, 234-236). */
  predicate JoinsThinking(from: PlayerState, to: PlayerState) {
    !IsFinal(from) && to == Thinking
  }

  /** Under the engine's reply `to`, a player in state `from` is still in play
      (underworld.py:231-233). */
  predicate KeepsPlaying(from: PlayerState, to: PlayerState) {
    !IsFinal(from) && InPlay(to)
  }

  datatype Option<T> = None | Some(value: T)
}
