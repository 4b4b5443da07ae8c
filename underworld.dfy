/** The server's player sessions and turn coordinator (underworld.py), with each
    block that the source runs under a lock taken as one atomic step. Threads,
    locks, timed waits and the connections themselves are not modelled: a write to
    a player is appended to its `written` log and `cleanup` is counted. */
module Underworld {
  import opened PlayerStates
  import opened Config
  import opened Text
  import opened Sessions
  import SessionProperties

  /** One connected player (class `Client`). */
  class Client {
    const iPlayer: nat
    var state: PlayerState
    var reason: string
    var messageFromPlayer: string
    var receivedLinesNo: nat
    var startThinkingEvent: bool
    var cleanupCount: nat
    var onReadyCalls: nat
    var onReady: Coordinator?
    var written: seq<string>

    /** The session fields as a value. */
    function Snapshot(): Session
      reads this
    {
      Session(state, reason, messageFromPlayer, receivedLinesNo, startThinkingEvent,
              cleanupCount, onReadyCalls)
    }

    /** underworld.py:74-93, without the thread and the connection. */
    constructor (iPlayer: nat, onReady: Coordinator?)
      ensures this.iPlayer == iPlayer && this.onReady == onReady
      ensures Snapshot() == Initial() && written == []
    {
      this.iPlayer := iPlayer;
      this.onReady := onReady;
      state := NotInitiated;
      reason := "";
      messageFromPlayer := "";
      receivedLinesNo := 0;
      startThinkingEvent := false;
      cleanupCount := 0;
      onReadyCalls := 0;
      written := [];
    }

    /** A write to the player's input; failures are swallowed (underworld.py:17-22). */
    method Write(data: string)
      modifies this
      ensures written == old(written) + [data]
      ensures Snapshot() == old(Snapshot()) && onReady == old(onReady)
    {
      written := written + [data];
    }

    /** The `state` setter (underworld.py:55-72). `ok` is false when its assertion
        fails, in which case nothing has changed. */
    method SetState(value: PlayerState) returns (ok: bool)
      modifies this, onReady
      ensures ok == !Rejects(old(state), value)
      ensures Snapshot() == Sessions.SetState(old(Snapshot()), value).after
      ensures onReady == old(onReady) && written == old(written)
      ensures onReady != null ==> onReady.ReadyNotified(this, NotifiesReady(old(state), value))
    {
      if Rejects(state, value) {
        return false;
      }
      if IsFinal(value) && state != value {
        cleanupCount := cleanupCount + 1;
      }
      if value != state {
        if value == Thinking {
          startThinkingEvent := true;
        } else {
          startThinkingEvent := false;
          onReadyCalls := onReadyCalls + 1;
          if onReady != null {
            onReady.OnClientStopThinking(this);
          }
        }
      }
      state := value;
      ok := true;
    }

    /** `kick` (underworld.py:165-170). */
    method Kick(reason: string) returns (ok: bool)
      modifies this, onReady
      ensures ok == !Sessions.Kick(old(Snapshot()), reason).raised
      ensures Snapshot() == Sessions.Kick(old(Snapshot()), reason).after
      ensures onReady == old(onReady) && written == old(written)
      ensures onReady != null ==> onReady.ReadyNotified(this, NotifiesReady(old(state), Kicked))
    {
      if state != Kicked {
        this.reason := reason;
      }
      ok := SetState(Kicked);
    }

    /** `handshake` (underworld.py:121-131), given the line the player answered with. */
    method Handshake(cfg: Settings, line: string)
      modifies this, onReady
      ensures Snapshot() == Sessions.Handshake(cfg, old(Snapshot()), line)
      ensures onReady == old(onReady) && written == old(written)
      ensures onReady != null ==> onReady.ReadyNotified(this, old(state) == NotInitiated)
    {
      var answer := Strip(line);
      if answer != cfg.handshakeAck {
        reason := "Handshake failed";
      }
      if state == NotInitiated {
        var ok := SetState(if answer == cfg.handshakeAck then Ready else Kicked);
      }
    }

    /** The locked block of `playerLoop` for one received line, with the exception
        handler it falls into (underworld.py:143-153). `leavesLoop` tells whether
        the loop ends, after which `Disconnect` runs. */
    method ReceiveLine(cfg: Settings, line: string) returns (leavesLoop: bool)
      modifies this, onReady
      ensures Snapshot() == Sessions.ReceiveLine(cfg, old(Snapshot()), line).after
      ensures leavesLoop == Sessions.ReceiveLine(cfg, old(Snapshot()), line).leavesLoop
      ensures onReady == old(onReady) && written == old(written)
      ensures onReady != null ==>
                onReady.ReadyNotified(this, Strip(line) == "end" && NotifiesReady(old(state), Ready))
    {
      if Strip(line) == "end" {
        var ok := SetState(Ready);
        leavesLoop := !ok;
      } else if !Sessions.IsMessageSecure(cfg, Snapshot(), line) {
        leavesLoop := true;
      } else {
        messageFromPlayer := messageFromPlayer + line;
        receivedLinesNo := receivedLinesNo + 1;
        leavesLoop := false;
      }
    }

    /** The kick after the session loop (underworld.py:155). */
    method Disconnect() returns (ok: bool)
      modifies this, onReady
      ensures ok == !Sessions.Disconnect(old(Snapshot())).raised
      ensures Snapshot() == Sessions.Disconnect(old(Snapshot())).after
      ensures onReady == old(onReady) && written == old(written)
      ensures onReady != null ==> onReady.ReadyNotified(this, NotifiesReady(old(state), Kicked))
    {
      ok := Kick("Disconnected");
    }
  }

  /** The state `runGame` shares with the players' callbacks: the set of players
      still thinking and the "everyone ready" event (underworld.py:180-241). */
  class Coordinator {
    const players: seq<Client>
    var thinkingSet: set<Client>
    var everyoneReadyEvent: bool

    /** underworld.py:181-183, 191. */
    constructor (playerList: seq<Client>)
      ensures players == playerList
      ensures thinkingSet == set i | 0 <= i < |playerList| :: playerList[i]
      ensures !everyoneReadyEvent
    {
      players := playerList;
      thinkingSet := set i | 0 <= i < |playerList| :: playerList[i];
      everyoneReadyEvent := false;
    }

    /** What `onClientStopThinking` did to the coordinator for `c`, if `notified`. */
    twostate predicate ReadyNotified(c: Client, notified: bool)
      reads this
    {
      if notified then
        thinkingSet == old(thinkingSet) - {c}
        && everyoneReadyEvent == (old(everyoneReadyEvent) || thinkingSet == {})
      else
        thinkingSet == old(thinkingSet) && everyoneReadyEvent == old(everyoneReadyEvent)
    }

    /** The players are distinct objects. */
    predicate Distinct()
    {
      forall i, j :: 0 <= i < j < |players| ==> players[i] != players[j]
    }

    /** Every player reports to this coordinator. */
    predicate Registered()
      reads players
    {
      forall i :: 0 <= i < |players| ==> players[i].onReady == this
    }

    /** The players' session fields, in index order. */
    ghost function Snapshots(): seq<Session>
      reads players
    {
      seq(|players|, j requires 0 <= j < |players| reads players => players[j].Snapshot())
    }

    /** The players' write logs, in index order. */
    ghost function Logs(): seq<seq<string>>
      reads players
    {
      seq(|players|, j requires 0 <= j < |players| reads players => players[j].written)
    }

    /** `onClientStopThinking` (underworld.py:184-189). */
    method OnClientStopThinking(client: Client)
      modifies this
      ensures ReadyNotified(client, true)
      ensures client !in thinkingSet
      ensures thinkingSet == {} ==> everyoneReadyEvent
      ensures old(everyoneReadyEvent ==> thinkingSet == {}) ==> (everyoneReadyEvent ==> thinkingSet == {})
    {
      if client in thinkingSet {
        thinkingSet := thinkingSet - {client};
      }
      if thinkingSet == {} {
        everyoneReadyEvent := true;
      }
    }

    /** Registers the callback and sends the handshake token to every player
        (underworld.py:192-195); starting the players' threads is not modelled. */
    method Start(cfg: Settings)
      requires Distinct()
      modifies players
      ensures Registered()
      ensures forall i :: 0 <= i < |players| ==>
                players[i].Snapshot() == old(players[i].Snapshot())
                && players[i].written == old(players[i].written) + [cfg.handshakeSyn + "\n"]
    {
      var i := 0;
      while i < |players|
        invariant 0 <= i <= |players|
        invariant forall j :: 0 <= j < i ==> players[j].onReady == this
        invariant forall j :: 0 <= j < i ==>
                    players[j].Snapshot() == old(players[j].Snapshot())
                    && players[j].written == old(players[j].written) + [cfg.handshakeSyn + "\n"]
        invariant forall j :: i <= j < |players| ==> unchanged(players[j])
      {
        players[i].onReady := this;
        players[i].Write(cfg.handshakeSyn + "\n");
        i := i + 1;
      }
    }

    /** The initial round (underworld.py:199-209): each READY player becomes
        THINKING, joins the thinking set and is sent its initial message; every
        other player is kicked with "Handshake timeout". Players are taken in index
        order, paired with the messages as `zip` pairs them. */
    method InitialRound(initialMessages: seq<string>)
      requires Registered() && Distinct()
      requires forall i :: 0 <= i < |players| ==> !IsOutcome(players[i].state)
      modifies this, players
      ensures Registered()
      ensures forall i :: 0 <= i < Paired(|initialMessages|) ==>
                players[i].Snapshot() == Promote(old(players[i].Snapshot())).after
                && players[i].written == old(players[i].written)
                     + (if old(players[i].state) == Ready then [initialMessages[i]] else [])
      ensures forall i :: Paired(|initialMessages|) <= i < |players| ==>
                players[i].Snapshot() == old(players[i].Snapshot()) && players[i].written == old(players[i].written)
      ensures thinkingSet == set i | 0 <= i < Paired(|initialMessages|) && old(players[i].state) == Ready :: players[i]
      ensures !everyoneReadyEvent
    {
      PromoteAll(initialMessages);
      everyoneReadyEvent := false;
    }

    /** The first `i` players have been through the initial round, starting from
        `snaps` and `logs`. */
    ghost predicate Promoted(i: nat, initialMessages: seq<string>, snaps: seq<Session>, logs: seq<seq<string>>)
      reads this, players
    {
      i <= Paired(|initialMessages|) && |snaps| == |players| && |logs| == |players| && Registered()
      && (forall j :: 0 <= j < i ==> players[j].Snapshot() == Promote(snaps[j]).after)
      && (forall j :: 0 <= j < i ==>
            players[j].written == logs[j] + (if snaps[j].state == Ready then [initialMessages[j]] else []))
      && (forall j :: i <= j < |players| ==> players[j].Snapshot() == snaps[j] && players[j].written == logs[j])
      && thinkingSet == (set j | 0 <= j < i && snaps[j].state == Ready :: players[j])
    }

    /** One pass of the loop of the initial round (underworld.py:202-208). */
    method PromoteStep(i: nat, initialMessages: seq<string>, ghost snaps: seq<Session>, ghost logs: seq<seq<string>>)
      requires Distinct() && i < Paired(|initialMessages|) && Promoted(i, initialMessages, snaps, logs)
      requires !IsOutcome(snaps[i].state)
      modifies this, players[i]
      ensures Promoted(i + 1, initialMessages, snaps, logs)
    {
      PromotePlayer(players[i], initialMessages[i]);
      forall j | 0 <= j < |players| && j != i
        ensures players[j].Snapshot() == old(players[j].Snapshot())
        ensures players[j].written == old(players[j].written)
      {
        assert players[j] != players[i] by {
          if j < i { assert players[j] != players[i]; } else { assert players[i] != players[j]; }
        }
      }
    }

    /** The loop of the initial round (underworld.py:201-208). */
    method PromoteAll(initialMessages: seq<string>)
      requires Registered() && Distinct()
      requires forall i :: 0 <= i < |players| ==> !IsOutcome(players[i].state)
      modifies this, players
      ensures Promoted(Paired(|initialMessages|), initialMessages, old(Snapshots()), old(Logs()))
    {
      var m := Paired(|initialMessages|);
      thinkingSet := {};
      var i := 0;
      while i < m
        invariant 0 <= i <= m
        invariant Promoted(i, initialMessages, old(Snapshots()), old(Logs()))
      {
        PromoteStep(i, initialMessages, old(Snapshots()), old(Logs()));
        i := i + 1;
      }
    }

    /** The initial round's step for one player (underworld.py:202-208). */
    method PromotePlayer(player: Client, message: string)
      requires player.onReady == this && player !in thinkingSet && !IsOutcome(player.state)
      modifies this, player
      ensures player.onReady == this
      ensures player.Snapshot() == Promote(old(player.Snapshot())).after
      ensures player.written == old(player.written) + (if old(player.state) == Ready then [message] else [])
      ensures thinkingSet == old(thinkingSet) + (if old(player.state) == Ready then {player} else {})
    {
      if player.state == Ready {
        var ok := player.SetState(Thinking);
        thinkingSet := thinkingSet + {player};
        player.Write(message);
      } else {
        var ok := player.Kick("Handshake timeout");
      }
    }

    /** Move collection's step for one player (underworld.py:215-222). */
    method CollectMove(player: Client) returns (move: Option<string>)
      requires player.onReady == this
      modifies this, player
      ensures player.onReady == this && player.written == old(player.written)
      ensures (player.Snapshot(), move) == Collect(old(player.Snapshot()))
      ensures ReadyNotified(player, old(player.state) == Thinking)
    {
      if player.state == Thinking {
        var ok := player.Kick("Timeout");
        move := None;
      } else {
        move := Some(player.messageFromPlayer);
        player.messageFromPlayer := "";
        player.receivedLinesNo := 0;
      }
    }

    /** Move collection (underworld.py:213-222): one move per player in index order,
        absent exactly for a player still THINKING, which is kicked with "Timeout";
        every other player hands over its buffer, which is reset with its counter. */
    method CollectMoves() returns (playerMoves: seq<Option<string>>)
      requires Registered() && Distinct()
      modifies this, players
      ensures Registered()
      ensures |playerMoves| == |players|
      ensures forall i :: 0 <= i < |players| ==>
                (players[i].Snapshot(), playerMoves[i]) == Collect(old(players[i].Snapshot()))
                && players[i].written == old(players[i].written)
      ensures forall i :: 0 <= i < |players| ==> players[i].state != Thinking
      ensures thinkingSet == old(thinkingSet) - set i | 0 <= i < |players| && old(players[i].state) == Thinking :: players[i]
      ensures everyoneReadyEvent == (old(everyoneReadyEvent)
                || ((exists i :: 0 <= i < |players| && old(players[i].state) == Thinking) && thinkingSet == {}))
    {
      playerMoves := [];
      var i := 0;
      while i < |players|
        invariant 0 <= i <= |players| && |playerMoves| == i
        invariant Registered()
        invariant forall j :: 0 <= j < i ==>
                    (players[j].Snapshot(), playerMoves[j]) == Collect(old(players[j].Snapshot()))
                    && players[j].written == old(players[j].written)
        invariant forall j :: i <= j < |players| ==> unchanged(players[j])
        invariant thinkingSet == old(thinkingSet) - set j | 0 <= j < i && old(players[j].state) == Thinking :: players[j]
        invariant everyoneReadyEvent == (old(everyoneReadyEvent)
                    || ((exists j :: 0 <= j < i && old(players[j].state) == Thinking) && thinkingSet == {}))
      {
        ghost var before := thinkingSet;
        var move := CollectMove(players[i]);
        assert thinkingSet <= before;
        playerMoves := playerMoves + [move];
        i := i + 1;
      }
      forall i | 0 <= i < |players| ensures players[i].state != Thinking {
        SessionProperties.CollectEffects(old(players[i].Snapshot()));
      }
    }

    /** Reply application's step for one player (underworld.py:230-236). */
    method ApplyToPlayer(player: Client, reply: (PlayerState, string)) returns (stillPlays: bool)
      requires player.onReady == this && player !in thinkingSet
      modifies this, player
      ensures player.onReady == this
      ensures player.Snapshot() == ApplyState(old(player.Snapshot()), reply.0)
      ensures var sent := JoinsThinking(old(player.state), reply.0);
              player.written == old(player.written) + (if sent then [reply.1] else [])
              && thinkingSet == old(thinkingSet) + (if sent then {player} else {})
      ensures stillPlays == KeepsPlaying(old(player.state), reply.0)
    {
      stillPlays := false;
      if !IsFinal(player.state) {
        var ok := player.SetState(reply.0);
        stillPlays := InPlay(player.state);
        if player.state == Thinking {
          thinkingSet := thinkingSet + {player};
          player.Write(reply.1);
        }
      }
    }

    /** Applying the engine's reply (underworld.py:226-237): players in a final
        state are left as they are, every other player takes the state the engine
        gives it; the thinking set is rebuilt from the players now THINKING, and
        only they are sent the engine's message. Players are paired with the reply
        as `zip` pairs them. */
    method ApplyReply(engineReply: seq<(PlayerState, string)>) returns (somebodyStillPlays: bool)
      requires Registered() && Distinct()
      modifies this, players
      ensures Registered()
      ensures forall i :: 0 <= i < Paired(|engineReply|) ==>
                players[i].Snapshot() == ApplyState(old(players[i].Snapshot()), engineReply[i].0)
                && players[i].written == old(players[i].written)
                     + (if JoinsThinking(old(players[i].state), engineReply[i].0)
                        then [engineReply[i].1] else [])
      ensures forall i :: Paired(|engineReply|) <= i < |players| ==>
                players[i].Snapshot() == old(players[i].Snapshot()) && players[i].written == old(players[i].written)
      ensures thinkingSet == set i | 0 <= i < Paired(|engineReply|)
                && JoinsThinking(old(players[i].state), engineReply[i].0) :: players[i]
      ensures somebodyStillPlays <==>
                (exists i :: 0 <= i < Paired(|engineReply|) && KeepsPlaying(old(players[i].state), engineReply[i].0))
      ensures !everyoneReadyEvent
    {
      somebodyStillPlays := ApplyAll(engineReply);
      everyoneReadyEvent := false;
    }

    /** The first `i` players have taken the engine's reply, starting from `snaps` and `logs`. */
    ghost predicate Applied(i: nat, engineReply: seq<(PlayerState, string)>, snaps: seq<Session>,
                            logs: seq<seq<string>>, stillPlays: bool)
      reads this, players
    {
      i <= Paired(|engineReply|) && |snaps| == |players| && |logs| == |players| && Registered()
      && (forall j :: 0 <= j < i ==> players[j].Snapshot() == ApplyState(snaps[j], engineReply[j].0))
      && (forall j :: 0 <= j < i ==>
            players[j].written == logs[j] + (if JoinsThinking(snaps[j].state, engineReply[j].0) then [engineReply[j].1] else []))
      && (forall j :: i <= j < |players| ==> players[j].Snapshot() == snaps[j] && players[j].written == logs[j])
      && thinkingSet == (set j | 0 <= j < i && JoinsThinking(snaps[j].state, engineReply[j].0) :: players[j])
      && (stillPlays <==> exists j :: 0 <= j < i && KeepsPlaying(snaps[j].state, engineReply[j].0))
    }

    /** One pass of the loop of reply application (underworld.py:230-235). */
    method ApplyStep(i: nat, engineReply: seq<(PlayerState, string)>, ghost snaps: seq<Session>,
                     ghost logs: seq<seq<string>>, stillPlays: bool) returns (stillPlays': bool)
      requires Distinct() && i < Paired(|engineReply|) && Applied(i, engineReply, snaps, logs, stillPlays)
      modifies this, players[i]
      ensures Applied(i + 1, engineReply, snaps, logs, stillPlays')
    {
      var p := ApplyToPlayer(players[i], engineReply[i]);
      stillPlays' := stillPlays || p;
      forall j | 0 <= j < |players| && j != i
        ensures players[j].Snapshot() == old(players[j].Snapshot())
        ensures players[j].written == old(players[j].written)
      {
        assert players[j] != players[i] by {
          if j < i { assert players[j] != players[i]; } else { assert players[i] != players[j]; }
        }
      }
    }

    /** The loop of reply application (underworld.py:229-235). */
    method ApplyAll(engineReply: seq<(PlayerState, string)>) returns (somebodyStillPlays: bool)
      requires Registered() && Distinct()
      modifies this, players
      ensures Applied(Paired(|engineReply|), engineReply, old(Snapshots()), old(Logs()), somebodyStillPlays)
    {
      var m := Paired(|engineReply|);
      somebodyStillPlays := false;
      thinkingSet := {};
      var i := 0;
      while i < m
        invariant 0 <= i <= m
        invariant Applied(i, engineReply, old(Snapshots()), old(Logs()), somebodyStillPlays)
      {
        somebodyStillPlays := ApplyStep(i, engineReply, old(Snapshots()), old(Logs()), somebodyStillPlays);
        i := i + 1;
      }
    }

    /** One pass of the turn loop once the wait is over (underworld.py:213-241):
        collect the moves, hand them to the engine's `processTurn` (a parameter
        here) and apply its reply. `gameOver` is true when no player is in play any
        more, which is when the source saves the results and returns. */
    method Turn(processTurn: seq<Option<string>> -> seq<(PlayerState, string)>)
      returns (playerMoves: seq<Option<string>>, gameOver: bool)
      requires Registered() && Distinct()
      modifies this, players
      ensures Registered()
      ensures |playerMoves| == |players|
      ensures forall i :: 0 <= i < |players| ==> playerMoves[i] == Collect(old(players[i].Snapshot())).1
      ensures var reply := processTurn(playerMoves);
              forall i :: 0 <= i < |players| ==>
                players[i].Snapshot() == (if i < Paired(|reply|)
                                          then ApplyState(Collect(old(players[i].Snapshot())).0, reply[i].0)
                                          else Collect(old(players[i].Snapshot())).0)
      ensures var reply := processTurn(playerMoves);
              forall i :: 0 <= i < |players| ==>
                players[i].written == old(players[i].written)
                  + (if i < Paired(|reply|) && JoinsThinking(Collect(old(players[i].Snapshot())).0.state, reply[i].0)
                     then [reply[i].1] else [])
      ensures var reply := processTurn(playerMoves);
              gameOver <==> !(exists i :: 0 <= i < Paired(|reply|)
                                && KeepsPlaying(Collect(old(players[i].Snapshot())).0.state, reply[i].0))
      ensures gameOver ==>
                forall i :: 0 <= i < Paired(|processTurn(playerMoves)|) ==> !InPlay(players[i].state)
      ensures forall i :: 0 <= i < |players| ==> (players[i] in thinkingSet <==> players[i].state == Thinking)
      ensures thinkingSet == set i | 0 <= i < |players| && players[i].state == Thinking :: players[i]
      ensures !everyoneReadyEvent
    {
      playerMoves := CollectMoves();
      label collected:
      var engineReply := processTurn(playerMoves);
      var somebodyStillPlays := ApplyReply(engineReply);
      gameOver := !somebodyStillPlays;
      var m := Paired(|engineReply|);
      forall i | 0 <= i < m
        ensures gameOver ==> !InPlay(players[i].state)
        ensures players[i] in thinkingSet <==> players[i].state == Thinking
      {
        SessionProperties.ApplyStateEffects(old@collected(players[i].Snapshot()), engineReply[i].0);
        assert gameOver ==> !KeepsPlaying(old@collected(players[i].state), engineReply[i].0);
      }
    }

    /** How many players `zip` pairs with a sequence of `n` items. */
    function Paired(n: nat): (m: nat)
      ensures m <= |players| && m <= n && (m == |players| || m == n)
    {
      if n < |players| then n else |players|
    }
  }
}
