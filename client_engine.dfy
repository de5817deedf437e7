/** The relay engine of client.js as the program runs it: the module-level
    variables are fields of one object, and each handler updates them in
    place, record by record. Every method is proved to leave the object in
    the state the matching function of ClientRelay computes, so everything
    proved there holds of the object too. */
module ClientEngine {
  import opened Js
  import opened ClientRelay

  class Relay {
    const cfg: Config
    var playerNames: map<string, string>
    var joinTimes: map<string, int>
    var messageCounts: map<string, int>
    var autoKickList: set<string>
    var reconnectAttempts: nat
    var connected: bool
    var pendingRetries: nat
    var retriesScheduled: nat
    var notifications: seq<Notification>
    var packets: seq<Packet>
    var replies: seq<Reply>

    /** The fields, as a value. */
    function Snapshot(): State
      reads this
    {
      State(playerNames, joinTimes, messageCounts, autoKickList, reconnectAttempts, connected,
            pendingRetries, retriesScheduled, notifications, packets, replies)
    }

    ghost predicate Valid()
      reads this
    {
      Inv(Snapshot())
    }

    /** Start-up, before the gateway is ready: no client, nothing tracked. */
    constructor (cfg: Config)
      ensures Valid() && this.cfg == cfg && Snapshot() == Init()
    {
      this.cfg := cfg;
      playerNames := map[];
      joinTimes := map[];
      messageCounts := map[];
      autoKickList := {};
      reconnectAttempts := 0;
      connected := false;
      pendingRetries := 0;
      retriesScheduled := 0;
      notifications := [];
      packets := [];
      replies := [];
    }

    /** `checkAndKickPlayer`. */
    method CheckAndKick(device: string, username: string, uuid: string)
      modifies this`packets, this`notifications
      ensures Snapshot() == CheckAndKickPlayer(cfg, old(Snapshot()), device, username, uuid)
    {
      if device in cfg.bannedDevices {
        packets := packets + [KickPlayer(uuid, "Banned Device")];
        notifications := notifications + [KickedForDevice(username, device)];
      }
      if username in cfg.blockList {
        packets := packets + [KickPlayer(uuid, "Blocked Player")];
        notifications := notifications + [KickedBlocked(username)];
      }
    }

    /** The `forEach` callback of the 'add' case, for one record. */
    method OnPlayerAdded(player: AddRecord)
      modifies this
      ensures Snapshot() == PlayerAdded(cfg, old(Snapshot()), player)
    {
      var device := DeviceName(player.buildPlatform);
      if player.uuid in playerNames {
        return;
      }
      RecordJoin(player, device);
      CheckAndKick(device, player.username, player.uuid);
      if device == "Windows" {
        notifications := notifications + [PossibleBot(player.username, player.uuid, player.xuid)];
      }
    }

    /** The announcement and bookkeeping of a fresh join. */
    method RecordJoin(player: AddRecord, device: string)
      modifies this`notifications, this`playerNames, this`joinTimes
      ensures Snapshot() == JoinRecorded(old(Snapshot()), player, device)
    {
      ghost var t := JoinRecorded(Snapshot(), player, device);
      var lastJoinTime := if player.uuid in joinTimes then joinTimes[player.uuid] else 0;
      if lastJoinTime != 0 && player.now - lastJoinTime < ConnectDisconnectThreshold {
        notifications := notifications + [RapidConnectAlert(player.username, player.uuid, player.xuid)];
      }
      notifications := notifications + [PlayerJoined(player.username, device)];
      assert notifications == t.notifications;
      playerNames := playerNames[player.uuid := player.username];
      joinTimes := joinTimes[player.uuid := player.now];
    }

    /** The 'add' case of the `player_list` handler. */
    method OnPlayersAdded(records: seq<AddRecord>)
      requires Valid() && connected
      modifies this
      ensures Valid() && Snapshot() == PlayersAdded(cfg, old(Snapshot()), records)
    {
      ghost var start := Snapshot();
      var i := 0;
      while i < |records|
        invariant 0 <= i <= |records|
        invariant Snapshot() == PlayersAdded(cfg, start, records[..i])
      {
        PlayersAddedPrefix(cfg, start, records, i);
        OnPlayerAdded(records[i]);
        i := i + 1;
      }
      assert records[..|records|] == records;
    }

    /** The `forEach` callback of the 'remove' case, for one record. */
    method OnPlayerRemoved(player: RemoveRecord)
      modifies this
      ensures Snapshot() == PlayerRemoved(old(Snapshot()), player)
    {
      var username := if player.uuid in playerNames then Some(playerNames[player.uuid]) else None;
      notifications := notifications + [PlayerLeft(username)];
      playerNames := playerNames - {player.uuid};
      joinTimes := joinTimes - {player.uuid};
    }

    /** The 'remove' case of the `player_list` handler. */
    method OnPlayersRemoved(records: seq<RemoveRecord>)
      requires Valid() && connected
      modifies this
      ensures Valid() && Snapshot() == PlayersRemoved(old(Snapshot()), records)
    {
      ghost var start := Snapshot();
      var i := 0;
      while i < |records|
        invariant 0 <= i <= |records|
        invariant Snapshot() == PlayersRemoved(start, records[..i])
      {
        PlayersRemovedPrefix(start, records, i);
        OnPlayerRemoved(records[i]);
        i := i + 1;
      }
      assert records[..|records|] == records;
    }

    /** The retry rule shared by the `end` handler and the `catch` of
        `startChatRelay`. */
    method MaybeScheduleRetry()
      modifies this`reconnectAttempts, this`pendingRetries, this`retriesScheduled
      ensures Snapshot() == ScheduleRetry(old(Snapshot()))
    {
      if reconnectAttempts < MaxReconnectAttempts {
        reconnectAttempts := reconnectAttempts + 1;
        pendingRetries := pendingRetries + 1;
        retriesScheduled := retriesScheduled + 1;
      }
    }

    /** The `end` handler. */
    method OnEnd()
      requires Valid()
      modifies this
      ensures Valid() && Snapshot() == End(old(Snapshot()))
    {
      MaybeScheduleRetry();
    }

    /** `startChatRelay`; `created` says whether `createClient` returned. */
    method StartRelay(created: bool)
      requires Valid()
      modifies this
      ensures Valid() && Snapshot() == StartChatRelay(old(Snapshot()), created)
    {
      if created {
        connected := true;
      } else {
        MaybeScheduleRetry();
      }
    }

    /** A timer set by `end` or by a failed start fires. */
    method OnRetryElapsed(created: bool)
      requires Valid() && pendingRetries > 0
      modifies this
      ensures Valid() && Snapshot() == RetryElapsed(old(Snapshot()), created)
    {
      pendingRetries := pendingRetries - 1;
      StartRelay(created);
    }

    /** `!join`. */
    method Join(created: bool)
      requires Valid()
      modifies this
      ensures Valid() && Snapshot() == JoinCommand(old(Snapshot()), created)
    {
      if !connected {
        StartRelay(created);
        replies := replies + [Connected];
      } else {
        replies := replies + [AlreadyConnected];
      }
    }

    /** `resetClient`. */
    method Reset()
      requires Valid()
      modifies this
      ensures Valid() && Snapshot() == ResetClient(old(Snapshot()))
    {
      connected := false;
      playerNames := map[];
      joinTimes := map[];
      messageCounts := map[];
      autoKickList := {};
    }

    /** `!leave`. */
    method Leave()
      requires Valid()
      modifies this
      ensures Valid() && Snapshot() == LeaveCommand(old(Snapshot()))
    {
      if connected {
        connected := false;
        reconnectAttempts := MaxReconnectAttempts;
        playerNames := map[];
        joinTimes := map[];
        messageCounts := map[];
        autoKickList := {};
        replies := replies + [Disconnected];
      } else {
        replies := replies + [NotConnected];
      }
    }

    /** Delivers one event to the handler it is meant for. */
    method Handle(e: Event)
      requires Valid()
      modifies this
      ensures Valid() && Snapshot() == Step(cfg, old(Snapshot()), e)
    {
      match e
      case Startup(created) => StartRelay(created);
      case PlayersAddedEvent(rs) => if connected { OnPlayersAdded(rs); }
      case PlayersRemovedEvent(rs) => if connected { OnPlayersRemoved(rs); }
      case EndEvent => OnEnd();
      case RetryElapsedEvent(created) => if pendingRetries > 0 { OnRetryElapsed(created); }
      case JoinCommandEvent(created) => Join(created);
      case LeaveCommandEvent => Leave();
      case ResetClientEvent => Reset();
    }
  }
}
