/** The relay engine of index.js as the program runs it: the module-level
    variables are fields of one object, and each handler updates them in
    place, record by record. Every method is proved to leave the object in
    the state the matching function of IndexRelay computes, so everything
    proved there holds of the object too. */
module IndexEngine {
  import opened Js
  import opened IndexRelay

  class Relay {
    const cfg: Config
    var playerNames: OrderedMap<string>
    var joinTimes: map<string, int>
    var messageCounts: map<string, int>
    var autoKickList: set<string>
    var flaggedForSpam: set<string>
    var reconnectAttempts: nat
    var connected: bool
    var pendingRetries: nat
    var retriesScheduled: nat
    var botPrefix: string
    var notifications: seq<Notification>
    var commands: seq<string>
    var playerLog: seq<LogEntry>
    var replies: seq<Reply>

    /** The fields, as a value. */
    function Snapshot(): State
      reads this
    {
      State(playerNames, joinTimes, messageCounts, autoKickList, flaggedForSpam, reconnectAttempts,
            connected, pendingRetries, retriesScheduled, botPrefix, notifications, commands, playerLog, replies)
    }

    ghost predicate Valid()
      reads this
    {
      Inv(Snapshot())
    }

    /** Start-up, before the gateway is ready: the log read from disk, no client. */
    constructor (cfg: Config, botPrefix: string, playerLog: seq<LogEntry>)
      ensures Valid() && this.cfg == cfg && Snapshot() == Init(botPrefix, playerLog)
    {
      this.cfg := cfg;
      playerNames := EmptyMap();
      joinTimes := map[];
      messageCounts := map[];
      autoKickList := {};
      flaggedForSpam := {};
      reconnectAttempts := 0;
      connected := false;
      pendingRetries := 0;
      retriesScheduled := 0;
      this.botPrefix := botPrefix;
      notifications := [];
      commands := [];
      this.playerLog := playerLog;
      replies := [];
    }

    /** `logPlayerJoin`. */
    method LogPlayerJoin(username: string, device: string, now: int)
      modifies this`playerLog
      ensures playerLog == old(playerLog) + [LogEntry(JoinEvent, username, Some(device), now)]
    {
      playerLog := playerLog + [LogEntry(JoinEvent, username, Some(device), now)];
    }

    /** `logPlayerLeave`, which is called without a device. */
    method LogPlayerLeave(username: string, now: int)
      modifies this`playerLog
      ensures playerLog == old(playerLog) + [LogEntry(LeaveEvent, username, None, now)]
    {
      playerLog := playerLog + [LogEntry(LeaveEvent, username, None, now)];
    }

    /** `checkAndKickPlayer`. */
    method CheckAndKick(device: string, username: string, uuid: string)
      modifies this`notifications, this`autoKickList, this`commands
      ensures Snapshot() == CheckAndKickPlayer(cfg, old(Snapshot()), device, username, uuid)
    {
      if device in cfg.bannedDevices || username in cfg.blockList {
        notifications := notifications + [PlayerKicked(username, device)];
        autoKickList := autoKickList + {uuid};
        commands := commands + [KickCommand(username)];
      }
    }

    /** The `forEach` callback of the 'add' case, for one record. */
    method OnPlayerAdded(player: AddRecord)
      modifies this
      ensures Snapshot() == PlayerAdded(cfg, old(Snapshot()), player)
    {
      var device := DeviceName(player.buildPlatform);
      if playerNames.Has(player.uuid) {
        return;
      }
      RecordJoin(player, device);
      CheckAndKick(device, player.username, player.uuid);
    }

    /** That callback up to the kick check. */
    method RecordJoin(player: AddRecord, device: string)
      modifies this`notifications, this`playerLog, this`commands, this`playerNames, this`joinTimes
      ensures Snapshot() == JoinRecorded(old(Snapshot()), player, device)
    {
      AnnounceJoin(player, device);
      StoreJoin(player);
    }

    /** The rapid-rejoin test, the join embed, the log entry and the `/me`
        announcement. */
    method AnnounceJoin(player: AddRecord, device: string)
      modifies this`notifications, this`playerLog, this`commands
      ensures Snapshot() == JoinAnnounced(old(Snapshot()), player, device)
    {
      ghost var t := JoinAnnounced(Snapshot(), player, device);
      var lastJoinTime := if player.uuid in joinTimes then joinTimes[player.uuid] else 0;
      if lastJoinTime != 0 && player.now - lastJoinTime < ConnectDisconnectThreshold {
        notifications := notifications + [RapidConnectAlert(player.username, player.uuid)];
      }
      notifications := notifications + [PlayerJoined(player.username, device)];
      assert notifications == t.notifications;
      LogPlayerJoin(player.username, device, player.now);
      commands := commands + [JoinAnnouncement(player.username, device)];
    }

    /** The uuid stored with its name and join time. */
    method StoreJoin(player: AddRecord)
      modifies this`playerNames, this`joinTimes
      ensures Snapshot() == JoinStored(old(Snapshot()), player)
    {
      playerNames := playerNames.Set(player.uuid, player.username);
      joinTimes := joinTimes[player.uuid := player.now];
    }

    /** The 'add' case of the `player_list` handler. */
    method OnPlayersAdded(records: seq<AddRecord>)
      requires Valid() && connected
      modifies this
      ensures Valid() && Snapshot() == PlayersAdded(cfg, old(Snapshot()), records)
    {
      ghost var start := Snapshot();
      var i := 0;
      while i < |records|
        invariant 0 <= i <= |records|
        invariant Snapshot() == PlayersAdded(cfg, start, records[..i])
      {
        PlayersAddedPrefix(cfg, start, records, i);
        OnPlayerAdded(records[i]);
        i := i + 1;
      }
      assert records[..|records|] == records;
    }

    /** The listener registered first for 'remove' packets (the one that
        clears spam flags), over the whole batch. */
    method ClearSpamFlags(records: seq<RemoveRecord>)
      modifies this`flaggedForSpam
      ensures Snapshot() == SpamFlagsReset(old(Snapshot()), records)
    {
      var i := 0;
      while i < |records|
        invariant 0 <= i <= |records|
        invariant flaggedForSpam == old(flaggedForSpam) - FlagsCleared(playerNames, records[..i])
      {
        var username := playerNames.Get(records[i].uuid);
        if username.Some? && Truthy(username.value) {
          flaggedForSpam := flaggedForSpam - {username.value};
        }
        assert records[..i + 1][..i] == records[..i];
        i := i + 1;
      }
      assert records[..|records|] == records;
    }

    /** A 'remove' packet: first the listener that clears spam flags, then
        the 'remove' case of the main `player_list` handler. */
    method OnPlayersRemoved(records: seq<RemoveRecord>)
      requires Valid() && connected
      modifies this
      ensures Valid() && Snapshot() == PlayersRemoved(old(Snapshot()), records)
    {
      ClearSpamFlags(records);
      ghost var cleared := Snapshot();
      var j := 0;
      while j < |records|
        invariant 0 <= j <= |records|
        invariant Snapshot() == PlayersRemovedEach(cleared, records[..j])
      {
        PlayersRemovedEachPrefix(cleared, records, j);
        OnPlayerRemoved(records[j]);
        j := j + 1;
      }
      assert records[..|records|] == records;
    }

    /** The `forEach` callback of the 'remove' case of the main handler. */
    method OnPlayerRemoved(player: RemoveRecord)
      modifies this
      ensures Snapshot() == PlayerRemoved(old(Snapshot()), player)
    {
      var username := playerNames.Get(player.uuid);
      if username.Some? && Truthy(username.value) {
        AnnounceLeave(username.value, player.now);
        ForgetPlayer(player.uuid);
      }
    }

    /** The leave embed, the log entry and the `/me` announcement. */
    method AnnounceLeave(username: string, now: int)
      modifies this`notifications, this`playerLog, this`commands
      ensures Snapshot() == LeaveAnnounced(old(Snapshot()), username, now)
    {
      notifications := notifications + [PlayerLeft(username)];
      LogPlayerLeave(username, now);
      commands := commands + [LeaveAnnouncement(username)];
    }

    /** The uuid removed from the name map, the join times and the message counts. */
    method ForgetPlayer(uuid: string)
      modifies this`playerNames, this`joinTimes, this`messageCounts
      ensures Snapshot() == LeaveForgotten(old(Snapshot()), uuid)
    {
      playerNames := playerNames.Delete(uuid);
      joinTimes := joinTimes - {uuid};
      messageCounts := messageCounts - {uuid};
    }

    /** The `text` handler. */
    method OnText(packet: TextPacket)
      requires Valid() && connected
      modifies this
      ensures Valid() && Snapshot() == TextReceived(old(Snapshot()), packet)
    {
      var message := packet.message;
      if packet.textType == Chat && Truthy(message) && !StartsWith(message, "* External") && !StartsWith(message, "<External>") {
        RelayChat(packet);
        if Trim(message) == "-leave" {
          return;
        }
      }
      if packet.textType == Chat && (StartsWith(message, "* External") || StartsWith(message, "<External>")) {
        FlagSpam(packet.sourceName);
      }
      if packet.textType == Translation && Includes(message, "death") {
        notifications := notifications + [DeathMessage(message)];
      }
    }

    /** The chat branch of the `text` handler: relay, and drop the client on
        a trimmed "-leave". */
    method RelayChat(packet: TextPacket)
      modifies this`notifications, this`connected
      ensures Snapshot() == ChatRelayed(old(Snapshot()), packet)
    {
      notifications := notifications + [Relayed(Render(packet.sourceName) + " > " + packet.message)];
      if Trim(packet.message) == "-leave" {
        connected := false;
      }
    }

    /** The External-line branch of the `text` handler. */
    method FlagSpam(sourceName: Option<string>)
      modifies this`flaggedForSpam, this`notifications
      ensures Snapshot() == SpamFlagged(old(Snapshot()), sourceName)
    {
      var username := if TruthyOption(sourceName) then sourceName else playerNames.Last();
      if !TruthyOption(username) {
        return;
      }
      if username.value in flaggedForSpam {
        return;
      }
      flaggedForSpam := flaggedForSpam + {username.value};
      notifications := notifications + [AntiSpam(username.value)];
    }

    /** The `disconnect` handler. */
    method OnDisconnect()
      requires Valid()
      modifies this
      ensures Valid() && Snapshot() == Disconnect(cfg, old(Snapshot()))
    {
      reconnectAttempts := reconnectAttempts + 1;
      if reconnectAttempts <= cfg.maxReconnectAttempts {
        pendingRetries := pendingRetries + 1;
        retriesScheduled := retriesScheduled + 1;
      }
    }

    /** `startChatRelay`; `created` says whether `createClient` returned. */
    method StartRelay(created: bool)
      requires Valid()
      modifies this
      ensures Valid() && Snapshot() == StartChatRelay(old(Snapshot()), created)
    {
      if created {
        connected := true;
        flaggedForSpam := {};
      }
    }

    /** A timer set by the `disconnect` handler fires. */
    method OnRetryElapsed(created: bool)
      requires Valid() && pendingRetries > 0
      modifies this
      ensures Valid() && Snapshot() == RetryElapsed(old(Snapshot()), created)
    {
      pendingRetries := pendingRetries - 1;
      StartRelay(created);
    }

    /** `!join`. */
    method Join(created: bool)
      requires Valid()
      modifies this
      ensures Valid() && Snapshot() == JoinCommand(old(Snapshot()), created)
    {
      if !connected {
        StartRelay(created);
        replies := replies + [Connected];
      } else {
        replies := replies + [AlreadyConnected];
      }
    }

    /** `!leave`. */
    method Leave()
      requires Valid()
      modifies this
      ensures Valid() && Snapshot() == LeaveCommand(old(Snapshot()))
    {
      if connected {
        connected := false;
        reconnectAttempts := 0;
        playerNames := EmptyMap();
        joinTimes := map[];
        messageCounts := map[];
        autoKickList := {};
        replies := replies + [Disconnected];
      } else {
        replies := replies + [NotConnected];
      }
    }

    /** `!say <text>`. */
    method Say(content: string)
      requires Valid() && StartsWith(content, botPrefix + "say ")
      modifies this
      ensures Valid() && Snapshot() == SayCommand(old(Snapshot()), content)
    {
      if !connected {
        replies := replies + [SayNotConnected];
        return;
      }
      var text := Trim(content[|botPrefix| + 4..]);
      if text == "" {
        replies := replies + [SayEmpty];
        return;
      }
      commands := commands + ["/me " + text];
      replies := replies + [MessageSent(text)];
    }

    /** `!prefix <p>`, as intended (see PrefixCommandAsWritten). */
    method Prefix(content: string)
      requires Valid()
      modifies this
      ensures Valid() && Snapshot() == PrefixCommand(old(Snapshot()), content)
    {
      var newPrefix := SecondField(content);
      if !TruthyOption(newPrefix) {
        replies := replies + [PrefixMissing];
        return;
      }
      if |newPrefix.value| > 3 {
        replies := replies + [PrefixTooLong];
        return;
      }
      botPrefix := newPrefix.value;
      replies := replies + [PrefixChanged(botPrefix)];
    }

    /** Delivers one event to the handler it is meant for. */
    method Handle(e: Event)
      requires Valid()
      modifies this
      ensures Valid() && Snapshot() == Step(cfg, old(Snapshot()), e)
    {
      if IsGameEvent(e) {
        HandleGame(e);
      } else {
        HandleControl(e);
      }
    }

    /** A realm packet, delivered only while a client is set. */
    method HandleGame(e: Event)
      requires Valid() && IsGameEvent(e)
      modifies this
      ensures Valid() && Snapshot() == GameStep(cfg, old(Snapshot()), e)
    {
      match e
      case PlayersAddedEvent(rs) => if connected { OnPlayersAdded(rs); }
      case PlayersRemovedEvent(rs) => if connected { OnPlayersRemoved(rs); }
      case TextEvent(p) => if connected { OnText(p); }
    }

    /** The connection lifecycle and the operator's commands. */
    method HandleControl(e: Event)
      requires Valid() && !IsGameEvent(e)
      modifies this
      ensures Valid() && Snapshot() == ControlStep(cfg, old(Snapshot()), e)
    {
      match e
      case Startup(created) => StartRelay(created);
      case DisconnectEvent => OnDisconnect();
      case RetryElapsedEvent(created) => if pendingRetries > 0 { OnRetryElapsed(created); }
      case JoinCommandEvent(created) => Join(created);
      case LeaveCommandEvent => Leave();
      case SayCommandEvent(content) => if StartsWith(content, botPrefix + "say ") { Say(content); }
      case PrefixCommandEvent(content) => if StartsWith(content, botPrefix + "prefix") { Prefix(content); }
    }
  }
}
