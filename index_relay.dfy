/** The relay engine of index.js, as a state machine over values.

    The module-level state of index.js (the `playerNames`, `joinTimes` and
    `messageCounts` maps, the `autoKickList` set, the `flaggedForSpam` set of
    the current client, `reconnectAttempts`, whether `mcClient` is set, the
    command prefix and the in-memory `playerLog`) is one `State`; what the
    engine sends out is appended to sequences in that state: notifications
    to the relay channel, commands queued on the game client, player-log
    entries and replies to operator commands. Every handler is a function
    from the old state to the new one; `Step` and `Run` replay a stream of
    such events. The class in module IndexEngine performs the same handlers
    in place and is proved to agree with these functions. */
module IndexRelay {
  import opened Js

  /** `connectDisconnectThreshold`, in milliseconds. */
  const ConnectDisconnectThreshold := 7000

  /** What config.json supplies to the engine. */
  datatype Config = Config(maxReconnectAttempts: int, bannedDevices: set<string>, blockList: set<string>)

  /** One record of a `player_list` packet of type 'add'; `now` is the
      reading of `Date.now()` taken while this record is handled. */
  datatype AddRecord = AddRecord(uuid: string, username: string, buildPlatform: int, now: int)

  /** One record of a `player_list` packet of type 'remove'. */
  datatype RemoveRecord = RemoveRecord(uuid: string, now: int)

  datatype TextType = Chat | Translation | OtherText

  /** A `text` packet: its type, its message and its `source_name`. */
  datatype TextPacket = TextPacket(textType: TextType, message: string, sourceName: Option<string>)

  /** An embed sent to the relay channel. */
  datatype Notification =
    | Relayed(line: string)                         // a game chat line
    | AntiSpam(username: string)                    // "Player <name> was kicked from the Realm! Reason: External Spam!"
    | DeathMessage(message: string)                 // "Death Message: <message>"
    | RapidConnectAlert(username: string, uuid: string)
    | PlayerJoined(username: string, device: string)
    | PlayerLeft(username: string)
    | PlayerKicked(username: string, device: string)

  datatype LogEvent = JoinEvent | LeaveEvent

  /** One entry of `playerLog`; a leave entry carries no device. */
  datatype LogEntry = LogEntry(event: LogEvent, username: string, device: Option<string>, time: int)

  /** The embed an operator command answers with, in the channel it came from. */
  datatype Reply =
    | Connected | AlreadyConnected | Disconnected | NotConnected
    | PrefixMissing | PrefixTooLong | PrefixChanged(prefix: string)
    | SayNotConnected | SayEmpty | MessageSent(text: string)

  datatype State = State(
    playerNames: OrderedMap<string>,   // uuid -> username, in insertion order
    joinTimes: map<string, int>,       // uuid -> time of join
    messageCounts: map<string, int>,
    autoKickList: set<string>,         // uuids
    flaggedForSpam: set<string>,       // usernames, one set per created client
    reconnectAttempts: nat,
    connected: bool,                   // mcClient is not null
    pendingRetries: nat,               // setTimeout(startChatRelay) calls not yet fired
    retriesScheduled: nat,             // setTimeout(startChatRelay) calls made so far
    botPrefix: string,
    notifications: seq<Notification>,
    commands: seq<string>,             // command_request packets queued
    playerLog: seq<LogEntry>,
    replies: seq<Reply>)

  /** The state at start-up: `playerLog` as read from its file, no client yet. */
  function Init(botPrefix: string, playerLog: seq<LogEntry>): (s: State)
    ensures Inv(s) && NoRapidAlert(s.notifications)
    ensures s.reconnectAttempts == 0 && s.retriesScheduled == 0 && !s.connected
    ensures s.playerNames.entries == map[] && s.joinTimes == map[] && s.messageCounts == map[]
    ensures s.autoKickList == {} && s.flaggedForSpam == {} && s.pendingRetries == 0
    ensures s.botPrefix == botPrefix && s.playerLog == playerLog
  {
    State(EmptyMap(), map[], map[], {}, {}, 0, false, 0, 0, botPrefix, [], [], playerLog, [])
  }

  /** What every reachable state satisfies: `playerNames` is a well-formed
      map, `joinTimes` has exactly the same keys, `messageCounts` no others,
      and every pending retry was once scheduled. */
  ghost predicate Inv(s: State) {
    && s.playerNames.Valid()
    && s.joinTimes.Keys == s.playerNames.entries.Keys
    && s.messageCounts.Keys <= s.playerNames.entries.Keys
    && s.pendingRetries <= s.retriesScheduled
  }

  /** The connection-related part of two states is the same. */
  predicate SameConnection(s: State, t: State) {
    && t.reconnectAttempts == s.reconnectAttempts
    && t.connected == s.connected
    && t.pendingRetries == s.pendingRetries
    && t.retriesScheduled == s.retriesScheduled
    && t.botPrefix == s.botPrefix
    && t.replies == s.replies
  }

  predicate NoRapidAlert(ns: seq<Notification>) {
    forall i :: 0 <= i < |ns| ==> !ns[i].RapidConnectAlert?
  }

  // ---------------------------------------------------------------------
  // Device names and moderation

  /** `getDeviceName`: the name of a `build_platform` code. */
  function DeviceName(platform: int): string {
    match platform
    case 0 => "Unknown"
    case 1 => "Android"
    case 2 => "iOS"
    case 3 => "OSX (macOS)"
    case 4 => "FireOS"
    case 5 => "GearVR"
    case 6 => "Hololens"
    case 7 => "Windows x64"
    case 8 => "Windows x86"
    case 9 => "Dedicated Server"
    case 10 => "TvOS (Apple TV)"
    case 11 => "PlayStation"
    case 12 => "Nintendo Switch"
    case 13 => "Xbox"
    case 14 => "Windows Phone"
    case 15 => "Linux"
    case _ => "Other"
  }

  /** The device table read backwards: the code a name stands for, if any. */
  function PlatformOf(device: string): Option<int> {
    if device == "Unknown" then Some(0)
    else if device == "Android" then Some(1)
    else if device == "iOS" then Some(2)
    else if device == "OSX (macOS)" then Some(3)
    else if device == "FireOS" then Some(4)
    else if device == "GearVR" then Some(5)
    else if device == "Hololens" then Some(6)
    else if device == "Windows x64" then Some(7)
    else if device == "Windows x86" then Some(8)
    else if device == "Dedicated Server" then Some(9)
    else if device == "TvOS (Apple TV)" then Some(10)
    else if device == "PlayStation" then Some(11)
    else if device == "Nintendo Switch" then Some(12)
    else if device == "Xbox" then Some(13)
    else if device == "Windows Phone" then Some(14)
    else if device == "Linux" then Some(15)
    else None
  }

  /** `getDeviceName` is a total table: the 16 codes 0..15 have 16 distinct
      names, which `PlatformOf` reads back, 7 is "Windows x64" and 0
      "Unknown"; every other value is "Other". */
  lemma DeviceNameTable(platform: int)
    ensures var d := DeviceName(platform);
      && (d == "Other" <==> !(0 <= platform <= 15))
      && PlatformOf(d) == (if 0 <= platform <= 15 then Some(platform) else None)
      && (d == "Windows x64" <==> platform == 7)
      && (d == "Unknown" <==> platform == 0)
  {
  }

  /** The condition of `checkAndKickPlayer`; the whitelist plays no part. */
  predicate ShouldKick(cfg: Config, device: string, username: string) {
    device in cfg.bannedDevices || username in cfg.blockList
  }

  function JoinAnnouncement(username: string, device: string): string {
    "/me §e" + username + "§r joined on §a" + device + "§r"
  }

  function LeaveAnnouncement(username: string): string {
    "/me §e" + username + "§r left the realm"
  }

  function KickCommand(username: string): string {
    "/kick " + username + " You are not allowed to play on this realm."
  }

  /** `checkAndKickPlayer`: a kicked player gets one kick notification, one
      `/kick` command, and its uuid in `autoKickList`; anyone else, nothing. */
  function CheckAndKickPlayer(cfg: Config, s: State, device: string, username: string, uuid: string): (t: State)
    ensures t.commands == s.commands + (if ShouldKick(cfg, device, username) then [KickCommand(username)] else [])
    ensures t.notifications == s.notifications + (if ShouldKick(cfg, device, username) then [PlayerKicked(username, device)] else [])
    ensures t.autoKickList == s.autoKickList + (if ShouldKick(cfg, device, username) then {uuid} else {})
    ensures t.(commands := s.commands, notifications := s.notifications, autoKickList := s.autoKickList) == s
  {
    if ShouldKick(cfg, device, username) then
      s.(notifications := s.notifications + [PlayerKicked(username, device)],
         autoKickList := s.autoKickList + {uuid},
         commands := s.commands + [KickCommand(username)])
    else s
  }

  // ---------------------------------------------------------------------
  // player_list 'add'

  /** Whether the rapid connect/disconnect alert fires for a join at `now`:
      the uuid has a previous, truthy join time less than the threshold ago. */
  predicate RapidRejoin(s: State, uuid: string, now: int) {
    uuid in s.joinTimes && s.joinTimes[uuid] != 0 && now - s.joinTimes[uuid] < ConnectDisconnectThreshold
  }

  /** The part of a fresh join before the kick check: the announcements,
      then the uuid stored. */
  function JoinRecorded(s: State, r: AddRecord, device: string): State {
    JoinStored(JoinAnnounced(s, r, device), r)
  }

  /** The rapid-rejoin test, the join embed, the log entry and the `/me`
      announcement. */
  function JoinAnnounced(s: State, r: AddRecord, device: string): State {
    var rapid := if RapidRejoin(s, r.uuid, r.now) then [RapidConnectAlert(r.username, r.uuid)] else [];
    s.(notifications := s.notifications + rapid + [PlayerJoined(r.username, device)],
       playerLog := s.playerLog + [LogEntry(JoinEvent, r.username, Some(device), r.now)],
       commands := s.commands + [JoinAnnouncement(r.username, device)])
  }

  /** The uuid stored with its name and join time. */
  function JoinStored(s: State, r: AddRecord): State {
    s.(playerNames := s.playerNames.Set(r.uuid, r.username),
       joinTimes := s.joinTimes[r.uuid := r.now])
  }

  /** Under the invariant, a fresh uuid has no join time, so recording its
      join sends no rapid alert and keeps the invariant. */
  lemma JoinRecordedKeepsInv(s: State, r: AddRecord, device: string)
    requires !s.playerNames.Has(r.uuid)
    ensures var t := JoinRecorded(s, r, device);
      Inv(s) ==>
      && t.notifications == s.notifications + [PlayerJoined(r.username, device)]
      && Inv(t)
  {
  }

  /** One add record. A uuid already present is ignored outright. A fresh one
      is announced, logged, stored with its join time and checked for a kick.
      Because `joinTimes` never keeps a uuid that `playerNames` lacks, the
      rapid-rejoin alert never fires. */
  function PlayerAdded(cfg: Config, s: State, r: AddRecord): (t: State)
    ensures s.playerNames.Has(r.uuid) ==> t == s
    ensures !s.playerNames.Has(r.uuid) ==>
      var device := DeviceName(r.buildPlatform);
      var kick := ShouldKick(cfg, device, r.username);
      && t.playerNames == s.playerNames.Set(r.uuid, r.username)
      && t.playerNames.Get(r.uuid) == Some(r.username)
      && (s.playerNames.Valid() ==> t.playerNames.Last() == Some(r.username))
      && t.joinTimes == s.joinTimes[r.uuid := r.now]
      && t.playerLog == s.playerLog + [LogEntry(JoinEvent, r.username, Some(device), r.now)]
      && t.commands == s.commands + [JoinAnnouncement(r.username, device)] + (if kick then [KickCommand(r.username)] else [])
      && t.autoKickList == s.autoKickList + (if kick then {r.uuid} else {})
      && (Inv(s) ==> t.notifications == s.notifications + [PlayerJoined(r.username, device)] + (if kick then [PlayerKicked(r.username, device)] else []))
    ensures forall u :: t.playerNames.Has(u) <==> s.playerNames.Has(u) || u == r.uuid
    ensures SameConnection(s, t) && t.flaggedForSpam == s.flaggedForSpam && t.messageCounts == s.messageCounts
    ensures Inv(s) ==> Inv(t)
    ensures Inv(s) && NoRapidAlert(s.notifications) ==> NoRapidAlert(t.notifications)
  {
    if s.playerNames.Has(r.uuid) then s
    else
      var device := DeviceName(r.buildPlatform);
      var joined := JoinRecorded(s, r, device);
      JoinRecordedKeepsInv(s, r, device);
      CheckAndKickPlayer(cfg, joined, device, r.username, r.uuid)
  }

  /** The uuids of a batch of add records. */
  function AddedUuids(rs: seq<AddRecord>): set<string> {
    set i | 0 <= i < |rs| :: rs[i].uuid
  }

  /** A whole 'add' packet: the records in order, as the `forEach` does. */
  function PlayersAdded(cfg: Config, s: State, rs: seq<AddRecord>): (t: State)
    ensures (forall i :: 0 <= i < |rs| ==> s.playerNames.Has(rs[i].uuid)) ==> t == s
    ensures forall u :: t.playerNames.Has(u) <==> s.playerNames.Has(u) || u in AddedUuids(rs)
    ensures SameConnection(s, t) && t.flaggedForSpam == s.flaggedForSpam && t.messageCounts == s.messageCounts
    ensures Inv(s) ==> Inv(t)
    ensures Inv(s) && NoRapidAlert(s.notifications) ==> NoRapidAlert(t.notifications)
    decreases |rs|
  {
    if rs == [] then s
    else
      var init := rs[..|rs| - 1];
      assert AddedUuids(rs) == AddedUuids(init) + {rs[|rs| - 1].uuid} by {
        assert forall i :: 0 <= i < |init| ==> init[i] == rs[i];
      }
      PlayerAdded(cfg, PlayersAdded(cfg, s, init), rs[|rs| - 1])
  }

  /** Handling the first `i + 1` records is handling the first `i`, then record `i`. */
  lemma PlayersAddedPrefix(cfg: Config, s: State, rs: seq<AddRecord>, i: nat)
    requires i < |rs|
    ensures PlayersAdded(cfg, s, rs[..i + 1]) == PlayerAdded(cfg, PlayersAdded(cfg, s, rs[..i]), rs[i])
  {
    assert rs[..i + 1][..i] == rs[..i];
  }

  /** A packet that repeats one uuid, with no removal in between, has the
      effect of its first record alone: one join, one log entry, at most one
      kick. */
  lemma {:induction false} RepeatedJoinCountsOnce(cfg: Config, s: State, rs: seq<AddRecord>)
    requires |rs| >= 1
    requires forall i :: 0 <= i < |rs| ==> rs[i].uuid == rs[0].uuid
    ensures PlayersAdded(cfg, s, rs) == PlayerAdded(cfg, s, rs[0])
    decreases |rs|
  {
    if |rs| > 1 {
      var init := rs[..|rs| - 1];
      RepeatedJoinCountsOnce(cfg, s, init);
    }
  }

  // ---------------------------------------------------------------------
  // player_list 'remove'

  /** The name the spam-flag listener clears for one uuid: its name, when
      the uuid is tracked under a truthy name. */
  function TrackedName(m: OrderedMap<string>, uuid: string): set<string> {
    if m.Has(uuid) && Truthy(m.entries[uuid]) then {m.entries[uuid]} else {}
  }

  /** The names whose spam flags the first 'remove' listener clears. */
  function FlagsCleared(m: OrderedMap<string>, rs: seq<RemoveRecord>): (names: set<string>)
    ensures forall n :: n in names <==> exists i :: 0 <= i < |rs| && n in TrackedName(m, rs[i].uuid)
    decreases |rs|
  {
    if rs == [] then {}
    else
      var init := rs[..|rs| - 1];
      var names := FlagsCleared(m, init);
      assert forall i :: 0 <= i < |init| ==> init[i] == rs[i];
      names + TrackedName(m, rs[|rs| - 1].uuid)
  }

  /** The listener registered first (index.js:314): while every name is still
      in `playerNames`, forget the spam flag of each leaving player. */
  function SpamFlagsReset(s: State, rs: seq<RemoveRecord>): State {
    s.(flaggedForSpam := s.flaggedForSpam - FlagsCleared(s.playerNames, rs))
  }

  /** One remove record of the main listener. An uuid tracked under a truthy
      name is announced, logged and deleted from all three maps; any other
      record changes nothing. */
  function PlayerRemoved(s: State, r: RemoveRecord): (t: State)
    ensures !s.playerNames.Has(r.uuid) ==> t == s
    ensures s.playerNames.Has(r.uuid) && !Truthy(s.playerNames.entries[r.uuid]) ==> t == s
    ensures s.playerNames.Has(r.uuid) && Truthy(s.playerNames.entries[r.uuid]) ==>
      var name := s.playerNames.entries[r.uuid];
      && t.playerNames == s.playerNames.Delete(r.uuid)
      && t.joinTimes == s.joinTimes - {r.uuid} && t.messageCounts == s.messageCounts - {r.uuid}
      && t.notifications == s.notifications + [PlayerLeft(name)]
      && t.playerLog == s.playerLog + [LogEntry(LeaveEvent, name, None, r.now)]
      && t.commands == s.commands + [LeaveAnnouncement(name)]
    ensures forall u :: t.playerNames.Has(u) <==> s.playerNames.Has(u) && !(u == r.uuid && Truthy(s.playerNames.entries[u]))
    ensures forall u :: t.playerNames.Has(u) ==> s.playerNames.Has(u) && t.playerNames.entries[u] == s.playerNames.entries[u]
    ensures SameConnection(s, t) && t.flaggedForSpam == s.flaggedForSpam && t.autoKickList == s.autoKickList
    ensures Inv(s) ==> Inv(t)
    ensures NoRapidAlert(s.notifications) ==> NoRapidAlert(t.notifications)
  {
    var name := s.playerNames.Get(r.uuid);
    if name.Some? && Truthy(name.value) then LeaveRecorded(s, r.uuid, name.value, r.now)
    else s
  }

  /** A known player leaving: the announcements, then the uuid forgotten. */
  function LeaveRecorded(s: State, uuid: string, name: string, now: int): State {
    LeaveForgotten(LeaveAnnounced(s, name, now), uuid)
  }

  /** The leave embed, the log entry and the `/me` announcement. */
  function LeaveAnnounced(s: State, name: string, now: int): State {
    s.(notifications := s.notifications + [PlayerLeft(name)],
       playerLog := s.playerLog + [LogEntry(LeaveEvent, name, None, now)],
       commands := s.commands + [LeaveAnnouncement(name)])
  }

  /** The uuid removed from the name map, the join times and the message counts. */
  function LeaveForgotten(s: State, uuid: string): State {
    s.(playerNames := s.playerNames.Delete(uuid),
       joinTimes := s.joinTimes - {uuid},
       messageCounts := s.messageCounts - {uuid})
  }

  /** The uuids of a batch of remove records. */
  function RemovedUuids(rs: seq<RemoveRecord>): set<string> {
    set i | 0 <= i < |rs| :: rs[i].uuid
  }

  /** The main listener's `forEach` over a 'remove' packet. */
  function PlayersRemovedEach(s: State, rs: seq<RemoveRecord>): (t: State)
    ensures (forall i :: 0 <= i < |rs| ==> !s.playerNames.Has(rs[i].uuid)) ==> t == s
    ensures forall u :: t.playerNames.Has(u) <==>
      s.playerNames.Has(u) && !(u in RemovedUuids(rs) && Truthy(s.playerNames.entries[u]))
    ensures forall u :: t.playerNames.Has(u) ==> s.playerNames.Has(u) && t.playerNames.entries[u] == s.playerNames.entries[u]
    ensures SameConnection(s, t) && t.flaggedForSpam == s.flaggedForSpam && t.autoKickList == s.autoKickList
    ensures Inv(s) ==> Inv(t)
    ensures NoRapidAlert(s.notifications) ==> NoRapidAlert(t.notifications)
    decreases |rs|
  {
    if rs == [] then s
    else
      var init := rs[..|rs| - 1];
      assert RemovedUuids(rs) == RemovedUuids(init) + {rs[|rs| - 1].uuid} by {
        assert forall i :: 0 <= i < |init| ==> init[i] == rs[i];
      }
      PlayerRemoved(PlayersRemovedEach(s, init), rs[|rs| - 1])
  }

  /** Handling the first `i + 1` records is handling the first `i`, then record `i`. */
  lemma PlayersRemovedEachPrefix(s: State, rs: seq<RemoveRecord>, i: nat)
    requires i < |rs|
    ensures PlayersRemovedEach(s, rs[..i + 1]) == PlayerRemoved(PlayersRemovedEach(s, rs[..i]), rs[i])
  {
    assert rs[..i + 1][..i] == rs[..i];
  }

  /** A whole 'remove' packet: both listeners, in the order they were
      registered. Leaving players lose their spam flag and every tracked,
      named one of them is deleted; a packet of untracked uuids changes
      nothing. */
  function PlayersRemoved(s: State, rs: seq<RemoveRecord>): (t: State)
    ensures (forall i :: 0 <= i < |rs| ==> !s.playerNames.Has(rs[i].uuid)) ==> t == s
    ensures t.flaggedForSpam == s.flaggedForSpam - FlagsCleared(s.playerNames, rs)
    ensures forall u :: t.playerNames.Has(u) <==>
      s.playerNames.Has(u) && !(u in RemovedUuids(rs) && Truthy(s.playerNames.entries[u]))
    ensures SameConnection(s, t) && t.autoKickList == s.autoKickList
    ensures Inv(s) ==> Inv(t)
    ensures NoRapidAlert(s.notifications) ==> NoRapidAlert(t.notifications)
  {
    var cleared := SpamFlagsReset(s, rs);
    UntrackedBatchClearsNothing(s, rs);
    PlayersRemovedEach(cleared, rs)
  }

  /** A batch of untracked uuids clears no spam flag. */
  lemma UntrackedBatchClearsNothing(s: State, rs: seq<RemoveRecord>)
    ensures (forall i :: 0 <= i < |rs| ==> !s.playerNames.Has(rs[i].uuid)) ==> SpamFlagsReset(s, rs) == s
  {
    if forall i :: 0 <= i < |rs| ==> !s.playerNames.Has(rs[i].uuid) {
      assert FlagsCleared(s.playerNames, rs) == {};
    }
  }

  // ---------------------------------------------------------------------
  // text packets

  /** A chat line that the anti-spam branch handles. */
  predicate IsExternal(message: string) {
    StartsWith(message, "* External") || StartsWith(message, "<External>")
  }

  /** `source_name || Array.from(playerNames.values()).pop()`, when truthy:
      the sender a spam line is blamed on. */
  function SpamSender(s: State, sourceName: Option<string>): (r: Option<string>)
    ensures r.Some? ==> Truthy(r.value)
    ensures TruthyOption(sourceName) ==> r == sourceName
    ensures !TruthyOption(sourceName) && s.playerNames.Valid() && s.playerNames.entries == map[] ==> r.None?
    ensures !TruthyOption(sourceName) && s.playerNames.Valid() && s.playerNames.order != [] ==>
      var newest := s.playerNames.entries[s.playerNames.order[|s.playerNames.order| - 1]];
      r == if Truthy(newest) then Some(newest) else None
  {
    if TruthyOption(sourceName) then sourceName
    else
      var last := s.playerNames.Last();
      if last.Some? && Truthy(last.value) then last else None
  }

  /** A leave of anyone but the player who joined last does not change whom
      the fallback blames for an External line. */
  lemma RemovalKeepsSpamSuspect(s: State, r: RemoveRecord, sourceName: Option<string>)
    requires s.playerNames.Valid() && s.playerNames.order != []
    requires s.playerNames.order[|s.playerNames.order| - 1] != r.uuid
    ensures SpamSender(PlayerRemoved(s, r), sourceName) == SpamSender(s, sourceName)
  {
    DeleteKeepsLast(s.playerNames, r.uuid);
  }

  /** The `text` handler. Ordinary chat is relayed as "<source> > <message>"
      and a trimmed "-leave" drops the client; an External line notifies
      once per blamed player and client; a translation mentioning "death"
      is forwarded. */
  function TextReceived(s: State, p: TextPacket): (t: State)
    ensures p.textType == Chat && Truthy(p.message) && !IsExternal(p.message) ==>
      && t.notifications == s.notifications + [Relayed(Render(p.sourceName) + " > " + p.message)]
      && t.connected == (s.connected && Trim(p.message) != "-leave")
      && t.(notifications := s.notifications, connected := s.connected) == s
    ensures p.textType == Chat && IsExternal(p.message) ==>
      match SpamSender(s, p.sourceName)
      case None => t == s
      case Some(name) =>
        && t.flaggedForSpam == s.flaggedForSpam + {name}
        && t.notifications == s.notifications + (if name in s.flaggedForSpam then [] else [AntiSpam(name)])
        && t.(notifications := s.notifications, flaggedForSpam := s.flaggedForSpam) == s
    ensures p.textType == Translation ==>
      t == s.(notifications := s.notifications + (if Includes(p.message, "death") then [DeathMessage(p.message)] else []))
    ensures p.textType == Chat && !Truthy(p.message) ==> t == s
    ensures p.textType == OtherText ==> t == s
    ensures Inv(s) ==> Inv(t)
    ensures NoRapidAlert(s.notifications) ==> NoRapidAlert(t.notifications)
  {
    if p.textType == Chat && Truthy(p.message) && !IsExternal(p.message) then ChatRelayed(s, p)
    else if p.textType == Chat && IsExternal(p.message) then SpamFlagged(s, p.sourceName)
    else if p.textType == Translation && Includes(p.message, "death") then
      s.(notifications := s.notifications + [DeathMessage(p.message)])
    else s
  }

  /** An ordinary chat line: relayed, and a trimmed "-leave" drops the client. */
  function ChatRelayed(s: State, p: TextPacket): (t: State)
    ensures t.notifications == s.notifications + [Relayed(Render(p.sourceName) + " > " + p.message)]
    ensures t.connected == (s.connected && Trim(p.message) != "-leave")
    ensures t.(notifications := s.notifications, connected := s.connected) == s
  {
    var relayed := s.(notifications := s.notifications + [Relayed(Render(p.sourceName) + " > " + p.message)]);
    if Trim(p.message) == "-leave" then relayed.(connected := false) else relayed
  }

  /** An External line: the blamed player is flagged and reported, once. */
  function SpamFlagged(s: State, sourceName: Option<string>): (t: State)
    ensures match SpamSender(s, sourceName)
      case None => t == s
      case Some(name) =>
        && t.flaggedForSpam == s.flaggedForSpam + {name}
        && t.notifications == s.notifications + (if name in s.flaggedForSpam then [] else [AntiSpam(name)])
        && t.(notifications := s.notifications, flaggedForSpam := s.flaggedForSpam) == s
  {
    match SpamSender(s, sourceName)
    case None => s
    case Some(name) =>
      if name in s.flaggedForSpam then s
      else s.(flaggedForSpam := s.flaggedForSpam + {name}, notifications := s.notifications + [AntiSpam(name)])
  }

  /** The same External line arriving any number of times, with nothing in
      between, yields exactly one anti-spam notification for an unflagged
      sender. */
  lemma {:induction false} SpamNotifiedOnce(s: State, p: TextPacket, k: nat)
    requires p.textType == Chat && IsExternal(p.message)
    requires SpamSender(s, p.sourceName).Some? && SpamSender(s, p.sourceName).value !in s.flaggedForSpam
    requires k >= 1
    ensures var name := SpamSender(s, p.sourceName).value;
      RepeatText(s, p, k) == s.(flaggedForSpam := s.flaggedForSpam + {name},
                                notifications := s.notifications + [AntiSpam(name)])
    decreases k
  {
    if k > 1 {
      SpamNotifiedOnce(s, p, k - 1);
    }
  }

  /** The state after `k` copies of one text packet. */
  function RepeatText(s: State, p: TextPacket, k: nat): State
    decreases k
  {
    if k == 0 then s else TextReceived(RepeatText(s, p, k - 1), p)
  }

  // ---------------------------------------------------------------------
  // connection lifecycle

  /** The `disconnect` handler: the attempt counter always grows by one, and
      a retry is scheduled exactly when the new count is within the limit. */
  function Disconnect(cfg: Config, s: State): (t: State)
    ensures t.reconnectAttempts == s.reconnectAttempts + 1
    ensures t.retriesScheduled == s.retriesScheduled + (if t.reconnectAttempts <= cfg.maxReconnectAttempts then 1 else 0)
    ensures t.pendingRetries - s.pendingRetries == t.retriesScheduled - s.retriesScheduled
    ensures t.(reconnectAttempts := s.reconnectAttempts,
               pendingRetries := s.pendingRetries, retriesScheduled := s.retriesScheduled) == s
  {
    var attempts := s.reconnectAttempts + 1;
    if attempts <= cfg.maxReconnectAttempts then
      s.(reconnectAttempts := attempts, pendingRetries := s.pendingRetries + 1,
         retriesScheduled := s.retriesScheduled + 1)
    else s.(reconnectAttempts := attempts)
  }

  /** `startChatRelay`. When `createClient` returns (`created`), the new
      client is current and its spam-flag set is empty; when it throws,
      nothing changes. It never touches the attempt counter. */
  function StartChatRelay(s: State, created: bool): (t: State)
    ensures created ==> t == s.(connected := true, flaggedForSpam := {})
    ensures !created ==> t == s
  {
    if created then s.(connected := true, flaggedForSpam := {}) else s
  }

  /** A scheduled retry fires. */
  function RetryElapsed(s: State, created: bool): (t: State)
    requires s.pendingRetries > 0
    ensures t == StartChatRelay(s.(pendingRetries := s.pendingRetries - 1), created)
  {
    StartChatRelay(s.(pendingRetries := s.pendingRetries - 1), created)
  }

  /** `!join`: only without a client; the reply says "Connected" even when
      creating the client failed. */
  function JoinCommand(s: State, created: bool): (t: State)
    ensures !s.connected ==> t == StartChatRelay(s, created).(replies := s.replies + [Connected])
    ensures s.connected ==> t == s.(replies := s.replies + [AlreadyConnected])
  {
    if !s.connected then
      var started := StartChatRelay(s, created);
      started.(replies := started.replies + [Connected])
    else s.(replies := s.replies + [AlreadyConnected])
  }

  /** `!leave`: only with a client. Drops it, resets the attempt counter to 0
      and clears the four collections; a retry already scheduled stays
      scheduled. */
  function LeaveCommand(s: State): (t: State)
    ensures s.connected ==>
      && !t.connected && t.reconnectAttempts == 0
      && t.playerNames.entries == map[] && t.joinTimes == map[] && t.messageCounts == map[] && t.autoKickList == {}
      && t.pendingRetries == s.pendingRetries
      && t.replies == s.replies + [Disconnected]
    ensures !s.connected ==> t == s.(replies := s.replies + [NotConnected])
    ensures t.flaggedForSpam == s.flaggedForSpam && t.notifications == s.notifications && t.commands == s.commands
    ensures t.playerLog == s.playerLog && t.botPrefix == s.botPrefix && t.retriesScheduled == s.retriesScheduled
    ensures Inv(s) ==> Inv(t)
  {
    if s.connected then
      s.(connected := false, reconnectAttempts := 0,
         playerNames := EmptyMap(), joinTimes := map[], messageCounts := map[], autoKickList := {},
         replies := s.replies + [Disconnected])
    else s.(replies := s.replies + [NotConnected])
  }

  /** `!say <text>`: needs a client and a non-blank text, which is trimmed
      and queued as "/me <text>". */
  function SayCommand(s: State, content: string): (t: State)
    requires StartsWith(content, s.botPrefix + "say ")
    ensures var text := Trim(content[|s.botPrefix| + 4..]);
      && (!s.connected ==> t == s.(replies := s.replies + [SayNotConnected]))
      && (s.connected && text == "" ==> t == s.(replies := s.replies + [SayEmpty]))
      && (s.connected && text != "" ==>
            t == s.(commands := s.commands + ["/me " + text], replies := s.replies + [MessageSent(text)]))
  {
    if !s.connected then s.(replies := s.replies + [SayNotConnected])
    else
      var text := Trim(content[|s.botPrefix| + 4..]);
      if text == "" then s.(replies := s.replies + [SayEmpty])
      else s.(commands := s.commands + ["/me " + text], replies := s.replies + [MessageSent(text)])
  }

  /** `!prefix <p>` as written: `botPrefix` is bound by `const`, so assigning
      it throws a TypeError before any reply is sent. Only the two error
      replies are ever produced and the prefix never changes: on a valid
      word nothing happens, otherwise it answers as the intended command. */
  function PrefixCommandAsWritten(s: State, content: string): (t: State)
    ensures t.botPrefix == s.botPrefix
    ensures t.replies == s.replies || t.replies == s.replies + [PrefixMissing] || t.replies == s.replies + [PrefixTooLong]
    ensures var arg := SecondField(content);
      t == (if TruthyOption(arg) && |arg.value| <= 3 then s else PrefixCommand(s, content))
  {
    var arg := SecondField(content);
    if !TruthyOption(arg) then s.(replies := s.replies + [PrefixMissing])
    else if |arg.value| > 3 then s.(replies := s.replies + [PrefixTooLong])
    else s
  }

  /** "!prefix ?", a valid request, changes nothing and gets no reply. */
  lemma PrefixAsWrittenIgnoresValidPrefix(s: State)
    ensures PrefixCommandAsWritten(s, "!prefix ?") == s
  {
    assert ' ' !in "!prefix" && ' ' !in "?";
    SecondFieldOf("!prefix", "?");
    assert "!prefix" + " " + "?" == "!prefix ?";
  }

  /** `!prefix <p>` as intended: the word after the command becomes the prefix
      when it is non-empty and at most 3 characters long. */
  function PrefixCommand(s: State, content: string): (t: State)
    ensures var arg := SecondField(content);
      && (TruthyOption(arg) && |arg.value| <= 3 ==>
            t == s.(botPrefix := arg.value, replies := s.replies + [PrefixChanged(arg.value)]))
      && (!TruthyOption(arg) ==> t == s.(replies := s.replies + [PrefixMissing]))
      && (TruthyOption(arg) && |arg.value| > 3 ==> t == s.(replies := s.replies + [PrefixTooLong]))
    ensures 1 <= |t.botPrefix| <= 3 || t.botPrefix == s.botPrefix
    ensures ' ' !in t.botPrefix || t.botPrefix == s.botPrefix
  {
    var arg := SecondField(content);
    if !TruthyOption(arg) then s.(replies := s.replies + [PrefixMissing])
    else if |arg.value| > 3 then s.(replies := s.replies + [PrefixTooLong])
    else s.(botPrefix := arg.value, replies := s.replies + [PrefixChanged(arg.value)])
  }

  // ---------------------------------------------------------------------
  // event streams

  /** What can happen to the engine. Game events (player lists and text)
      come from the current client; the others from its socket, a timer,
      or an operator. */
  datatype Event =
    | Startup(created: bool)                // the gateway's 'ready' event
    | PlayersAddedEvent(adds: seq<AddRecord>)
    | PlayersRemovedEvent(removes: seq<RemoveRecord>)
    | TextEvent(packet: TextPacket)
    | DisconnectEvent
    | RetryElapsedEvent(created: bool)
    | JoinCommandEvent(created: bool)
    | LeaveCommandEvent
    | SayCommandEvent(content: string)
    | PrefixCommandEvent(content: string)

  /** One event. Game events are only delivered while a client is set, a
      timer only fires when one is pending, and `!say` only reaches the
      engine through its prefix. */
  function Step(cfg: Config, s: State, e: Event): (t: State)
    ensures Inv(s) ==> Inv(t)
    ensures Inv(s) && NoRapidAlert(s.notifications) ==> NoRapidAlert(t.notifications)
    ensures !e.LeaveCommandEvent? ==> t.reconnectAttempts >= s.reconnectAttempts
  {
    if IsGameEvent(e) then GameStep(cfg, s, e) else ControlStep(cfg, s, e)
  }

  /** The events the realm client delivers. */
  predicate IsGameEvent(e: Event) {
    e.PlayersAddedEvent? || e.PlayersRemovedEvent? || e.TextEvent?
  }

  /** A packet from the realm, handled only while a client is connected;
      none of them touches the retry bookkeeping. */
  function GameStep(cfg: Config, s: State, e: Event): (t: State)
    requires IsGameEvent(e)
    ensures Inv(s) ==> Inv(t)
    ensures Inv(s) && NoRapidAlert(s.notifications) ==> NoRapidAlert(t.notifications)
    ensures t.reconnectAttempts == s.reconnectAttempts && t.retriesScheduled == s.retriesScheduled
    ensures !s.connected ==> t == s
  {
    match e
    case PlayersAddedEvent(rs) => if s.connected then PlayersAdded(cfg, s, rs) else s
    case PlayersRemovedEvent(rs) => if s.connected then PlayersRemoved(s, rs) else s
    case TextEvent(p) => if s.connected then TextReceived(s, p) else s
  }

  /** The connection lifecycle and the operator's commands. */
  function ControlStep(cfg: Config, s: State, e: Event): (t: State)
    requires !IsGameEvent(e)
    ensures Inv(s) ==> Inv(t)
    ensures Inv(s) && NoRapidAlert(s.notifications) ==> NoRapidAlert(t.notifications)
    ensures !e.LeaveCommandEvent? ==> t.reconnectAttempts >= s.reconnectAttempts
  {
    match e
    case Startup(created) => StartChatRelay(s, created)
    case DisconnectEvent => Disconnect(cfg, s)
    case RetryElapsedEvent(created) => if s.pendingRetries > 0 then RetryElapsed(s, created) else s
    case JoinCommandEvent(created) => JoinCommand(s, created)
    case LeaveCommandEvent => LeaveCommand(s)
    case SayCommandEvent(_) => TextCommandStep(s, e)
    case PrefixCommandEvent(_) => TextCommandStep(s, e)
  }

  /** `!say` and `!prefix`, each taken only when the message starts with the
      current prefix and the command's name; neither touches the connection
      or the tracked players. */
  function TextCommandStep(s: State, e: Event): (t: State)
    requires e.SayCommandEvent? || e.PrefixCommandEvent?
    ensures Inv(s) ==> Inv(t)
    ensures t.notifications == s.notifications
    ensures t.reconnectAttempts == s.reconnectAttempts && t.retriesScheduled == s.retriesScheduled
    ensures t.connected == s.connected && t.pendingRetries == s.pendingRetries
    ensures t.playerNames == s.playerNames && t.joinTimes == s.joinTimes
    ensures e.SayCommandEvent? ==>
      (StartsWith(e.content, s.botPrefix + "say ") ==> t == SayCommand(s, e.content))
      && (!StartsWith(e.content, s.botPrefix + "say ") ==> t == s)
    ensures e.PrefixCommandEvent? ==>
      (StartsWith(e.content, s.botPrefix + "prefix") ==> t == PrefixCommand(s, e.content))
      && (!StartsWith(e.content, s.botPrefix + "prefix") ==> t == s)
  {
    match e
    case SayCommandEvent(content) =>
      if StartsWith(content, s.botPrefix + "say ") then SayCommand(s, content) else s
    case PrefixCommandEvent(content) =>
      if StartsWith(content, s.botPrefix + "prefix") then PrefixCommand(s, content) else s
  }

  /** A stream of events, first to last. */
  function Run(cfg: Config, s: State, evs: seq<Event>): (t: State)
    ensures Inv(s) ==> Inv(t)
    ensures Inv(s) && NoRapidAlert(s.notifications) ==> NoRapidAlert(t.notifications)
    decreases |evs|
  {
    if evs == [] then s else Run(cfg, Step(cfg, s, evs[0]), evs[1..])
  }

  /** The rapid connect/disconnect alert is never sent, whatever happens. */
  lemma RapidAlertNeverSent(cfg: Config, prefix: string, log: seq<LogEntry>, evs: seq<Event>)
    ensures NoRapidAlert(Run(cfg, Init(prefix, log), evs).notifications)
  {
  }

  /** The share of the retry budget a counter value has used up. */
  function Spent(cfg: Config, attempts: nat): nat {
    if attempts <= cfg.maxReconnectAttempts then attempts
    else if cfg.maxReconnectAttempts < 0 then 0 else cfg.maxReconnectAttempts
  }

  /** Without `!leave`, retries are scheduled only while the counter climbs
      to the limit: from a state whose counter is `a`, at most
      `maxReconnectAttempts - a` more are ever scheduled, however many times
      the client connects in between. */
  lemma {:induction false} RetriesBounded(cfg: Config, s: State, evs: seq<Event>)
    requires forall i :: 0 <= i < |evs| ==> !evs[i].LeaveCommandEvent?
    ensures var t := Run(cfg, s, evs);
      && t.reconnectAttempts >= s.reconnectAttempts
      && t.retriesScheduled <= s.retriesScheduled + Spent(cfg, t.reconnectAttempts) - Spent(cfg, s.reconnectAttempts)
    decreases |evs|
  {
    if evs != [] {
      var s' := Step(cfg, s, evs[0]);
      StepRetries(cfg, s, evs[0]);
      RetriesBounded(cfg, s', evs[1..]);
    }
  }

  lemma StepRetries(cfg: Config, s: State, e: Event)
    requires !e.LeaveCommandEvent?
    ensures var t := Step(cfg, s, e);
      && t.reconnectAttempts >= s.reconnectAttempts
      && t.retriesScheduled <= s.retriesScheduled + Spent(cfg, t.reconnectAttempts) - Spent(cfg, s.reconnectAttempts)
  {
    if !IsGameEvent(e) {
      ControlStepRetries(cfg, s, e);
    }
  }

  /** The same, for the events that are not realm packets. */
  lemma ControlStepRetries(cfg: Config, s: State, e: Event)
    requires !e.LeaveCommandEvent? && !IsGameEvent(e)
    ensures var t := ControlStep(cfg, s, e);
      && t.reconnectAttempts >= s.reconnectAttempts
      && t.retriesScheduled <= s.retriesScheduled + Spent(cfg, t.reconnectAttempts) - Spent(cfg, s.reconnectAttempts)
  {
  }

  /** From start-up, and with no `!leave`, at most `maxReconnectAttempts`
      retries are ever scheduled. */
  lemma RetriesBoundedFromStart(cfg: Config, prefix: string, log: seq<LogEntry>, evs: seq<Event>)
    requires forall i :: 0 <= i < |evs| ==> !evs[i].LeaveCommandEvent?
    ensures Run(cfg, Init(prefix, log), evs).retriesScheduled <= (if cfg.maxReconnectAttempts < 0 then 0 else cfg.maxReconnectAttempts)
  {
    RetriesBounded(cfg, Init(prefix, log), evs);
  }

  /** `!leave` does not cancel a retry that is already scheduled: when it
      fires, a new client is created although the operator asked to leave. */
  lemma LeaveDoesNotCancelRetry(s: State)
    requires s.connected && s.pendingRetries > 0
    ensures var t := LeaveCommand(s);
      !t.connected && t.pendingRetries > 0 && RetryElapsed(t, true).connected
  {
  }
}
