/** The relay engine of client.js, as a state machine over values.

    client.js is the other of the two versions of the bridge. Its
    module-level state (the `playerNames` and `joinTimes` maps, the
    `messageCounts` map and `autoKickList` set it only ever clears,
    `reconnectAttempts`, and whether `mcClient` is set) is one `State`;
    what it sends out is appended to sequences: embeds to the relay channel,
    `kick_player` packets written to the game client, and replies to
    operator commands. Unlike index.js it counts reconnects only while the
    counter is below the limit, and `!leave` parks the counter at the limit
    instead of resetting it. The class in module ClientEngine performs the
    same handlers in place and is proved to agree with these functions. */
module ClientRelay {
  import opened Js

  /** `maxReconnectAttempts`. */
  const MaxReconnectAttempts := 3

  /** `connectDisconnectThreshold`, in milliseconds. */
  const ConnectDisconnectThreshold := 9000

  /** The two moderation lists. client.js fixes them as constants
      (`SourceConfig`); the model takes them as a parameter so that both
      checks of `checkAndKickPlayer` can be stated. */
  datatype Config = Config(bannedDevices: set<string>, blockList: set<string>)

  /** `bannedDevices` and `blockList` as client.js declares them. */
  const SourceConfig := Config({"Device"}, {"BlockedPlayer1", "BlockedPlayer2"})

  // ---------------------------------------------------------------------
  // Pure helpers

  /** `getDeviceName`: the seven known `build_platform` codes; anything else,
      0 included, falls through `||` to "Unknown". */
  function DeviceName(platform: int): string {
    match platform
    case 7 => "Windows"
    case 1 => "iOS"
    case 2 => "Android"
    case 3 => "PlayStation"
    case 4 => "Switch"
    case 5 => "Xbox"
    case 6 => "Linux"
    case _ => "Unknown"
  }

  /** The code a known device name stands for. */
  function PlatformOf(device: string): Option<int> {
    if device == "Windows" then Some(7)
    else if device == "iOS" then Some(1)
    else if device == "Android" then Some(2)
    else if device == "PlayStation" then Some(3)
    else if device == "Switch" then Some(4)
    else if device == "Xbox" then Some(5)
    else if device == "Linux" then Some(6)
    else None
  }

  /** The seven known codes have seven distinct names, which `PlatformOf`
      reads back, 7 is "Windows", and every other code is "Unknown". */
  lemma DeviceNameTable(platform: int)
    ensures var d := DeviceName(platform);
      && (d == "Unknown" <==> !(1 <= platform <= 7))
      && (d == "Windows" <==> platform == 7)
      && PlatformOf(d) == (if 1 <= platform <= 7 then Some(platform) else None)
  {
  }

  /** A character of the class `[A-Za-z0-9]`. */
  predicate IsAlphanumeric(c: char) {
    ('A' <= c <= 'Z') || ('a' <= c <= 'z') || ('0' <= c <= '9')
  }

  /** Whether `s` matches `[A-Za-z0-9]{n}` and then the end of the input:
      the regular expression's quantifier, consumed one character at a time. */
  function MatchesAlphanumericRun(s: string, n: nat): bool
    decreases n
  {
    if n == 0 then s == []
    else s != [] && IsAlphanumeric(s[0]) && MatchesAlphanumericRun(s[1..], n - 1)
  }

  /** `isValidRealmCode`: the test of `/^[A-Za-z0-9]{15}$/`. Without the
      multiline flag `$` matches only at the very end, so the code is valid
      exactly when it is 15 characters long and all of them are letters or
      digits. */
  function IsValidRealmCode(code: string): (ok: bool)
    ensures ok <==> |code| == 15 && forall i :: 0 <= i < |code| ==> IsAlphanumeric(code[i])
  {
    AlphanumericRunIff(code, 15);
    MatchesAlphanumericRun(code, 15)
  }

  lemma {:induction false} AlphanumericRunIff(s: string, n: nat)
    ensures MatchesAlphanumericRun(s, n) <==> |s| == n && forall i :: 0 <= i < |s| ==> IsAlphanumeric(s[i])
    decreases n
  {
    if n > 0 && s != [] {
      AlphanumericRunIff(s[1..], n - 1);
      assert forall i :: 1 <= i < |s| ==> s[i] == s[1..][i - 1];
    }
  }

  // ---------------------------------------------------------------------
  // State

  /** One record of a `player_list` packet of type 'add'; `now` is the
      reading of `Date.now()` taken while this record is handled. */
  datatype AddRecord = AddRecord(uuid: string, username: string, xuid: string, buildPlatform: int, now: int)

  /** One record of a `player_list` packet of type 'remove'. */
  datatype RemoveRecord = RemoveRecord(uuid: string)

  /** An embed sent to the relay channel. */
  datatype Notification =
    | RapidConnectAlert(username: string, uuid: string, xuid: string)
    | PlayerJoined(username: string, device: string)
    | PlayerLeft(name: Option<string>)                // "Player undefined has left." for an unknown uuid
    | KickedForDevice(username: string, device: string)
    | KickedBlocked(username: string)
    | PossibleBot(username: string, uuid: string, xuid: string)

  /** A `kick_player` packet written to the game client. */
  datatype Packet = KickPlayer(uuid: string, reason: string)

  /** The embed an operator command answers with. */
  datatype Reply = Connected | AlreadyConnected | Disconnected | NotConnected

  datatype State = State(
    playerNames: map<string, string>,  // uuid -> username
    joinTimes: map<string, int>,       // uuid -> time of join
    messageCounts: map<string, int>,
    autoKickList: set<string>,
    reconnectAttempts: nat,
    connected: bool,                   // mcClient is not null
    pendingRetries: nat,               // setTimeout(startChatRelay) calls not yet fired
    retriesScheduled: nat,             // setTimeout(startChatRelay) calls made so far
    notifications: seq<Notification>,
    packets: seq<Packet>,
    replies: seq<Reply>)

  /** The state at start-up, before the gateway is ready. */
  function Init(): (s: State)
    ensures Inv(s) && NoRapidAlert(s.notifications)
    ensures s.reconnectAttempts == 0 && s.retriesScheduled == 0 && !s.connected
    ensures s.playerNames == map[] && s.joinTimes == map[] && s.messageCounts == map[]
    ensures s.autoKickList == {} && s.pendingRetries == 0
  {
    State(map[], map[], map[], {}, 0, false, 0, 0, [], [], [])
  }

  /** What every reachable state satisfies: both maps track the same uuids,
      and every retry ever scheduled was paid for by one step of the
      counter, which never passes the limit. */
  ghost predicate Inv(s: State) {
    && s.joinTimes.Keys == s.playerNames.Keys
    && s.pendingRetries <= s.retriesScheduled <= s.reconnectAttempts <= MaxReconnectAttempts
  }

  /** The connection-related part of two states is the same. */
  predicate SameConnection(s: State, t: State) {
    && t.reconnectAttempts == s.reconnectAttempts
    && t.connected == s.connected
    && t.pendingRetries == s.pendingRetries
    && t.retriesScheduled == s.retriesScheduled
    && t.replies == s.replies
  }

  predicate NoRapidAlert(ns: seq<Notification>) {
    forall i :: 0 <= i < |ns| ==> !ns[i].RapidConnectAlert?
  }

  // ---------------------------------------------------------------------
  // Moderation

  /** The `kick_player` packets `checkAndKickPlayer` writes: one per list the
      player is on, the device check first. */
  function KickPackets(cfg: Config, device: string, username: string, uuid: string): (ps: seq<Packet>)
    ensures |ps| == (if device in cfg.bannedDevices then 1 else 0) + (if username in cfg.blockList then 1 else 0)
    ensures forall i :: 0 <= i < |ps| ==> ps[i].uuid == uuid
    ensures KickPlayer(uuid, "Banned Device") in ps <==> device in cfg.bannedDevices
    ensures KickPlayer(uuid, "Blocked Player") in ps <==> username in cfg.blockList
    ensures |ps| == 2 ==> ps == [KickPlayer(uuid, "Banned Device"), KickPlayer(uuid, "Blocked Player")]
  {
    (if device in cfg.bannedDevices then [KickPlayer(uuid, "Banned Device")] else [])
    + (if username in cfg.blockList then [KickPlayer(uuid, "Blocked Player")] else [])
  }

  /** The embeds that go with those packets, in the same order. */
  function KickNotifications(cfg: Config, device: string, username: string): (ns: seq<Notification>)
    ensures |ns| == (if device in cfg.bannedDevices then 1 else 0) + (if username in cfg.blockList then 1 else 0)
    ensures KickedForDevice(username, device) in ns <==> device in cfg.bannedDevices
    ensures KickedBlocked(username) in ns <==> username in cfg.blockList
    ensures |ns| == 2 ==> ns == [KickedForDevice(username, device), KickedBlocked(username)]
  {
    (if device in cfg.bannedDevices then [KickedForDevice(username, device)] else [])
    + (if username in cfg.blockList then [KickedBlocked(username)] else [])
  }

  /** `checkAndKickPlayer`: two independent checks, each of which writes one
      packet and sends one embed; nothing else changes. */
  function CheckAndKickPlayer(cfg: Config, s: State, device: string, username: string, uuid: string): (t: State)
    ensures t.packets == s.packets + KickPackets(cfg, device, username, uuid)
    ensures t.notifications == s.notifications + KickNotifications(cfg, device, username)
    ensures t.(packets := s.packets, notifications := s.notifications) == s
  {
    var afterDevice :=
      if device in cfg.bannedDevices then
        s.(packets := s.packets + [KickPlayer(uuid, "Banned Device")],
           notifications := s.notifications + [KickedForDevice(username, device)])
      else s;
    if username in cfg.blockList then
      afterDevice.(packets := afterDevice.packets + [KickPlayer(uuid, "Blocked Player")],
                   notifications := afterDevice.notifications + [KickedBlocked(username)])
    else afterDevice
  }

  /** With the lists client.js declares, the device check never fires:
      "Device" is not a name `getDeviceName` can return. */
  lemma SourceBannedDeviceNeverMatches(platform: int)
    ensures DeviceName(platform) !in SourceConfig.bannedDevices
  {
  }

  // ---------------------------------------------------------------------
  // player_list 'add'

  /** Whether the rapid connect/disconnect alert fires for a join at `now`:
      the uuid has a previous, truthy join time less than the threshold ago. */
  predicate RapidRejoin(s: State, uuid: string, now: int) {
    uuid in s.joinTimes && s.joinTimes[uuid] != 0 && now - s.joinTimes[uuid] < ConnectDisconnectThreshold
  }

  /** The "Possible Bot!" embed a join gets: one exactly for Windows. */
  function BotAlert(r: AddRecord, device: string): (ns: seq<Notification>)
    ensures ns != [] <==> device == "Windows"
    ensures ns != [] ==> ns == [PossibleBot(r.username, r.uuid, r.xuid)]
  {
    if device == "Windows" then [PossibleBot(r.username, r.uuid, r.xuid)] else []
  }

  /** The first half of a fresh join: the join embed, after the rapid
      rejoin alert when there is one, and the uuid stored with its name and
      join time. */
  function JoinRecorded(s: State, r: AddRecord, device: string): State {
    var rapid := if RapidRejoin(s, r.uuid, r.now) then [RapidConnectAlert(r.username, r.uuid, r.xuid)] else [];
    s.(notifications := s.notifications + rapid + [PlayerJoined(r.username, device)],
       playerNames := s.playerNames[r.uuid := r.username],
       joinTimes := s.joinTimes[r.uuid := r.now])
  }

  /** In a well-formed state a fresh uuid has no join time, so the rapid
      rejoin alert cannot fire, and the two maps still agree. */
  lemma JoinRecordedKeepsInv(s: State, r: AddRecord, device: string)
    requires r.uuid !in s.playerNames
    ensures var t := JoinRecorded(s, r, device);
      Inv(s) ==>
      && t.notifications == s.notifications + [PlayerJoined(r.username, device)]
      && Inv(t)
  {
  }

  /** One add record. A uuid already present is ignored outright. A fresh one
      is announced, stored with its join time, checked for kicks and, on
      Windows, flagged as a possible bot. */
  function PlayerAdded(cfg: Config, s: State, r: AddRecord): (t: State)
    ensures r.uuid in s.playerNames ==> t == s
    ensures r.uuid !in s.playerNames ==>
      var device := DeviceName(r.buildPlatform);
      && t.playerNames == s.playerNames[r.uuid := r.username]
      && t.joinTimes == s.joinTimes[r.uuid := r.now]
      && t.packets == s.packets + KickPackets(cfg, device, r.username, r.uuid)
      && (Inv(s) ==> t.notifications == s.notifications + [PlayerJoined(r.username, device)]
                                         + KickNotifications(cfg, device, r.username) + BotAlert(r, device))
    ensures SameConnection(s, t) && t.messageCounts == s.messageCounts && t.autoKickList == s.autoKickList
    ensures Inv(s) ==> Inv(t)
    ensures Inv(s) && NoRapidAlert(s.notifications) ==> NoRapidAlert(t.notifications)
  {
    if r.uuid in s.playerNames then s
    else
      var device := DeviceName(r.buildPlatform);
      var joined := JoinRecorded(s, r, device);
      JoinRecordedKeepsInv(s, r, device);
      var checked := CheckAndKickPlayer(cfg, joined, device, r.username, r.uuid);
      checked.(notifications := checked.notifications + BotAlert(r, device))
  }

  /** The uuids of a batch of add records. */
  function AddedUuids(rs: seq<AddRecord>): set<string> {
    set i | 0 <= i < |rs| :: rs[i].uuid
  }

  /** A whole 'add' packet: the records in order, as the `forEach` does. */
  function PlayersAdded(cfg: Config, s: State, rs: seq<AddRecord>): (t: State)
    ensures (forall i :: 0 <= i < |rs| ==> rs[i].uuid in s.playerNames) ==> t == s
    ensures t.playerNames.Keys == s.playerNames.Keys + AddedUuids(rs)
    ensures forall u :: u in s.playerNames ==> u in t.playerNames && t.playerNames[u] == s.playerNames[u]
    ensures SameConnection(s, t) && t.messageCounts == s.messageCounts && t.autoKickList == s.autoKickList
    ensures Inv(s) ==> Inv(t)
    ensures Inv(s) && NoRapidAlert(s.notifications) ==> NoRapidAlert(t.notifications)
    decreases |rs|
  {
    if rs == [] then s
    else
      var init := rs[..|rs| - 1];
      assert AddedUuids(rs) == AddedUuids(init) + {rs[|rs| - 1].uuid} by {
        assert forall i :: 0 <= i < |init| ==> init[i] == rs[i];
      }
      PlayerAdded(cfg, PlayersAdded(cfg, s, init), rs[|rs| - 1])
  }

  /** Handling the first `i + 1` records is handling the first `i`, then record `i`. */
  lemma PlayersAddedPrefix(cfg: Config, s: State, rs: seq<AddRecord>, i: nat)
    requires i < |rs|
    ensures PlayersAdded(cfg, s, rs[..i + 1]) == PlayerAdded(cfg, PlayersAdded(cfg, s, rs[..i]), rs[i])
  {
    assert rs[..i + 1][..i] == rs[..i];
  }

  /** A packet that repeats one uuid has the effect of its first record
      alone: one join embed, at most one bot alert, kicks checked once. */
  lemma {:induction false} RepeatedJoinCountsOnce(cfg: Config, s: State, rs: seq<AddRecord>)
    requires |rs| >= 1
    requires forall i :: 0 <= i < |rs| ==> rs[i].uuid == rs[0].uuid
    ensures PlayersAdded(cfg, s, rs) == PlayerAdded(cfg, s, rs[0])
    decreases |rs|
  {
    if |rs| > 1 {
      var init := rs[..|rs| - 1];
      RepeatedJoinCountsOnce(cfg, s, init);
    }
  }

  // ---------------------------------------------------------------------
  // player_list 'remove'

  /** One remove record: always one leave embed, with the tracked name or
      `undefined`, and the uuid gone from both maps. */
  function PlayerRemoved(s: State, r: RemoveRecord): (t: State)
    ensures t.notifications == s.notifications + [PlayerLeft(if r.uuid in s.playerNames then Some(s.playerNames[r.uuid]) else None)]
    ensures t.playerNames == s.playerNames - {r.uuid} && t.joinTimes == s.joinTimes - {r.uuid}
    ensures r.uuid !in s.playerNames && r.uuid !in s.joinTimes ==>
      t.(notifications := s.notifications) == s
    ensures SameConnection(s, t) && t.packets == s.packets
    ensures t.messageCounts == s.messageCounts && t.autoKickList == s.autoKickList
    ensures Inv(s) ==> Inv(t)
    ensures NoRapidAlert(s.notifications) ==> NoRapidAlert(t.notifications)
  {
    var username := if r.uuid in s.playerNames then Some(s.playerNames[r.uuid]) else None;
    s.(notifications := s.notifications + [PlayerLeft(username)],
       playerNames := s.playerNames - {r.uuid},
       joinTimes := s.joinTimes - {r.uuid})
  }

  /** The uuids of a batch of remove records. */
  function RemovedUuids(rs: seq<RemoveRecord>): set<string> {
    set i | 0 <= i < |rs| :: rs[i].uuid
  }

  /** A whole 'remove' packet: one leave embed per record, every listed uuid
      forgotten, every other one kept as it was. */
  function PlayersRemoved(s: State, rs: seq<RemoveRecord>): (t: State)
    ensures |t.notifications| == |s.notifications| + |rs|
    ensures t.notifications[..|s.notifications|] == s.notifications
    ensures forall i :: |s.notifications| <= i < |t.notifications| ==> t.notifications[i].PlayerLeft?
    ensures t.playerNames == s.playerNames - RemovedUuids(rs) && t.joinTimes == s.joinTimes - RemovedUuids(rs)
    ensures SameConnection(s, t) && t.packets == s.packets
    ensures t.messageCounts == s.messageCounts && t.autoKickList == s.autoKickList
    ensures Inv(s) ==> Inv(t)
    ensures NoRapidAlert(s.notifications) ==> NoRapidAlert(t.notifications)
    decreases |rs|
  {
    if rs == [] then s
    else
      var init := rs[..|rs| - 1];
      assert RemovedUuids(rs) == RemovedUuids(init) + {rs[|rs| - 1].uuid} by {
        assert forall i :: 0 <= i < |init| ==> init[i] == rs[i];
      }
      var before := PlayersRemoved(s, init);
      var t := PlayerRemoved(before, rs[|rs| - 1]);
      assert t.notifications == before.notifications + [t.notifications[|t.notifications| - 1]];
      t
  }

  /** Handling the first `i + 1` records is handling the first `i`, then record `i`. */
  lemma PlayersRemovedPrefix(s: State, rs: seq<RemoveRecord>, i: nat)
    requires i < |rs|
    ensures PlayersRemoved(s, rs[..i + 1]) == PlayerRemoved(PlayersRemoved(s, rs[..i]), rs[i])
  {
    assert rs[..i + 1][..i] == rs[..i];
  }

  // ---------------------------------------------------------------------
  // Connection

  /** Scheduling a retry: only below the limit, and always together with one
      step of the counter. */
  function ScheduleRetry(s: State): (t: State)
    ensures s.reconnectAttempts < MaxReconnectAttempts ==>
      t == s.(reconnectAttempts := s.reconnectAttempts + 1,
              pendingRetries := s.pendingRetries + 1, retriesScheduled := s.retriesScheduled + 1)
    ensures s.reconnectAttempts >= MaxReconnectAttempts ==> t == s
  {
    if s.reconnectAttempts < MaxReconnectAttempts then
      s.(reconnectAttempts := s.reconnectAttempts + 1,
         pendingRetries := s.pendingRetries + 1, retriesScheduled := s.retriesScheduled + 1)
    else s
  }

  /** The `end` handler of a client. The client it came from is not
      forgotten: `mcClient` keeps pointing at it. */
  function End(s: State): (t: State)
    ensures t == ScheduleRetry(s)
    ensures t.connected == s.connected
  {
    ScheduleRetry(s)
  }

  /** `startChatRelay`. When `createClient` returns (`created`) the new
      client is current; when it throws, `mcClient` keeps its old value and
      a retry is scheduled under the same rule as `end`. The counter is
      never reset. */
  function StartChatRelay(s: State, created: bool): (t: State)
    ensures created ==> t == s.(connected := true)
    ensures !created ==> t == ScheduleRetry(s)
    ensures t.reconnectAttempts >= s.reconnectAttempts
  {
    if created then s.(connected := true) else ScheduleRetry(s)
  }

  /** A scheduled retry fires. */
  function RetryElapsed(s: State, created: bool): (t: State)
    requires s.pendingRetries > 0
    ensures t == StartChatRelay(s.(pendingRetries := s.pendingRetries - 1), created)
  {
    StartChatRelay(s.(pendingRetries := s.pendingRetries - 1), created)
  }

  /** `!join`: only without a client; the reply says "Connected" even when
      creating the client failed. */
  function JoinCommand(s: State, created: bool): (t: State)
    ensures !s.connected ==> t == StartChatRelay(s, created).(replies := s.replies + [Connected])
    ensures s.connected ==> t == s.(replies := s.replies + [AlreadyConnected])
  {
    if !s.connected then
      var started := StartChatRelay(s, created);
      started.(replies := started.replies + [Connected])
    else s.(replies := s.replies + [AlreadyConnected])
  }

  /** `resetClient`: drops the client and clears the four collections. */
  function ResetClient(s: State): (t: State)
    ensures !t.connected
    ensures t.playerNames == map[] && t.joinTimes == map[] && t.messageCounts == map[] && t.autoKickList == {}
    ensures t.(connected := s.connected, playerNames := s.playerNames, joinTimes := s.joinTimes,
               messageCounts := s.messageCounts, autoKickList := s.autoKickList) == s
    ensures Inv(s) ==> Inv(t)
  {
    s.(connected := false, playerNames := map[], joinTimes := map[], messageCounts := map[], autoKickList := {})
  }

  /** `!leave`: only with a client. Drops it, parks the counter at the
      limit so that no later `end` schedules a retry, and clears the four
      collections; a retry already scheduled stays scheduled. */
  function LeaveCommand(s: State): (t: State)
    ensures s.connected ==>
      && !t.connected && t.reconnectAttempts == MaxReconnectAttempts
      && t.playerNames == map[] && t.joinTimes == map[] && t.messageCounts == map[] && t.autoKickList == {}
      && t.pendingRetries == s.pendingRetries && t.retriesScheduled == s.retriesScheduled
      && t.replies == s.replies + [Disconnected]
    ensures !s.connected ==> t == s.(replies := s.replies + [NotConnected])
    ensures t.notifications == s.notifications && t.packets == s.packets
    ensures Inv(s) ==> Inv(t)
  {
    if s.connected then
      s.(connected := false, reconnectAttempts := MaxReconnectAttempts,
         playerNames := map[], joinTimes := map[], messageCounts := map[], autoKickList := {},
         replies := s.replies + [Disconnected])
    else s.(replies := s.replies + [NotConnected])
  }

  // ---------------------------------------------------------------------
  // Event streams

  /** What can happen to the engine. Player lists come from the current
      client; `end` from any client, the current one or one dropped by
      `!leave`; the rest from a timer or an operator. */
  datatype Event =
    | Startup(created: bool)                // the gateway's 'ready' event
    | PlayersAddedEvent(adds: seq<AddRecord>)
    | PlayersRemovedEvent(removes: seq<RemoveRecord>)
    | EndEvent
    | RetryElapsedEvent(created: bool)
    | JoinCommandEvent(created: bool)
    | LeaveCommandEvent
    | ResetClientEvent

  /** One event. Player lists are only delivered while a client is set and
      a timer only fires when one is pending. Nothing but `!leave` moves
      the counter other than one step up. */
  function Step(cfg: Config, s: State, e: Event): (t: State)
    ensures Inv(s) ==> Inv(t)
    ensures Inv(s) && NoRapidAlert(s.notifications) ==> NoRapidAlert(t.notifications)
    ensures Inv(s) ==> t.reconnectAttempts >= s.reconnectAttempts
    ensures t.retriesScheduled - s.retriesScheduled == (if e.LeaveCommandEvent? then 0 else t.reconnectAttempts - s.reconnectAttempts)
  {
    if IsGameEvent(e) then GameStep(cfg, s, e) else ControlStep(s, e)
  }

  /** The events the realm client delivers. */
  predicate IsGameEvent(e: Event) {
    e.PlayersAddedEvent? || e.PlayersRemovedEvent?
  }

  /** A `player_list` packet, handled only while a client is connected;
      neither kind touches the connection bookkeeping. */
  function GameStep(cfg: Config, s: State, e: Event): (t: State)
    requires IsGameEvent(e)
    ensures Inv(s) ==> Inv(t)
    ensures Inv(s) && NoRapidAlert(s.notifications) ==> NoRapidAlert(t.notifications)
    ensures SameConnection(s, t)
    ensures !s.connected ==> t == s
  {
    match e
    case PlayersAddedEvent(rs) => if s.connected then PlayersAdded(cfg, s, rs) else s
    case PlayersRemovedEvent(rs) => if s.connected then PlayersRemoved(s, rs) else s
  }

  /** The connection lifecycle and the operator's commands. */
  function ControlStep(s: State, e: Event): (t: State)
    requires !IsGameEvent(e)
    ensures Inv(s) ==> Inv(t)
    ensures Inv(s) && NoRapidAlert(s.notifications) ==> NoRapidAlert(t.notifications)
    ensures Inv(s) ==> t.reconnectAttempts >= s.reconnectAttempts
    ensures t.retriesScheduled - s.retriesScheduled == (if e.LeaveCommandEvent? then 0 else t.reconnectAttempts - s.reconnectAttempts)
  {
    match e
    case Startup(created) => StartChatRelay(s, created)
    case EndEvent => End(s)
    case RetryElapsedEvent(created) => if s.pendingRetries > 0 then RetryElapsed(s, created) else s
    case JoinCommandEvent(created) => JoinCommand(s, created)
    case LeaveCommandEvent => LeaveCommand(s)
    case ResetClientEvent => ResetClient(s)
  }

  /** A stream of events, first to last. */
  function Run(cfg: Config, s: State, evs: seq<Event>): (t: State)
    ensures Inv(s) ==> Inv(t)
    ensures Inv(s) && NoRapidAlert(s.notifications) ==> NoRapidAlert(t.notifications)
    ensures Inv(s) ==> t.reconnectAttempts >= s.reconnectAttempts
    decreases |evs|
  {
    if evs == [] then s else Run(cfg, Step(cfg, s, evs[0]), evs[1..])
  }

  /** However the events fall, including `!leave` and reconnects that
      succeed, at most `maxReconnectAttempts` retries are ever scheduled and
      the rapid connect/disconnect alert is never sent. */
  lemma RetriesBoundedFromStart(cfg: Config, evs: seq<Event>)
    ensures var t := Run(cfg, Init(), evs);
      && t.retriesScheduled <= t.reconnectAttempts <= MaxReconnectAttempts
      && NoRapidAlert(t.notifications)
  {
  }

  /** Once the counter is at the limit, as `!leave` leaves it, no event
      schedules another retry. */
  lemma {:induction false} NoRetryAfterLimit(cfg: Config, s: State, evs: seq<Event>)
    requires s.reconnectAttempts >= MaxReconnectAttempts
    ensures Run(cfg, s, evs).retriesScheduled == s.retriesScheduled
    decreases |evs|
  {
    if evs != [] {
      var s' := Step(cfg, s, evs[0]);
      assert s'.retriesScheduled == s.retriesScheduled;
      NoRetryAfterLimit(cfg, s', evs[1..]);
    }
  }

  /** `!leave` silences the `end` that its own disconnect causes. */
  lemma LeaveSilencesEnd(s: State)
    requires s.connected
    ensures var t := LeaveCommand(s);
      End(t).retriesScheduled == t.retriesScheduled && End(t).pendingRetries == t.pendingRetries
  {
  }

  /** `!leave` does not cancel a retry that is already scheduled: when it
      fires, a new client is created although the operator asked to leave. */
  lemma LeaveDoesNotCancelRetry(s: State)
    requires s.connected && s.pendingRetries > 0
    ensures var t := LeaveCommand(s);
      !t.connected && t.pendingRetries > 0 && RetryElapsed(t, true).connected
  {
  }
}
