/**
 * The bot's database service over its SQLite tables: guild settings, guilds,
 * users and bracket usage. Each table is a map from its primary key to its
 * row, changed in place by the service's methods. Whether a statement runs
 * is an input (`exec`); when it fails nothing changes. Timestamps are
 * supplied by the caller.
 */
module Database {
  import opened Wrappers

  // The columns of guild_settings, grouped by the feature they configure.
  // `T` is the type of the TEXT columns: a Go `string` in the struct the
  // service hands out, a nullable value (`None` is SQL NULL) in the stored row.

  datatype TicketsOf<T> = TicketsOf(enabled: bool, categoryID: T, supportRoleID: T, adminRoleID: T,
                                    logChannelID: T, transcriptChannelID: T, autoCloseHours: int, maxPerUser: int)
  datatype ModerationOf<T> = ModerationOf(enabled: bool, logChannelID: T, automodEnabled: bool)
  datatype WelcomeOf<T> = WelcomeOf(enabled: bool, channelID: T, message: T, roleID: T)
  datatype LoggingOf<T> = LoggingOf(enabled: bool, channelID: T,
                                    messageEdits: bool, messageDeletes: bool, memberJoins: bool, memberLeaves: bool,
                                    channelEvents: bool, roleEvents: bool, voiceEvents: bool, moderationEvents: bool,
                                    serverEvents: bool, nicknameChanges: bool)
  datatype BumpOf<T> = BumpOf(enabled: bool, channelID: T, roleID: T, lastTime: Option<int>, reminderSent: bool)

  datatype SettingsOf<T> = SettingsOf(guildID: string, tickets: TicketsOf<T>, moderation: ModerationOf<T>,
                                      welcome: WelcomeOf<T>, logging: LoggingOf<T>, bump: BumpOf<T>, settingsJSON: T)

  /** The GuildSettings struct. */
  type GuildSettings = SettingsOf<string>

  /** A stored guild_settings row. */
  type SettingsRow = SettingsOf<Option<string>>

  /** Applies `f` to every TEXT column and keeps the other columns. */
  function MapText<T, U>(s: SettingsOf<T>, f: T -> U): (r: SettingsOf<U>)
    ensures r.guildID == s.guildID && r.bump.lastTime == s.bump.lastTime && r.settingsJSON == f(s.settingsJSON)
  {
    var t := s.tickets;
    var m := s.moderation;
    var w := s.welcome;
    var l := s.logging;
    var b := s.bump;
    SettingsOf(
      s.guildID,
      TicketsOf(t.enabled, f(t.categoryID), f(t.supportRoleID), f(t.adminRoleID), f(t.logChannelID), f(t.transcriptChannelID),
                t.autoCloseHours, t.maxPerUser),
      ModerationOf(m.enabled, f(m.logChannelID), m.automodEnabled),
      WelcomeOf(w.enabled, f(w.channelID), f(w.message), f(w.roleID)),
      LoggingOf(l.enabled, f(l.channelID), l.messageEdits, l.messageDeletes, l.memberJoins, l.memberLeaves,
                l.channelEvents, l.roleEvents, l.voiceEvents, l.moderationEvents, l.serverEvents, l.nicknameChanges),
      BumpOf(b.enabled, f(b.channelID), f(b.roleID), b.lastTime, b.reminderSent),
      f(s.settingsJSON))
  }

  predicate TicketsPresent(t: TicketsOf<Option<string>>)
  {
    t.categoryID.Some? && t.supportRoleID.Some? && t.adminRoleID.Some? && t.logChannelID.Some? && t.transcriptChannelID.Some?
  }

  predicate WelcomePresent(w: WelcomeOf<Option<string>>)
  {
    w.channelID.Some? && w.message.Some? && w.roleID.Some?
  }

  /** Every TEXT column of the row holds a value. */
  predicate NoNullText(row: SettingsRow)
  {
    TicketsPresent(row.tickets) && row.moderation.logChannelID.Some? && WelcomePresent(row.welcome)
    && row.logging.channelID.Some? && row.bump.channelID.Some? && row.bump.roleID.Some? && row.settingsJSON.Some?
  }

  const NullScanError := "sql: Scan error: converting NULL to string is unsupported"

  /** Row.Scan into the struct: a NULL in any TEXT column makes the scan fail. */
  function ScanRow(row: SettingsRow): (r: Result<GuildSettings>)
    ensures r.Ok? <==> NoNullText(row)
    ensures r.Ok? ==> r.value.guildID == row.guildID
  {
    if NoNullText(row) then Ok(MapText(row, (t: Option<string>) => t.GetOr(""))) else Err(NullScanError)
  }

  /** The row UpsertGuildSettings writes: every column from the struct, with "{}" for an empty SettingsJSON. */
  function ToRow(s: GuildSettings): (row: SettingsRow)
    ensures NoNullText(row) && row.guildID == s.guildID
    ensures row.settingsJSON == Some(if s.settingsJSON == "" then "{}" else s.settingsJSON)
  {
    MapText(s.(settingsJSON := if s.settingsJSON == "" then "{}" else s.settingsJSON), (t: string) => Some(t))
  }

  /** Reading back a row UpsertGuildSettings wrote gives the struct, with "{}" for an empty SettingsJSON. */
  lemma ScanToRow(s: GuildSettings)
    ensures ScanRow(ToRow(s)) == Ok(s.(settingsJSON := if s.settingsJSON == "" then "{}" else s.settingsJSON))
  {
  }

  const DefaultTickets: TicketsOf<string> := TicketsOf(false, "", "", "", "", "", 24, 3)
  const DefaultModeration: ModerationOf<string> := ModerationOf(false, "", false)
  const DefaultWelcome: WelcomeOf<string> := WelcomeOf(false, "", "", "")

  /** The struct a guild without a row reads as: 24 hours, 3 tickets, and edits, deletes, joins and leaves logged. */
  function DefaultSettings(guildID: string): (s: GuildSettings)
    ensures s.guildID == guildID && s.tickets == DefaultTickets && s.moderation == DefaultModeration && s.welcome == DefaultWelcome
    ensures s.logging == LoggingOf(false, "", true, true, true, true, false, false, false, false, false, false)
    ensures s.bump == BumpOf(false, "", "", None, false) && s.settingsJSON == ""
  {
    SettingsOf(guildID, DefaultTickets, DefaultModeration, DefaultWelcome,
               LoggingOf(false, "", true, true, true, true, false, false, false, false, false, false),
               BumpOf(false, "", "", None, false), "")
  }

  /** The four features ResetGuildSettings resets column by column. */
  predicate IsColumnFeature(feature: string)
  {
    feature == "tickets" || feature == "moderation" || feature == "welcome" || feature == "logging"
  }

  /**
   * ResetGuildSettings as written: the feature's TEXT columns are set to
   * NULL, its flags and counts to their defaults.
   */
  function ResetRowAsWritten(row: SettingsRow, feature: string): SettingsRow
    requires IsColumnFeature(feature)
  {
    match feature
    case "tickets" => row.(tickets := TicketsOf(false, None, None, None, None, None, 24, 3))
    case "moderation" => row.(moderation := ModerationOf(false, None, false))
    case "welcome" => row.(welcome := WelcomeOf(false, None, None, None))
    case "logging" =>
      row.(logging := row.logging.(enabled := false, channelID := None,
                                   messageEdits := true, messageDeletes := true, memberJoins := true, memberLeaves := true))
  }

  /** After the reset as written, the guild's settings can no longer be read, whatever the row held. */
  lemma ResetAsWrittenUnreadable(row: SettingsRow, feature: string)
    requires IsColumnFeature(feature)
    ensures ScanRow(ResetRowAsWritten(row, feature)).Err?
  {
    var r := ResetRowAsWritten(row, feature);
    if feature == "tickets" {
      assert !TicketsPresent(r.tickets);
    } else if feature == "welcome" {
      assert !WelcomePresent(r.welcome);
    }
  }

  /**
   * The reset as intended: the feature's fields take the values a guild
   * without a row reads as; logging keeps its six other event flags; every
   * other feature is kept.
   */
  function ResetFeature(s: GuildSettings, feature: string): (r: GuildSettings)
    requires IsColumnFeature(feature)
    ensures var d := DefaultSettings(s.guildID);
            && (feature == "tickets" ==> r == s.(tickets := d.tickets))
            && (feature == "moderation" ==> r == s.(moderation := d.moderation))
            && (feature == "welcome" ==> r == s.(welcome := d.welcome))
            && (feature == "logging" ==>
                  r == s.(logging := d.logging.(channelEvents := s.logging.channelEvents, roleEvents := s.logging.roleEvents,
                                                voiceEvents := s.logging.voiceEvents, moderationEvents := s.logging.moderationEvents,
                                                serverEvents := s.logging.serverEvents, nicknameChanges := s.logging.nicknameChanges)))
  {
    match feature
    case "tickets" => s.(tickets := DefaultTickets)
    case "moderation" => s.(moderation := DefaultModeration)
    case "welcome" => s.(welcome := DefaultWelcome)
    case "logging" =>
      s.(logging := s.logging.(enabled := false, channelID := "",
                               messageEdits := true, messageDeletes := true, memberJoins := true, memberLeaves := true))
  }

  /** The corrected statements: the same columns, with "" written where the source writes NULL. */
  function ResetRow(row: SettingsRow, feature: string): (r: SettingsRow)
    requires IsColumnFeature(feature)
    ensures NoNullText(row) ==> NoNullText(r)
  {
    match feature
    case "tickets" => row.(tickets := TicketsOf(false, Some(""), Some(""), Some(""), Some(""), Some(""), 24, 3))
    case "moderation" => row.(moderation := ModerationOf(false, Some(""), false))
    case "welcome" => row.(welcome := WelcomeOf(false, Some(""), Some(""), Some("")))
    case "logging" =>
      row.(logging := row.logging.(enabled := false, channelID := Some(""),
                                   messageEdits := true, messageDeletes := true, memberJoins := true, memberLeaves := true))
  }

  /** A readable row stays readable after the corrected reset, and reads as the intended reset. */
  lemma ResetRowReadsBack(row: SettingsRow, feature: string)
    requires IsColumnFeature(feature) && ScanRow(row).Ok?
    ensures ScanRow(ResetRow(row, feature)) == Ok(ResetFeature(ScanRow(row).value, feature))
  {
  }

  /** The row after a successful bump: the time recorded and the reminder not yet sent. */
  function BumpRecorded(row: SettingsRow, now: int): (r: SettingsRow)
    ensures r.bump.lastTime == Some(now) && !r.bump.reminderSent
    ensures r.bump.enabled == row.bump.enabled && r.bump.channelID == row.bump.channelID && r.bump.roleID == row.bump.roleID
    ensures r.guildID == row.guildID && r.tickets == row.tickets && r.logging == row.logging && r.settingsJSON == row.settingsJSON
  {
    row.(bump := row.bump.(lastTime := Some(now), reminderSent := false))
  }

  datatype GuildRow = GuildRow(name: string, prefix: string)
  datatype UserRow = UserRow(username: string, discriminator: string, avatar: string, bot: bool)
  datatype Usage = Usage(halfWidthPairs: int, fullWidthPairs: int, totalPairs: int)
  datatype BracketStats = BracketStats(userID: string, halfWidthPairs: int, fullWidthPairs: int, totalPairs: int)

  /** The usage row after adding the deltas: a fresh row, or the old counters plus the deltas. */
  function AddUsage(old_: Option<Usage>, half: int, full: int): (u: Usage)
    ensures old_.None? ==> u == Usage(half, full, half + full)
    ensures old_.Some? ==> u == Usage(old_.value.halfWidthPairs + half, old_.value.fullWidthPairs + full, old_.value.totalPairs + half + full)
  {
    match old_
    case None => Usage(half, full, half + full)
    case Some(o) => Usage(o.halfWidthPairs + half, o.fullWidthPairs + full, o.totalPairs + half + full)
  }

  /** The feature names ResetGuildSettings accepts. */
  predicate IsResetFeature(feature: string)
  {
    IsColumnFeature(feature) || feature == "all"
  }

  class Service {
    var guildSettings: map<string, SettingsRow>
    var guilds: map<string, GuildRow>
    var users: map<string, UserRow>
    var bracketUsage: map<(string, string), Usage>

    /** Rows are filed under their own guild ID, and every usage row's total is the sum of its two counters. */
    predicate Valid()
      reads this
    {
      (forall g :: g in guildSettings ==> guildSettings[g].guildID == g)
      && (forall k :: k in bracketUsage ==> bracketUsage[k].totalPairs == bracketUsage[k].halfWidthPairs + bracketUsage[k].fullWidthPairs)
    }

    constructor ()
      ensures Valid()
      ensures guildSettings == map[] && guilds == map[] && users == map[] && bracketUsage == map[]
    {
      guildSettings := map[];
      guilds := map[];
      users := map[];
      bracketUsage := map[];
    }

    /** GetGuildSettings: the stored row read into the struct, or the defaults when there is none. */
    function GetGuildSettings(guildID: string): (r: Result<GuildSettings>)
      reads this
      ensures guildID !in guildSettings ==> r == Ok(DefaultSettings(guildID))
      ensures guildID in guildSettings ==> r == ScanRow(guildSettings[guildID])
      ensures Valid() && r.Ok? ==> r.value.guildID == guildID
    {
      if guildID in guildSettings then ScanRow(guildSettings[guildID]) else Ok(DefaultSettings(guildID))
    }

    /** UpsertGuildSettings: inserts the row or overwrites every column of it. */
    method UpsertGuildSettings(s: GuildSettings, exec: Outcome) returns (err: Option<string>)
      requires Valid()
      modifies this
      ensures Valid()
      ensures err.Some? <==> exec.Fail?
      ensures exec.Pass? ==> guildSettings == old(guildSettings)[s.guildID := ToRow(s)]
      ensures exec.Fail? ==> guildSettings == old(guildSettings)
      ensures guilds == old(guilds) && users == old(users) && bracketUsage == old(bracketUsage)
    {
      if exec.Fail? {
        return Some(exec.error);
      }
      guildSettings := guildSettings[s.guildID := ToRow(s)];
      return None;
    }

    /**
     * ResetGuildSettings with the corrected statements: "all" deletes the
     * row, the four features reset their own columns of an existing row, and
     * any other name is an error that touches nothing.
     */
    method ResetGuildSettings(guildID: string, feature: string, exec: Outcome) returns (err: Option<string>)
      requires Valid()
      modifies this
      ensures Valid()
      ensures !IsResetFeature(feature) ==> err == Some("unknown feature: " + feature) && guildSettings == old(guildSettings)
      ensures IsResetFeature(feature) ==> (err.Some? <==> exec.Fail?)
      ensures exec.Fail? ==> guildSettings == old(guildSettings)
      ensures exec.Pass? && feature == "all" ==> guildSettings == old(guildSettings) - {guildID}
      ensures exec.Pass? && IsColumnFeature(feature) && guildID in old(guildSettings) ==>
                guildSettings == old(guildSettings)[guildID := ResetRow(old(guildSettings)[guildID], feature)]
      ensures exec.Pass? && IsColumnFeature(feature) && guildID !in old(guildSettings) ==> guildSettings == old(guildSettings)
      ensures guilds == old(guilds) && users == old(users) && bracketUsage == old(bracketUsage)
    {
      if !IsResetFeature(feature) {
        return Some("unknown feature: " + feature);
      }
      if exec.Fail? {
        return Some(exec.error);
      }
      if feature == "all" {
        guildSettings := guildSettings - {guildID};
      } else if guildID in guildSettings {
        guildSettings := guildSettings[guildID := ResetRow(guildSettings[guildID], feature)];
      }
      return None;
    }

    /** UpdateBumpTime: records the bump time and clears the reminder flag of an existing row. */
    method UpdateBumpTime(guildID: string, now: int, exec: Outcome) returns (err: Option<string>)
      requires Valid()
      modifies this
      ensures Valid()
      ensures err.Some? <==> exec.Fail?
      ensures exec.Pass? && guildID in old(guildSettings) ==>
                guildSettings == old(guildSettings)[guildID := BumpRecorded(old(guildSettings)[guildID], now)]
      ensures exec.Fail? || guildID !in old(guildSettings) ==> guildSettings == old(guildSettings)
      ensures guilds == old(guilds) && users == old(users) && bracketUsage == old(bracketUsage)
    {
      if exec.Fail? {
        return Some(exec.error);
      }
      if guildID in guildSettings {
        guildSettings := guildSettings[guildID := BumpRecorded(guildSettings[guildID], now)];
      }
      return None;
    }

    /** MarkBumpReminderSent: sets the reminder flag of an existing row. */
    method MarkBumpReminderSent(guildID: string, exec: Outcome) returns (err: Option<string>)
      requires Valid()
      modifies this
      ensures Valid()
      ensures err.Some? <==> exec.Fail?
      ensures exec.Pass? && guildID in old(guildSettings) ==>
                guildSettings == old(guildSettings)[guildID := old(guildSettings)[guildID].(bump := old(guildSettings)[guildID].bump.(reminderSent := true))]
      ensures exec.Fail? || guildID !in old(guildSettings) ==> guildSettings == old(guildSettings)
      ensures guilds == old(guilds) && users == old(users) && bracketUsage == old(bracketUsage)
    {
      if exec.Fail? {
        return Some(exec.error);
      }
      if guildID in guildSettings {
        guildSettings := guildSettings[guildID := guildSettings[guildID].(bump := guildSettings[guildID].bump.(reminderSent := true))];
      }
      return None;
    }

    /** UpsertGuild: inserts the guild or overwrites its name and prefix. */
    method UpsertGuild(id: string, name: string, prefix: string, exec: Outcome) returns (err: Option<string>)
      requires Valid()
      modifies this
      ensures Valid()
      ensures err.Some? <==> exec.Fail?
      ensures guilds == if exec.Pass? then old(guilds)[id := GuildRow(name, prefix)] else old(guilds)
      ensures guildSettings == old(guildSettings) && users == old(users) && bracketUsage == old(bracketUsage)
    {
      if exec.Fail? {
        return Some(exec.error);
      }
      guilds := guilds[id := GuildRow(name, prefix)];
      return None;
    }

    /** GetGuildPrefix: the guild's prefix, or "/" for a guild without a row. */
    function GetGuildPrefix(guildID: string): (r: string)
      reads this
      ensures guildID in guilds ==> r == guilds[guildID].prefix
      ensures guildID !in guilds ==> r == "/"
    {
      if guildID in guilds then guilds[guildID].prefix else "/"
    }

    /** UpsertUser: inserts the user or overwrites every column. */
    method UpsertUser(id: string, username: string, discriminator: string, avatar: string, isBot: bool, exec: Outcome)
      returns (err: Option<string>)
      requires Valid()
      modifies this
      ensures Valid()
      ensures err.Some? <==> exec.Fail?
      ensures users == if exec.Pass? then old(users)[id := UserRow(username, discriminator, avatar, isBot)] else old(users)
      ensures guildSettings == old(guildSettings) && guilds == old(guilds) && bracketUsage == old(bracketUsage)
    {
      if exec.Fail? {
        return Some(exec.error);
      }
      users := users[id := UserRow(username, discriminator, avatar, isBot)];
      return None;
    }

    /** UpdateBracketUsage: inserts the counters, or adds them to the stored ones. */
    method UpdateBracketUsage(guildID: string, userID: string, half: int, full: int, exec: Outcome) returns (err: Option<string>)
      requires Valid()
      modifies this
      ensures Valid()
      ensures err.Some? <==> exec.Fail?
      ensures exec.Pass? ==> bracketUsage == old(bracketUsage)[(guildID, userID) :=
                AddUsage(if (guildID, userID) in old(bracketUsage) then Some(old(bracketUsage)[(guildID, userID)]) else None, half, full)]
      ensures exec.Fail? ==> bracketUsage == old(bracketUsage)
      ensures guildSettings == old(guildSettings) && guilds == old(guilds) && users == old(users)
    {
      if exec.Fail? {
        return Some(exec.error);
      }
      var key := (guildID, userID);
      var prior := if key in bracketUsage then Some(bracketUsage[key]) else None;
      bracketUsage := bracketUsage[key := AddUsage(prior, half, full)];
      return None;
    }

    /** GetUserBracketStats: the user's counters in the guild, or zeros when there is no row. */
    function GetUserBracketStats(guildID: string, userID: string): (r: BracketStats)
      reads this
      ensures r.userID == userID
      ensures (guildID, userID) !in bracketUsage ==> r == BracketStats(userID, 0, 0, 0)
      ensures (guildID, userID) in bracketUsage ==>
                (r.totalPairs == bracketUsage[(guildID, userID)].totalPairs
                 && r.halfWidthPairs == bracketUsage[(guildID, userID)].halfWidthPairs
                 && r.fullWidthPairs == bracketUsage[(guildID, userID)].fullWidthPairs)
      ensures Valid() ==> r.totalPairs == r.halfWidthPairs + r.fullWidthPairs
    {
      StatsOf(bracketUsage, guildID, userID)
    }

    /**
     * GetBracketRanking: the guild's rows by total, highest first, at most
     * `limit` of them (a negative limit means no limit, as in SQLite). Ties
     * come out in an order the model leaves open.
     */
    method GetBracketRanking(guildID: string, limit: int, query: Outcome) returns (r: Result<seq<BracketStats>>)
      ensures query.Fail? ==> r == Err(query.error)
      ensures query.Pass? ==> r.Ok?
      ensures r.Ok? ==> |r.value| == (if 0 <= limit < |UsersIn(bracketUsage, guildID)| then limit else |UsersIn(bracketUsage, guildID)|)
      ensures r.Ok? ==> forall i :: 0 <= i < |r.value| ==>
                r.value[i].userID in UsersIn(bracketUsage, guildID) && r.value[i] == GetUserBracketStats(guildID, r.value[i].userID)
      ensures r.Ok? ==> forall i, j :: 0 <= i < j < |r.value| ==> r.value[i].userID != r.value[j].userID
      ensures r.Ok? ==> forall i, j :: 0 <= i < j < |r.value| ==> r.value[i].totalPairs >= r.value[j].totalPairs
      ensures r.Ok? ==> forall i, u :: 0 <= i < |r.value| && u in UsersIn(bracketUsage, guildID) && u !in Ids(r.value) ==>
                StatsOf(bracketUsage, guildID, u).totalPairs <= r.value[i].totalPairs
    {
      if query.Fail? {
        return Err(query.error);
      }
      var usage := bracketUsage;
      var all := UsersIn(usage, guildID);
      var remaining := all;
      var rankings: seq<BracketStats> := [];
      while remaining != {} && (limit < 0 || |rankings| < limit)
        invariant Placed(all, remaining, rankings)
        invariant limit >= 0 ==> |rankings| <= limit
        invariant RankedSoFar(usage, guildID, rankings, remaining)
        decreases |remaining|
      {
        var best := MaxUser(usage, guildID, remaining);
        RankStep(usage, guildID, rankings, remaining, best);
        PlacedStep(all, remaining, rankings, StatsOf(usage, guildID, best));
        rankings := rankings + [StatsOf(usage, guildID, best)];
        remaining := remaining - {best};
      }
      RankingDone(usage, guildID, all, remaining, rankings, limit);
      return Ok(rankings);
    }
  }

  /** The users with a bracket_usage row in the guild. */
  function UsersIn(usage: map<(string, string), Usage>, guildID: string): (us: set<string>)
    ensures forall u :: u in us <==> (guildID, u) in usage
  {
    set k | k in usage && k.0 == guildID :: k.1
  }

  /** A user's counters in the guild, zeros without a row. */
  function StatsOf(usage: map<(string, string), Usage>, guildID: string, userID: string): BracketStats
  {
    if (guildID, userID) in usage then
      var u := usage[(guildID, userID)];
      BracketStats(userID, u.halfWidthPairs, u.fullWidthPairs, u.totalPairs)
    else BracketStats(userID, 0, 0, 0)
  }

  /**
   * A ranking under construction: rows of the guild's users, each user once,
   * highest total first, and no user still to place above any placed one.
   */
  ghost predicate RankedSoFar(usage: map<(string, string), Usage>, guildID: string, rankings: seq<BracketStats>, remaining: set<string>)
  {
    (forall i :: 0 <= i < |rankings| ==> rankings[i].userID in UsersIn(usage, guildID) && rankings[i] == StatsOf(usage, guildID, rankings[i].userID))
    && (forall i, j :: 0 <= i < j < |rankings| ==> rankings[i].userID != rankings[j].userID)
    && (forall i, j :: 0 <= i < j < |rankings| ==> rankings[i].totalPairs >= rankings[j].totalPairs)
    && (forall i, u :: 0 <= i < |rankings| && u in remaining ==> StatsOf(usage, guildID, u).totalPairs <= rankings[i].totalPairs)
  }

  /** Placing a remaining user with the highest remaining total keeps the ranking in order. */
  lemma RankStep(usage: map<(string, string), Usage>, guildID: string, rankings: seq<BracketStats>, remaining: set<string>, best: string)
    requires RankedSoFar(usage, guildID, rankings, remaining)
    requires best in remaining && remaining <= UsersIn(usage, guildID) && remaining !! Ids(rankings)
    requires forall u :: u in remaining ==> StatsOf(usage, guildID, u).totalPairs <= StatsOf(usage, guildID, best).totalPairs
    ensures RankedSoFar(usage, guildID, rankings + [StatsOf(usage, guildID, best)], remaining - {best})
  {
    var next := rankings + [StatsOf(usage, guildID, best)];
    forall i, j | 0 <= i < j < |next|
      ensures next[i].userID != next[j].userID && next[i].totalPairs >= next[j].totalPairs
    {
      if j == |rankings| {
        assert next[i] == rankings[i];
        IdsHas(rankings, i);
      }
    }
  }

  /** The users placed in a ranking are those of `all` no longer remaining, each placed once. */
  ghost predicate Placed(all: set<string>, remaining: set<string>, rankings: seq<BracketStats>)
  {
    Ids(rankings) <= all && remaining == all - Ids(rankings) && |rankings| == |Ids(rankings)|
  }

  lemma PlacedStep(all: set<string>, remaining: set<string>, rankings: seq<BracketStats>, s: BracketStats)
    requires Placed(all, remaining, rankings) && s.userID in remaining
    ensures Placed(all, remaining - {s.userID}, rankings + [s])
  {
    IdsSnoc(rankings, s);
  }

  /** When the ranking loop stops, the ranking has its full length and outranks every user left out. */
  lemma RankingDone(usage: map<(string, string), Usage>, guildID: string, all: set<string>, remaining: set<string>,
                    rankings: seq<BracketStats>, limit: int)
    requires all == UsersIn(usage, guildID)
    requires Placed(all, remaining, rankings) && (limit >= 0 ==> |rankings| <= limit)
    requires RankedSoFar(usage, guildID, rankings, remaining)
    requires !(remaining != {} && (limit < 0 || |rankings| < limit))
    ensures |rankings| == (if 0 <= limit < |all| then limit else |all|)
    ensures forall i, u :: 0 <= i < |rankings| && u in all && u !in Ids(rankings) ==>
              StatsOf(usage, guildID, u).totalPairs <= rankings[i].totalPairs
  {
    SizeOfRest(all, Ids(rankings));
    if remaining != {} {
      assert |remaining| > 0;
    }
  }

  lemma SizeOfRest(all: set<string>, placed: set<string>)
    requires placed <= all
    ensures |all - placed| == |all| - |placed|
  {
    assert all == (all - placed) + placed;
  }

  /** A user of `candidates` whose total no other candidate exceeds. */
  method MaxUser(usage: map<(string, string), Usage>, guildID: string, candidates: set<string>) returns (best: string)
    requires candidates != {}
    ensures best in candidates
    ensures forall u :: u in candidates ==> StatsOf(usage, guildID, u).totalPairs <= StatsOf(usage, guildID, best).totalPairs
  {
    var pool := candidates;
    best :| best in pool;
    pool := pool - {best};
    while pool != {}
      invariant pool <= candidates && best in candidates
      invariant forall u :: u in candidates - pool ==> StatsOf(usage, guildID, u).totalPairs <= StatsOf(usage, guildID, best).totalPairs
      decreases |pool|
    {
      var u :| u in pool;
      if StatsOf(usage, guildID, u).totalPairs > StatsOf(usage, guildID, best).totalPairs {
        best := u;
      }
      pool := pool - {u};
    }
  }


  /** The user IDs of a ranking. */
  function Ids(rs: seq<BracketStats>): set<string>
  {
    if |rs| == 0 then {} else Ids(rs[..|rs| - 1]) + {rs[|rs| - 1].userID}
  }

  lemma {:induction false} IdsHas(rs: seq<BracketStats>, i: int)
    requires 0 <= i < |rs|
    ensures rs[i].userID in Ids(rs)
    decreases |rs|
  {
    if i < |rs| - 1 {
      assert rs[..|rs| - 1][i] == rs[i];
      IdsHas(rs[..|rs| - 1], i);
    }
  }

  lemma IdsSnoc(rs: seq<BracketStats>, s: BracketStats)
    ensures Ids(rs + [s]) == Ids(rs) + {s.userID}
  {
    assert (rs + [s])[..|rs|] == rs;
  }
}
