/**
 * The guild repository: a second view of the guild_settings and guilds
 * tables in which every setting except the prefix is nullable. A row's
 * nullable columns are a map from column to value, and a column missing
 * from the map is NULL; an upsert merges with COALESCE, so it can set
 * columns but never clear them. Whether a statement runs is an input
 * (`exec`); when it fails nothing changes.
 */
module GuildRepository {
  import opened Wrappers

  /** The nullable columns of guild_settings that GuildSettings carries. */
  datatype Column =
    | LogChannelID | WelcomeChannelID | WelcomeMessage | AutoRole | ModRoleID
    | TicketCategoryID | TicketSupportRole | TicketAdminRole | TicketLogChannel | TicketAutoClose
    | BumpChannelID | BumpRoleID | BumpMessage | BumpReminderHours | BumpPingEnabled | LastBumpTime | BumpReminderSent

  /** A non-NULL column value: sql.NullString, NullInt64, NullBool or NullTime holding a value. */
  datatype Value = Text(s: string) | Number(n: int) | Flag(b: bool) | Time(t: int)

  /** The columns a NULL-able struct field maps to, by kind. */
  predicate HasKind(c: Column, v: Value)
  {
    match c
    case TicketAutoClose | BumpReminderHours => v.Number?
    case BumpPingEnabled | BumpReminderSent => v.Flag?
    case LastBumpTime => v.Time?
    case _ => v.Text?
  }

  predicate WellTyped(columns: map<Column, Value>)
  {
    forall c :: c in columns ==> HasKind(c, columns[c])
  }

  /** The GuildSettings struct: the prefix is a plain string, every other setting may be NULL. */
  datatype GuildSettings = GuildSettings(guildID: string, prefix: string, columns: map<Column, Value>)

  /** A stored row; its prefix column is nullable in the table. */
  datatype StoredRow = StoredRow(prefix: Option<string>, columns: map<Column, Value>)

  datatype GuildRow = GuildRow(name: string, prefix: string)

  /**
   * `col = COALESCE(excluded.col, guild_settings.col)` for every nullable
   * column: the new value where there is one, the stored one otherwise.
   */
  function Coalesce(excluded: map<Column, Value>, stored: map<Column, Value>): (r: map<Column, Value>)
    ensures forall c :: c in excluded ==> c in r && r[c] == excluded[c]
    ensures forall c :: c !in excluded && c in stored ==> c in r && r[c] == stored[c]
    ensures forall c :: c in r <==> c in excluded || c in stored
  {
    stored + excluded
  }

  /** Merging the same values twice is merging them once. */
  lemma CoalesceIdempotent(excluded: map<Column, Value>, stored: map<Column, Value>)
    ensures Coalesce(excluded, Coalesce(excluded, stored)) == Coalesce(excluded, stored)
  {
  }

  /** A merge of well-typed columns is well typed. */
  lemma CoalesceWellTyped(excluded: map<Column, Value>, stored: map<Column, Value>)
    requires WellTyped(excluded) && WellTyped(stored)
    ensures WellTyped(Coalesce(excluded, stored))
  {
  }

  /** The columns ResetGuildSettings sets to NULL for a feature; none for a name it does not know. */
  function FeatureColumns(feature: string): (cs: set<Column>)
    ensures cs == {} <==> !IsFeature(feature)
  {
    match feature
    case "moderation" => {ModRoleID}
    case "welcome" => {WelcomeChannelID, WelcomeMessage, AutoRole}
    case "logging" => {LogChannelID}
    case "tickets" => {TicketCategoryID, TicketSupportRole, TicketAdminRole, TicketLogChannel, TicketAutoClose}
    case "bump" => {BumpChannelID, BumpRoleID, BumpMessage, BumpReminderHours, BumpPingEnabled, LastBumpTime, BumpReminderSent}
    case _ => {}
  }

  /** The five features reset column by column. */
  predicate IsFeature(feature: string)
  {
    feature == "moderation" || feature == "welcome" || feature == "logging" || feature == "tickets" || feature == "bump"
  }

  /** The feature whose reset clears a column. */
  function Owner(c: Column): (f: string)
    ensures IsFeature(f)
  {
    match c
    case ModRoleID => "moderation"
    case WelcomeChannelID | WelcomeMessage | AutoRole => "welcome"
    case LogChannelID => "logging"
    case TicketCategoryID | TicketSupportRole | TicketAdminRole | TicketLogChannel | TicketAutoClose => "tickets"
    case _ => "bump"
  }

  /** Each column is cleared by exactly one feature, so resetting one feature never clears another's column. */
  lemma ClearedByOwnerOnly(c: Column, feature: string)
    ensures c in FeatureColumns(feature) <==> feature == Owner(c)
  {
    if IsFeature(feature) {
      assert c in FeatureColumns(Owner(c));
    }
  }

  class Repository {
    var settings: map<string, StoredRow>
    var guilds: map<string, GuildRow>

    /** Every stored column holds a value of its own kind. */
    predicate Valid()
      reads this
    {
      forall g :: g in settings ==> WellTyped(settings[g].columns)
    }

    constructor ()
      ensures Valid() && settings == map[] && guilds == map[]
    {
      settings := map[];
      guilds := map[];
    }

    /** UpsertGuild: inserts the guild or overwrites its name and prefix. */
    method UpsertGuild(id: string, name: string, prefix: string, exec: Outcome) returns (err: Option<string>)
      requires Valid()
      modifies this
      ensures Valid()
      ensures err.Some? <==> exec.Fail?
      ensures guilds == if exec.Pass? then old(guilds)[id := GuildRow(name, prefix)] else old(guilds)
      ensures settings == old(settings)
    {
      if exec.Fail? {
        return Some(exec.error);
      }
      guilds := guilds[id := GuildRow(name, prefix)];
      return None;
    }

    /** GetGuildPrefix: the settings prefix, else the guild's prefix, else "/". */
    function GetGuildPrefix(guildID: string): (r: string)
      reads this
      ensures guildID in settings && settings[guildID].prefix.Some? ==> r == settings[guildID].prefix.value
      ensures (guildID !in settings || settings[guildID].prefix.None?) && guildID in guilds ==> r == guilds[guildID].prefix
      ensures (guildID !in settings || settings[guildID].prefix.None?) && guildID !in guilds ==> r == "/"
    {
      if guildID in settings && settings[guildID].prefix.Some? then settings[guildID].prefix.value
      else if guildID in guilds then guilds[guildID].prefix
      else "/"
    }

    /** GetGuildSettings: the stored row with a NULL prefix read as "/", or only the guild ID and "/" without a row. */
    function GetGuildSettings(guildID: string): (r: GuildSettings)
      reads this
      ensures r.guildID == guildID
      ensures guildID !in settings ==> r == GuildSettings(guildID, "/", map[])
      ensures guildID in settings ==> r.columns == settings[guildID].columns && r.prefix == settings[guildID].prefix.GetOr("/")
    {
      if guildID in settings then
        var row := settings[guildID];
        GuildSettings(guildID, row.prefix.GetOr("/"), row.columns)
      else GuildSettings(guildID, "/", map[])
    }

    /**
     * UpsertGuildSettings: a new row takes the struct as it is; an existing
     * row takes the prefix and every non-NULL column, and keeps the rest.
     */
    method UpsertGuildSettings(s: GuildSettings, exec: Outcome) returns (err: Option<string>)
      requires Valid() && WellTyped(s.columns)
      modifies this
      ensures Valid()
      ensures err.Some? <==> exec.Fail?
      ensures exec.Fail? ==> settings == old(settings)
      ensures exec.Pass? ==> settings == old(settings)[s.guildID := StoredRow(Some(s.prefix),
                if s.guildID in old(settings) then Coalesce(s.columns, old(settings)[s.guildID].columns) else s.columns)]
      ensures guilds == old(guilds)
    {
      if exec.Fail? {
        return Some(exec.error);
      }
      var merged := s.columns;
      if s.guildID in settings {
        CoalesceWellTyped(s.columns, settings[s.guildID].columns);
        merged := Coalesce(s.columns, settings[s.guildID].columns);
      }
      settings := settings[s.guildID := StoredRow(Some(s.prefix), merged)];
      return None;
    }

    /**
     * ResetGuildSettings: "all" deletes the row, a feature sets its columns of
     * an existing row to NULL, and any other name succeeds doing nothing.
     */
    method ResetGuildSettings(guildID: string, feature: string, exec: Outcome) returns (err: Option<string>)
      requires Valid()
      modifies this
      ensures Valid()
      ensures !IsFeature(feature) && feature != "all" ==> err.None? && settings == old(settings)
      ensures IsFeature(feature) || feature == "all" ==> (err.Some? <==> exec.Fail?)
      ensures exec.Fail? ==> settings == old(settings)
      ensures exec.Pass? && feature == "all" ==> settings == old(settings) - {guildID}
      ensures exec.Pass? && IsFeature(feature) && guildID in old(settings) ==>
                settings == old(settings)[guildID := old(settings)[guildID].(columns := old(settings)[guildID].columns - FeatureColumns(feature))]
      ensures exec.Pass? && IsFeature(feature) && guildID !in old(settings) ==> settings == old(settings)
      ensures guilds == old(guilds)
    {
      if !IsFeature(feature) && feature != "all" {
        return None;
      }
      if exec.Fail? {
        return Some(exec.error);
      }
      if feature == "all" {
        settings := settings - {guildID};
      } else if guildID in settings {
        var row := settings[guildID];
        settings := settings[guildID := row.(columns := row.columns - FeatureColumns(feature))];
      }
      return None;
    }
  }

  /**
   * What an upsert promises about reading back: the prefix sent, every
   * non-NULL column sent, and every column it did not send as it was.
   */
  lemma UpsertReadsBack(before: map<string, StoredRow>, s: GuildSettings, after: map<string, StoredRow>)
    requires after == before[s.guildID := StoredRow(Some(s.prefix),
               if s.guildID in before then Coalesce(s.columns, before[s.guildID].columns) else s.columns)]
    ensures s.guildID in after && after[s.guildID].prefix == Some(s.prefix)
    ensures forall c :: c in s.columns ==> c in after[s.guildID].columns && after[s.guildID].columns[c] == s.columns[c]
    ensures s.guildID in before ==> before[s.guildID].columns.Keys <= after[s.guildID].columns.Keys
    ensures forall c :: c !in s.columns && s.guildID in before && c in before[s.guildID].columns ==>
              c in after[s.guildID].columns && after[s.guildID].columns[c] == before[s.guildID].columns[c]
  {
  }
}
