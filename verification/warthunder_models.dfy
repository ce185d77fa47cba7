/**
 * The War Thunder data model: game modes, nations with their flags,
 * vehicle types, vehicles and a user's roulette configuration. Battle
 * ratings are Go float64 values and are modelled as reals.
 */
module WarThunderModels {

  /** Go's `GameMode int`: any integer, of which three are named. */
  type GameMode = int

  const Air: GameMode := 0
  const Ground: GameMode := 1
  const Naval: GameMode := 2

  predicate IsKnownMode(m: GameMode)
  {
    m == Air || m == Ground || m == Naval
  }

  /** GameMode.String: the three names, and "Unknown" for every other value. */
  function ModeString(m: GameMode): (name: string)
    ensures name == "Air" <==> m == Air
    ensures name == "Ground" <==> m == Ground
    ensures name == "Naval" <==> m == Naval
    ensures name == "Unknown" <==> !IsKnownMode(m)
  {
    if m == Air then "Air"
    else if m == Ground then "Ground"
    else if m == Naval then "Naval"
    else "Unknown"
  }

  /**
   * GameMode.Emoji as the source text spells it: each emoji's UTF-8 bytes
   * read back as Windows-1254 characters, with the bytes that code page
   * leaves undefined dropped.
   */
  function ModeEmojiAsWritten(m: GameMode): string
  {
    if m == Air then "\U{011F}\U{0178}\U{203A}\U{00A9}\U{00EF}\U{00B8}"
    else if m == Ground then "\U{011F}\U{0178}\U{0161}\U{2014}"
    else if m == Naval then "\U{011F}\U{0178}\U{0161}\U{00A2}"
    else "\U{00E2}\U{201C}"
  }

  const AirEmoji := "\U{1F6E9}\U{FE0F}"
  const GroundEmoji := "\U{1F697}"
  const NavalEmoji := "\U{1F6A2}"
  const UnknownEmoji := "\U{2753}"

  /** GameMode.Emoji with the emoji the command's mode choices show (🛩️, 🚗, 🚢, and ❓ otherwise). */
  function ModeEmoji(m: GameMode): (e: string)
    ensures e == UnknownEmoji <==> !IsKnownMode(m)
    ensures m == Air ==> e == AirEmoji
    ensures m == Ground ==> e == GroundEmoji
    ensures m == Naval ==> e == NavalEmoji
  {
    if m == Air then AirEmoji
    else if m == Ground then GroundEmoji
    else if m == Naval then NavalEmoji
    else UnknownEmoji
  }

  /** No mode gets its intended emoji from the source text: every as-written character lies below U+2100, where no emoji is. */
  lemma {:induction false} ModeEmojiMisencoded(m: GameMode)
    ensures ModeEmojiAsWritten(m) != ModeEmoji(m)
    ensures forall i :: 0 <= i < |ModeEmojiAsWritten(m)| ==> ModeEmojiAsWritten(m)[i] < '\U{2100}'
  {
    var e := ModeEmoji(m);
    assert e[0] >= '\U{2700}';
  }

  // ---- nations ----

  /** Go's `Nation string`: any string, of which ten are named. */
  type Nation = string

  const Nations: seq<Nation> := ["USA", "Germany", "USSR", "Britain", "Japan", "China", "Italy", "France", "Sweden", "Israel"]

  /** The ISO 3166 code whose regional-indicator pair is each nation's flag. */
  const NationCodes: seq<string> := ["US", "DE", "RU", "GB", "JP", "CN", "IT", "FR", "SE", "IL"]

  const WhiteFlag := "\U{1F3F3}\U{FE0F}"

  /** The regional-indicator symbol for an upper-case letter; two of them make a flag. */
  function RegionalIndicator(c: char): (r: char)
    requires 'A' <= c <= 'Z'
    ensures '\U{1F1E6}' <= r <= '\U{1F1FF}'
  {
    (0x1F1E6 + (c as int - 'A' as int)) as char
  }

  /** The flag of a country code: its two letters as regional indicators. */
  function CodeFlag(code: string): (flag: string)
    requires |code| == 2 && 'A' <= code[0] <= 'Z' && 'A' <= code[1] <= 'Z'
  {
    [RegionalIndicator(code[0]), RegionalIndicator(code[1])]
  }

  /** Nation.Flag as the source text spells it: mis-encoded like the mode emoji. */
  function FlagAsWritten(n: Nation): string
  {
    if n == "USA" then "\U{011F}\U{0178}\U{2021}\U{00BA}\U{011F}\U{0178}\U{2021}\U{00B8}"
    else if n == "Germany" then "\U{011F}\U{0178}\U{2021}\U{00A9}\U{011F}\U{0178}\U{2021}\U{00AA}"
    else if n == "USSR" then "\U{011F}\U{0178}\U{2021}\U{00B7}\U{011F}\U{0178}\U{2021}\U{00BA}"
    else if n == "Britain" then "\U{011F}\U{0178}\U{2021}\U{00AC}\U{011F}\U{0178}\U{2021}\U{00A7}"
    else if n == "Japan" then "\U{011F}\U{0178}\U{2021}\U{00AF}\U{011F}\U{0178}\U{2021}\U{00B5}"
    else if n == "China" then "\U{011F}\U{0178}\U{2021}\U{00A8}\U{011F}\U{0178}\U{2021}\U{00B3}"
    else if n == "Italy" then "\U{011F}\U{0178}\U{2021}\U{00AE}\U{011F}\U{0178}\U{2021}\U{00B9}"
    else if n == "France" then "\U{011F}\U{0178}\U{2021}\U{00AB}\U{011F}\U{0178}\U{2021}\U{00B7}"
    else if n == "Sweden" then "\U{011F}\U{0178}\U{2021}\U{00B8}\U{011F}\U{0178}\U{2021}\U{00AA}"
    else if n == "Israel" then "\U{011F}\U{0178}\U{2021}\U{00AE}\U{011F}\U{0178}\U{2021}\U{00B1}"
    else "\U{011F}\U{0178}\U{00B3}\U{00EF}\U{00B8}"
  }

  /**
   * Nation.Flag with the intended emoji: each of the ten nations gets the
   * regional-indicator pair of its country code, anything else the white flag.
   */
  function Flag(n: Nation): (flag: string)
    ensures forall i :: 0 <= i < |Nations| && n == Nations[i] ==> flag == CodeFlag(NationCodes[i])
    ensures n !in Nations ==> flag == WhiteFlag
  {
    if n == "USA" then "\U{1F1FA}\U{1F1F8}"
    else if n == "Germany" then "\U{1F1E9}\U{1F1EA}"
    else if n == "USSR" then "\U{1F1F7}\U{1F1FA}"
    else if n == "Britain" then "\U{1F1EC}\U{1F1E7}"
    else if n == "Japan" then "\U{1F1EF}\U{1F1F5}"
    else if n == "China" then "\U{1F1E8}\U{1F1F3}"
    else if n == "Italy" then "\U{1F1EE}\U{1F1F9}"
    else if n == "France" then "\U{1F1EB}\U{1F1F7}"
    else if n == "Sweden" then "\U{1F1F8}\U{1F1EA}"
    else if n == "Israel" then "\U{1F1EE}\U{1F1F1}"
    else WhiteFlag
  }

  /** The source text's flags are never flags: none of them starts with a regional indicator. */
  lemma FlagMisencoded(n: Nation)
    ensures FlagAsWritten(n) != Flag(n)
    ensures !('\U{1F1E6}' <= FlagAsWritten(n)[0] <= '\U{1F1FF}')
  {
  }

  /** Different country codes give different flags: the regional indicators spell the code back. */
  lemma {:induction false} CodeFlagInjective(a: string, b: string)
    requires |a| == 2 && 'A' <= a[0] <= 'Z' && 'A' <= a[1] <= 'Z'
    requires |b| == 2 && 'A' <= b[0] <= 'Z' && 'A' <= b[1] <= 'Z'
    requires CodeFlag(a) == CodeFlag(b)
    ensures a == b
  {
    assert CodeFlag(a)[0] == CodeFlag(b)[0] && CodeFlag(a)[1] == CodeFlag(b)[1];
    assert a == [a[0], a[1]] && b == [b[0], b[1]];
  }

  /** The ten named nations get ten different flags. */
  lemma {:induction false} FlagsDistinct(i: nat, j: nat)
    requires i < j < |Nations|
    ensures Flag(Nations[i]) != Flag(Nations[j])
  {
    assert Flag(Nations[i]) == CodeFlag(NationCodes[i]);
    assert Flag(Nations[j]) == CodeFlag(NationCodes[j]);
    assert NationCodes[i] != NationCodes[j];
    if Flag(Nations[i]) == Flag(Nations[j]) {
      CodeFlagInjective(NationCodes[i], NationCodes[j]);
    }
  }

  // ---- vehicles and configuration ----

  type VehicleType = string

  const AirTypes: seq<VehicleType> := ["Fighter", "Attacker", "Bomber", "Helicopter"]
  const GroundTypes: seq<VehicleType> := ["Light Tank", "Medium Tank", "Heavy Tank", "Tank Destroyer", "SPAA", "SPG"]
  const NavalTypes: seq<VehicleType> := ["Boat", "Frigate", "Destroyer", "Cruiser", "Battleship", "Carrier", "Submarine"]

  /** The seventeen named vehicle types. */
  const VehicleTypes: seq<VehicleType> := AirTypes + GroundTypes + NavalTypes

  datatype Vehicle = Vehicle(id: int, name: string, nation: Nation, gameMode: GameMode, vehicleType: VehicleType,
                             br: real, rank: int, premium: bool, squadron: bool, event: bool, imageURL: string)

  /**
   * A user's roulette configuration. The excluded lists are JSON arrays
   * kept as text, as in the database row.
   */
  datatype RouletteConfig = RouletteConfig(userID: string, guildID: string, gameMode: GameMode, minBR: real, maxBR: real,
                                           excludedNations: string, excludedTypes: string, excludedVehicles: string,
                                           includePremium: bool, includeSquadron: bool, includeEvent: bool)

  /** The outcome of a spin: the vehicle drawn and the configuration it was drawn under. */
  datatype RouletteResult = RouletteResult(vehicle: Vehicle, config: RouletteConfig)
}
