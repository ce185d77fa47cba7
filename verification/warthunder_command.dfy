/**
 * The /warthunder command: the choice of action, the parsing of the game
 * mode, the decision path of a spin (mode, configuration, BR overrides,
 * range check, draw), the statistics counts, the special markers of a
 * drawn vehicle, and the lookups of type icons, mode colours and rank
 * numerals. Embed layout and Discord calls are not modelled.
 */
module WarThunderCommand {
  import opened Wrappers
  import opened GoStrings
  import opened WarThunderModels
  import opened WarThunderService

  // ---- action ----

  datatype Action = Spin | ShowConfig | Stats

  /** Execute's dispatch: "config" and "stats" are their own actions; "", "spin" and anything else spin. */
  function ActionOf(action: string): (a: Action)
    ensures a == ShowConfig <==> action == "config"
    ensures a == Stats <==> action == "stats"
    ensures a == Spin <==> action != "config" && action != "stats"
  {
    var action := if action == "" then "spin" else action;
    if action == "spin" then Spin
    else if action == "config" then ShowConfig
    else if action == "stats" then Stats
    else Spin
  }

  /** The choice value that names each action. */
  function ActionName(a: Action): string
  {
    match a
    case Spin => "spin"
    case ShowConfig => "config"
    case Stats => "stats"
  }

  /** Each action's own name selects it. */
  lemma ActionOfName(a: Action)
    ensures ActionOf(ActionName(a)) == a
  {
  }

  // ---- game mode ----

  const InvalidModeMessage := "❌ 無効なゲームモードです。air, ground, naval のいずれかを指定してください。"

  /** handleSpin's mode: Air when none is given, the named mode in any letter case, an error otherwise. */
  function ParseMode(modeStr: string): (r: Result<GameMode>)
    ensures modeStr == "" ==> r == Ok(Air)
    ensures modeStr != "" ==> (r == Ok(Air) <==> ToLower(modeStr) == "air")
    ensures r == Ok(Ground) <==> ToLower(modeStr) == "ground"
    ensures r == Ok(Naval) <==> ToLower(modeStr) == "naval"
    ensures r.Ok? ==> IsKnownMode(r.value)
    ensures r.Err? ==> r.error == InvalidModeMessage
  {
    if modeStr == "" then Ok(Air)
    else
      var lower := ToLower(modeStr);
      if lower == "air" then Ok(Air)
      else if lower == "ground" then Ok(Ground)
      else if lower == "naval" then Ok(Naval)
      else Err(InvalidModeMessage)
  }

  /** Lower-casing twice is lower-casing once. */
  lemma ToLowerIdempotent(s: string)
    ensures ToLower(ToLower(s)) == ToLower(s)
  {
    var once := ToLower(s);
    assert forall i :: 0 <= i < |s| ==> ToLower(once)[i] == once[i];
  }

  /** The mode does not depend on letter case. */
  lemma ParseModeIgnoresCase(modeStr: string)
    ensures ParseMode(ToLower(modeStr)) == ParseMode(modeStr)
  {
    ToLowerIdempotent(modeStr);
  }

  /** Each known mode's name parses back to the mode. */
  lemma {:induction false} ParseModeName(m: GameMode)
    requires IsKnownMode(m)
    ensures ParseMode(ModeString(m)) == Ok(m)
  {
    if m == Air {
      assert ToLower("Air") == "air";
    } else if m == Ground {
      assert ToLower("Ground") == "ground";
    } else {
      assert ToLower("Naval") == "naval";
    }
  }

  // ---- spin ----

  const ConfigErrorPrefix := "❌ 設定の取得に失敗しました: "
  const RangeMessage := "❌ 最小BRが最大BRより大きくなっています。"
  const SpinErrorPrefix := "❌ ルーレットの実行に失敗しました: "

  /** The reply of a spin: an ephemeral error, an error in the edited reply, or the drawn result. */
  datatype SpinReply = Ephemeral(text: string) | SpinFailed(text: string) | Shown(result: RouletteResult)

  /** The configuration with the BR bounds the command was given, and nothing else changed. */
  function WithOverrides(c: RouletteConfig, minArg: Option<real>, maxArg: Option<real>): (c': RouletteConfig)
    ensures c'.minBR == minArg.GetOr(c.minBR) && c'.maxBR == maxArg.GetOr(c.maxBR)
    ensures c'.(minBR := c.minBR, maxBR := c.maxBR) == c
  {
    c.(minBR := minArg.GetOr(c.minBR), maxBR := maxArg.GetOr(c.maxBR))
  }

  /** The inputs a spin depends on besides the command's arguments. */
  datatype SpinWorld = SpinWorld(
    userID: string,
    guildID: string,
    stored: GameMode -> ConfigRow,          // the configuration lookup for each mode
    save: Outcome,                          // saving a new default configuration
    rows: RouletteConfig -> Result<seq<Vehicle>>, // the database's answer to each configuration's query
    draw: seq<Vehicle> -> nat)              // rand.Intn over a list

  /** rand.Intn(n) stays below n. */
  ghost predicate DrawInRange(w: SpinWorld)
  {
    forall vs :: |vs| > 0 ==> w.draw(vs) < |vs|
  }

  /** The configuration a spin in mode m uses, or the lookup error. */
  function SpinConfig(w: SpinWorld, m: GameMode, minArg: Option<real>, maxArg: Option<real>): (r: Result<RouletteConfig>)
  {
    var c := GetRouletteConfig(w.stored(m), w.userID, w.guildID, m, w.save);
    if c.Err? then Err(c.error) else Ok(WithOverrides(c.value, minArg, maxArg))
  }

  /** The configuration a spin draws with: a valid mode, a configuration found, and its BR range not inverted. */
  function SpinTarget(w: SpinWorld, modeStr: string, minArg: Option<real>, maxArg: Option<real>): Option<RouletteConfig>
  {
    var mode := ParseMode(modeStr);
    if mode.Err? then None
    else
      var config := SpinConfig(w, mode.value, minArg, maxArg);
      if config.Err? || config.value.minBR > config.value.maxBR then None else Some(config.value)
  }

  /**
   * handleSpin: an invalid mode, a failed configuration lookup or a minimum
   * BR above the maximum is refused before anything is drawn; otherwise the
   * service draws from the vehicles the configuration selects.
   */
  function HandleSpin(w: SpinWorld, modeStr: string, minArg: Option<real>, maxArg: Option<real>): (reply: SpinReply)
    requires DrawInRange(w)
    ensures ParseMode(modeStr).Err? ==> reply == Ephemeral(InvalidModeMessage)
    ensures ParseMode(modeStr).Ok? && SpinConfig(w, ParseMode(modeStr).value, minArg, maxArg).Err? ==>
              reply == Ephemeral(ConfigErrorPrefix + SpinConfig(w, ParseMode(modeStr).value, minArg, maxArg).error)
    ensures reply == Ephemeral(RangeMessage) <==>
              ParseMode(modeStr).Ok? && SpinConfig(w, ParseMode(modeStr).value, minArg, maxArg).Ok? &&
              SpinConfig(w, ParseMode(modeStr).value, minArg, maxArg).value.minBR >
              SpinConfig(w, ParseMode(modeStr).value, minArg, maxArg).value.maxBR
    ensures reply.Shown? ==> reply.result.config.minBR <= reply.result.config.maxBR
    ensures reply.Shown? ==> w.rows(reply.result.config).Ok? && reply.result.vehicle in w.rows(reply.result.config).value
    ensures reply.Shown? ==> minArg.Some? ==> reply.result.config.minBR == minArg.value
    ensures reply.Shown? ==> maxArg.Some? ==> reply.result.config.maxBR == maxArg.value
    ensures SpinTarget(w, modeStr, minArg, maxArg).Some? ==>
              var c := SpinTarget(w, modeStr, minArg, maxArg).value;
              (reply.Shown? <==> w.rows(c).Ok? && |w.rows(c).value| > 0)
              && (reply.Shown? ==> reply.result == RouletteResult(w.rows(c).value[w.draw(w.rows(c).value)], c))
              && (w.rows(c).Err? ==> reply == SpinFailed(SpinErrorPrefix + ("failed to get vehicles for roulette: "
                                                         + ("failed to query vehicles: " + w.rows(c).error))))
              && (w.rows(c).Ok? && |w.rows(c).value| == 0 ==> reply == SpinFailed(SpinErrorPrefix + NoVehicles))
  {
    var mode := ParseMode(modeStr);
    if mode.Err? then Ephemeral(InvalidModeMessage)
    else
      var config := SpinConfig(w, mode.value, minArg, maxArg);
      if config.Err? then Ephemeral(ConfigErrorPrefix + config.error)
      else
        var c := config.value;
        if c.minBR > c.maxBR then Ephemeral(RangeMessage)
        else
          assert SpinTarget(w, modeStr, minArg, maxArg) == Some(c);
          var rows := w.rows(c);
          var pick := if rows.Ok? && |rows.value| > 0 then w.draw(rows.value) else 0;
          var result := SpinRoulette(c, rows, pick);
          if result.Err? then SpinFailed(SpinErrorPrefix + result.error)
          else Shown(result.value)
  }

  /** A spin that fails in the service reports the service's error. */
  lemma SpinErrorReported(w: SpinWorld, modeStr: string, minArg: Option<real>, maxArg: Option<real>)
    requires DrawInRange(w)
    requires ParseMode(modeStr).Ok? && SpinConfig(w, ParseMode(modeStr).value, minArg, maxArg).Ok?
    requires var c := SpinConfig(w, ParseMode(modeStr).value, minArg, maxArg).value;
             c.minBR <= c.maxBR && w.rows(c).Ok? && |w.rows(c).value| == 0
    ensures HandleSpin(w, modeStr, minArg, maxArg) == SpinFailed(SpinErrorPrefix + NoVehicles)
  {
  }

  // ---- statistics ----

  /** A count whose lookup failed is shown as 0. */
  function CountOrZero(count: Result<int>): (n: int)
    ensures count.Ok? ==> n == count.value
    ensures count.Err? ==> n == 0
  {
    if count.Err? then 0 else count.value
  }

  /** The four count fields of handleStats: air, ground and naval vehicles, and the total. */
  function StatsValues(air: Result<int>, ground: Result<int>, naval: Result<int>, total: Result<int>): (values: seq<string>)
    ensures |values| == 4
    ensures air.Err? ==> values[0] == "0 機"
    ensures ground.Err? ==> values[1] == "0 両"
    ensures naval.Err? ==> values[2] == "0 隻"
    ensures total.Err? ==> values[3] == "0 車両"
    ensures air.Ok? ==> values[0] == IntToDecimal(air.value) + " 機"
    ensures ground.Ok? ==> values[1] == IntToDecimal(ground.value) + " 両"
    ensures naval.Ok? ==> values[2] == IntToDecimal(naval.value) + " 隻"
    ensures total.Ok? ==> values[3] == IntToDecimal(total.value) + " 車両"
  {
    [IntToDecimal(CountOrZero(air)) + " 機", IntToDecimal(CountOrZero(ground)) + " 両",
     IntToDecimal(CountOrZero(naval)) + " 隻", IntToDecimal(CountOrZero(total)) + " 車両"]
  }

  /** The counts handleStats asks for: one per mode, filtered by that mode, then the unfiltered total. */
  function StatsQueries(): (queries: seq<Part>)
    ensures |queries| == 4
    ensures queries[0].args == [ModeArg(Air)] && queries[1].args == [ModeArg(Ground)] && queries[2].args == [ModeArg(Naval)]
    ensures queries[3].args == []
    ensures forall i :: 0 <= i < 4 ==> Balanced(queries[i])
  {
    [VehicleCountQuery(Some(Air)), VehicleCountQuery(Some(Ground)), VehicleCountQuery(Some(Naval)), VehicleCountQuery(None)]
  }

  // ---- result embed ----

  const PremiumMarker := "⭐ プレミアム"
  const SquadronMarker := "🏆 スコードロン"
  const EventMarker := "🎃 イベント"

  /** The special markers of a vehicle, in the order premium, squadron, event. */
  function Markers(v: Vehicle): (markers: seq<string>)
    ensures |markers| == (if v.premium then 1 else 0) + (if v.squadron then 1 else 0) + (if v.event then 1 else 0)
    ensures PremiumMarker in markers <==> v.premium
    ensures SquadronMarker in markers <==> v.squadron
    ensures EventMarker in markers <==> v.event
    ensures v.premium ==> markers[0] == PremiumMarker
    ensures v.event ==> markers[|markers| - 1] == EventMarker
  {
    assert PremiumMarker[0] != SquadronMarker[0] && PremiumMarker[0] != EventMarker[0] && SquadronMarker[0] != EventMarker[0];
    (if v.premium then [PremiumMarker] else [])
    + (if v.squadron then [SquadronMarker] else [])
    + (if v.event then [EventMarker] else [])
  }

  /** The "special" field: present exactly when the vehicle has a marker, holding the markers joined by " • ". */
  function SpecialField(v: Vehicle): (field: Option<string>)
    ensures field.Some? <==> v.premium || v.squadron || v.event
    ensures field.Some? ==> field.value == Join(Markers(v), " • ")
  {
    var markers := Markers(v);
    var text := if |markers| > 0 then Join(markers, " • ") else "";
    assert |markers| > 0 ==> markers[0] != "" && |Join(markers, " • ")| >= |markers[0]|;
    if text != "" then Some(text) else None
  }

  /** The icons of the seventeen vehicle types, in the order of VehicleTypes. */
  const TypeIcons: seq<string> := [
    "\U{2708}\U{FE0F}", "\U{1F681}", "\U{1F6E9}\U{FE0F}", "\U{1F681}",
    "\U{1F3CE}\U{FE0F}", "\U{1F697}", "\U{1F69B}", "\U{1F4A5}", "\U{1F3AF}", "\U{1F4A3}",
    "\U{1F6E5}\U{FE0F}", "\U{26F5}", "\U{1F6A2}", "\U{1F6F3}\U{FE0F}", "\U{2693}", "\U{1F6EB}", "\U{1F6A4}"
  ]

  const UnknownIcon := "\U{2753}"

  /** getVehicleTypeIcon: any type that is not one of the seventeen gets the question mark. */
  function VehicleTypeIcon(t: VehicleType): (icon: string)
    ensures t !in VehicleTypes ==> icon == UnknownIcon
  {
    if t == "Fighter" then "\U{2708}\U{FE0F}"
    else if t == "Attacker" then "\U{1F681}"
    else if t == "Bomber" then "\U{1F6E9}\U{FE0F}"
    else if t == "Helicopter" then "\U{1F681}"
    else if t == "Light Tank" then "\U{1F3CE}\U{FE0F}"
    else if t == "Medium Tank" then "\U{1F697}"
    else if t == "Heavy Tank" then "\U{1F69B}"
    else if t == "Tank Destroyer" then "\U{1F4A5}"
    else if t == "SPAA" then "\U{1F3AF}"
    else if t == "SPG" then "\U{1F4A3}"
    else if t == "Boat" then "\U{1F6E5}\U{FE0F}"
    else if t == "Frigate" then "\U{26F5}"
    else if t == "Destroyer" then "\U{1F6A2}"
    else if t == "Cruiser" then "\U{1F6F3}\U{FE0F}"
    else if t == "Battleship" then "\U{2693}"
    else if t == "Carrier" then "\U{1F6EB}"
    else if t == "Submarine" then "\U{1F6A4}"
    else UnknownIcon
  }

  /** The four air types get their icons. */
  lemma AirIcons()
    ensures forall i :: 0 <= i < |AirTypes| ==> VehicleTypeIcon(AirTypes[i]) == TypeIcons[i]
  {
  }

  /** The six ground types get their icons. */
  lemma GroundIcons()
    ensures forall i :: 0 <= i < |GroundTypes| ==> VehicleTypeIcon(GroundTypes[i]) == TypeIcons[4 + i]
  {
  }

  /** The seven naval types get their icons. */
  lemma NavalIcons()
    ensures forall i :: 0 <= i < |NavalTypes| ==> VehicleTypeIcon(NavalTypes[i]) == TypeIcons[10 + i]
  {
  }

  /** getVehicleTypeIcon: each of the seventeen named types gets its own entry of the icon table. */
  lemma {:induction false} TypeIconTable(i: nat)
    requires i < |VehicleTypes|
    ensures VehicleTypeIcon(VehicleTypes[i]) == TypeIcons[i]
  {
    if i < 4 {
      AirIcons();
      assert VehicleTypes[i] == AirTypes[i];
    } else if i < 10 {
      GroundIcons();
      assert VehicleTypes[i] == GroundTypes[i - 4];
    } else {
      NavalIcons();
      assert VehicleTypes[i] == NavalTypes[i - 10];
    }
  }

  /** Only the attacker and the helicopter share an icon, and no named type shows the question mark. */
  lemma {:induction false} IconsShared(i: nat, j: nat)
    requires i < j < |TypeIcons|
    ensures TypeIcons[i] != UnknownIcon
    ensures TypeIcons[i] == TypeIcons[j] <==> i == 1 && j == 3
  {
    assert TypeIcons[i][0] != UnknownIcon[0];
    if i == 1 && j == 3 {
    } else {
      assert TypeIcons[i][0] != TypeIcons[j][0];
    }
  }

  /** getGameModeColor: a colour per known mode, the default blue for anything else. */
  function GameModeColor(m: GameMode): (color: int)
    ensures m == Air ==> color == 0x87CEEB
    ensures m == Ground ==> color == 0x8B4513
    ensures m == Naval ==> color == 0x1E90FF
    ensures color == 0x4285F4 <==> !IsKnownMode(m)
  {
    if m == Air then 0x87CEEB
    else if m == Ground then 0x8B4513
    else if m == Naval then 0x1E90FF
    else 0x4285F4
  }

  /** The known modes have distinct colours. */
  lemma ModeColorsDistinct(a: GameMode, b: GameMode)
    requires IsKnownMode(a) && IsKnownMode(b) && GameModeColor(a) == GameModeColor(b)
    ensures a == b
  {
  }

  const Numerals: seq<string> := ["I", "II", "III", "IV", "V", "VI", "VII", "VIII"]

  /** romanNumeral: ranks 1 to 8 as Roman numerals, any other rank in decimal. */
  function RomanNumeral(rank: int): (r: string)
    ensures 1 <= rank <= 8 ==> r == Numerals[rank - 1]
    ensures !(1 <= rank <= 8) ==> r == IntToDecimal(rank)
  {
    if rank == 1 then "I"
    else if rank == 2 then "II"
    else if rank == 3 then "III"
    else if rank == 4 then "IV"
    else if rank == 5 then "V"
    else if rank == 6 then "VI"
    else if rank == 7 then "VII"
    else if rank == 8 then "VIII"
    else IntToDecimal(rank)
  }

  /** Different ranks are shown differently. */
  lemma {:induction false} RomanNumeralInjective(a: int, b: int)
    requires RomanNumeral(a) == RomanNumeral(b)
    ensures a == b
  {
    if 1 <= a <= 8 && 1 <= b <= 8 {
      assert Numerals[a - 1] == Numerals[b - 1];
      assert |Numerals[a - 1]| == |Numerals[b - 1]|;
    } else if !(1 <= a <= 8) && !(1 <= b <= 8) {
      IntToDecimalInjective(a, b);
    }
  }

  /** The title of a result: the mode's emoji between the die and "ルーレット結果". */
  function ResultTitle(m: GameMode): (title: string)
    ensures HasPrefix(title, "🎲 ") && HasSuffix(title, " ルーレット結果")
    ensures |"🎲 "| + |" ルーレット結果"| <= |title|
    ensures title[|"🎲 "|..|title| - |" ルーレット結果"|] == ModeEmoji(m)
  {
    var title := "🎲 " + ModeEmoji(m) + " ルーレット結果";
    assert title[..|"🎲 "|] == "🎲 ";
    assert title[|"🎲 "|..|title| - |" ルーレット結果"|] == ModeEmoji(m);
    assert title[|title| - |" ルーレット結果"|..] == " ルーレット結果";
    title
  }

  /** The title tells the mode: results of different modes get different titles. */
  lemma ResultTitlesDistinct(a: GameMode, b: GameMode)
    requires IsKnownMode(a) && IsKnownMode(b) && a != b
    ensures ResultTitle(a) != ResultTitle(b)
  {
    assert ModeEmoji(a) != ModeEmoji(b);
  }
}
