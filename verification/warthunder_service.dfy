/**
 * The War Thunder service: the SQL query and argument list GetVehicles
 * builds from a mode, a BR range and a roulette configuration, the draw of
 * SpinRoulette, and the default configuration. The database itself is not
 * modelled: what it returns for a query is an input, and so is the result
 * of decoding an excluded list from JSON (Go's json.Unmarshal, whose
 * errors GetVehicles ignores, leaving the list empty).
 *
 * A query is kept as a sequence of tokens, SQL text and "?" placeholders;
 * `Render` gives the text the source builds, up to white space: the
 * newlines and tabs of the source's SQL literal are not kept.
 */
module WarThunderService {
  import opened Wrappers
  import opened GoStrings
  import opened WarThunderModels

  /** A value bound to one "?" placeholder. */
  datatype Arg = ModeArg(mode: GameMode) | RealArg(r: real) | TextArg(text: string) | IntArg(n: int)

  /** A piece of SQL: text, or one placeholder. */
  datatype Token = Text(text: string) | Mark

  /** The SQL text of a token sequence, a placeholder written "?". */
  function Render(query: seq<Token>): string
  {
    if |query| == 0 then ""
    else Render(query[..|query| - 1]) + (if query[|query| - 1].Mark? then "?" else query[|query| - 1].text)
  }

  /** The number of placeholders. */
  function Marks(query: seq<Token>): nat
  {
    if |query| == 0 then 0
    else Marks(query[..|query| - 1]) + (if query[|query| - 1].Mark? then 1 else 0)
  }

  lemma {:induction false} MarksAppend(a: seq<Token>, b: seq<Token>)
    ensures Marks(a + b) == Marks(a) + Marks(b)
    decreases |b|
  {
    if |b| == 0 {
      assert a + b == a;
    } else {
      assert (a + b)[..|a + b| - 1] == a + b[..|b| - 1];
      MarksAppend(a, b[..|b| - 1]);
    }
  }

  lemma {:induction false} RenderAppend(a: seq<Token>, b: seq<Token>)
    ensures Render(a + b) == Render(a) + Render(b)
    decreases |b|
  {
    if |b| == 0 {
      assert a + b == a;
    } else {
      var front, last := b[..|b| - 1], b[|b| - 1];
      var tail := if last.Mark? then "?" else last.text;
      assert (a + b)[..|a + b| - 1] == a + front && (a + b)[|a + b| - 1] == last;
      assert Render(a + b) == Render(a + front) + tail;
      assert Render(b) == Render(front) + tail;
      RenderAppend(a, front);
    }
  }

  /** No text token holds a "?" of its own. */
  predicate PlainTexts(query: seq<Token>)
  {
    forall i :: 0 <= i < |query| && query[i].Text? ==> '?' !in query[i].text
  }

  lemma PlainAppend(a: seq<Token>, b: seq<Token>)
    ensures PlainTexts(a) && PlainTexts(b) ==> PlainTexts(a + b)
  {
    forall i | 0 <= i < |a + b| && (a + b)[i].Text? && PlainTexts(a) && PlainTexts(b)
      ensures '?' !in (a + b)[i].text
    {
      if i >= |a| {
        assert (a + b)[i] == b[i - |a|];
      }
    }
  }

  /** When the text tokens hold no "?", the "?" of the rendered SQL are exactly its placeholders. */
  lemma {:induction false} RenderCount(query: seq<Token>)
    requires PlainTexts(query)
    ensures CountChar(Render(query), '?') == Marks(query)
    decreases |query|
  {
    if |query| > 0 {
      var front, last := query[..|query| - 1], query[|query| - 1];
      assert PlainTexts(front) by {
        forall i | 0 <= i < |front| && front[i].Text?
          ensures '?' !in front[i].text
        {
          assert front[i] == query[i];
        }
      }
      RenderCount(front);
      var tail := if last.Mark? then "?" else last.text;
      CountCharAppend(Render(front), tail, '?');
      if last.Mark? {
        assert CountChar("?", '?') == 1 by {
          assert "?"[1..] == "";
        }
      } else {
        CountCharPositive(tail, '?');
      }
    }
  }

  /** A query together with the arguments of its placeholders, in order. */
  datatype Part = Part(query: seq<Token>, args: seq<Arg>)

  /** Every placeholder has exactly one argument. */
  predicate Balanced(p: Part)
  {
    Marks(p.query) == |p.args|
  }

  /** Appending one part after another. */
  function Then(p: Part, q: Part): (r: Part)
    ensures Balanced(p) && Balanced(q) ==> Balanced(r)
  {
    MarksAppend(p.query, q.query);
    Part(p.query + q.query, p.args + q.args)
  }

  /** SQL text on its own: no placeholder, no argument. */
  function Plain(text: string): (p: Part)
    ensures Balanced(p)
  {
    Part([Text(text)], [])
  }

  /** One placeholder and its argument. */
  function Placeholder(arg: Arg): (p: Part)
    ensures Balanced(p)
  {
    Part([Mark], [arg])
  }

  const Nothing := Part([], [])

  /** Appending nothing leaves a part as it is. */
  lemma ThenNothing(p: Part)
    ensures Then(p, Nothing) == p
  {
    assert p.query + [] == p.query && p.args + [] == p.args;
  }

  // ---- GetVehicles ----

  /** The selected columns, cut into pieces short enough to inspect one by one. */
  const SelectPieces := ["SELECT id, ", "name, nation, ", "game_mode, ", "vehicle_type, ", "br, rank, ", "premium, ",
                         "squadron, ", "event, ", "image_url, ", "created_at, ", "updated_at ", "FROM wt_vehicles"]
  const PremiumClause := " AND premium = FALSE"
  const SquadronClause := " AND squadron = FALSE"
  const EventClause := " AND event = FALSE"
  const OrderBy := " ORDER BY br, name"

  /** Text tokens for a list of pieces. */
  function Texts(pieces: seq<string>): (q: seq<Token>)
    ensures |q| == |pieces|
    ensures forall i :: 0 <= i < |q| ==> q[i] == Text(pieces[i])
  {
    seq(|pieces|, i requires 0 <= i < |pieces| => Text(pieces[i]))
  }

  /** Text alone holds no placeholder. */
  lemma {:induction false} TextsHaveNoMarks(q: seq<Token>)
    requires forall i :: 0 <= i < |q| ==> q[i].Text?
    ensures Marks(q) == 0
    decreases |q|
  {
    if |q| > 0 {
      TextsHaveNoMarks(q[..|q| - 1]);
    }
  }

  /** The base query: the columns of wt_vehicles, filtered by mode and BR range, three placeholders in all. */
  function Base(gameMode: GameMode, minBR: real, maxBR: real): (p: Part)
    ensures Balanced(p)
    ensures p.args == [ModeArg(gameMode), RealArg(minBR), RealArg(maxBR)]
  {
    TextsHaveNoMarks(Texts(SelectPieces));
    var select := Part(Texts(SelectPieces), []);
    var mode := Then(Then(select, Plain(" WHERE game_mode = ")), Placeholder(ModeArg(gameMode)));
    var low := Then(Then(mode, Plain(" AND br >= ")), Placeholder(RealArg(minBR)));
    Then(Then(low, Plain(" AND br <= ")), Placeholder(RealArg(maxBR)))
  }

  /** Both parts plain, so is their sequence. */
  lemma ThenPlain(p: Part, q: Part)
    requires PlainTexts(p.query) && PlainTexts(q.query)
    ensures PlainTexts(Then(p, q).query)
  {
    PlainAppend(p.query, q.query);
  }

  lemma SelectHeadPlain()
    ensures forall i :: 0 <= i < 6 ==> '?' !in SelectPieces[i]
  {
    assert '?' !in "SELECT id, " && '?' !in "name, nation, " && '?' !in "game_mode, ";
    assert '?' !in "vehicle_type, " && '?' !in "br, rank, " && '?' !in "premium, ";
  }

  lemma SelectTailPlain()
    ensures forall i :: 6 <= i < |SelectPieces| ==> '?' !in SelectPieces[i]
  {
    assert '?' !in "squadron, " && '?' !in "event, " && '?' !in "image_url, ";
    assert '?' !in "created_at, " && '?' !in "updated_at " && '?' !in "FROM wt_vehicles";
  }

  /** The selected columns hold no "?". */
  lemma SelectPlain()
    ensures PlainTexts(Texts(SelectPieces))
  {
    SelectHeadPlain();
    SelectTailPlain();
  }

  /** The text of the base query holds no "?" besides its placeholders. */
  lemma BasePlain(gameMode: GameMode, minBR: real, maxBR: real)
    ensures PlainTexts(Base(gameMode, minBR, maxBR).query)
  {
    SelectPlain();
    var select := Part(Texts(SelectPieces), []);
    assert '?' !in " WHERE game_mode = " && '?' !in " AND br >= " && '?' !in " AND br <= ";
    var m1 := Then(select, Plain(" WHERE game_mode = "));
    ThenPlain(select, Plain(" WHERE game_mode = "));
    var mode := Then(m1, Placeholder(ModeArg(gameMode)));
    ThenPlain(m1, Placeholder(ModeArg(gameMode)));
    var l1 := Then(mode, Plain(" AND br >= "));
    ThenPlain(mode, Plain(" AND br >= "));
    var low := Then(l1, Placeholder(RealArg(minBR)));
    ThenPlain(l1, Placeholder(RealArg(minBR)));
    var h1 := Then(low, Plain(" AND br <= "));
    ThenPlain(low, Plain(" AND br <= "));
    ThenPlain(h1, Placeholder(RealArg(maxBR)));
  }

  /** The fixed clauses hold no "?". */
  lemma ClausesPlain()
    ensures '?' !in PremiumClause && '?' !in SquadronClause && '?' !in EventClause && '?' !in OrderBy
  {
  }

  /** The clause of a false Include* flag, and nothing for a true one. */
  function FlagPart(keep: bool, clause: string): (p: Part)
    ensures Balanced(p) && p.args == []
    ensures keep <==> p == Nothing
  {
    if keep then Nothing else Plain(clause)
  }

  /** The placeholders of a NOT IN list: "?" then ",?" for each further value. */
  function MarkList(n: nat): (q: seq<Token>)
    requires n >= 1
    ensures Marks(q) == n && PlainTexts(q)
  {
    if n == 1 then [Mark]
    else
      MarksAppend([Mark, Text(",")], MarkList(n - 1));
      assert Marks([Mark, Text(",")]) == 1 by {
        assert [Mark, Text(",")][..1] == [Mark];
      }
      PlainAppend([Mark, Text(",")], MarkList(n - 1));
      [Mark, Text(",")] + MarkList(n - 1)
  }

  /** MarkList renders as strings.Repeat("?,", n-1) + "?". */
  lemma {:induction false} MarkListText(n: nat)
    requires n >= 1
    ensures Render(MarkList(n)) == Repeat("?,", n - 1) + "?"
    decreases n
  {
    if n > 1 {
      RenderAppend([Mark, Text(",")], MarkList(n - 1));
      assert Render([Mark, Text(",")]) == "?," by {
        assert [Mark, Text(",")][..1] == [Mark];
      }
      MarkListText(n - 1);
    }
  }

  /** " AND column NOT IN (?,…,?)" with one placeholder per value, and the values as arguments. */
  function NotIn(column: string, values: seq<Arg>): (p: Part)
    requires |values| >= 1
    ensures Balanced(p) && p.args == values
  {
    var open := Plain(" AND " + column + " NOT IN (");
    Then(Then(open, Part(MarkList(|values|), values)), Plain(")"))
  }

  /** The part of an excluded list: nothing for "" or "[]" or an empty decoded list, a NOT IN clause otherwise. */
  function Exclusion(column: string, list: string, values: seq<Arg>): (p: Part)
    ensures Balanced(p)
    ensures p.args == Listed(list, values)
  {
    if list == "" || list == "[]" || |values| == 0 then Nothing
    else NotIn(column, values)
  }

  /** An excluded list on a column without "?" adds no "?" besides its placeholders. */
  lemma ExclusionPlain(column: string, list: string, values: seq<Arg>)
    requires '?' !in column
    ensures PlainTexts(Exclusion(column, list, values).query)
  {
    if !(list == "" || list == "[]" || |values| == 0) {
      var open := Plain(" AND " + column + " NOT IN (");
      assert '?' !in " AND " + column + " NOT IN (";
      assert '?' !in ")";
      ThenPlain(open, Part(MarkList(|values|), values));
      ThenPlain(Then(open, Part(MarkList(|values|), values)), Plain(")"));
    }
  }

  /** The arguments of an excluded list when it is not "" or "[]". */
  function Listed(list: string, values: seq<Arg>): seq<Arg>
  {
    if list == "" || list == "[]" then [] else values
  }

  /** The decoded strings of a JSON list, as arguments. */
  function TextArgs(texts: seq<string>): (args: seq<Arg>)
    ensures |args| == |texts|
    ensures forall i :: 0 <= i < |texts| ==> args[i] == TextArg(texts[i])
  {
    seq(|texts|, i requires 0 <= i < |texts| => TextArg(texts[i]))
  }

  /** The decoded integers of a JSON list, as arguments. */
  function IntArgs(ids: seq<int>): (args: seq<Arg>)
    ensures |args| == |ids|
    ensures forall i :: 0 <= i < |ids| ==> args[i] == IntArg(ids[i])
  {
    seq(|ids|, i requires 0 <= i < |ids| => IntArg(ids[i]))
  }

  /** The filters of a configuration, appended in the order GetVehicles appends them. */
  function WithFilters(base: Part, c: RouletteConfig, decodeTexts: string -> seq<string>, decodeInts: string -> seq<int>): Part
  {
    var p1 := Then(base, FlagPart(c.includePremium, PremiumClause));
    var p2 := Then(p1, FlagPart(c.includeSquadron, SquadronClause));
    var p3 := Then(p2, FlagPart(c.includeEvent, EventClause));
    var p4 := Then(p3, Exclusion("nation", c.excludedNations, TextArgs(decodeTexts(c.excludedNations))));
    var p5 := Then(p4, Exclusion("vehicle_type", c.excludedTypes, TextArgs(decodeTexts(c.excludedTypes))));
    Then(p5, Exclusion("id", c.excludedVehicles, IntArgs(decodeInts(c.excludedVehicles))))
  }

  /** The filters add no "?" besides their placeholders. */
  lemma FiltersPlain(base: Part, c: RouletteConfig, decodeTexts: string -> seq<string>, decodeInts: string -> seq<int>)
    requires PlainTexts(base.query)
    ensures PlainTexts(WithFilters(base, c, decodeTexts, decodeInts).query)
  {
    ClausesPlain();
    assert '?' !in "nation" && '?' !in "vehicle_type" && '?' !in "id";
    var p1 := Then(base, FlagPart(c.includePremium, PremiumClause));
    ThenPlain(base, FlagPart(c.includePremium, PremiumClause));
    var p2 := Then(p1, FlagPart(c.includeSquadron, SquadronClause));
    ThenPlain(p1, FlagPart(c.includeSquadron, SquadronClause));
    var p3 := Then(p2, FlagPart(c.includeEvent, EventClause));
    ThenPlain(p2, FlagPart(c.includeEvent, EventClause));
    var e4 := Exclusion("nation", c.excludedNations, TextArgs(decodeTexts(c.excludedNations)));
    ExclusionPlain("nation", c.excludedNations, TextArgs(decodeTexts(c.excludedNations)));
    ThenPlain(p3, e4);
    var p4 := Then(p3, e4);
    var e5 := Exclusion("vehicle_type", c.excludedTypes, TextArgs(decodeTexts(c.excludedTypes)));
    ExclusionPlain("vehicle_type", c.excludedTypes, TextArgs(decodeTexts(c.excludedTypes)));
    ThenPlain(p4, e5);
    var e6 := Exclusion("id", c.excludedVehicles, IntArgs(decodeInts(c.excludedVehicles)));
    ExclusionPlain("id", c.excludedVehicles, IntArgs(decodeInts(c.excludedVehicles)));
    ThenPlain(Then(p4, e5), e6);
  }

  /** The query and arguments GetVehicles sends: the base, the filters of a given configuration, then the ordering. */
  function VehicleQuery(gameMode: GameMode, minBR: real, maxBR: real, config: Option<RouletteConfig>,
                        decodeTexts: string -> seq<string>, decodeInts: string -> seq<int>): Part
  {
    var base := Base(gameMode, minBR, maxBR);
    var filtered := if config.None? then base else WithFilters(base, config.value, decodeTexts, decodeInts);
    Then(filtered, Plain(OrderBy))
  }

  /**
   * The query binds exactly one argument per placeholder, whatever the
   * configuration: the rendered SQL holds as many "?" as there are
   * arguments. It always ends with the ordering clause.
   */
  lemma {:induction false} VehicleQueryBalanced(gameMode: GameMode, minBR: real, maxBR: real, config: Option<RouletteConfig>,
                                                decodeTexts: string -> seq<string>, decodeInts: string -> seq<int>)
    ensures var q := VehicleQuery(gameMode, minBR, maxBR, config, decodeTexts, decodeInts);
            CountChar(Render(q.query), '?') == |q.args| && q.query[|q.query| - 1] == Text(OrderBy)
  {
    var base := Base(gameMode, minBR, maxBR);
    BasePlain(gameMode, minBR, maxBR);
    ClausesPlain();
    var filtered := if config.None? then base else WithFilters(base, config.value, decodeTexts, decodeInts);
    if config.Some? {
      FiltersPlain(base, config.value, decodeTexts, decodeInts);
    }
    ThenPlain(filtered, Plain(OrderBy));
    var q := VehicleQuery(gameMode, minBR, maxBR, config, decodeTexts, decodeInts);
    RenderCount(q.query);
  }

  /**
   * The arguments are the mode and the BR range, then the excluded nations,
   * types and vehicle IDs in list order, each only when its list is not
   * "" or "[]"; without a configuration there are only the first three.
   */
  lemma {:induction false} VehicleQueryArgs(gameMode: GameMode, minBR: real, maxBR: real, config: Option<RouletteConfig>,
                                            decodeTexts: string -> seq<string>, decodeInts: string -> seq<int>)
    ensures config.None? ==> VehicleQuery(gameMode, minBR, maxBR, config, decodeTexts, decodeInts)
                             == Then(Base(gameMode, minBR, maxBR), Plain(OrderBy))
    ensures config.Some? ==>
              var c := config.value;
              VehicleQuery(gameMode, minBR, maxBR, config, decodeTexts, decodeInts).args
              == [ModeArg(gameMode), RealArg(minBR), RealArg(maxBR)]
                 + Listed(c.excludedNations, TextArgs(decodeTexts(c.excludedNations)))
                 + Listed(c.excludedTypes, TextArgs(decodeTexts(c.excludedTypes)))
                 + Listed(c.excludedVehicles, IntArgs(decodeInts(c.excludedVehicles)))
  {
    if config.Some? {
      var c := config.value;
      var base := Base(gameMode, minBR, maxBR);
      var p3 := Then(Then(Then(base, FlagPart(c.includePremium, PremiumClause)), FlagPart(c.includeSquadron, SquadronClause)),
                     FlagPart(c.includeEvent, EventClause));
      assert p3.args == base.args;
    }
  }

  /** Appends an optional flag clause. */
  method AppendFlag(query: seq<Token>, keep: bool, clause: string) returns (query': seq<Token>)
    ensures query' == query + FlagPart(keep, clause).query
  {
    query' := query;
    if !keep {
      query' := query' + [Text(clause)];
    }
  }

  /** Appends the NOT IN clause of an excluded list, then its values one by one. */
  method AppendExclusion(query: seq<Token>, args: seq<Arg>, column: string, list: string, values: seq<Arg>)
    returns (query': seq<Token>, args': seq<Arg>)
    ensures Part(query', args') == Then(Part(query, args), Exclusion(column, list, values))
  {
    query', args' := query, args;
    if list != "" && list != "[]" {
      if |values| > 0 {
        query' := query' + NotIn(column, values).query;
        for i := 0 to |values|
          invariant args' == args + values[..i]
        {
          args' := args' + [values[i]];
          assert values[..i + 1] == values[..i] + [values[i]];
        }
        assert values[..|values|] == values;
      }
    }
  }

  /** The query building of GetVehicles, step by step. */
  method BuildVehicleQuery(gameMode: GameMode, minBR: real, maxBR: real, config: Option<RouletteConfig>,
                           decodeTexts: string -> seq<string>, decodeInts: string -> seq<int>)
    returns (query: seq<Token>, args: seq<Arg>)
    ensures Part(query, args) == VehicleQuery(gameMode, minBR, maxBR, config, decodeTexts, decodeInts)
  {
    var base := Base(gameMode, minBR, maxBR);
    query, args := base.query, base.args;
    if config.Some? {
      var c := config.value;
      query := AppendFlag(query, c.includePremium, PremiumClause);
      query := AppendFlag(query, c.includeSquadron, SquadronClause);
      query := AppendFlag(query, c.includeEvent, EventClause);
      assert Part(query, args) == Then(Then(Then(base, FlagPart(c.includePremium, PremiumClause)),
                                            FlagPart(c.includeSquadron, SquadronClause)), FlagPart(c.includeEvent, EventClause));
      query, args := AppendExclusion(query, args, "nation", c.excludedNations, TextArgs(decodeTexts(c.excludedNations)));
      query, args := AppendExclusion(query, args, "vehicle_type", c.excludedTypes, TextArgs(decodeTexts(c.excludedTypes)));
      query, args := AppendExclusion(query, args, "id", c.excludedVehicles, IntArgs(decodeInts(c.excludedVehicles)));
    }
    query := query + [Text(OrderBy)];
  }

  /** GetVehicles: the rows the database returns for the query, or its error wrapped. */
  function GetVehicles(rows: Result<seq<Vehicle>>): (r: Result<seq<Vehicle>>)
    ensures rows.Ok? ==> r == rows
    ensures rows.Err? ==> r == Err("failed to query vehicles: " + rows.error)
  {
    match rows
    case Ok(vehicles) => Ok(vehicles)
    case Err(e) => Err("failed to query vehicles: " + e)
  }

  const NoVehicles := "no vehicles found matching the criteria"

  /**
   * SpinRoulette: a failed lookup or an empty list is an error; otherwise
   * the vehicle at a drawn position (`draw`, rand.Intn's value, below the
   * length of the list) together with the configuration.
   */
  function SpinRoulette(config: RouletteConfig, rows: Result<seq<Vehicle>>, draw: nat): (r: Result<RouletteResult>)
    requires rows.Ok? && |rows.value| > 0 ==> draw < |rows.value|
    ensures r.Err? <==> rows.Err? || |rows.value| == 0
    ensures rows.Err? ==> r.error == "failed to get vehicles for roulette: " + ("failed to query vehicles: " + rows.error)
    ensures rows.Ok? && |rows.value| == 0 ==> r.error == NoVehicles
    ensures r.Ok? ==> r.value.vehicle in rows.value && r.value.config == config
    ensures r.Ok? ==> r.value.vehicle == rows.value[draw]
  {
    var vehicles := GetVehicles(rows);
    if vehicles.Err? then Err("failed to get vehicles for roulette: " + vehicles.error)
    else if |vehicles.value| == 0 then Err(NoVehicles)
    else Ok(RouletteResult(vehicles.value[draw], config))
  }

  /** Every vehicle of a non-empty list can be drawn. */
  lemma EveryVehicleCanBeDrawn(config: RouletteConfig, vehicles: seq<Vehicle>, k: nat)
    requires k < |vehicles|
    ensures SpinRoulette(config, Ok(vehicles), k) == Ok(RouletteResult(vehicles[k], config))
  {
  }

  // ---- configurations ----

  /** The upper BR bound of a new configuration for each mode. */
  function DefaultMaxBR(m: GameMode): (br: real)
    ensures m == Ground ==> br == 12.0
    ensures m == Naval ==> br == 7.0
    ensures m != Ground && m != Naval ==> br == 13.0
  {
    if m == Ground then 12.0 else if m == Naval then 7.0 else 13.0
  }

  /** createDefaultConfig's configuration: BR from 1.0, no exclusions, premium and squadron vehicles in, event vehicles out. */
  function DefaultConfig(userID: string, guildID: string, m: GameMode): (c: RouletteConfig)
    ensures c.userID == userID && c.guildID == guildID && c.gameMode == m
    ensures c.minBR == 1.0 && c.maxBR == DefaultMaxBR(m)
    ensures c.excludedNations == "[]" && c.excludedTypes == "[]" && c.excludedVehicles == "[]"
    ensures c.includePremium && c.includeSquadron && !c.includeEvent
  {
    RouletteConfig(userID, guildID, m, 1.0, DefaultMaxBR(m), "[]", "[]", "[]", true, true, false)
  }

  /** A default configuration always has a valid BR range. */
  lemma DefaultRangeValid(userID: string, guildID: string, m: GameMode)
    ensures DefaultConfig(userID, guildID, m).minBR <= DefaultConfig(userID, guildID, m).maxBR
  {
  }

  /** Under the default configuration the query filters event vehicles out and nothing else. */
  lemma {:induction false} DefaultConfigQuery(userID: string, guildID: string, m: GameMode, minBR: real, maxBR: real,
                                              decodeTexts: string -> seq<string>, decodeInts: string -> seq<int>)
    ensures VehicleQuery(m, minBR, maxBR, Some(DefaultConfig(userID, guildID, m)), decodeTexts, decodeInts)
            == Then(Then(Base(m, minBR, maxBR), Plain(EventClause)), Plain(OrderBy))
  {
    var c := DefaultConfig(userID, guildID, m);
    var base := Base(m, minBR, maxBR);
    var event := Then(base, Plain(EventClause));
    ThenNothing(base);
    ThenNothing(event);
    assert FlagPart(c.includePremium, PremiumClause) == Nothing && FlagPart(c.includeSquadron, SquadronClause) == Nothing;
    assert Exclusion("nation", c.excludedNations, TextArgs(decodeTexts(c.excludedNations))) == Nothing;
    assert Exclusion("vehicle_type", c.excludedTypes, TextArgs(decodeTexts(c.excludedTypes))) == Nothing;
    assert Exclusion("id", c.excludedVehicles, IntArgs(decodeInts(c.excludedVehicles))) == Nothing;
    assert WithFilters(base, c, decodeTexts, decodeInts) == event;
  }

  /** createDefaultConfig: the default configuration once it is saved, or the save error. */
  function CreateDefaultConfig(userID: string, guildID: string, m: GameMode, save: Outcome): (r: Result<RouletteConfig>)
    ensures save.Pass? ==> r == Ok(DefaultConfig(userID, guildID, m))
    ensures save.Fail? ==> r == Err("failed to save roulette config: " + save.error)
  {
    if save.Fail? then Err("failed to save roulette config: " + save.error)
    else Ok(DefaultConfig(userID, guildID, m))
  }

  /** What the configuration lookup found: a row, no row, or an error. */
  datatype ConfigRow = Found(config: RouletteConfig) | NoRows | Failed(error: string)

  /** GetRouletteConfig: the stored row, a new default one when there is none, or the lookup error. */
  function GetRouletteConfig(row: ConfigRow, userID: string, guildID: string, m: GameMode, save: Outcome): (r: Result<RouletteConfig>)
    ensures row.Found? ==> r == Ok(row.config)
    ensures row.NoRows? ==> r == CreateDefaultConfig(userID, guildID, m, save)
    ensures row.Failed? ==> r == Err("failed to get roulette config: " + row.error)
  {
    match row
    case Found(c) => Ok(c)
    case NoRows => CreateDefaultConfig(userID, guildID, m, save)
    case Failed(e) => Err("failed to get roulette config: " + e)
  }

  /** GetVehicleCount's query: filtered by mode, with the mode as its one argument, when one is given. */
  function VehicleCountQuery(m: Option<GameMode>): (p: Part)
    ensures Balanced(p)
    ensures m.None? <==> p.args == []
  {
    match m
    case None => Plain("SELECT COUNT(*) FROM wt_vehicles")
    case Some(mode) => Then(Plain("SELECT COUNT(*) FROM wt_vehicles WHERE game_mode = "), Placeholder(ModeArg(mode)))
  }
}
