/**
 * The dependency container wired at start-up: which AI backend it brings
 * up (Gemini Studio and Vertex AI exclude each other here, unlike the
 * factory), which commands it registers for each combination of backends,
 * and the order of clean-up. Connection and client results are inputs.
 */
module Container {
  import opened Wrappers
  import opened Permissions
  import CloudConfig
  import GS = GeminiStudio
  import VG = VertexGemini
  import LS = LegacyService
  import AiFactory
  import R = Registry

  const Ping := R.CommandInfo("ping", ["pong", "latency"], 0, R.NoBackend)
  const Avatar := R.CommandInfo("avatar", ["av", "pfp"], 0, R.NoBackend)
  const Config := R.CommandInfo("config", ["setup", "configure", "settings"], ManageGuild, R.NoBackend)
  const EmbedBuilder := R.CommandInfo("embed", ["埋め込み", "エンベッド"], SendMessages, R.NoBackend)
  const Activity := R.CommandInfo("activity", ["stats", "統計", "活動"], SendMessages, R.NoBackend)
  const Lockdown := R.CommandInfo("lockdown", ["lock", "緊急", "ロック"], ManageChannels, R.NoBackend)
  const Purge := R.CommandInfo("purge", ["clear", "delete", "削除"], ManageMessages, R.NoBackend)
  /** The ask command bound to one backend. */
  function Ask(backend: R.Backend): R.CommandInfo
  {
    R.CommandInfo("ask", ["質問", "gemini"], SendMessages, backend)
  }
  const Imagine := R.CommandInfo("imagine", ["画像生成", "imagen"], SendMessages, R.LegacyBackend)
  const Ocr := R.CommandInfo("ocr", ["文字認識", "テキスト抽出"], SendMessages, R.StudioBackend)
  const Translate := R.CommandInfo("translate", ["翻訳", "tr"], SendMessages, R.StudioBackend)
  const WarThunder := R.CommandInfo("wt", ["warthunder", "wtbr"], 0, R.NoBackend)

  const BaseCommands := [Ping, Avatar, Config, EmbedBuilder, Activity, Lockdown, Purge]

  /** The AI commands: ask on the first present backend of Vertex, legacy, Studio; imagine with the legacy service. */
  function AiCommands(hasVertex: bool, hasLegacy: bool, hasStudio: bool): seq<R.CommandInfo>
  {
    if hasVertex then [Ask(R.VertexBackend)] + (if hasLegacy then [Imagine] else [])
    else if hasLegacy then [Ask(R.LegacyBackend), Imagine]
    else if hasStudio then [Ask(R.StudioBackend)]
    else []
  }

  /** OCR and translation, both on Gemini Studio. */
  function StudioCommands(hasStudio: bool): seq<R.CommandInfo>
  {
    if hasStudio then [Ocr, Translate] else []
  }

  /** The commands initCommands registers, in order, for the backends that are up. */
  function ExpectedCommands(hasVertex: bool, hasLegacy: bool, hasStudio: bool): seq<R.CommandInfo>
  {
    BaseCommands + AiCommands(hasVertex, hasLegacy, hasStudio) + StudioCommands(hasStudio) + [WarThunder]
  }

  /** Every key a command occupies: its name and its aliases. */
  function Keys(c: R.CommandInfo): seq<string>
  {
    [c.name] + c.aliases
  }

  /** No key repeats another. */
  predicate Distinct(keys: seq<string>)
  {
    forall i, j :: 0 <= i < j < |keys| ==> keys[i] != keys[j]
  }

  /** No key of `a` is a key of `b`. */
  predicate Disjoint(a: seq<string>, b: seq<string>)
  {
    forall i, j :: 0 <= i < |a| && 0 <= j < |b| ==> a[i] != b[j]
  }

  lemma {:induction false} DistinctConcat(a: seq<string>, b: seq<string>)
    requires Distinct(a) && Distinct(b) && Disjoint(a, b)
    ensures Distinct(a + b)
  {
    var ab := a + b;
    forall i, j | 0 <= i < j < |ab|
      ensures ab[i] != ab[j]
    {
      if j < |a| {
        assert ab[i] == a[i] && ab[j] == a[j];
      } else if i < |a| {
        assert ab[i] == a[i] && ab[j] == b[j - |a|];
      } else {
        assert ab[i] == b[i - |a|] && ab[j] == b[j - |a|];
      }
    }
  }

  lemma {:induction false} DisjointConcat(a: seq<string>, b: seq<string>, c: seq<string>)
    requires Disjoint(a, c) && Disjoint(b, c)
    ensures Disjoint(a + b, c)
  {
    var ab := a + b;
    forall i, j | 0 <= i < |ab| && 0 <= j < |c|
      ensures ab[i] != c[j]
    {
      if i < |a| {
        assert ab[i] == a[i];
      } else {
        assert ab[i] == b[i - |a|];
      }
    }
  }

  /** The keys of ping, avatar and config, in registration order. */
  const FirstKeys := ["ping", "pong", "latency", "avatar", "av", "pfp", "config", "setup", "configure", "settings"]
  /** The keys of embed, activity and lockdown. */
  const SecondKeys := ["embed", "埋め込み", "エンベッド", "activity", "stats", "統計", "活動", "lockdown", "lock", "緊急", "ロック"]
  /** The keys of purge, ask and imagine. */
  const ThirdKeys := ["purge", "clear", "delete", "削除", "ask", "質問", "gemini", "imagine", "画像生成", "imagen"]
  /** The keys of ocr, translate and War Thunder. */
  const FourthKeys := ["ocr", "文字認識", "テキスト抽出", "translate", "翻訳", "tr", "wt", "warthunder", "wtbr"]

  /** Every key initCommands can bind, command by command in registration order. */
  const AllKeys := FirstKeys + SecondKeys + ThirdKeys + FourthKeys

  lemma BlocksDistinct()
    ensures Distinct(FirstKeys) && Distinct(SecondKeys) && Distinct(ThirdKeys) && Distinct(FourthKeys)
  {
  }

  lemma FirstKeysApart()
    ensures Disjoint(FirstKeys, SecondKeys) && Disjoint(FirstKeys, ThirdKeys)
  {
  }

  lemma LaterKeysApart()
    ensures Disjoint(FirstKeys, FourthKeys) && Disjoint(SecondKeys, ThirdKeys)
  {
  }

  lemma LastKeysApart()
    ensures Disjoint(SecondKeys, FourthKeys) && Disjoint(ThirdKeys, FourthKeys)
  {
  }

  /** No two commands initCommands can register share a key, and no command repeats one. */
  lemma AllKeysDistinct()
    ensures Distinct(AllKeys)
  {
    BlocksDistinct();
    FirstKeysApart();
    LaterKeysApart();
    LastKeysApart();
    DistinctConcat(FirstKeys, SecondKeys);
    DisjointConcat(FirstKeys, SecondKeys, ThirdKeys);
    DistinctConcat(FirstKeys + SecondKeys, ThirdKeys);
    DisjointConcat(FirstKeys, SecondKeys, FourthKeys);
    DisjointConcat(FirstKeys + SecondKeys, ThirdKeys, FourthKeys);
    DistinctConcat(FirstKeys + SecondKeys + ThirdKeys, FourthKeys);
  }

  /** Every key of `m` is among the first `n` of `all`. */
  predicate KeysBelow(m: map<string, R.CommandInfo>, all: seq<string>, n: int)
  {
    forall k :: k in m ==> exists i :: 0 <= i < n && i < |all| && all[i] == k
  }

  /**
   * The map binds every key of every command in `done` to that command,
   * and every key it holds belongs to the command it is bound to.
   */
  predicate BindsExactly(m: map<string, R.CommandInfo>, done: seq<R.CommandInfo>)
  {
    (forall d, k :: d in done && k in Keys(d) ==> k in m && m[k] == d)
    && (forall k :: k in m ==> m[k] in done && k in Keys(m[k]))
  }

  /** A slice of a list without repeats has none either. */
  lemma {:induction false} DistinctSlice(all: seq<string>, n: nat, n': nat)
    requires Distinct(all) && n <= n' <= |all|
    ensures Distinct(all[n..n'])
  {
    var s := all[n..n'];
    forall i, j | 0 <= i < j < |s|
      ensures s[i] != s[j]
    {
      assert s[i] == all[n + i] && s[j] == all[n + j];
    }
  }

  /** The keys after position `n` of a list without repeats are not yet bound. */
  lemma {:induction false} NextKeysFree(m: map<string, R.CommandInfo>, all: seq<string>, n: nat, n': nat)
    requires KeysBelow(m, all, n) && Distinct(all) && n <= n' <= |all|
    ensures forall k :: k in all[n..n'] ==> k !in m
  {
    forall k | k in m
      ensures k !in all[n..n']
    {
      var i :| 0 <= i < n && i < |all| && all[i] == k;
      forall j | n <= j < n'
        ensures all[j] != k
      {
        assert i < j;
      }
    }
  }

  /** A command with distinct keys, none of them bound, meets no clash. */
  lemma {:induction false} NoClash(m: map<string, R.CommandInfo>, c: R.CommandInfo)
    requires Distinct(Keys(c)) && forall k :: k in Keys(c) ==> k !in m
    ensures R.FirstClash(m, c) == |c.aliases|
  {
    var keys := Keys(c);
    forall j | 0 <= j < |c.aliases|
      ensures !R.Clashes(m, c, j)
    {
      assert keys[j + 1] == c.aliases[j] && keys[j + 1] in keys;
      assert keys[0] == c.name;
      forall i | 0 <= i < j
        ensures c.aliases[..j][i] != c.aliases[j]
      {
        assert keys[i + 1] == c.aliases[i];
      }
    }
  }

  /** Binding a command none of whose keys is bound extends the exact binding by it. */
  lemma {:induction false} BindStep(m: map<string, R.CommandInfo>, done: seq<R.CommandInfo>, c: R.CommandInfo)
    requires BindsExactly(m, done)
    requires forall k :: k in Keys(c) ==> k !in m
    ensures BindsExactly(m[c.name := c] + R.BindAll(c.aliases, c), done + [c])
  {
    var m' := m[c.name := c] + R.BindAll(c.aliases, c);
    assert c.name in Keys(c);
    forall d, k | d in done + [c] && k in Keys(d)
      ensures k in m' && m'[k] == d
    {
      if d in done {
        assert k in m;
        assert k !in Keys(c);
      } else if k != c.name {
        assert k in c.aliases;
      }
    }
    forall k | k in m'
      ensures m'[k] in done + [c] && k in Keys(m'[k])
    {
      if k == c.name || k in c.aliases {
        assert k in Keys(c);
      }
    }
  }

  /** Binding the keys at positions n to n' of `all` keeps every key below n'. */
  lemma {:induction false} KeysBelowStep(m: map<string, R.CommandInfo>, c: R.CommandInfo, all: seq<string>, n: nat, n': nat)
    requires KeysBelow(m, all, n) && n <= n' <= |all| && Keys(c) == all[n..n']
    ensures KeysBelow(m[c.name := c] + R.BindAll(c.aliases, c), all, n')
  {
    var keys := Keys(c);
    var m' := m[c.name := c] + R.BindAll(c.aliases, c);
    forall k | k in m'
      ensures exists i :: 0 <= i < n' && i < |all| && all[i] == k
    {
      if k == c.name || k in c.aliases {
        assert k in keys;
        var j :| 0 <= j < |keys| && keys[j] == k;
        assert all[n + j] == k;
      }
    }
  }

  /**
   * Registering the command at position `i` of `cs`, whose keys are the
   * next ones of `all`, meets no clash and extends the exact binding by it.
   */
  lemma NextStep(m: map<string, R.CommandInfo>, c: R.CommandInfo, cs: seq<R.CommandInfo>, i: nat, all: seq<string>, n: nat, n': nat)
    requires i < |cs| && cs[i] == c
    requires BindsExactly(m, cs[..i]) && KeysBelow(m, all, n)
    requires Distinct(all) && n <= n' <= |all| && Keys(c) == all[n..n']
    ensures c.name !in m && R.FirstClash(m, c) == |c.aliases|
    ensures BindsExactly(m[c.name := c] + R.BindAll(c.aliases[..|c.aliases|], c), cs[..i + 1])
    ensures KeysBelow(m[c.name := c] + R.BindAll(c.aliases[..|c.aliases|], c), all, n')
  {
    DistinctSlice(all, n, n');
    NextKeysFree(m, all, n, n');
    NoClash(m, c);
    BindStep(m, cs[..i], c);
    KeysBelowStep(m, c, all, n, n');
    assert c.name in Keys(c);
    assert cs[..i + 1] == cs[..i] + [c];
    assert c.aliases[..|c.aliases|] == c.aliases;
  }

  /**
   * Register on the command at position `i` of the planned sequence `cs`,
   * whose keys are the next ones of `all`: it binds its name and every alias.
   */
  method RegisterNext(registry: R.Registry, c: R.CommandInfo, ghost cs: seq<R.CommandInfo>, ghost i: nat,
                      ghost all: seq<string>, ghost n: nat, ghost n': nat)
    modifies registry
    requires i < |cs| && cs[i] == c
    requires BindsExactly(registry.commands, cs[..i]) && KeysBelow(registry.commands, all, n)
    requires Distinct(all) && n <= n' <= |all| && Keys(c) == all[n..n']
    ensures BindsExactly(registry.commands, cs[..i + 1]) && KeysBelow(registry.commands, all, n')
  {
    NextStep(registry.commands, c, cs, i, all, n, n');
    var err := registry.Register(c);
  }

  /** Where each command's keys sit in AllKeys. */
  lemma FirstSpans()
    ensures Keys(Ping) == AllKeys[0..3] && Keys(Avatar) == AllKeys[3..6] && Keys(Config) == AllKeys[6..10]
  {
  }

  lemma SecondSpans()
    ensures Keys(EmbedBuilder) == AllKeys[10..13] && Keys(Activity) == AllKeys[13..17] && Keys(Lockdown) == AllKeys[17..21]
  {
  }

  lemma ThirdSpans(b: R.Backend)
    ensures Keys(Purge) == AllKeys[21..25] && Keys(Ask(b)) == AllKeys[25..28] && Keys(Imagine) == AllKeys[28..31]
  {
  }

  lemma FourthSpans()
    ensures Keys(Ocr) == AllKeys[31..34] && Keys(Translate) == AllKeys[34..37] && Keys(WarThunder) == AllKeys[37..40]
  {
  }

  /** `all` lays out the keys of every command initCommands can register, without repeats, in registration order. */
  predicate Planned(all: seq<string>)
  {
    Distinct(all) && |all| == 40
    && Keys(Ping) == all[0..3] && Keys(Avatar) == all[3..6] && Keys(Config) == all[6..10]
    && Keys(EmbedBuilder) == all[10..13] && Keys(Activity) == all[13..17] && Keys(Lockdown) == all[17..21]
    && Keys(Purge) == all[21..25] && Keys(Imagine) == all[28..31]
    && (forall b :: Keys(Ask(b)) == all[25..28])
    && Keys(Ocr) == all[31..34] && Keys(Translate) == all[34..37] && Keys(WarThunder) == all[37..40]
  }

  lemma KeyPlan() returns (all: seq<string>)
    ensures Planned(all)
  {
    all := AllKeys;
    AllKeysDistinct();
    FirstSpans();
    SecondSpans();
    FourthSpans();
    forall b
      ensures Keys(Ask(b)) == all[25..28]
    {
      ThirdSpans(b);
    }
  }

  /** The seven base commands, registered on an empty registry. */
  method RegisterBaseCommands(r: R.Registry, ghost all: seq<string>)
    modifies r
    requires r.commands == map[] && Planned(all)
    ensures BindsExactly(r.commands, BaseCommands) && KeysBelow(r.commands, all, 25)
  {
    ghost var cs := BaseCommands;
    ghost var i := 0;
    RegisterNext(r, Ping, cs, i, all, 0, 3);
    i := i + 1;
    RegisterNext(r, Avatar, cs, i, all, 3, 6);
    i := i + 1;
    RegisterNext(r, Config, cs, i, all, 6, 10);
    i := i + 1;
    RegisterNext(r, EmbedBuilder, cs, i, all, 10, 13);
    i := i + 1;
    RegisterNext(r, Activity, cs, i, all, 13, 17);
    i := i + 1;
    RegisterNext(r, Lockdown, cs, i, all, 17, 21);
    i := i + 1;
    RegisterNext(r, Purge, cs, i, all, 21, 25);
    assert cs[..i + 1] == cs;
  }

  /** The AI commands the present backends allow, registered after the base commands. */
  method RegisterAiCommands(r: R.Registry, hasVertex: bool, hasLegacy: bool, hasStudio: bool, ghost all: seq<string>)
    modifies r
    requires Planned(all) && BindsExactly(r.commands, BaseCommands) && KeysBelow(r.commands, all, 25)
    ensures BindsExactly(r.commands, BaseCommands + AiCommands(hasVertex, hasLegacy, hasStudio))
    ensures KeysBelow(r.commands, all, 31)
  {
    ghost var cs := BaseCommands + AiCommands(hasVertex, hasLegacy, hasStudio);
    assert cs[..7] == BaseCommands;
    ghost var i := 7;
    if hasVertex {
      RegisterNext(r, Ask(R.VertexBackend), cs, i, all, 25, 28);
      i := i + 1;
      if hasLegacy {
        RegisterNext(r, Imagine, cs, i, all, 28, 31);
        i := i + 1;
      }
    } else if hasLegacy {
      RegisterNext(r, Ask(R.LegacyBackend), cs, i, all, 25, 28);
      i := i + 1;
      RegisterNext(r, Imagine, cs, i, all, 28, 31);
      i := i + 1;
    } else if hasStudio {
      RegisterNext(r, Ask(R.StudioBackend), cs, i, all, 25, 28);
      i := i + 1;
    }
    assert cs[..i] == cs;
  }

  /** OCR and translation, registered when Gemini Studio is present. */
  method RegisterStudioCommands(r: R.Registry, hasStudio: bool, ghost before: seq<R.CommandInfo>, ghost all: seq<string>)
    modifies r
    requires Planned(all) && BindsExactly(r.commands, before) && KeysBelow(r.commands, all, 31)
    ensures BindsExactly(r.commands, before + StudioCommands(hasStudio))
    ensures KeysBelow(r.commands, all, 37)
  {
    ghost var cs := before + StudioCommands(hasStudio);
    assert cs[..|before|] == before;
    ghost var i := |before|;
    if hasStudio {
      RegisterNext(r, Ocr, cs, i, all, 31, 34);
      i := i + 1;
      RegisterNext(r, Translate, cs, i, all, 34, 37);
      i := i + 1;
    }
    assert cs[..i] == cs;
  }

  /**
   * The Register calls of initCommands on an empty registry: the seven base
   * commands, the AI commands the present backends allow, then War Thunder.
   */
  method RegisterCommands(r: R.Registry, hasVertex: bool, hasLegacy: bool, hasStudio: bool)
    modifies r
    requires r.commands == map[]
    ensures BindsExactly(r.commands, ExpectedCommands(hasVertex, hasLegacy, hasStudio))
  {
    ghost var all := KeyPlan();
    RegisterBaseCommands(r, all);
    RegisterAiCommands(r, hasVertex, hasLegacy, hasStudio, all);
    ghost var before := BaseCommands + AiCommands(hasVertex, hasLegacy, hasStudio);
    RegisterStudioCommands(r, hasStudio, before, all);
    ghost var cs := ExpectedCommands(hasVertex, hasLegacy, hasStudio);
    assert cs[..|cs| - 1] == before + StudioCommands(hasStudio);
    RegisterNext(r, WarThunder, cs, |cs| - 1, all, 37, 40);
    assert cs[..|cs|] == cs;
  }

  /** The seven base commands and War Thunder are bound under each of their keys whatever backends are up. */
  lemma BaseAlwaysBound(m: map<string, R.CommandInfo>, c: R.CommandInfo, k: string, hasVertex: bool, hasLegacy: bool, hasStudio: bool)
    requires BindsExactly(m, ExpectedCommands(hasVertex, hasLegacy, hasStudio))
    requires c in BaseCommands + [WarThunder] && k in Keys(c)
    ensures k in m && m[k] == c
  {
    BasePlanned(c, hasVertex, hasLegacy, hasStudio);
    BoundTo(m, ExpectedCommands(hasVertex, hasLegacy, hasStudio), c, k);
  }

  /** The base commands and War Thunder are planned whatever backends are up. */
  lemma BasePlanned(c: R.CommandInfo, hasVertex: bool, hasLegacy: bool, hasStudio: bool)
    requires c in BaseCommands + [WarThunder]
    ensures c in ExpectedCommands(hasVertex, hasLegacy, hasStudio)
  {
    var cs := ExpectedCommands(hasVertex, hasLegacy, hasStudio);
    var middle := AiCommands(hasVertex, hasLegacy, hasStudio) + StudioCommands(hasStudio);
    assert cs == BaseCommands + middle + [WarThunder];
    if c == WarThunder {
      assert cs[|cs| - 1] == c;
    } else {
      assert c in BaseCommands;
    }
  }

  /** Every planned command is a base command, War Thunder, an AI command or a Studio command. */
  lemma ExpectedMember(c: R.CommandInfo, hasVertex: bool, hasLegacy: bool, hasStudio: bool)
    requires c in ExpectedCommands(hasVertex, hasLegacy, hasStudio)
    ensures c in BaseCommands + [WarThunder] || c in AiCommands(hasVertex, hasLegacy, hasStudio) || c in StudioCommands(hasStudio)
  {
  }

  /** The keys of the optional commands are none of the keys of the base commands and War Thunder. */
  lemma OptionalKeysNotBase(c: R.CommandInfo, k: string)
    requires c in BaseCommands + [WarThunder] && k in Keys(c)
    ensures k != "ask" && k != "imagine"
  {
  }

  lemma StudioKeysNotBase(c: R.CommandInfo, k: string)
    requires c in BaseCommands + [WarThunder] && k in Keys(c)
    ensures k != "ocr" && k != "translate"
  {
  }

  /** The command bound under `k` in an exact binding of ExpectedCommands, with the facts about where it comes from. */
  lemma BoundOwner(m: map<string, R.CommandInfo>, k: string, hasVertex: bool, hasLegacy: bool, hasStudio: bool) returns (c: R.CommandInfo)
    requires BindsExactly(m, ExpectedCommands(hasVertex, hasLegacy, hasStudio)) && k in m
    requires k in ["ask", "imagine", "ocr", "translate"]
    ensures c == m[k] && k in Keys(c)
    ensures c in AiCommands(hasVertex, hasLegacy, hasStudio) || c in StudioCommands(hasStudio)
  {
    c := m[k];
    ExpectedMember(c, hasVertex, hasLegacy, hasStudio);
    if c in BaseCommands + [WarThunder] {
      OptionalKeysNotBase(c, k);
      StudioKeysNotBase(c, k);
    }
  }

  /** In an exact binding, each key of a registered command is bound to that command. */
  lemma BoundTo(m: map<string, R.CommandInfo>, done: seq<R.CommandInfo>, c: R.CommandInfo, k: string)
    requires BindsExactly(m, done) && c in done && k in Keys(c)
    ensures k in m && m[k] == c
  {
  }

  /** The optional commands are among the planned ones. */
  lemma OptionalPlanned(c: R.CommandInfo, hasVertex: bool, hasLegacy: bool, hasStudio: bool)
    requires c in AiCommands(hasVertex, hasLegacy, hasStudio) || c in StudioCommands(hasStudio)
    ensures c in ExpectedCommands(hasVertex, hasLegacy, hasStudio)
  {
    var before := BaseCommands + AiCommands(hasVertex, hasLegacy, hasStudio);
    assert ExpectedCommands(hasVertex, hasLegacy, hasStudio) == before + StudioCommands(hasStudio) + [WarThunder];
  }

  /** A key of a planned optional command is bound to that command. */
  lemma PlannedBound(m: map<string, R.CommandInfo>, c: R.CommandInfo, k: string, hasVertex: bool, hasLegacy: bool, hasStudio: bool)
    requires BindsExactly(m, ExpectedCommands(hasVertex, hasLegacy, hasStudio))
    requires c in AiCommands(hasVertex, hasLegacy, hasStudio) || c in StudioCommands(hasStudio)
    requires k in Keys(c)
    ensures k in m && m[k] == c
  {
    OptionalPlanned(c, hasVertex, hasLegacy, hasStudio);
    BoundTo(m, ExpectedCommands(hasVertex, hasLegacy, hasStudio), c, k);
  }

  /**
   * "ask" is bound exactly when some backend is up, to the command built on
   * Vertex Gemini if it is up, else on the legacy service, else on Studio.
   */
  lemma AskBinding(m: map<string, R.CommandInfo>, hasVertex: bool, hasLegacy: bool, hasStudio: bool)
    requires BindsExactly(m, ExpectedCommands(hasVertex, hasLegacy, hasStudio))
    ensures "ask" in m <==> hasVertex || hasLegacy || hasStudio
    ensures hasVertex ==> m["ask"] == Ask(R.VertexBackend)
    ensures !hasVertex && hasLegacy ==> m["ask"] == Ask(R.LegacyBackend)
    ensures !hasVertex && !hasLegacy && hasStudio ==> m["ask"] == Ask(R.StudioBackend)
  {
    var b := if hasVertex then R.VertexBackend else if hasLegacy then R.LegacyBackend else R.StudioBackend;
    if hasVertex || hasLegacy || hasStudio {
      assert Ask(b) in AiCommands(hasVertex, hasLegacy, hasStudio);
      assert "ask" in Keys(Ask(b));
      PlannedBound(m, Ask(b), "ask", hasVertex, hasLegacy, hasStudio);
    } else if "ask" in m {
      var c := BoundOwner(m, "ask", hasVertex, hasLegacy, hasStudio);
    }
  }

  /** "imagine" is bound exactly when the legacy service is up, to the image command. */
  lemma ImagineBinding(m: map<string, R.CommandInfo>, hasVertex: bool, hasLegacy: bool, hasStudio: bool)
    requires BindsExactly(m, ExpectedCommands(hasVertex, hasLegacy, hasStudio))
    ensures "imagine" in m <==> hasLegacy
    ensures hasLegacy ==> m["imagine"] == Imagine
  {
    if hasLegacy {
      assert Imagine in AiCommands(hasVertex, hasLegacy, hasStudio);
      assert "imagine" in Keys(Imagine);
      PlannedBound(m, Imagine, "imagine", hasVertex, hasLegacy, hasStudio);
    } else if "imagine" in m {
      var c := BoundOwner(m, "imagine", hasVertex, hasLegacy, hasStudio);
    }
  }

  /** "ocr" is bound exactly when Gemini Studio is up, to the OCR command. */
  lemma OcrBinding(m: map<string, R.CommandInfo>, hasVertex: bool, hasLegacy: bool, hasStudio: bool)
    requires BindsExactly(m, ExpectedCommands(hasVertex, hasLegacy, hasStudio))
    ensures "ocr" in m <==> hasStudio
    ensures hasStudio ==> m["ocr"] == Ocr
  {
    if hasStudio {
      assert Ocr in StudioCommands(hasStudio) && "ocr" in Keys(Ocr);
      PlannedBound(m, Ocr, "ocr", hasVertex, hasLegacy, hasStudio);
    } else if "ocr" in m {
      var c := BoundOwner(m, "ocr", hasVertex, hasLegacy, hasStudio);
    }
  }

  /** "translate" is bound exactly when Gemini Studio is up, to the translation command. */
  lemma TranslateBinding(m: map<string, R.CommandInfo>, hasVertex: bool, hasLegacy: bool, hasStudio: bool)
    requires BindsExactly(m, ExpectedCommands(hasVertex, hasLegacy, hasStudio))
    ensures "translate" in m <==> hasStudio
    ensures hasStudio ==> m["translate"] == Translate
  {
    if hasStudio {
      assert Translate in StudioCommands(hasStudio) && "translate" in Keys(Translate);
      PlannedBound(m, Translate, "translate", hasVertex, hasLegacy, hasStudio);
    } else if "translate" in m {
      var c := BoundOwner(m, "translate", hasVertex, hasLegacy, hasStudio);
    }
  }

  /** The backends NewContainer brings up, as presence flags. */
  datatype Backends = Backends(studio: bool, vertex: bool, legacy: bool)

  /**
   * The selection wired at start-up: Studio alone when it is enabled and
   * keyed; otherwise, with a project, Vertex Gemini and the legacy service,
   * each present when its client came up.
   */
  function SelectBackends(cfg: CloudConfig.GoogleCloudConfig, vertexInit: Outcome, legacyInit: Outcome): (b: Backends)
    ensures b.studio <==> cfg.UseStudioAPI && cfg.StudioAPIKey != ""
    ensures b.vertex <==> !b.studio && cfg.ProjectID != "" && vertexInit.Pass?
    ensures b.legacy <==> !b.studio && cfg.ProjectID != "" && legacyInit.Pass?
  {
    if cfg.UseStudioAPI && cfg.StudioAPIKey != "" then Backends(true, false, false)
    else if cfg.ProjectID != "" then Backends(false, vertexInit.Pass?, legacyInit.Pass?)
    else Backends(false, false, false)
  }

  /** Studio never runs beside the Vertex backends in the container. */
  lemma {:induction false} StudioExcludesVertex(cfg: CloudConfig.GoogleCloudConfig, vertexInit: Outcome, legacyInit: Outcome)
    ensures var b := SelectBackends(cfg, vertexInit, legacyInit);
            b.studio ==> !b.vertex && !b.legacy
  {
  }

  /**
   * With Studio enabled and a project set, the factory builds Studio and
   * Vertex AI alike, while the container brings up Studio only.
   */
  lemma ContainerDiffersFromFactory(vertexInit: Outcome, legacyInit: Outcome)
    ensures var cfg := CloudConfig.GoogleCloudConfig("p", "us-central1", "", "", "", true, "k");
            AiFactory.ShouldUseGeminiStudio(cfg) && AiFactory.ShouldUseVertexAI(cfg)
            && SelectBackends(cfg, vertexInit, legacyInit) == Backends(true, false, false)
  {
  }

  /** The resources Cleanup closes, in its order. */
  datatype Resource = Session | Database | AIService | VertexGemini

  /** The position of a resource in Cleanup's order. */
  function Rank(r: Resource): nat
  {
    match r
    case Session => 0
    case Database => 1
    case AIService => 2
    case VertexGemini => 3
  }

  class Container {
    const config: CloudConfig.GoogleCloudConfig
    var hasSession: bool
    var hasDB: bool
    var aiService: Option<LS.Service>
    var geminiStudio: Option<GS.Service>
    var vertexGemini: Option<VG.Service>
    var registry: R.Registry?

    constructor (cfg: CloudConfig.GoogleCloudConfig)
      ensures config == cfg && !hasSession && !hasDB
      ensures aiService.None? && geminiStudio.None? && vertexGemini.None? && registry == null
    {
      config := cfg;
      hasSession := false;
      hasDB := false;
      aiService := None;
      geminiStudio := None;
      vertexGemini := None;
      registry := null;
    }

    /** initDatabase: the connection and migration outcome decides; the database is kept on success. */
    method InitDatabase(dbInit: Outcome) returns (err: Option<string>)
      modifies this
      ensures err.Some? <==> dbInit.Fail?
      ensures dbInit.Fail? ==> err.value == dbInit.error
      ensures hasDB == (dbInit.Pass? || old(hasDB)) && hasSession == old(hasSession)
      ensures aiService == old(aiService) && geminiStudio == old(geminiStudio) && vertexGemini == old(vertexGemini)
      ensures registry == old(registry)
    {
      if dbInit.Fail? {
        return Some(dbInit.error);
      }
      hasDB := true;
      return None;
    }

    /** initDiscordSession: the session is kept when it could be created. */
    method InitDiscordSession(sessionInit: Outcome) returns (err: Option<string>)
      modifies this
      ensures err.Some? <==> sessionInit.Fail?
      ensures sessionInit.Fail? ==> err.value == sessionInit.error
      ensures hasSession == (sessionInit.Pass? || old(hasSession)) && hasDB == old(hasDB)
      ensures aiService == old(aiService) && geminiStudio == old(geminiStudio) && vertexGemini == old(vertexGemini)
      ensures registry == old(registry)
    {
      if sessionInit.Fail? {
        return Some(sessionInit.error);
      }
      hasSession := true;
      return None;
    }

    /** initGeminiStudio: never fails. */
    method InitGeminiStudio()
      modifies this
      ensures geminiStudio == Some(GS.NewGeminiStudioService(config.StudioAPIKey, config.GeminiModel))
      ensures aiService == old(aiService) && vertexGemini == old(vertexGemini) && registry == old(registry)
      ensures hasSession == old(hasSession) && hasDB == old(hasDB)
    {
      geminiStudio := Some(GS.NewGeminiStudioService(config.StudioAPIKey, config.GeminiModel));
    }

    /** initVertexGemini: keeps the service only when the client came up. */
    method InitVertexGemini(clientInit: Outcome) returns (err: Option<string>)
      modifies this
      ensures err.Some? <==> clientInit.Fail?
      ensures vertexGemini == (if clientInit.Pass? then Some(VG.NewVertexGeminiService(config, clientInit).value) else old(vertexGemini))
      ensures aiService == old(aiService) && geminiStudio == old(geminiStudio) && registry == old(registry)
      ensures hasSession == old(hasSession) && hasDB == old(hasDB)
    {
      var service := VG.NewVertexGeminiService(config, clientInit);
      if service.Err? {
        return Some(service.error);
      }
      vertexGemini := Some(service.value);
      return None;
    }

    /** initAIService: keeps the legacy service only when the client came up. */
    method InitAIService(clientInit: Outcome) returns (err: Option<string>)
      modifies this
      ensures err.Some? <==> clientInit.Fail?
      ensures aiService == (if clientInit.Pass? then Some(LS.NewService(config, clientInit).value) else old(aiService))
      ensures vertexGemini == old(vertexGemini) && geminiStudio == old(geminiStudio) && registry == old(registry)
      ensures hasSession == old(hasSession) && hasDB == old(hasDB)
    {
      var service := LS.NewService(config, clientInit);
      if service.Err? {
        return Some(service.error);
      }
      aiService := Some(service.value);
      return None;
    }

    /** initCommands: a fresh registry filled by RegisterCommands for the backends that are up. */
    method InitCommands()
      modifies this
      ensures fresh(registry)
      ensures BindsExactly(registry.commands, ExpectedCommands(vertexGemini.Some?, aiService.Some?, geminiStudio.Some?))
      ensures aiService == old(aiService) && vertexGemini == old(vertexGemini) && geminiStudio == old(geminiStudio)
      ensures hasSession == old(hasSession) && hasDB == old(hasDB)
    {
      var r := new R.Registry();
      RegisterCommands(r, vertexGemini.Some?, aiService.Some?, geminiStudio.Some?);
      registry := r;
    }

    /**
     * Cleanup: closes the session, the database, the legacy service and the
     * Vertex Gemini service, each only when present and in that order, and
     * succeeds whatever the closes report.
     */
    method Cleanup(closeResults: Resource -> Outcome) returns (closed: seq<Resource>, err: Option<string>)
      ensures err.None?
      ensures (Session in closed <==> hasSession) && (Database in closed <==> hasDB)
      ensures (AIService in closed <==> aiService.Some?) && (VertexGemini in closed <==> vertexGemini.Some?)
      ensures forall i, j :: 0 <= i < j < |closed| ==> Rank(closed[i]) < Rank(closed[j])
    {
      closed := [];
      if hasSession {
        var _ := closeResults(Session);
        closed := closed + [Session];
      }
      if hasDB {
        var _ := closeResults(Database);
        closed := closed + [Database];
      }
      if aiService.Some? {
        var _ := closeResults(AIService);
        closed := closed + [AIService];
      }
      if vertexGemini.Some? {
        var _ := closeResults(VertexGemini);
        closed := closed + [VertexGemini];
      }
      err := None;
    }
  }

  /**
   * NewContainer: database, then session (either failure is returned),
   * then the backends SelectBackends picks (their failures are only
   * reported), then the commands.
   */
  method NewContainer(cfg: CloudConfig.GoogleCloudConfig, dbInit: Outcome, sessionInit: Outcome, vertexInit: Outcome, legacyInit: Outcome)
    returns (c: Container?, err: Option<string>)
    ensures dbInit.Fail? ==> c == null && err == Some(dbInit.error)
    ensures dbInit.Pass? && sessionInit.Fail? ==> c == null && err == Some(sessionInit.error)
    ensures dbInit.Pass? && sessionInit.Pass? ==> c != null && err.None? && fresh(c) && fresh(c.registry)
    ensures c != null ==>
              var b := SelectBackends(cfg, vertexInit, legacyInit);
              c.config == cfg && c.hasDB && c.hasSession
              && c.geminiStudio.Some? == b.studio && c.vertexGemini.Some? == b.vertex && c.aiService.Some? == b.legacy
              && c.registry != null
              && BindsExactly(c.registry.commands, ExpectedCommands(b.vertex, b.legacy, b.studio))
  {
    var container := new Container(cfg);
    var e := container.InitDatabase(dbInit);
    if e.Some? {
      return null, e;
    }
    e := container.InitDiscordSession(sessionInit);
    if e.Some? {
      return null, e;
    }
    if cfg.UseStudioAPI && cfg.StudioAPIKey != "" {
      container.InitGeminiStudio();
    } else if cfg.ProjectID != "" {
      var _ := container.InitVertexGemini(vertexInit);
      var _ := container.InitAIService(legacyInit);
    }
    container.InitCommands();
    return container, None;
  }
}
