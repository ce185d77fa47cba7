/**
 * The command context: the interaction a slash command came from and its
 * options collected into a map, with typed accessors that fall back to a
 * zero value, plus the shape of the responses a command sends.
 */
module CommandContext {
  import opened Wrappers
  import Embed

  datatype User = User(id: string, username: string, globalName: string, discriminator: string, bot: bool, avatar: string, banner: string)
  datatype Member = Member(user: Option<User>, nick: string, roles: seq<string>)

  /**
   * The dynamic value stored for an option. Decoded JSON gives strings
   * (a USER option's value is the user's ID string), whole float64 numbers
   * and booleans; `UserArg` is a `*discordgo.User`, the value GetUserArg's
   * type assertion accepts, which decoding does not produce.
   */
  datatype ArgValue = StringArg(str: string) | NumberArg(number: int) | BoolArg(flag: bool) | UserArg(user: User) | OtherArg

  datatype CommandOption = CommandOption(name: string, value: ArgValue)

  datatype InteractionType = Ping | ApplicationCommand | MessageComponent | ApplicationCommandAutocomplete | ModalSubmit

  datatype Interaction = Interaction(
    kind: InteractionType, appID: string, guildID: string, channelID: string,
    member: Option<Member>, user: Option<User>, commandName: string, options: seq<CommandOption>)

  /** The options as a map; a later option with the same name overwrites an earlier one. */
  function OptionsMap(options: seq<CommandOption>): map<string, ArgValue>
  {
    if |options| == 0 then map[]
    else OptionsMap(options[..|options| - 1])[options[|options| - 1].name := options[|options| - 1].value]
  }

  /** The map has one key per option name. */
  lemma {:induction false} OptionsMapKeys(options: seq<CommandOption>)
    ensures OptionsMap(options).Keys == set o | o in options :: o.name
    decreases |options|
  {
    if |options| > 0 {
      var init := options[..|options| - 1];
      OptionsMapKeys(init);
      assert options == init + [options[|options| - 1]];
      assert (set o | o in options :: o.name) == (set o | o in init :: o.name) + {options[|options| - 1].name};
    }
  }

  /** Each key holds the value of the last option with that name. */
  lemma {:induction false} OptionsMapValue(options: seq<CommandOption>, i: int)
    requires 0 <= i < |options|
    requires forall j :: i < j < |options| ==> options[j].name != options[i].name
    ensures options[i].name in OptionsMap(options) && OptionsMap(options)[options[i].name] == options[i].value
    decreases |options|
  {
    if i < |options| - 1 {
      OptionsMapValue(options[..|options| - 1], i);
    }
  }

  /** With distinct names there is exactly one entry per option. */
  lemma {:induction false} OptionsMapSize(options: seq<CommandOption>)
    requires forall i, j :: 0 <= i < j < |options| ==> options[i].name != options[j].name
    ensures |OptionsMap(options)| == |options|
    decreases |options|
  {
    if |options| > 0 {
      var init := options[..|options| - 1];
      var last := options[|options| - 1];
      OptionsMapSize(init);
      OptionsMapKeys(init);
      assert forall k :: 0 <= k < |init| ==> init[k].name != last.name;
      assert last.name !in OptionsMap(init);
    }
  }

  /** Options as the gateway's JSON decodes them: no value is a user object. */
  predicate Decoded(options: seq<CommandOption>)
  {
    forall i :: 0 <= i < |options| ==> !options[i].value.UserArg?
  }

  /** Collecting decoded options never stores a user object. */
  lemma {:induction false} DecodedOptionsHoldNoUser(options: seq<CommandOption>, name: string)
    requires Decoded(options) && name in OptionsMap(options)
    ensures !OptionsMap(options)[name].UserArg?
    decreases |options|
  {
    var init := options[..|options| - 1];
    if options[|options| - 1].name != name {
      assert Decoded(init) by {
        assert forall i :: 0 <= i < |init| ==> init[i] == options[i];
      }
      DecodedOptionsHoldNoUser(init, name);
    }
  }

  const EphemeralFlag: int := 64

  datatype ResponseKind = ChannelMessageWithSource | DeferredChannelMessageWithSource
  datatype Response = Response(kind: ResponseKind, content: string, embeds: seq<Embed.EmbedValue>, flags: int)

  class Context {
    const interaction: Interaction
    var args: map<string, ArgValue>

    /** NewContext: one entry per top-level option, keyed by its name. */
    constructor (i: Interaction)
      ensures interaction == i
      ensures args == OptionsMap(i.options)
    {
      var collected := map[];
      var k := 0;
      while k < |i.options|
        invariant 0 <= k <= |i.options|
        invariant collected == OptionsMap(i.options[..k])
      {
        assert i.options[..k + 1][..k] == i.options[..k];
        collected := collected[i.options[k].name := i.options[k].value];
        k := k + 1;
      }
      assert i.options[..k] == i.options;
      interaction := i;
      args := collected;
    }

    /** GetUser: the member's user inside a guild, the interaction's user otherwise. */
    function GetUser(): (u: Option<User>)
      ensures interaction.member.Some? ==> u == interaction.member.value.user
      ensures interaction.member.None? ==> u == interaction.user
    {
      if interaction.member.Some? then interaction.member.value.user else interaction.user
    }

    function GetGuild(): string
    {
      interaction.guildID
    }

    function GetChannel(): string
    {
      interaction.channelID
    }

    function GetArg(name: string): (r: Option<ArgValue>)
      reads this
      ensures r.Some? <==> name in args
      ensures r.Some? ==> r.value == args[name]
    {
      if name in args then Some(args[name]) else None
    }

    function GetStringArg(name: string): (r: string)
      reads this
      ensures name in args && args[name].StringArg? ==> r == args[name].str
      ensures !(name in args && args[name].StringArg?) ==> r == ""
    {
      if name in args && args[name].StringArg? then args[name].str else ""
    }

    function GetUserArg(name: string): (r: Option<User>)
      reads this
      ensures r.Some? <==> name in args && args[name].UserArg?
      ensures r.Some? ==> r.value == args[name].user
    {
      if name in args && args[name].UserArg? then Some(args[name].user) else None
    }

    /**
     * The user a USER option names: its ID string looked up among the
     * interaction's resolved users (`resolved`, by ID).
     */
    function ResolvedUserArg(name: string, resolved: map<string, User>): (r: Option<User>)
      reads this
      ensures r.Some? <==> name in args && args[name].StringArg? && args[name].str in resolved
      ensures r.Some? ==> r.value == resolved[args[name].str]
    {
      if name in args && args[name].StringArg? && args[name].str in resolved then Some(resolved[args[name].str]) else None
    }

    function GetIntArg(name: string): (r: int)
      reads this
      ensures name in args && args[name].NumberArg? ==> r == args[name].number
      ensures !(name in args && args[name].NumberArg?) ==> r == 0
    {
      if name in args && args[name].NumberArg? then args[name].number else 0
    }

    function GetBoolArg(name: string): (r: bool)
      reads this
      ensures r <==> name in args && args[name] == BoolArg(true)
    {
      if name in args && args[name].BoolArg? then args[name].flag else false
    }

    /** The response Reply sends. */
    function Reply(content: string): (r: Response)
      ensures r.kind == ChannelMessageWithSource && r.content == content && r.flags == 0
    {
      Response(ChannelMessageWithSource, content, [], 0)
    }

    function ReplyEphemeral(content: string): (r: Response)
      ensures r.kind == ChannelMessageWithSource && r.content == content && r.flags == EphemeralFlag
    {
      Response(ChannelMessageWithSource, content, [], EphemeralFlag)
    }

    function ReplyEmbed(e: Embed.EmbedValue, ephemeral: bool): (r: Response)
      ensures r.embeds == [e] && r.content == ""
      ensures r.flags == (if ephemeral then EphemeralFlag else 0)
    {
      Response(ChannelMessageWithSource, "", [e], if ephemeral then EphemeralFlag else 0)
    }

    /** DeferReply: a deferred response that is ephemeral exactly when asked. */
    function DeferReply(ephemeral: bool): (r: Response)
      ensures r.kind == DeferredChannelMessageWithSource
      ensures r.flags == EphemeralFlag <==> ephemeral
      ensures r.flags == 0 <==> !ephemeral
    {
      Response(DeferredChannelMessageWithSource, "", [], if ephemeral then EphemeralFlag else 0)
    }
  }

  /** No context built from decoded options yields a user through GetUserArg. */
  lemma GetUserArgNeverSome(c: Context, name: string)
    requires c.args == OptionsMap(c.interaction.options) && Decoded(c.interaction.options)
    ensures c.GetUserArg(name).None?
  {
    if name in c.args {
      DecodedOptionsHoldNoUser(c.interaction.options, name);
    }
  }
}
