/**
 * The command registry: one map from command names and aliases to the
 * command, filled by Register, read by Get and GetAll, and consulted when
 * a slash-command interaction arrives.
 */
module Registry {
  import opened Wrappers
  import opened Permissions
  import CC = CommandContext

  /** The backend a command was constructed with, for the AI commands. */
  datatype Backend = NoBackend | StudioBackend | VertexBackend | LegacyBackend

  /** What the registry sees of a command. */
  datatype CommandInfo = CommandInfo(name: string, aliases: seq<string>, permission: bv64, backend: Backend)

  /** Alias `i` clashes when it is already a key, is the command's own name, or repeats an earlier alias. */
  predicate Clashes(m: map<string, CommandInfo>, cmd: CommandInfo, i: int)
    requires 0 <= i < |cmd.aliases|
  {
    cmd.aliases[i] in m || cmd.aliases[i] == cmd.name || cmd.aliases[i] in cmd.aliases[..i]
  }

  /** The index of the first clashing alias at or after `from`, or the number of aliases when none clashes. */
  function FirstClashFrom(m: map<string, CommandInfo>, cmd: CommandInfo, from: nat): (k: nat)
    requires from <= |cmd.aliases|
    ensures from <= k <= |cmd.aliases|
    ensures k < |cmd.aliases| ==> Clashes(m, cmd, k)
    ensures forall j :: from <= j < k ==> !Clashes(m, cmd, j)
    decreases |cmd.aliases| - from
  {
    if from == |cmd.aliases| then from
    else if Clashes(m, cmd, from) then from
    else FirstClashFrom(m, cmd, from + 1)
  }

  function FirstClash(m: map<string, CommandInfo>, cmd: CommandInfo): (k: nat)
    ensures k <= |cmd.aliases|
    ensures k < |cmd.aliases| ==> Clashes(m, cmd, k)
    ensures forall j :: 0 <= j < k ==> !Clashes(m, cmd, j)
  {
    FirstClashFrom(m, cmd, 0)
  }

  /** The keys `names` all bound to `cmd`. */
  function BindAll(names: seq<string>, cmd: CommandInfo): map<string, CommandInfo>
  {
    map a | a in names :: cmd
  }

  /** Binding one more alias extends the bound prefix of the aliases by one. */
  lemma BindOneMore(m: map<string, CommandInfo>, cmd: CommandInfo, i: nat)
    requires i < |cmd.aliases|
    ensures m + BindAll(cmd.aliases[..i + 1], cmd) == (m + BindAll(cmd.aliases[..i], cmd))[cmd.aliases[i] := cmd]
  {
    assert cmd.aliases[..i + 1] == cmd.aliases[..i] + [cmd.aliases[i]];
  }

  /** With every alias bound, the name and each alias lead to the command. */
  lemma EveryAliasBound(before: map<string, CommandInfo>, cmd: CommandInfo)
    ensures var c := before[cmd.name := cmd] + BindAll(cmd.aliases, cmd);
            cmd.name in c && c[cmd.name] == cmd && forall a :: a in cmd.aliases ==> a in c && c[a] == cmd
  {
  }

  class Registry {
    var commands: map<string, CommandInfo>

    constructor ()
      ensures commands == map[]
    {
      commands := map[];
    }

    /**
     * Register: refuses a taken name without touching the map; otherwise
     * binds the name, then each alias in order, and stops with an error at
     * the first alias already bound, keeping what it bound before it.
     */
    method Register(cmd: CommandInfo) returns (err: Option<string>)
      modifies this
      ensures cmd.name in old(commands) ==> err == Some("command " + cmd.name + " already registered") && commands == old(commands)
      ensures cmd.name !in old(commands) ==>
                var k := FirstClash(old(commands), cmd);
                commands == old(commands)[cmd.name := cmd] + BindAll(cmd.aliases[..k], cmd)
                && (err.Some? <==> k < |cmd.aliases|)
                && (err.Some? ==> err.value == "alias " + cmd.aliases[k] + " already registered")
      ensures err.None? ==> cmd.name in commands && commands[cmd.name] == cmd
                            && forall a :: a in cmd.aliases ==> a in commands && commands[a] == cmd
    {
      if cmd.name in commands {
        return Some("command " + cmd.name + " already registered");
      }
      ghost var k := FirstClash(commands, cmd);
      ghost var before := commands;
      commands := commands[cmd.name := cmd];
      var i := 0;
      while i < |cmd.aliases|
        invariant 0 <= i <= k
        invariant commands == before[cmd.name := cmd] + BindAll(cmd.aliases[..i], cmd)
      {
        var alias := cmd.aliases[i];
        if alias in commands {
          assert Clashes(before, cmd, i) by {
            if alias !in before && alias != cmd.name {
              assert alias in cmd.aliases[..i];
            }
          }
          return Some("alias " + alias + " already registered");
        }
        assert !Clashes(before, cmd, i);
        BindOneMore(before[cmd.name := cmd], cmd, i);
        commands := commands[alias := cmd];
        i := i + 1;
      }
      assert cmd.aliases[..i] == cmd.aliases;
      EveryAliasBound(before, cmd);
      return None;
    }

    /** Get: the command bound to a name or alias. */
    function Get(name: string): (r: Option<CommandInfo>)
      reads this
      ensures r.Some? <==> name in commands
      ensures r.Some? ==> r.value == commands[name]
    {
      if name in commands then Some(commands[name]) else None
    }

    /** The distinct command names bound in the map. */
    ghost function Names(): set<string>
      reads this
    {
      set k | k in commands :: commands[k].name
    }

    /**
     * GetAll: walks the map in an arbitrary order and keeps the first
     * command met for each name, so each name appears exactly once.
     */
    method GetAll() returns (cmds: seq<CommandInfo>)
      ensures forall c :: c in cmds ==> c in commands.Values
      ensures forall i, j :: 0 <= i < j < |cmds| ==> cmds[i].name != cmds[j].name
      ensures (set c | c in cmds :: c.name) == Names()
    {
      var seen: set<string> := {};
      cmds := [];
      var remaining := commands.Keys;
      while remaining != {}
        invariant remaining <= commands.Keys
        invariant forall c :: c in cmds ==> c in commands.Values
        invariant forall i, j :: 0 <= i < j < |cmds| ==> cmds[i].name != cmds[j].name
        invariant seen == set c | c in cmds :: c.name
        invariant seen == set k | k in commands.Keys - remaining :: commands[k].name
        decreases |remaining|
      {
        var key :| key in remaining;
        var cmd := commands[key];
        if cmd.name !in seen {
          seen := seen + {cmd.name};
          cmds := cmds + [cmd];
        }
        remaining := remaining - {key};
      }
    }
  }

  /** getDefaultPermissions: no restriction for 0, the command's permission otherwise. */
  function DefaultPermissions(cmd: CommandInfo): (r: Option<bv64>)
    ensures r.None? <==> cmd.permission == 0
    ensures r.Some? ==> r.value == cmd.permission
  {
    if cmd.permission == 0 then None else Some(cmd.permission)
  }

  /** getDMPermission: guild-only commands by name, or by a guild-management permission. */
  function DMPermission(cmd: CommandInfo): (r: bool)
    ensures !r <==> cmd.name in {"config", "lockdown", "purge", "activity", "brackets"}
                     || cmd.permission in {ManageGuild, ManageChannels, ManageMessages}
  {
    match cmd.name
    case "config" => false
    case "lockdown" => false
    case "purge" => false
    case "activity" => false
    case "brackets" => false
    case _ =>
      !(cmd.permission == ManageGuild || cmd.permission == ManageChannels || cmd.permission == ManageMessages)
  }

  /** The row a command run adds to the command log. */
  datatype CommandLog = CommandLog(guildID: string, userID: string, commandName: string, success: bool, errorMessage: string)

  /** How a failed command tells the user: editing the deferred reply, or a fresh reply. */
  datatype ErrorReply = EditReply(content: string) | NewReply(content: string)

  datatype Dispatch =
    | NotACommand
    | UnknownCommand(name: string)
    | Executed(cmd: CommandInfo, errorReply: Option<ErrorReply>, log: Option<CommandLog>)

  const ErrorPrefix := "An error occurred while executing the command: "

  /**
   * handleInteraction: ignores anything but a slash command and unknown
   * names; otherwise runs the command (its result is an input), reports an
   * error to the user, and logs the run when a user is known.
   */
  method HandleInteraction(r: Registry, i: CC.Interaction, execResult: Outcome) returns (d: Dispatch)
    ensures i.kind != CC.ApplicationCommand ==> d == NotACommand
    ensures i.kind == CC.ApplicationCommand && r.Get(i.commandName).None? ==> d == UnknownCommand(i.commandName)
    ensures i.kind == CC.ApplicationCommand && r.Get(i.commandName).Some? ==>
              d.Executed? && d.cmd == r.Get(i.commandName).value
              && (d.errorReply.Some? <==> execResult.Fail?)
              && (execResult.Fail? ==>
                    d.errorReply.value.content == ErrorPrefix + execResult.error && (d.errorReply.value.EditReply? <==> i.appID != ""))
              && (d.log.Some? <==> (if i.member.Some? then i.member.value.user else i.user).Some?)
              && (d.log.Some? ==>
                    d.log.value.success == execResult.Pass? && d.log.value.commandName == i.commandName && d.log.value.guildID == i.guildID
                    && d.log.value.userID == (if i.member.Some? then i.member.value.user else i.user).value.id
                    && d.log.value.errorMessage == (if execResult.Fail? then execResult.error else ""))
  {
    if i.kind != CC.ApplicationCommand {
      return NotACommand;
    }
    var cmd := r.Get(i.commandName);
    if cmd.None? {
      return UnknownCommand(i.commandName);
    }
    var ctx := new CC.Context(i);
    var errorReply: Option<ErrorReply> := None;
    if execResult.Fail? {
      var message := ErrorPrefix + execResult.error;
      errorReply := if i.appID != "" then Some(EditReply(message)) else Some(NewReply(message));
    }
    var log: Option<CommandLog> := None;
    var user := ctx.GetUser();
    if user.Some? {
      var errorMessage := if execResult.Fail? then execResult.error else "";
      log := Some(CommandLog(i.guildID, user.value.id, i.commandName, execResult.Pass?, errorMessage));
    }
    return Executed(cmd.value, errorReply, log);
  }
}
