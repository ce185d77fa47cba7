/**
 * The /lockdown command: the choice of action with its defaults, the
 * permission check, the @everyone permission arithmetic of freeze and
 * unfreeze, the choice of target channels, and the tally of a lock or
 * unlock run. Discord lookups and writes are inputs: a lookup is a
 * `Result`, and whether a write succeeds is a function of the channel ID.
 */
module Lockdown {
  import opened Wrappers
  import opened GoStrings
  import P = Permissions

  const DefaultTarget := "current"
  const DefaultReason := "管理者による緊急対応"
  const InvalidAction := "❌ 不正なアクションです"

  /** What Execute goes on to do once the arguments are read. */
  datatype Plan =
    | Lock(target: string, reason: string, duration: int)
    | Unlock(target: string, reason: string)
    | Freeze(reason: string, duration: int)
    | Unfreeze(reason: string)
    | Rejected(reply: string)

  /**
   * Execute after the permission check: an empty target becomes "current",
   * an empty reason the fixed text, and an action other than the four is
   * answered with an error.
   */
  function PlanOf(action: string, target: string, reason: string, duration: int): (p: Plan)
    ensures p.Rejected? <==> action != "lock" && action != "unlock" && action != "freeze" && action != "unfreeze"
    ensures p.Rejected? ==> p.reply == InvalidAction
    ensures (p.Lock? || p.Unlock?) ==> p.target == (if target == "" then DefaultTarget else target)
    ensures !p.Rejected? ==> p.reason == (if reason == "" then DefaultReason else reason) && p.reason != ""
    ensures (p.Lock? || p.Freeze?) ==> p.duration == duration
  {
    var t := if target == "" then DefaultTarget else target;
    var why := if reason == "" then DefaultReason else reason;
    match action
    case "lock" => Lock(t, why, duration)
    case "unlock" => Unlock(t, why)
    case "freeze" => Freeze(why, duration)
    case "unfreeze" => Unfreeze(why)
    case _ => Rejected(InvalidAction)
  }

  /** hasPermission: the owner, or a member whose resolvable role has Manage Channels or Administrator. */
  method HasPermission(ownerID: Option<string>, memberID: string, roles: seq<string>, resolved: map<string, bv64>) returns (ok: bool)
    ensures ok <==> ownerID == Some(memberID) || exists i :: 0 <= i < |roles| && P.RoleGrants(roles, resolved, P.ManageChannels, i)
  {
    ok := P.MemberHasRoleBit(ownerID, memberID, roles, resolved, P.ManageChannels);
  }

  // ---- freeze and unfreeze ----

  /** The two bits a freeze takes from @everyone. */
  const FrozenBits: bv64 := P.SendMessages | P.AddReactions

  /** executeFreeze's new permissions: Send Messages and Add Reactions cleared (Go's `&^=`). */
  function FreezePermissions(perms: bv64): (r: bv64)
    ensures !P.Has(r, P.SendMessages) && !P.Has(r, P.AddReactions)
    ensures r & !FrozenBits == perms & !FrozenBits
  {
    perms & !P.SendMessages & !P.AddReactions
  }

  /** executeUnfreeze's new permissions: Send Messages and Add Reactions set. */
  function UnfreezePermissions(perms: bv64): (r: bv64)
    ensures P.Has(r, P.SendMessages) && P.Has(r, P.AddReactions)
    ensures r & !FrozenBits == perms & !FrozenBits
  {
    perms | P.SendMessages | P.AddReactions
  }

  /** Unfreezing a frozen role gives back its permissions exactly when it held both bits before. */
  lemma UnfreezeRestores(perms: bv64)
    ensures UnfreezePermissions(FreezePermissions(perms)) == perms
            <==> P.Has(perms, P.SendMessages) && P.Has(perms, P.AddReactions)
  {
    var r := UnfreezePermissions(FreezePermissions(perms));
    assert r == perms | FrozenBits;
  }

  datatype Role = Role(id: string, name: string, permissions: bv64)

  const Everyone := "@everyone"

  /** findEveryoneRole: the position of the first role named "@everyone", if any. */
  function FindEveryoneRole(roles: seq<Role>): (r: Option<nat>)
    ensures r.Some? ==> r.value < |roles| && roles[r.value].name == Everyone
                        && forall j :: 0 <= j < r.value ==> roles[j].name != Everyone
    ensures r.None? <==> forall j :: 0 <= j < |roles| ==> roles[j].name != Everyone
  {
    if |roles| == 0 then None
    else if roles[0].name == Everyone then Some(0)
    else match FindEveryoneRole(roles[1..])
         case None => None
         case Some(k) => Some(k + 1)
  }

  /** The edit executeFreeze or executeUnfreeze asks for: a role and its new permissions. */
  datatype RoleEdit = RoleEdit(roleID: string, permissions: bv64)

  /**
   * executeFreeze (or executeUnfreeze): a failed guild lookup and a guild
   * without @everyone end with an error reply; otherwise the @everyone role
   * gets its new permissions, unless the edit fails.
   */
  function ChangeEveryone(guildRoles: Result<seq<Role>>, freeze: bool, edit: Outcome): (r: Result<RoleEdit>)
    ensures guildRoles.Err? ==> r == Err("❌ サーバー情報の取得に失敗しました")
    ensures guildRoles.Ok? && FindEveryoneRole(guildRoles.value).None? ==> r == Err("❌ @everyone ロールが見つかりません")
    ensures r.Ok? <==> guildRoles.Ok? && FindEveryoneRole(guildRoles.value).Some? && edit.Pass?
    ensures r.Ok? ==> var role := guildRoles.value[FindEveryoneRole(guildRoles.value).value];
                      r.value.roleID == role.id
                      && r.value.permissions == if freeze then FreezePermissions(role.permissions) else UnfreezePermissions(role.permissions)
  {
    if guildRoles.Err? then Err("❌ サーバー情報の取得に失敗しました")
    else match FindEveryoneRole(guildRoles.value)
      case None => Err("❌ @everyone ロールが見つかりません")
      case Some(k) =>
        var role := guildRoles.value[k];
        var perms := if freeze then FreezePermissions(role.permissions) else UnfreezePermissions(role.permissions);
        if edit.Fail? then
          Err((if freeze then "❌ サーバー凍結に失敗: " else "❌ サーバー凍結解除に失敗: ") + edit.error)
        else Ok(RoleEdit(role.id, perms))
  }

  // ---- target channels ----

  /** Discord's channel type for a guild text channel. */
  const GuildText := 0

  datatype Channel = Channel(id: string, name: string, parentID: string, channelType: int)

  /** The text channels among `chs` (under `parent` when one is given), in their order. */
  function TextChannelsUnder(chs: seq<Channel>, parent: Option<string>): (r: seq<Channel>)
    ensures |r| <= |chs|
  {
    if |chs| == 0 then []
    else
      var last := chs[|chs| - 1];
      TextChannelsUnder(chs[..|chs| - 1], parent)
      + (if last.channelType == GuildText && (parent.Some? ==> last.parentID == parent.value) then [last] else [])
  }

  /** A channel is a target exactly when it is a text channel of the guild (under the parent, if one is given). */
  lemma {:induction false} TextChannelsUnderIff(chs: seq<Channel>, parent: Option<string>, c: Channel)
    ensures c in TextChannelsUnder(chs, parent) <==>
              c in chs && c.channelType == GuildText && (parent.Some? ==> c.parentID == parent.value)
    decreases |chs|
  {
    if |chs| > 0 {
      TextChannelsUnderIff(chs[..|chs| - 1], parent, c);
      assert chs == chs[..|chs| - 1] + [chs[|chs| - 1]];
    }
  }

  /** The filtering loop of getTargetChannels. */
  method FilterTextChannels(chs: seq<Channel>, parent: Option<string>) returns (r: seq<Channel>)
    ensures r == TextChannelsUnder(chs, parent)
  {
    r := [];
    for k := 0 to |chs|
      invariant r == TextChannelsUnder(chs[..k], parent)
    {
      assert chs[..k + 1][..k] == chs[..k];
      var ch := chs[k];
      if ch.channelType == GuildText && (parent.Some? ==> ch.parentID == parent.value) {
        r := r + [ch];
      }
    }
    assert chs[..|chs|] == chs;
  }

  /**
   * getTargetChannels: "current" is the current channel whatever its type,
   * "category" the text channels sharing its parent, "all" every text
   * channel; a failed lookup passes its error on, and any other target is
   * an error.
   */
  method TargetChannels(target: string, current: Result<Channel>, guildChannels: Result<seq<Channel>>) returns (r: Result<seq<Channel>>)
    ensures target == "current" ==> r == if current.Ok? then Ok([current.value]) else Err(current.error)
    ensures target == "category" ==> r == if current.Err? then Err(current.error)
                                          else if guildChannels.Err? then Err(guildChannels.error)
                                          else Ok(TextChannelsUnder(guildChannels.value, Some(current.value.parentID)))
    ensures target == "all" ==> r == if guildChannels.Ok? then Ok(TextChannelsUnder(guildChannels.value, None))
                                     else Err(guildChannels.error)
    ensures target != "current" && target != "category" && target != "all" ==> r == Err("不正なターゲット: " + target)
  {
    if target == "current" {
      if current.Err? {
        return Err(current.error);
      }
      return Ok([current.value]);
    } else if target == "category" {
      if current.Err? {
        return Err(current.error);
      }
      if guildChannels.Err? {
        return Err(guildChannels.error);
      }
      var chs := FilterTextChannels(guildChannels.value, Some(current.value.parentID));
      return Ok(chs);
    } else if target == "all" {
      if guildChannels.Err? {
        return Err(guildChannels.error);
      }
      var chs := FilterTextChannels(guildChannels.value, None);
      return Ok(chs);
    }
    return Err("不正なターゲット: " + target);
  }

  // ---- lock and unlock tallies ----

  /** The names of the channels whose permission write failed, in order. */
  function FailedNames(chs: seq<Channel>, writeOk: string -> bool): (names: seq<string>)
    ensures |names| <= |chs|
  {
    if |chs| == 0 then []
    else FailedNames(chs[..|chs| - 1], writeOk) + (if writeOk(chs[|chs| - 1].id) then [] else [chs[|chs| - 1].name])
  }

  /** The number of channels whose permission write succeeded. */
  function Succeeded(chs: seq<Channel>, writeOk: string -> bool): nat
  {
    if |chs| == 0 then 0
    else Succeeded(chs[..|chs| - 1], writeOk) + (if writeOk(chs[|chs| - 1].id) then 1 else 0)
  }

  /** Every target is either counted as a success or named as a failure. */
  lemma {:induction false} TallyComplete(chs: seq<Channel>, writeOk: string -> bool)
    ensures Succeeded(chs, writeOk) + |FailedNames(chs, writeOk)| == |chs|
    decreases |chs|
  {
    if |chs| > 0 {
      TallyComplete(chs[..|chs| - 1], writeOk);
    }
  }

  /**
   * The loop of executeLock and executeUnlock: each channel's write
   * (`writeOk`, by channel ID) adds to the success count or to the failed
   * names.
   */
  method Tally(chs: seq<Channel>, writeOk: string -> bool) returns (successCount: nat, failed: seq<string>)
    ensures successCount == Succeeded(chs, writeOk) && failed == FailedNames(chs, writeOk)
    ensures successCount + |failed| == |chs|
  {
    successCount := 0;
    failed := [];
    for k := 0 to |chs|
      invariant successCount == Succeeded(chs[..k], writeOk) && failed == FailedNames(chs[..k], writeOk)
    {
      assert chs[..k + 1][..k] == chs[..k];
      if writeOk(chs[k].id) {
        successCount := successCount + 1;
      } else {
        failed := failed + [chs[k].name];
      }
    }
    assert chs[..|chs|] == chs;
    TallyComplete(chs, writeOk);
  }

  const FailedListLimit := 1000

  /** The failed names joined by ", ", cut to 1000 characters plus "..." when longer. */
  function FailedList(failed: seq<string>): (r: string)
    ensures |Join(failed, ", ")| <= FailedListLimit ==> r == Join(failed, ", ")
    ensures |Join(failed, ", ")| > FailedListLimit ==>
              |r| == FailedListLimit + 3 && r == Join(failed, ", ")[..FailedListLimit] + "..."
  {
    CutWithNote(Join(failed, ", "), FailedListLimit, "...")
  }

  /** The result fields of a lock or unlock run. */
  datatype Field = Field(name: string, value: string)

  /**
   * The fields of the result embed, in order: the success count when there
   * is one, the failed list when there is one, then the reason.
   */
  function TallyFields(lock: bool, successCount: nat, failed: seq<string>, reason: string): (fs: seq<Field>)
    ensures |fs| == (if successCount > 0 then 1 else 0) + (if |failed| > 0 then 1 else 0) + 1
    ensures fs[|fs| - 1] == Field("📋 理由", reason)
    ensures successCount > 0 ==> fs[0] == Field(if lock then "✅ ロック成功" else "✅ 解除成功", NatToDecimal(successCount) + "個のチャンネル")
    ensures |failed| > 0 ==> fs[|fs| - 2] == Field(if lock then "❌ ロック失敗" else "❌ 解除失敗", FailedList(failed))
  {
    (if successCount > 0 then [Field(if lock then "✅ ロック成功" else "✅ 解除成功", NatToDecimal(successCount) + "個のチャンネル")] else [])
    + (if |failed| > 0 then [Field(if lock then "❌ ロック失敗" else "❌ 解除失敗", FailedList(failed))] else [])
    + [Field("📋 理由", reason)]
  }

  /** A run over at least one channel always reports either a success count or a failed list. */
  lemma RunReportsSomething(chs: seq<Channel>, writeOk: string -> bool, lock: bool, reason: string)
    requires |chs| > 0
    ensures |TallyFields(lock, Succeeded(chs, writeOk), FailedNames(chs, writeOk), reason)| >= 2
  {
    TallyComplete(chs, writeOk);
  }

  /**
   * executeLock or executeUnlock up to the result fields: a failed channel
   * lookup ends with an error reply, otherwise every target is written and
   * tallied.
   */
  method RunLockOrUnlock(lock: bool, target: string, reason: string, current: Result<Channel>,
                         guildChannels: Result<seq<Channel>>, writeOk: string -> bool) returns (r: Result<seq<Field>>)
    ensures target != "current" && target != "category" && target != "all" ==>
              r == Err("❌ チャンネル取得に失敗: 不正なターゲット: " + target)
    ensures target == "all" && guildChannels.Ok? ==>
              var chs := TextChannelsUnder(guildChannels.value, None);
              r == Ok(TallyFields(lock, Succeeded(chs, writeOk), FailedNames(chs, writeOk), reason))
    ensures target == "current" && current.Ok? ==>
              r == Ok(TallyFields(lock, if writeOk(current.value.id) then 1 else 0,
                                  if writeOk(current.value.id) then [] else [current.value.name], reason))
    ensures target == "category" && current.Ok? && guildChannels.Ok? ==>
              var chs := TextChannelsUnder(guildChannels.value, Some(current.value.parentID));
              r == Ok(TallyFields(lock, Succeeded(chs, writeOk), FailedNames(chs, writeOk), reason))
    ensures (target == "current" || target == "category") && current.Err? ==>
              r == Err("❌ チャンネル取得に失敗: " + current.error)
    ensures ((target == "category" && current.Ok?) || target == "all") && guildChannels.Err? ==>
              r == Err("❌ チャンネル取得に失敗: " + guildChannels.error)
  {
    var targets := TargetChannels(target, current, guildChannels);
    if targets.Err? {
      return Err("❌ チャンネル取得に失敗: " + targets.error);
    }
    var successCount, failed := Tally(targets.value, writeOk);
    if target == "current" {
      assert targets.value == [current.value];
      assert targets.value[..0] == [];
    }
    return Ok(TallyFields(lock, successCount, failed, reason));
  }
}
