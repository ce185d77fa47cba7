/** Discord permission bits as discordgo numbers them, and the role check two commands share. */
module Permissions {
  import opened Wrappers

  const CreateInstantInvite: bv64 := 0x1
  const KickMembers: bv64 := 0x2
  const BanMembers: bv64 := 0x4
  const Administrator: bv64 := 0x8
  const ManageChannels: bv64 := 0x10
  const ManageGuild: bv64 := 0x20
  const AddReactions: bv64 := 0x40
  const SendMessages: bv64 := 0x800
  const ManageMessages: bv64 := 0x2000

  /** The permission set holds the given bit. */
  predicate Has(perms: bv64, bit: bv64)
  {
    perms & bit != 0
  }

  /** The role at position i resolves and grants the bit or Administrator. */
  predicate RoleGrants(roles: seq<string>, resolved: map<string, bv64>, bit: bv64, i: int)
    requires 0 <= i < |roles|
  {
    roles[i] in resolved && (Has(resolved[roles[i]], bit) || Has(resolved[roles[i]], Administrator))
  }

  /**
   * The hasPermission check of the purge and lockdown commands: the guild's
   * owner passes (when the guild lookup succeeds, `ownerID`), and so does a
   * member with a role that resolves in the state cache (`resolved`) and
   * holds the bit or Administrator; roles that do not resolve are skipped.
   */
  method MemberHasRoleBit(ownerID: Option<string>, memberID: string, roles: seq<string>, resolved: map<string, bv64>, bit: bv64)
    returns (ok: bool)
    ensures ok <==> ownerID == Some(memberID) || exists i :: 0 <= i < |roles| && RoleGrants(roles, resolved, bit, i)
  {
    if ownerID == Some(memberID) {
      return true;
    }
    for i := 0 to |roles|
      invariant forall j :: 0 <= j < i ==> !RoleGrants(roles, resolved, bit, j)
    {
      if roles[i] in resolved {
        var perms := resolved[roles[i]];
        if Has(perms, bit) || Has(perms, Administrator) {
          assert RoleGrants(roles, resolved, bit, i);
          return true;
        }
      }
    }
    return false;
  }
}
