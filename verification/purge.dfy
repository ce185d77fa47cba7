/**
 * The /purge command: the message filter, the choice of messages to delete,
 * the deletion in batches of at most 100, the description of the active
 * filters, and the permission check. Message ages are seconds passed in by
 * the caller; the outcome of each Discord deletion call is an input.
 */
module Purge {
  import opened Wrappers
  import opened GoStrings
  import P = Permissions

  /** Discord's bulk-delete age limit, 14 days, in seconds. */
  const TwoWeeks := 14 * 24 * 3600

  /** Discord's bulk-delete batch limit. */
  const BatchSize := 100

  datatype Message = Message(id: string, authorID: string, authorBot: bool, content: string, pinned: bool,
                             attachmentCount: nat, embedCount: nat, age: int)

  /** The options of one /purge call that decide which messages match. */
  datatype Filter = Filter(targetUser: Option<string>, category: string, contains: string, includePinned: bool)

  /** The category filter: an empty or unknown filter accepts every message. */
  predicate CategoryAccepts(msg: Message, filter: string)
  {
    match filter
    case "bots" => msg.authorBot
    case "humans" => !msg.authorBot
    case "links" => Contains(msg.content, "http://") || Contains(msg.content, "https://") || Contains(msg.content, "discord.gg/")
    case "attachments" => msg.attachmentCount > 0
    case "embeds" => msg.embedCount > 0
    case "not-pinned" => !msg.pinned
    case _ => true
  }

  /**
   * matchesFilter: pinned messages are kept unless included, other authors
   * than the target user are kept, the text filter ignores case, and the
   * category filter decides the rest.
   */
  function MatchesFilter(msg: Message, f: Filter): (b: bool)
    ensures b <==> (!msg.pinned || f.includePinned)
                   && (f.targetUser.Some? ==> msg.authorID == f.targetUser.value)
                   && (f.contains != "" ==> Contains(ToLower(msg.content), ToLower(f.contains)))
                   && CategoryAccepts(msg, f.category)
  {
    if msg.pinned && !f.includePinned then false
    else if f.targetUser.Some? && msg.authorID != f.targetUser.value then false
    else if f.contains != "" && !Contains(ToLower(msg.content), ToLower(f.contains)) then false
    else CategoryAccepts(msg, f.category)
  }

  /** With "not-pinned" a pinned message is never deleted, whether pinned messages are included or not. */
  lemma NotPinnedWins(msg: Message, f: Filter)
    requires msg.pinned && f.category == "not-pinned"
    ensures !MatchesFilter(msg, f)
  {
  }

  /** A message the selection may take: not older than two weeks, and matching the filter. */
  predicate Eligible(msg: Message, f: Filter)
  {
    msg.age <= TwoWeeks && MatchesFilter(msg, f)
  }

  /** The first `n` eligible messages, in order. */
  function Selection(msgs: seq<Message>, n: int, f: Filter)
    : (chosen: seq<Message>)
    ensures |chosen| <= if n < 0 then 0 else n
    ensures |chosen| <= |msgs|
    decreases |msgs|
  {
    if n <= 0 || |msgs| == 0 then []
    else if Eligible(msgs[0], f) then
      [msgs[0]] + Selection(msgs[1..], n - 1, f)
    else Selection(msgs[1..], n, f)
  }

  /** Every chosen message is one of the fetched messages and is eligible. */
  lemma {:induction false} SelectionEligible(msgs: seq<Message>, n: int, f: Filter)
    ensures forall m :: m in Selection(msgs, n, f) ==>
              m in msgs && Eligible(m, f)
    decreases |msgs|
  {
    if n > 0 && |msgs| > 0 {
      var rest := if Eligible(msgs[0], f) then n - 1 else n;
      SelectionEligible(msgs[1..], rest, f);
      assert forall m :: m in msgs[1..] ==> m in msgs;
    }
  }

  /** The selection takes `n` messages whenever at least `n` are eligible. */
  lemma {:induction false} SelectionFull(msgs: seq<Message>, n: int, f: Filter)
    ensures |Selection(msgs, n, f)| ==
              Min(if n < 0 then 0 else n, CountEligible(msgs, f))
    decreases |msgs|
  {
    if n > 0 && |msgs| > 0 {
      SelectionFull(msgs[1..], if Eligible(msgs[0], f) then n - 1 else n,
                    f);
    }
  }

  function Min(a: int, b: int): int
  {
    if a <= b then a else b
  }

  /** How many of the messages are eligible. */
  function CountEligible(msgs: seq<Message>, f: Filter): nat
    decreases |msgs|
  {
    if |msgs| == 0 then 0
    else (if Eligible(msgs[0], f) then 1 else 0)
         + CountEligible(msgs[1..], f)
  }

  /** The two skips of the selection loop: a message over two weeks old, and one the filter rejects. */
  method Keep(msg: Message, f: Filter) returns (keep: bool)
    ensures keep == Eligible(msg, f)
  {
    if msg.age > TwoWeeks {
      return false;
    }
    if !MatchesFilter(msg, f) {
      return false;
    }
    return true;
  }

  /** One step of the selection, at position i. */
  lemma SelectionStep(msgs: seq<Message>, i: nat, n: int, f: Filter)
    requires i < |msgs| && n > 0
    ensures Selection(msgs[i..], n, f) ==
              if Eligible(msgs[i], f)
              then [msgs[i]] + Selection(msgs[i + 1..], n - 1, f)
              else Selection(msgs[i + 1..], n, f)
  {
    assert msgs[i..][0] == msgs[i] && msgs[i..][1..] == msgs[i + 1..];
  }

  /**
   * The selection loop of Execute: stops once `amount` messages are chosen,
   * skips messages over two weeks old and messages the filter rejects.
   */
  method SelectMessages(msgs: seq<Message>, amount: int, f: Filter)
    returns (chosen: seq<Message>)
    ensures chosen == Selection(msgs, amount, f)
  {
    chosen := [];
    var i := 0;
    assert msgs[0..] == msgs;
    while i < |msgs| && |chosen| < amount
      invariant 0 <= i <= |msgs|
      invariant chosen + Selection(msgs[i..], amount - |chosen|, f)
                == Selection(msgs, amount, f)
    {
      SelectionStep(msgs, i, amount - |chosen|, f);
      var keep := Keep(msgs[i], f);
      if keep {
        chosen := chosen + [msgs[i]];
      }
      i := i + 1;
    }
  }

  // ---- deletion ----

  /** The IDs young enough for bulk deletion (under two weeks), in order. */
  function YoungIDs(msgs: seq<Message>): (ids: seq<string>)
    ensures |ids| <= |msgs|
  {
    if |msgs| == 0 then []
    else YoungIDs(msgs[..|msgs| - 1]) + (if msgs[|msgs| - 1].age < TwoWeeks then [msgs[|msgs| - 1].id] else [])
  }

  /** The IDs deleted one by one because they are exactly two weeks old or older, in order. */
  function OldIDs(msgs: seq<Message>): (ids: seq<string>)
    ensures |ids| <= |msgs|
  {
    if |msgs| == 0 then []
    else OldIDs(msgs[..|msgs| - 1]) + (if msgs[|msgs| - 1].age < TwoWeeks then [] else [msgs[|msgs| - 1].id])
  }

  /** Every message goes to exactly one of the two lists. */
  lemma {:induction false} PartitionSizes(msgs: seq<Message>)
    ensures |YoungIDs(msgs)| + |OldIDs(msgs)| == |msgs|
    decreases |msgs|
  {
    if |msgs| > 0 {
      PartitionSizes(msgs[..|msgs| - 1]);
    }
  }

  /**
   * What one batch deletes: a batch of two or more goes in one bulk call
   * (`batchOk` says whether the call for batch number b succeeds), a batch
   * of one in a single call (`singleOk`).
   */
  function BatchDeleted(batch: seq<string>, b: nat, batchOk: nat -> bool, singleOk: string -> bool): (n: nat)
    ensures n <= |batch|
  {
    if |batch| >= 2 then (if batchOk(b) then |batch| else 0)
    else if |batch| == 1 then (if singleOk(batch[0]) then 1 else 0)
    else 0
  }

  /** The deletions of the batches starting at index i, each batch at most BatchSize long. */
  function BulkDeleted(ids: seq<string>, i: nat, batchOk: nat -> bool, singleOk: string -> bool): (n: nat)
    ensures n <= if i <= |ids| then |ids| - i else 0
    decreases |ids| - i
  {
    if i >= |ids| then 0
    else
      var end := if i + BatchSize > |ids| then |ids| else i + BatchSize;
      BatchDeleted(ids[i..end], i / BatchSize, batchOk, singleOk) + BulkDeleted(ids, end, batchOk, singleOk)
  }

  /** The single deletions that succeed. */
  function SinglesDeleted(ids: seq<string>, singleOk: string -> bool): (n: nat)
    ensures n <= |ids|
  {
    if |ids| == 0 then 0
    else SinglesDeleted(ids[..|ids| - 1], singleOk) + (if singleOk(ids[|ids| - 1]) then 1 else 0)
  }

  /** The partition loop of bulkDeleteMessages. */
  method PartitionIDs(msgs: seq<Message>) returns (messageIDs: seq<string>, singleDeletes: seq<string>)
    ensures messageIDs == YoungIDs(msgs) && singleDeletes == OldIDs(msgs)
  {
    messageIDs := [];
    singleDeletes := [];
    for k := 0 to |msgs|
      invariant messageIDs == YoungIDs(msgs[..k]) && singleDeletes == OldIDs(msgs[..k])
    {
      assert msgs[..k + 1][..k] == msgs[..k];
      if msgs[k].age < TwoWeeks {
        messageIDs := messageIDs + [msgs[k].id];
      } else {
        singleDeletes := singleDeletes + [msgs[k].id];
      }
    }
    assert msgs[..|msgs|] == msgs;
  }

  /** The batch loop: slices of at most 100 IDs, with a one-ID slice deleted on its own. */
  method DeleteBatches(ids: seq<string>, batchOk: nat -> bool, singleOk: string -> bool) returns (count: nat)
    ensures count == BulkDeleted(ids, 0, batchOk, singleOk)
  {
    count := 0;
    var i := 0;
    while i < |ids|
      invariant 0 <= i && (i < |ids| ==> i % BatchSize == 0)
      invariant count + BulkDeleted(ids, i, batchOk, singleOk) == BulkDeleted(ids, 0, batchOk, singleOk)
      decreases |ids| - i
    {
      var end := i + BatchSize;
      if end > |ids| {
        end := |ids|;
      }
      var batch := ids[i..end];
      if |batch| >= 2 {
        if batchOk(i / BatchSize) {
          count := count + |batch|;
        }
      } else if |batch| == 1 {
        if singleOk(batch[0]) {
          count := count + 1;
        }
      }
      i := i + BatchSize;
    }
  }

  /** The loop over the old messages, one delete call each. */
  method DeleteSingles(ids: seq<string>, singleOk: string -> bool) returns (count: nat)
    ensures count == SinglesDeleted(ids, singleOk)
  {
    count := 0;
    for k := 0 to |ids|
      invariant count == SinglesDeleted(ids[..k], singleOk)
    {
      assert ids[..k + 1][..k] == ids[..k];
      if singleOk(ids[k]) {
        count := count + 1;
      }
    }
    assert ids[..|ids|] == ids;
  }

  /** A lone young ID is deleted as the batch loop would delete a batch of one. */
  lemma LoneIDAsBatch(ids: seq<string>, batchOk: nat -> bool, singleOk: string -> bool)
    requires |ids| == 1
    ensures BulkDeleted(ids, 0, batchOk, singleOk) == if singleOk(ids[0]) then 1 else 0
  {
    assert ids[0..1] == ids;
  }

  /**
   * bulkDeleteMessages: young IDs go in batches of at most 100, old ones one
   * by one; the count is the number of deletions that succeeded, and no
   * error is ever returned.
   */
  method BulkDeleteMessages(msgs: seq<Message>, batchOk: nat -> bool, singleOk: string -> bool) returns (deletedCount: nat)
    ensures deletedCount == BulkDeleted(YoungIDs(msgs), 0, batchOk, singleOk) + SinglesDeleted(OldIDs(msgs), singleOk)
    ensures deletedCount <= |msgs|
  {
    PartitionSizes(msgs);
    if |msgs| == 0 {
      return 0;
    }
    var messageIDs, singleDeletes := PartitionIDs(msgs);
    deletedCount := 0;
    if |messageIDs| >= 2 {
      deletedCount := DeleteBatches(messageIDs, batchOk, singleOk);
    } else if |messageIDs| == 1 {
      LoneIDAsBatch(messageIDs, batchOk, singleOk);
      if singleOk(messageIDs[0]) {
        deletedCount := deletedCount + 1;
      }
    }
    var singles := DeleteSingles(singleDeletes, singleOk);
    deletedCount := deletedCount + singles;
  }

  /** When every call succeeds, every bulk ID is deleted. */
  lemma {:induction false} BulkAllDeleted(ids: seq<string>, i: nat, batchOk: nat -> bool, singleOk: string -> bool)
    requires forall b :: batchOk(b)
    requires forall id :: singleOk(id)
    requires i <= |ids|
    ensures BulkDeleted(ids, i, batchOk, singleOk) == |ids| - i
    decreases |ids| - i
  {
    if i < |ids| {
      var end := if i + BatchSize > |ids| then |ids| else i + BatchSize;
      BulkAllDeleted(ids, end, batchOk, singleOk);
    }
  }

  /** When every call succeeds, every single ID is deleted. */
  lemma {:induction false} SinglesAllDeleted(ids: seq<string>, singleOk: string -> bool)
    requires forall id :: singleOk(id)
    ensures SinglesDeleted(ids, singleOk) == |ids|
    decreases |ids|
  {
    if |ids| > 0 {
      SinglesAllDeleted(ids[..|ids| - 1], singleOk);
    }
  }

  /** When Discord accepts every call, every chosen message is reported deleted. */
  lemma AllDeletedWhenAllSucceed(msgs: seq<Message>, batchOk: nat -> bool, singleOk: string -> bool)
    requires forall b :: batchOk(b)
    requires forall id :: singleOk(id)
    ensures BulkDeleted(YoungIDs(msgs), 0, batchOk, singleOk) + SinglesDeleted(OldIDs(msgs), singleOk) == |msgs|
  {
    BulkAllDeleted(YoungIDs(msgs), 0, batchOk, singleOk);
    SinglesAllDeleted(OldIDs(msgs), singleOk);
    PartitionSizes(msgs);
  }

  // ---- description and permission ----

  /** The category names shown in the description. */
  function CategoryName(filter: string): Option<string>
  {
    match filter
    case "bots" => Some("🤖 BOTのみ")
    case "humans" => Some("👤 人間のみ")
    case "links" => Some("🔗 リンク付き")
    case "attachments" => Some("📎 添付ファイル付き")
    case "embeds" => Some("💬 埋め込み付き")
    case "not-pinned" => Some("📌 ピン留め以外")
    case _ => None
  }

  /** The conditions in the order getFilterDescription lists them: user, category, text, pinned. */
  function FilterConditions(targetUsername: Option<string>, filter: string, contains: string, includePinned: bool): (cs: seq<string>)
    ensures |cs| == (if targetUsername.Some? then 1 else 0) + (if CategoryName(filter).Some? then 1 else 0)
                    + (if contains != "" then 1 else 0) + (if includePinned then 1 else 0)
    ensures forall c :: c in cs ==> c != ""
    ensures targetUsername.Some? ==> cs[0] == "👤 ユーザー: " + targetUsername.value
    ensures var u := if targetUsername.Some? then 1 else 0;
      CategoryName(filter).Some? ==> cs[u] == CategoryName(filter).value
    ensures var uc := (if targetUsername.Some? then 1 else 0) + (if CategoryName(filter).Some? then 1 else 0);
      contains != "" ==> cs[uc] == "🔍 内容: '" + contains + "'"
    ensures includePinned ==> cs[|cs| - 1] == "📌 ピン留め含む"
  {
    (if targetUsername.Some? then ["👤 ユーザー: " + targetUsername.value] else [])
    + (if CategoryName(filter).Some? then [CategoryName(filter).value] else [])
    + (if contains != "" then ["🔍 内容: '" + contains + "'"] else [])
    + (if includePinned then ["📌 ピン留め含む"] else [])
  }

  /** Joining non-empty parts gives a non-empty string. */
  lemma JoinNonEmpty(parts: seq<string>, sep: string)
    requires |parts| > 0 && parts[0] != ""
    ensures Join(parts, sep) != ""
  {
    if |parts| > 1 {
      assert |Join(parts, sep)| >= |parts[0]|;
    }
  }

  /** getFilterDescription: the conditions joined by " • ", or "" when there are none. */
  function FilterDescription(targetUsername: Option<string>, filter: string, contains: string, includePinned: bool): (r: string)
    ensures r == "" <==> targetUsername.None? && CategoryName(filter).None? && contains == "" && !includePinned
    ensures r == Join(FilterConditions(targetUsername, filter, contains, includePinned), " • ")
  {
    var cs := FilterConditions(targetUsername, filter, contains, includePinned);
    if |cs| == 0 then ""
    else
      JoinNonEmpty(cs, " • ");
      Join(cs, " • ")
  }

  /** The last part closes the joined text. */
  lemma {:induction false} JoinEndsWithLast(parts: seq<string>, sep: string)
    requires |parts| > 0
    ensures |parts[|parts| - 1]| <= |Join(parts, sep)|
    ensures Join(parts, sep)[|Join(parts, sep)| - |parts[|parts| - 1]|..] == parts[|parts| - 1]
  {
    if |parts| > 1 {
      JoinEndsWithLast(parts[1..], sep);
      var rest := Join(parts[1..], sep);
      assert Join(parts, sep) == (parts[0] + sep) + rest;
      assert parts[1..][|parts[1..]| - 1] == parts[|parts| - 1];
    }
  }

  /** A named target user opens the description. */
  lemma DescriptionStartsWithUser(name: string, filter: string, contains: string, includePinned: bool)
    ensures var d := FilterDescription(Some(name), filter, contains, includePinned);
      var lead := "👤 ユーザー: " + name;
      |lead| <= |d| && d[..|lead|] == lead
  {
    var cs := FilterConditions(Some(name), filter, contains, includePinned);
    if |cs| > 1 {
      assert Join(cs, " • ") == cs[0] + (" • " + Join(cs[1..], " • "));
    }
  }

  /** Including pinned messages closes the description. */
  lemma DescriptionEndsWithPinned(target: Option<string>, filter: string, contains: string)
    ensures var d := FilterDescription(target, filter, contains, true);
      var tail := "📌 ピン留め含む";
      |tail| <= |d| && d[|d| - |tail|..] == tail
  {
    JoinEndsWithLast(FilterConditions(target, filter, contains, true), " • ");
  }

  /** hasPermission: the owner, or a member whose resolvable role has Manage Messages or Administrator. */
  method HasPermission(ownerID: Option<string>, memberID: string, roles: seq<string>, resolved: map<string, bv64>) returns (ok: bool)
    ensures ok <==> ownerID == Some(memberID) || exists i :: 0 <= i < |roles| && P.RoleGrants(roles, resolved, P.ManageMessages, i)
  {
    ok := P.MemberHasRoleBit(ownerID, memberID, roles, resolved, P.ManageMessages);
  }
}
