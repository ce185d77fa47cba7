/**
 * The /brackets command: the ranking list with its medals, the requesting
 * user's rank, and the single-user statistics with their comment. The
 * rankings and statistics come from the database model; usernames come
 * from a lookup passed in (`names`; a missing entry is a failed lookup).
 */
module Brackets {
  import opened Wrappers
  import opened GoStrings
  import D = Database

  const Medals := ["🥇", "🥈", "🥉"]
  const UnknownUser := "Unknown User"

  /** The mark before position i (from 0): a medal for the first three, "N." after them. */
  function Medal(i: nat): (m: string)
    ensures i < 3 ==> m == Medals[i]
    ensures i >= 3 ==> m == NatToDecimal(i + 1) + "."
  {
    if i < |Medals| then Medals[i] else NatToDecimal(i + 1) + "."
  }

  /** Positions after the medals are marked with their own number, so no two positions share a mark. */
  lemma MedalsDistinct(i: nat, j: nat)
    requires i < j
    ensures Medal(i) != Medal(j)
  {
    var mi, mj := Medal(i), Medal(j);
    if j < 3 {
      assert mi[0] != mj[0];
    } else if i < 3 {
      assert mj[|mj| - 1] == '.';
      assert mi[|mi| - 1] != '.';
    } else {
      DigitsValueOfDecimal(i + 1);
      DigitsValueOfDecimal(j + 1);
      assert mi[..|mi| - 1] == NatToDecimal(i + 1);
      assert mj[..|mj| - 1] == NatToDecimal(j + 1);
    }
  }

  /** The username shown for a ranked user. */
  function Username(names: map<string, string>, userID: string): string
  {
    if userID in names then names[userID] else UnknownUser
  }

  /** One entry of the ranking list. */
  function RankLine(i: nat, name: string, s: D.BracketStats): (line: string)
    ensures HasPrefix(line, Medal(i) + " **" + name + "**")
    ensures line[|Medal(i) + " **" + name + "**"|..]
            == "\n   () " + IntToDecimal(s.halfWidthPairs) + "回  （） " + IntToDecimal(s.fullWidthPairs)
               + "回  合計: **" + IntToDecimal(s.totalPairs) + "回**\n\n"
  {
    var head := Medal(i) + " **" + name + "**";
    var line := head + ("\n   () " + IntToDecimal(s.halfWidthPairs) + "回  （） " + IntToDecimal(s.fullWidthPairs)
                        + "回  合計: **" + IntToDecimal(s.totalPairs) + "回**\n\n");
    assert line[..|head|] == head;
    line
  }

  /** The ranking list: one entry per ranked user, in ranking order. */
  function RankingText(rankings: seq<D.BracketStats>, names: map<string, string>): string
  {
    if |rankings| == 0 then ""
    else RankingText(rankings[..|rankings| - 1], names)
         + RankLine(|rankings| - 1, Username(names, rankings[|rankings| - 1].userID), rankings[|rankings| - 1])
  }

  /** The loop of showRanking that writes the list into a builder. */
  method WriteRanking(rankings: seq<D.BracketStats>, names: map<string, string>) returns (description: string)
    ensures description == RankingText(rankings, names)
  {
    description := "";
    for i := 0 to |rankings|
      invariant description == RankingText(rankings[..i], names)
    {
      assert rankings[..i + 1][..i] == rankings[..i];
      var username := UnknownUser;
      if rankings[i].userID in names {
        username := names[rankings[i].userID];
      }
      description := description + RankLine(i, username, rankings[i]);
    }
    assert rankings[..|rankings|] == rankings;
  }

  /** A user's rank: 1 + the position of their first entry, or 0 when they have none. */
  function RankOf(rankings: seq<D.BracketStats>, userID: string): (rank: nat)
    ensures rank <= |rankings|
    ensures rank == 0 <==> forall i :: 0 <= i < |rankings| ==> rankings[i].userID != userID
    ensures rank > 0 ==> rankings[rank - 1].userID == userID && forall i :: 0 <= i < rank - 1 ==> rankings[i].userID != userID
  {
    if |rankings| == 0 then 0
    else if rankings[0].userID == userID then 1
    else
      var r := RankOf(rankings[1..], userID);
      if r == 0 then 0 else r + 1
  }

  /** The rank loops of showRanking and showUserStats: stop at the first entry of the user. */
  method FindRank(rankings: seq<D.BracketStats>, userID: string) returns (userRank: nat)
    ensures userRank == RankOf(rankings, userID)
  {
    userRank := 0;
    var i := 0;
    while i < |rankings|
      invariant 0 <= i <= |rankings|
      invariant forall k :: 0 <= k < i ==> rankings[k].userID != userID
    {
      if rankings[i].userID == userID {
        userRank := i + 1;
        break;
      }
      i := i + 1;
    }
  }

  /** What showRanking shows. */
  datatype RankingReply =
    | LookupFailed
    | NoData
    | Ranking(description: string, yourRank: Option<nat>)

  /**
   * showRanking: the top ten with their names; for a requester with pairs,
   * their rank in the top ten or else in the full ranking, shown only when
   * it is beyond ten.
   */
  method ShowRanking(top: Result<seq<D.BracketStats>>, all: Result<seq<D.BracketStats>>, names: map<string, string>,
                     me: D.BracketStats) returns (reply: RankingReply)
    ensures top.Err? ==> reply == LookupFailed
    ensures top.Ok? && |top.value| == 0 ==> reply == NoData
    ensures top.Ok? && |top.value| > 0 ==> reply.Ranking? && reply.description == RankingText(top.value, names)
    ensures reply.Ranking? && reply.yourRank.Some? ==> me.totalPairs > 0 && reply.yourRank.value > 10
    ensures reply.Ranking? ==>
              var everyone := if all.Ok? then all.value else [];
              var rank := if RankOf(top.value, me.userID) != 0 then RankOf(top.value, me.userID) else RankOf(everyone, me.userID);
              reply.yourRank == if me.totalPairs > 0 && rank > 10 then Some(rank) else None
  {
    if top.Err? {
      return LookupFailed;
    }
    if |top.value| == 0 {
      return NoData;
    }
    var description := WriteRanking(top.value, names);
    var yourRank: Option<nat> := None;
    if me.totalPairs > 0 {
      var userRank := FindRank(top.value, me.userID);
      if userRank == 0 {
        var everyone := if all.Ok? then all.value else [];
        userRank := FindRank(everyone, me.userID);
      }
      if userRank > 10 {
        yourRank := Some(userRank);
      }
    }
    return Ranking(description, yourRank);
  }

  // ---- single-user statistics ----

  /** The usage tier of the comment: above 500, above 100, above 50, or none. */
  function Tier(total: int): (t: string)
    ensures t == "" <==> total <= 50
  {
    if total > 500 then "🔥 500ペア以上！かっこペアマスター！"
    else if total > 100 then "💪 100ペア以上！かなりのペアユーザー！"
    else if total > 50 then "👍 50ペア達成！順調にペアを使っています！"
    else ""
  }

  const HalfPreferred := "📱 半角かっこ派ですね！"
  const FullPreferred := "📝 全角かっこ派ですね！"
  const Balanced := "🎯 両方バランス良く使っています！"

  /**
   * The preference line: half-width when it is more than twice the
   * full-width count, full-width in the opposite case, balanced when both
   * are used otherwise, and nothing when neither holds.
   */
  function Preference(half: int, full: int): (p: string)
    ensures p == HalfPreferred <==> half > full * 2
    ensures p == FullPreferred <==> !(half > full * 2) && full > half * 2
    ensures p == Balanced <==> !(half > full * 2) && !(full > half * 2) && half > 0 && full > 0
    ensures p == "" <==> !(half > full * 2) && !(full > half * 2) && !(half > 0 && full > 0)
  {
    if half > full * 2 then HalfPreferred
    else if full > half * 2 then FullPreferred
    else if half > 0 && full > 0 then Balanced
    else ""
  }

  /** The comment: the tier and the preference, joined by a line break when both are present. */
  function FunFact(s: D.BracketStats): (r: string)
    ensures Tier(s.totalPairs) == "" ==> r == Preference(s.halfWidthPairs, s.fullWidthPairs)
    ensures Preference(s.halfWidthPairs, s.fullWidthPairs) == "" ==> r == Tier(s.totalPairs)
    ensures Tier(s.totalPairs) != "" && Preference(s.halfWidthPairs, s.fullWidthPairs) != "" ==>
              r == Tier(s.totalPairs) + "\n" + Preference(s.halfWidthPairs, s.fullWidthPairs)
  {
    var tier := Tier(s.totalPairs);
    var pref := Preference(s.halfWidthPairs, s.fullWidthPairs);
    if pref == "" then tier
    else if tier == "" then pref
    else tier + "\n" + pref
  }

  /** With counters that add up, a user with pairs always gets a comment. */
  lemma UserWithPairsGetsComment(s: D.BracketStats)
    requires s.totalPairs == s.halfWidthPairs + s.fullWidthPairs
    requires s.halfWidthPairs >= 0 && s.fullWidthPairs >= 0 && s.totalPairs > 0
    ensures FunFact(s) != ""
  {
    assert Preference(s.halfWidthPairs, s.fullWidthPairs) != "";
  }

  datatype UserReply =
    | StatsFailed
    | NoUserData
    | UserStats(rank: nat, rankedUsers: nat, total: int, comment: Option<string>)

  /**
   * showUserStats: a failed lookup or a user without pairs ends early;
   * otherwise the rank in the full ranking (0 when absent), the number of
   * ranked users, the total and, when there is one, the comment.
   */
  method ShowUserStats(stats: Result<D.BracketStats>, all: Result<seq<D.BracketStats>>) returns (reply: UserReply)
    ensures stats.Err? ==> reply == StatsFailed
    ensures stats.Ok? && stats.value.totalPairs == 0 ==> reply == NoUserData
    ensures stats.Ok? && stats.value.totalPairs != 0 ==>
              var everyone := if all.Ok? then all.value else [];
              reply == UserStats(RankOf(everyone, stats.value.userID), |everyone|, stats.value.totalPairs,
                                 if FunFact(stats.value) == "" then None else Some(FunFact(stats.value)))
  {
    if stats.Err? {
      return StatsFailed;
    }
    var s := stats.value;
    if s.totalPairs == 0 {
      return NoUserData;
    }
    var everyone := if all.Ok? then all.value else [];
    var userRank := FindRank(everyone, s.userID);
    var funFact := FunFact(s);
    return UserStats(userRank, |everyone|, s.totalPairs, if funFact == "" then None else Some(funFact));
  }
}
