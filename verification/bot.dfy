/**
 * The bot's message handler and its bracket-pair counter. A pair is an
 * opener followed later by a closer that finds an unmatched opener; every
 * other character, an unmatched closer included, is ignored. Half-width
 * ( ) and full-width （ ） pairs are counted separately and recorded per
 * guild and user. The Discord session is reduced to the bot's own user ID.
 */
module Bot {
  import opened Wrappers
  import opened GoStrings
  import D = Database

  datatype Tally = Tally(pairs: nat, openCount: nat)

  /** The counter's state after reading `s` from left to right. */
  function Scan(s: string, open: char, close: char): Tally
  {
    if |s| == 0 then Tally(0, 0)
    else
      var t := Scan(s[..|s| - 1], open, close);
      var r := s[|s| - 1];
      if r == open then Tally(t.pairs, t.openCount + 1)
      else if r == close && t.openCount > 0 then Tally(t.pairs + 1, t.openCount - 1)
      else t
  }

  /** The number of complete pairs in `s`. */
  function PairCount(s: string, open: char, close: char): nat
  {
    Scan(s, open, close).pairs
  }

  /** Every opener read is either still waiting or already part of a pair. */
  lemma {:induction false} OpenersAccounted(s: string, open: char, close: char)
    ensures Scan(s, open, close).pairs + Scan(s, open, close).openCount == CountChar(s, open)
    decreases |s|
  {
    if |s| > 0 {
      var init := s[..|s| - 1];
      assert s == init + [s[|s| - 1]];
      OpenersAccounted(init, open, close);
      CountCharSnoc(init, s[|s| - 1], open);
    }
  }

  /** Each pair consumed one closer. */
  lemma {:induction false} PairsWithinClosers(s: string, open: char, close: char)
    ensures Scan(s, open, close).pairs <= CountChar(s, close)
    decreases |s|
  {
    if |s| > 0 {
      var init := s[..|s| - 1];
      assert s == init + [s[|s| - 1]];
      PairsWithinClosers(init, open, close);
      CountCharSnoc(init, s[|s| - 1], close);
    }
  }

  /** The count never exceeds the number of openers nor the number of closers. */
  lemma PairsBounded(s: string, open: char, close: char)
    ensures PairCount(s, open, close) <= CountChar(s, open)
    ensures PairCount(s, open, close) <= CountChar(s, close)
  {
    OpenersAccounted(s, open, close);
    PairsWithinClosers(s, open, close);
  }

  /** `s` with every character other than the two brackets removed. */
  function Brackets(s: string, open: char, close: char): (r: string)
    ensures |r| <= |s|
  {
    if |s| == 0 then []
    else
      var r := s[|s| - 1];
      Brackets(s[..|s| - 1], open, close) + (if r == open || r == close then [r] else [])
  }

  /** Only the two bracket characters matter: the counter reads `s` as it reads its brackets alone. */
  lemma {:induction false} OtherCharsIgnored(s: string, open: char, close: char)
    ensures Scan(s, open, close) == Scan(Brackets(s, open, close), open, close)
    decreases |s|
  {
    if |s| > 0 {
      var init := s[..|s| - 1];
      var r := s[|s| - 1];
      OtherCharsIgnored(init, open, close);
      assert Brackets(s, open, close) == Brackets(init, open, close) + (if r == open || r == close then [r] else []);
      if r == open || r == close {
        var b := Brackets(init, open, close) + [r];
        assert b[..|b| - 1] == Brackets(init, open, close) && b[|b| - 1] == r;
      } else {
        assert Brackets(s, open, close) == Brackets(init, open, close) + [];
        assert Brackets(init, open, close) + [] == Brackets(init, open, close);
      }
    }
  }

  /** Reading one more character is one step of the counter. */
  lemma ScanSnoc(s: string, r: char, open: char, close: char)
    ensures var t := Scan(s, open, close);
            Scan(s + [r], open, close)
            == if r == open then Tally(t.pairs, t.openCount + 1)
               else if r == close && t.openCount > 0 then Tally(t.pairs + 1, t.openCount - 1)
               else t
  {
    assert (s + [r])[..|s|] == s;
  }

  /**
   * countPairs: one pass over the runes keeping the number of unmatched
   * openers and the number of pairs.
   */
  method CountPairs(content: string, open: char, close: char) returns (pairs: nat)
    ensures pairs == PairCount(content, open, close)
    ensures pairs <= CountChar(content, open) && pairs <= CountChar(content, close)
  {
    var openCount: nat := 0;
    pairs := 0;
    var i := 0;
    while i < |content|
      invariant 0 <= i <= |content|
      invariant Tally(pairs, openCount) == Scan(content[..i], open, close)
      invariant pairs + openCount == CountChar(content[..i], open)
    {
      var r := content[i];
      assert content[..i + 1] == content[..i] + [r];
      ScanSnoc(content[..i], r, open, close);
      CountCharSnoc(content[..i], r, open);
      if r == open {
        openCount := openCount + 1;
      } else if r == close && openCount > 0 {
        openCount := openCount - 1;
        pairs := pairs + 1;
      }
      i := i + 1;
    }
    assert content[..i] == content;
    PairsBounded(content, open, close);
  }

  /** countBracketPairs: the half-width and the full-width counts. */
  method CountBracketPairs(content: string) returns (halfWidth: nat, fullWidth: nat)
    ensures halfWidth == PairCount(content, '(', ')')
    ensures fullWidth == PairCount(content, '（', '）')
  {
    halfWidth := CountPairs(content, '(', ')');
    fullWidth := CountPairs(content, '（', '）');
  }

  /** Changing only the full-width characters of a message leaves its half-width count alone, and conversely. */
  lemma FamiliesIndependent(s: string, t: string)
    ensures Brackets(s, '(', ')') == Brackets(t, '(', ')') ==> PairCount(s, '(', ')') == PairCount(t, '(', ')')
    ensures Brackets(s, '（', '）') == Brackets(t, '（', '）') ==> PairCount(s, '（', '）') == PairCount(t, '（', '）')
  {
    OtherCharsIgnored(s, '(', ')');
    OtherCharsIgnored(t, '(', ')');
    OtherCharsIgnored(s, '（', '）');
    OtherCharsIgnored(t, '（', '）');
  }

  /** The part of a MessageCreate event the handler reads. */
  datatype Author = Author(id: string, username: string, discriminator: string, avatar: string, bot: bool)
  datatype MessageCreate = MessageCreate(author: Author, guildID: string, content: string)

  /**
   * onMessageCreate: skips the bot's own messages and every bot's; otherwise
   * upserts the author and, in a guild, records the message's pairs when
   * there is at least one. `upsertExec` and `usageExec` say whether the two
   * statements run; a failed one is only logged.
   */
  method OnMessageCreate(db: D.Service, selfID: string, m: MessageCreate, upsertExec: Outcome, usageExec: Outcome)
    returns (recorded: bool)
    requires db.Valid()
    modifies db
    ensures db.Valid()
    ensures db.guildSettings == old(db.guildSettings) && db.guilds == old(db.guilds)
    ensures m.author.id == selfID || m.author.bot ==> db.users == old(db.users) && !recorded
    ensures !(m.author.id == selfID || m.author.bot) && upsertExec.Pass? ==>
              db.users == old(db.users)[m.author.id := D.UserRow(m.author.username, m.author.discriminator, m.author.avatar, m.author.bot)]
    ensures upsertExec.Fail? ==> db.users == old(db.users)
    ensures recorded <==> !(m.author.id == selfID || m.author.bot) && m.guildID != ""
                          && PairCount(m.content, '(', ')') + PairCount(m.content, '（', '）') > 0
    ensures !recorded || usageExec.Fail? ==> db.bracketUsage == old(db.bracketUsage)
    ensures recorded && usageExec.Pass? ==>
              var key := (m.guildID, m.author.id);
              db.bracketUsage == old(db.bracketUsage)[key :=
                D.AddUsage(if key in old(db.bracketUsage) then Some(old(db.bracketUsage)[key]) else None,
                           PairCount(m.content, '(', ')'), PairCount(m.content, '（', '）'))]
  {
    recorded := false;
    if m.author.id == selfID || m.author.bot {
      return;
    }
    var _ := db.UpsertUser(m.author.id, m.author.username, m.author.discriminator, m.author.avatar, m.author.bot, upsertExec);
    if m.guildID != "" {
      var halfWidthPairs, fullWidthPairs := CountBracketPairs(m.content);
      var totalPairs := halfWidthPairs + fullWidthPairs;
      if totalPairs > 0 {
        recorded := true;
        var _ := db.UpdateBracketUsage(m.guildID, m.author.id, halfWidthPairs, fullWidthPairs, usageExec);
      }
    }
  }
}
