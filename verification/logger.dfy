/**
 * The server-event logger: which events reach the log channel, the cut of
 * logged message content at 1000 characters, the change lists of channel
 * and role updates, and the channel-type and on/off labels. Discord events
 * arrive as values; sending the log embed is left out.
 */
module Logger {
  import opened Wrappers
  import opened GoStrings
  import D = Database

  datatype LogEvent =
    | MessageEdit | MessageDelete | MemberJoin | MemberLeave
    | ChannelCreate | ChannelDelete | ChannelUpdate
    | RoleCreate | RoleDelete | RoleUpdate
    | MemberBan | MemberUnban | MemberKick

  /** The events with a flag of their own that shouldLog consults. */
  predicate HasOwnFlag(e: LogEvent)
  {
    e.MessageEdit? || e.MessageDelete? || e.MemberJoin? || e.MemberLeave?
  }

  /**
   * shouldLog: nothing is logged when the settings cannot be read, logging is
   * off or no log channel is set; otherwise the four message and member
   * events follow their own flags, every other event is logged, and the
   * channel is always the log channel.
   */
  function ShouldLog(db: D.Service, guildID: string, e: LogEvent): (r: (bool, string))
    reads db
    ensures (db.GetGuildSettings(guildID).Err? || !db.GetGuildSettings(guildID).value.logging.enabled
             || db.GetGuildSettings(guildID).value.logging.channelID == "") ==> r == (false, "")
    ensures r.0 ==> db.GetGuildSettings(guildID).Ok? && r.1 == db.GetGuildSettings(guildID).value.logging.channelID && r.1 != ""
    ensures r.1 != "" ==> r.1 == db.GetGuildSettings(guildID).value.logging.channelID
    ensures r.1 != "" && !HasOwnFlag(e) ==> r.0
  {
    match db.GetGuildSettings(guildID)
    case Err(_) => (false, "")
    case Ok(settings) =>
      var logging := settings.logging;
      if !logging.enabled || logging.channelID == "" then (false, "")
      else
        match e
        case MessageEdit => (logging.messageEdits, logging.channelID)
        case MessageDelete => (logging.messageDeletes, logging.channelID)
        case MemberJoin => (logging.memberJoins, logging.channelID)
        case MemberLeave => (logging.memberLeaves, logging.channelID)
        case _ => (true, logging.channelID)
  }

  /**
   * The six channel, role, voice, moderation, server and nickname flags are
   * never consulted: two tables whose logging sections agree on the switch,
   * the channel and the four message and member flags log the same events.
   */
  lemma OtherFlagsIgnored(db1: D.Service, db2: D.Service, guildID: string, e: LogEvent)
    requires db1.GetGuildSettings(guildID).Ok? == db2.GetGuildSettings(guildID).Ok?
    requires db1.GetGuildSettings(guildID).Ok? ==>
               var l1 := db1.GetGuildSettings(guildID).value.logging;
               var l2 := db2.GetGuildSettings(guildID).value.logging;
               l1.enabled == l2.enabled && l1.channelID == l2.channelID && l1.messageEdits == l2.messageEdits
               && l1.messageDeletes == l2.messageDeletes && l1.memberJoins == l2.memberJoins && l1.memberLeaves == l2.memberLeaves
    ensures ShouldLog(db1, guildID, e) == ShouldLog(db2, guildID, e)
  {
  }

  /** A guild without a settings row logs nothing, because logging starts switched off. */
  lemma NewGuildLogsNothing(db: D.Service, guildID: string, e: LogEvent)
    requires guildID !in db.guildSettings
    ensures ShouldLog(db, guildID, e) == (false, "")
  {
  }

  /** Logged message content keeps at most this many characters. */
  const ContentLimit := 1000

  /** The cut the message handlers apply to logged content. */
  function LoggedContent(content: string): (r: string)
    ensures |r| <= ContentLimit + 3
    ensures |content| <= ContentLimit ==> r == content
    ensures |content| > ContentLimit ==> HasPrefix(r, content[..ContentLimit]) && HasSuffix(r, "...")
  {
    CutWithNote(content, ContentLimit, "...")
  }

  datatype Author = Author(id: string, bot: bool)

  /** A message update event; `before` is the cached message content, when there is one. */
  datatype MessageUpdate = MessageUpdate(guildID: string, channelID: string, id: string, author: Option<Author>,
                                         before: Option<string>, content: string)

  /** The content fields of an edit log: the old content (only when there was some) and the new content. */
  datatype EditLog = EditLog(logChannel: string, oldContent: Option<string>, newContent: string)

  /**
   * onMessageUpdate: direct messages, authorless and bot messages are
   * skipped, then the edit flag is consulted, and an edit that leaves the
   * content as it was is not logged.
   */
  function OnMessageUpdate(db: D.Service, m: MessageUpdate): (r: Option<EditLog>)
    reads db
    ensures m.guildID == "" || m.author.None? || m.author.value.bot ==> r.None?
    ensures m.before.GetOr("") == m.content ==> r.None?
    ensures r.Some? <==> m.guildID != "" && m.author.Some? && !m.author.value.bot
                         && ShouldLog(db, m.guildID, MessageEdit).0 && m.before.GetOr("") != m.content
    ensures r.Some? ==>
              r.value.logChannel == ShouldLog(db, m.guildID, MessageEdit).1
              && (r.value.oldContent.Some? <==> m.before.GetOr("") != "")
              && (r.value.oldContent.Some? ==> r.value.oldContent.value == LoggedContent(m.before.value))
              && r.value.newContent == LoggedContent(m.content)
  {
    if m.guildID == "" || m.author.None? || m.author.value.bot then None
    else
      var (log, channelID) := ShouldLog(db, m.guildID, MessageEdit);
      if !log then None
      else
        var oldContent := m.before.GetOr("");
        if oldContent == m.content then None
        else Some(EditLog(channelID, if oldContent != "" then Some(LoggedContent(oldContent)) else None, LoggedContent(m.content)))
  }

  datatype Attachment = Attachment(filename: string)
  /** The cached message a delete event may carry. */
  datatype DeletedMessage = DeletedMessage(author: Option<Author>, content: string, attachments: seq<Attachment>, embedCount: nat)
  datatype DeleteEvent = DeleteEvent(guildID: string, channelID: string, id: string, before: Option<DeletedMessage>)

  /**
   * A delete log: where it is sent, the channel the message was deleted
   * from, the message ID of the footer, and the optional fields.
   */
  datatype DeleteLog = DeleteLog(logChannel: string, channel: string, messageID: string, authorID: Option<string>,
                                 content: Option<string>, attachmentList: Option<string>, embedCount: Option<nat>)

  /** The attachment field: one "• name" line per attachment, in order. */
  method AttachmentList(atts: seq<Attachment>) returns (list: string)
    ensures list == Join(Bullets(atts), "\n")
  {
    var lines := [];
    for i := 0 to |atts|
      invariant lines == Bullets(atts[..i])
    {
      assert atts[..i + 1][..i] == atts[..i];
      lines := lines + ["• " + atts[i].filename];
    }
    assert atts[..|atts|] == atts;
    list := Join(lines, "\n");
  }

  /** The attachment lines. */
  function Bullets(atts: seq<Attachment>): (lines: seq<string>)
    ensures |lines| == |atts|
    ensures forall i :: 0 <= i < |atts| ==> lines[i] == "• " + atts[i].filename
  {
    if |atts| == 0 then [] else Bullets(atts[..|atts| - 1]) + ["• " + atts[|atts| - 1].filename]
  }

  /**
   * onMessageDelete: direct messages are skipped and the delete flag is
   * consulted; the cached message, when present, adds its human author, its
   * content (cut), its attachments and its embed count.
   */
  function OnMessageDelete(db: D.Service, m: DeleteEvent): (r: Option<DeleteLog>)
    reads db
    ensures r.Some? <==> m.guildID != "" && ShouldLog(db, m.guildID, MessageDelete).0
    ensures r.Some? ==> r.value.logChannel == ShouldLog(db, m.guildID, MessageDelete).1
    ensures r.Some? ==> r.value.channel == m.channelID && r.value.messageID == m.id
    ensures r.Some? && m.before.None? ==>
              r.value.authorID.None? && r.value.content.None? && r.value.attachmentList.None? && r.value.embedCount.None?
    ensures r.Some? && m.before.Some? ==>
              var msg := m.before.value;
              (r.value.authorID.Some? <==> msg.author.Some? && !msg.author.value.bot)
              && (r.value.authorID.Some? ==> r.value.authorID.value == msg.author.value.id)
              && (r.value.content.Some? <==> msg.content != "")
              && (r.value.content.Some? ==> r.value.content.value == LoggedContent(msg.content))
              && (r.value.attachmentList.Some? <==> |msg.attachments| > 0)
              && (r.value.attachmentList.Some? ==> r.value.attachmentList.value == Join(Bullets(msg.attachments), "\n"))
              && (r.value.embedCount.Some? <==> msg.embedCount > 0)
              && (r.value.embedCount.Some? ==> r.value.embedCount.value == msg.embedCount)
  {
    if m.guildID == "" then None
    else
      var (log, channelID) := ShouldLog(db, m.guildID, MessageDelete);
      if !log then None
      else if m.before.None? then Some(DeleteLog(channelID, m.channelID, m.id, None, None, None, None))
      else
        var msg := m.before.value;
        Some(DeleteLog(channelID, m.channelID, m.id,
                       if msg.author.Some? && !msg.author.value.bot then Some(msg.author.value.id) else None,
                       if msg.content != "" then Some(LoggedContent(msg.content)) else None,
                       if |msg.attachments| > 0 then Some(Join(Bullets(msg.attachments), "\n")) else None,
                       if msg.embedCount > 0 then Some(msg.embedCount) else None))
  }

  // ---- labels ----

  const Unknown := "❓ 不明"

  /** The discordgo channel-type numbers that have a label. */
  const LabelledTypes: set<int> := {0, 2, 4, 5, 6, 10, 11, 12, 13}

  /** getChannelTypeString: nine channel types have a label; every other type is unknown. */
  function ChannelTypeString(channelType: int): (r: string)
    ensures r == Unknown <==> channelType !in LabelledTypes
  {
    match channelType
    case 0 => "📝 テキスト"
    case 2 => "🔊 ボイス"
    case 4 => "📁 カテゴリ"
    case 5 => "📰 ニュース"
    case 6 => "🛒 ストア"
    case 10 => "🧵 ニューススレッド"
    case 11 => "🧵 パブリックスレッド"
    case 12 => "🧵 プライベートスレッド"
    case 13 => "🎤 ステージ"
    case _ => Unknown
  }

  /** getBoolString: 有効 for on, 無効 for off. */
  function BoolString(b: bool): (r: string)
    ensures r == "有効" <==> b
    ensures r == "無効" <==> !b
  {
    if b then "有効" else "無効"
  }

  // ---- change lists ----

  datatype ChangeInfo = ChangeInfo(field: string, description: string)
  datatype Channel = Channel(name: string, topic: string, nsfw: bool)
  datatype Role = Role(name: string, color: nat, hoist: bool, mentionable: bool)

  const NotSet := "未設定"
  const ChannelNameLabel := "📝 チャンネル名"
  const TopicLabel := "📜 トピック"
  const NsfwLabel := "🔞 NSFW"
  const RoleNameLabel := "📝 ロール名"
  const ColorLabel := "🎨 カラー"
  const HoistLabel := "📍 別表示"
  const MentionableLabel := "💬 メンション可能"

  /** "`before` → `after`" */
  function Arrow(before: string, after: string): string
  {
    "`" + before + "` → `" + after + "`"
  }

  /** A topic as shown: an empty one reads 未設定. */
  function ShownTopic(topic: string): (r: string)
    ensures topic != "" ==> r == topic
    ensures topic == "" ==> r == NotSet
  {
    if topic == "" then NotSet else topic
  }

  /** One entry when the field differs, none otherwise. */
  function EntryIf(differs: bool, field: string, description: string): (r: seq<ChangeInfo>)
    ensures |r| == if differs then 1 else 0
  {
    if differs then [ChangeInfo(field, description)] else []
  }

  /** The entries of a channel update: name, topic, NSFW, for the fields that differ. */
  function ChannelChanges(before: Option<Channel>, after: Channel): seq<ChangeInfo>
  {
    if before.None? then []
    else
      var b := before.value;
      EntryIf(b.name != after.name, ChannelNameLabel, Arrow(b.name, after.name))
      + EntryIf(b.topic != after.topic, TopicLabel, Arrow(ShownTopic(b.topic), ShownTopic(after.topic)))
      + EntryIf(b.nsfw != after.nsfw, NsfwLabel, Arrow(BoolString(b.nsfw), BoolString(after.nsfw)))
  }

  /** detectChannelChanges: appends one entry per differing field, in field order. */
  method DetectChannelChanges(before: Option<Channel>, after: Channel) returns (changes: seq<ChangeInfo>)
    ensures changes == ChannelChanges(before, after)
  {
    changes := [];
    if before.None? {
      return;
    }
    var b := before.value;
    if b.name != after.name {
      changes := changes + [ChangeInfo(ChannelNameLabel, Arrow(b.name, after.name))];
    }
    if b.topic != after.topic {
      var beforeTopic := b.topic;
      if beforeTopic == "" {
        beforeTopic := NotSet;
      }
      var afterTopic := after.topic;
      if afterTopic == "" {
        afterTopic := NotSet;
      }
      changes := changes + [ChangeInfo(TopicLabel, Arrow(beforeTopic, afterTopic))];
    }
    if b.nsfw != after.nsfw {
      changes := changes + [ChangeInfo(NsfwLabel, Arrow(BoolString(b.nsfw), BoolString(after.nsfw)))];
    }
  }

  /**
   * A channel update yields one entry per changed field and none for an
   * unchanged one; without the previous state there are none, so
   * onChannelUpdate logs only real changes.
   */
  lemma ChannelChangesCount(before: Option<Channel>, after: Channel)
    ensures before.None? ==> ChannelChanges(before, after) == []
    ensures before.Some? ==> (|ChannelChanges(before, after)| ==
              (if before.value.name != after.name then 1 else 0) + (if before.value.topic != after.topic then 1 else 0)
              + (if before.value.nsfw != after.nsfw then 1 else 0))
    ensures ChannelChanges(before, after) == [] <==> before.None? || before.value == after
  {
  }

  /** The entries come in field order: a name entry first, an NSFW entry last. */
  lemma ChannelChangesOrdered(b: Channel, after: Channel)
    requires b.name != after.name
    ensures ChannelChanges(Some(b), after)[0].field == ChannelNameLabel
    ensures b.nsfw != after.nsfw ==> ChannelChanges(Some(b), after)[|ChannelChanges(Some(b), after)| - 1].field == NsfwLabel
  {
  }

  const HexLowerDigits := "0123456789abcdef"

  /** The lower-case hexadecimal digits of n without leading zeros ("0" for zero). */
  function HexLower(n: nat): (r: string)
    ensures |r| >= 1
    ensures forall i :: 0 <= i < |r| ==> r[i] in HexLowerDigits
    ensures AllHex(r) && HexValue(r) == n
    decreases n
  {
    var d := HexLowerDigits[n % 16];
    assert HexDigit(d) == Some(n % 16);
    if n < 16 then [d]
    else
      var r := HexLower(n / 16) + [d];
      assert r[..|r| - 1] == HexLower(n / 16);
      r
  }

  /** fmt's %06x: the lower-case hexadecimal digits of n, zero-padded to six. */
  function Hex6(n: nat): (r: string)
    ensures |r| >= 6
    ensures |HexLower(n)| <= 6 ==> |r| == 6
    ensures forall i :: 0 <= i < |r| ==> r[i] in HexLowerDigits
    ensures AllHex(r) && HexValue(r) == n
  {
    var h := HexLower(n);
    if |h| >= 6 then h
    else
      HexValueZeros(6 - |h|, h);
      ZerosAreDigits(6 - |h|);
      Repeat("0", 6 - |h|) + h
  }

  lemma {:induction false} ZerosAreDigits(k: nat)
    ensures forall i :: 0 <= i < |Repeat("0", k)| ==> Repeat("0", k)[i] == '0'
  {
    if k > 0 {
      ZerosAreDigits(k - 1);
      assert Repeat("0", k) == "0" + Repeat("0", k - 1);
    }
  }

  /** The entries of a role update: name, colour, hoist, mentionable, for the fields that differ. */
  function RoleChanges(before: Option<Role>, after: Role): seq<ChangeInfo>
  {
    if before.None? then []
    else
      var b := before.value;
      EntryIf(b.name != after.name, RoleNameLabel, Arrow(b.name, after.name))
      + EntryIf(b.color != after.color, ColorLabel, Arrow("#" + Hex6(b.color), "#" + Hex6(after.color)))
      + EntryIf(b.hoist != after.hoist, HoistLabel, Arrow(BoolString(b.hoist), BoolString(after.hoist)))
      + EntryIf(b.mentionable != after.mentionable, MentionableLabel, Arrow(BoolString(b.mentionable), BoolString(after.mentionable)))
  }

  /** detectRoleChanges: appends one entry per differing field, in field order. */
  method DetectRoleChanges(before: Option<Role>, after: Role) returns (changes: seq<ChangeInfo>)
    ensures changes == RoleChanges(before, after)
  {
    changes := [];
    if before.None? {
      return;
    }
    var b := before.value;
    ghost var nameEntry := EntryIf(b.name != after.name, RoleNameLabel, Arrow(b.name, after.name));
    ghost var colorEntry := EntryIf(b.color != after.color, ColorLabel, Arrow("#" + Hex6(b.color), "#" + Hex6(after.color)));
    ghost var hoistEntry := EntryIf(b.hoist != after.hoist, HoistLabel, Arrow(BoolString(b.hoist), BoolString(after.hoist)));
    if b.name != after.name {
      changes := changes + [ChangeInfo(RoleNameLabel, Arrow(b.name, after.name))];
    }
    assert changes == nameEntry;
    if b.color != after.color {
      changes := changes + [ChangeInfo(ColorLabel, Arrow("#" + Hex6(b.color), "#" + Hex6(after.color)))];
    }
    assert changes == nameEntry + colorEntry;
    if b.hoist != after.hoist {
      changes := changes + [ChangeInfo(HoistLabel, Arrow(BoolString(b.hoist), BoolString(after.hoist)))];
    }
    assert changes == nameEntry + colorEntry + hoistEntry;
    if b.mentionable != after.mentionable {
      changes := changes + [ChangeInfo(MentionableLabel, Arrow(BoolString(b.mentionable), BoolString(after.mentionable)))];
    }
  }

  /** A role update yields one entry per changed field, and none when nothing changed or the previous state is unknown. */
  lemma RoleChangesCount(before: Option<Role>, after: Role)
    ensures before.None? ==> RoleChanges(before, after) == []
    ensures before.Some? ==> (|RoleChanges(before, after)| ==
              (if before.value.name != after.name then 1 else 0) + (if before.value.color != after.color then 1 else 0)
              + (if before.value.hoist != after.hoist then 1 else 0) + (if before.value.mentionable != after.mentionable then 1 else 0))
    ensures RoleChanges(before, after) == [] <==> before.None? || before.value == after
  {
  }
}
