/**
 * The DISBOARD bump tracker: recognising DISBOARD's success message,
 * recording the bump, the reminder two hours later, the reminders
 * rescheduled at start-up, and the bump settings form. Times are whole
 * seconds passed in by the caller; sending messages and sleeping are left
 * out, and what would be sent is returned.
 */
module Bump {
  import opened Wrappers
  import opened GoStrings
  import D = Database
  import I = Interactions

  const DisboardBotID := "302050872383242240"

  /** BUMP_COOLDOWN, two hours, in seconds. */
  const Cooldown := 7200

  const JapaneseSuccess := "表示順をアップしたよ"
  const EnglishSuccess := "Bump done"
  const ServerSuccess := "サーバーの表示順をアップ"

  /** The first embed of a message, reduced to what the detection reads. */
  datatype BumpEmbed = BumpEmbed(hasImage: bool, description: string)
  datatype Message = Message(authorID: string, guildID: string, channelID: string, embeds: seq<BumpEmbed>)

  /**
   * The success pattern as written: `&&` binds tighter than `||`, so the
   * image is required only together with the first phrase.
   */
  predicate IsBumpSuccess(e: BumpEmbed)
  {
    (e.hasImage && Contains(e.description, JapaneseSuccess))
    || Contains(e.description, EnglishSuccess)
    || Contains(e.description, ServerSuccess)
  }

  /** Without an image only the last two phrases count; with one, any of the three. */
  lemma ImageGuardsFirstPhraseOnly(description: string)
    ensures IsBumpSuccess(BumpEmbed(false, description)) <==>
              Contains(description, EnglishSuccess) || Contains(description, ServerSuccess)
    ensures IsBumpSuccess(BumpEmbed(true, description)) <==>
              Contains(description, JapaneseSuccess) || Contains(description, EnglishSuccess) || Contains(description, ServerSuccess)
  {
  }

  /**
   * onMessageCreate: the bot's own messages, messages from anyone but
   * DISBOARD and messages without embeds are ignored; a success pattern in
   * the first embed gives the guild and channel to record the bump for.
   */
  function OnMessageCreate(selfID: string, m: Message): (r: Option<(string, string)>)
    ensures r.Some? <==> m.authorID != selfID && m.authorID == DisboardBotID && |m.embeds| > 0 && IsBumpSuccess(m.embeds[0])
    ensures r.Some? ==> r.value == (m.guildID, m.channelID)
  {
    if m.authorID == selfID || m.authorID != DisboardBotID || |m.embeds| == 0 then None
    else if IsBumpSuccess(m.embeds[0]) then Some((m.guildID, m.channelID))
    else None
  }

  /** Only DISBOARD's messages can count as a bump. */
  lemma OnlyDisboardBumps(selfID: string, m: Message)
    requires OnMessageCreate(selfID, m).Some?
    ensures m.authorID == DisboardBotID && selfID != DisboardBotID
  {
  }

  /**
   * handleBumpSuccess: nothing happens unless the settings can be read and
   * bump is on; the bump time is then recorded, and only if that succeeds is
   * the notice sent (to the bump channel, or to the triggering channel when
   * none is set) and the reminder scheduled. `notice` is the channel the
   * notice goes to.
   */
  method HandleBumpSuccess(db: D.Service, guildID: string, channelID: string, now: int, exec: Outcome)
    returns (notice: Option<string>)
    requires db.Valid()
    modifies db
    ensures db.Valid()
    ensures var s := old(db.GetGuildSettings(guildID));
            (s.Err? || !s.value.bump.enabled) ==> notice.None? && unchanged(db)
    ensures notice.Some? <==> old(db.GetGuildSettings(guildID)).Ok? && old(db.GetGuildSettings(guildID)).value.bump.enabled && exec.Pass?
    ensures notice.Some? ==>
              var bump := old(db.GetGuildSettings(guildID)).value.bump;
              notice.value == (if bump.channelID != "" then bump.channelID else channelID)
              && guildID in old(db.guildSettings)
              && db.guildSettings == old(db.guildSettings)[guildID := D.BumpRecorded(old(db.guildSettings)[guildID], now)]
    ensures notice.None? ==> db.guildSettings == old(db.guildSettings)
    ensures db.bracketUsage == old(db.bracketUsage) && db.users == old(db.users) && db.guilds == old(db.guilds)
  {
    var settings := db.GetGuildSettings(guildID);
    if settings.Err? || !settings.value.bump.enabled {
      return None;
    }
    var err := db.UpdateBumpTime(guildID, now, exec);
    if err.Some? {
      return None;
    }
    var notifyChannel := settings.value.bump.channelID;
    if notifyChannel == "" {
      notifyChannel := channelID;
    }
    return Some(notifyChannel);
  }

  /** What a reminder sends: the channel, and the role mention ("" without a role). */
  datatype Reminder = Reminder(channelID: string, content: string)

  /**
   * scheduleBumpReminder after its sleep: skipped when the settings cannot
   * be read, bump is off or the reminder was already sent; sent, and marked
   * sent, only when a bump channel is set.
   */
  method SendBumpReminder(db: D.Service, guildID: string, markExec: Outcome) returns (sent: Option<Reminder>)
    requires db.Valid()
    modifies db
    ensures db.Valid()
    ensures var s := old(db.GetGuildSettings(guildID));
            sent.Some? <==> s.Ok? && s.value.bump.enabled && !s.value.bump.reminderSent && s.value.bump.channelID != ""
    ensures sent.Some? ==>
              var bump := old(db.GetGuildSettings(guildID)).value.bump;
              sent.value.channelID == bump.channelID
              && sent.value.content == (if bump.roleID != "" then "<@&" + bump.roleID + ">" else "")
    ensures sent.None? ==> unchanged(db)
    ensures sent.Some? && markExec.Pass? ==>
              guildID in old(db.guildSettings)
              && db.guildSettings == old(db.guildSettings)[guildID := old(db.guildSettings)[guildID].(bump := old(db.guildSettings)[guildID].bump.(reminderSent := true))]
    ensures markExec.Fail? ==> db.guildSettings == old(db.guildSettings)
    ensures db.bracketUsage == old(db.bracketUsage) && db.users == old(db.users) && db.guilds == old(db.guilds)
  {
    var settings := db.GetGuildSettings(guildID);
    if settings.Err? || !settings.value.bump.enabled {
      return None;
    }
    var bump := settings.value.bump;
    if bump.reminderSent {
      return None;
    }
    var content := "";
    if bump.roleID != "" {
      content := "<@&" + bump.roleID + ">";
    }
    if bump.channelID != "" {
      sent := Some(Reminder(bump.channelID, content));
      var _ := db.MarkBumpReminderSent(guildID, markExec);
    } else {
      sent := None;
    }
  }

  /** Once a reminder is marked sent, the next reminder for the guild is skipped. */
  lemma ReminderSentOnce(row: D.SettingsRow)
    requires D.ScanRow(row).Ok?
    ensures var marked := row.(bump := row.bump.(reminderSent := true));
            D.ScanRow(marked).Ok? && D.ScanRow(marked).value.bump.reminderSent
  {
  }

  /** A new bump clears the sent mark, so the reminder for it can be sent. */
  lemma BumpRearmsReminder(row: D.SettingsRow, now: int)
    requires D.ScanRow(row).Ok?
    ensures D.ScanRow(D.BumpRecorded(row, now)).Ok? && !D.ScanRow(D.BumpRecorded(row, now)).value.bump.reminderSent
  {
  }

  /** The delay CheckPendingReminders schedules: nothing once the cooldown has passed, the rest of it otherwise. */
  function ReminderDelay(elapsed: int): (delay: int)
    ensures delay >= 0
    ensures elapsed >= Cooldown <==> delay == 0
    ensures elapsed < Cooldown ==> delay + elapsed == Cooldown
    ensures elapsed >= 0 ==> delay <= Cooldown
  {
    if elapsed >= Cooldown then 0 else Cooldown - elapsed
  }

  /** A reminder scheduled at start-up, with its delay in seconds. */
  datatype Pending = Pending(guildID: string, delay: int)

  /** The guilds with a recorded bump whose reminder is still due, with their delays. */
  function PendingOf(guilds: seq<D.GuildSettings>, now: int): (ps: seq<Pending>)
    ensures |ps| <= |guilds|
  {
    if |guilds| == 0 then []
    else
      var g := guilds[|guilds| - 1];
      PendingOf(guilds[..|guilds| - 1], now)
      + (if g.bump.lastTime.Some? && !g.bump.reminderSent then [Pending(g.guildID, ReminderDelay(now - g.bump.lastTime.value))] else [])
  }

  /**
   * CheckPendingReminders: a failed lookup schedules nothing; otherwise one
   * reminder for each bumpable guild with a bump time and no reminder sent,
   * in order. `bumpable` is the lookup's result.
   */
  method CheckPendingReminders(bumpable: Result<seq<D.GuildSettings>>, now: int) returns (scheduled: seq<Pending>)
    ensures bumpable.Err? ==> scheduled == []
    ensures bumpable.Ok? ==> scheduled == PendingOf(bumpable.value, now)
  {
    scheduled := [];
    if bumpable.Err? {
      return;
    }
    var guilds := bumpable.value;
    for k := 0 to |guilds|
      invariant scheduled == PendingOf(guilds[..k], now)
    {
      assert guilds[..k + 1][..k] == guilds[..k];
      var g := guilds[k];
      if g.bump.lastTime.Some? && !g.bump.reminderSent {
        scheduled := scheduled + [Pending(g.guildID, ReminderDelay(now - g.bump.lastTime.value))];
      }
    }
    assert guilds[..|guilds|] == guilds;
  }

  /** Every scheduled delay lies between zero and the cooldown when no bump time is in the future. */
  lemma {:induction false} PendingDelaysBounded(guilds: seq<D.GuildSettings>, now: int)
    requires forall k :: 0 <= k < |guilds| && guilds[k].bump.lastTime.Some? ==> guilds[k].bump.lastTime.value <= now
    ensures forall p :: p in PendingOf(guilds, now) ==> 0 <= p.delay <= Cooldown
    decreases |guilds|
  {
    if |guilds| > 0 {
      PendingDelaysBounded(guilds[..|guilds| - 1], now);
    }
  }

  // ---- the settings form ----

  /** One input applied to the bump section: the channel is always taken, the role only when given, the switch from the text. */
  function ApplyBumpInput(b: D.BumpOf<string>, t: I.TextInput): D.BumpOf<string>
  {
    if t.customID == "bump_channel" then b.(channelID := t.value)
    else if t.customID == "bump_role" then (if t.value != "" then b.(roleID := t.value) else b)
    else if t.customID == "bump_enabled" then b.(enabled := ToLower(t.value) == "true")
    else b
  }

  /** The bump section after reading the inputs in order. */
  function BumpFormOf(b: D.BumpOf<string>, inputs: seq<I.TextInput>): D.BumpOf<string>
  {
    if |inputs| == 0 then b else ApplyBumpInput(BumpFormOf(b, inputs[..|inputs| - 1]), inputs[|inputs| - 1])
  }

  /**
   * The form never clears a role: an empty role field keeps the stored
   * one, and the bump time and sent mark are never touched.
   */
  lemma {:induction false} BumpFormKeeps(b: D.BumpOf<string>, inputs: seq<I.TextInput>)
    ensures b.roleID != "" ==> BumpFormOf(b, inputs).roleID != ""
    ensures BumpFormOf(b, inputs).lastTime == b.lastTime && BumpFormOf(b, inputs).reminderSent == b.reminderSent
    decreases |inputs|
  {
    if |inputs| > 0 {
      BumpFormKeeps(b, inputs[..|inputs| - 1]);
    }
  }

  /** The last channel input decides the channel, whatever came before it. */
  lemma {:induction false} LastChannelWins(b: D.BumpOf<string>, inputs: seq<I.TextInput>, k: int)
    requires 0 <= k < |inputs| && inputs[k].customID == "bump_channel"
    requires forall j :: k < j < |inputs| ==> inputs[j].customID != "bump_channel"
    ensures BumpFormOf(b, inputs).channelID == inputs[k].value
    decreases |inputs|
  {
    if k < |inputs| - 1 {
      LastChannelWins(b, inputs[..|inputs| - 1], k);
    }
  }

  /** The switch is on exactly when the last switch input reads "true" in any case. */
  lemma {:induction false} LastSwitchWins(b: D.BumpOf<string>, inputs: seq<I.TextInput>, k: int)
    requires 0 <= k < |inputs| && inputs[k].customID == "bump_enabled"
    requires forall j :: k < j < |inputs| ==> inputs[j].customID != "bump_enabled"
    ensures BumpFormOf(b, inputs).enabled <==> ToLower(inputs[k].value) == "true"
    decreases |inputs|
  {
    if k < |inputs| - 1 {
      LastSwitchWins(b, inputs[..|inputs| - 1], k);
    }
  }

  /** Reading one more input applies it. */
  lemma BumpFormStep(b: D.BumpOf<string>, inputs: seq<I.TextInput>, t: I.TextInput)
    ensures BumpFormOf(b, inputs + [t]) == ApplyBumpInput(BumpFormOf(b, inputs), t)
  {
    assert (inputs + [t])[..|inputs|] == inputs;
  }

  /** The switch on one input's custom ID. */
  method ReadBumpInput(b: D.BumpOf<string>, t: I.TextInput) returns (next: D.BumpOf<string>)
    ensures next == ApplyBumpInput(b, t)
  {
    next := b;
    if t.customID == "bump_channel" {
      next := next.(channelID := t.value);
    } else if t.customID == "bump_role" {
      if t.value != "" {
        next := next.(roleID := t.value);
      }
    } else if t.customID == "bump_enabled" {
      next := next.(enabled := ToLower(t.value) == "true");
    }
  }

  /** The loop over the form's rows and inputs. */
  method ReadBumpForm(b: D.BumpOf<string>, rows: seq<seq<I.TextInput>>) returns (next: D.BumpOf<string>)
    ensures next == BumpFormOf(b, I.Flatten(rows))
  {
    next := b;
    var i := 0;
    while i < |rows|
      invariant 0 <= i <= |rows|
      invariant next == BumpFormOf(b, I.Flatten(rows[..i]))
    {
      var row := rows[i];
      var j := 0;
      assert I.Flatten(rows[..i]) + row[..0] == I.Flatten(rows[..i]);
      while j < |row|
        invariant 0 <= j <= |row|
        invariant next == BumpFormOf(b, I.Flatten(rows[..i]) + row[..j])
      {
        BumpFormStep(b, I.Flatten(rows[..i]) + row[..j], row[j]);
        assert I.Flatten(rows[..i]) + row[..j + 1] == I.Flatten(rows[..i]) + row[..j] + [row[j]];
        next := ReadBumpInput(next, row[j]);
        j := j + 1;
      }
      assert row[..j] == row;
      I.FlattenStep(rows, i);
      i := i + 1;
    }
    assert rows[..i] == rows;
  }

  datatype SubmitReply = ReadFailed | SaveFailed | Saved(settings: D.GuildSettings)

  /**
   * handleBumpSettingsSubmit: a failed read stops before anything is
   * written; otherwise the form is merged into the bump section and the
   * whole settings row is saved.
   */
  method BumpSettingsSubmit(db: D.Service, guildID: string, rows: seq<seq<I.TextInput>>, exec: Outcome)
    returns (reply: SubmitReply)
    requires db.Valid()
    modifies db
    ensures db.Valid()
    ensures old(db.GetGuildSettings(guildID)).Err? <==> reply == ReadFailed
    ensures reply == ReadFailed ==> unchanged(db)
    ensures reply.SaveFailed? <==> old(db.GetGuildSettings(guildID)).Ok? && exec.Fail?
    ensures reply.SaveFailed? ==> db.guildSettings == old(db.guildSettings)
    ensures reply.Saved? ==>
              var s := old(db.GetGuildSettings(guildID)).value;
              reply.settings == s.(bump := BumpFormOf(s.bump, I.Flatten(rows)))
              && db.guildSettings == old(db.guildSettings)[reply.settings.guildID := D.ToRow(reply.settings)]
    ensures db.bracketUsage == old(db.bracketUsage) && db.users == old(db.users) && db.guilds == old(db.guilds)
  {
    var current := db.GetGuildSettings(guildID);
    if current.Err? {
      return ReadFailed;
    }
    var settings := current.value;
    var bump := ReadBumpForm(settings.bump, rows);
    settings := settings.(bump := bump);
    var err := db.UpsertGuildSettings(settings, exec);
    if err.Some? {
      return SaveFailed;
    }
    return Saved(settings);
  }
}
