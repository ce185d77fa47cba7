/**
 * The interaction handler: routing of button presses and modal submits to
 * their handlers, the colour parser of the embed editor, the feature names
 * of the reset menu, and the ticket and logging setup modals. Discord
 * lookups the handlers make are inputs.
 */
module Interactions {
  import opened Wrappers
  import opened GoStrings
  import D = Database
  import Embed

  /** The handler a component custom ID is sent to. */
  datatype Route =
    | TicketSetupStart | ModerationSetup | WelcomeSetup | LoggingSetup | BumpConfig | ViewAllSettings | ResetMenu
    | TicketPanelSetup | TicketSetupDone | TicketCreate | SetupCancel
    | EmbedCustomCreate | EmbedTemplateMenu | EmbedEditRequest | EmbedHelp | EmbedColorGuide
    | EmbedTemplateSelect | TemplateEdit | TemplateDelete
    | ResetConfirm(feature: string) | ResetCancel
    | TicketSetupStep | TicketClose | TicketTranscript | TicketCloseConfirm(channelID: string) | TicketCloseCancel
    | Unsupported(message: string)

  const UnsupportedLead := "❌ 未対応のインタラクション: "

  /** The configuration menu's buttons. */
  function ConfigMenuRoute(id: string): Option<Route>
  {
    if id == "config_main_tickets" then Some(TicketSetupStart)
    else if id == "config_main_moderation" then Some(ModerationSetup)
    else if id == "config_main_welcome" then Some(WelcomeSetup)
    else if id == "config_main_logging" then Some(LoggingSetup)
    else if id == "config_main_bump" then Some(BumpConfig)
    else if id == "config_main_view" then Some(ViewAllSettings)
    else if id == "config_main_reset" then Some(ResetMenu)
    else None
  }

  /** The ticket setup wizard's buttons. */
  function SetupRoute(id: string): Option<Route>
  {
    if id == "ticket_setup_start" then Some(TicketSetupStart)
    else if id == "ticket_setup_panel" then Some(TicketPanelSetup)
    else if id == "ticket_setup_done" then Some(TicketSetupDone)
    else if id == "ticket_create" then Some(TicketCreate)
    else if id == "setup_cancel" then Some(SetupCancel)
    else None
  }

  /** The embed builder's menu buttons. */
  function EmbedMenuRoute(id: string): Option<Route>
  {
    if id == "embed_main_custom" then Some(EmbedCustomCreate)
    else if id == "embed_main_template" then Some(EmbedTemplateMenu)
    else if id == "embed_main_edit" then Some(EmbedEditRequest)
    else if id == "embed_main_help" then Some(EmbedHelp)
    else if id == "embed_main_colors" then Some(EmbedColorGuide)
    else None
  }

  /** The buttons of the ticket-close flow. */
  predicate IsCloseFlow(r: Route)
  {
    r.TicketClose? || r.TicketCloseConfirm? || r.TicketCloseCancel?
  }

  /** The exact IDs of the menus, in source order, tested before any prefix; none opens the close flow. */
  function MenuRoute(id: string): (r: Option<Route>)
    ensures r.Some? ==> !IsCloseFlow(r.value)
  {
    if ConfigMenuRoute(id).Some? then ConfigMenuRoute(id)
    else if SetupRoute(id).Some? then SetupRoute(id)
    else EmbedMenuRoute(id)
  }

  /** The embed-builder and reset cases, in source order after the menus. */
  function BuilderRoute(id: string): (r: Option<Route>)
    ensures r.Some? ==> !IsCloseFlow(r.value)
  {
    if HasPrefix(id, "embed_template_") then Some(EmbedTemplateSelect)
    else if HasPrefix(id, "template_edit_") then Some(TemplateEdit)
    else if id == "template_delete" then Some(TemplateDelete)
    else if HasPrefix(id, "config_reset_confirm_") then Some(ResetConfirm(TrimPrefix(id, "config_reset_confirm_")))
    else if id == "config_reset_cancel" then Some(ResetCancel)
    else None
  }

  /**
   * HandleComponentInteraction as written: the first matching case in
   * source order. The "ticket_close_" prefix is tested before
   * "ticket_close_confirm_" and "ticket_close_cancel".
   */
  function RouteComponentAsWritten(id: string): (r: Route)
    ensures r.Unsupported? ==> r.message == UnsupportedLead + id
  {
    if MenuRoute(id).Some? then MenuRoute(id).value
    else if BuilderRoute(id).Some? then BuilderRoute(id).value
    else if HasPrefix(id, "ticket_setup_") then TicketSetupStep
    else if HasPrefix(id, "ticket_close_") then TicketClose
    else if HasPrefix(id, "ticket_transcript_") then TicketTranscript
    else if HasPrefix(id, "ticket_close_confirm_") then TicketCloseConfirm(TrimPrefix(id, "ticket_close_confirm_"))
    else if id == "ticket_close_cancel" then TicketCloseCancel
    else Unsupported(UnsupportedLead + id)
  }

  /** A string that starts with a longer prefix starts with each prefix of it. */
  lemma PrefixOfPrefix(s: string, longer: string, shorter: string)
    requires HasPrefix(s, longer) && HasPrefix(longer, shorter)
    ensures HasPrefix(s, shorter)
  {
    assert s[..|shorter|] == longer[..|shorter|];
  }

  /** An ID starting "ti" is none of the configuration menu's buttons. */
  lemma TicketIdsSkipConfigMenu(id: string)
    requires |id| > 1 && id[0] == 't' && id[1] == 'i'
    ensures ConfigMenuRoute(id).None?
  {
  }

  /** An ID starting "ti" is none of the embed menu's buttons. */
  lemma TicketIdsSkipEmbedMenu(id: string)
    requires |id| > 1 && id[0] == 't' && id[1] == 'i'
    ensures EmbedMenuRoute(id).None?
  {
  }

  /** An ID starting "ti" is none of the builder and reset cases. */
  lemma TicketIdsSkipBuilder(id: string)
    requires |id| > 1 && id[0] == 't' && id[1] == 'i'
    ensures BuilderRoute(id).None?
  {
    assert !HasPrefix(id, "template_edit_") by { assert "template_edit_"[1] == 'e'; }
  }

  /** An ID starting "ti" is none of the configuration, embed-menu or builder cases. */
  lemma TicketIdsSkipOtherMenus(id: string)
    requires |id| > 1 && id[0] == 't' && id[1] == 'i'
    ensures ConfigMenuRoute(id).None? && EmbedMenuRoute(id).None? && BuilderRoute(id).None?
  {
    TicketIdsSkipConfigMenu(id);
    TicketIdsSkipEmbedMenu(id);
    TicketIdsSkipBuilder(id);
  }

  /** No menu or builder case takes an ID that starts with "ticket_close_". */
  lemma CloseIdsPassEarlierCases(id: string)
    requires HasPrefix(id, "ticket_close_")
    ensures MenuRoute(id).None? && BuilderRoute(id).None? && !HasPrefix(id, "ticket_setup_")
  {
    assert id[..13] == "ticket_close_";
    assert id[0] == 't' && id[1] == 'i' && id[7] == 'c' && id[8] == 'l';
    TicketIdsSkipOtherMenus(id);
  }

  /**
   * The close-confirmation buttons never reach their handlers: the confirm
   * button's ID and the cancel button's ID both route back to
   * handleTicketClose, which shows the confirmation again.
   */
  lemma CloseButtonsShadowed(channelID: string)
    ensures RouteComponentAsWritten("ticket_close_confirm_" + channelID) == TicketClose
    ensures RouteComponentAsWritten("ticket_close_cancel") == TicketClose
  {
    var confirm := "ticket_close_confirm_" + channelID;
    assert confirm[..21] == "ticket_close_confirm_";
    PrefixOfPrefix(confirm, "ticket_close_confirm_", "ticket_close_");
    CloseIdsPassEarlierCases(confirm);
    assert "ticket_close_cancel"[..13] == "ticket_close_";
    CloseIdsPassEarlierCases("ticket_close_cancel");
  }

  /** As written, no custom ID at all reaches handleTicketCloseConfirm or handleTicketCloseCancel. */
  lemma CloseHandlersUnreachable(id: string)
    ensures !RouteComponentAsWritten(id).TicketCloseConfirm? && !RouteComponentAsWritten(id).TicketCloseCancel?
  {
    if HasPrefix(id, "ticket_close_confirm_") {
      PrefixOfPrefix(id, "ticket_close_confirm_", "ticket_close_");
    } else if id == "ticket_close_cancel" {
      assert id[..13] == "ticket_close_";
    }
  }

  /** The routing as intended: the two close-confirmation cases are tested before the "ticket_close_" prefix. */
  function RouteComponent(id: string): (r: Route)
    ensures r.Unsupported? ==> r.message == UnsupportedLead + id
  {
    if MenuRoute(id).Some? then MenuRoute(id).value
    else if BuilderRoute(id).Some? then BuilderRoute(id).value
    else if HasPrefix(id, "ticket_setup_") then TicketSetupStep
    else if HasPrefix(id, "ticket_close_confirm_") then TicketCloseConfirm(TrimPrefix(id, "ticket_close_confirm_"))
    else if id == "ticket_close_cancel" then TicketCloseCancel
    else if HasPrefix(id, "ticket_close_") then TicketClose
    else if HasPrefix(id, "ticket_transcript_") then TicketTranscript
    else Unsupported(UnsupportedLead + id)
  }

  /** Corrected, the two buttons reach their handlers, and the confirm handler gets the channel ID back. */
  lemma CloseButtonsRouted(channelID: string)
    ensures RouteComponent("ticket_close_confirm_" + channelID) == TicketCloseConfirm(channelID)
    ensures RouteComponent("ticket_close_cancel") == TicketCloseCancel
  {
    var confirm := "ticket_close_confirm_" + channelID;
    assert confirm[..21] == "ticket_close_confirm_";
    PrefixOfPrefix(confirm, "ticket_close_confirm_", "ticket_close_");
    CloseIdsPassEarlierCases(confirm);
    assert confirm[21..] == channelID;
    assert "ticket_close_cancel"[..13] == "ticket_close_";
    CloseIdsPassEarlierCases("ticket_close_cancel");
  }

  /** The correction changes the route of no other ID. */
  lemma CorrectionIsLocal(id: string)
    requires !HasPrefix(id, "ticket_close_confirm_") && id != "ticket_close_cancel"
    ensures RouteComponent(id) == RouteComponentAsWritten(id)
  {
  }

  /** The three exact ticket-setup IDs are matched before the "ticket_setup_" prefix; any other such ID is a setup step. */
  lemma SetupExactBeforePrefix(id: string)
    requires HasPrefix(id, "ticket_setup_")
    ensures id == "ticket_setup_start" ==> RouteComponent(id) == TicketSetupStart
    ensures id == "ticket_setup_panel" ==> RouteComponent(id) == TicketPanelSetup
    ensures id == "ticket_setup_done" ==> RouteComponent(id) == TicketSetupDone
    ensures id !in ["ticket_setup_start", "ticket_setup_panel", "ticket_setup_done"] ==> RouteComponent(id) == TicketSetupStep
  {
    assert id[..13] == "ticket_setup_";
    assert id[0] == 't' && id[1] == 'i' && id[7] == 's';
    TicketIdsSkipOtherMenus(id);
  }

  /** The handler a modal custom ID is sent to; `None` is an ID HandleModalSubmit ignores. */
  datatype ModalRoute =
    | TicketSetupModal | TicketCreateModal | LoggingSetupModal | EmbedCreateModal | EmbedEditModal
    | TemplateEditModal | EmbedEditRequestModal | BumpSettingsModal

  /** HandleModalSubmit: the first matching case in source order, nothing for an unmatched ID. */
  function RouteModal(id: string): Option<ModalRoute>
  {
    if id == "ticket_setup_modal" then Some(TicketSetupModal)
    else if id == "ticket_create_modal" then Some(TicketCreateModal)
    else if id == "logging_setup_modal" then Some(LoggingSetupModal)
    else if id == "embed_create_modal" then Some(EmbedCreateModal)
    else if HasPrefix(id, "embed_edit_modal_") then Some(EmbedEditModal)
    else if HasPrefix(id, "template_edit_modal_") then Some(TemplateEditModal)
    else if id == "embed_edit_request_modal" then Some(EmbedEditRequestModal)
    else if id == "modal_bump_settings" then Some(BumpSettingsModal)
    else None
  }

  /** Only component interactions are routed; every other kind is ignored. */
  function HandleComponentInteraction(isComponent: bool, id: string): (r: Option<Route>)
    ensures r.Some? <==> isComponent
    ensures r.Some? ==> r.value == RouteComponent(id)
  {
    if isComponent then Some(RouteComponent(id)) else None
  }

  /** getFeatureName: five feature keys have a display name; any other key is shown as given. */
  function FeatureName(feature: string): (r: string)
    ensures r != feature <==> D.IsResetFeature(feature)
  {
    match feature
    case "tickets" => "🎫 Ticket System"
    case "moderation" => "🛡️ Moderation"
    case "welcome" => "👋 Welcome System"
    case "logging" => "📝 Logging"
    case "all" => "🔄 All Settings"
    case _ => feature
  }

  /** The part of a message embed the edit modals prefill from. */
  datatype EmbedFooter = EmbedFooter(text: string)
  datatype EmbedImage = EmbedImage(url: string)
  datatype EditedEmbed = EditedEmbed(footer: Option<EmbedFooter>, image: Option<EmbedImage>)

  /** getFooterText: the footer's text, or "" without a footer. */
  function FooterText(e: EditedEmbed): (r: string)
    ensures e.footer.None? ==> r == ""
    ensures e.footer.Some? ==> r == e.footer.value.text
  {
    if e.footer.Some? then e.footer.value.text else ""
  }

  /** getImageURL: the image's URL, or "" without an image. */
  function ImageURL(e: EditedEmbed): (r: string)
    ensures e.image.None? ==> r == ""
    ensures e.image.Some? ==> r == e.image.value.url
  {
    if e.image.Some? then e.image.value.url else ""
  }

  // ---- parseColor ----

  const Int32Bound := 0x8000_0000

  /**
   * strconv.ParseInt(s, 16, 32): an optional sign, then one or more
   * hexadecimal digits (no "0x" prefix, no underscores), within the 32-bit
   * signed range.
   */
  function ParseHexInt32(s: string): (r: Option<int>)
    ensures r.Some? ==> -Int32Bound <= r.value < Int32Bound
  {
    var neg := |s| > 0 && s[0] == '-';
    var digits := if |s| > 0 && (s[0] == '+' || s[0] == '-') then s[1..] else s;
    if |digits| == 0 || !AllHex(digits) then None
    else
      var v := HexValue(digits);
      if neg && v <= Int32Bound then Some(-(v as int))
      else if !neg && v < Int32Bound then Some(v)
      else None
  }

  /** What parseColor returns: the colour, and whether the parse failed. */
  datatype ParsedColor = ParsedColor(color: int, failed: bool)

  /** parseColor's first step after trimming: one leading "#" goes. */
  function StripHash(t: string): string
  {
    if HasPrefix(t, "#") then t[1..] else t
  }

  /** parseColor's second step: a leading "0x" in either case goes. */
  function StripHexMark(u: string): string
  {
    if HasPrefix(ToLower(u), "0x") then u[2..] else u
  }

  /** The string parseColor hands to the number parser. */
  function ColorDigits(colorStr: string): string
  {
    StripHexMark(StripHash(TrimSpace(colorStr)))
  }

  /**
   * parseColor: trims white space, drops one leading "#", then a leading
   * "0x" in either case, and parses the rest as a 32-bit hexadecimal
   * number; a failure gives the primary colour.
   */
  function ParseColor(colorStr: string): (r: ParsedColor)
    ensures r.failed <==> ParseHexInt32(ColorDigits(colorStr)).None?
    ensures r.failed ==> r.color == Embed.Primary
    ensures !r.failed ==> r.color == ParseHexInt32(ColorDigits(colorStr)).value && -Int32Bound <= r.color < Int32Bound
  {
    match ParseHexInt32(ColorDigits(colorStr))
    case None => ParsedColor(Embed.Primary, true)
    case Some(v) => ParsedColor(v, false)
  }

  /** The hexadecimal digits of a number, upper case, without leading zeros. */
  function ToHex(n: nat): (r: string)
    ensures |r| >= 1 && AllHex(r)
    decreases n
  {
    var d := "0123456789ABCDEF"[n % 16];
    assert HexDigit(d).Some?;
    if n < 16 then [d] else ToHex(n / 16) + [d]
  }

  /** Reading back the digits ToHex writes gives the number. */
  lemma {:induction false} HexValueOfToHex(n: nat)
    ensures HexValue(ToHex(n)) == n
    decreases n
  {
    var r := ToHex(n);
    var d := "0123456789ABCDEF"[n % 16];
    assert HexDigit(d) == Some(n % 16);
    if n >= 16 {
      HexValueOfToHex(n / 16);
      assert r[..|r| - 1] == ToHex(n / 16);
    }
  }

  /** No hexadecimal digit is white space, a sign, "#" or "x". */
  lemma HexDigitIsPlain(c: char)
    requires HexDigit(c).Some?
    ensures !IsSpace(c) && c != '+' && c != '-' && c != '#' && c != 'x' && c != 'X' && LowerChar(c) != 'x'
  {
  }

  /** Neither stripping step touches a string of digits. */
  lemma DigitsUnmarked(h: string)
    requires |h| >= 1 && AllHex(h)
    ensures StripHash(h) == h && StripHexMark(h) == h
  {
    HexDigitIsPlain(h[0]);
    if |h| >= 2 {
      HexDigitIsPlain(h[1]);
      assert !HasPrefix(ToLower(h), "0x") by {
        assert ToLower(h)[..2][1] == LowerChar(h[1]);
      }
    }
  }

  /** Bare digits reach the number parser untouched. */
  lemma BareDigitsReachParser(h: string)
    requires |h| >= 1 && AllHex(h)
    ensures ColorDigits(h) == h
  {
    HexDigitIsPlain(h[0]);
    HexDigitIsPlain(h[|h| - 1]);
    TrimSpaceKeeps(h);
    DigitsUnmarked(h);
  }

  /** Digits behind "#" reach the number parser without it. */
  lemma HashedDigitsReachParser(h: string)
    requires |h| >= 1 && AllHex(h)
    ensures ColorDigits("#" + h) == h
  {
    var hashed := "#" + h;
    HexDigitIsPlain(h[|h| - 1]);
    assert hashed[0] == '#' && hashed[|hashed| - 1] == h[|h| - 1];
    TrimSpaceKeeps(hashed);
    assert hashed[..1] == "#" && hashed[1..] == h;
    DigitsUnmarked(h);
  }

  /** Digits behind "0x" reach the number parser without it. */
  lemma PrefixedDigitsReachParser(h: string)
    requires |h| >= 1 && AllHex(h)
    ensures ColorDigits("0x" + h) == h
  {
    var prefixed := "0x" + h;
    HexDigitIsPlain(h[|h| - 1]);
    assert prefixed[0] == '0' && prefixed[|prefixed| - 1] == h[|h| - 1];
    TrimSpaceKeeps(prefixed);
    assert StripHash(prefixed) == prefixed by {
      assert prefixed[..1][0] == '0';
    }
    assert ToLower(prefixed)[..2] == "0x";
    assert prefixed[2..] == h;
  }

  /** Unsigned digits within the 32-bit range are parsed to their value. */
  lemma ParseHexOfDigits(h: string)
    requires |h| >= 1 && AllHex(h) && HexValue(h) < Int32Bound
    ensures ParseHexInt32(h) == Some(HexValue(h) as int)
  {
    HexDigitIsPlain(h[0]);
  }

  /** Every colour in the 32-bit range written in hexadecimal parses back, with "#", with "0x" or bare. */
  lemma ParseColorRoundTrip(n: nat)
    requires n < Int32Bound
    ensures ParseColor("#" + ToHex(n)) == ParsedColor(n, false)
    ensures ParseColor("0x" + ToHex(n)) == ParsedColor(n, false)
    ensures ParseColor(ToHex(n)) == ParsedColor(n, false)
  {
    var h := ToHex(n);
    BareDigitsReachParser(h);
    HashedDigitsReachParser(h);
    PrefixedDigitsReachParser(h);
    HexValueOfToHex(n);
    ParseHexOfDigits(h);
  }

  // ---- the template-edit modal ID ----

  /** A string without the separator is split into itself. */
  lemma {:induction false} SplitWithoutSep(s: string, sep: char)
    requires sep !in s
    ensures Split(s, sep) == [s]
    decreases |s|
  {
    if |s| > 0 {
      SplitWithoutSep(s[1..], sep);
      assert [s[0]] + s[1..] == s;
    }
  }

  /** A leading piece without the separator, then the separator, splits off as one part. */
  lemma {:induction false} SplitAfterPiece(a: string, b: string, sep: char)
    requires sep !in a
    ensures Split(a + [sep] + b, sep) == [a] + Split(b, sep)
    decreases |a|
  {
    var s := a + [sep] + b;
    if |a| == 0 {
      assert s[1..] == b;
    } else {
      assert s[1..] == a[1..] + [sep] + b;
      SplitAfterPiece(a[1..], b, sep);
      assert [a[0]] + a[1..] == a;
    }
  }

  /**
   * handleTemplateEditModal's ID check: the custom ID must split on "_" into
   * at least five parts, and the message ID is the last part.
   */
  function TemplateMessageID(customID: string): (r: Option<string>)
    ensures r.Some? <==> CountChar(customID, '_') >= 4
    ensures r.Some? ==> r.value == Split(customID, '_')[|Split(customID, '_')| - 1] && '_' !in r.value
  {
    var parts := Split(customID, '_');
    SplitCount(customID, '_');
    if |parts| < 5 then None else Some(parts[|parts| - 1])
  }

  /**
   * A modal ID built as "template_edit_modal_<template type>_<message>" gives
   * the message ID back when neither piece holds "_".
   */
  lemma TemplateMessageIDOf(templateType: string, messageID: string)
    requires '_' !in templateType && '_' !in messageID
    ensures TemplateMessageID("template_edit_modal_" + templateType + "_" + messageID) == Some(messageID)
  {
    TemplateSplit(templateType, messageID);
  }

  /** The pieces of a template-edit modal ID. */
  lemma TemplateSplit(templateType: string, messageID: string)
    requires '_' !in templateType && '_' !in messageID
    ensures Split("template_edit_modal_" + templateType + "_" + messageID, '_') == ["template", "edit", "modal", templateType, messageID]
  {
    TemplateWords();
    TemplatePrefix(templateType, messageID);
    SplitFive("template", "edit", "modal", templateType, messageID);
  }

  /** Five pieces without "_", joined by "_", split back into the five. */
  lemma SplitFive(a: string, b: string, c: string, d: string, e: string)
    requires '_' !in a && '_' !in b && '_' !in c && '_' !in d && '_' !in e
    ensures Split(a + "_" + (b + "_" + (c + "_" + (d + "_" + e))), '_') == [a, b, c, d, e]
  {
    SplitWithoutSep(e, '_');
    SplitAfterPiece(d, e, '_');
    SplitAfterPiece(c, d + "_" + e, '_');
    SplitAfterPiece(b, c + "_" + (d + "_" + e), '_');
    SplitAfterPiece(a, b + "_" + (c + "_" + (d + "_" + e)), '_');
  }

  /** The words of the template-edit prefix hold no "_". */
  lemma TemplateWords()
    ensures '_' !in "template" && '_' !in "edit" && '_' !in "modal"
  {
    assert forall k :: 0 <= k < |"template"| ==> "template"[k] != '_';
  }

  /** The template-edit prefix is its three words, each followed by "_". */
  lemma TemplatePrefix(templateType: string, messageID: string)
    ensures "template_edit_modal_" + templateType + "_" + messageID
            == "template" + "_" + ("edit" + "_" + ("modal" + "_" + (templateType + "_" + messageID)))
  {
    assert "template_edit_modal_" == "template" + "_" + "edit" + "_" + "modal" + "_";
  }

  /** The template types the embed template menu offers. */
  const TemplateTypes: set<string> := {"announcement", "rules", "faq", "event", "warning"}

  /** The edit modal of every offered template gives the message ID back. */
  lemma TemplateTypeMessageID(templateType: string, messageID: string)
    requires templateType in TemplateTypes && '_' !in messageID
    ensures TemplateMessageID("template_edit_modal_" + templateType + "_" + messageID) == Some(messageID)
  {
    assert forall k :: 0 <= k < |templateType| ==> templateType[k] != '_';
    TemplateMessageIDOf(templateType, messageID);
  }

  /** The template-edit modal built for a message is routed to its handler, which reads the message ID back. */
  lemma TemplateModalRouted(templateType: string, messageID: string)
    requires '_' !in templateType && '_' !in messageID
    ensures RouteModal("template_edit_modal_" + templateType + "_" + messageID) == Some(TemplateEditModal)
  {
    var id := "template_edit_modal_" + templateType + "_" + messageID;
    assert id[..20] == "template_edit_modal_";
    assert id[0] == 't' && id[9] == 'e' && id[14] == 'm';
  }

  // ---- the setup modals ----

  datatype TextInput = TextInput(customID: string, value: string)

  /**
   * fmt.Sscanf(value, "%d", &n): blanks are skipped but a newline is an
   * error; then an optional sign and the decimal digits up to the first
   * other character, of which there must be at least one; the rest is not
   * read.
   */
  function ScanDecimal(value: string): (r: Option<int>)
    ensures r.Some? <==> SkipBlanks(value).Some? && StartsNumber(SkipBlanks(value).value)
    ensures r.Some? && r.value < 0 ==> SkipBlanks(value).value[0] == '-'
    ensures value == "" ==> r.None?
  {
    var blanked := SkipBlanks(value);
    if blanked.None? then None else ScanSigned(blanked.value)
  }

  /** A digit, or a sign followed by a digit. */
  predicate StartsNumber(t: string)
  {
    (|t| > 0 && '0' <= t[0] <= '9') || (|t| > 1 && (t[0] == '+' || t[0] == '-') && '0' <= t[1] <= '9')
  }

  /** The sign and the digits after the blanks. */
  function ScanSigned(t: string): Option<int>
  {
    var neg := |t| > 0 && t[0] == '-';
    var body := if |t| > 0 && (t[0] == '+' || t[0] == '-') then t[1..] else t;
    var v := ScanDigitRun(body);
    if v.None? then None else Some(if neg then -(v.value as int) else v.value)
  }

  /** The value of the digits a string starts with; none when it starts with no digit. */
  function ScanDigitRun(body: string): Option<nat>
  {
    var n := LeadingDigits(body);
    if n == 0 then None else Some(DigitsValue(body[..n]))
  }

  /** The blanks the scanner skips before a number; meeting a newline first is an error. */
  function SkipBlanks(s: string): (r: Option<string>)
    ensures r.Some? ==> |r.value| <= |s| && r.value == s[|s| - |r.value|..]
    ensures r.Some? && |r.value| > 0 ==> !IsSpace(r.value[0])
    decreases |s|
  {
    if |s| == 0 then Some(s)
    else if s[0] == '\n' then None
    else if IsSpace(s[0]) then SkipBlanks(s[1..])
    else Some(s)
  }

  /** Skipping fails exactly when a newline comes before anything that is not a blank. */
  lemma {:induction false} SkipBlanksFails(s: string)
    ensures SkipBlanks(s).None? <==> exists i :: 0 <= i < |s| && s[i] == '\n' && forall j :: 0 <= j < i ==> IsSpace(s[j])
    decreases |s|
  {
    if |s| > 0 && s[0] != '\n' && IsSpace(s[0]) {
      SkipBlanksFails(s[1..]);
      if SkipBlanks(s).None? {
        var i :| 0 <= i < |s[1..]| && s[1..][i] == '\n' && forall j :: 0 <= j < i ==> IsSpace(s[1..][j]);
        assert forall j :: 0 <= j < i + 1 ==> IsSpace(s[j]) by {
          assert forall j :: 1 <= j < i + 1 ==> s[j] == s[1..][j - 1];
        }
        assert s[i + 1] == '\n';
      } else {
        forall i | 0 <= i < |s| && s[i] == '\n'
          ensures exists j :: 0 <= j < i && !IsSpace(s[j])
        {
          assert i != 0;
          assert s[1..][i - 1] == '\n';
          var k :| 0 <= k < i - 1 && !IsSpace(s[1..][k]);
          assert s[k + 1] == s[1..][k];
        }
      }
    }
  }

  /**
   * Scanning back what strconv.Itoa writes gives the number, whatever
   * follows it that does not start with a digit ("1_2" reads as 1).
   */
  lemma ScanDecimalOfItoa(n: int, rest: string)
    requires |rest| > 0 ==> !('0' <= rest[0] <= '9')
    ensures ScanDecimal(IntToDecimal(n) + rest) == Some(n)
  {
    if n < 0 {
      var m: nat := -n;
      var d := NatToDecimal(m);
      assert IntToDecimal(n) == "-" + d;
      assert IntToDecimal(n) + rest == "-" + (d + rest);
      ScanNegativeOfItoa(m, rest);
    } else {
      assert IntToDecimal(n) == NatToDecimal(n);
      ScanNaturalOfItoa(n, rest);
    }
  }

  lemma ScanNegativeOfItoa(m: nat, rest: string)
    requires m > 0
    requires |rest| > 0 ==> !('0' <= rest[0] <= '9')
    ensures ScanDecimal("-" + (NatToDecimal(m) + rest)) == Some(-(m as int))
  {
    ScanDecimalIsSigned("-" + (NatToDecimal(m) + rest));
    ScanSignedNegative(m, rest);
  }

  lemma ScanNaturalOfItoa(m: nat, rest: string)
    requires |rest| > 0 ==> !('0' <= rest[0] <= '9')
    ensures ScanDecimal(NatToDecimal(m) + rest) == Some(m)
  {
    var s := NatToDecimal(m) + rest;
    assert '0' <= s[0] <= '9';
    ScanDecimalIsSigned(s);
    ScanSignedDigits(m, rest);
  }

  /** "%d" reads no underscore: "1_2" scans as 1, the rest unread. */
  lemma ScanStopsAtUnderscore()
    ensures ScanDecimal("1_2") == Some(1)
  {
    assert IntToDecimal(1) == "1";
    assert "1_2" == IntToDecimal(1) + "_2";
    ScanDecimalOfItoa(1, "_2");
  }

  /** A string that starts with neither a blank nor a newline is scanned from its first character. */
  lemma ScanDecimalIsSigned(s: string)
    requires |s| > 0 && !IsSpace(s[0])
    ensures ScanDecimal(s) == ScanSigned(s)
  {
    assert SkipBlanks(s) == Some(s);
  }

  lemma ScanSignedDigits(m: nat, rest: string)
    requires |rest| > 0 ==> !('0' <= rest[0] <= '9')
    ensures ScanSigned(NatToDecimal(m) + rest) == Some(m)
  {
    var t := NatToDecimal(m) + rest;
    assert t[0] == NatToDecimal(m)[0];
    ScanDigitRunOfItoa(m, rest);
  }

  lemma ScanSignedNegative(m: nat, rest: string)
    requires m > 0
    requires |rest| > 0 ==> !('0' <= rest[0] <= '9')
    ensures ScanSigned("-" + (NatToDecimal(m) + rest)) == Some(-(m as int))
  {
    var t := "-" + (NatToDecimal(m) + rest);
    assert t[0] == '-';
    assert t[1..] == NatToDecimal(m) + rest;
    ScanDigitRunOfItoa(m, rest);
  }

  lemma ScanDigitRunOfItoa(m: nat, rest: string)
    requires |rest| > 0 ==> !('0' <= rest[0] <= '9')
    ensures ScanDigitRun(NatToDecimal(m) + rest) == Some(m)
  {
    ScanDigits(NatToDecimal(m), rest);
    DigitsValueOfDecimal(m);
  }

  lemma ScanDigits(d: string, rest: string)
    requires |d| > 0 && forall i :: 0 <= i < |d| ==> '0' <= d[i] <= '9'
    requires |rest| > 0 ==> !('0' <= rest[0] <= '9')
    ensures LeadingDigits(d + rest) == |d| && (d + rest)[..|d|] == d
  {
    LeadingDigitsOf(d, rest);
  }

  lemma {:induction false} LeadingDigitsOf(d: string, rest: string)
    requires forall i :: 0 <= i < |d| ==> '0' <= d[i] <= '9'
    requires |rest| > 0 ==> !('0' <= rest[0] <= '9')
    ensures LeadingDigits(d + rest) == |d|
    decreases |d|
  {
    if |d| > 0 {
      assert (d + rest)[1..] == d[1..] + rest;
      LeadingDigitsOf(d[1..], rest);
    } else {
      assert d + rest == rest;
    }
  }

  /** The length of the run of decimal digits `s` starts with: the scanner stops at the first other character. */
  function LeadingDigits(s: string): (n: nat)
    ensures n <= |s| && forall i :: 0 <= i < n ==> '0' <= s[i] <= '9'
    ensures n < |s| ==> !('0' <= s[n] <= '9')
    decreases |s|
  {
    if |s| > 0 && '0' <= s[0] <= '9' then 1 + LeadingDigits(s[1..]) else 0
  }


  /** The fields the ticket setup modal reads; auto-close starts at 24 hours. */
  datatype TicketForm = TicketForm(categoryID: string, supportRoleID: string, adminRoleID: string, logChannelID: string, autoCloseHours: int)

  /** One text input applied to the form: a later input with the same ID overrides an earlier one. */
  function ApplyTicketInput(f: TicketForm, t: TextInput): TicketForm
  {
    if t.customID == "ticket_category" then f.(categoryID := t.value)
    else if t.customID == "support_role" then f.(supportRoleID := t.value)
    else if t.customID == "admin_role" then f.(adminRoleID := t.value)
    else if t.customID == "log_channel" then f.(logChannelID := t.value)
    else if t.customID == "auto_close_hours" && t.value != "" && ScanDecimal(t.value).Some? then
      f.(autoCloseHours := ScanDecimal(t.value).value)
    else f
  }

  /** The form after reading the inputs in order. */
  function TicketFormOf(inputs: seq<TextInput>): TicketForm
  {
    if |inputs| == 0 then TicketForm("", "", "", "", 24)
    else ApplyTicketInput(TicketFormOf(inputs[..|inputs| - 1]), inputs[|inputs| - 1])
  }

  /** The inputs of all action rows, row by row. */
  function Flatten(rows: seq<seq<TextInput>>): seq<TextInput>
  {
    if |rows| == 0 then [] else Flatten(rows[..|rows| - 1]) + rows[|rows| - 1]
  }

  /** Without a usable auto-close input the form keeps 24 hours. */
  lemma {:induction false} AutoCloseDefault(inputs: seq<TextInput>)
    requires forall i :: 0 <= i < |inputs| && inputs[i].customID == "auto_close_hours" ==>
               inputs[i].value == "" || ScanDecimal(inputs[i].value).None?
    ensures TicketFormOf(inputs).autoCloseHours == 24
    decreases |inputs|
  {
    if |inputs| > 0 {
      AutoCloseDefault(inputs[..|inputs| - 1]);
    }
  }

  /** Reading one more input applies it to the form read so far. */
  lemma TicketFormStep(inputs: seq<TextInput>, t: TextInput)
    ensures TicketFormOf(inputs + [t]) == ApplyTicketInput(TicketFormOf(inputs), t)
  {
    assert (inputs + [t])[..|inputs|] == inputs;
  }

  /** One more row appends its inputs. */
  lemma FlattenStep(rows: seq<seq<TextInput>>, i: int)
    requires 0 <= i < |rows|
    ensures Flatten(rows[..i + 1]) == Flatten(rows[..i]) + rows[i]
  {
    assert rows[..i + 1][..i] == rows[..i];
  }

  /** The switch on one text input's custom ID. */
  method ReadTicketInput(form: TicketForm, t: TextInput) returns (next: TicketForm)
    ensures next == ApplyTicketInput(form, t)
  {
    next := form;
    if t.customID == "ticket_category" {
      next := next.(categoryID := t.value);
    } else if t.customID == "support_role" {
      next := next.(supportRoleID := t.value);
    } else if t.customID == "admin_role" {
      next := next.(adminRoleID := t.value);
    } else if t.customID == "log_channel" {
      next := next.(logChannelID := t.value);
    } else if t.customID == "auto_close_hours" {
      if t.value != "" {
        var scanned := ScanDecimal(t.value);
        if scanned.Some? {
          next := next.(autoCloseHours := scanned.value);
        }
      }
    }
  }

  /** The loop over the modal's rows and their text inputs. */
  method ReadTicketForm(rows: seq<seq<TextInput>>) returns (form: TicketForm)
    ensures form == TicketFormOf(Flatten(rows))
  {
    form := TicketForm("", "", "", "", 24);
    var i := 0;
    while i < |rows|
      invariant 0 <= i <= |rows|
      invariant form == TicketFormOf(Flatten(rows[..i]))
    {
      var row := rows[i];
      var j := 0;
      assert Flatten(rows[..i]) + row[..0] == Flatten(rows[..i]);
      while j < |row|
        invariant 0 <= j <= |row|
        invariant form == TicketFormOf(Flatten(rows[..i]) + row[..j])
      {
        var t := row[j];
        TicketFormStep(Flatten(rows[..i]) + row[..j], t);
        assert Flatten(rows[..i]) + row[..j + 1] == Flatten(rows[..i]) + row[..j] + [t];
        form := ReadTicketInput(form, t);
        j := j + 1;
      }
      assert row[..j] == row;
      FlattenStep(rows, i);
      i := i + 1;
    }
    assert rows[..i] == rows;
  }

  datatype SetupReply = SetupRejected(message: string) | SaveFailed(message: string) | Saved(settings: D.GuildSettings)

  const TicketRequired := "❌ カテゴリIDとサポートロールIDは必須です！"
  const ValidationLead := "❌ 検証に失敗しました: "
  const TicketSaveLead := "❌ 設定の保存に失敗しました！エラー: "

  /** The settings the ticket modal starts from when they cannot be read: the same as a guild without a row. */
  function TicketFallback(guildID: string): (s: D.GuildSettings)
    ensures s == D.DefaultSettings(guildID)
  {
    D.SettingsOf(guildID, D.TicketsOf(false, "", "", "", "", "", 24, 3), D.ModerationOf(false, "", false),
                 D.WelcomeOf(false, "", "", ""),
                 D.LoggingOf(false, "", true, true, true, true, false, false, false, false, false, false),
                 D.BumpOf(false, "", "", None, false), "")
  }

  /** The ticket section the modal writes: enabled, with the form's IDs and hours; the per-user limit is kept. */
  function TicketsFromForm(old_: D.TicketsOf<string>, form: TicketForm): D.TicketsOf<string>
  {
    old_.(enabled := true, categoryID := form.categoryID, supportRoleID := form.supportRoleID,
          adminRoleID := form.adminRoleID, logChannelID := form.logChannelID, autoCloseHours := form.autoCloseHours)
  }

  /**
   * handleTicketSetupModal: the required fields are checked before anything
   * is written; `validation` is the outcome of the Discord lookups of the
   * IDs, `guildName` the guild lookup, and `upsertExec`/`saveExec` the two
   * statements.
   */
  method TicketSetupSubmit(db: D.Service, guildID: string, rows: seq<seq<TextInput>>, validation: Outcome,
                           guildName: Option<string>, upsertExec: Outcome, saveExec: Outcome)
    returns (reply: SetupReply)
    requires db.Valid()
    modifies db
    ensures db.Valid()
    ensures var form := TicketFormOf(Flatten(rows));
            (form.categoryID == "" || form.supportRoleID == "") ==> reply == SetupRejected(TicketRequired) && unchanged(db)
    ensures validation.Fail? ==> reply.SetupRejected? && unchanged(db)
    ensures var form := TicketFormOf(Flatten(rows));
            form.categoryID != "" && form.supportRoleID != "" && validation.Fail? ==>
              reply == SetupRejected(ValidationLead + validation.error)
    ensures reply.SaveFailed? ==> db.guildSettings == old(db.guildSettings)
    ensures reply.Saved? ==>
              var form := TicketFormOf(Flatten(rows));
              var before := old(db.GetGuildSettings(guildID));
              var base := if before.Ok? then before.value else D.DefaultSettings(guildID);
              reply.settings == base.(tickets := TicketsFromForm(base.tickets, form))
              && db.guildSettings == old(db.guildSettings)[guildID := D.ToRow(reply.settings)]
    ensures !reply.SetupRejected? ==> (reply.Saved? <==> saveExec.Pass?)
    ensures !reply.SetupRejected? ==>
              db.guilds == if guildName.Some? && upsertExec.Pass? then old(db.guilds)[guildID := D.GuildRow(guildName.value, "/")]
                           else old(db.guilds)
    ensures db.bracketUsage == old(db.bracketUsage) && db.users == old(db.users)
  {
    var form := ReadTicketForm(rows);
    if form.categoryID == "" || form.supportRoleID == "" {
      return SetupRejected(TicketRequired);
    }
    if validation.Fail? {
      return SetupRejected(ValidationLead + validation.error);
    }
    if guildName.Some? {
      var _ := db.UpsertGuild(guildID, guildName.value, "/", upsertExec);
    }
    var current := db.GetGuildSettings(guildID);
    var settings := if current.Ok? then current.value else TicketFallback(guildID);
    settings := settings.(tickets := TicketsFromForm(settings.tickets, form));
    var err := db.UpsertGuildSettings(settings, saveExec);
    if err.Some? {
      return SaveFailed(TicketSaveLead + err.value);
    }
    return Saved(settings);
  }

  const LogChannelRequired := "❌ ログチャンネルIDは必須です！"
  const LogChannelInvalid := "❌ 指定されたチャンネルが見つからないか、テキストチャンネルではありません！"
  const LogSaveFailed := "❌ 設定の保存に失敗しました！"

  /** The log channel the logging modal reads: the last "log_channel" input, "" without one. */
  function LogChannelOf(inputs: seq<TextInput>): string
  {
    if |inputs| == 0 then ""
    else if inputs[|inputs| - 1].customID == "log_channel" then inputs[|inputs| - 1].value
    else LogChannelOf(inputs[..|inputs| - 1])
  }

  /**
   * The settings the logging modal starts from when they cannot be read:
   * the four basic flags on and everything else zero, so unlike a guild
   * without a row it has no ticket hours or per-user limit.
   */
  function LoggingFallback(guildID: string): (s: D.GuildSettings)
    ensures s == D.DefaultSettings(guildID).(tickets := D.TicketsOf(false, "", "", "", "", "", 0, 0))
  {
    D.SettingsOf(guildID, D.TicketsOf(false, "", "", "", "", "", 0, 0), D.ModerationOf(false, "", false),
                 D.WelcomeOf(false, "", "", ""),
                 D.LoggingOf(false, "", true, true, true, true, false, false, false, false, false, false),
                 D.BumpOf(false, "", "", None, false), "")
  }

  /** The logging section the modal writes: enabled, the channel, and all ten event flags on. */
  function LoggingFromModal(channelID: string): D.LoggingOf<string>
  {
    D.LoggingOf(true, channelID, true, true, true, true, true, true, true, true, true, true)
  }

  /** The loop over the logging modal's rows and inputs. */
  method ReadLogChannel(rows: seq<seq<TextInput>>) returns (logChannelID: string)
    ensures logChannelID == LogChannelOf(Flatten(rows))
  {
    logChannelID := "";
    var i := 0;
    while i < |rows|
      invariant 0 <= i <= |rows|
      invariant logChannelID == LogChannelOf(Flatten(rows[..i]))
    {
      var row := rows[i];
      var j := 0;
      assert Flatten(rows[..i]) + row[..0] == Flatten(rows[..i]);
      while j < |row|
        invariant 0 <= j <= |row|
        invariant logChannelID == LogChannelOf(Flatten(rows[..i]) + row[..j])
      {
        assert Flatten(rows[..i]) + row[..j + 1] == Flatten(rows[..i]) + row[..j] + [row[j]];
        assert (Flatten(rows[..i]) + row[..j] + [row[j]])[..|Flatten(rows[..i]) + row[..j]|] == Flatten(rows[..i]) + row[..j];
        if row[j].customID == "log_channel" {
          logChannelID := row[j].value;
        }
        j := j + 1;
      }
      assert row[..j] == row;
      FlattenStep(rows, i);
      i := i + 1;
    }
    assert rows[..i] == rows;
  }

  /**
   * handleLoggingSetupModal: the channel is required and must be a text
   * channel (`isTextChannel`, a Discord lookup); then logging is switched on
   * with every event flag.
   */
  method LoggingSetupSubmit(db: D.Service, guildID: string, rows: seq<seq<TextInput>>, isTextChannel: bool,
                            guildName: Option<string>, upsertExec: Outcome, saveExec: Outcome)
    returns (reply: SetupReply)
    requires db.Valid()
    modifies db
    ensures db.Valid()
    ensures LogChannelOf(Flatten(rows)) == "" ==> reply == SetupRejected(LogChannelRequired) && unchanged(db)
    ensures LogChannelOf(Flatten(rows)) != "" && !isTextChannel ==> reply == SetupRejected(LogChannelInvalid) && unchanged(db)
    ensures reply.SaveFailed? ==> db.guildSettings == old(db.guildSettings)
    ensures reply.Saved? ==>
              var before := old(db.GetGuildSettings(guildID));
              var base := if before.Ok? then before.value else LoggingFallback(guildID);
              reply.settings == base.(logging := LoggingFromModal(LogChannelOf(Flatten(rows))))
              && db.guildSettings == old(db.guildSettings)[guildID := D.ToRow(reply.settings)]
    ensures !reply.SetupRejected? ==> (reply.Saved? <==> saveExec.Pass?)
    ensures !reply.SetupRejected? ==>
              db.guilds == if guildName.Some? && upsertExec.Pass? then old(db.guilds)[guildID := D.GuildRow(guildName.value, "/")]
                           else old(db.guilds)
    ensures db.bracketUsage == old(db.bracketUsage) && db.users == old(db.users)
  {
    var logChannelID := ReadLogChannel(rows);
    if logChannelID == "" {
      return SetupRejected(LogChannelRequired);
    }
    if !isTextChannel {
      return SetupRejected(LogChannelInvalid);
    }
    if guildName.Some? {
      var _ := db.UpsertGuild(guildID, guildName.value, "/", upsertExec);
    }
    var current := db.GetGuildSettings(guildID);
    var settings := if current.Ok? then current.value else LoggingFallback(guildID);
    settings := settings.(logging := LoggingFromModal(logChannelID));
    var err := db.UpsertGuildSettings(settings, saveExec);
    if err.Some? {
      return SaveFailed(LogSaveFailed);
    }
    return Saved(settings);
  }

  // ---- handleBumpSettingsSubmit (the modal_bump_settings route) ----

  const BumpSaveFailed := "❌ 設定の保存に失敗しました"

  /** One input of the bump modal: the channel and the role are taken as typed, an empty role included. */
  function ApplyBumpModalInput(b: D.BumpOf<string>, t: TextInput): D.BumpOf<string>
  {
    if t.customID == "bump_channel" then b.(channelID := t.value)
    else if t.customID == "bump_role" then b.(roleID := t.value)
    else b
  }

  /** The bump section after reading the modal's inputs in order. */
  function BumpModalOf(b: D.BumpOf<string>, inputs: seq<TextInput>): D.BumpOf<string>
  {
    if |inputs| == 0 then b else ApplyBumpModalInput(BumpModalOf(b, inputs[..|inputs| - 1]), inputs[|inputs| - 1])
  }

  /**
   * The last role input decides the role, and an empty one clears it; the
   * form never touches the switch, the bump time or the sent mark.
   */
  lemma {:induction false} LastRoleInputWins(b: D.BumpOf<string>, inputs: seq<TextInput>, k: int)
    requires 0 <= k < |inputs| && inputs[k].customID == "bump_role"
    requires forall j :: k < j < |inputs| ==> inputs[j].customID != "bump_role"
    ensures BumpModalOf(b, inputs).roleID == inputs[k].value
    decreases |inputs|
  {
    if k < |inputs| - 1 {
      LastRoleInputWins(b, inputs[..|inputs| - 1], k);
    }
  }

  lemma {:induction false} BumpModalKeeps(b: D.BumpOf<string>, inputs: seq<TextInput>)
    ensures BumpModalOf(b, inputs).(channelID := b.channelID, roleID := b.roleID) == b
    decreases |inputs|
  {
    if |inputs| > 0 {
      BumpModalKeeps(b, inputs[..|inputs| - 1]);
    }
  }

  /** The loop over the modal's rows and inputs. */
  method ReadBumpModal(b: D.BumpOf<string>, rows: seq<seq<TextInput>>) returns (next: D.BumpOf<string>)
    ensures next == BumpModalOf(b, Flatten(rows))
  {
    next := b;
    var i := 0;
    while i < |rows|
      invariant 0 <= i <= |rows|
      invariant next == BumpModalOf(b, Flatten(rows[..i]))
    {
      var row := rows[i];
      var j := 0;
      assert Flatten(rows[..i]) + row[..0] == Flatten(rows[..i]);
      while j < |row|
        invariant 0 <= j <= |row|
        invariant next == BumpModalOf(b, Flatten(rows[..i]) + row[..j])
      {
        ghost var seen := Flatten(rows[..i]) + row[..j];
        assert (seen + [row[j]])[..|seen|] == seen;
        assert Flatten(rows[..i]) + row[..j + 1] == seen + [row[j]];
        var t := row[j];
        if t.customID == "bump_channel" {
          next := next.(channelID := t.value);
        } else if t.customID == "bump_role" {
          next := next.(roleID := t.value);
        }
        j := j + 1;
      }
      assert row[..j] == row;
      FlattenStep(rows, i);
      i := i + 1;
    }
    assert rows[..i] == rows;
  }

  /**
   * handleBumpSettingsSubmit of the interaction handler: registers the
   * guild when its lookup succeeds (`guildName`), reads the settings or
   * falls back to the defaults, merges the modal, switches bump on and
   * saves the whole row.
   */
  method BumpSettingsSubmit(db: D.Service, guildID: string, rows: seq<seq<TextInput>>,
                            guildName: Option<string>, upsertExec: Outcome, saveExec: Outcome)
    returns (reply: SetupReply)
    requires db.Valid()
    modifies db
    ensures db.Valid()
    ensures !reply.SetupRejected?
    ensures reply.Saved? <==> saveExec.Pass?
    ensures reply.SaveFailed? ==> reply.message == BumpSaveFailed && db.guildSettings == old(db.guildSettings)
    ensures reply.Saved? ==>
              var before := old(db.GetGuildSettings(guildID));
              var base := if before.Ok? then before.value else D.DefaultSettings(guildID);
              reply.settings == base.(bump := BumpModalOf(base.bump, Flatten(rows)).(enabled := true))
              && reply.settings.bump.enabled
              && db.guildSettings == old(db.guildSettings)[guildID := D.ToRow(reply.settings)]
    ensures db.guilds == if guildName.Some? && upsertExec.Pass? then old(db.guilds)[guildID := D.GuildRow(guildName.value, "/")]
                         else old(db.guilds)
    ensures db.bracketUsage == old(db.bracketUsage) && db.users == old(db.users)
  {
    if guildName.Some? {
      var _ := db.UpsertGuild(guildID, guildName.value, "/", upsertExec);
    }
    var current := db.GetGuildSettings(guildID);
    var settings := if current.Ok? then current.value else TicketFallback(guildID);
    var bump := ReadBumpModal(settings.bump, rows);
    settings := settings.(bump := bump.(enabled := true));
    var err := db.UpsertGuildSettings(settings, saveExec);
    if err.Some? {
      return SaveFailed(BumpSaveFailed);
    }
    return Saved(settings);
  }
}
