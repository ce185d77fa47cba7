/**
 * The /avatar command: the default avatar for a user without one, the
 * format and size links of an avatar URL, the banner URL, the user-info
 * lines and the embed colour. Go indexes strings by byte; the model's
 * strings are characters, which agree on the ASCII IDs and URLs used here.
 */
module Avatar {
  import opened Wrappers
  import opened GoStrings
  import Embed

  /** Go's `byte - '0'` on an ASCII character: uint8 arithmetic, so it wraps below '0'. */
  function ByteDigit(c: char): (d: nat)
    ensures d < 256
    ensures '0' <= c <= '9' ==> d == c as int - '0' as int
  {
    (c as int - '0' as int) % 256
  }

  /** A discriminator from the old username system: set, and not "0". */
  predicate IsLegacy(discriminator: string)
  {
    discriminator != "" && discriminator != "0"
  }

  /**
   * The default-avatar index as Execute computes it: for a legacy
   * discriminator the value of its last digit, otherwise the sum of the last
   * two ID digits (0 for a shorter ID) modulo 5.
   */
  function DefaultAvatarIndexAsWritten(discriminator: string, userID: string): (i: nat)
    ensures IsLegacy(discriminator) ==> i == ByteDigit(discriminator[|discriminator| - 1])
    ensures !IsLegacy(discriminator) ==> i < 5
  {
    if IsLegacy(discriminator) then ByteDigit(discriminator[|discriminator| - 1])
    else if |userID| >= 2 then ((ByteDigit(userID[|userID| - 2]) + ByteDigit(userID[|userID| - 1])) % 256) % 5
    else 0
  }

  /** Discord serves default avatars 0 to 4 for legacy discriminators; "#1237" is sent to avatar 7. */
  lemma LegacyIndexOutOfRange()
    ensures DefaultAvatarIndexAsWritten("1237", "123456789012345678") == 7
  {
  }

  /**
   * The default-avatar index with the modulo applied on both paths: for a
   * legacy discriminator its last digit modulo 5, which is the
   * discriminator modulo 5.
   */
  function DefaultAvatarIndex(discriminator: string, userID: string): (i: nat)
    ensures i < 5
    ensures !IsLegacy(discriminator) ==> i == DefaultAvatarIndexAsWritten(discriminator, userID)
    ensures IsLegacy(discriminator) ==> i == DefaultAvatarIndexAsWritten(discriminator, userID) % 5
  {
    if IsLegacy(discriminator) then ByteDigit(discriminator[|discriminator| - 1]) % 5
    else DefaultAvatarIndexAsWritten(discriminator, userID)
  }

  /** For an all-digit discriminator the corrected index is the discriminator's value modulo 5. */
  lemma LegacyIndexIsDiscriminatorMod5(discriminator: string, userID: string)
    requires IsLegacy(discriminator)
    requires forall k :: 0 <= k < |discriminator| ==> '0' <= discriminator[k] <= '9'
    ensures DefaultAvatarIndex(discriminator, userID) == DigitsValue(discriminator) % 5
  {
    var front := discriminator[..|discriminator| - 1];
    var last := ByteDigit(discriminator[|discriminator| - 1]);
    assert DigitsValue(discriminator) == DigitsValue(front) * 10 + last;
    TensDropMod5(DigitsValue(front), last);
  }

  /** Whole tens do not change a remainder modulo 5. */
  lemma {:induction false} TensDropMod5(tens: nat, d: nat)
    ensures (tens * 10 + d) % 5 == d % 5
    decreases tens
  {
    if tens > 0 {
      TensDropMod5(tens - 1, d);
      assert tens * 10 + d == (tens - 1) * 10 + d + 10;
    }
  }

  /** The URL of a default avatar. */
  function DefaultAvatarURL(index: nat): string
  {
    "https://cdn.discordapp.com/embed/avatars/" + NatToDecimal(index) + ".png"
  }

  /** Execute's avatar URL: the user's own, or the default avatar picked by the corrected index. */
  function AvatarURL(ownURL: string, discriminator: string, userID: string): (url: string)
    ensures ownURL != "" ==> url == ownURL
    ensures ownURL == "" ==> exists i :: 0 <= i < 5 && url == DefaultAvatarURL(i)
  {
    if ownURL != "" then ownURL
    else DefaultAvatarURL(DefaultAvatarIndex(discriminator, userID))
  }

  // ---- formats and sizes ----

  /** Joining one more part adds the separator and the part at the end. */
  lemma {:induction false} JoinSnoc(front: seq<string>, x: string, sep: string)
    requires |front| >= 1
    ensures Join(front + [x], sep) == Join(front, sep) + sep + x
    decreases |front|
  {
    if |front| > 1 {
      assert (front + [x])[1..] == front[1..] + [x];
      JoinSnoc(front[1..], x, sep);
    }
  }

  /** The URL up to its last ".": the pieces of a split on "." without the last, joined back. */
  function WithoutExtension(url: string): (base: string)
    requires '.' in url
    ensures var parts := Split(url, '.');
            url == base + "." + parts[|parts| - 1] && '.' !in parts[|parts| - 1]
  {
    var parts := Split(url, '.');
    SplitCount(url, '.');
    CountCharPositive(url, '.');
    JoinSplit(url, '.');
    assert parts == parts[..|parts| - 1] + [parts[|parts| - 1]];
    JoinSnoc(parts[..|parts| - 1], parts[|parts| - 1], ".");
    assert parts[|parts| - 1] in parts;
    Join(parts[..|parts| - 1], ".")
  }

  /** A URL without "." yields a single piece when split. */
  lemma NoDotOnePiece(url: string)
    requires '.' !in url
    ensures |Split(url, '.')| == 1
  {
    SplitCount(url, '.');
    CountCharPositive(url, '.');
  }

  /** The format links of an avatar: PNG, JPG and WebP, and GIF for an animated ("a_") avatar. */
  function FormatLinks(base: string, animated: bool): (links: seq<string>)
    ensures |links| == if animated then 4 else 3
  {
    ["[PNG](" + base + ".png)", "[JPG](" + base + ".jpg)", "[WebP](" + base + ".webp)"]
    + (if animated then ["[GIF](" + base + ".gif)"] else [])
  }

  /**
   * getAvatarFormats: a note for an empty URL, another for a URL without
   * ".", and otherwise the format links built on the URL up to its last ".".
   */
  function AvatarFormats(url: string): (r: string)
    ensures url == "" ==> r == "デフォルトアバター"
    ensures url != "" && '.' !in url ==> r == "不明な形式"
    ensures url != "" && '.' in url ==> r == Join(FormatLinks(WithoutExtension(url), Contains(url, "a_")), " • ")
  {
    if url == "" then "デフォルトアバター"
    else
      var parts := Split(url, '.');
      if |parts| < 2 then
        if '.' in url then
          SplitCount(url, '.');
          CountCharPositive(url, '.');
          "不明な形式"
        else "不明な形式"
      else
        if '.' !in url then
          NoDotOnePiece(url);
          "不明な形式"
        else Join(FormatLinks(Join(parts[..|parts| - 1], "."), Contains(url, "a_")), " • ")
  }

  const Sizes := ["128", "256", "512", "1024", "2048", "4096"]

  /** The link for one size: the first "4096" of the URL replaced by the size. */
  function SizeLink(url: string, size: string): string
  {
    "[" + size + "](" + ReplaceFirst(url, "4096", size) + ")"
  }

  /**
   * getAvatarSizes: "N/A" for an empty URL, and otherwise the six size
   * links, filled in by index, joined with " • ".
   */
  method AvatarSizes(url: string) returns (r: string)
    ensures url == "" ==> r == "N/A"
    ensures url != "" ==> r == Join(seq(6, i requires 0 <= i < 6 => SizeLink(url, Sizes[i])), " • ")
  {
    if url == "" {
      return "N/A";
    }
    var sizeLinks := new string[|Sizes|];
    for i := 0 to |Sizes|
      invariant forall k :: 0 <= k < i ==> sizeLinks[k] == SizeLink(url, Sizes[k])
    {
      sizeLinks[i] := SizeLink(url, Sizes[i]);
    }
    assert sizeLinks[..] == seq(6, i requires 0 <= i < 6 => SizeLink(url, Sizes[i]));
    return Join(sizeLinks[..], " • ");
  }

  /** A URL without "4096" gives every size link the URL unchanged. */
  lemma SizeLinkWithoutMarker(url: string, size: string)
    requires !Contains(url, "4096")
    ensures SizeLink(url, size) == "[" + size + "](" + url + ")"
  {
    ReplaceFirstAbsent(url, "4096", size);
  }

  // ---- banner, user info, colour ----

  datatype User = User(id: string, username: string, globalName: string, discriminator: string, bot: bool, banner: string)
  datatype Member = Member(nick: string, roles: seq<string>)

  /** getUserBannerURL: none without a banner, a GIF for an animated ("a_") banner, a PNG otherwise. */
  function BannerURL(user: User): (url: string)
    ensures user.banner == "" <==> url == ""
    ensures user.banner != "" ==> url == "https://cdn.discordapp.com/banners/" + user.id + "/" + user.banner
                                         + (if HasPrefix(user.banner, "a_") then ".gif" else ".png") + "?size=4096"
  {
    if user.banner == "" then ""
    else
      var extension := if HasPrefix(user.banner, "a_") then ".gif" else ".png";
      "https://cdn.discordapp.com/banners/" + user.id + "/" + user.banner + extension + "?size=4096"
  }

  const DiscriminatorLabel := "**ディスクリミネータ:** #"
  const NicknameLabel := "**ニックネーム:** "

  /**
   * The lines of getUserInfo: username, display name, the discriminator
   * only for a legacy one, the account type, and the nickname only when
   * the member has one.
   */
  function UserInfoLines(user: User, member: Option<Member>): (lines: seq<string>)
    ensures |lines| == 3 + (if IsLegacy(user.discriminator) then 1 else 0)
                         + (if member.Some? && member.value.nick != "" then 1 else 0)
    ensures lines[0] == "**ユーザー名:** " + user.username && lines[1] == "**表示名:** " + user.globalName
    ensures IsLegacy(user.discriminator) ==> lines[2] == DiscriminatorLabel + user.discriminator
    ensures member.Some? && member.value.nick != "" ==> lines[|lines| - 1] == NicknameLabel + member.value.nick
  {
    ["**ユーザー名:** " + user.username, "**表示名:** " + user.globalName]
    + (if IsLegacy(user.discriminator) then [DiscriminatorLabel + user.discriminator] else [])
    + [if user.bot then "**タイプ:** 🤖 Bot" else "**タイプ:** 👤 ユーザー"]
    + (if member.Some? && member.value.nick != "" then [NicknameLabel + member.value.nick] else [])
  }

  /** getUserInfo: the lines joined by line breaks. */
  function UserInfo(user: User, member: Option<Member>): string
  {
    Join(UserInfoLines(user, member), "\n")
  }

  /** getUserColor: the primary colour for a member with roles, the surface colour otherwise. */
  function UserColor(member: Option<Member>): (c: int)
    ensures c == Embed.Primary <==> member.Some? && |member.value.roles| > 0
    ensures c == Embed.Surface <==> !(member.Some? && |member.value.roles| > 0)
  {
    if member.Some? && |member.value.roles| > 0 then Embed.Primary else Embed.Surface
  }
}
