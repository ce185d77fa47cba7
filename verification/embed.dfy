/**
 * The embed builder: a Builder owns one MessageEmbed and every setter
 * changes that embed in place and hands back the same builder. The clock
 * read by New and SetTimestamp is an input.
 */
module Embed {
  import opened Wrappers

  /** The Material 3 palette the bot's embeds use. */
  const Primary := 0x6750A4
  const Secondary := 0x625B71
  const Tertiary := 0x7D5260
  const ErrorColor := 0xBA1A1A
  const SuccessColor := 0x4CAF50
  const WarningColor := 0xFF9800
  const InfoColor := 0x2196F3
  const Surface := 0x1C1B1F

  datatype Author = Author(name: string, iconURL: string, url: string)
  datatype Footer = Footer(text: string, iconURL: string)
  datatype Field = Field(name: string, value: string, inline: bool)

  /** Everything an embed shows, as one value. */
  datatype EmbedValue = EmbedValue(
    title: string, description: string, color: int, author: Option<Author>, footer: Option<Footer>,
    thumbnail: Option<string>, image: Option<string>, fields: seq<Field>, timestamp: string)

  /** discordgo.MessageEmbed: shared by pointer between the builder and whoever it was built for. */
  class MessageEmbed {
    var title: string
    var description: string
    var color: int
    var author: Option<Author>
    var footer: Option<Footer>
    var thumbnail: Option<string>
    var image: Option<string>
    var fields: seq<Field>
    var timestamp: string

    function Value(): EmbedValue
      reads this
    {
      EmbedValue(title, description, color, author, footer, thumbnail, image, fields, timestamp)
    }

    /** A fresh embed with the given colour and timestamp and nothing else. */
    constructor (color: int, timestamp: string)
      ensures Value() == EmbedValue("", "", color, None, None, None, None, [], timestamp)
    {
      this.title := "";
      this.description := "";
      this.color := color;
      this.author := None;
      this.footer := None;
      this.thumbnail := None;
      this.image := None;
      this.fields := [];
      this.timestamp := timestamp;
    }
  }

  /** The zero-width space AddBlankField puts in both name and value. */
  const ZeroWidthSpace := "\U{200B}"

  class Builder {
    const embed: MessageEmbed

    /** New: the primary colour, the current time as timestamp, no fields. */
    constructor (now: string)
      ensures fresh(embed)
      ensures embed.Value() == EmbedValue("", "", Primary, None, None, None, None, [], now)
    {
      embed := new MessageEmbed(Primary, now);
    }

    method SetTitle(title: string) returns (b: Builder)
      modifies embed
      ensures b == this && embed.Value() == old(embed.Value()).(title := title)
    {
      embed.title := title;
      return this;
    }

    method SetDescription(desc: string) returns (b: Builder)
      modifies embed
      ensures b == this && embed.Value() == old(embed.Value()).(description := desc)
    {
      embed.description := desc;
      return this;
    }

    method SetColor(color: int) returns (b: Builder)
      modifies embed
      ensures b == this && embed.Value() == old(embed.Value()).(color := color)
    {
      embed.color := color;
      return this;
    }

    method SetAuthor(name: string, iconURL: string, url: string) returns (b: Builder)
      modifies embed
      ensures b == this && embed.Value() == old(embed.Value()).(author := Some(Author(name, iconURL, url)))
    {
      embed.author := Some(Author(name, iconURL, url));
      return this;
    }

    method SetFooter(text: string, iconURL: string) returns (b: Builder)
      modifies embed
      ensures b == this && embed.Value() == old(embed.Value()).(footer := Some(Footer(text, iconURL)))
    {
      embed.footer := Some(Footer(text, iconURL));
      return this;
    }

    method SetThumbnail(url: string) returns (b: Builder)
      modifies embed
      ensures b == this && embed.Value() == old(embed.Value()).(thumbnail := Some(url))
    {
      embed.thumbnail := Some(url);
      return this;
    }

    method SetImage(url: string) returns (b: Builder)
      modifies embed
      ensures b == this && embed.Value() == old(embed.Value()).(image := Some(url))
    {
      embed.image := Some(url);
      return this;
    }

    /** Appends one field after the existing ones. */
    method AddField(name: string, value: string, inline: bool) returns (b: Builder)
      modifies embed
      ensures b == this && embed.Value() == old(embed.Value()).(fields := old(embed.fields) + [Field(name, value, inline)])
      ensures |embed.fields| == |old(embed.fields)| + 1 && embed.fields[..|old(embed.fields)|] == old(embed.fields)
    {
      embed.fields := embed.fields + [Field(name, value, inline)];
      return this;
    }

    /** A field whose name and value are both a zero-width space. */
    method AddBlankField(inline: bool) returns (b: Builder)
      modifies embed
      ensures b == this && embed.Value() == old(embed.Value()).(fields := old(embed.fields) + [Field(ZeroWidthSpace, ZeroWidthSpace, inline)])
    {
      b := AddField(ZeroWidthSpace, ZeroWidthSpace, inline);
    }

    method SetTimestamp(now: string) returns (b: Builder)
      modifies embed
      ensures b == this && embed.Value() == old(embed.Value()).(timestamp := now)
    {
      embed.timestamp := now;
      return this;
    }

    /** The builder's own embed, not a copy: later setter calls show through it. */
    method Build() returns (e: MessageEmbed)
      ensures e == embed
    {
      return embed;
    }
  }

  /** The shared shape of the four status embeds: a prefixed title, a description and a colour. */
  method Status(prefix: string, title: string, description: string, color: int, now: string) returns (e: MessageEmbed)
    ensures fresh(e)
    ensures e.Value() == EmbedValue(prefix + " " + title, description, color, None, None, None, None, [], now)
  {
    var builder := new Builder(now);
    var b := builder.SetTitle(prefix + " " + title);
    b := b.SetDescription(description);
    b := b.SetColor(color);
    e := b.Build();
  }

  method Success(title: string, description: string, now: string) returns (e: MessageEmbed)
    ensures fresh(e)
    ensures e.Value() == EmbedValue("✅ " + title, description, SuccessColor, None, None, None, None, [], now)
  {
    e := Status("✅", title, description, SuccessColor, now);
  }

  method Error(title: string, description: string, now: string) returns (e: MessageEmbed)
    ensures fresh(e)
    ensures e.Value() == EmbedValue("❌ " + title, description, ErrorColor, None, None, None, None, [], now)
  {
    e := Status("❌", title, description, ErrorColor, now);
  }

  method Warning(title: string, description: string, now: string) returns (e: MessageEmbed)
    ensures fresh(e)
    ensures e.Value() == EmbedValue("⚠️ " + title, description, WarningColor, None, None, None, None, [], now)
  {
    e := Status("⚠️", title, description, WarningColor, now);
  }

  method Info(title: string, description: string, now: string) returns (e: MessageEmbed)
    ensures fresh(e)
    ensures e.Value() == EmbedValue("ℹ️ " + title, description, InfoColor, None, None, None, None, [], now)
  {
    e := Status("ℹ️", title, description, InfoColor, now);
  }

  /** Loading: no title, the hourglass before the description, the secondary colour. */
  method Loading(description: string, now: string) returns (e: MessageEmbed)
    ensures fresh(e)
    ensures e.Value() == EmbedValue("", "⏳ " + description, Secondary, None, None, None, None, [], now)
  {
    var builder := new Builder(now);
    var b := builder.SetDescription("⏳ " + description);
    b := b.SetColor(Secondary);
    e := b.Build();
  }
}
