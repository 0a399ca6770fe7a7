/** `format_airline_achievement`: the embed for an `airline.achievement` event. */
module Achievement {
  import opened Wrappers
  import opened Php
  import opened Helpers
  import opened Discord
  import opened WordCut

  const AchievementColor := 0xffcc00
  const AchievementFooter := FooterPrefix + "airline.achievement"

  /** The pilot's name, as `safe` shows it. */
  function Pilot(d: Value): (pilot: string)
    ensures Get(Get(Get(d, "flight"), "user"), "name") == Null ==> pilot == "N/A"
  {
    Safe(Get(Get(Get(d, "flight"), "user"), "name"))
  }

  /** The FSHub page of the achievement, which exists only when both its id and its slug are truthy. */
  function AchievementUrl(ach: Value): (url: Option<string>)
    ensures url.Some? <==> Truthy(Get(ach, "id")) && Truthy(Get(ach, "slug"))
    ensures url.Some? ==>
      url.value == "https://fshub.io/achievement/" + ToStr(Get(ach, "id")) + "-" + ToStr(Get(ach, "slug")) + "/overview"
  {
    var id := Get(ach, "id");
    var slug := Get(ach, "slug");
    if Truthy(id) && Truthy(slug) then
      Some("https://fshub.io/achievement/" + ToStr(id) + "-" + ToStr(slug) + "/overview")
    else None
  }

  /** The title names the pilot and the achievement, each falling back to "N/A". */
  function AchievementTitle(d: Value): (t: string)
    ensures Get(Get(Get(d, "flight"), "user"), "name") == Null && Get(Get(d, "achievement"), "title") == Null ==>
      t == "🏅 **" + "N/A" + " unlocked the achievement “" + "N/A" + "”!**"
  {
    "🏅 **" + Pilot(d) + " unlocked the achievement “" + Safe(Get(Get(d, "achievement"), "title")) + "”!**"
  }

  /**
   * The shortened description first, the link when there is one, and the
   * congratulations to the pilot last.
   */
  function AchievementFields(d: Value): (f: seq<Field>)
    ensures var url := AchievementUrl(Get(d, "achievement"));
      && |f| == (if url.Some? then 3 else 2)
      && f[0] == Field("📖 Description", ShortDescription(Safe(Get(Get(d, "achievement"), "description"))), false)
      && (url.Some? ==> f[1] == Field("🔗 View achievement", "[Open on FsHub](" + url.value + ")", false))
      && f[|f| - 1] == Field("🎉 Congratulations", "Well done **" + Pilot(d) + "**! 🎊", false)
      && NoSeparators(f)
  {
    var ach := Get(d, "achievement");
    var description := Field("📖 Description", ShortDescription(Safe(Get(ach, "description"))), false);
    var link := match AchievementUrl(ach)
      case Some(url) => [Field("🔗 View achievement", "[Open on FsHub](" + url + ")", false)]
      case None => [];
    var congratulations := Field("🎉 Congratulations", "Well done **" + Pilot(d) + "**! 🎊", false);
    [description] + link + [congratulations]
  }

  /** `format_airline_achievement($d)`: exactly one embed, in the achievement colour and footer. */
  function FormatAchievement(d: Value): (p: Payload)
    ensures p.Embeds? && |p.embeds| == 1
    ensures var e := p.embeds[0];
      && e.title == AchievementTitle(d)
      && e.color == AchievementColor
      && e.footer == AchievementFooter
      && e.description == None
      && e.image == None
      && e.fields == AchievementFields(d)
  {
    Embeds([Embed(AchievementTitle(d), None, AchievementColor, AchievementFields(d), AchievementFooter, None)])
  }

  /**
   * The description field never runs past 160 characters plus the ellipsis,
   * and is the whole description whenever that fits.
   */
  lemma AchievementDescriptionBounded(d: Value)
    ensures var f := AchievementFields(d);
      var full := Safe(Get(Get(d, "achievement"), "description"));
      && |f[0].value| <= MaxDescription + 1
      && (|full| <= MaxDescription ==> f[0].value == full)
  {
    var full := Safe(Get(Get(d, "achievement"), "description"));
    if full != "N/A" && |full| > MaxDescription {
      var r := ShortDescription(full);
      assert |r| - 1 <= MaxDescription;
    }
  }
}
