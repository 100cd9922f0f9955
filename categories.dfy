/**
 * The category classifier of the macOS screen-time handler: the closed set
 * of application categories, their two derived attributes, and the fixed
 * table from bundle identifier to category with its total lookup.
 */
module Categories {
  import opened Wrappers

  /** The closed set of categories an application can belong to. */
  datatype AppCategory =
    | Productivity
    | Development
    | Browser
    | Social
    | Entertainment
    | Game
    | Education
    | SocialMedia
    | Other

  /** The category's raw value: the label reported as an entry's "category". */
  function RawValue(c: AppCategory): (r: string)
    ensures r == "其他" <==> c == Other
  {
    match c
    case Productivity => "生产力工具"
    case Development => "开发工具"
    case Browser => "浏览器"
    case Social => "社交"
    case Entertainment => "娱乐"
    case Game => "游戏"
    case Education => "教育"
    case SocialMedia => "社交媒体"
    case Other => "其他"
  }

  /**
   * Whether time in the category counts as beneficial: only entertainment,
   * games and social media do not; the ambiguous browser, social and other
   * categories count as beneficial.
   */
  function IsBeneficial(c: AppCategory): (b: bool)
    ensures !b <==> c == Entertainment || c == Game || c == SocialMedia
    ensures c == Browser || c == Social || c == Other ==> b
  {
    match c
    case Productivity | Development | Education => true
    case Entertainment | Game | SocialMedia => false
    case Browser | Social | Other => true
  }

  /** The creature shown for the category (a fixed display label). */
  function CreatureType(c: AppCategory): (r: string)
    ensures r == "神秘的变色龙" <==> c == Other
  {
    match c
    case Productivity => "勤劳的小蜜蜂"
    case Development => "智慧的猫头鹰"
    case Education => "博学的海豚"
    case Entertainment => "懒惰的树懒"
    case Game => "贪玩的小恶魔"
    case Browser => "探索的狐狸"
    case Social => "热情的小狗"
    case SocialMedia => "沉迷的海妖"
    case Other => "神秘的变色龙"
  }

  /** A reported raw value identifies its category. */
  lemma RawValueInjective(c1: AppCategory, c2: AppCategory)
    ensures RawValue(c1) == RawValue(c2) ==> c1 == c2
  {
  }

  /** A reported creature type identifies its category. */
  lemma CreatureTypeInjective(c1: AppCategory, c2: AppCategory)
    ensures CreatureType(c1) == CreatureType(c2) ==> c1 == c2
  {
  }

  /** A classification table from bundle identifier to category. */
  type Table = map<string, AppCategory>

  /** The web browsers. */
  const Browsers: set<string> := {
    "com.google.Chrome",
    "com.microsoft.Edge",
    "com.apple.Safari",
    "org.mozilla.firefox"
  }

  /** The productivity tools. */
  const ProductivityApps: set<string> := {
    "com.apple.finder",
    "com.apple.mail",
    "com.microsoft.Excel",
    "com.microsoft.Word",
    "com.microsoft.Powerpoint",
    "com.apple.iWork.Pages",
    "com.apple.iWork.Numbers",
    "com.apple.iWork.Keynote"
  }

  /** The messaging and calling applications. */
  const SocialApps: set<string> := {
    "com.tencent.xinWeChat",
    "com.apple.iChat",
    "com.apple.FaceTime",
    "com.skype.skype",
    "com.slack.Slack",
    "com.discord.Discord",
    "com.apple.Messages",
    "com.tencent.QQ",
    "com.tencent.WeChat",
    "com.tencent.tim"
  }

  /** The reading and reference applications. */
  const EducationApps: set<string> := {
    "com.apple.iBooks",
    "com.readdle.PDFExpert-Mac",
    "com.adobe.Reader",
    "org.zotero.zotero"
  }

  /** The game stores and launchers. */
  const Games: set<string> := {
    "com.steam.Steam",
    "com.epicgames.EpicGamesLauncher",
    "com.blizzard.BattleNet"
  }

  /** The video and music applications. */
  const EntertainmentApps: set<string> := {
    "com.apple.TV",
    "com.spotify.client",
    "com.netflix.Netflix",
    "com.bilibili.player",
    "com.tencent.QQMusic",
    "com.netease.163music"
  }

  /** The social-media applications. */
  const SocialMediaApps: set<string> := {
    "com.instagram.Instagram",
    "com.zhiliaoapp.musically",
    "com.xingin.discover"
  }

  /** The development tools. */
  const DevelopmentTools: set<string> := {
    "com.microsoft.VSCode",
    "com.apple.dt.Xcode",
    "com.sublimetext.4",
    "com.jetbrains.intellij",
    "com.cursor.Cursor",
    "com.DanPristupov.Fork"
  }

  /** The category of the group that lists `b`, and `Other` when none does. */
  function GroupOf(b: string): (c: AppCategory)
    ensures c == Other <==>
      b !in DevelopmentTools && b !in Browsers && b !in ProductivityApps && b !in SocialApps &&
      b !in Games && b !in EntertainmentApps && b !in SocialMediaApps && b !in EducationApps
    ensures b in DevelopmentTools ==> c == Development
    ensures b in Browsers ==> c == Browser
    ensures b in ProductivityApps ==> c == Productivity
    ensures b in SocialApps ==> c == Social
    ensures b in Games ==> c == Game
    ensures b in EntertainmentApps ==> c == Entertainment
    ensures b in SocialMediaApps ==> c == SocialMedia
    ensures b in EducationApps ==> c == Education
  {
    if b in DevelopmentTools then Development
    else if b in Browsers then Browser
    else if b in ProductivityApps then Productivity
    else if b in SocialApps then Social
    else if b in Games then Game
    else if b in EntertainmentApps then Entertainment
    else if b in SocialMediaApps then SocialMedia
    else if b in EducationApps then Education
    else Other
  }

  /** The fixed table from bundle identifier to category. */
  const ListedApps: set<string> :=
    DevelopmentTools + Browsers + ProductivityApps + SocialApps +
    Games + EntertainmentApps + SocialMediaApps + EducationApps

  const AppCategories: Table := map b | b in ListedApps :: GroupOf(b)

  /** No entry of the table names `Other`: that category only arises as the default. */
  lemma TableNeverSaysOther(b: string)
    ensures b in AppCategories ==> AppCategories[b] != Other
  {
    if b in AppCategories {
      assert b in ListedApps;
      assert GroupOf(b) == Other ==>
        b !in DevelopmentTools && b !in Browsers && b !in ProductivityApps && b !in SocialApps &&
        b !in Games && b !in EntertainmentApps && b !in SocialMediaApps && b !in EducationApps;
    }
  }

  /** Visual Studio Code and Xcode are development tools. */
  lemma DevelopmentEntries()
    ensures "com.microsoft.VSCode" in AppCategories && AppCategories["com.microsoft.VSCode"] == Development
    ensures "com.apple.dt.Xcode" in AppCategories && AppCategories["com.apple.dt.Xcode"] == Development
  {
  }

  /** Netflix is listed among entertainment and in no other group. */
  lemma NetflixListed()
    ensures "com.netflix.Netflix" !in DevelopmentTools
    ensures "com.netflix.Netflix" !in Browsers
    ensures "com.netflix.Netflix" !in ProductivityApps
    ensures "com.netflix.Netflix" !in SocialApps
    ensures "com.netflix.Netflix" !in Games
    ensures "com.netflix.Netflix" in EntertainmentApps
    ensures "com.netflix.Netflix" !in SocialMediaApps
    ensures "com.netflix.Netflix" !in EducationApps
  {
  }

  /** Netflix is entertainment. */
  lemma NetflixEntry()
    ensures "com.netflix.Netflix" in AppCategories && AppCategories["com.netflix.Netflix"] == Entertainment
  {
    NetflixListed();
  }

  /**
   * The category of an application under a classification table, total over
   * all identifiers: the table's entry when there is one, and `Other` for a
   * missing or unknown identifier.
   */
  function GetAppCategory(table: Table, bundleIdentifier: Option<string>): (c: AppCategory)
    ensures bundleIdentifier.None? ==> c == Other
    ensures bundleIdentifier.Some? && bundleIdentifier.value !in table ==> c == Other
    ensures bundleIdentifier.Some? && bundleIdentifier.value in table ==> c == table[bundleIdentifier.value]
  {
    match bundleIdentifier
    case None => Other
    case Some(bundleId) => if bundleId in table then table[bundleId] else Other
  }

  /** Under the fixed table, `Other` is exactly the answer for a missing or unknown identifier. */
  lemma OtherExactlyWhenUnknown(bundleIdentifier: Option<string>)
    ensures GetAppCategory(AppCategories, bundleIdentifier) == Other <==>
            bundleIdentifier.None? || bundleIdentifier.value !in AppCategories
    ensures bundleIdentifier.Some? && bundleIdentifier.value in AppCategories ==>
            GetAppCategory(AppCategories, bundleIdentifier) == AppCategories[bundleIdentifier.value]
  {
    if bundleIdentifier.Some? && bundleIdentifier.value in AppCategories {
      TableNeverSaysOther(bundleIdentifier.value);
    }
  }

  /** The identifier given to a frontmost application that has no bundle identifier. */
  const UnknownApp: string := "Unknown"

  /** The placeholder is in no group, taken one group at a time. */
  lemma UnknownNotListed()
    ensures UnknownApp !in DevelopmentTools
    ensures UnknownApp !in Browsers
    ensures UnknownApp !in ProductivityApps
    ensures UnknownApp !in SocialApps
    ensures UnknownApp !in Games
    ensures UnknownApp !in EntertainmentApps
    ensures UnknownApp !in SocialMediaApps
    ensures UnknownApp !in EducationApps
  {
  }

  /** The placeholder identifier is not in the table, so it classifies as `Other`. */
  lemma UnknownAppIsOther()
    ensures UnknownApp !in AppCategories
    ensures GetAppCategory(AppCategories, Some(UnknownApp)) == Other
  {
    UnknownNotListed();
  }

}
