/**
  `generateMarkdown`: the assembler itself, appending to a growing string
  and pushing to item lists the way the original does, proved to produce
  exactly `Markdown.Document`. Each method below performs the appends of one
  section of the original, statement by statement and behind the same
  conditions; `GenerateMarkdown` calls them in the original's order.
*/
module MarkdownGenerator {
  import opened Wrappers
  import opened JsString
  import opened Uri
  import opened ReadmeTypes
  import opened Markdown

  /** Regrouping a concatenation; lines an appended piece up with its section. */
  lemma Regroup<T>(a: seq<T>, b: seq<T>, c: seq<T>)
    ensures a + (b + c) == a + b + c
  {
  }

  lemma AppendEmpty<T>(s: seq<T>)
    ensures [] + s == s && s + [] == s
  {
  }

  /** A piece appended behind a condition is the piece or nothing. */
  lemma Gated<T>(md: seq<T>, acc: seq<T>, c: bool, piece: seq<T>)
    ensures (if c then md + acc + piece else md + acc) == md + (acc + (if c then piece else []))
  {
    AppendEmpty(acc);
    Regroup(md, acc, piece);
  }

  // ---------------------------------------------------------- small blocks

  /** `<div align="center">`, the body, `</div>`: three appends. */
  method AppendCentered(t: Templates, md: string, body: string) returns (out: string)
    ensures out == md + Centered(t, body)
  {
    out := md + t.frame.divOpen;
    out := out + body;
    out := out + t.frame.divClose;
    Regroup(md, t.frame.divOpen, body);
    Regroup(md, t.frame.divOpen + body, t.frame.divClose);
  }

  /** Appends every item followed by `suffix`, one append per item. */
  method AppendEach(md: string, items: seq<string>, suffix: string) returns (out: string)
    ensures out == md + EachWith(items, suffix)
  {
    out := md;
    AppendEmpty(md);
    var k := 0;
    while k < |items|
      invariant 0 <= k <= |items|
      invariant out == md + EachWith(items[..k], suffix)
    {
      assert items[..k + 1][..k] == items[..k];
      Regroup(md, EachWith(items[..k], suffix), items[k] + suffix);
      out := out + (items[k] + suffix);
      k := k + 1;
    }
    assert items[..k] == items;
  }

  // ------------------------------------------------------------- sections

  method AppendBanner(t: Templates, md: string, data: FormData) returns (out: string)
    ensures out == md + Banner(t, data)
  {
    out := AppendCentered(t, md, BannerImage(t, data));
  }

  method AppendGreeting(t: Templates, md: string, data: FormData) returns (out: string)
    ensures out == md + Greeting(t, data)
  {
    out := md;
    if data.userName != "" {
      out := out + t.frame.divOpen;
      out := out + GreetingImage(t, data.userName);
      Regroup(md, t.frame.divOpen, GreetingImage(t, data.userName));
      ghost var head := t.frame.divOpen + GreetingImage(t, data.userName);
      if data.pronouns != "" {
        out := out + PronounsHeading(t, data.pronouns);
      }
      Gated(md, head, data.pronouns != "", PronounsHeading(t, data.pronouns));
      out := out + t.frame.divClose;
      Regroup(md, head + PronounsLine(t, data.pronouns), t.frame.divClose);
    } else {
      AppendEmpty(md);
    }
  }

  method AppendInfo(t: Templates, md: string, data: FormData) returns (out: string)
    ensures out == md + Info(t, data)
  {
    out := md + t.frame.divOpen;
    out := out + BioImage(t, data);
    Regroup(md, t.frame.divOpen, BioImage(t, data));
    ghost var head := t.frame.divOpen + BioImage(t, data);

    if data.location != "" {
      out := out + t.frame.br;
      out := out + LocationBadge(t, data.location);
      Regroup(md + head, t.frame.br, LocationBadge(t, data.location));
    }
    Gated(md, head, data.location != "", t.frame.br + LocationBadge(t, data.location));
    head := head + LocationLines(t, data.location);

    var custom := data.custom;
    if custom.Some? && custom.value.showTimezone && custom.value.timezone != "" {
      out := out + t.frame.br;
      out := out + TimezoneBadge(t, custom.value.timezone);
      Regroup(md + head, t.frame.br, TimezoneBadge(t, custom.value.timezone));
      Gated(md, head, true, TimezoneLines(t, custom));
    } else {
      Gated(md, head, false, "");
    }
    head := head + TimezoneLines(t, custom);

    out := out + t.frame.divClose;
    Regroup(md, head, t.frame.divClose);
  }

  /** Taking one more line adds that line's badge at the end. */
  lemma LineBadgesSnoc(t: Templates, kind: AboutKind, lines: seq<string>, k: nat)
    requires k < |lines|
    ensures LineBadges(t, kind, lines[..k + 1]) == LineBadges(t, kind, lines[..k]) + [LineBadge(t, kind, lines[k])]
  {
    assert lines[..k + 1][..k] == lines[..k];
  }

  /**
    Pushes one badge per non-blank line of a multi-line field, when the
    field is not empty.
  */
  method PushFieldBadges(t: Templates, items: seq<string>, kind: AboutKind, text: string)
    returns (out: seq<string>)
    ensures out == items + FieldBadges(t, kind, text)
  {
    out := items;
    if text != "" {
      var lines := KeptLines(text);
      var k := 0;
      while k < |lines|
        invariant 0 <= k <= |lines|
        invariant out == items + LineBadges(t, kind, lines[..k])
      {
        var badge := LineBadge(t, kind, lines[k]);
        LineBadgesSnoc(t, kind, lines, k);
        Regroup(items, LineBadges(t, kind, lines[..k]), [badge]);
        out := out + [badge];
        k := k + 1;
      }
      assert lines[..k] == lines;
    } else {
      AppendEmpty(items);
    }
  }

  /** The email, portfolio and blog badges, each pushed when its field is set. */
  method PushContactBadges(t: Templates, items: seq<string>, data: FormData) returns (out: seq<string>)
    ensures out == items + ContactBadges(t, data)
  {
    out := items;
    if data.userEmail != "" {
      out := out + [EmailBadge(t, data.userEmail)];
    }
    ghost var email := if data.userEmail != "" then [EmailBadge(t, data.userEmail)] else [];
    AppendEmpty(items);
    if data.portfolioUrl != "" {
      out := out + [t.contact.portfolioBadge];
    }
    Gated(items, email, data.portfolioUrl != "", [t.contact.portfolioBadge]);
    ghost var portfolio := if data.portfolioUrl != "" then [t.contact.portfolioBadge] else [];
    if data.blogUrl != "" {
      out := out + [t.contact.blogBadge];
    }
    Gated(items, email + portfolio, data.blogUrl != "", [t.contact.blogBadge]);
  }

  /** `aboutItems`, in the order the original pushes them. */
  method CollectAboutItems(t: Templates, data: FormData) returns (aboutItems: seq<string>)
    ensures aboutItems == AboutItems(t, data)
  {
    aboutItems := PushFieldBadges(t, [], Work, data.currentWork);
    AppendEmpty(FieldBadges(t, Work, data.currentWork));
    aboutItems := PushFieldBadges(t, aboutItems, Learning, data.currentLearning);
    aboutItems := PushFieldBadges(t, aboutItems, Ask, data.askAbout);
    aboutItems := PushContactBadges(t, aboutItems, data);
  }

  method AppendAbout(t: Templates, md: string, aboutItems: seq<string>) returns (out: string)
    ensures out == md + AboutBlock(t, aboutItems)
  {
    out := md;
    if |aboutItems| > 0 {
      out := out + t.contact.aboutOpen;
      out := AppendEach(out, aboutItems, t.contact.aboutSeparator);
      out := out + t.contact.aboutClose;
      ghost var each := EachWith(aboutItems, t.contact.aboutSeparator);
      Regroup(md, t.contact.aboutOpen, each);
      Regroup(md, t.contact.aboutOpen + each, t.contact.aboutClose);
    } else {
      AppendEmpty(md);
    }
  }

  /** Walks the platform table in order, pushing a link for every handle that is set. */
  method CollectSocialLinks(t: Templates, social: SocialMedia) returns (socialLinks: seq<string>)
    ensures socialLinks == SocialLinks(t, social)
  {
    socialLinks := [];
    var k := 0;
    while k < |AllPlatforms|
      invariant 0 <= k <= |AllPlatforms|
      invariant socialLinks == SocialLinksOf(t, social, AllPlatforms[..k])
    {
      assert AllPlatforms[..k + 1][..k] == AllPlatforms[..k];
      var platform := AllPlatforms[k];
      var username := Handle(social, platform);
      if username != "" {
        socialLinks := socialLinks + [SocialLink(t, platform, username)];
      }
      k := k + 1;
    }
    assert AllPlatforms[..k] == AllPlatforms;
  }

  method AppendSocial(t: Templates, md: string, socialLinks: seq<string>) returns (out: string)
    ensures out == md + SocialBlock(t, socialLinks)
  {
    out := md;
    if |socialLinks| > 0 {
      out := out + t.social.heading;
      out := AppendEach(out, socialLinks, t.frame.newline);
      out := out + t.frame.divClose;
      ghost var each := EachWith(socialLinks, t.frame.newline);
      Regroup(md, t.social.heading, each);
      Regroup(md, t.social.heading + each, t.frame.divClose);
    } else {
      AppendEmpty(md);
    }
  }

  /** One badge per skill, each coloured by its own draw from the palette. */
  method AppendSkillBadges(t: Templates, md: string, skills: seq<Skill>, picks: seq<PaletteIndex>)
    returns (out: string)
    requires |picks| == |skills|
    ensures out == md + Concat(SkillBadges(t, skills, picks))
  {
    out := md;
    AppendEmpty(md);
    var k := 0;
    while k < |skills|
      invariant 0 <= k <= |skills|
      invariant out == md + Concat(SkillBadges(t, skills[..k], picks[..k]))
    {
      assert skills[..k + 1][..k] == skills[..k] && picks[..k + 1][..k] == picks[..k];
      ghost var done := SkillBadges(t, skills[..k], picks[..k]);
      var randomColor := picks[k];
      var badge := SkillBadge(t, skills[k], randomColor);
      assert SkillBadges(t, skills[..k + 1], picks[..k + 1]) == done + [badge];
      assert (done + [badge])[..|done|] == done;
      Regroup(md, Concat(done), badge);
      out := out + badge;
      k := k + 1;
    }
    assert skills[..k] == skills && picks[..k] == picks;
  }

  /** The heading, the badge list and its closing tags. */
  method AppendBadgeList(t: Templates, md: string, skills: seq<Skill>, picks: seq<PaletteIndex>)
    returns (out: string)
    requires |picks| == |skills|
    ensures out == md + BadgeList(t, skills, picks)
  {
    out := md + t.frame.divOpen;
    out := out + t.skills.title;
    out := out + t.skills.badgesOpen;
    Regroup(md, t.frame.divOpen, t.skills.title);
    Regroup(md, t.frame.divOpen + t.skills.title, t.skills.badgesOpen);
    ghost var head := t.frame.divOpen + t.skills.title + t.skills.badgesOpen;
    out := AppendSkillBadges(t, out, skills, picks);
    Regroup(md, head, Concat(SkillBadges(t, skills, picks)));
    head := head + Concat(SkillBadges(t, skills, picks));
    out := out + t.skills.badgesClose;
    Regroup(md, head, t.skills.badgesClose);
  }

  /** The icon strip; `i=` receives the skill names joined by commas. */
  method AppendIconStrip(t: Templates, md: string, skills: seq<Skill>) returns (out: string)
    ensures out == md + IconStrip(t, skills)
  {
    out := md + t.frame.divOpen;
    out := out + t.skills.iconsImage;
    var skillNames := Join(SkillNames(skills), t.skills.comma);
    out := out + (skillNames + t.skills.iconsEnd);
    out := out + t.frame.divClose;
    Regroup(md, t.frame.divOpen, t.skills.iconsImage);
    Regroup(md, t.frame.divOpen + t.skills.iconsImage, IconList(t, skills));
    Regroup(md, t.frame.divOpen + t.skills.iconsImage + IconList(t, skills), t.frame.divClose);
  }

  method AppendSkills(t: Templates, md: string, skills: seq<Skill>, picks: seq<PaletteIndex>)
    returns (out: string)
    requires |picks| == |skills|
    ensures out == md + SkillsBlock(t, skills, picks)
  {
    out := md;
    if |skills| > 0 {
      out := AppendBadgeList(t, out, skills, picks);
      out := AppendIconStrip(t, out, skills);
      Regroup(md, BadgeList(t, skills, picks), IconStrip(t, skills));
    } else {
      AppendEmpty(md);
    }
  }

  method AppendQuote(t: Templates, md: string, custom: Option<CustomSections>) returns (out: string)
    ensures out == md + QuoteBlock(t, custom)
  {
    out := md;
    if custom.Some? && custom.value.showQuote && custom.value.quote != "" {
      out := out + QuoteText(t, custom.value.quote);
    } else {
      AppendEmpty(md);
    }
  }

  method AppendEducation(t: Templates, md: string, achievements: Option<Achievements>) returns (out: string)
    ensures out == md + EducationBlock(t, achievements)
  {
    out := md;
    if achievements.Some? && achievements.value.showEducation && achievements.value.education != "" {
      out := out + EducationText(t, achievements.value.education);
    } else {
      AppendEmpty(md);
    }
  }

  /** Appends one bullet per line. */
  method AppendBullets(t: Templates, md: string, lines: seq<string>) returns (out: string)
    ensures out == md + Bullets(t, lines)
  {
    out := md;
    AppendEmpty(md);
    var k := 0;
    while k < |lines|
      invariant 0 <= k <= |lines|
      invariant out == md + Bullets(t, lines[..k])
    {
      assert lines[..k + 1][..k] == lines[..k];
      Regroup(md, Bullets(t, lines[..k]), Bullet(t, lines[k]));
      out := out + Bullet(t, lines[k]);
      k := k + 1;
    }
    assert lines[..k] == lines;
  }

  /** One bullet-list section: the toggle and the text, then the kept lines, then the heading. */
  method AppendListSection(t: Templates, md: string, show: bool, text: string, heading: string)
    returns (out: string)
    ensures out == md + ListSection(t, show, text, heading)
  {
    out := md;
    if show && text != "" {
      var list := KeptLines(text);
      if |list| > 0 {
        out := out + heading;
        out := AppendBullets(t, out, list);
        out := out + t.frame.newline;
        Regroup(md, heading, Bullets(t, list));
        Regroup(md, heading + Bullets(t, list), t.frame.newline);
      } else {
        AppendEmpty(md);
      }
    } else {
      AppendEmpty(md);
    }
  }

  method AppendAchievementLists(t: Templates, md: string, achievements: Option<Achievements>)
    returns (out: string)
    ensures out == md + CertificationsSection(t, achievements) + AwardsSection(t, achievements)
  {
    out := md;
    if achievements.Some? {
      var a := achievements.value;
      out := AppendListSection(t, out, a.showCertifications, a.certifications, t.sections.certifications);
      out := AppendListSection(t, out, a.showAwards, a.awards, t.sections.awards);
    } else {
      AppendEmpty(md);
    }
  }

  method AppendCustomLists(t: Templates, md: string, custom: Option<CustomSections>) returns (out: string)
    ensures out == md + FunFactsSection(t, custom) + GoalsSection(t, custom) + HobbiesSection(t, custom)
  {
    out := md;
    if custom.Some? {
      var c := custom.value;
      out := AppendListSection(t, out, c.showFunFacts, c.funFacts, t.sections.funFacts);
      out := AppendListSection(t, out, c.showGoals, c.goals, t.sections.goals);
      out := AppendListSection(t, out, c.showHobbies, c.hobbies, t.sections.hobbies);
    } else {
      AppendEmpty(md);
    }
  }

  // ------------------------------------------------------------- analytics

  method AppendProductivity(t: Templates, md: string, user: string) returns (out: string)
    ensures out == md + Centered(t, ProductivityImages(t, user))
  {
    out := md + t.frame.divOpen;
    out := out + ProfileDetailsImage(t, user);
    out := out + t.cards.doubleBreak;
    out := out + ReposPerLanguageImage(t, user);
    out := out + MostCommitLanguageImage(t, user);
    out := out + t.frame.divClose;
    ghost var p1 := t.frame.divOpen + ProfileDetailsImage(t, user);
    ghost var p2 := p1 + t.cards.doubleBreak;
    ghost var p3 := p2 + ReposPerLanguageImage(t, user);
    ghost var p4 := p3 + MostCommitLanguageImage(t, user);
    Regroup(md, t.frame.divOpen, ProfileDetailsImage(t, user));
    Regroup(md, p1, t.cards.doubleBreak);
    Regroup(md, p2, ReposPerLanguageImage(t, user));
    Regroup(md, p3, MostCommitLanguageImage(t, user));
    Regroup(md, p4, t.frame.divClose);
  }

  method AppendWakaTime(t: Templates, md: string, wakaUser: string, statsTheme: string) returns (out: string)
    ensures out == md + Centered(t, t.extras.wakaTimeTitle + WakaTimeImage(t, wakaUser, statsTheme))
  {
    out := md + t.frame.divOpen;
    out := out + t.extras.wakaTimeTitle;
    out := out + WakaTimeImage(t, wakaUser, statsTheme);
    out := out + t.frame.divClose;
    ghost var p1 := t.frame.divOpen + t.extras.wakaTimeTitle;
    ghost var p2 := p1 + WakaTimeImage(t, wakaUser, statsTheme);
    Regroup(md, t.frame.divOpen, t.extras.wakaTimeTitle);
    Regroup(md, p1, WakaTimeImage(t, wakaUser, statsTheme));
    Regroup(md, p2, t.frame.divClose);
  }

  /** The first six cards, each behind its toggle; the themes are the ones computed once by the caller. */
  method AppendProfileCards(t: Templates, md: string, user: string, stats: GitHubStats,
                            statsTheme: string, languagesTheme: string) returns (out: string)
    requires statsTheme == ThemeParam(t, stats.statsTheme)
    requires languagesTheme == ThemeParam(t, stats.languagesTheme)
    ensures out == md + ProfileCards(t, user, stats)
  {
    out := md;
    ghost var acc: string := [];
    AppendEmpty(md);
    if stats.showStats {
      out := out + StatsCard(t, user, statsTheme);
    }
    Gated(md, acc, stats.showStats, StatsCard(t, user, statsTheme));
    AppendEmpty(if stats.showStats then StatsCard(t, user, statsTheme) else "");
    acc := if stats.showStats then StatsCard(t, user, statsTheme) else "";
    if stats.showLanguages {
      out := out + LanguagesCard(t, user, languagesTheme);
    }
    Gated(md, acc, stats.showLanguages, LanguagesCard(t, user, languagesTheme));
    acc := acc + (if stats.showLanguages then LanguagesCard(t, user, languagesTheme) else "");
    if stats.showStreak {
      out := out + StreakCard(t, user, statsTheme);
    }
    Gated(md, acc, stats.showStreak, StreakCard(t, user, statsTheme));
    acc := acc + (if stats.showStreak then StreakCard(t, user, statsTheme) else "");
    if stats.showActivity {
      out := out + ActivityCard(t, user, statsTheme);
    }
    Gated(md, acc, stats.showActivity, ActivityCard(t, user, statsTheme));
    acc := acc + (if stats.showActivity then ActivityCard(t, user, statsTheme) else "");
    if stats.showMetrics {
      out := AppendCentered(t, out, MetricsImage(t, user));
    }
    Gated(md, acc, stats.showMetrics, Centered(t, MetricsImage(t, user)));
    acc := acc + (if stats.showMetrics then Centered(t, MetricsImage(t, user)) else "");
    if stats.showProductivityStats {
      out := AppendProductivity(t, out, user);
    }
    Gated(md, acc, stats.showProductivityStats, Centered(t, ProductivityImages(t, user)));
  }

  /** The remaining seven cards, each behind its toggle. */
  method AppendExtraCards(t: Templates, md: string, user: string, stats: GitHubStats, statsTheme: string)
    returns (out: string)
    requires statsTheme == ThemeParam(t, stats.statsTheme)
    ensures out == md + ExtraCards(t, user, stats)
  {
    out := md;
    ghost var acc: string := [];
    AppendEmpty(md);
    if stats.showCommitGraph {
      out := AppendCentered(t, out, CommitGraphImage(t, user));
    }
    Gated(md, acc, stats.showCommitGraph, Centered(t, CommitGraphImage(t, user)));
    AppendEmpty(if stats.showCommitGraph then Centered(t, CommitGraphImage(t, user)) else "");
    acc := if stats.showCommitGraph then Centered(t, CommitGraphImage(t, user)) else "";
    if stats.showSummaryCard {
      out := AppendCentered(t, out, SummaryImage(t, user));
    }
    Gated(md, acc, stats.showSummaryCard, Centered(t, SummaryImage(t, user)));
    acc := acc + (if stats.showSummaryCard then Centered(t, SummaryImage(t, user)) else "");
    if stats.showDetailedStats {
      out := AppendCentered(t, out, DetailedStatsImage(t, user));
    }
    Gated(md, acc, stats.showDetailedStats, Centered(t, DetailedStatsImage(t, user)));
    acc := acc + (if stats.showDetailedStats then Centered(t, DetailedStatsImage(t, user)) else "");
    ghost var waka := Centered(t, t.extras.wakaTimeTitle + WakaTimeImage(t, stats.wakaTimeUsername, statsTheme));
    if stats.showWakaTime && stats.wakaTimeUsername != "" {
      out := AppendWakaTime(t, out, stats.wakaTimeUsername, statsTheme);
    }
    Gated(md, acc, stats.showWakaTime && stats.wakaTimeUsername != "", waka);
    acc := acc + (if stats.showWakaTime && stats.wakaTimeUsername != "" then waka else "");
    if stats.showCodetime {
      out := AppendCentered(t, out, CodetimeImage(t, user));
    }
    Gated(md, acc, stats.showCodetime, Centered(t, CodetimeImage(t, user)));
    acc := acc + (if stats.showCodetime then Centered(t, CodetimeImage(t, user)) else "");
    if stats.showTrophy {
      out := out + TrophyCard(t, user);
    }
    Gated(md, acc, stats.showTrophy, TrophyCard(t, user));
    acc := acc + (if stats.showTrophy then TrophyCard(t, user) else "");
    if stats.showContributions {
      out := out + SnakeCard(t, user);
    }
    Gated(md, acc, stats.showContributions, SnakeCard(t, user));
  }

  /** The analytics block: the themes, the heading and the cards, all behind the GitHub handle. */
  method AppendAnalytics(t: Templates, md: string, githubUsername: string, stats: GitHubStats)
    returns (out: string)
    ensures out == md + Analytics(t, githubUsername, stats)
  {
    out := md;
    if githubUsername != "" {
      var statsTheme := if stats.statsTheme != t.stats.defaultTheme then t.stats.themeParam + stats.statsTheme else "";
      var languagesTheme :=
        if stats.languagesTheme != t.stats.defaultTheme then t.stats.themeParam + stats.languagesTheme else "";
      out := out + t.stats.heading;
      out := AppendProfileCards(t, out, githubUsername, stats, statsTheme, languagesTheme);
      out := AppendExtraCards(t, out, githubUsername, stats, statsTheme);
      ghost var profile := ProfileCards(t, githubUsername, stats);
      Regroup(md, t.stats.heading, profile);
      Regroup(md, t.stats.heading + profile, ExtraCards(t, githubUsername, stats));
    } else {
      AppendEmpty(md);
    }
  }

  // ------------------------------------------------------------------ tail

  method AppendBlog(t: Templates, md: string, blog: BlogPosts) returns (out: string)
    ensures out == md + BlogBlock(t, blog)
  {
    out := md;
    if blog.showDevtoPosts || blog.showMediumPosts || blog.showRssPosts {
      out := out + t.tail.blogMarkers;
    } else {
      AppendEmpty(md);
    }
  }

  /** `supportLinks`, then the support block when it is not empty. */
  method AppendSupport(t: Templates, md: string, data: FormData) returns (out: string)
    ensures out == md + SupportBlock(t, SupportLinks(t, data))
  {
    var supportLinks: seq<string> := [];
    if data.buyMeCoffeeUsername != "" {
      supportLinks := supportLinks + [CoffeeLink(t, data.buyMeCoffeeUsername)];
    }
    if data.sponsorUrl != "" {
      supportLinks := supportLinks + [SponsorLink(t, data.sponsorUrl)];
    }
    AppendEmpty(if data.buyMeCoffeeUsername != "" then [CoffeeLink(t, data.buyMeCoffeeUsername)] else []);
    assert supportLinks == SupportLinks(t, data);
    out := md;
    if |supportLinks| > 0 {
      out := out + SupportText(t, supportLinks);
    } else {
      AppendEmpty(md);
    }
  }

  method AppendVisitors(t: Templates, md: string, githubUsername: string, stats: GitHubStats)
    returns (out: string)
    ensures out == md + VisitorsBlock(t, githubUsername, stats)
  {
    out := md;
    if stats.showVisitors && githubUsername != "" {
      out := out + VisitorsCard(t, githubUsername);
    } else {
      AppendEmpty(md);
    }
  }

  method AppendThanks(t: Templates, md: string) returns (out: string)
    ensures out == md + Thanks(t)
  {
    out := md + t.frame.divOpen;
    out := out + t.tail.thanksTitle;
    out := out + t.tail.thanksImage;
    out := out + t.frame.divCloseLast;
    Regroup(md, t.frame.divOpen, t.tail.thanksTitle);
    Regroup(md, t.frame.divOpen + t.tail.thanksTitle, t.tail.thanksImage);
    Regroup(md, t.frame.divOpen + t.tail.thanksTitle + t.tail.thanksImage, t.frame.divCloseLast);
  }

  // ------------------------------------------------------------- assembler

  /**
    `generateMarkdown(data)`, with the fixed text taken from `t` and the
    palette draws from `picks`: the result is exactly `Document`.
  */
  method GenerateMarkdown(t: Templates, data: FormData, picks: seq<PaletteIndex>) returns (markdown: string)
    requires |picks| == |data.skills|
    ensures markdown == Document(t, data, picks)
  {
    markdown := "";
    markdown := AppendBanner(t, markdown, data);
    AppendEmpty(Banner(t, data));
    markdown := AppendGreeting(t, markdown, data);
    markdown := AppendInfo(t, markdown, data);

    var aboutItems := CollectAboutItems(t, data);
    markdown := AppendAbout(t, markdown, aboutItems);

    var socialLinks := CollectSocialLinks(t, data.social);
    markdown := AppendSocial(t, markdown, socialLinks);

    markdown := AppendSkills(t, markdown, data.skills, picks);
    markdown := AppendQuote(t, markdown, data.custom);
    markdown := AppendEducation(t, markdown, data.achievements);
    markdown := AppendAchievementLists(t, markdown, data.achievements);
    markdown := AppendCustomLists(t, markdown, data.custom);

    var githubUsername := data.social.github;
    markdown := AppendAnalytics(t, markdown, githubUsername, data.stats);
    markdown := AppendBlog(t, markdown, data.blog);
    markdown := AppendSupport(t, markdown, data);
    markdown := AppendVisitors(t, markdown, githubUsername, data.stats);
    markdown := AppendCentered(t, markdown, t.tail.footerImage);
    markdown := AppendThanks(t, markdown);
  }
}
