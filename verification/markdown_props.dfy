/**
  What the README document promises, proved about the section functions of
  `Markdown` for any fragment record (and, where the wording matters, for
  the original fragments): which lines of a multi-line field survive, when
  each conditional block appears, the order of badges and links, the
  banner at the top and the footer and thanks at the bottom.
*/
module MarkdownProps {
  import opened Wrappers
  import opened JsString
  import opened Uri
  import opened ReadmeTypes
  import opened Markdown
  import opened ReadmeForm

  // ------------------------------------------------------------ kept lines

  /** A line is kept exactly when it is not blank. */
  lemma {:induction false} NonBlankMembers(lines: seq<string>)
    ensures forall x :: x in NonBlank(lines) <==> x in lines && !IsBlank(x)
  {
    if lines != [] {
      NonBlankMembers(lines[1..]);
      TrimEmptyIffBlank(lines[0]);
      assert lines == [lines[0]] + lines[1..];
    }
  }

  /** Filtering blank lines distributes over concatenation, so kept lines stay in order. */
  lemma {:induction false} NonBlankAppend(a: seq<string>, b: seq<string>)
    ensures NonBlank(a + b) == NonBlank(a) + NonBlank(b)
  {
    if a == [] {
      assert a + b == b;
    } else {
      assert (a + b)[0] == a[0] && (a + b)[1..] == a[1..] + b;
      NonBlankAppend(a[1..], b);
    }
  }

  /** No line is kept exactly when every line is blank. */
  lemma NonBlankEmpty(lines: seq<string>)
    ensures NonBlank(lines) == [] <==> forall i :: 0 <= i < |lines| ==> IsBlank(lines[i])
  {
    NonBlankMembers(lines);
    if NonBlank(lines) != [] {
      assert NonBlank(lines)[0] in NonBlank(lines);
    }
  }

  /** Two strings put together are blank exactly when both are. */
  lemma BlankConcat(a: string, b: string)
    ensures IsBlank(a + b) <==> IsBlank(a) && IsBlank(b)
  {
    if IsBlank(a) && IsBlank(b) {
      forall k | 0 <= k < |a + b| ensures IsWhiteSpace((a + b)[k]) {
        if k < |a| {
          assert (a + b)[k] == a[k];
        } else {
          assert (a + b)[k] == b[k - |a|];
        }
      }
    }
    if IsBlank(a + b) {
      forall k | 0 <= k < |a| ensures IsWhiteSpace(a[k]) {
        assert (a + b)[k] == a[k];
      }
      forall k | 0 <= k < |b| ensures IsWhiteSpace(b[k]) {
        assert (a + b)[|a| + k] == b[k];
      }
    }
  }

  /** Joined with a white-space separator, the text is blank exactly when every piece is. */
  lemma {:induction false} JoinBlank(parts: seq<string>, sep: char)
    requires IsWhiteSpace(sep)
    ensures IsBlank(Join(parts, [sep])) <==> forall i :: 0 <= i < |parts| ==> IsBlank(parts[i])
  {
    if |parts| > 1 {
      var rest := Join(parts[1..], [sep]);
      JoinBlank(parts[1..], sep);
      BlankConcat(parts[0] + [sep], rest);
      BlankConcat(parts[0], [sep]);
      assert forall i :: 1 <= i < |parts| ==> parts[i] == parts[1..][i - 1];
    }
  }

  /** A multi-line field keeps no line exactly when the whole field is blank. */
  lemma KeptLinesEmpty(text: string)
    ensures KeptLines(text) == [] <==> IsBlank(text)
  {
    var lines := Split(text, '\n');
    SplitJoin(text, '\n');
    JoinBlank(lines, '\n');
    NonBlankEmpty(lines);
  }

  /**
    The kept lines of a field are exactly its non-blank lines, none holds a
    line break, and none is blank.
  */
  lemma KeptLinesSpec(text: string)
    ensures forall x :: x in KeptLines(text) <==> x in Split(text, '\n') && !IsBlank(x)
    ensures forall i :: 0 <= i < |KeptLines(text)| ==> '\n' !in KeptLines(text)[i] && !IsBlank(KeptLines(text)[i])
  {
    var lines := Split(text, '\n');
    NonBlankMembers(lines);
    SplitSpec(text, '\n');
    forall i | 0 <= i < |KeptLines(text)| ensures '\n' !in KeptLines(text)[i] {
      assert KeptLines(text)[i] in lines;
    }
  }

  // --------------------------------------------------------- list sections

  /** Bullets distribute over concatenation: one bullet per line, in order. */
  lemma {:induction false} BulletsAppend(t: Templates, a: seq<string>, b: seq<string>)
    ensures Bullets(t, a + b) == Bullets(t, a) + Bullets(t, b)
  {
    if b == [] {
      assert a + b == a;
    } else {
      var n := |b| - 1;
      var ab, pre := a + b, a + b[..n];
      assert ab[..|ab| - 1] == pre && ab[|ab| - 1] == b[n];
      BulletsAppend(t, a, b[..n]);
      ConcatAssoc(Bullets(t, a), Bullets(t, b[..n]), Bullet(t, b[n]));
    }
  }

  /** String concatenation is associative. */
  lemma ConcatAssoc(x: string, y: string, z: string)
    ensures (x + y) + z == x + (y + z)
  {
  }

  /**
    A list section appears exactly when it is switched on and its text is
    not blank; it is then the heading and one bullet per kept line.
  */
  lemma ListSectionShown(t: Templates, show: bool, text: string, heading: string)
    ensures ListSection(t, show, text, heading)
      == if show && !IsBlank(text) then heading + Bullets(t, KeptLines(text)) + t.frame.newline else ""
  {
    KeptLinesEmpty(text);
  }

  /** With a non-empty heading, a list section is never an empty heading and never empty when shown. */
  lemma ListSectionIff(t: Templates, show: bool, text: string, heading: string)
    requires heading != ""
    ensures ListSection(t, show, text, heading) != "" <==> show && !IsBlank(text)
    ensures ListSection(t, show, text, heading) != "" ==> |KeptLines(text)| > 0
  {
    KeptLinesEmpty(text);
  }

  // ----------------------------------------------------------------- about

  /** The i-th badge is made from the i-th line. */
  lemma {:induction false} LineBadgeAt(t: Templates, kind: AboutKind, lines: seq<string>, i: nat)
    requires i < |lines|
    ensures LineBadges(t, kind, lines)[i] == LineBadge(t, kind, lines[i])
  {
    var n := |lines| - 1;
    if i < n {
      var pre := lines[..n];
      LineBadgeAt(t, kind, pre, i);
      assert pre[i] == lines[i];
    }
  }

  /** A multi-line field gives one badge per non-blank line, and none when it is blank. */
  lemma FieldBadgesSpec(t: Templates, kind: AboutKind, text: string)
    ensures |FieldBadges(t, kind, text)| == |KeptLines(text)|
    ensures FieldBadges(t, kind, text) == [] <==> IsBlank(text)
    ensures forall i :: 0 <= i < |KeptLines(text)| ==>
      FieldBadges(t, kind, text)[i] == LineBadge(t, kind, KeptLines(text)[i])
  {
    KeptLinesEmpty(text);
    var lines := KeptLines(text);
    forall i | 0 <= i < |lines| ensures FieldBadges(t, kind, text)[i] == LineBadge(t, kind, lines[i]) {
      LineBadgeAt(t, kind, lines, i);
    }
  }

  /**
    A `currentWork` line `name|link` (optionally followed by more
    `|`-separated text) links its badge: the trimmed name is the label and
    the trimmed link the target, both percent-encoded.
  */
  lemma WorkBadgeLinked(t: Templates, name: string, link: string, rest: string)
    requires '|' !in name && '|' !in link
    requires rest == [] || rest[0] == '|'
    ensures WorkBadge(t, name + "|" + link + rest)
      == t.about.workBadge + EncodeURIComponent(Trim(name)) + t.about.workLinked
         + EncodeURIComponent(Trim(link)) + t.about.badgeEnd
  {
    var item := name + "|" + link + rest;
    assert item == name + ("|" + (link + rest));
    assert item[|name|] == '|';
    var r := Split(rest, '|');
    assert r[0] == "" by {
      if rest != [] {
        assert r == [""] + Split(rest[1..], '|');
      }
    }
    SplitHead(link, rest, '|');
    var afterBar := Split(link + rest, '|');
    assert afterBar[0] == link;
    var bar := "|" + (link + rest);
    assert Split(bar, '|') == [""] + afterBar by {
      assert bar[1..] == link + rest;
    }
    SplitHead(name, bar, '|');
    assert name + "" == name;
    var parts := Split(item, '|');
    assert parts[0] == name && parts[1] == link;
  }

  /**
    A `currentWork` line without `|` gets the plain badge: the trimmed line,
    percent-encoded, as its label and the code-logo style after it. The label
    holds no `=`, `&` or `"`, so the line cannot add a parameter (a `link=`
    target, say) of its own, and it decodes back to the trimmed line.
  */
  lemma WorkBadgePlain(t: Templates, item: string)
    requires '|' !in item
    ensures WorkBadge(t, item) == t.about.workBadge + EncodeURIComponent(Trim(item)) + t.about.workPlain
    ensures var text := EncodeURIComponent(Trim(item));
      forall k :: 0 <= k < |text| ==> text[k] != '=' && text[k] != '&' && text[k] != '"'
    ensures DecodeURIComponent(EncodeURIComponent(Trim(item))) == Some(Trim(item))
  {
    EncodedNoDelimiters(Trim(item));
    EncodeDecodeRoundTrip(Trim(item));
  }

  /** `s` holds `link=` ending at index `k`. */
  predicate LinkAt(s: string, k: int) {
    4 <= k < |s| && s[k - 4..k + 1] == "link="
  }

  /** A `link=` ending at `k` puts `=` at `k` and `k` just before it. */
  lemma LinkChars(s: string, k: int)
    requires LinkAt(s, k)
    ensures s[k] == '=' && s[k - 1] == 'k'
  {
    assert s[k] == s[k - 4..k + 1][4] && s[k - 1] == s[k - 4..k + 1][3];
  }

  /** No `=` of `s` follows a `k`, so no `link=` parameter can end inside `s`. */
  predicate NoLinkKey(s: string) {
    forall i :: 0 < i < |s| && s[i] == '=' ==> s[i - 1] != 'k'
  }

  /**
    A work line without a pipe gives a badge that links nowhere, whenever the
    badge's fixed fragments carry no `link=` themselves: the user's text is
    encoded, so it holds no `=` that could start one.
  */
  lemma PlainBadgeHasNoLink(t: Templates, item: string)
    requires '|' !in item
    requires NoLinkKey(t.about.workBadge) && NoLinkKey(t.about.workPlain)
    requires t.about.workPlain == [] || t.about.workPlain[0] != '='
    ensures forall k :: !LinkAt(WorkBadge(t, item), k)
  {
    var p, m, q := t.about.workBadge, EncodeURIComponent(Trim(item)), t.about.workPlain;
    WorkBadgePlain(t, item);
    var w := p + m + q;
    forall k | LinkAt(w, k) ensures false {
      LinkChars(w, k);
    }
  }

  /** No about badge at all exactly when every about field is blank or empty. */
  lemma AboutItemsEmpty(t: Templates, d: FormData)
    ensures AboutItems(t, d) == [] <==>
      IsBlank(d.currentWork) && IsBlank(d.currentLearning) && IsBlank(d.askAbout)
      && d.userEmail == "" && d.portfolioUrl == "" && d.blogUrl == ""
  {
    FieldBadgesSpec(t, Work, d.currentWork);
    FieldBadgesSpec(t, Learning, d.currentLearning);
    FieldBadgesSpec(t, Ask, d.askAbout);
  }

  /** With a non-empty opening, the about block appears exactly when some about field is filled. */
  lemma AboutBlockShown(t: Templates, d: FormData)
    requires t.contact.aboutOpen != ""
    ensures AboutBlock(t, AboutItems(t, d)) != "" <==>
      !(IsBlank(d.currentWork) && IsBlank(d.currentLearning) && IsBlank(d.askAbout)
        && d.userEmail == "" && d.portfolioUrl == "" && d.blogUrl == "")
  {
    AboutItemsEmpty(t, d);
  }

  // ---------------------------------------------------------------- social

  /** A platform is linked exactly when it is listed and has a handle. */
  lemma {:induction false} LinkedMembers(s: SocialMedia, ps: seq<Platform>)
    ensures forall p :: p in Linked(s, ps) <==> p in ps && Handle(s, p) != ""
  {
    if ps != [] {
      var n := |ps| - 1;
      LinkedMembers(s, ps[..n]);
      assert ps == ps[..n] + [ps[n]];
    }
  }

  /** Without any handle, no platform is linked. */
  lemma {:induction false} NoHandleNoLinks(s: SocialMedia, ps: seq<Platform>)
    requires forall p :: Handle(s, p) == ""
    ensures Linked(s, ps) == []
  {
    if ps != [] {
      NoHandleNoLinks(s, ps[..|ps| - 1]);
      assert Handle(s, ps[|ps| - 1]) == "";
    }
  }

  /** The platforms stand in the fixed platform order, each at most once. */
  predicate InPlatformOrder(ps: seq<Platform>) {
    forall i, j :: 0 <= i < j < |ps| ==> PlatformIndex(ps[i]) < PlatformIndex(ps[j])
  }

  /** Linked platforms keep the order of the list they come from. */
  lemma {:induction false} LinkedSorted(s: SocialMedia, ps: seq<Platform>)
    requires InPlatformOrder(ps)
    ensures InPlatformOrder(Linked(s, ps))
  {
    if ps != [] {
      var n := |ps| - 1;
      var pre := ps[..n];
      var init := Linked(s, pre);
      LinkedSorted(s, pre);
      LinkedMembers(s, pre);
      if Handle(s, ps[n]) != "" {
        var l := init + [ps[n]];
        assert Linked(s, ps) == l;
        forall i, j | 0 <= i < j < |l| ensures PlatformIndex(l[i]) < PlatformIndex(l[j]) {
          if j == |init| {
            assert l[i] == init[i] && init[i] in init;
            var k :| 0 <= k < n && pre[k] == init[i];
            assert ps[k] == l[i] && l[j] == ps[n];
          } else {
            assert l[i] == init[i] && l[j] == init[j];
          }
        }
      } else {
        assert Linked(s, ps) == init;
      }
    }
  }

  /** The i-th link belongs to the i-th linked platform and carries its handle. */
  lemma {:induction false} SocialLinksPointwise(t: Templates, s: SocialMedia, ps: seq<Platform>)
    ensures var l := Linked(s, ps);
      forall i :: 0 <= i < |l| ==> SocialLinksOf(t, s, ps)[i] == SocialLink(t, l[i], Handle(s, l[i]))
  {
    if ps != [] {
      var n := |ps| - 1;
      SocialLinksPointwise(t, s, ps[..n]);
    }
  }

  /**
    The social links: one per platform with a handle, in the fixed platform
    order, each for its own platform and handle.
  */
  lemma SocialLinksSpec(t: Templates, s: SocialMedia)
    ensures var l := Linked(s, AllPlatforms);
      && |SocialLinks(t, s)| == |l|
      && (forall p :: p in l <==> Handle(s, p) != "")
      && InPlatformOrder(l)
      && (forall i :: 0 <= i < |l| ==> SocialLinks(t, s)[i] == SocialLink(t, l[i], Handle(s, l[i])))
  {
    AllPlatformsExactlyOnce();
    forall i | 0 <= i < |AllPlatforms| ensures PlatformIndex(AllPlatforms[i]) == i {
      var k := PlatformIndex(AllPlatforms[i]);
      assert AllPlatforms[k] == AllPlatforms[i];
    }
    LinkedMembers(s, AllPlatforms);
    LinkedSorted(s, AllPlatforms);
    SocialLinksPointwise(t, s, AllPlatforms);
  }

  /** With a non-empty heading, the social block appears exactly when some handle is set. */
  lemma SocialBlockShown(t: Templates, s: SocialMedia)
    requires t.social.heading != ""
    ensures SocialBlock(t, SocialLinks(t, s)) != "" <==> exists p :: Handle(s, p) != ""
  {
    SocialLinksSpec(t, s);
    var l := Linked(s, AllPlatforms);
    if |l| > 0 {
      assert l[0] in l;
    }
    if exists p :: Handle(s, p) != "" {
      var p :| Handle(s, p) != "";
      assert p in l;
    }
  }

  // ---------------------------------------------------------------- skills

  /** One badge per skill, the i-th made from the i-th skill and the i-th colour pick. */
  lemma {:induction false} SkillBadgesPointwise(t: Templates, skills: seq<Skill>, picks: seq<PaletteIndex>)
    requires |picks| == |skills|
    ensures forall i :: 0 <= i < |skills| ==> SkillBadges(t, skills, picks)[i] == SkillBadge(t, skills[i], picks[i])
  {
    if skills != [] {
      var n := |skills| - 1;
      SkillBadgesPointwise(t, skills[..n], picks[..n]);
    }
  }

  /** The icon names are the skill names, in order. */
  lemma {:induction false} SkillNamesPointwise(skills: seq<Skill>)
    ensures forall i :: 0 <= i < |skills| ==> SkillNames(skills)[i] == skills[i].name
  {
    if skills != [] {
      SkillNamesPointwise(skills[..|skills| - 1]);
    }
  }

  /**
    The icon list joins the skill names with commas; when no name holds a
    comma it splits back into exactly those names.
  */
  lemma IconListRoundTrip(skills: seq<Skill>)
    requires |skills| > 0
    requires forall i :: 0 <= i < |skills| ==> ',' !in skills[i].name
    ensures Split(Join(SkillNames(skills), ","), ',') == SkillNames(skills)
  {
    SkillNamesPointwise(skills);
    JoinSplit(SkillNames(skills), ',');
  }

  // ------------------------------------------------------- switched blocks

  /** The greeting needs a user name; the location and time-zone badges need their text (and toggle). */
  lemma HeaderGates(t: Templates, d: FormData)
    requires t.frame.divOpen != "" && t.frame.br != ""
    ensures Greeting(t, d) != "" <==> d.userName != ""
    ensures LocationLines(t, d.location) != "" <==> d.location != ""
    ensures TimezoneLines(t, d.custom) != "" <==>
      d.custom.Some? && d.custom.value.showTimezone && d.custom.value.timezone != ""
  {
  }

  /** The skills block needs a skill; the quote and the education paragraph need their toggle and text. */
  lemma SectionGates(t: Templates, d: FormData, picks: seq<PaletteIndex>)
    requires |picks| == |d.skills|
    requires t.frame.divOpen != "" && t.sections.quoteOpen != "" && t.sections.education != ""
    ensures SkillsBlock(t, d.skills, picks) != "" <==> d.skills != []
    ensures QuoteBlock(t, d.custom) != "" <==> d.custom.Some? && d.custom.value.showQuote && d.custom.value.quote != ""
    ensures EducationBlock(t, d.achievements) != "" <==>
      d.achievements.Some? && d.achievements.value.showEducation && d.achievements.value.education != ""
  {
  }

  /**
    The analytics section needs a GitHub handle, the blog markers a feed
    switched on, the support block a coffee or sponsor link, and the visitor
    counter its toggle and a GitHub handle.
  */
  lemma TailGates(t: Templates, d: FormData)
    requires t.frame.divOpen != "" && t.stats.heading != "" && t.tail.blogMarkers != "" && t.tail.supportHeading != ""
    ensures Analytics(t, d.social.github, d.stats) != "" <==> d.social.github != ""
    ensures BlogBlock(t, d.blog) != "" <==> d.blog.showDevtoPosts || d.blog.showMediumPosts || d.blog.showRssPosts
    ensures SupportBlock(t, SupportLinks(t, d)) != "" <==> d.buyMeCoffeeUsername != "" || d.sponsorUrl != ""
    ensures VisitorsBlock(t, d.social.github, d.stats) != "" <==> d.stats.showVisitors && d.social.github != ""
  {
  }

  /** The support block: the coffee link before the sponsor link, one per line, under one heading. */
  lemma SupportOrder(t: Templates, d: FormData)
    ensures var coffee, sponsor := d.buyMeCoffeeUsername, d.sponsorUrl;
      SupportBlock(t, SupportLinks(t, d)) ==
        if coffee != "" && sponsor != "" then
          t.tail.supportHeading + CoffeeLink(t, coffee) + t.frame.newline + SponsorLink(t, sponsor) + t.tail.supportEnd
        else if coffee != "" then t.tail.supportHeading + CoffeeLink(t, coffee) + t.tail.supportEnd
        else if sponsor != "" then t.tail.supportHeading + SponsorLink(t, sponsor) + t.tail.supportEnd
        else ""
  {
    var links := SupportLinks(t, d);
    if d.buyMeCoffeeUsername != "" && d.sponsorUrl != "" {
      var a, b, nl := CoffeeLink(t, d.buyMeCoffeeUsername), SponsorLink(t, d.sponsorUrl), t.frame.newline;
      assert links == [a, b];
      assert links[1..] == [b];
      assert Join(links, nl) == a + nl + b;
      assert t.tail.supportHeading + (a + nl + b) + t.tail.supportEnd
        == t.tail.supportHeading + a + nl + b + t.tail.supportEnd;
    }
  }

  // ------------------------------------------------------------- analytics

  /** With every toggle off, the analytics section of a user is its heading alone. */
  lemma AnalyticsHeadingOnly(t: Templates, user: string, s: GitHubStats)
    requires user != ""
    requires forall f :: !StatFlagOf(s, f)
    ensures Analytics(t, user, s) == t.stats.heading
  {
    assert !StatFlagOf(s, ShowStats) && !StatFlagOf(s, ShowLanguages) && !StatFlagOf(s, ShowStreak);
    assert !StatFlagOf(s, ShowActivity) && !StatFlagOf(s, ShowMetrics) && !StatFlagOf(s, ShowProductivityStats);
    ProfileCardsOff(t, user, s);
    assert !StatFlagOf(s, ShowCommitGraph) && !StatFlagOf(s, ShowSummaryCard) && !StatFlagOf(s, ShowDetailedStats);
    assert !StatFlagOf(s, ShowWakaTime) && !StatFlagOf(s, ShowCodetime) && !StatFlagOf(s, ShowTrophy);
    assert !StatFlagOf(s, ShowContributions);
    ExtraCardsOff(t, user, s);
  }

  /** With the six profile cards switched off, none of them is emitted. */
  lemma ProfileCardsOff(t: Templates, user: string, s: GitHubStats)
    requires !s.showStats && !s.showLanguages && !s.showStreak
    requires !s.showActivity && !s.showMetrics && !s.showProductivityStats
    ensures ProfileCards(t, user, s) == ""
  {
  }

  /** With the seven remaining cards switched off, none of them is emitted. */
  lemma ExtraCardsOff(t: Templates, user: string, s: GitHubStats)
    requires !s.showCommitGraph && !s.showSummaryCard && !s.showDetailedStats && !s.showWakaTime
    requires !s.showCodetime && !s.showTrophy && !s.showContributions
    ensures ExtraCards(t, user, s) == ""
  {
  }

  /** The stats card carries `&theme=` exactly when its theme is not the default one. */
  lemma StatsThemeParam(t: Templates, user: string, s: GitHubStats)
    requires user != "" && s.showStats
    ensures s.statsTheme == t.stats.defaultTheme ==>
      Analytics(t, user, s)[..|t.stats.heading + StatsCard(t, user, "")|] == t.stats.heading + StatsCard(t, user, "")
    ensures s.statsTheme != t.stats.defaultTheme ==>
      Analytics(t, user, s)[..|t.stats.heading + StatsCard(t, user, t.stats.themeParam + s.statsTheme)|]
      == t.stats.heading + StatsCard(t, user, t.stats.themeParam + s.statsTheme)
  {
    var card := StatsCard(t, user, ThemeParam(t, s.statsTheme));
    var rest := ProfileCards(t, user, s);
    assert rest[..|card|] == card;
    var a := Analytics(t, user, s);
    assert a == t.stats.heading + rest + ExtraCards(t, user, s);
    assert a[..|t.stats.heading + card|] == t.stats.heading + card;
  }

  /** The card a toggle stands for, as it reads when the toggle is on. */
  function Card(t: Templates, user: string, s: GitHubStats, f: StatFlag): string {
    match f
    case ShowStats => StatsCard(t, user, ThemeParam(t, s.statsTheme))
    case ShowLanguages => LanguagesCard(t, user, ThemeParam(t, s.languagesTheme))
    case ShowStreak => StreakCard(t, user, ThemeParam(t, s.statsTheme))
    case ShowActivity => ActivityCard(t, user, ThemeParam(t, s.statsTheme))
    case ShowMetrics => Centered(t, MetricsImage(t, user))
    case ShowProductivityStats => Centered(t, ProductivityImages(t, user))
    case ShowCommitGraph => Centered(t, CommitGraphImage(t, user))
    case ShowSummaryCard => Centered(t, SummaryImage(t, user))
    case ShowDetailedStats => Centered(t, DetailedStatsImage(t, user))
    case ShowWakaTime =>
      Centered(t, t.extras.wakaTimeTitle + WakaTimeImage(t, s.wakaTimeUsername, ThemeParam(t, s.statsTheme)))
    case ShowCodetime => Centered(t, CodetimeImage(t, user))
    case ShowTrophy => TrophyCard(t, user)
    case ShowContributions => SnakeCard(t, user)
    case ShowVisitors => VisitorsCard(t, user)
  }

  /** A card is shown when its toggle is on; the WakaTime card also needs its own user name. */
  predicate CardShown(s: GitHubStats, f: StatFlag) {
    StatFlagOf(s, f) && (f == ShowWakaTime ==> s.wakaTimeUsername != "")
  }

  /** The place of one card in the analytics section: the card when shown, nothing otherwise. */
  function Slot(t: Templates, user: string, s: GitHubStats, f: StatFlag): string {
    if CardShown(s, f) then Card(t, user, s, f) else ""
  }

  /** A card is never empty, so a slot is empty exactly when its card is not shown. */
  lemma SlotEmptyIff(t: Templates, user: string, s: GitHubStats, f: StatFlag)
    requires t.frame.divOpen != ""
    ensures Slot(t, user, s, f) == "" <==> !CardShown(s, f)
  {
    assert |Card(t, user, s, f)| >= |t.frame.divOpen|;
  }

  /** The first six cards: one slot per toggle, in order. */
  lemma ProfileSlots(t: Templates, user: string, s: GitHubStats)
    ensures ProfileCards(t, user, s)
      == Slot(t, user, s, ShowStats) + Slot(t, user, s, ShowLanguages) + Slot(t, user, s, ShowStreak)
         + Slot(t, user, s, ShowActivity) + Slot(t, user, s, ShowMetrics) + Slot(t, user, s, ShowProductivityStats)
  {
  }

  /** The remaining seven cards: one slot per toggle, in order. */
  lemma ExtraSlots(t: Templates, user: string, s: GitHubStats)
    ensures ExtraCards(t, user, s)
      == Slot(t, user, s, ShowCommitGraph) + Slot(t, user, s, ShowSummaryCard) + Slot(t, user, s, ShowDetailedStats)
         + Slot(t, user, s, ShowWakaTime) + Slot(t, user, s, ShowCodetime) + Slot(t, user, s, ShowTrophy)
         + Slot(t, user, s, ShowContributions)
  {
  }

  /**
    The analytics section of a user is the heading followed by the thirteen
    slots in the order the cards are appended: each card sits in its own place,
    present exactly when its own toggle is on, whatever the others are.
  */
  lemma AnalyticsSlots(t: Templates, user: string, s: GitHubStats)
    requires user != ""
    ensures Analytics(t, user, s) == t.stats.heading
      + (Slot(t, user, s, ShowStats) + Slot(t, user, s, ShowLanguages) + Slot(t, user, s, ShowStreak)
         + Slot(t, user, s, ShowActivity) + Slot(t, user, s, ShowMetrics) + Slot(t, user, s, ShowProductivityStats))
      + (Slot(t, user, s, ShowCommitGraph) + Slot(t, user, s, ShowSummaryCard) + Slot(t, user, s, ShowDetailedStats)
         + Slot(t, user, s, ShowWakaTime) + Slot(t, user, s, ShowCodetime) + Slot(t, user, s, ShowTrophy)
         + Slot(t, user, s, ShowContributions))
  {
    ProfileSlots(t, user, s);
    ExtraSlots(t, user, s);
  }

  /**
    With the stats card the only analytics card switched on, the section is
    the heading and that card, themed unless the theme is the default one;
    every other card is left out.
  */
  lemma StatsCardAlone(t: Templates, user: string, s: GitHubStats)
    requires user != "" && s.showStats
    requires !s.showLanguages && !s.showStreak && !s.showActivity && !s.showMetrics && !s.showProductivityStats
    requires !s.showCommitGraph && !s.showSummaryCard && !s.showDetailedStats && !s.showWakaTime
    requires !s.showCodetime && !s.showTrophy && !s.showContributions
    ensures Analytics(t, user, s) == t.stats.heading + StatsCard(t, user, ThemeParam(t, s.statsTheme))
  {
    ExtraCardsOff(t, user, s);
    var h, p, e := t.stats.heading, ProfileCards(t, user, s), ExtraCards(t, user, s);
    assert Analytics(t, user, s) == h + p + e;
    assert h + p + "" == h + p;
  }

  // -------------------------------------------------------------- document

  /** A sum of nineteen pieces starts with the first piece. */
  lemma SumStart(s0: string, s1: string, s2: string, s3: string, s4: string, s5: string, s6: string,
                 s7: string, s8: string, s9: string, s10: string, s11: string, s12: string, s13: string,
                 s14: string, s15: string, s16: string, s17: string, s18: string)
    ensures var sum := s0 + s1 + s2 + s3 + s4 + s5 + s6 + s7 + s8 + s9 + s10 + s11 + s12 + s13 + s14 + s15
                       + s16 + s17 + s18;
      |s0| <= |sum| && sum[..|s0|] == s0
  {
    var rest := s1 + s2 + s3 + s4 + s5 + s6 + s7 + s8 + s9 + s10 + s11 + s12 + s13 + s14 + s15 + s16 + s17 + s18;
    assert s0 + s1 + s2 + s3 + s4 + s5 + s6 + s7 + s8 + s9 + s10 + s11 + s12 + s13 + s14 + s15 + s16 + s17 + s18 == s0 + rest;
  }

  /** A sum of nineteen pieces ends with the last two. */
  lemma SumEnd(s0: string, s1: string, s2: string, s3: string, s4: string, s5: string, s6: string,
                 s7: string, s8: string, s9: string, s10: string, s11: string, s12: string, s13: string,
                 s14: string, s15: string, s16: string, s17: string, s18: string)
    ensures s0 + s1 + s2 + s3 + s4 + s5 + s6 + s7 + s8 + s9 + s10 + s11 + s12 + s13 + s14 + s15 + s16 + s17 + s18
      == (s0 + s1 + s2 + s3 + s4 + s5 + s6 + s7 + s8 + s9 + s10 + s11 + s12 + s13 + s14 + s15 + s16) + (s17 + s18)
  {
  }

  /** A string starts with its first part. */
  lemma Prefix(start: string, rest: string)
    ensures (start + rest)[..|start|] == start
  {
  }

  /** A string ends with its last part. */
  lemma Suffix(body: string, end: string)
    ensures (body + end)[|body + end| - |end|..] == end
  {
  }

  /** A sum of nineteen pieces whose middle pieces other than the third are empty. */
  lemma SumOfFour(s0: string, s1: string, s2: string, s3: string, s4: string, s5: string, s6: string,
                 s7: string, s8: string, s9: string, s10: string, s11: string, s12: string, s13: string,
                 s14: string, s15: string, s16: string, s17: string, s18: string)
    requires s1 == [] && s3 == [] && s4 == [] && s5 == [] && s6 == [] && s7 == [] && s8 == [] && s9 == []
    requires s10 == [] && s11 == [] && s12 == [] && s13 == [] && s14 == [] && s15 == [] && s16 == []
    ensures s0 + s1 + s2 + s3 + s4 + s5 + s6 + s7 + s8 + s9 + s10 + s11 + s12 + s13 + s14 + s15
      + s16 + s17 + s18 == s0 + s2 + s17 + s18
  {
  }

  /** The document opens with the banner. */
  lemma BannerFirst(t: Templates, d: FormData, picks: seq<PaletteIndex>)
    requires |picks| == |d.skills|
    ensures |Banner(t, d)| <= |Document(t, d, picks)| && Document(t, d, picks)[..|Banner(t, d)|] == Banner(t, d)
  {
    SumStart(Banner(t, d), Greeting(t, d), Info(t, d), AboutBlock(t, AboutItems(t, d)),
      SocialBlock(t, SocialLinks(t, d.social)), SkillsBlock(t, d.skills, picks),
      QuoteBlock(t, d.custom), EducationBlock(t, d.achievements),
      CertificationsSection(t, d.achievements), AwardsSection(t, d.achievements),
      FunFactsSection(t, d.custom), GoalsSection(t, d.custom), HobbiesSection(t, d.custom),
      Analytics(t, d.social.github, d.stats), BlogBlock(t, d.blog),
      SupportBlock(t, SupportLinks(t, d)), VisitorsBlock(t, d.social.github, d.stats),
      Footer(t), Thanks(t));
  }

  /** The banner's `text=` parameter is the percent-encoded title, and it decodes back to the title. */
  lemma BannerTitle(t: Templates, d: FormData)
    ensures var top := t.frame.divOpen + t.header.bannerImage + EncodeURIComponent(Title(t, d));
      |top| <= |Banner(t, d)| && Banner(t, d)[..|top|] == top
    ensures DecodeURIComponent(EncodeURIComponent(Title(t, d))) == Some(Title(t, d))
  {
    var title := EncodeURIComponent(Title(t, d));
    var bio := EncodeURIComponent(d.userBio);
    CenteredStart(t.frame.divOpen, t.header.bannerImage, title, t.header.bannerDesc, bio, t.header.bannerEnd,
      t.frame.divClose);
    EncodeDecodeRoundTrip(Title(t, d));
  }

  /** A centred image whose first part is `image` starts with the opening tag and `image`. */
  lemma CenteredStart(open: string, image: string, p1: string, p2: string, p3: string, p4: string, close: string)
    ensures var top := open + image + p1;
      var whole := open + (image + p1 + p2 + p3 + p4) + close;
      |top| <= |whole| && whole[..|top|] == top
  {
    var top := open + image + p1;
    assert open + (image + p1 + p2 + p3 + p4) + close == top + (p2 + p3 + p4 + close);
  }

  /** The original banner title: the user name, or `GitHub Profile` when none is set. */
  lemma OriginalTitle(t: Templates, d: FormData)
    requires t.header == OriginalHeader()
    ensures Title(t, d) == if d.userName != "" then d.userName else "GitHub Profile"
  {
  }

  /** The document always closes with the footer wave and then the thanks block. */
  lemma EndsWithFooterAndThanks(t: Templates, d: FormData, picks: seq<PaletteIndex>)
    requires |picks| == |d.skills|
    ensures var doc := Document(t, d, picks);
      var end := Footer(t) + Thanks(t);
      |end| <= |doc| && doc[|doc| - |end|..] == end
  {
    var b0, b1, b2, b3 := Banner(t, d), Greeting(t, d), Info(t, d), AboutBlock(t, AboutItems(t, d));
    var b4, b5 := SocialBlock(t, SocialLinks(t, d.social)), SkillsBlock(t, d.skills, picks);
    var b6, b7 := QuoteBlock(t, d.custom), EducationBlock(t, d.achievements);
    var b8, b9 := CertificationsSection(t, d.achievements), AwardsSection(t, d.achievements);
    var b10, b11, b12 := FunFactsSection(t, d.custom), GoalsSection(t, d.custom), HobbiesSection(t, d.custom);
    var b13, b14 := Analytics(t, d.social.github, d.stats), BlogBlock(t, d.blog);
    var b15, b16 := SupportBlock(t, SupportLinks(t, d)), VisitorsBlock(t, d.social.github, d.stats);
    var end := Footer(t) + Thanks(t);
    SumEnd(b0, b1, b2, b3, b4, b5, b6, b7, b8, b9, b10, b11, b12, b13, b14, b15, b16, Footer(t), Thanks(t));
    var body := b0 + b1 + b2 + b3 + b4 + b5 + b6 + b7 + b8 + b9 + b10 + b11 + b12 + b13 + b14 + b15 + b16;
    assert Document(t, d, picks) == body + end;
    Suffix(body, end);
  }

  /**
    A configuration with every block switched off: no user name, location,
    contact, handle, skill or support link, blank about fields, and every
    toggle off (a missing achievements or custom group counts as off). The
    bio, the pronouns, the themes and the texts behind the toggles may be
    anything.
  */
  predicate AllOff(d: FormData) {
    && d.userName == "" && d.location == ""
    && IsBlank(d.currentWork) && IsBlank(d.currentLearning) && IsBlank(d.askAbout)
    && d.userEmail == "" && d.portfolioUrl == "" && d.blogUrl == ""
    && (forall p :: Handle(d.social, p) == "")
    && d.skills == []
    && (forall f :: !StatFlagOf(d.stats, f))
    && !d.blog.showDevtoPosts && !d.blog.showMediumPosts && !d.blog.showRssPosts
    && d.buyMeCoffeeUsername == "" && d.sponsorUrl == ""
    && (d.achievements.Some? ==>
          !d.achievements.value.showEducation && !d.achievements.value.showCertifications
          && !d.achievements.value.showAwards)
    && (d.custom.Some? ==>
          !d.custom.value.showQuote && !d.custom.value.showTimezone && !d.custom.value.showFunFacts
          && !d.custom.value.showGoals && !d.custom.value.showHobbies)
  }

  /** With every block switched off, the blocks about the person are empty. */
  lemma ProfileBlocksOff(t: Templates, d: FormData)
    requires AllOff(d)
    ensures Greeting(t, d) == [] && AboutBlock(t, AboutItems(t, d)) == []
    ensures SocialBlock(t, SocialLinks(t, d.social)) == [] && SkillsBlock(t, d.skills, []) == []
    ensures Info(t, d) == t.frame.divOpen + BioImage(t, d) + t.frame.divClose
  {
    AboutItemsEmpty(t, d);
    NoHandleNoLinks(d.social, AllPlatforms);
  }

  /** With every block switched off, the quote, the education paragraph and the five lists are empty. */
  lemma ListBlocksOff(t: Templates, d: FormData)
    requires AllOff(d)
    ensures QuoteBlock(t, d.custom) == [] && EducationBlock(t, d.achievements) == []
    ensures CertificationsSection(t, d.achievements) == [] && AwardsSection(t, d.achievements) == []
    ensures FunFactsSection(t, d.custom) == [] && GoalsSection(t, d.custom) == []
    ensures HobbiesSection(t, d.custom) == []
  {
  }

  /** With every block switched off, the analytics, blog, support and visitor blocks are empty. */
  lemma TailBlocksOff(t: Templates, d: FormData)
    requires AllOff(d)
    ensures Analytics(t, d.social.github, d.stats) == [] && BlogBlock(t, d.blog) == []
    ensures SupportBlock(t, SupportLinks(t, d)) == [] && VisitorsBlock(t, d.social.github, d.stats) == []
  {
    assert Handle(d.social, GitHub) == "";
  }

  /**
    With every block switched off the README is the banner, the bio line
    alone, the footer and the thanks block: the fixed branding is always
    there, and nothing else is.
  */
  lemma DefaultDocument(t: Templates, d: FormData)
    requires AllOff(d)
    ensures Info(t, d) == t.frame.divOpen + BioImage(t, d) + t.frame.divClose
    ensures Document(t, d, []) == Banner(t, d) + Info(t, d) + Footer(t) + Thanks(t)
  {
    ProfileBlocksOff(t, d);
    ListBlocksOff(t, d);
    TailBlocksOff(t, d);
    SumOfFour(Banner(t, d), Greeting(t, d), Info(t, d), AboutBlock(t, AboutItems(t, d)),
      SocialBlock(t, SocialLinks(t, d.social)), SkillsBlock(t, d.skills, []),
      QuoteBlock(t, d.custom), EducationBlock(t, d.achievements),
      CertificationsSection(t, d.achievements), AwardsSection(t, d.achievements),
      FunFactsSection(t, d.custom), GoalsSection(t, d.custom), HobbiesSection(t, d.custom),
      Analytics(t, d.social.github, d.stats), BlogBlock(t, d.blog),
      SupportBlock(t, SupportLinks(t, d)), VisitorsBlock(t, d.social.github, d.stats),
      Footer(t), Thanks(t));
  }

  /** The default configuration of the generator page has every block switched off. */
  lemma DefaultAllOff()
    ensures AllOff(DefaultFormData())
  {
  }
}
