/**
  What `generateMarkdown` produces, section by section. Each interpolated
  template literal of the original is one function here, and each section
  is the concatenation of the literals the assembler appends for it, in the
  same order and behind the same conditions; the document is the
  concatenation of the sections.

  The fixed text of the template literals (the HTML around each value, the
  badge URLs, the headings) is gathered in `Templates`, one small record per
  part of the README, whose field values are given by `Original()`. Every
  section is stated for an arbitrary record, so what is proved about the
  structure of the document does not depend on the wording of the fragments.

  The random badge colours are an input: `picks[i]` is the palette index
  drawn for the i-th skill.
*/
module Markdown {
  import opened Wrappers
  import opened JsString
  import opened Uri
  import opened ReadmeTypes

  /** The fixed text of the wrapper `div`, line breaks and the pieces shared by every badge. */
  datatype Frame = Frame(
    divOpen: string, divClose: string, divCloseLast: string, br: string, altEnd: string,
    badgeLogo: string, logoAlt: string, dash: string, newline: string)

  /** The fixed text of the wave banner and the typing greeting. */
  datatype HeaderText = HeaderText(
    bannerImage: string, bannerDesc: string, bannerEnd: string, defaultTitle: string,
    greetingImage: string, greetingEnd: string, pronounsOpen: string, pronounsClose: string)

  /** The fixed text of the bio line and its location and time-zone badges. */
  datatype InfoText = InfoText(
    bioImage: string, bioEnd: string, defaultBio: string, locationBadge: string,
    locationEnd: string, timezoneBadge: string, timezoneEnd: string)

  /** The fixed text of the badges of the three multi-line about fields. */
  datatype AboutText = AboutText(
    workBadge: string, workLinked: string, workPlain: string, badgeEnd: string,
    learningBadge: string, learningEnd: string, askBadge: string, askEnd: string)

  /** The fixed text of the contact badges and the about block around all badges. */
  datatype ContactText = ContactText(
    emailBadge: string, emailEnd: string, portfolioBadge: string, blogBadge: string,
    aboutOpen: string, aboutSeparator: string, aboutClose: string)

  /** The fixed text of the social block and its links. */
  datatype SocialText = SocialText(
    heading: string, linkOpen: string, linkImage: string, linkClose: string)

  /** The fixed text of the skill badges and the icon strip. */
  datatype SkillsText = SkillsText(
    title: string, badgesOpen: string, badgeImage: string, badgesClose: string, iconsImage: string,
    iconsEnd: string, comma: string)

  /** The fixed text of the quote, the education paragraph and the bullet lists. */
  datatype SectionText = SectionText(
    quoteOpen: string, quoteClose: string, education: string, educationEnd: string,
    certifications: string, awards: string, funFacts: string, goals: string, hobbies: string,
    bullet: string)

  /** The fixed text of the analytics heading, the theme parameter and the four themed cards. */
  datatype StatsText = StatsText(
    heading: string, defaultTheme: string, themeParam: string, readmeStats: string,
    statsQuery: string, statsStyle: string, topLangs: string, languagesQuery: string,
    languagesStyle: string, streakImage: string, streakStyle: string, activityImage: string,
    activityStyle: string)

  /** The fixed text of the metrics, productivity, commit-graph, summary and detailed cards. */
  datatype CardsText = CardsText(
    metricsImage: string, metricsEnd: string, profileDetails: string, profileDetailsEnd: string,
    doubleBreak: string, reposPerLanguage: string, reposPerLanguageEnd: string,
    mostCommitLanguage: string, mostCommitLanguageEnd: string, commitGraphEnd: string,
    summaryEnd: string, detailedEnd: string)

  /** The fixed text of the WakaTime, coding-time, trophy and snake cards. */
  datatype ExtrasText = ExtrasText(
    wakaTimeTitle: string, wakaTimeImage: string, wakaTimeEnd: string, codetimeImage: string,
    codetimeEnd: string, trophyImage: string, trophyStyle: string, snakeImage: string,
    slash: string, snakeEnd: string)

  /** The fixed text of the blog markers, the support links, the visitor counter, the footer and the thanks block. */
  datatype TailText = TailText(
    blogMarkers: string, coffeeLink: string, coffeeEnd: string, sponsorLink: string,
    sponsorEnd: string, supportHeading: string, supportEnd: string, visitorsImage: string,
    visitorsStyle: string, footerImage: string, thanksTitle: string, thanksImage: string)

  /** Every fixed fragment of the template literals, grouped by the part of the README it belongs to. */
  datatype Templates = Templates(
    frame: Frame, header: HeaderText, info: InfoText, about: AboutText, contact: ContactText, social: SocialText,
    skills: SkillsText, sections: SectionText, stats: StatsText, cards: CardsText, extras: ExtrasText, tail: TailText)

  // The text of every fragment, one constant each.

  // frame
  const FrameDivOpen: string := "<div align=\"center\">\n"
  const FrameDivClose: string := "</div>\n\n"
  const FrameDivCloseLast: string := "</div>\n"
  const FrameBr: string := "<br/>\n"
  const FrameAltEnd: string := "\" />\n"
  const FrameBadgeLogo: string := "?style=for-the-badge&logo="
  const FrameLogoAlt: string := "&logoColor=white\" alt=\""
  const FrameDash: string := "-"
  const FrameNewline: string := "\n"

  // banner and greeting
  const HeaderBannerImage: string := "<img width=\"100%\" height=\"300\" src=\"https://capsule-render.vercel.app/api?type=waving&color=gradient&customColorList=0,2,2,5,30&height=300&section=header&text="
  const HeaderBannerDesc: string := "&fontSize=90&fontColor=fff&animation=fadeIn&fontAlignY=38&desc="
  const HeaderBannerEnd: string := "&descAlignY=51&descAlign=62\">\n"
  const HeaderDefaultTitle: string := "GitHub Profile"
  const HeaderGreetingImage: string := "<h1><img src=\"https://readme-typing-svg.herokuapp.com?font=Fira+Code&size=75&duration=1500&pause=1000&multiline=true&width=1200&height=140&lines=Hi+\U{1F44B},+I'm+"
  const HeaderGreetingEnd: string := "\" alt=\"Typing SVG\" /></h1>\n"
  const HeaderPronounsOpen: string := "<h3 style=\"color: #667eea;\">("
  const HeaderPronounsClose: string := ")</h3>\n"

  // bio line
  const InfoBioImage: string := "<img src=\"https://readme-typing-svg.herokuapp.com?font=Fira+Code&pause=1000&size=35&center=true&vCenter=true&width=1000&lines="
  const InfoBioEnd: string := "\" alt=\"Typing SVG\" />\n"
  const InfoDefaultBio: string := "Passionate Developer"
  const InfoLocationBadge: string := "<img src=\"https://img.shields.io/badge/\U{1F4CD}_Location-"
  const InfoLocationEnd: string := "-667eea?style=for-the-badge&labelColor=764ba2\" />\n"
  const InfoTimezoneBadge: string := "<img src=\"https://img.shields.io/badge/\U{1F552}_Timezone-"
  const InfoTimezoneEnd: string := "-43e97b?style=for-the-badge&labelColor=38f9d7\" />\n"

  // about badges
  const AboutWorkBadge: string := "<img src=\"https://img.shields.io/badge/\U{1F52D}_Currently_Working_On-"
  const AboutWorkLinked: string := "-667eea?style=for-the-badge&logo=github&logoColor=white&labelColor=764ba2&link="
  const AboutWorkPlain: string := "-667eea?style=for-the-badge&logo=code&logoColor=white&labelColor=764ba2\" />"
  const AboutBadgeEnd: string := "\" />"
  const AboutLearningBadge: string := "<img src=\"https://img.shields.io/badge/\U{1F331}_Currently_Learning-"
  const AboutLearningEnd: string := "-43e97b?style=for-the-badge&logo=book&logoColor=white&labelColor=38f9d7\" />"
  const AboutAskBadge: string := "<img src=\"https://img.shields.io/badge/\U{1F4AC}_Ask_Me_About-"
  const AboutAskEnd: string := "-f093fb?style=for-the-badge&logo=chat&logoColor=white&labelColor=f5576c\" />"

  // contact badges and about block
  const ContactEmailBadge: string := "<img src=\"https://img.shields.io/badge/\U{1F4EB}_Contact-"
  const ContactEmailEnd: string := "-4facfe?style=for-the-badge&logo=gmail&logoColor=white&labelColor=00f2fe\" />"
  const ContactPortfolioBadge: string := "<img src=\"https://img.shields.io/badge/\U{1F4C4}_Portfolio-View_My_Work-667eea?style=for-the-badge&logo=portfolio&logoColor=white&labelColor=764ba2\" />"
  const ContactBlogBadge: string := "<img src=\"https://img.shields.io/badge/\U{1F4DD}_Blog-Read_My_Articles-43e97b?style=for-the-badge&logo=blogger&logoColor=white&labelColor=38f9d7\" />"
  const ContactAboutOpen: string := "<div align=\"center\">\n\n"
  const ContactAboutSeparator: string := "\n<br/>\n"
  const ContactAboutClose: string := "\n</div>\n\n"

  // social links
  const SocialHeading: string := "<div align=\"center\">\n<h2>\U{1F310} Connect with me</h2>\n<br/>\n"
  const SocialLinkOpen: string := "<a href=\""
  const SocialLinkImage: string := "\" target=\"_blank\"><img src=\"https://img.shields.io/badge/"
  const SocialLinkClose: string := "\" /></a>"

  // skills
  const SkillsTitle: string := "<h2>\U{1F6E0}\U{FE0F} Languages and Tools</h2>\n<br/>\n"
  const SkillsBadgesOpen: string := "<div>\n"
  const SkillsBadgeImage: string := "<img src=\"https://img.shields.io/badge/"
  const SkillsBadgesClose: string := "</div>\n</div>\n\n"
  const SkillsIconsImage: string := "<img src=\"https://skillicons.dev/icons?i="
  const SkillsIconsEnd: string := "&theme=dark\" alt=\"Skills\" />\n"
  const SkillsComma: string := ","

  // quote, education and list sections
  const SectionQuoteOpen: string := "<div align=\"center\">\n<blockquote>\n<h3>\""
  const SectionQuoteClose: string := "\"</h3>\n</blockquote>\n</div>\n\n"
  const SectionEducation: string := "## \U{1F393} Education\n"
  const SectionEducationEnd: string := "\n\n"
  const SectionCertifications: string := "## \U{1F4DC} Certifications\n"
  const SectionAwards: string := "## \U{1F3C6} Awards & Recognition\n"
  const SectionFunFacts: string := "## \U{26A1} Fun Facts\n"
  const SectionGoals: string := "## \U{1F3AF} Current Goals\n"
  const SectionHobbies: string := "## \U{1F3A8} Hobbies & Interests\n"
  const SectionBullet: string := "- "

  // analytics heading and stats cards
  const StatsHeading: string := "<div align=\"center\">\n<h2>\U{1F4CA} GitHub Analytics & Statistics</h2>\n<br/>\n</div>\n\n"
  const StatsDefaultTheme: string := "default"
  const StatsThemeParam: string := "&theme="
  const StatsReadmeStats: string := "<img src=\"https://github-readme-stats.vercel.app/api?username="
  const StatsStatsQuery: string := "&show_icons=true&locale=en"
  const StatsStatsStyle: string := "&hide_border=true&bg_color=0D1117&title_color=58A6FF&text_color=C9D1D9&icon_color=F0883E\" alt=\""
  const StatsTopLangs: string := "<img src=\"https://github-readme-stats.vercel.app/api/top-langs?username="
  const StatsLanguagesQuery: string := "&show_icons=true&locale=en&layout=compact"
  const StatsLanguagesStyle: string := "&hide_border=true&bg_color=0D1117&title_color=58A6FF&text_color=C9D1D9\" alt=\""
  const StatsStreakImage: string := "<img src=\"https://github-readme-streak-stats.herokuapp.com/?user="
  const StatsStreakStyle: string := "&hide_border=true&background=0D1117&ring=58A6FF&fire=F0883E&currStreakLabel=C9D1D9\" alt=\""
  const StatsActivityImage: string := "<img src=\"https://github-readme-activity-graph.vercel.app/graph?username="
  const StatsActivityStyle: string := "&hide_border=true&area=true&bg_color=0D1117&color=58A6FF&line=F0883E&point=C9D1D9\" alt=\""

  // metrics and summary cards
  const CardsMetricsImage: string := "<img src=\"https://metrics.lecoq.io/"
  const CardsMetricsEnd: string := "?template=classic&base.header=0&base.activity=0&base.community=0&base.repositories=0&base.metadata=0&languages=1&lines=1&habits=1&followup=1&people=1&config.timezone=America%2FNew_York\" alt=\"Metrics\" />\n"
  const CardsProfileDetails: string := "<img src=\"https://github-profile-summary-cards.vercel.app/api/cards/profile-details?username="
  const CardsProfileDetailsEnd: string := "&theme=github_dark\" alt=\"Profile Details\" />\n"
  const CardsDoubleBreak: string := "<br/><br/>\n"
  const CardsReposPerLanguage: string := "<img src=\"https://github-profile-summary-cards.vercel.app/api/cards/repos-per-language?username="
  const CardsReposPerLanguageEnd: string := "&theme=github_dark\" alt=\"Repos per Language\" />\n"
  const CardsMostCommitLanguage: string := "<img src=\"https://github-profile-summary-cards.vercel.app/api/cards/most-commit-language?username="
  const CardsMostCommitLanguageEnd: string := "&theme=github_dark\" alt=\"Most Commit Language\" />\n"
  const CardsCommitGraphEnd: string := "&show_icons=true&count_private=true&hide_rank=true&custom_title=My%20GitHub%20Stats&disable_animations=false&theme=vision-friendly-dark\" alt=\"3D Stats\" />\n"
  const CardsSummaryEnd: string := "&theme=monokai\" alt=\"Summary Card\" />\n"
  const CardsDetailedEnd: string := "&show_icons=true&count_private=true&include_all_commits=true&line_height=20&title_color=7A7ADB&icon_color=2234AE&text_color=D3D3D3&bg_color=0,000000,130F40\" alt=\"Detailed Stats\" />\n"

  // WakaTime, Codetime, trophies and snake
  const ExtrasWakaTimeTitle: string := "<h3>\U{23F0} Weekly Development Breakdown</h3>\n"
  const ExtrasWakaTimeImage: string := "<img src=\"https://github-readme-stats.vercel.app/api/wakatime?username="
  const ExtrasWakaTimeEnd: string := "&hide_border=true&bg_color=0D1117&title_color=58A6FF&text_color=C9D1D9\" alt=\"WakaTime Stats\" />\n"
  const ExtrasCodetimeImage: string := "<img src=\"https://github-readme-stats.vercel.app/api/pin/?username="
  const ExtrasCodetimeEnd: string := "&repo=github-readme-stats&theme=dark&show_owner=true\" alt=\"Coding Time\" />\n"
  const ExtrasTrophyImage: string := "<img src=\"https://github-profile-trophy.vercel.app/?username="
  const ExtrasTrophyStyle: string := "&theme=darkhub&no-frame=true&no-bg=false&margin-w=4&row=2&column=4\" alt=\""
  const ExtrasSnakeImage: string := "<img src=\"https://raw.githubusercontent.com/"
  const ExtrasSlash: string := "/"
  const ExtrasSnakeEnd: string := "/output/github-contribution-grid-snake-dark.svg\" alt=\"Snake animation\" />\n"

  // blog, support, visitors, footer and thanks
  const TailBlogMarkers: string := "### \U{1F4DD} Latest Blog Posts\n<!-- BLOG-POST-LIST:START -->\n<!-- BLOG-POST-LIST:END -->\n\n"
  const TailCoffeeLink: string := "<a href=\"https://www.buymeacoffee.com/"
  const TailCoffeeEnd: string := "\"><img src=\"https://cdn.buymeacoffee.com/buttons/v2/default-yellow.png\" height=\"50\" width=\"210\" alt=\"Buy Me A Coffee\" /></a>"
  const TailSponsorLink: string := "<a href=\""
  const TailSponsorEnd: string := "\"><img src=\"https://img.shields.io/badge/Sponsor-\U{2764}\U{FE0F}-red?style=for-the-badge\" alt=\"Sponsor\" /></a>"
  const TailSupportHeading: string := "## \U{2615}\U{FE0F} Support Me\n<div align=\"center\">\n"
  const TailSupportEnd: string := "\n</div>\n\n"
  const TailVisitorsImage: string := "<img src=\"https://komarev.com/ghpvc/?username="
  const TailVisitorsStyle: string := "&label=Profile%20views&color=gradient&style=for-the-badge\" alt=\""
  const TailFooterImage: string := "<img width=\"100%\" height=\"200\" src=\"https://capsule-render.vercel.app/api?type=waving&color=gradient&customColorList=0,2,2,5,30&height=200&section=footer&animation=fadeIn\" />\n"
  const TailThanksTitle: string := "<h3>\U{2728} Thanks for visiting my profile! \U{2728}</h3>\n"
  const TailThanksImage: string := "<img src=\"https://readme-typing-svg.herokuapp.com?font=Fira+Code&size=22&duration=3000&pause=1000&center=true&vCenter=true&width=600&lines=Let's+connect+and+build+something+amazing+together!\" alt=\"Typing SVG\" />\n"

  /** The fragments exactly as the original's template literals spell them. */
  function Original(): Templates {
    Templates(
      frame := OriginalFrame(),
      header := OriginalHeader(),
      info := OriginalInfo(),
      about := OriginalAbout(),
      contact := OriginalContact(),
      social := OriginalSocial(),
      skills := OriginalSkills(),
      sections := OriginalSections(),
      stats := OriginalStats(),
      cards := OriginalCards(),
      extras := OriginalExtras(),
      tail := OriginalTail())
  }

  function OriginalFrame(): Frame {
    Frame(
      divOpen := FrameDivOpen,
      divClose := FrameDivClose,
      divCloseLast := FrameDivCloseLast,
      br := FrameBr,
      altEnd := FrameAltEnd,
      badgeLogo := FrameBadgeLogo,
      logoAlt := FrameLogoAlt,
      dash := FrameDash,
      newline := FrameNewline)
  }

  function OriginalHeader(): HeaderText {
    HeaderText(
      bannerImage := HeaderBannerImage,
      bannerDesc := HeaderBannerDesc,
      bannerEnd := HeaderBannerEnd,
      defaultTitle := HeaderDefaultTitle,
      greetingImage := HeaderGreetingImage,
      greetingEnd := HeaderGreetingEnd,
      pronounsOpen := HeaderPronounsOpen,
      pronounsClose := HeaderPronounsClose)
  }

  function OriginalInfo(): InfoText {
    InfoText(
      bioImage := InfoBioImage,
      bioEnd := InfoBioEnd,
      defaultBio := InfoDefaultBio,
      locationBadge := InfoLocationBadge,
      locationEnd := InfoLocationEnd,
      timezoneBadge := InfoTimezoneBadge,
      timezoneEnd := InfoTimezoneEnd)
  }

  function OriginalAbout(): AboutText {
    AboutText(
      workBadge := AboutWorkBadge,
      workLinked := AboutWorkLinked,
      workPlain := AboutWorkPlain,
      badgeEnd := AboutBadgeEnd,
      learningBadge := AboutLearningBadge,
      learningEnd := AboutLearningEnd,
      askBadge := AboutAskBadge,
      askEnd := AboutAskEnd)
  }

  function OriginalContact(): ContactText {
    ContactText(
      emailBadge := ContactEmailBadge,
      emailEnd := ContactEmailEnd,
      portfolioBadge := ContactPortfolioBadge,
      blogBadge := ContactBlogBadge,
      aboutOpen := ContactAboutOpen,
      aboutSeparator := ContactAboutSeparator,
      aboutClose := ContactAboutClose)
  }

  function OriginalSocial(): SocialText {
    SocialText(
      heading := SocialHeading,
      linkOpen := SocialLinkOpen,
      linkImage := SocialLinkImage,
      linkClose := SocialLinkClose)
  }

  function OriginalSkills(): SkillsText {
    SkillsText(
      title := SkillsTitle,
      badgesOpen := SkillsBadgesOpen,
      badgeImage := SkillsBadgeImage,
      badgesClose := SkillsBadgesClose,
      iconsImage := SkillsIconsImage,
      iconsEnd := SkillsIconsEnd,
      comma := SkillsComma)
  }

  function OriginalSections(): SectionText {
    SectionText(
      quoteOpen := SectionQuoteOpen,
      quoteClose := SectionQuoteClose,
      education := SectionEducation,
      educationEnd := SectionEducationEnd,
      certifications := SectionCertifications,
      awards := SectionAwards,
      funFacts := SectionFunFacts,
      goals := SectionGoals,
      hobbies := SectionHobbies,
      bullet := SectionBullet)
  }

  function OriginalStats(): StatsText {
    StatsText(
      heading := StatsHeading,
      defaultTheme := StatsDefaultTheme,
      themeParam := StatsThemeParam,
      readmeStats := StatsReadmeStats,
      statsQuery := StatsStatsQuery,
      statsStyle := StatsStatsStyle,
      topLangs := StatsTopLangs,
      languagesQuery := StatsLanguagesQuery,
      languagesStyle := StatsLanguagesStyle,
      streakImage := StatsStreakImage,
      streakStyle := StatsStreakStyle,
      activityImage := StatsActivityImage,
      activityStyle := StatsActivityStyle)
  }

  function OriginalCards(): CardsText {
    CardsText(
      metricsImage := CardsMetricsImage,
      metricsEnd := CardsMetricsEnd,
      profileDetails := CardsProfileDetails,
      profileDetailsEnd := CardsProfileDetailsEnd,
      doubleBreak := CardsDoubleBreak,
      reposPerLanguage := CardsReposPerLanguage,
      reposPerLanguageEnd := CardsReposPerLanguageEnd,
      mostCommitLanguage := CardsMostCommitLanguage,
      mostCommitLanguageEnd := CardsMostCommitLanguageEnd,
      commitGraphEnd := CardsCommitGraphEnd,
      summaryEnd := CardsSummaryEnd,
      detailedEnd := CardsDetailedEnd)
  }

  function OriginalExtras(): ExtrasText {
    ExtrasText(
      wakaTimeTitle := ExtrasWakaTimeTitle,
      wakaTimeImage := ExtrasWakaTimeImage,
      wakaTimeEnd := ExtrasWakaTimeEnd,
      codetimeImage := ExtrasCodetimeImage,
      codetimeEnd := ExtrasCodetimeEnd,
      trophyImage := ExtrasTrophyImage,
      trophyStyle := ExtrasTrophyStyle,
      snakeImage := ExtrasSnakeImage,
      slash := ExtrasSlash,
      snakeEnd := ExtrasSnakeEnd)
  }

  function OriginalTail(): TailText {
    TailText(
      blogMarkers := TailBlogMarkers,
      coffeeLink := TailCoffeeLink,
      coffeeEnd := TailCoffeeEnd,
      sponsorLink := TailSponsorLink,
      sponsorEnd := TailSponsorEnd,
      supportHeading := TailSupportHeading,
      supportEnd := TailSupportEnd,
      visitorsImage := TailVisitorsImage,
      visitorsStyle := TailVisitorsStyle,
      footerImage := TailFooterImage,
      thanksTitle := TailThanksTitle,
      thanksImage := TailThanksImage)
  }


  // --------------------------------------------------------------- helpers

  /** The lines that are not blank, in order and kept untrimmed. */
  function NonBlank(lines: seq<string>): (r: seq<string>)
    ensures |r| <= |lines|
  {
    if lines == [] then []
    else (if Trim(lines[0]) != "" then [lines[0]] else []) + NonBlank(lines[1..])
  }

  /** The non-blank lines of a multi-line field, split on line feeds. */
  function KeptLines(text: string): seq<string> {
    NonBlank(Split(text, '\n'))
  }

  /** The items concatenated in order (a `forEach` of `+=`). */
  function Concat(items: seq<string>): string {
    if items == [] then "" else Concat(items[..|items| - 1]) + items[|items| - 1]
  }

  /** Every item followed by `suffix`, concatenated in order. */
  function EachWith(items: seq<string>, suffix: string): string {
    if items == [] then ""
    else EachWith(items[..|items| - 1], suffix) + (items[|items| - 1] + suffix)
  }

  /** The container the fixed sections sit in: an opening centred `div`, the body, the closing tag. */
  function Centered(t: Templates, body: string): string {
    t.frame.divOpen + body + t.frame.divClose
  }

  // ---------------------------------------------------------------- banner

  /** The user name, or the default title when the name is empty. */
  function Title(t: Templates, d: FormData): string {
    if d.userName != "" then d.userName else t.header.defaultTitle
  }

  /** The wave image: the title as `text=`, the bio as `desc=`, both percent-encoded. */
  function BannerImage(t: Templates, d: FormData): string {
    t.header.bannerImage + EncodeURIComponent(Title(t, d)) + t.header.bannerDesc
    + EncodeURIComponent(d.userBio) + t.header.bannerEnd
  }

  /** The wave banner: always the first block. */
  function Banner(t: Templates, d: FormData): string {
    Centered(t, BannerImage(t, d))
  }

  // -------------------------------------------------------------- greeting

  function GreetingImage(t: Templates, name: string): string {
    t.header.greetingImage + EncodeURIComponent(name) + t.header.greetingEnd
  }

  function PronounsHeading(t: Templates, pronouns: string): string {
    t.header.pronounsOpen + pronouns + t.header.pronounsClose
  }

  function PronounsLine(t: Templates, pronouns: string): string {
    if pronouns != "" then PronounsHeading(t, pronouns) else ""
  }

  /** The typing greeting, present only when a user name is set. */
  function Greeting(t: Templates, d: FormData): string {
    if d.userName == "" then ""
    else t.frame.divOpen + GreetingImage(t, d.userName) + PronounsLine(t, d.pronouns) + t.frame.divClose
  }

  // ------------------------------------------------------------------ info

  /** The bio, or the default bio line when the bio is empty. */
  function BioText(t: Templates, d: FormData): string {
    if d.userBio != "" then d.userBio else t.info.defaultBio
  }

  function BioImage(t: Templates, d: FormData): string {
    t.info.bioImage + EncodeURIComponent(BioText(t, d)) + t.info.bioEnd
  }

  function LocationBadge(t: Templates, location: string): string {
    t.info.locationBadge + EncodeURIComponent(location) + t.info.locationEnd
  }

  /** A break and the location badge, when a location is set. */
  function LocationLines(t: Templates, location: string): string {
    if location != "" then t.frame.br + LocationBadge(t, location) else ""
  }

  /** The timezone badge needs the custom group, its toggle and a non-empty timezone. */
  predicate ShowsTimezone(c: Option<CustomSections>) {
    c.Some? && c.value.showTimezone && c.value.timezone != ""
  }

  function TimezoneBadge(t: Templates, timezone: string): string {
    t.info.timezoneBadge + EncodeURIComponent(timezone) + t.info.timezoneEnd
  }

  /** A break and the time-zone badge, when the time zone is shown and set. */
  function TimezoneLines(t: Templates, c: Option<CustomSections>): string {
    if ShowsTimezone(c) then t.frame.br + TimezoneBadge(t, c.value.timezone) else ""
  }

  /** The bio line with the optional location and time-zone badges: always emitted. */
  function Info(t: Templates, d: FormData): string {
    t.frame.divOpen + BioImage(t, d) + LocationLines(t, d.location) + TimezoneLines(t, d.custom)
    + t.frame.divClose
  }

  // ----------------------------------------------------------------- about

  /** The three multi-line about fields. */
  datatype AboutKind = Work | Learning | Ask

  /**
    A `currentWork` line: `name | link` gets a linked badge, anything else a
    plain one. The destructuring keeps the first two segments of the split.
  */
  function WorkBadge(t: Templates, item: string): string {
    if '|' in item then
      var parts := Split(item, '|');
      t.about.workBadge + EncodeURIComponent(Trim(parts[0])) + t.about.workLinked
      + EncodeURIComponent(Trim(parts[1])) + t.about.badgeEnd
    else
      t.about.workBadge + EncodeURIComponent(Trim(item)) + t.about.workPlain
  }

  function LineBadge(t: Templates, kind: AboutKind, item: string): string {
    match kind
    case Work => WorkBadge(t, item)
    case Learning => t.about.learningBadge + EncodeURIComponent(Trim(item)) + t.about.learningEnd
    case Ask => t.about.askBadge + EncodeURIComponent(Trim(item)) + t.about.askEnd
  }

  /** One badge per line (`forEach` + `push`). */
  function LineBadges(t: Templates, kind: AboutKind, lines: seq<string>): (r: seq<string>)
    ensures |r| == |lines|
  {
    if lines == [] then []
    else LineBadges(t, kind, lines[..|lines| - 1]) + [LineBadge(t, kind, lines[|lines| - 1])]
  }

  /** The badges of one multi-line field; an empty field contributes none. */
  function FieldBadges(t: Templates, kind: AboutKind, text: string): seq<string> {
    if text != "" then LineBadges(t, kind, KeptLines(text)) else []
  }

  function EmailBadge(t: Templates, email: string): string {
    t.contact.emailBadge + EncodeURIComponent(email) + t.contact.emailEnd
  }

  /** The contact badges after the multi-line fields. */
  function ContactBadges(t: Templates, d: FormData): seq<string> {
    (if d.userEmail != "" then [EmailBadge(t, d.userEmail)] else [])
    + (if d.portfolioUrl != "" then [t.contact.portfolioBadge] else [])
    + (if d.blogUrl != "" then [t.contact.blogBadge] else [])
  }

  /** `aboutItems`: work, learning and ask lines, then email, portfolio and blog. */
  function AboutItems(t: Templates, d: FormData): seq<string> {
    FieldBadges(t, Work, d.currentWork) + FieldBadges(t, Learning, d.currentLearning)
    + FieldBadges(t, Ask, d.askAbout) + ContactBadges(t, d)
  }

  /** The about block, present only when there is at least one badge. */
  function AboutBlock(t: Templates, items: seq<string>): string {
    if |items| > 0 then t.contact.aboutOpen + EachWith(items, t.contact.aboutSeparator) + t.contact.aboutClose
    else ""
  }

  // ---------------------------------------------------------------- social

  /** The `key` of a platform row: the `social` field name and the badge logo. */
  function PlatformKey(p: Platform): string {
    match p
    case GitHub => "github" case LinkedIn => "linkedin" case Twitter => "twitter"
    case DevTo => "devto" case Medium => "medium" case YouTube => "youtube"
    case Instagram => "instagram" case Facebook => "facebook" case CodePen => "codepen"
    case Hashnode => "hashnode"
  }

  function PlatformName(p: Platform): string {
    match p
    case GitHub => "GitHub" case LinkedIn => "LinkedIn" case Twitter => "Twitter"
    case DevTo => "Dev.to" case Medium => "Medium" case YouTube => "YouTube"
    case Instagram => "Instagram" case Facebook => "Facebook" case CodePen => "CodePen"
    case Hashnode => "Hashnode"
  }

  function PlatformUrl(p: Platform): string {
    match p
    case GitHub => "https://github.com/" case LinkedIn => "https://linkedin.com/in/"
    case Twitter => "https://twitter.com/" case DevTo => "https://dev.to/"
    case Medium => "https://medium.com/@" case YouTube => "https://www.youtube.com/c/"
    case Instagram => "https://instagram.com/" case Facebook => "https://fb.com/"
    case CodePen => "https://codepen.io/" case Hashnode => "https://hashnode.com/@"
  }

  function PlatformColor(p: Platform): string {
    match p
    case GitHub => "333" case LinkedIn => "0077B5" case Twitter => "1DA1F2"
    case DevTo => "0A0A0A" case Medium => "12100E" case YouTube => "FF0000"
    case Instagram => "E4405F" case Facebook => "1877F2" case CodePen => "000000"
    case Hashnode => "2962FF"
  }

  /** The profile URL carries the raw handle; the badge label carries it percent-encoded. */
  function SocialLink(t: Templates, p: Platform, username: string): string {
    t.social.linkOpen + PlatformUrl(p) + username + t.social.linkImage + PlatformName(p) + t.frame.dash
    + EncodeURIComponent(username) + t.frame.dash + PlatformColor(p) + t.frame.badgeLogo + PlatformKey(p)
    + t.frame.logoAlt + PlatformName(p) + t.social.linkClose
  }

  /** The platforms of `ps` that have a handle, in the order of `ps`. */
  function Linked(s: SocialMedia, ps: seq<Platform>): seq<Platform> {
    if ps == [] then []
    else Linked(s, ps[..|ps| - 1]) + (if Handle(s, ps[|ps| - 1]) != "" then [ps[|ps| - 1]] else [])
  }

  /** One link per platform of `ps` with a handle. */
  function SocialLinksOf(t: Templates, s: SocialMedia, ps: seq<Platform>): (r: seq<string>)
    ensures |r| == |Linked(s, ps)|
  {
    if ps == [] then []
    else
      var p := ps[|ps| - 1];
      SocialLinksOf(t, s, ps[..|ps| - 1]) + (if Handle(s, p) != "" then [SocialLink(t, p, Handle(s, p))] else [])
  }

  /** `socialLinks`: the platform table walked in its fixed order. */
  function SocialLinks(t: Templates, s: SocialMedia): seq<string> {
    SocialLinksOf(t, s, AllPlatforms)
  }

  /** The social block, present only when at least one handle is set. */
  function SocialBlock(t: Templates, links: seq<string>): string {
    if |links| > 0 then t.social.heading + EachWith(links, t.frame.newline) + t.frame.divClose else ""
  }

  // ---------------------------------------------------------------- skills

  /** An index into the eight-colour palette, as one random draw yields. */
  type PaletteIndex = i: int | 0 <= i < 8

  const Palette: seq<string> := ["667eea", "764ba2", "43e97b", "38f9d7", "f093fb", "f5576c", "4facfe", "00f2fe"]

  /** A badge labelled with the capitalised name, coloured from the palette, with the raw name as logo. */
  function SkillBadge(t: Templates, skill: Skill, pick: PaletteIndex): string {
    var shown := Capitalize(skill.name);
    t.skills.badgeImage + shown + t.frame.dash + Palette[pick] + t.frame.badgeLogo + skill.name
    + t.frame.logoAlt + shown + t.frame.altEnd
  }

  /** One badge per skill (`forEach` over `data.skills`). */
  function SkillBadges(t: Templates, skills: seq<Skill>, picks: seq<PaletteIndex>): (r: seq<string>)
    requires |picks| == |skills|
    ensures |r| == |skills|
  {
    if skills == [] then []
    else
      var n := |skills| - 1;
      SkillBadges(t, skills[..n], picks[..n]) + [SkillBadge(t, skills[n], picks[n])]
  }

  /** The skill names, in order. */
  function SkillNames(skills: seq<Skill>): (r: seq<string>)
    ensures |r| == |skills|
  {
    if skills == [] then [] else SkillNames(skills[..|skills| - 1]) + [skills[|skills| - 1].name]
  }

  /** The heading and the badges, one after another. */
  function BadgeList(t: Templates, skills: seq<Skill>, picks: seq<PaletteIndex>): string
    requires |picks| == |skills|
  {
    t.frame.divOpen + t.skills.title + t.skills.badgesOpen + Concat(SkillBadges(t, skills, picks))
    + t.skills.badgesClose
  }

  /** The tail of the icon URL: the names joined by commas, then the rest of the tag. */
  function IconList(t: Templates, skills: seq<Skill>): string {
    Join(SkillNames(skills), t.skills.comma) + t.skills.iconsEnd
  }

  /** The skill-icon strip. */
  function IconStrip(t: Templates, skills: seq<Skill>): string {
    t.frame.divOpen + t.skills.iconsImage + IconList(t, skills) + t.frame.divClose
  }

  /** The badge list and the icon strip, present only when a skill is selected. */
  function SkillsBlock(t: Templates, skills: seq<Skill>, picks: seq<PaletteIndex>): string
    requires |picks| == |skills|
  {
    if |skills| > 0 then BadgeList(t, skills, picks) + IconStrip(t, skills) else ""
  }

  // ------------------------------------------------------ custom and awards

  predicate ShowsQuote(c: Option<CustomSections>) {
    c.Some? && c.value.showQuote && c.value.quote != ""
  }

  function QuoteText(t: Templates, quote: string): string {
    t.sections.quoteOpen + quote + t.sections.quoteClose
  }

  function QuoteBlock(t: Templates, c: Option<CustomSections>): string {
    if ShowsQuote(c) then QuoteText(t, c.value.quote) else ""
  }

  predicate ShowsEducation(a: Option<Achievements>) {
    a.Some? && a.value.showEducation && a.value.education != ""
  }

  function EducationText(t: Templates, education: string): string {
    t.sections.education + education + t.sections.educationEnd
  }

  function EducationBlock(t: Templates, a: Option<Achievements>): string {
    if ShowsEducation(a) then EducationText(t, a.value.education) else ""
  }

  /** One bullet: the marker, the trimmed line and a line feed. */
  function Bullet(t: Templates, line: string): string {
    t.sections.bullet + Trim(line) + t.frame.newline
  }

  /** One bullet per line. */
  function Bullets(t: Templates, lines: seq<string>): string {
    if lines == [] then "" else Bullets(t, lines[..|lines| - 1]) + Bullet(t, lines[|lines| - 1])
  }

  /** A heading followed by one bullet per kept line; nothing when no line is kept. */
  function ListSection(t: Templates, show: bool, text: string, heading: string): string {
    if show && text != "" then
      var items := KeptLines(text);
      if |items| > 0 then heading + Bullets(t, items) + t.frame.newline else ""
    else ""
  }

  function CertificationsSection(t: Templates, a: Option<Achievements>): string {
    if a.Some? then ListSection(t, a.value.showCertifications, a.value.certifications, t.sections.certifications)
    else ""
  }

  function AwardsSection(t: Templates, a: Option<Achievements>): string {
    if a.Some? then ListSection(t, a.value.showAwards, a.value.awards, t.sections.awards) else ""
  }

  function FunFactsSection(t: Templates, c: Option<CustomSections>): string {
    if c.Some? then ListSection(t, c.value.showFunFacts, c.value.funFacts, t.sections.funFacts) else ""
  }

  function GoalsSection(t: Templates, c: Option<CustomSections>): string {
    if c.Some? then ListSection(t, c.value.showGoals, c.value.goals, t.sections.goals) else ""
  }

  function HobbiesSection(t: Templates, c: Option<CustomSections>): string {
    if c.Some? then ListSection(t, c.value.showHobbies, c.value.hobbies, t.sections.hobbies) else ""
  }

  // ------------------------------------------------------------- analytics

  /** `&theme=<theme>` unless the theme is `default`. */
  function ThemeParam(t: Templates, theme: string): string {
    if theme != t.stats.defaultTheme then t.stats.themeParam + theme else ""
  }

  function StatsCard(t: Templates, user: string, theme: string): string {
    t.frame.divOpen + t.stats.readmeStats + user + t.stats.statsQuery + theme + t.stats.statsStyle + user
    + t.frame.altEnd + t.frame.divClose
  }

  function LanguagesCard(t: Templates, user: string, theme: string): string {
    t.frame.divOpen + t.stats.topLangs + user + t.stats.languagesQuery + theme + t.stats.languagesStyle + user
    + t.frame.altEnd + t.frame.divClose
  }

  function StreakCard(t: Templates, user: string, theme: string): string {
    t.frame.divOpen + t.stats.streakImage + user + theme + t.stats.streakStyle + user + t.frame.altEnd
    + t.frame.divClose
  }

  function ActivityCard(t: Templates, user: string, theme: string): string {
    t.frame.divOpen + t.stats.activityImage + user + theme + t.stats.activityStyle + user + t.frame.altEnd
    + t.frame.divClose
  }

  function MetricsImage(t: Templates, user: string): string {
    t.cards.metricsImage + user + t.cards.metricsEnd
  }

  function ProfileDetailsImage(t: Templates, user: string): string {
    t.cards.profileDetails + user + t.cards.profileDetailsEnd
  }

  function ReposPerLanguageImage(t: Templates, user: string): string {
    t.cards.reposPerLanguage + user + t.cards.reposPerLanguageEnd
  }

  function MostCommitLanguageImage(t: Templates, user: string): string {
    t.cards.mostCommitLanguage + user + t.cards.mostCommitLanguageEnd
  }

  /** The three summary cards of the productivity block. */
  function ProductivityImages(t: Templates, user: string): string {
    ProfileDetailsImage(t, user) + t.cards.doubleBreak + ReposPerLanguageImage(t, user)
    + MostCommitLanguageImage(t, user)
  }

  function CommitGraphImage(t: Templates, user: string): string {
    t.stats.readmeStats + user + t.cards.commitGraphEnd
  }

  function SummaryImage(t: Templates, user: string): string {
    t.cards.profileDetails + user + t.cards.summaryEnd
  }

  function DetailedStatsImage(t: Templates, user: string): string {
    t.stats.readmeStats + user + t.cards.detailedEnd
  }

  /** The WakaTime card takes the WakaTime user, not the GitHub one. */
  function WakaTimeImage(t: Templates, wakaUser: string, theme: string): string {
    t.extras.wakaTimeImage + wakaUser + theme + t.extras.wakaTimeEnd
  }

  function CodetimeImage(t: Templates, user: string): string {
    t.extras.codetimeImage + user + t.extras.codetimeEnd
  }

  function TrophyCard(t: Templates, user: string): string {
    t.frame.divOpen + t.extras.trophyImage + user + t.extras.trophyStyle + user + t.frame.altEnd
    + t.frame.divClose
  }

  /** The snake animation, served from the user's own `<user>/<user>` repository. */
  function SnakeCard(t: Templates, user: string): string {
    t.frame.divOpen + t.extras.snakeImage + user + t.extras.slash + user + t.extras.snakeEnd + t.frame.divClose
  }

  /** The first six cards after the analytics heading, each behind its own toggle. */
  function ProfileCards(t: Templates, user: string, s: GitHubStats): string {
    var statsTheme := ThemeParam(t, s.statsTheme);
    var languagesTheme := ThemeParam(t, s.languagesTheme);
    (if s.showStats then StatsCard(t, user, statsTheme) else "")
    + (if s.showLanguages then LanguagesCard(t, user, languagesTheme) else "")
    + (if s.showStreak then StreakCard(t, user, statsTheme) else "")
    + (if s.showActivity then ActivityCard(t, user, statsTheme) else "")
    + (if s.showMetrics then Centered(t, MetricsImage(t, user)) else "")
    + (if s.showProductivityStats then Centered(t, ProductivityImages(t, user)) else "")
  }

  /** The remaining seven cards, each behind its own toggle (WakaTime also needs its user name). */
  function ExtraCards(t: Templates, user: string, s: GitHubStats): string {
    (if s.showCommitGraph then Centered(t, CommitGraphImage(t, user)) else "")
    + (if s.showSummaryCard then Centered(t, SummaryImage(t, user)) else "")
    + (if s.showDetailedStats then Centered(t, DetailedStatsImage(t, user)) else "")
    + (if s.showWakaTime && s.wakaTimeUsername != ""
       then Centered(t, t.extras.wakaTimeTitle + WakaTimeImage(t, s.wakaTimeUsername, ThemeParam(t, s.statsTheme)))
       else "")
    + (if s.showCodetime then Centered(t, CodetimeImage(t, user)) else "")
    + (if s.showTrophy then TrophyCard(t, user) else "")
    + (if s.showContributions then SnakeCard(t, user) else "")
  }

  /** The analytics section, present only when a GitHub handle is set. */
  function Analytics(t: Templates, user: string, s: GitHubStats): string {
    if user != "" then t.stats.heading + ProfileCards(t, user, s) + ExtraCards(t, user, s) else ""
  }

  // --------------------------------------------------- blog, support, tail

  /** The markers a blog-post workflow fills in, present when any feed is switched on. */
  function BlogBlock(t: Templates, b: BlogPosts): string {
    if b.showDevtoPosts || b.showMediumPosts || b.showRssPosts then t.tail.blogMarkers else ""
  }

  function CoffeeLink(t: Templates, username: string): string {
    t.tail.coffeeLink + username + t.tail.coffeeEnd
  }

  function SponsorLink(t: Templates, url: string): string {
    t.tail.sponsorLink + url + t.tail.sponsorEnd
  }

  /** `supportLinks`: Buy Me a Coffee first, then the sponsor link. */
  function SupportLinks(t: Templates, d: FormData): seq<string> {
    (if d.buyMeCoffeeUsername != "" then [CoffeeLink(t, d.buyMeCoffeeUsername)] else [])
    + (if d.sponsorUrl != "" then [SponsorLink(t, d.sponsorUrl)] else [])
  }

  /** The support block: the links joined by line breaks, present only when there is a link. */
  function SupportText(t: Templates, links: seq<string>): string {
    t.tail.supportHeading + Join(links, t.frame.newline) + t.tail.supportEnd
  }

  function SupportBlock(t: Templates, links: seq<string>): string {
    if |links| > 0 then SupportText(t, links) else ""
  }

  function VisitorsCard(t: Templates, user: string): string {
    t.frame.divOpen + t.tail.visitorsImage + user + t.tail.visitorsStyle + user + t.frame.altEnd
    + t.frame.divClose
  }

  /** The visitor counter, present when it is switched on and a GitHub handle is set. */
  function VisitorsBlock(t: Templates, user: string, s: GitHubStats): string {
    if s.showVisitors && user != "" then VisitorsCard(t, user) else ""
  }

  function Footer(t: Templates): string {
    Centered(t, t.tail.footerImage)
  }

  function Thanks(t: Templates): string {
    t.frame.divOpen + t.tail.thanksTitle + t.tail.thanksImage + t.frame.divCloseLast
  }

  // -------------------------------------------------------------- document

  /** The whole README: every section in the order the assembler appends it. */
  function Document(t: Templates, d: FormData, picks: seq<PaletteIndex>): string
    requires |picks| == |d.skills|
  {
    Banner(t, d) + Greeting(t, d) + Info(t, d) + AboutBlock(t, AboutItems(t, d))
    + SocialBlock(t, SocialLinks(t, d.social)) + SkillsBlock(t, d.skills, picks)
    + QuoteBlock(t, d.custom) + EducationBlock(t, d.achievements)
    + CertificationsSection(t, d.achievements) + AwardsSection(t, d.achievements)
    + FunFactsSection(t, d.custom) + GoalsSection(t, d.custom) + HobbiesSection(t, d.custom)
    + Analytics(t, d.social.github, d.stats) + BlogBlock(t, d.blog)
    + SupportBlock(t, SupportLinks(t, d)) + VisitorsBlock(t, d.social.github, d.stats)
    + Footer(t) + Thanks(t)
  }
}
