/**
  The records of a README configuration (`ReadmeFormData` and its groups) and
  the closed skill taxonomy offered by the form.
*/
module ReadmeTypes {
  import opened Wrappers

  /**
    A selected skill. Entries chosen from the taxonomy carry its `icon` and
    `displayName`; entries read back from an exported template carry only
    `name` and `category`, so those two are optional here.
  */
  datatype Skill = Skill(name: string, icon: Option<string>, displayName: Option<string>, category: string)

  // ------------------------------------------------------------------ social

  /** The ten social platforms, in declaration order. */
  datatype Platform =
    | GitHub | LinkedIn | Twitter | DevTo | Medium
    | YouTube | Instagram | Facebook | CodePen | Hashnode

  const AllPlatforms: seq<Platform> :=
    [GitHub, LinkedIn, Twitter, DevTo, Medium, YouTube, Instagram, Facebook, CodePen, Hashnode]

  /** `SocialMedia`: one handle per platform, the empty string when unset. */
  datatype SocialMedia = SocialMedia(
    github: string, linkedin: string, twitter: string, devto: string, medium: string,
    youtube: string, instagram: string, facebook: string, codepen: string, hashnode: string)

  /** `social[platform]`. */
  function Handle(s: SocialMedia, p: Platform): string {
    match p
    case GitHub => s.github
    case LinkedIn => s.linkedin
    case Twitter => s.twitter
    case DevTo => s.devto
    case Medium => s.medium
    case YouTube => s.youtube
    case Instagram => s.instagram
    case Facebook => s.facebook
    case CodePen => s.codepen
    case Hashnode => s.hashnode
  }

  /** `{ ...social, [platform]: value }`. */
  function SetHandle(s: SocialMedia, p: Platform, value: string): (r: SocialMedia)
    ensures Handle(r, p) == value
    ensures forall q :: q != p ==> Handle(r, q) == Handle(s, q)
  {
    match p
    case GitHub => s.(github := value)
    case LinkedIn => s.(linkedin := value)
    case Twitter => s.(twitter := value)
    case DevTo => s.(devto := value)
    case Medium => s.(medium := value)
    case YouTube => s.(youtube := value)
    case Instagram => s.(instagram := value)
    case Facebook => s.(facebook := value)
    case CodePen => s.(codepen := value)
    case Hashnode => s.(hashnode := value)
  }

  /** Where each platform stands in `AllPlatforms`. */
  function PlatformIndex(p: Platform): (i: nat)
    ensures i < |AllPlatforms| && AllPlatforms[i] == p
  {
    match p
    case GitHub => 0
    case LinkedIn => 1
    case Twitter => 2
    case DevTo => 3
    case Medium => 4
    case YouTube => 5
    case Instagram => 6
    case Facebook => 7
    case CodePen => 8
    case Hashnode => 9
  }

  /** The platform list is complete and has no repetition: `SocialMedia` has exactly ten keys. */
  lemma AllPlatformsExactlyOnce()
    ensures |AllPlatforms| == 10
    ensures forall p :: p in AllPlatforms
    ensures forall i, j :: 0 <= i < j < |AllPlatforms| ==> AllPlatforms[i] != AllPlatforms[j]
  {
    forall p ensures p in AllPlatforms {
      assert AllPlatforms[PlatformIndex(p)] == p;
    }
  }

  /** Two handle records that agree on every platform are equal. */
  lemma SocialExtensional(a: SocialMedia, b: SocialMedia)
    requires forall p :: Handle(a, p) == Handle(b, p)
    ensures a == b
  {
    assert Handle(a, GitHub) == Handle(b, GitHub) && Handle(a, LinkedIn) == Handle(b, LinkedIn);
    assert Handle(a, Twitter) == Handle(b, Twitter) && Handle(a, DevTo) == Handle(b, DevTo);
    assert Handle(a, Medium) == Handle(b, Medium) && Handle(a, YouTube) == Handle(b, YouTube);
    assert Handle(a, Instagram) == Handle(b, Instagram) && Handle(a, Facebook) == Handle(b, Facebook);
    assert Handle(a, CodePen) == Handle(b, CodePen) && Handle(a, Hashnode) == Handle(b, Hashnode);
  }

  // ------------------------------------------------------------------- stats

  /** The fourteen boolean toggles of `GitHubStats`. */
  datatype StatFlag =
    | ShowStats | ShowLanguages | ShowStreak | ShowTrophy | ShowVisitors
    | ShowActivity | ShowContributions | ShowProductivityStats | ShowWakaTime
    | ShowCommitGraph | ShowCodetime | ShowMetrics | ShowSummaryCard | ShowDetailedStats

  const AllStatFlags: seq<StatFlag> :=
    [ShowStats, ShowLanguages, ShowStreak, ShowTrophy, ShowVisitors,
     ShowActivity, ShowContributions, ShowProductivityStats, ShowWakaTime,
     ShowCommitGraph, ShowCodetime, ShowMetrics, ShowSummaryCard, ShowDetailedStats]

  /** The three text fields of `GitHubStats`: two themes and the WakaTime user. */
  datatype StatText = StatsTheme | LanguagesTheme | WakaTimeUsername

  datatype GitHubStats = GitHubStats(
    showStats: bool, showLanguages: bool, showStreak: bool, showTrophy: bool,
    showVisitors: bool, showActivity: bool, showContributions: bool,
    showProductivityStats: bool, showWakaTime: bool, showCommitGraph: bool,
    showCodetime: bool, showMetrics: bool, showSummaryCard: bool, showDetailedStats: bool,
    statsTheme: string, languagesTheme: string, wakaTimeUsername: string)

  function StatFlagOf(s: GitHubStats, f: StatFlag): bool {
    match f
    case ShowStats => s.showStats
    case ShowLanguages => s.showLanguages
    case ShowStreak => s.showStreak
    case ShowTrophy => s.showTrophy
    case ShowVisitors => s.showVisitors
    case ShowActivity => s.showActivity
    case ShowContributions => s.showContributions
    case ShowProductivityStats => s.showProductivityStats
    case ShowWakaTime => s.showWakaTime
    case ShowCommitGraph => s.showCommitGraph
    case ShowCodetime => s.showCodetime
    case ShowMetrics => s.showMetrics
    case ShowSummaryCard => s.showSummaryCard
    case ShowDetailedStats => s.showDetailedStats
  }

  function StatTextOf(s: GitHubStats, t: StatText): string {
    match t
    case StatsTheme => s.statsTheme
    case LanguagesTheme => s.languagesTheme
    case WakaTimeUsername => s.wakaTimeUsername
  }

  /** `{ ...stats, [flag]: value }` for a toggle. */
  function SetStatFlag(s: GitHubStats, f: StatFlag, value: bool): (r: GitHubStats)
    ensures StatFlagOf(r, f) == value
    ensures r.statsTheme == s.statsTheme && r.languagesTheme == s.languagesTheme
    ensures r.wakaTimeUsername == s.wakaTimeUsername
  {
    match f
    case ShowStats => s.(showStats := value)
    case ShowLanguages => s.(showLanguages := value)
    case ShowStreak => s.(showStreak := value)
    case ShowTrophy => s.(showTrophy := value)
    case ShowVisitors => s.(showVisitors := value)
    case ShowActivity => s.(showActivity := value)
    case ShowContributions => s.(showContributions := value)
    case ShowProductivityStats => s.(showProductivityStats := value)
    case ShowWakaTime => s.(showWakaTime := value)
    case ShowCommitGraph => s.(showCommitGraph := value)
    case ShowCodetime => s.(showCodetime := value)
    case ShowMetrics => s.(showMetrics := value)
    case ShowSummaryCard => s.(showSummaryCard := value)
    case ShowDetailedStats => s.(showDetailedStats := value)
  }

  lemma SetStatFlagFrameAt(s: GitHubStats, f: StatFlag, value: bool, g: StatFlag)
    requires g != f
    ensures StatFlagOf(SetStatFlag(s, f, value), g) == StatFlagOf(s, g)
  {
    match g
    case ShowStats =>
    case ShowLanguages =>
    case ShowStreak =>
    case ShowTrophy =>
    case ShowVisitors =>
    case ShowActivity =>
    case ShowContributions =>
    case ShowProductivityStats =>
    case ShowWakaTime =>
    case ShowCommitGraph =>
    case ShowCodetime =>
    case ShowMetrics =>
    case ShowSummaryCard =>
    case ShowDetailedStats =>
  }

  /** Setting one toggle leaves the other thirteen as they were. */
  lemma SetStatFlagFrame(s: GitHubStats, f: StatFlag, value: bool)
    ensures forall g :: g != f ==> StatFlagOf(SetStatFlag(s, f, value), g) == StatFlagOf(s, g)
  {
    forall g | g != f
      ensures StatFlagOf(SetStatFlag(s, f, value), g) == StatFlagOf(s, g)
    {
      SetStatFlagFrameAt(s, f, value, g);
    }
  }

  /** `{ ...stats, [field]: value }` for a theme or the WakaTime user. */
  function SetStatText(s: GitHubStats, t: StatText, value: string): (r: GitHubStats)
    ensures StatTextOf(r, t) == value
    ensures forall u :: u != t ==> StatTextOf(r, u) == StatTextOf(s, u)
    ensures r == s.(statsTheme := r.statsTheme, languagesTheme := r.languagesTheme, wakaTimeUsername := r.wakaTimeUsername)
  {
    match t
    case StatsTheme => s.(statsTheme := value)
    case LanguagesTheme => s.(languagesTheme := value)
    case WakaTimeUsername => s.(wakaTimeUsername := value)
  }

  /** Where each toggle stands in `AllStatFlags`. */
  function StatFlagIndex(f: StatFlag): (i: nat)
    ensures i < |AllStatFlags| && AllStatFlags[i] == f
  {
    match f
    case ShowStats => 0
    case ShowLanguages => 1
    case ShowStreak => 2
    case ShowTrophy => 3
    case ShowVisitors => 4
    case ShowActivity => 5
    case ShowContributions => 6
    case ShowProductivityStats => 7
    case ShowWakaTime => 8
    case ShowCommitGraph => 9
    case ShowCodetime => 10
    case ShowMetrics => 11
    case ShowSummaryCard => 12
    case ShowDetailedStats => 13
  }

  /** `GitHubStats` has exactly fourteen toggles, listed once each in `AllStatFlags`. */
  lemma AllStatFlagsExactlyOnce()
    ensures |AllStatFlags| == 14
    ensures forall f :: f in AllStatFlags
    ensures forall i, j :: 0 <= i < j < |AllStatFlags| ==> AllStatFlags[i] != AllStatFlags[j]
  {
    forall f ensures f in AllStatFlags {
      assert AllStatFlags[StatFlagIndex(f)] == f;
    }
  }

  // -------------------------------------------------------------------- blog

  datatype BlogFlag = ShowDevtoPosts | ShowMediumPosts | ShowRssPosts

  datatype BlogPosts = BlogPosts(showDevtoPosts: bool, showMediumPosts: bool, showRssPosts: bool, rssUrl: string)

  function BlogFlagOf(b: BlogPosts, f: BlogFlag): bool {
    match f
    case ShowDevtoPosts => b.showDevtoPosts
    case ShowMediumPosts => b.showMediumPosts
    case ShowRssPosts => b.showRssPosts
  }

  /** `{ ...blog, [flag]: value }`. */
  function SetBlogFlag(b: BlogPosts, f: BlogFlag, value: bool): (r: BlogPosts)
    ensures BlogFlagOf(r, f) == value
    ensures forall g :: g != f ==> BlogFlagOf(r, g) == BlogFlagOf(b, g)
    ensures r.rssUrl == b.rssUrl
  {
    match f
    case ShowDevtoPosts => b.(showDevtoPosts := value)
    case ShowMediumPosts => b.(showMediumPosts := value)
    case ShowRssPosts => b.(showRssPosts := value)
  }

  // ------------------------------------------------------------ achievements

  /** The three gated achievement sections. */
  datatype AchievementKind = Certifications | Education | Awards

  datatype Achievements = Achievements(
    showCertifications: bool, certifications: string,
    showEducation: bool, education: string,
    showAwards: bool, awards: string)

  function AchievementShown(a: Achievements, k: AchievementKind): bool {
    match k
    case Certifications => a.showCertifications
    case Education => a.showEducation
    case Awards => a.showAwards
  }

  function AchievementText(a: Achievements, k: AchievementKind): string {
    match k
    case Certifications => a.certifications
    case Education => a.education
    case Awards => a.awards
  }

  /** `{ ...achievements, [showKind]: value }`. */
  function SetAchievementShown(a: Achievements, k: AchievementKind, value: bool): (r: Achievements)
    ensures AchievementShown(r, k) == value
    ensures forall j :: j != k ==> AchievementShown(r, j) == AchievementShown(a, j)
    ensures forall j :: AchievementText(r, j) == AchievementText(a, j)
  {
    match k
    case Certifications => a.(showCertifications := value)
    case Education => a.(showEducation := value)
    case Awards => a.(showAwards := value)
  }

  /** `{ ...achievements, [kind]: value }`. */
  function SetAchievementText(a: Achievements, k: AchievementKind, value: string): (r: Achievements)
    ensures AchievementText(r, k) == value
    ensures forall j :: j != k ==> AchievementText(r, j) == AchievementText(a, j)
    ensures forall j :: AchievementShown(r, j) == AchievementShown(a, j)
  {
    match k
    case Certifications => a.(certifications := value)
    case Education => a.(education := value)
    case Awards => a.(awards := value)
  }

  // ---------------------------------------------------------- custom sections

  /** The five gated custom sections. */
  datatype CustomKind = FunFacts | Goals | Quote | Timezone | Hobbies

  datatype CustomSections = CustomSections(
    showFunFacts: bool, funFacts: string,
    showGoals: bool, goals: string,
    showQuote: bool, quote: string,
    showTimezone: bool, timezone: string,
    showHobbies: bool, hobbies: string)

  function CustomShown(c: CustomSections, k: CustomKind): bool {
    match k
    case FunFacts => c.showFunFacts
    case Goals => c.showGoals
    case Quote => c.showQuote
    case Timezone => c.showTimezone
    case Hobbies => c.showHobbies
  }

  function CustomText(c: CustomSections, k: CustomKind): string {
    match k
    case FunFacts => c.funFacts
    case Goals => c.goals
    case Quote => c.quote
    case Timezone => c.timezone
    case Hobbies => c.hobbies
  }

  /** `{ ...custom, [showKind]: value }`. */
  function SetCustomShown(c: CustomSections, k: CustomKind, value: bool): (r: CustomSections)
    ensures CustomShown(r, k) == value
    ensures forall j :: j != k ==> CustomShown(r, j) == CustomShown(c, j)
    ensures forall j :: CustomText(r, j) == CustomText(c, j)
  {
    match k
    case FunFacts => c.(showFunFacts := value)
    case Goals => c.(showGoals := value)
    case Quote => c.(showQuote := value)
    case Timezone => c.(showTimezone := value)
    case Hobbies => c.(showHobbies := value)
  }

  /** `{ ...custom, [kind]: value }`. */
  function SetCustomText(c: CustomSections, k: CustomKind, value: string): (r: CustomSections)
    ensures CustomText(r, k) == value
    ensures forall j :: j != k ==> CustomText(r, j) == CustomText(c, j)
    ensures forall j :: CustomShown(r, j) == CustomShown(c, j)
  {
    match k
    case FunFacts => c.(funFacts := value)
    case Goals => c.(goals := value)
    case Quote => c.(quote := value)
    case Timezone => c.(timezone := value)
    case Hobbies => c.(hobbies := value)
  }

  // --------------------------------------------------------------- form data

  /** The plain text fields at the top level of `ReadmeFormData`. */
  datatype TextField =
    | UserName | UserBio | CurrentWork | CurrentLearning | AskAbout | UserEmail
    | PortfolioUrl | BlogUrl | Location | Pronouns | BuyMeCoffeeUsername | SponsorUrl

  /**
    `ReadmeFormData`. The assembler reads `achievements` and `custom` through
    optional chaining and the load step checks for their absence, so they are
    optional here; every other group is always present.
  */
  datatype FormData = FormData(
    userName: string, userBio: string, currentWork: string, currentLearning: string,
    askAbout: string, userEmail: string, portfolioUrl: string, blogUrl: string,
    location: string, pronouns: string,
    skills: seq<Skill>,
    social: SocialMedia,
    stats: GitHubStats,
    blog: BlogPosts,
    buyMeCoffeeUsername: string, sponsorUrl: string,
    achievements: Option<Achievements>,
    custom: Option<CustomSections>)

  function TextOf(d: FormData, f: TextField): string {
    match f
    case UserName => d.userName
    case UserBio => d.userBio
    case CurrentWork => d.currentWork
    case CurrentLearning => d.currentLearning
    case AskAbout => d.askAbout
    case UserEmail => d.userEmail
    case PortfolioUrl => d.portfolioUrl
    case BlogUrl => d.blogUrl
    case Location => d.location
    case Pronouns => d.pronouns
    case BuyMeCoffeeUsername => d.buyMeCoffeeUsername
    case SponsorUrl => d.sponsorUrl
  }

  /** `{ ...formData, [field]: value }` for a top-level text field. */
  function SetText(d: FormData, f: TextField, value: string): (r: FormData)
    ensures TextOf(r, f) == value
    ensures forall g :: g != f ==> TextOf(r, g) == TextOf(d, g)
    ensures r.skills == d.skills && r.social == d.social && r.stats == d.stats && r.blog == d.blog
    ensures r.achievements == d.achievements && r.custom == d.custom
  {
    match f
    case UserName => d.(userName := value)
    case UserBio => d.(userBio := value)
    case CurrentWork => d.(currentWork := value)
    case CurrentLearning => d.(currentLearning := value)
    case AskAbout => d.(askAbout := value)
    case UserEmail => d.(userEmail := value)
    case PortfolioUrl => d.(portfolioUrl := value)
    case BlogUrl => d.(blogUrl := value)
    case Location => d.(location := value)
    case Pronouns => d.(pronouns := value)
    case BuyMeCoffeeUsername => d.(buyMeCoffeeUsername := value)
    case SponsorUrl => d.(sponsorUrl := value)
  }

  // ---------------------------------------------------------------- taxonomy

  /** One selectable skill of the taxonomy. */
  datatype TaxonomyEntry = Entry(name: string, icon: string, displayName: string)

  datatype Category = Category(title: string, entries: seq<TaxonomyEntry>)

  /** The "Programming Languages" entries. */
  const LanguageEntries: seq<TaxonomyEntry> := [
    Entry("javascript", "devicon-javascript-plain", "JavaScript"),
    Entry("typescript", "devicon-typescript-plain", "TypeScript"),
    Entry("python", "devicon-python-plain", "Python"),
    Entry("java", "devicon-java-plain", "Java"),
    Entry("cplusplus", "devicon-cplusplus-plain", "C++"),
    Entry("csharp", "devicon-csharp-plain", "C#"),
    Entry("php", "devicon-php-plain", "PHP"),
    Entry("swift", "devicon-swift-plain", "Swift"),
    Entry("kotlin", "devicon-kotlin-plain", "Kotlin"),
    Entry("go", "devicon-go-plain", "Go"),
    Entry("rust", "devicon-rust-plain", "Rust"),
    Entry("ruby", "devicon-ruby-plain", "Ruby")
  ]

  /** The "Frontend Development" entries. */
  const FrontendEntries: seq<TaxonomyEntry> := [
    Entry("react", "devicon-react-original", "React"),
    Entry("angular", "devicon-angularjs-plain", "Angular"),
    Entry("vuejs", "devicon-vuejs-plain", "Vue.js"),
    Entry("nextjs", "devicon-nextjs-original", "Next.js"),
    Entry("svelte", "devicon-svelte-plain", "Svelte"),
    Entry("html5", "devicon-html5-plain", "HTML5"),
    Entry("css3", "devicon-css3-plain", "CSS3"),
    Entry("tailwindcss", "devicon-tailwindcss-plain", "Tailwind CSS"),
    Entry("bootstrap", "devicon-bootstrap-plain", "Bootstrap")
  ]

  /** The "Backend Development" entries. */
  const BackendEntries: seq<TaxonomyEntry> := [
    Entry("nodejs", "devicon-nodejs-plain", "Node.js"),
    Entry("express", "devicon-express-original", "Express"),
    Entry("django", "devicon-django-plain", "Django"),
    Entry("flask", "devicon-flask-original", "Flask"),
    Entry("laravel", "devicon-laravel-plain", "Laravel"),
    Entry("spring", "devicon-spring-plain", "Spring Boot"),
    Entry("fastapi", "devicon-fastapi-plain", "FastAPI")
  ]

  /** The "Mobile App Development" entries. */
  const MobileEntries: seq<TaxonomyEntry> := [
    Entry("react-native", "devicon-react-original", "React Native"),
    Entry("flutter", "devicon-flutter-plain", "Flutter"),
    Entry("ionic", "devicon-ionic-original", "Ionic")
  ]

  /** The "AI/ML" entries. */
  const AiMlEntries: seq<TaxonomyEntry> := [
    Entry("tensorflow", "devicon-tensorflow-original", "TensorFlow"),
    Entry("pytorch", "devicon-pytorch-original", "PyTorch"),
    Entry("scikit-learn", "devicon-scikitlearn-plain", "Scikit-learn"),
    Entry("pandas", "devicon-pandas-original", "Pandas"),
    Entry("numpy", "devicon-numpy-original", "NumPy")
  ]

  /** The "Database" entries. */
  const DatabaseEntries: seq<TaxonomyEntry> := [
    Entry("mongodb", "devicon-mongodb-plain", "MongoDB"),
    Entry("postgresql", "devicon-postgresql-plain", "PostgreSQL"),
    Entry("mysql", "devicon-mysql-plain", "MySQL"),
    Entry("sqlite", "devicon-sqlite-plain", "SQLite"),
    Entry("firebase", "devicon-firebase-plain", "Firebase"),
    Entry("redis", "devicon-redis-plain", "Redis")
  ]

  /** The "DevOps" entries. */
  const DevOpsEntries: seq<TaxonomyEntry> := [
    Entry("docker", "devicon-docker-plain", "Docker"),
    Entry("kubernetes", "devicon-kubernetes-plain", "Kubernetes"),
    Entry("jenkins", "devicon-jenkins-line", "Jenkins"),
    Entry("github-actions", "devicon-github-original", "GitHub Actions"),
    Entry("terraform", "devicon-terraform-plain", "Terraform"),
    Entry("aws", "devicon-amazonwebservices-original", "AWS")
  ]

  /** The "Testing" entries. */
  const TestingEntries: seq<TaxonomyEntry> := [
    Entry("jest", "devicon-jest-plain", "Jest"),
    Entry("cypress", "devicon-cypress-plain", "Cypress"),
    Entry("selenium", "devicon-selenium-original", "Selenium")
  ]

  /** The "Software & Tools" entries. */
  const ToolEntries: seq<TaxonomyEntry> := [
    Entry("git", "devicon-git-plain", "Git"),
    Entry("vscode", "devicon-vscode-plain", "VS Code"),
    Entry("figma", "devicon-figma-plain", "Figma"),
    Entry("postman", "devicon-postman-plain", "Postman")
  ]

  /** `skillCategories`: the category titles in their declared order. */
  const SkillCategories: seq<Category> := [
    Category("Programming Languages", LanguageEntries),
    Category("Frontend Development", FrontendEntries),
    Category("Backend Development", BackendEntries),
    Category("Mobile App Development", MobileEntries),
    Category("AI/ML", AiMlEntries),
    Category("Database", DatabaseEntries),
    Category("DevOps", DevOpsEntries),
    Category("Testing", TestingEntries),
    Category("Software & Tools", ToolEntries)
  ]

  /** `Object.values(skillCategories).flat()`: every entry, category by category. */
  function Flatten(cats: seq<Category>): seq<TaxonomyEntry> {
    if cats == [] then [] else cats[0].entries + Flatten(cats[1..])
  }

  function AllEntries(): seq<TaxonomyEntry> {
    Flatten(SkillCategories)
  }

  /** Nine categories holding fifty-five entries between them. */
  lemma TaxonomySize()
    ensures |SkillCategories| == 9
    ensures |AllEntries()| == 55
  {
    var cats := SkillCategories;
    assert Flatten(cats[8..]) == ToolEntries + Flatten(cats[9..]);
    assert Flatten(cats[7..]) == TestingEntries + Flatten(cats[8..]);
    assert Flatten(cats[6..]) == DevOpsEntries + Flatten(cats[7..]);
    assert Flatten(cats[5..]) == DatabaseEntries + Flatten(cats[6..]);
    assert Flatten(cats[4..]) == AiMlEntries + Flatten(cats[5..]);
    assert Flatten(cats[3..]) == MobileEntries + Flatten(cats[4..]);
    assert Flatten(cats[2..]) == BackendEntries + Flatten(cats[3..]);
    assert Flatten(cats[1..]) == FrontendEntries + Flatten(cats[2..]);
    assert Flatten(cats) == LanguageEntries + Flatten(cats[1..]);
  }

  predicate DistinctNames(es: seq<TaxonomyEntry>) {
    forall i, j :: 0 <= i < j < |es| ==> es[i].name != es[j].name
  }

  predicate NamesDisjoint(a: seq<TaxonomyEntry>, b: seq<TaxonomyEntry>) {
    forall i, j :: 0 <= i < |a| && 0 <= j < |b| ==> a[i].name != b[j].name
  }

  /** Every entry of the flattened list comes from one of the categories. */
  lemma {:induction false} FlattenMember(cats: seq<Category>, j: nat)
    requires j < |Flatten(cats)|
    ensures exists l, m :: 0 <= l < |cats| && 0 <= m < |cats[l].entries| && Flatten(cats)[j] == cats[l].entries[m]
  {
    var h := cats[0].entries;
    if j < |h| {
      assert Flatten(cats)[j] == cats[0].entries[j];
    } else {
      FlattenMember(cats[1..], j - |h|);
      var l, m :| 0 <= l < |cats[1..]| && 0 <= m < |cats[1..][l].entries| && Flatten(cats[1..])[j - |h|] == cats[1..][l].entries[m];
      assert Flatten(cats)[j] == cats[l + 1].entries[m];
    }
  }

  /** Names unique within each category and across categories are unique in the flattened list. */
  lemma {:induction false} FlattenDistinct(cats: seq<Category>)
    requires forall k :: 0 <= k < |cats| ==> DistinctNames(cats[k].entries)
    requires forall k, l :: 0 <= k < l < |cats| ==> NamesDisjoint(cats[k].entries, cats[l].entries)
    ensures DistinctNames(Flatten(cats))
  {
    if cats != [] {
      var h := cats[0].entries;
      var rest := Flatten(cats[1..]);
      FlattenDistinct(cats[1..]);
      forall j | 0 <= j < |rest| ensures forall i :: 0 <= i < |h| ==> h[i].name != rest[j].name {
        FlattenMember(cats[1..], j);
      }
      var all := Flatten(cats);
      forall i, j | 0 <= i < j < |all| ensures all[i].name != all[j].name {
        if j < |h| {
          assert all[i] == h[i] && all[j] == h[j];
        } else if i < |h| {
          assert all[i] == h[i] && all[j] == rest[j - |h|];
        } else {
          assert all[i] == rest[i - |h|] && all[j] == rest[j - |h|];
        }
      }
    }
  }

  // Name uniqueness of the taxonomy, one category or one pair of categories
  // at a time: every lemma below compares only the names of two short lists,
  // which keeps each proof small; TaxonomyNamesDistinct puts them together.

  lemma LanguageNamesDistinct()
    ensures DistinctNames(LanguageEntries)
  {
  }

  lemma FrontendNamesDistinct()
    ensures DistinctNames(FrontendEntries)
  {
  }

  lemma BackendNamesDistinct()
    ensures DistinctNames(BackendEntries)
  {
  }

  lemma MobileNamesDistinct()
    ensures DistinctNames(MobileEntries)
  {
  }

  lemma AiMlNamesDistinct()
    ensures DistinctNames(AiMlEntries)
  {
  }

  lemma DatabaseNamesDistinct()
    ensures DistinctNames(DatabaseEntries)
  {
  }

  lemma DevOpsNamesDistinct()
    ensures DistinctNames(DevOpsEntries)
  {
  }

  lemma TestingNamesDistinct()
    ensures DistinctNames(TestingEntries)
  {
  }

  lemma ToolNamesDistinct()
    ensures DistinctNames(ToolEntries)
  {
  }

  lemma LanguageFrontendDisjoint()
    ensures NamesDisjoint(LanguageEntries, FrontendEntries)
  {
  }

  lemma LanguageBackendDisjoint()
    ensures NamesDisjoint(LanguageEntries, BackendEntries)
  {
  }

  lemma LanguageMobileDisjoint()
    ensures NamesDisjoint(LanguageEntries, MobileEntries)
  {
  }

  lemma LanguageAiMlDisjoint()
    ensures NamesDisjoint(LanguageEntries, AiMlEntries)
  {
  }

  lemma LanguageDatabaseDisjoint()
    ensures NamesDisjoint(LanguageEntries, DatabaseEntries)
  {
  }

  lemma LanguageDevOpsDisjoint()
    ensures NamesDisjoint(LanguageEntries, DevOpsEntries)
  {
  }

  lemma LanguageTestingDisjoint()
    ensures NamesDisjoint(LanguageEntries, TestingEntries)
  {
  }

  lemma LanguageToolDisjoint()
    ensures NamesDisjoint(LanguageEntries, ToolEntries)
  {
  }

  lemma FrontendBackendDisjoint()
    ensures NamesDisjoint(FrontendEntries, BackendEntries)
  {
  }

  lemma FrontendMobileDisjoint()
    ensures NamesDisjoint(FrontendEntries, MobileEntries)
  {
  }

  lemma FrontendAiMlDisjoint()
    ensures NamesDisjoint(FrontendEntries, AiMlEntries)
  {
  }

  lemma FrontendDatabaseDisjoint()
    ensures NamesDisjoint(FrontendEntries, DatabaseEntries)
  {
  }

  lemma FrontendDevOpsDisjoint()
    ensures NamesDisjoint(FrontendEntries, DevOpsEntries)
  {
  }

  lemma FrontendTestingDisjoint()
    ensures NamesDisjoint(FrontendEntries, TestingEntries)
  {
  }

  lemma FrontendToolDisjoint()
    ensures NamesDisjoint(FrontendEntries, ToolEntries)
  {
  }

  lemma BackendMobileDisjoint()
    ensures NamesDisjoint(BackendEntries, MobileEntries)
  {
  }

  lemma BackendAiMlDisjoint()
    ensures NamesDisjoint(BackendEntries, AiMlEntries)
  {
  }

  lemma BackendDatabaseDisjoint()
    ensures NamesDisjoint(BackendEntries, DatabaseEntries)
  {
  }

  lemma BackendDevOpsDisjoint()
    ensures NamesDisjoint(BackendEntries, DevOpsEntries)
  {
  }

  lemma BackendTestingDisjoint()
    ensures NamesDisjoint(BackendEntries, TestingEntries)
  {
  }

  lemma BackendToolDisjoint()
    ensures NamesDisjoint(BackendEntries, ToolEntries)
  {
  }

  lemma MobileAiMlDisjoint()
    ensures NamesDisjoint(MobileEntries, AiMlEntries)
  {
  }

  lemma MobileDatabaseDisjoint()
    ensures NamesDisjoint(MobileEntries, DatabaseEntries)
  {
  }

  lemma MobileDevOpsDisjoint()
    ensures NamesDisjoint(MobileEntries, DevOpsEntries)
  {
  }

  lemma MobileTestingDisjoint()
    ensures NamesDisjoint(MobileEntries, TestingEntries)
  {
  }

  lemma MobileToolDisjoint()
    ensures NamesDisjoint(MobileEntries, ToolEntries)
  {
  }

  lemma AiMlDatabaseDisjoint()
    ensures NamesDisjoint(AiMlEntries, DatabaseEntries)
  {
  }

  lemma AiMlDevOpsDisjoint()
    ensures NamesDisjoint(AiMlEntries, DevOpsEntries)
  {
  }

  lemma AiMlTestingDisjoint()
    ensures NamesDisjoint(AiMlEntries, TestingEntries)
  {
  }

  lemma AiMlToolDisjoint()
    ensures NamesDisjoint(AiMlEntries, ToolEntries)
  {
  }

  lemma DatabaseDevOpsDisjoint()
    ensures NamesDisjoint(DatabaseEntries, DevOpsEntries)
  {
  }

  lemma DatabaseTestingDisjoint()
    ensures NamesDisjoint(DatabaseEntries, TestingEntries)
  {
  }

  lemma DatabaseToolDisjoint()
    ensures NamesDisjoint(DatabaseEntries, ToolEntries)
  {
  }

  lemma DevOpsTestingDisjoint()
    ensures NamesDisjoint(DevOpsEntries, TestingEntries)
  {
  }

  lemma DevOpsToolDisjoint()
    ensures NamesDisjoint(DevOpsEntries, ToolEntries)
  {
  }

  lemma TestingToolDisjoint()
    ensures NamesDisjoint(TestingEntries, ToolEntries)
  {
  }

  /** No two taxonomy entries share a name, so a lookup by name is unambiguous. */
  lemma TaxonomyNamesDistinct()
    ensures DistinctNames(AllEntries())
  {
    LanguageNamesDistinct();
    FrontendNamesDistinct();
    BackendNamesDistinct();
    MobileNamesDistinct();
    AiMlNamesDistinct();
    DatabaseNamesDistinct();
    DevOpsNamesDistinct();
    TestingNamesDistinct();
    ToolNamesDistinct();
    LanguageFrontendDisjoint();
    LanguageBackendDisjoint();
    LanguageMobileDisjoint();
    LanguageAiMlDisjoint();
    LanguageDatabaseDisjoint();
    LanguageDevOpsDisjoint();
    LanguageTestingDisjoint();
    LanguageToolDisjoint();
    FrontendBackendDisjoint();
    FrontendMobileDisjoint();
    FrontendAiMlDisjoint();
    FrontendDatabaseDisjoint();
    FrontendDevOpsDisjoint();
    FrontendTestingDisjoint();
    FrontendToolDisjoint();
    BackendMobileDisjoint();
    BackendAiMlDisjoint();
    BackendDatabaseDisjoint();
    BackendDevOpsDisjoint();
    BackendTestingDisjoint();
    BackendToolDisjoint();
    MobileAiMlDisjoint();
    MobileDatabaseDisjoint();
    MobileDevOpsDisjoint();
    MobileTestingDisjoint();
    MobileToolDisjoint();
    AiMlDatabaseDisjoint();
    AiMlDevOpsDisjoint();
    AiMlTestingDisjoint();
    AiMlToolDisjoint();
    DatabaseDevOpsDisjoint();
    DatabaseTestingDisjoint();
    DatabaseToolDisjoint();
    DevOpsTestingDisjoint();
    DevOpsToolDisjoint();
    TestingToolDisjoint();
    FlattenDistinct(SkillCategories);
  }
}
