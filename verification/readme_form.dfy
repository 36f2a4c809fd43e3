/**
  The form state of the generator page: the default configuration, the
  skill toggle, template export and import, and the component that holds
  the current configuration and applies the edit handlers to it.
*/
module ReadmeForm {
  import opened Wrappers
  import opened ReadmeTypes

  // ---------------------------------------------------------------- defaults

  /** The theme both stats cards start with. */
  const DefaultTheme: string := "default"

  function EmptySocial(): (s: SocialMedia)
    ensures forall p :: Handle(s, p) == ""
  {
    SocialMedia("", "", "", "", "", "", "", "", "", "")
  }

  function DefaultStats(): (s: GitHubStats)
    ensures forall f :: !StatFlagOf(s, f)
    ensures StatTextOf(s, StatsTheme) == DefaultTheme && StatTextOf(s, LanguagesTheme) == DefaultTheme
    ensures StatTextOf(s, WakaTimeUsername) == ""
  {
    GitHubStats(false, false, false, false, false, false, false, false, false, false, false, false, false, false,
                DefaultTheme, DefaultTheme, "")
  }

  function DefaultBlog(): (b: BlogPosts)
    ensures forall f :: !BlogFlagOf(b, f)
    ensures b.rssUrl == ""
  {
    BlogPosts(false, false, false, "")
  }

  function DefaultAchievements(): (a: Achievements)
    ensures forall k :: !AchievementShown(a, k) && AchievementText(a, k) == ""
  {
    Achievements(false, "", false, "", false, "")
  }

  function DefaultCustom(): (c: CustomSections)
    ensures forall k :: !CustomShown(c, k) && CustomText(c, k) == ""
  {
    CustomSections(false, "", false, "", false, "", false, "", false, "")
  }

  /**
    `defaultFormData`: every text empty, no skills, no handles, every toggle
    off, both themes `default`, and both later groups present.
  */
  function DefaultFormData(): (d: FormData)
    ensures forall f :: TextOf(d, f) == ""
    ensures d.skills == []
    ensures forall p :: Handle(d.social, p) == ""
    ensures forall f :: !StatFlagOf(d.stats, f)
    ensures StatTextOf(d.stats, StatsTheme) == DefaultTheme && StatTextOf(d.stats, LanguagesTheme) == DefaultTheme
    ensures StatTextOf(d.stats, WakaTimeUsername) == ""
    ensures forall f :: !BlogFlagOf(d.blog, f)
    ensures d.blog.rssUrl == ""
    ensures d.achievements.Some? && forall k :: !AchievementShown(d.achievements.value, k)
    ensures d.achievements.Some? && forall k :: AchievementText(d.achievements.value, k) == ""
    ensures d.custom.Some? && forall k :: !CustomShown(d.custom.value, k) && CustomText(d.custom.value, k) == ""
  {
    FormData(
      userName := "", userBio := "", currentWork := "", currentLearning := "",
      askAbout := "", userEmail := "", portfolioUrl := "", blogUrl := "",
      location := "", pronouns := "",
      skills := [],
      social := EmptySocial(),
      stats := DefaultStats(),
      blog := DefaultBlog(),
      buyMeCoffeeUsername := "", sponsorUrl := "",
      achievements := Some(DefaultAchievements()),
      custom := Some(DefaultCustom()))
  }

  /** A stored configuration is compatible when it has both later groups. */
  predicate Compatible(d: FormData) {
    d.achievements.Some? && d.custom.Some?
  }

  /**
    The configuration in force after mounting: the stored one if there is
    one and it is compatible, the defaults otherwise.
  */
  function Loaded(stored: Option<FormData>): (d: FormData)
    ensures Compatible(d)
    ensures stored.Some? && Compatible(stored.value) ==> d == stored.value
    ensures stored.None? || !Compatible(stored.value) ==> d == DefaultFormData()
  {
    if stored.Some? && Compatible(stored.value) then stored.value else DefaultFormData()
  }

  // ------------------------------------------------------------ skill toggle

  /** The skill record made from a taxonomy entry and its category. */
  function SkillData(e: TaxonomyEntry, category: string): Skill {
    Skill(e.name, Some(e.icon), Some(e.displayName), category)
  }

  /** Some selected skill carries the name. */
  predicate IsSelected(skills: seq<Skill>, name: string) {
    exists i :: 0 <= i < |skills| && skills[i].name == name
  }

  /** No two selected skills share a name. */
  predicate DistinctSkills(skills: seq<Skill>) {
    forall i, j :: 0 <= i < j < |skills| ==> skills[i].name != skills[j].name
  }

  /** Drops every skill with that name and keeps the rest, in order. */
  function WithoutName(skills: seq<Skill>, name: string): (r: seq<Skill>)
    ensures |r| <= |skills|
    ensures forall s :: s in r <==> s in skills && s.name != name
  {
    if skills == [] then []
    else
      assert skills == [skills[0]] + skills[1..];
      if skills[0].name == name then WithoutName(skills[1..], name)
      else [skills[0]] + WithoutName(skills[1..], name)
  }

  /**
    `handleSkillToggle`: a selected name is removed, every copy of it; an
    unselected entry is appended with the category it was picked under.
  */
  function ToggleSkill(skills: seq<Skill>, e: TaxonomyEntry, category: string): (r: seq<Skill>)
    ensures IsSelected(r, e.name) <==> !IsSelected(skills, e.name)
    ensures forall n :: n != e.name ==> (IsSelected(r, n) <==> IsSelected(skills, n))
    ensures forall s :: s in skills && s.name != e.name ==> s in r
    ensures IsSelected(skills, e.name) ==> r == WithoutName(skills, e.name)
    ensures !IsSelected(skills, e.name) ==> |r| == |skills| + 1 && r[..|skills|] == skills && r[|skills|] == SkillData(e, category)
  {
    if IsSelected(skills, e.name) then
      var r := WithoutName(skills, e.name);
      assert forall n :: n != e.name && IsSelected(skills, n) ==> IsSelected(r, n) by {
        forall n | n != e.name && IsSelected(skills, n) ensures IsSelected(r, n) {
          var i :| 0 <= i < |skills| && skills[i].name == n;
          assert skills[i] in r;
          var k :| 0 <= k < |r| && r[k] == skills[i];
        }
      }
      assert forall n :: IsSelected(r, n) ==> n != e.name && IsSelected(skills, n) by {
        forall n | IsSelected(r, n) ensures n != e.name && IsSelected(skills, n) {
          var i :| 0 <= i < |r| && r[i].name == n;
          assert r[i] in skills;
          var k :| 0 <= k < |skills| && skills[k] == r[i];
        }
      }
      r
    else
      var r := skills + [SkillData(e, category)];
      assert r[|skills|].name == e.name;
      assert forall n :: n != e.name && IsSelected(r, n) ==> IsSelected(skills, n) by {
        forall n | n != e.name && IsSelected(r, n) ensures IsSelected(skills, n) {
          var i :| 0 <= i < |r| && r[i].name == n;
          assert i < |skills| && skills[i] == r[i];
        }
      }
      assert forall n :: IsSelected(skills, n) ==> IsSelected(r, n) by {
        forall n | IsSelected(skills, n) ensures IsSelected(r, n) {
          var i :| 0 <= i < |skills| && skills[i].name == n;
          assert r[i] == skills[i];
        }
      }
      r
  }

  /** Filtering distributes over concatenation, so the kept skills stay in their order. */
  lemma {:induction false} WithoutNameAppend(a: seq<Skill>, b: seq<Skill>, name: string)
    ensures WithoutName(a + b, name) == WithoutName(a, name) + WithoutName(b, name)
  {
    if a == [] {
      assert a + b == b;
    } else {
      assert (a + b)[0] == a[0] && (a + b)[1..] == a[1..] + b;
      WithoutNameAppend(a[1..], b, name);
    }
  }

  /** Filtering a name that is not selected changes nothing. */
  lemma {:induction false} WithoutAbsentName(skills: seq<Skill>, name: string)
    requires !IsSelected(skills, name)
    ensures WithoutName(skills, name) == skills
  {
    if skills != [] {
      assert skills[0].name != name;
      assert !IsSelected(skills[1..], name) by {
        forall i | 0 <= i < |skills[1..]| ensures skills[1..][i].name != name {
          assert skills[1..][i] == skills[i + 1];
        }
      }
      WithoutAbsentName(skills[1..], name);
      assert skills == [skills[0]] + skills[1..];
    }
  }

  /** Toggling a skill that is not selected twice gives back the same list. */
  lemma ToggleTwice(skills: seq<Skill>, e: TaxonomyEntry, category: string)
    requires !IsSelected(skills, e.name)
    ensures ToggleSkill(ToggleSkill(skills, e, category), e, category) == skills
  {
    var once := skills + [SkillData(e, category)];
    assert ToggleSkill(skills, e, category) == once;
    assert once[|skills|].name == e.name;
    WithoutNameAppend(skills, [SkillData(e, category)], e.name);
    WithoutAbsentName(skills, e.name);
    assert [SkillData(e, category)] == [SkillData(e, category)][0..0] + [SkillData(e, category)];
  }

  /** A filtered list keeps distinct names distinct. */
  lemma {:induction false} WithoutNameDistinct(skills: seq<Skill>, name: string)
    requires DistinctSkills(skills)
    ensures DistinctSkills(WithoutName(skills, name))
  {
    if skills != [] {
      var tail := skills[1..];
      assert DistinctSkills(tail) by {
        forall i, j | 0 <= i < j < |tail| ensures tail[i].name != tail[j].name {
          assert tail[i] == skills[i + 1] && tail[j] == skills[j + 1];
        }
      }
      WithoutNameDistinct(tail, name);
      if skills[0].name != name {
        var rest := WithoutName(tail, name);
        var r := [skills[0]] + rest;
        forall j | 0 <= j < |rest| ensures rest[j].name != skills[0].name {
          assert rest[j] in tail;
          var k :| 0 <= k < |tail| && tail[k] == rest[j];
          assert tail[k] == skills[k + 1];
        }
        forall i, j | 0 <= i < j < |r| ensures r[i].name != r[j].name {
          assert r[j] == rest[j - 1];
          if i > 0 {
            assert r[i] == rest[i - 1];
          }
        }
      }
    }
  }

  /** The toggle keeps the selected names distinct. */
  lemma ToggleKeepsDistinct(skills: seq<Skill>, e: TaxonomyEntry, category: string)
    requires DistinctSkills(skills)
    ensures DistinctSkills(ToggleSkill(skills, e, category))
  {
    if IsSelected(skills, e.name) {
      WithoutNameDistinct(skills, e.name);
    } else {
      var r := skills + [SkillData(e, category)];
      forall i, j | 0 <= i < j < |r| ensures r[i].name != r[j].name {
        assert r[i] == skills[i];
        if j == |skills| {
          assert r[j].name == e.name;
        } else {
          assert r[j] == skills[j];
        }
      }
    }
  }

  // ---------------------------------------------------------- export, import

  /** A skill as written into a template: its name and category only. */
  function Exported(s: Skill): Skill {
    Skill(s.name, None, None, s.category)
  }

  /** The `skills` of an exported template: each skill reduced to its name and category, in order. */
  function ExportSkills(skills: seq<Skill>): (r: seq<Skill>)
    ensures |r| == |skills|
    ensures forall i :: 0 <= i < |r| ==> r[i].name == skills[i].name && r[i].category == skills[i].category
    ensures forall i :: 0 <= i < |r| ==> r[i].icon.None? && r[i].displayName.None?
  {
    if skills == [] then [] else ExportSkills(skills[..|skills| - 1]) + [Exported(skills[|skills| - 1])]
  }

  /** The first entry with that name, if any. */
  function FindEntry(es: seq<TaxonomyEntry>, name: string): (r: Option<TaxonomyEntry>)
    ensures r.None? <==> forall i :: 0 <= i < |es| ==> es[i].name != name
    ensures r.Some? ==> r.value in es && r.value.name == name
  {
    if es == [] then None
    else if es[0].name == name then Some(es[0])
    else
      var r := FindEntry(es[1..], name);
      assert forall i :: 1 <= i < |es| ==> es[i] == es[1..][i - 1];
      r
  }

  /** `es[i]` is the first entry carrying the name. */
  predicate FirstNamed(es: seq<TaxonomyEntry>, i: int, name: string) {
    0 <= i < |es| && es[i].name == name && forall j :: 0 <= j < i ==> es[j].name != name
  }

  /** The lookup returns the first entry carrying the name. */
  lemma {:induction false} FindFirst(es: seq<TaxonomyEntry>, i: nat)
    requires i < |es|
    requires forall j :: 0 <= j < i ==> es[j].name != es[i].name
    ensures FindEntry(es, es[i].name) == Some(es[i])
  {
    if i > 0 {
      assert es[0].name != es[i].name;
      assert es[1..][i - 1] == es[i];
      FindFirst(es[1..], i - 1);
    }
  }

  /**
    The import step for one skill: the taxonomy entry of the same name with
    the template's category, or the entry as it was read.
  */
  function ResolveSkill(es: seq<TaxonomyEntry>, s: Skill): (r: Skill)
    ensures r.name == s.name && r.category == s.category
    ensures (forall i :: 0 <= i < |es| ==> es[i].name != s.name) ==> r == s
    ensures !(forall i :: 0 <= i < |es| ==> es[i].name != s.name) ==> r.icon.Some? && r.displayName.Some?
    ensures forall i {:trigger FirstNamed(es, i, s.name)} :: FirstNamed(es, i, s.name) ==> r == SkillData(es[i], s.category)
  {
    forall i | FirstNamed(es, i, s.name) {
      FindFirst(es, i);
    }
    match FindEntry(es, s.name)
    case Some(e) => SkillData(e, s.category)
    case None => s
  }

  function ImportSkills(es: seq<TaxonomyEntry>, skills: seq<Skill>): (r: seq<Skill>)
    ensures |r| == |skills|
    ensures forall i :: 0 <= i < |r| ==> r[i] == ResolveSkill(es, skills[i])
  {
    if skills == [] then []
    else
      var n := |skills| - 1;
      assert forall i :: 0 <= i < n ==> skills[..n][i] == skills[i];
      ImportSkills(es, skills[..n]) + [ResolveSkill(es, skills[n])]
  }

  /** A skill that was picked from the catalogue `es`. */
  predicate FromCatalogue(es: seq<TaxonomyEntry>, s: Skill) {
    exists i :: 0 <= i < |es| && s == SkillData(es[i], s.category)
  }

  /** With distinct names in the catalogue, an exported catalogue skill is restored exactly. */
  lemma ResolveExported(es: seq<TaxonomyEntry>, s: Skill)
    requires DistinctNames(es)
    requires FromCatalogue(es, s)
    ensures ResolveSkill(es, Exported(s)) == s
  {
    var i :| 0 <= i < |es| && s == SkillData(es[i], s.category);
    FindFirst(es, i);
  }

  /** Export followed by import restores every skill picked from the catalogue. */
  lemma ImportExportSkills(es: seq<TaxonomyEntry>, skills: seq<Skill>)
    requires DistinctNames(es)
    requires forall i :: 0 <= i < |skills| ==> FromCatalogue(es, skills[i])
    ensures ImportSkills(es, ExportSkills(skills)) == skills
  {
    var x := ExportSkills(skills);
    var r := ImportSkills(es, x);
    forall i | 0 <= i < |skills| ensures r[i] == skills[i] {
      assert x[i] == Exported(skills[i]);
      ResolveExported(es, skills[i]);
    }
    assert |r| == |skills|;
  }

  /**
    A parsed template: `ReadmeFormData` with every top-level key optional
    (`None` when the key is absent). A present `achievements` or `custom`
    key may hold `null`.
  */
  datatype Template = Template(
    userName: Option<string>, userBio: Option<string>, currentWork: Option<string>,
    currentLearning: Option<string>, askAbout: Option<string>, userEmail: Option<string>,
    portfolioUrl: Option<string>, blogUrl: Option<string>, location: Option<string>,
    pronouns: Option<string>,
    skills: Option<seq<Skill>>,
    social: Option<SocialMedia>,
    stats: Option<GitHubStats>,
    blog: Option<BlogPosts>,
    buyMeCoffeeUsername: Option<string>, sponsorUrl: Option<string>,
    achievements: Option<Option<Achievements>>,
    custom: Option<Option<CustomSections>>)

  function TemplateText(t: Template, f: TextField): Option<string> {
    match f
    case UserName => t.userName
    case UserBio => t.userBio
    case CurrentWork => t.currentWork
    case CurrentLearning => t.currentLearning
    case AskAbout => t.askAbout
    case UserEmail => t.userEmail
    case PortfolioUrl => t.portfolioUrl
    case BlogUrl => t.blogUrl
    case Location => t.location
    case Pronouns => t.pronouns
    case BuyMeCoffeeUsername => t.buyMeCoffeeUsername
    case SponsorUrl => t.sponsorUrl
  }

  /** The value of a key: the template's when present, the base's otherwise. */
  function Or<T>(o: Option<T>, base: T): T {
    if o.Some? then o.value else base
  }

  /** The shallow merge: each key present in the template replaces the base's value whole. */
  function Merge(base: FormData, t: Template): FormData {
    FormData(
      userName := Or(t.userName, base.userName), userBio := Or(t.userBio, base.userBio),
      currentWork := Or(t.currentWork, base.currentWork),
      currentLearning := Or(t.currentLearning, base.currentLearning),
      askAbout := Or(t.askAbout, base.askAbout), userEmail := Or(t.userEmail, base.userEmail),
      portfolioUrl := Or(t.portfolioUrl, base.portfolioUrl), blogUrl := Or(t.blogUrl, base.blogUrl),
      location := Or(t.location, base.location), pronouns := Or(t.pronouns, base.pronouns),
      skills := Or(t.skills, base.skills),
      social := Or(t.social, base.social),
      stats := Or(t.stats, base.stats),
      blog := Or(t.blog, base.blog),
      buyMeCoffeeUsername := Or(t.buyMeCoffeeUsername, base.buyMeCoffeeUsername),
      sponsorUrl := Or(t.sponsorUrl, base.sponsorUrl),
      achievements := Or(t.achievements, base.achievements),
      custom := Or(t.custom, base.custom))
  }

  /** A text field takes the template's value when the key is present and keeps the base's otherwise. */
  lemma MergeText(base: FormData, t: Template, f: TextField)
    ensures TextOf(Merge(base, t), f) == Or(TemplateText(t, f), TextOf(base, f))
  {
  }

  /** The template with no keys at all. */
  function EmptyTemplate(): Template {
    Template(None, None, None, None, None, None, None, None, None, None, None, None, None, None, None, None, None, None)
  }

  /** A template without keys leaves the base as it is. */
  lemma MergeEmpty(base: FormData)
    ensures Merge(base, EmptyTemplate()) == base
  {
  }

  /** The template written by the export: every key of the configuration, skills reduced. */
  function TemplateOf(d: FormData): (t: Template)
    ensures forall f :: TemplateText(t, f) == Some(TextOf(d, f))
    ensures t.skills == Some(ExportSkills(d.skills))
    ensures t.social == Some(d.social) && t.stats == Some(d.stats) && t.blog == Some(d.blog)
    ensures t.achievements == Some(d.achievements) && t.custom == Some(d.custom)
  {
    Template(
      Some(d.userName), Some(d.userBio), Some(d.currentWork), Some(d.currentLearning),
      Some(d.askAbout), Some(d.userEmail), Some(d.portfolioUrl), Some(d.blogUrl),
      Some(d.location), Some(d.pronouns),
      Some(ExportSkills(d.skills)),
      Some(d.social), Some(d.stats), Some(d.blog),
      Some(d.buyMeCoffeeUsername), Some(d.sponsorUrl),
      Some(d.achievements), Some(d.custom))
  }

  /** The import: skills resolved against the catalogue, then merged onto the defaults. */
  function Imported(es: seq<TaxonomyEntry>, t: Template): (d: FormData)
    ensures t.skills.None? ==> d.skills == []
    ensures t.skills.Some? ==> d.skills == ImportSkills(es, t.skills.value)
  {
    var resolved := if t.skills.Some? then t.(skills := Some(ImportSkills(es, t.skills.value))) else t;
    Merge(DefaultFormData(), resolved)
  }

  /**
    Importing an exported template gives back the configuration it was
    exported from, when every skill came from the catalogue.
  */
  lemma ImportOfExport(es: seq<TaxonomyEntry>, d: FormData)
    requires DistinctNames(es)
    requires forall i :: 0 <= i < |d.skills| ==> FromCatalogue(es, d.skills[i])
    ensures Imported(es, TemplateOf(d)) == d
  {
    ImportExportSkills(es, d.skills);
  }

  // --------------------------------------------------------------- component

  /** The generator page's state: the configuration being edited. */
  class ReadmeGenerator {
    var formData: FormData

    /**
      Mounting: the stored configuration, or the defaults when nothing is
      stored; an incompatible stored configuration is replaced by the
      defaults.
    */
    constructor (stored: Option<FormData>)
      ensures formData == Loaded(stored)
    {
      var data := if stored.Some? then stored.value else DefaultFormData();
      if data.custom.None? || data.achievements.None? {
        data := DefaultFormData();
      }
      formData := data;
    }

    /** `handleInputChange` on a text field. */
    method HandleInputChange(field: TextField, value: string)
      modifies this
      ensures formData == SetText(old(formData), field, value)
    {
      formData := SetText(formData, field, value);
    }

    /** `handleSocialChange`: only the platform's handle changes. */
    method HandleSocialChange(p: Platform, value: string)
      modifies this
      ensures formData == old(formData).(social := SetHandle(old(formData).social, p, value))
    {
      formData := formData.(social := SetHandle(formData.social, p, value));
    }

    /** `handleStatsChange` on a toggle. */
    method HandleStatsToggle(f: StatFlag, value: bool)
      modifies this
      ensures formData == old(formData).(stats := SetStatFlag(old(formData).stats, f, value))
    {
      formData := formData.(stats := SetStatFlag(formData.stats, f, value));
    }

    /** `handleStatsChange` on a theme or the WakaTime user. */
    method HandleStatsText(t: StatText, value: string)
      modifies this
      ensures formData == old(formData).(stats := SetStatText(old(formData).stats, t, value))
    {
      formData := formData.(stats := SetStatText(formData.stats, t, value));
    }

    /** `handleBlogChange` on a toggle. */
    method HandleBlogToggle(f: BlogFlag, value: bool)
      modifies this
      ensures formData == old(formData).(blog := SetBlogFlag(old(formData).blog, f, value))
    {
      formData := formData.(blog := SetBlogFlag(formData.blog, f, value));
    }

    /** `handleBlogChange` on the RSS URL. */
    method HandleRssUrlChange(value: string)
      modifies this
      ensures formData == old(formData).(blog := old(formData).blog.(rssUrl := value))
    {
      formData := formData.(blog := formData.blog.(rssUrl := value));
    }

    /**
      `handleAchievementChange` on a toggle. Spreading a missing group gives
      an object with only the edited key; its other keys read as off and
      empty, which is what the defaults hold.
    */
    method HandleAchievementShown(k: AchievementKind, value: bool)
      modifies this
      ensures formData == old(formData).(achievements :=
        Some(SetAchievementShown(Or(old(formData).achievements, DefaultAchievements()), k, value)))
    {
      var group := if formData.achievements.Some? then formData.achievements.value else DefaultAchievements();
      formData := formData.(achievements := Some(SetAchievementShown(group, k, value)));
    }

    /** `handleAchievementChange` on a text. */
    method HandleAchievementText(k: AchievementKind, value: string)
      modifies this
      ensures formData == old(formData).(achievements :=
        Some(SetAchievementText(Or(old(formData).achievements, DefaultAchievements()), k, value)))
    {
      var group := if formData.achievements.Some? then formData.achievements.value else DefaultAchievements();
      formData := formData.(achievements := Some(SetAchievementText(group, k, value)));
    }

    /** `handleCustomChange` on a toggle. */
    method HandleCustomShown(k: CustomKind, value: bool)
      modifies this
      ensures formData == old(formData).(custom := Some(SetCustomShown(Or(old(formData).custom, DefaultCustom()), k, value)))
    {
      var group := if formData.custom.Some? then formData.custom.value else DefaultCustom();
      formData := formData.(custom := Some(SetCustomShown(group, k, value)));
    }

    /** `handleCustomChange` on a text. */
    method HandleCustomText(k: CustomKind, value: string)
      modifies this
      ensures formData == old(formData).(custom := Some(SetCustomText(Or(old(formData).custom, DefaultCustom()), k, value)))
    {
      var group := if formData.custom.Some? then formData.custom.value else DefaultCustom();
      formData := formData.(custom := Some(SetCustomText(group, k, value)));
    }

    /** `handleSkillToggle`: only the skill list changes, and its names stay distinct. */
    method HandleSkillToggle(e: TaxonomyEntry, category: string)
      modifies this
      ensures formData == old(formData).(skills := ToggleSkill(old(formData).skills, e, category))
      ensures DistinctSkills(old(formData).skills) ==> DistinctSkills(formData.skills)
    {
      if DistinctSkills(formData.skills) {
        ToggleKeepsDistinct(formData.skills, e, category);
      }
      if IsSelected(formData.skills, e.name) {
        formData := formData.(skills := WithoutName(formData.skills, e.name));
      } else {
        formData := formData.(skills := formData.skills + [SkillData(e, category)]);
      }
    }

    /** `resetForm`: back to the defaults. */
    method ResetForm()
      modifies this
      ensures formData == DefaultFormData()
    {
      formData := DefaultFormData();
    }

    /**
      `exportTemplate`: the template holding the current configuration.
      Imported again, it restores the configuration whenever every skill
      came from the taxonomy.
    */
    method ExportTemplate() returns (t: Template)
      ensures t == TemplateOf(formData)
      ensures (forall i :: 0 <= i < |formData.skills| ==> FromCatalogue(AllEntries(), formData.skills[i]))
        ==> Imported(AllEntries(), t) == formData
    {
      t := TemplateOf(formData);
      TaxonomyNamesDistinct();
      if forall i :: 0 <= i < |formData.skills| ==> FromCatalogue(AllEntries(), formData.skills[i]) {
        ImportOfExport(AllEntries(), formData);
      }
    }

    /**
      `importTemplate`: a template that did not parse (`None`) leaves the
      configuration alone; a parsed one replaces it by the import.
    */
    method ImportTemplate(parsed: Option<Template>)
      modifies this
      ensures parsed.None? ==> formData == old(formData)
      ensures parsed.Some? ==> formData == Imported(AllEntries(), parsed.value)
    {
      if parsed.Some? {
        var template := parsed.value;
        if template.skills.Some? {
          template := template.(skills := Some(ImportSkills(AllEntries(), template.skills.value)));
        }
        formData := Merge(DefaultFormData(), template);
      }
    }
  }
}
