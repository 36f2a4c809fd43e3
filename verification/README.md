# Readme-Craft in Dafny

Readme-Craft is a web form for building a GitHub profile README. The user fills
in a configuration (`ReadmeFormData`), and the page renders it as a Markdown
document of HTML blocks and badge images. It can also emit a GitHub Actions
workflow that fills the blog-post markers of that README. This project models
the core of that program and proves what it promises:

- `generateMarkdown`: the assembler that appends the README section by section.
  - `Markdown` gives each section as a function of the configuration and of a
    record of fixed fragments (`Templates`). `Original()` holds the original
    fragments.
  - `MarkdownGenerator` is the imperative assembler. It appends to a string and
    pushes to item lists in the same order as the original. It is proved to
    produce exactly `Markdown.Document`.
  - `MarkdownProps` proves the document's properties:
    - which lines of a multi-line field survive;
    - when each block appears;
    - the order of badges and links;
    - the banner at the top, and the footer and thanks at the bottom.
- `generateWorkflowYaml` (`WorkflowGenerator`): the feed list and the YAML
  template around it.
- The form state of the generator page (`ReadmeForm`):
  - the defaults;
  - the compatibility reset of a stored configuration;
  - the field handlers, as methods of the class `ReadmeGenerator`;
  - the skill toggle;
  - the template export and import, with their round trip.
- The types and the skill taxonomy (`ReadmeTypes`).
- The two ECMAScript library functions the assembler depends on:
  - `JsString`: `split`, `join` and `trim`;
  - `Uri`: `encodeURIComponent`, with a decoder as its round-trip partner.

Randomness and I/O are inputs:
- The random badge colour of the i-th skill is `picks[i]`, a palette index.
- A template file arrives already parsed, as `Option<Template>`.

## Model

| member | source | states |
|---|---|---|
| JsString.TrimStart | client/src/lib/markdown-generator.ts:41 | leading white space removed; the result is never longer |
| JsString.TrimStartSpec | client/src/lib/markdown-generator.ts:41 | the result is a suffix of the input; everything dropped is white space; the result does not start with white space |
| JsString.TrimEnd | client/src/lib/markdown-generator.ts:41 | trailing white space removed; the result is never longer |
| JsString.TrimEndSpec | client/src/lib/markdown-generator.ts:41 | the result is a prefix of the input; everything dropped is white space; the result does not end with white space |
| JsString.Trim | client/src/lib/markdown-generator.ts:44 | `trim` is never longer than its input |
| JsString.TrimSpec | client/src/lib/markdown-generator.ts:44 | `trim` is the infix left after removing white space at both ends, and it neither starts nor ends with white space |
| JsString.TrimEmptyIffBlank | client/src/lib/markdown-generator.ts:41 | `item.trim()` is falsy exactly when the line is all white space |
| JsString.TrimIdempotent | client/src/lib/markdown-generator.ts:44 | trimming twice is trimming once |
| JsString.Split | client/src/lib/markdown-generator.ts:43-44 | `split` gives at least one piece, and at least two when the separator occurs, so a line found to contain a pipe has a second piece |
| JsString.SplitSpec | client/src/lib/markdown-generator.ts:41 | no piece holds the separator; without a separator the string is its only piece |
| JsString.SplitJoin | client/src/lib/markdown-generator.ts:41 | joining the pieces with the separator gives back the string |
| JsString.SplitHead | client/src/lib/markdown-generator.ts:44 | a separator-free prefix is glued to the first piece of what follows |
| JsString.JoinSplit | client/src/lib/markdown-generator.ts:138 | pieces without the separator, joined and split again, come back unchanged |
| JsString.SplitLength | client/src/lib/markdown-generator.ts:44 | there is one more piece than there are separators |
| JsString.ToUpper | client/src/lib/markdown-generator.ts:128 | lower-case ASCII letters map to upper case; every other character is unchanged |
| JsString.Capitalize | client/src/lib/markdown-generator.ts:128 | the first character is upper-cased; the rest and the length are unchanged |
| Uri.Utf8 | client/src/lib/markdown-generator.ts:8 | a character takes one to four UTF-8 bytes, and one byte exactly for ASCII |
| Uri.PercentEncode | client/src/lib/markdown-generator.ts:8 | three characters `%XX` per byte |
| Uri.EncodeChar | client/src/lib/markdown-generator.ts:8 | every character encodes to a non-empty string |
| Uri.EncodeURIComponent | client/src/lib/markdown-generator.ts:8 | encoding never shortens its input |
| Uri.EncodedAlphabet | client/src/lib/markdown-generator.ts:8 | the encoding holds only unreserved characters and `%` |
| Uri.EncodedNoDelimiters | client/src/lib/markdown-generator.ts:8 | an encoded string holds no `=`, `&` or `"`, so it cannot end an attribute or a query parameter |
| Uri.Utf8RoundTrip | client/src/lib/markdown-generator.ts:8 | the UTF-8 bytes of a character decode back to it, and the lead byte gives the length |
| Uri.EncodeCharDecodes | client/src/lib/markdown-generator.ts:8 | the encoding of one character decodes back to it, whatever follows |
| Uri.EncodeDecodeRoundTrip | client/src/lib/markdown-generator.ts:8 | `decodeURIComponent(encodeURIComponent(s)) == s` for every string |
| Uri.EncodeInjective | client/src/lib/markdown-generator.ts:8 | two strings with the same encoding are equal |
| Uri.OverlongRejected | client/src/lib/markdown-generator.ts:8 | the overlong two-byte form of U+0000 is rejected, by the UTF-8 decoder and by `decodeURIComponent` |
| ReadmeTypes.SetHandle | client/src/components/readme-generator.tsx:143-147 | the platform gets the new handle; every other platform keeps its own |
| ReadmeTypes.PlatformIndex | client/src/lib/markdown-generator.ts:88-99 | every platform has a position in the platform table |
| ReadmeTypes.AllPlatformsExactlyOnce | client/src/types/readme.ts:7-18 | ten platforms; each appears in the table, and exactly once |
| ReadmeTypes.SocialExtensional | client/src/types/readme.ts:7-18 | two handle records that agree on every platform are equal |
| ReadmeTypes.SetStatFlag | client/src/components/readme-generator.tsx:149-153 | the toggle takes the new value; the themes and the WakaTime user are kept |
| ReadmeTypes.SetStatFlagFrame | client/src/components/readme-generator.tsx:149-153 | every other toggle keeps its value |
| ReadmeTypes.SetStatText | client/src/components/readme-generator.tsx:149-153 | the text key takes the new value; the other texts and every toggle are kept |
| ReadmeTypes.StatFlagIndex | client/src/types/readme.ts:20-34 | every toggle has a position in the toggle list |
| ReadmeTypes.AllStatFlagsExactlyOnce | client/src/types/readme.ts:20-34 | fourteen toggles; each appears exactly once |
| ReadmeTypes.SetBlogFlag | client/src/components/readme-generator.tsx:155-159 | the feed toggle takes the new value; the other toggles and the RSS URL are kept |
| ReadmeTypes.SetAchievementShown | client/src/components/readme-generator.tsx:161-165 | the toggle changes; the other toggles and every text are kept |
| ReadmeTypes.SetAchievementText | client/src/components/readme-generator.tsx:161-165 | the text changes; the other texts and every toggle are kept |
| ReadmeTypes.SetCustomShown | client/src/components/readme-generator.tsx:167-171 | the toggle changes; the other toggles and every text are kept |
| ReadmeTypes.SetCustomText | client/src/components/readme-generator.tsx:167-171 | the text changes; the other texts and every toggle are kept |
| ReadmeTypes.SetText | client/src/components/readme-generator.tsx:139-141 | the field takes the value; every other field and every group are kept |
| ReadmeTypes.TaxonomySize | client/src/types/readme.ts:105-179 | nine categories holding fifty-five entries |
| ReadmeTypes.FlattenDistinct | client/src/components/readme-generator.tsx:228-229 | flattening categories whose names are unique within and across categories keeps the names unique |
| ReadmeTypes.TaxonomyNamesDistinct | client/src/types/readme.ts:105-179 | no two taxonomy entries share a name |
| Markdown.NonBlank | client/src/lib/markdown-generator.ts:41 | filtering never adds lines |
| Markdown.LineBadges | client/src/lib/markdown-generator.ts:52-56 | one badge per line |
| Markdown.SocialLinksOf | client/src/lib/markdown-generator.ts:101-108 | one link per platform that has a handle |
| Markdown.SkillBadges | client/src/lib/markdown-generator.ts:124-131 | one badge per skill |
| Markdown.SkillNames | client/src/lib/markdown-generator.ts:138 | one name per skill |
| MarkdownGenerator.AppendCentered | client/src/lib/markdown-generator.ts:328-330 | the three appends of a centred block add exactly that block |
| MarkdownGenerator.AppendEach | client/src/lib/markdown-generator.ts:80-82 | the loop appends every item with its suffix, in order |
| MarkdownGenerator.AppendBanner | client/src/lib/markdown-generator.ts:7-9 | the appends add exactly the banner section |
| MarkdownGenerator.AppendGreeting | client/src/lib/markdown-generator.ts:12-19 | the appends add exactly the greeting section |
| MarkdownGenerator.AppendInfo | client/src/lib/markdown-generator.ts:22-35 | the appends add exactly the info section |
| MarkdownGenerator.PushFieldBadges | client/src/lib/markdown-generator.ts:40-64 | the loop pushes exactly the badges of the field's kept lines, in order |
| MarkdownGenerator.PushContactBadges | client/src/lib/markdown-generator.ts:66-76 | the email, portfolio and blog badges are pushed in that order, each when its field is set |
| MarkdownGenerator.CollectAboutItems | client/src/lib/markdown-generator.ts:38-76 | the collected items are exactly `AboutItems` |
| MarkdownGenerator.AppendAbout | client/src/lib/markdown-generator.ts:78-84 | the appends add exactly the about block |
| MarkdownGenerator.CollectSocialLinks | client/src/lib/markdown-generator.ts:87-108 | the loop over the platform table collects exactly `SocialLinks` |
| MarkdownGenerator.AppendSocial | client/src/lib/markdown-generator.ts:110-116 | the appends add exactly the social block |
| MarkdownGenerator.AppendSkillBadges | client/src/lib/markdown-generator.ts:124-131 | the loop appends exactly one badge per skill, coloured by its own pick |
| MarkdownGenerator.AppendBadgeList | client/src/lib/markdown-generator.ts:120-133 | the appends add exactly the heading, the badges and the closing tags |
| MarkdownGenerator.AppendIconStrip | client/src/lib/markdown-generator.ts:136-140 | the appends add exactly the icon strip |
| MarkdownGenerator.AppendSkills | client/src/lib/markdown-generator.ts:119-141 | the appends add exactly the skills block |
| MarkdownGenerator.AppendQuote | client/src/lib/markdown-generator.ts:144-146 | the appends add exactly the quote block |
| MarkdownGenerator.AppendEducation | client/src/lib/markdown-generator.ts:149-151 | the appends add exactly the education block |
| MarkdownGenerator.AppendBullets | client/src/lib/markdown-generator.ts:157-159 | the loop appends one bullet per line, in order |
| MarkdownGenerator.AppendListSection | client/src/lib/markdown-generator.ts:153-162 | the appends add exactly one list section |
| MarkdownGenerator.AppendAchievementLists | client/src/lib/markdown-generator.ts:153-173 | the appends add exactly the certifications and awards sections |
| MarkdownGenerator.AppendCustomLists | client/src/lib/markdown-generator.ts:176-209 | the appends add exactly the fun facts, goals and hobbies sections |
| MarkdownGenerator.AppendProductivity | client/src/lib/markdown-generator.ts:248-255 | the appends add exactly the productivity block |
| MarkdownGenerator.AppendWakaTime | client/src/lib/markdown-generator.ts:279-284 | the appends add exactly the WakaTime block |
| MarkdownGenerator.AppendProfileCards | client/src/lib/markdown-generator.ts:221-255 | the appends add exactly the first six cards |
| MarkdownGenerator.AppendExtraCards | client/src/lib/markdown-generator.ts:258-301 | the appends add exactly the remaining seven cards |
| MarkdownGenerator.AppendAnalytics | client/src/lib/markdown-generator.ts:212-302 | the appends add exactly the analytics section |
| MarkdownGenerator.AppendBlog | client/src/lib/markdown-generator.ts:305-307 | the appends add exactly the blog markers |
| MarkdownGenerator.AppendSupport | client/src/lib/markdown-generator.ts:310-320 | the appends add exactly the support block |
| MarkdownGenerator.AppendVisitors | client/src/lib/markdown-generator.ts:323-325 | the appends add exactly the visitor counter |
| MarkdownGenerator.AppendThanks | client/src/lib/markdown-generator.ts:333-336 | the appends add exactly the thanks block |
| MarkdownGenerator.GenerateMarkdown | client/src/lib/markdown-generator.ts:3-339 | the assembled string is exactly `Document` for the configuration and picks |
| MarkdownProps.NonBlankMembers | client/src/lib/markdown-generator.ts:41 | a line is kept exactly when it is not blank |
| MarkdownProps.NonBlankAppend | client/src/lib/markdown-generator.ts:41 | filtering distributes over concatenation, so kept lines keep their order |
| MarkdownProps.NonBlankEmpty | client/src/lib/markdown-generator.ts:41 | no line is kept exactly when every line is blank |
| MarkdownProps.BlankConcat | client/src/lib/markdown-generator.ts:41 | two strings put together are blank exactly when both are |
| MarkdownProps.JoinBlank | client/src/lib/markdown-generator.ts:41 | text joined with a white-space separator is blank exactly when every piece is |
| MarkdownProps.KeptLinesEmpty | client/src/lib/markdown-generator.ts:40-41 | a multi-line field keeps no line exactly when the whole field is blank |
| MarkdownProps.KeptLinesSpec | client/src/lib/markdown-generator.ts:41 | the kept lines are exactly the non-blank lines; none holds a line feed and none is blank |
| MarkdownProps.BulletsAppend | client/src/lib/markdown-generator.ts:157-159 | bullets distribute over concatenation: one per line, in order |
| MarkdownProps.ListSectionShown | client/src/lib/markdown-generator.ts:153-162 | a list section is the heading, one bullet per kept line and a blank line when it is on and its text is not blank; otherwise it is nothing |
| MarkdownProps.ListSectionIff | client/src/lib/markdown-generator.ts:153-162 | with a heading, a list section appears exactly when it is on and its text is not blank, and it then has at least one bullet |
| MarkdownProps.LineBadgeAt | client/src/lib/markdown-generator.ts:52-56 | the i-th badge is made from the i-th line |
| MarkdownProps.FieldBadgesSpec | client/src/lib/markdown-generator.ts:40-64 | one badge per kept line, in order; no badge exactly when the field is blank |
| MarkdownProps.WorkBadgeLinked | client/src/lib/markdown-generator.ts:43-45 | a work line of the form name, pipe, link gets the linked badge, with the trimmed name as its label and the trimmed link as its target, both percent-encoded |
| MarkdownProps.WorkBadgePlain | client/src/lib/markdown-generator.ts:46-48 | a work line without a pipe gets the plain badge, labelled with the trimmed line; the encoded label holds no `=`, `&` or `"` and decodes back to the trimmed line |
| MarkdownProps.PlainBadgeHasNoLink | client/src/lib/markdown-generator.ts:46-48 | a work line without a pipe gives a badge with no `link=` parameter anywhere, for any fixed fragments in which no `=` follows a `k` |
| MarkdownProps.AboutItemsEmpty | client/src/lib/markdown-generator.ts:38-76 | there is no about badge exactly when the three multi-line fields are blank and email, portfolio and blog are empty |
| MarkdownProps.AboutBlockShown | client/src/lib/markdown-generator.ts:78-84 | the about block appears exactly when some about field yields a badge |
| MarkdownProps.LinkedMembers | client/src/lib/markdown-generator.ts:101-108 | a platform is linked exactly when it is listed and has a handle |
| MarkdownProps.NoHandleNoLinks | client/src/lib/markdown-generator.ts:101-108 | without any handle, no platform is linked |
| MarkdownProps.LinkedSorted | client/src/lib/markdown-generator.ts:101-108 | the linked platforms keep the table order |
| MarkdownProps.SocialLinksPointwise | client/src/lib/markdown-generator.ts:101-108 | the i-th link belongs to the i-th linked platform and carries its handle |
| MarkdownProps.SocialLinksSpec | client/src/lib/markdown-generator.ts:87-108 | one link per platform with a handle, in table order, each for its own platform and handle |
| MarkdownProps.SocialBlockShown | client/src/lib/markdown-generator.ts:110-116 | the social block appears exactly when some handle is set |
| MarkdownProps.SkillBadgesPointwise | client/src/lib/markdown-generator.ts:124-131 | the i-th badge is made from the i-th skill and the i-th colour pick |
| MarkdownProps.SkillNamesPointwise | client/src/lib/markdown-generator.ts:138 | the icon names are the skill names, in order |
| MarkdownProps.IconListRoundTrip | client/src/lib/markdown-generator.ts:137-139 | the comma-joined icon list splits back into the skill names when no name holds a comma |
| MarkdownProps.AnalyticsHeadingOnly | client/src/lib/markdown-generator.ts:212-302 | with a GitHub handle and every card off, the analytics section is its heading alone |
| MarkdownProps.ProfileCardsOff | client/src/lib/markdown-generator.ts:221-255 | with the first six toggles off, none of those cards is emitted |
| MarkdownProps.ExtraCardsOff | client/src/lib/markdown-generator.ts:258-301 | with the remaining seven toggles off, none of those cards is emitted |
| MarkdownProps.StatsThemeParam | client/src/lib/markdown-generator.ts:214-222 | the stats card carries `&theme=<theme>` exactly when the theme is not `default` |
| MarkdownProps.BannerFirst | client/src/lib/markdown-generator.ts:7-9 | the document starts with the banner |
| MarkdownProps.BannerTitle | client/src/lib/markdown-generator.ts:8 | the banner's `text=` is the percent-encoded title, and it decodes back to the title |
| MarkdownProps.OriginalTitle | client/src/lib/markdown-generator.ts:8 | with the original fragments, the title is the user name, or `GitHub Profile` when the name is empty |
| MarkdownProps.EndsWithFooterAndThanks | client/src/lib/markdown-generator.ts:327-338 | the document always ends with the footer and then the thanks block |
| MarkdownProps.HeaderGates | client/src/lib/markdown-generator.ts:12-33 | the greeting appears exactly when a user name is set, the location badge exactly when a location is set, and the time-zone badge exactly when its toggle is on and a time zone is set |
| MarkdownProps.SectionGates | client/src/lib/markdown-generator.ts:119-150 | the skills block appears exactly when some skill is selected, the quote exactly when its toggle is on and its text is set, and the education paragraph likewise |
| MarkdownProps.TailGates | client/src/lib/markdown-generator.ts:212-325 | the analytics section appears exactly when a GitHub handle is set, the blog markers exactly when one feed is on, the support block exactly when a coffee name or a sponsor link is set, and the visitor counter exactly when its toggle is on and a GitHub handle is set |
| MarkdownProps.SupportOrder | client/src/lib/markdown-generator.ts:310-320 | the support block, in each of the four cases: the coffee link first, then the sponsor link on the next line, under the heading; nothing when neither is set |
| MarkdownProps.SlotEmptyIff | client/src/lib/markdown-generator.ts:221-301 | a card's place in the analytics section is empty exactly when the card is not shown |
| MarkdownProps.ProfileSlots | client/src/lib/markdown-generator.ts:221-255 | the first six cards are each present exactly when their own toggle is on, in the order of the toggles |
| MarkdownProps.ExtraSlots | client/src/lib/markdown-generator.ts:258-301 | the remaining seven cards likewise, the WakaTime card also needing its user name |
| MarkdownProps.AnalyticsSlots | client/src/lib/markdown-generator.ts:212-302 | the analytics section of a user is the heading and then the thirteen cards in order, each present exactly when its own toggle is on, whatever the other toggles are |
| MarkdownProps.StatsCardAlone | client/src/lib/markdown-generator.ts:212-223 | with only the stats toggle on, the section is the heading and the stats card, themed unless the theme is `default` |
| MarkdownProps.ProfileBlocksOff | client/src/lib/markdown-generator.ts:12-140 | with every block switched off, the greeting, about, social and skills blocks are empty and the info block holds the bio line alone |
| MarkdownProps.ListBlocksOff | client/src/lib/markdown-generator.ts:143-209 | with every block switched off, the quote, the education paragraph and the five list sections are empty |
| MarkdownProps.TailBlocksOff | client/src/lib/markdown-generator.ts:212-325 | with every block switched off, the analytics, blog, support and visitor blocks are empty |
| MarkdownProps.DefaultDocument | client/src/lib/markdown-generator.ts:3-339 | for every configuration with all blocks switched off, the README is the banner, the info block with the bio line alone, the footer and the thanks block, and nothing else |
| MarkdownProps.DefaultAllOff | client/src/components/readme-generator.tsx:28-99 | the default configuration of the page has every block switched off |
| WorkflowGenerator.GenerateWorkflowYaml | client/src/lib/workflow-generator.ts:3-38 | the feed list the pushes collect is `FeedList`, and the result is the template around it joined by commas |
| WorkflowGenerator.FeedListOrder | client/src/lib/workflow-generator.ts:4-16 | one feed per enabled source, in the order Dev.to, Medium, RSS, with their URLs |
| WorkflowGenerator.NoFeeds | client/src/lib/workflow-generator.ts:4-35 | with every source off or empty, `feed_list` is the empty string |
| WorkflowGenerator.RssVerbatim | client/src/lib/workflow-generator.ts:14-16 | the RSS URL is the last feed exactly when RSS is on and the URL is set, and it is copied as entered |
| WorkflowGenerator.TemplateFixed | client/src/lib/workflow-generator.ts:18-37 | the text begins with the fixed head and ends with the fixed tail |
| WorkflowGenerator.FeedListRecoverable | client/src/lib/workflow-generator.ts:35 | when no feed holds a comma, `feed_list` splits back into exactly the feeds |
| WorkflowGenerator.OriginalFeeds | client/src/lib/workflow-generator.ts:6-12 | the original feed URLs are `https://dev.to/feed/<user>` and `https://medium.com/feed/@<user>`, joined by `,` |
| ReadmeForm.EmptySocial | client/src/components/readme-generator.tsx:40-51 | every handle is empty |
| ReadmeForm.DefaultStats | client/src/components/readme-generator.tsx:52-70 | every toggle is off, both themes are `default` and the WakaTime user is empty |
| ReadmeForm.DefaultBlog | client/src/components/readme-generator.tsx:71-76 | every feed toggle is off and the RSS URL is empty |
| ReadmeForm.DefaultAchievements | client/src/components/readme-generator.tsx:79-86 | every toggle is off and every text is empty |
| ReadmeForm.DefaultCustom | client/src/components/readme-generator.tsx:87-98 | every toggle is off and every text is empty |
| ReadmeForm.DefaultFormData | client/src/components/readme-generator.tsx:28-99 | empty texts, no skills, no handles, everything off, `default` themes, and both later groups present and empty |
| ReadmeForm.Loaded | client/src/components/readme-generator.tsx:121-127 | a stored configuration with both later groups is kept; anything else is replaced by the defaults; the result is always compatible |
| ReadmeForm.WithoutName | client/src/components/readme-generator.tsx:179 | drops exactly the skills with that name and keeps every other skill |
| ReadmeForm.ToggleSkill | client/src/components/readme-generator.tsx:173-186 | the skill's selection flips and no other name's selection changes; a selected name is removed, every copy of it; removing a selected name gives the list without that name, the others in their order; an absent one is appended at the end with its entry data and category |
| ReadmeForm.WithoutNameAppend | client/src/components/readme-generator.tsx:179 | filtering distributes over concatenation, so the kept skills keep their order |
| ReadmeForm.WithoutAbsentName | client/src/components/readme-generator.tsx:179 | filtering a name that is not selected changes nothing |
| ReadmeForm.ToggleTwice | client/src/components/readme-generator.tsx:173-186 | toggling an unselected skill twice gives back the same list |
| ReadmeForm.WithoutNameDistinct | client/src/components/readme-generator.tsx:179 | filtering keeps distinct names distinct |
| ReadmeForm.ToggleKeepsDistinct | client/src/components/readme-generator.tsx:173-186 | the toggle keeps the selected names distinct |
| ReadmeForm.ExportSkills | client/src/components/readme-generator.tsx:200 | same length and order; each skill keeps its name and category and loses its icon and display name |
| ReadmeForm.FindEntry | client/src/components/readme-generator.tsx:228-230 | nothing is found exactly when no entry has the name; whatever is found is an entry with that name |
| ReadmeForm.FindFirst | client/src/components/readme-generator.tsx:228-230 | the lookup returns the first entry carrying the name |
| ReadmeForm.ResolveSkill | client/src/components/readme-generator.tsx:227-232 | name and category are kept; an unknown name leaves the skill as it is; a known one gets the icon and display name of the first taxonomy entry with that name |
| ReadmeForm.ImportSkills | client/src/components/readme-generator.tsx:226-233 | every skill is resolved, in order |
| ReadmeForm.ResolveExported | client/src/components/readme-generator.tsx:226-232 | with distinct catalogue names, an exported catalogue skill resolves back to itself |
| ReadmeForm.ImportExportSkills | client/src/components/readme-generator.tsx:197-233 | export followed by import restores every skill picked from the catalogue |
| ReadmeForm.MergeText | client/src/components/readme-generator.tsx:234 | a text field takes the template's value when the key is present and keeps the base's otherwise |
| ReadmeForm.MergeEmpty | client/src/components/readme-generator.tsx:234 | a template without keys leaves the base unchanged |
| ReadmeForm.TemplateOf | client/src/components/readme-generator.tsx:197-201 | every key is present, with the configuration's values and the skills exported |
| ReadmeForm.Imported | client/src/components/readme-generator.tsx:218-234 | a template without skills imports no skill; otherwise its skills are resolved against the catalogue |
| ReadmeForm.ImportOfExport | client/src/components/readme-generator.tsx:197-234 | importing an exported configuration whose skills come from the catalogue gives it back exactly |
| ReadmeForm.ReadmeGenerator.constructor | client/src/components/readme-generator.tsx:121-127 | the page starts from the stored configuration if it is compatible, and from the defaults otherwise |
| ReadmeForm.ReadmeGenerator.HandleInputChange | client/src/components/readme-generator.tsx:139-141 | only the named text field changes |
| ReadmeForm.ReadmeGenerator.HandleSocialChange | client/src/components/readme-generator.tsx:143-147 | only the platform's handle changes |
| ReadmeForm.ReadmeGenerator.HandleStatsToggle | client/src/components/readme-generator.tsx:149-153 | only the stats toggle changes |
| ReadmeForm.ReadmeGenerator.HandleStatsText | client/src/components/readme-generator.tsx:149-153 | only the theme or WakaTime user changes |
| ReadmeForm.ReadmeGenerator.HandleBlogToggle | client/src/components/readme-generator.tsx:155-159 | only the feed toggle changes |
| ReadmeForm.ReadmeGenerator.HandleRssUrlChange | client/src/components/readme-generator.tsx:155-159 | only the RSS URL changes |
| ReadmeForm.ReadmeGenerator.HandleAchievementShown | client/src/components/readme-generator.tsx:161-165 | only that achievements toggle changes; a missing group reads as the defaults |
| ReadmeForm.ReadmeGenerator.HandleAchievementText | client/src/components/readme-generator.tsx:161-165 | only that achievements text changes; a missing group reads as the defaults |
| ReadmeForm.ReadmeGenerator.HandleCustomShown | client/src/components/readme-generator.tsx:167-171 | only that custom toggle changes; a missing group reads as the defaults |
| ReadmeForm.ReadmeGenerator.HandleCustomText | client/src/components/readme-generator.tsx:167-171 | only that custom text changes; a missing group reads as the defaults |
| ReadmeForm.ReadmeGenerator.HandleSkillToggle | client/src/components/readme-generator.tsx:173-186 | only the skill list changes, by the toggle, and its names stay distinct |
| ReadmeForm.ReadmeGenerator.ResetForm | client/src/components/readme-generator.tsx:188-190 | the configuration is back to the defaults |
| ReadmeForm.ReadmeGenerator.ExportTemplate | client/src/components/readme-generator.tsx:197-201 | returns the template of the current configuration, which imports back to that configuration when every skill comes from the taxonomy |
| ReadmeForm.ReadmeGenerator.ImportTemplate | client/src/components/readme-generator.tsx:218-247 | a template that failed to parse changes nothing; a parsed one replaces the configuration by its merge onto the defaults, with resolved skills |

## Left out

- The page itself: JSX, the accordion, the theme toggle and the theme provider. The Markdown preview rendered with marked.js is left out too, and so are the CDN script tag, the toasts, the copy-to-clipboard action and the README download. None of them affects the configuration or the text generated.
- Persistence: the local-storage hook is not modelled. A stored configuration is an input of the constructor, and the removal of the stored key during the compatibility reset is not modelled.
- File handling: the Blob download of the export and the FileReader of the import are left out. The template text and `JSON.parse` are replaced by an already parsed `Option<Template>`, where `None` stands for a parse failure.
- Value types: a parsed template whose values have the wrong JSON types is not represented. Nor is a group that is present but partial, since the template's groups are whole records.
- Regeneration: the preview regeneration on every change is just a call of `generateMarkdown`, which is modelled on its own.
- Randomness: `Math.random` is not modelled. The palette index of each skill badge is the input `picks`.
- Encoding: `encodeURIComponent` works on Unicode scalar values here, so the error it raises on a lone UTF-16 surrogate is not modelled.
- React state: every handler is modelled as an immediate, sequential update of the current configuration. Handlers that read the configuration captured by the render, rather than the latest state, are not distinguished from the others.
- ReadmeForm.ReadmeGenerator.HandleAchievementShown, HandleAchievementText, HandleCustomShown, HandleCustomText: spreading a missing group yields a partial object in the original. Here a missing group reads as the defaults before the one key is set.
- JsString.ToUpper: only ASCII letters are upper-cased. Characters whose upper case differs outside ASCII, or has a different length, are left unchanged.
- ReadmeTypes.Skill: the original's `Skill` type declares only `name`, `icon` and `category`. The toggle and the import also carry `displayName`, so the model has both `icon` and `displayName`, as options that an exported skill lacks.
- WorkflowGenerator.GenerateWorkflowYaml: the optional user-name arguments are `Option<string>`, and an absent argument counts like an empty one.
- MarkdownProps.WorkBadgeLinked: in a `currentWork` line holding several `|`, the original uses the first two pieces of the split and ignores the rest. This model follows that code. The first piece is the text before the first `|`, and the second runs up to the next `|`, not to the end of the line.
- MarkdownProps.PlainBadgeHasNoLink: the lemma takes as a premise that the two fixed fragments of the plain badge hold no `k=`, and that the closing one does not start with `=`. The original fragments (`AboutWorkBadge`, `AboutWorkPlain`) meet it by inspection, but that is not proved for these literal strings.
- MarkdownProps.StatsCardAlone: the "one card on, every other off" equation is stated for the stats card only. For any other card, its independence from the other toggles follows from MarkdownProps.AnalyticsSlots together with MarkdownProps.SlotEmptyIff, which place each card in its own slot, present exactly when its own toggle is on.
