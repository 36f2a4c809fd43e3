/**
  `generateWorkflowYaml`: the GitHub Actions workflow that fills the blog
  markers of the README. The feed list is collected from three gated
  sources and interpolated, joined by commas, into a fixed YAML template.
*/
module WorkflowGenerator {
  import opened Wrappers
  import opened JsString
  import opened ReadmeTypes

  /** The fixed text of the feed list: the two feed URL prefixes and the list separator. */
  datatype FeedText = FeedText(devtoFeed: string, mediumFeed: string, separator: char)

  /** The fixed text of the workflow: the feed text and the YAML around `feed_list`. */
  datatype WorkflowText = WorkflowText(feeds: FeedText, head: string, tail: string)

  /** The feed prefixes and separator exactly as the original spells them. */
  function OriginalFeedText(): FeedText {
    FeedText(devtoFeed := "https://dev.to/feed/", mediumFeed := "https://medium.com/feed/@", separator := ',')
  }

  /** The fragments exactly as the original's template literal spells them. */
  function OriginalWorkflow(): WorkflowText {
    WorkflowText(
      feeds := OriginalFeedText(),
      head := "name: Latest blog post workflow\n"
        + "on:\n"
        + "  schedule: # Run workflow automatically\n"
        + "    - cron: '0 * * * *' # Runs every hour, on the hour\n"
        + "  workflow_dispatch: # Run workflow manually (without waiting for the cron to be called),"
        + " through the GitHub Actions Workflow page directly\n"
        + "\n"
        + "jobs:\n"
        + "  update-readme-with-blog:\n"
        + "    name: Update this repo's README with latest blog posts\n"
        + "    runs-on: ubuntu-latest\n"
        + "    steps:\n"
        + "      - name: Checkout\n"
        + "        uses: actions/checkout@v3\n"
        + "      - name: Pull in blog posts\n"
        + "        uses: gautamkrishnar/blog-post-workflow@v1\n"
        + "        with:\n"
        + "          comment_tag_name: \"BLOG-POST-LIST\"\n"
        + "          feed_list: \"",
      tail := "\"\n"
        + "          max_post_count: 5\n"
        + "          template: \"- [$title]($url)\"")
  }

  /** An optional string argument is truthy when it is passed and not empty. */
  predicate Given(u: Option<string>) {
    u.Some? && u.value != ""
  }

  predicate DevtoOn(blog: BlogPosts, devtoUsername: Option<string>) {
    blog.showDevtoPosts && Given(devtoUsername)
  }

  predicate MediumOn(blog: BlogPosts, mediumUsername: Option<string>) {
    blog.showMediumPosts && Given(mediumUsername)
  }

  predicate RssOn(blog: BlogPosts) {
    blog.showRssPosts && blog.rssUrl != ""
  }

  /** `feedList`: Dev.to, then Medium, then the RSS URL as given, each behind its toggle and value. */
  function FeedList(f: FeedText, blog: BlogPosts, devtoUsername: Option<string>, mediumUsername: Option<string>)
    : seq<string>
  {
    (if DevtoOn(blog, devtoUsername) then [f.devtoFeed + devtoUsername.value] else [])
    + (if MediumOn(blog, mediumUsername) then [f.mediumFeed + mediumUsername.value] else [])
    + (if RssOn(blog) then [blog.rssUrl] else [])
  }

  /** The workflow text: the template with the joined feed list as `feed_list`. */
  function Workflow(w: WorkflowText, blog: BlogPosts, devtoUsername: Option<string>, mediumUsername: Option<string>)
    : string
  {
    w.head + Join(FeedList(w.feeds, blog, devtoUsername, mediumUsername), [w.feeds.separator]) + w.tail
  }

  /** `generateWorkflowYaml(blogConfig, devtoUsername, mediumUsername)`. */
  method GenerateWorkflowYaml(w: WorkflowText, blogConfig: BlogPosts,
                              devtoUsername: Option<string>, mediumUsername: Option<string>)
    returns (yaml: string)
    ensures yaml == Workflow(w, blogConfig, devtoUsername, mediumUsername)
  {
    var feedList: seq<string> := [];
    if blogConfig.showDevtoPosts && devtoUsername.Some? && devtoUsername.value != "" {
      feedList := feedList + [w.feeds.devtoFeed + devtoUsername.value];
    }
    if blogConfig.showMediumPosts && mediumUsername.Some? && mediumUsername.value != "" {
      feedList := feedList + [w.feeds.mediumFeed + mediumUsername.value];
    }
    if blogConfig.showRssPosts && blogConfig.rssUrl != "" {
      feedList := feedList + [blogConfig.rssUrl];
    }
    assert feedList == FeedList(w.feeds, blogConfig, devtoUsername, mediumUsername);
    yaml := w.head + Join(feedList, [w.feeds.separator]) + w.tail;
  }

  // ---------------------------------------------------------------- properties

  /** One feed per enabled source, and the sources keep the order Dev.to, Medium, RSS. */
  lemma FeedListOrder(f: FeedText, blog: BlogPosts, devtoUsername: Option<string>, mediumUsername: Option<string>)
    ensures var feeds := FeedList(f, blog, devtoUsername, mediumUsername);
      var d := if DevtoOn(blog, devtoUsername) then 1 else 0;
      var m := if MediumOn(blog, mediumUsername) then 1 else 0;
      && |feeds| == d + m + (if RssOn(blog) then 1 else 0)
      && (DevtoOn(blog, devtoUsername) ==> feeds[0] == f.devtoFeed + devtoUsername.value)
      && (MediumOn(blog, mediumUsername) ==> feeds[d] == f.mediumFeed + mediumUsername.value)
      && (RssOn(blog) ==> feeds[d + m] == blog.rssUrl)
  {
  }

  /** With every source off or empty the list is empty, and `feed_list` is the empty string. */
  lemma NoFeeds(w: WorkflowText, blog: BlogPosts, devtoUsername: Option<string>, mediumUsername: Option<string>)
    requires !DevtoOn(blog, devtoUsername) && !MediumOn(blog, mediumUsername) && !RssOn(blog)
    ensures FeedList(w.feeds, blog, devtoUsername, mediumUsername) == []
    ensures Workflow(w, blog, devtoUsername, mediumUsername) == w.head + w.tail
  {
  }

  /** The RSS URL is copied into the list exactly as entered, with no encoding. */
  lemma RssVerbatim(f: FeedText, blog: BlogPosts, devtoUsername: Option<string>, mediumUsername: Option<string>)
    ensures RssOn(blog) <==> (var feeds := FeedList(f, blog, devtoUsername, mediumUsername);
      |feeds| > 0 && feeds[|feeds| - 1] == blog.rssUrl && |feeds| == |FeedList(f, blog.(showRssPosts := false), devtoUsername, mediumUsername)| + 1)
  {
    var off := blog.(showRssPosts := false);
    assert FeedList(f, off, devtoUsername, mediumUsername)
      == FeedList(f, blog, devtoUsername, mediumUsername)[..|FeedList(f, off, devtoUsername, mediumUsername)|];
  }

  /**
    Everything outside `feed_list` is the same for every input: the text
    starts with the fixed head and ends with the fixed tail.
  */
  lemma TemplateFixed(w: WorkflowText, blog: BlogPosts, devtoUsername: Option<string>, mediumUsername: Option<string>)
    ensures var yaml := Workflow(w, blog, devtoUsername, mediumUsername);
      && |yaml| >= |w.head| + |w.tail|
      && yaml[..|w.head|] == w.head
      && yaml[|yaml| - |w.tail|..] == w.tail
  {
  }

  /**
    When no feed holds a comma, the `feed_list` value splits back on commas
    into exactly the collected feeds.
  */
  lemma FeedListRecoverable(f: FeedText, blog: BlogPosts, devtoUsername: Option<string>, mediumUsername: Option<string>)
    requires var feeds := FeedList(f, blog, devtoUsername, mediumUsername);
      |feeds| > 0 && forall i :: 0 <= i < |feeds| ==> f.separator !in feeds[i]
    ensures var feeds := FeedList(f, blog, devtoUsername, mediumUsername);
      Split(Join(feeds, [f.separator]), f.separator) == feeds
  {
    JoinSplit(FeedList(f, blog, devtoUsername, mediumUsername), f.separator);
  }

  /** The original's feed URLs: `https://dev.to/feed/<user>` and `https://medium.com/feed/@<user>`. */
  lemma OriginalFeeds(blog: BlogPosts, devto: string, medium: string)
    requires blog.showDevtoPosts && blog.showMediumPosts && !blog.showRssPosts && devto != "" && medium != ""
    ensures FeedList(OriginalFeedText(), blog, Some(devto), Some(medium))
      == ["https://dev.to/feed/" + devto, "https://medium.com/feed/@" + medium]
    ensures Join(FeedList(OriginalFeedText(), blog, Some(devto), Some(medium)), [OriginalFeedText().separator])
      == "https://dev.to/feed/" + devto + "," + "https://medium.com/feed/@" + medium
  {
    var feeds := FeedList(OriginalFeedText(), blog, Some(devto), Some(medium));
    assert Join(feeds, [',']) == feeds[0] + [','] + feeds[1];
  }
}
