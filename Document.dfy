/**
 * The dashboard's root document: the user profile, the statistics, the task list, the chart
 * series, the preferences and the feed, with the built-in default the dashboard starts from
 * when local storage holds nothing, and the pure rules for the theme and the profile.
 */
module Document {
  import opened Wrappers
  import opened Text
  import opened Tasks

  const Light: string := "light"
  const Dark: string := "dark"

  datatype User = User(name: string, email: string, avatar: string, role: string,
                       location: string, joinDate: string)

  datatype Stats = Stats(totalUsers: int, totalOrders: int, totalRevenue: int, growthRate: real)

  /** One chart's series: labels and values, position by position. */
  datatype Series = Series(labels: seq<string>, data: seq<int>)

  datatype ChartData = ChartData(monthlyRevenue: Series, userGrowth: Series, taskDistribution: Series)

  datatype Preferences = Preferences(theme: string, notifications: bool, autoSave: bool, language: string)

  /** The raw RSS text the feed panel parses for display. */
  datatype Feeds = Feeds(xmlContent: string)

  datatype Doc = Doc(user: User, dashboardStats: Stats, tasks: seq<Task>, chartData: ChartData,
                     preferences: Preferences, externalFeeds: Feeds)

  /** The three sample tasks of the default document. */
  function DefaultTasks(): seq<Task> {
    [ Task(1, "Complete project documentation",
           "Finalize the technical documentation for the new dashboard feature",
           Pending, "high", "2025-08-30", "Work"),
      Task(2, "Review code pull requests",
           "Review and approve pending pull requests from the development team",
           Completed, "medium", "2025-08-28", "Work"),
      Task(3, "Plan weekend trip",
           "Research destinations and book accommodation for upcoming weekend getaway",
           Pending, "low", "2025-09-01", "Personal") ]
  }

  /** The default user's avatar: an inline SVG image with the initials "AJ". */
  function DefaultAvatar(): string {
    "data:image/svg+xml,"
    + "%3Csvg xmlns='http://www.w3.org/2000/svg' width='100' height='100' viewBox='0 0 100 100'%3E"
    + "%3Ccircle cx='50' cy='50' r='50' fill='%236366f1'/%3E"
    + "%3Ctext x='50' y='60' font-family='Arial' font-size='40' fill='white' text-anchor='middle'%3E"
    + "AJ%3C/text%3E"
    + "%3C/svg%3E"
  }

  /** The default feed: an RSS channel with three news items. */
  function DefaultFeedXml(): string {
    "<?xml version='1.0' encoding='UTF-8'?><rss version='2.0'><channel>"
    + "<title>Tech News Feed</title><description>Latest technology news and updates</description>"
    + RssItem("New JavaScript Framework Released",
              "A revolutionary new framework promises to change web development",
              "2025-08-27", "https://example.com/news1")
    + RssItem("AI Integration in Web Development",
              "How artificial intelligence is transforming the way we build websites",
              "2025-08-26", "https://example.com/news2")
    + RssItem("Mobile-First Design Trends",
              "The latest trends in mobile-first responsive design for 2025",
              "2025-08-25", "https://example.com/news3")
    + "</channel></rss>"
  }

  /** One `<item>` element of an RSS channel. */
  function RssItem(title: string, description: string, pubDate: string, link: string): string {
    "<item><title>" + title + "</title><description>" + description + "</description><pubDate>"
    + pubDate + "</pubDate><link>" + link + "</link></item>"
  }

  /** The default chart series; the task-distribution one is fixed sample data. */
  function DefaultChartData(): ChartData {
    ChartData(
      Series(["Jan", "Feb", "Mar", "Apr", "May", "Jun", "Jul", "Aug"],
             [45000, 48000, 52000, 49000, 55000, 58000, 62000, 58249]),
      Series(["Week 1", "Week 2", "Week 3", "Week 4"], [150, 230, 180, 287]),
      Series(["Completed", "Pending", "In Progress"], [45, 25, 30]))
  }

  /** The document the dashboard uses when local storage holds none. */
  function DefaultDocument(): Doc {
    Doc(DefaultUser(), Stats(2847, 1205, 58249, 12.5), DefaultTasks(), DefaultChartData(),
        Preferences(Light, true, true, "en"), Feeds(DefaultFeedXml()))
  }

  /** The default profile. */
  function DefaultUser(): User {
    User("Alex Johnson", "alex.johnson@example.com", DefaultAvatar(),
         "Full Stack Developer", "San Francisco, CA", "2023-01-15")
  }

  /** The document the dashboard starts from: the stored one when there is one, else the default. */
  function Load(stored: Option<Doc>): Doc {
    if stored.Some? then stored.value else DefaultDocument()
  }

  /** A stored document is used as it is. */
  lemma LoadStored(doc: Doc)
    ensures Load(Some(doc)) == doc
  {
    hide DefaultDocument;
  }

  /**
   * With nothing stored the dashboard starts from the default document: its task ids are
   * unique, its theme is light, its task-distribution series is the fixed sample data, and
   * its profile would pass the profile form's validation.
   */
  lemma LoadWithoutStorage()
    ensures Load(None) == DefaultDocument()
    ensures Load(None).tasks == DefaultTasks() && UniqueIds(Load(None).tasks)
    ensures Load(None).chartData == DefaultChartData() && Load(None).preferences.theme == Light
    ensures !IsBlank(Load(None).user.name) && !IsBlank(Load(None).user.email)
  {
    DefaultIdsUnique();
    hide DefaultTasks, DefaultAvatar, DefaultFeedXml, DefaultChartData;
    var name := Load(None).user.name;
    var email := Load(None).user.email;
    assert !IsJsWhitespace(name[0]) && !IsJsWhitespace(email[0]);
  }

  /** The default tasks have the ids 1, 2 and 3, so no id occurs twice. */
  lemma DefaultIdsUnique()
    ensures UniqueIds(DefaultTasks())
  {
    var tasks := DefaultTasks();
    assert |tasks| == 3 && tasks[0].id == 1 && tasks[1].id == 2 && tasks[2].id == 3;
  }

  /**
   * The default document's task-distribution series is fixed data: it does not hold the status
   * counts of the default tasks, and nothing in the dashboard ever recomputes it.
   */
  lemma DefaultSeriesIsNotTheCounts()
    ensures Distribution(DefaultTasks()) == [1, 2, 0]
    ensures DefaultChartData().taskDistribution.data != Distribution(DefaultTasks())
  {
    DefaultStatuses();
    DistributionOfStatuses(DefaultTasks());
  }

  lemma DefaultStatuses()
    ensures Statuses(DefaultTasks()) == [Pending, Completed, Pending]
  {
  }

  lemma DistributionOfStatuses(tasks: seq<Task>)
    requires Statuses(tasks) == [Pending, Completed, Pending]
    ensures Distribution(tasks) == [1, 2, 0]
  {
    assert multiset(Statuses(tasks)) == multiset{Pending, Pending, Completed};
  }

  /** The theme after a toggle: "light" becomes "dark"; anything else becomes "light". */
  function FlipTheme(theme: string): (r: string)
    ensures r == Dark <==> theme == Light
    ensures r == Light <==> theme != Light
  {
    if theme == Light then Dark else Light
  }

  /** On the two real themes, toggling twice changes nothing. */
  lemma FlipThemeTwice(theme: string)
    requires theme == Light || theme == Dark
    ensures FlipTheme(FlipTheme(theme)) == theme
  {
  }

  /**
   * The profile form's validation and update: a name or email that is blank is refused;
   * otherwise name, email, role and location are replaced and avatar and join date are kept.
   */
  function UpdatedProfile(user: User, name: string, email: string, role: string, location: string): (r: Option<User>)
    ensures r.None? <==> AllWhitespace(name) || AllWhitespace(email)
    ensures r.Some? ==>
      r.value.name == name && r.value.email == email && r.value.role == role &&
      r.value.location == location && r.value.avatar == user.avatar && r.value.joinDate == user.joinDate
  {
    BlankIffAllWhitespace(name);
    BlankIffAllWhitespace(email);
    if IsBlank(name) || IsBlank(email) then None
    else Some(user.(name := name, email := email, role := role, location := location))
  }
}
