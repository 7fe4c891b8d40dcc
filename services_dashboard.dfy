/** The services dashboard (components/dashboards/ServicesDashboard.tsx):
    the "Upcoming Deadlines" card (the three open projects due first) and
    the "Active Projects Status" list. `None` stands for the data not yet
    loaded. Deadlines are ISO dates ("YYYY-MM-DD"), whose order as dates is
    their order as strings. */
module ServicesDashboard {
  import opened Wrappers
  import opened Text
  import opened Domain
  import opened Sorting

  /** The test `p.status !== 'Completed'`. */
  function IsOpen(): Project -> bool {
    (p: Project) => !p.status.Completed?
  }

  /** `projects.filter(p => p.status !== 'Completed')`. */
  function ActiveProjects(projects: seq<Project>): seq<Project> {
    Filter(projects, IsOpen())
  }

  /** "a may stay before b" under the comparator
      `new Date(a.deadline).getTime() - new Date(b.deadline).getTime()`. */
  function ByDeadline(): (Project, Project) -> bool {
    (a: Project, b: Project) => !StrLess(b.deadline, a.deadline)
  }

  /** `upcomingDeadlines`: nothing without data; otherwise the open projects,
      sorted by deadline, first three. */
  function UpcomingDeadlines(data: Option<seq<Project>>): seq<Project> {
    if data.None? then []
    else Take(Sort(ActiveProjects(data.value), ByDeadline()), 3)
  }

  /** The comparator is consistent, so the sort orders by it. */
  lemma ByDeadlineIsTotalPreorder()
    ensures TotalPreorder(ByDeadline())
  {
    var le := ByDeadline();
    forall a: Project, b: Project ensures le(a, b) || le(b, a) {
      if StrLess(b.deadline, a.deadline) && StrLess(a.deadline, b.deadline) {
        StrLessTransitive(a.deadline, b.deadline, a.deadline);
        StrLessIrreflexive(a.deadline);
      }
    }
    forall a: Project, b: Project, c: Project | le(a, b) && le(b, c) ensures le(a, c) {
      if StrLess(c.deadline, a.deadline) {
        StrLessTotal(a.deadline, b.deadline);
        if StrLess(a.deadline, b.deadline) {
          StrLessTransitive(c.deadline, a.deadline, b.deadline);
        }
      }
    }
  }

  /** The active list holds exactly the open projects, in their original
      order: it splits over a concatenation, and a single project is kept
      exactly when it is open. */
  lemma ActiveProjectsMeaning(a: seq<Project>, b: seq<Project>, p: Project)
    ensures p in ActiveProjects(a) <==> p in a && !p.status.Completed?
    ensures ActiveProjects(a + b) == ActiveProjects(a) + ActiveProjects(b)
    ensures ActiveProjects([p]) == if p.status.Completed? then [] else [p]
  {
    FilterMembers(a, IsOpen(), p);
    FilterAppend(a, b, IsOpen());
    assert [p][1..] == [];
  }

  /** The upcoming deadlines are the first entries of the open projects
      sorted by deadline. */
  lemma UpcomingIsPrefix(projects: seq<Project>)
    ensures var s := Sort(ActiveProjects(projects), ByDeadline());
      var r := UpcomingDeadlines(Some(projects));
      SortedBy(s, ByDeadline()) && multiset(s) == multiset(ActiveProjects(projects))
      && r == s[..|r|] && |r| == if |s| < 3 then |s| else 3
  {
    ByDeadlineIsTotalPreorder();
    SortSorted(ActiveProjects(projects), ByDeadline());
  }

  /** Without data there are no upcoming deadlines; with data there are three,
      or every open project when fewer are open. */
  lemma UpcomingDeadlinesCount(data: Option<seq<Project>>)
    ensures data.None? ==> UpcomingDeadlines(data) == []
    ensures data.Some? ==> |UpcomingDeadlines(data)| == if |ActiveProjects(data.value)| < 3 then |ActiveProjects(data.value)| else 3
  {
    if data.Some? {
      UpcomingIsPrefix(data.value);
    }
  }

  /** Every upcoming deadline is an open project of the data. */
  lemma UpcomingDeadlinesDrawn(projects: seq<Project>)
    ensures forall p :: p in UpcomingDeadlines(Some(projects)) ==> p in projects && !p.status.Completed?
  {
    var s := Sort(ActiveProjects(projects), ByDeadline());
    var r := UpcomingDeadlines(Some(projects));
    UpcomingIsPrefix(projects);
    forall p | p in r ensures p in projects && !p.status.Completed? {
      assert p in s;
      assert p in multiset(s);
      FilterMembers(projects, IsOpen(), p);
    }
  }

  /** The upcoming deadlines are in deadline order. */
  lemma UpcomingDeadlinesSorted(data: Option<seq<Project>>)
    ensures forall i, j :: 0 <= i < j < |UpcomingDeadlines(data)| ==>
      !StrLess(UpcomingDeadlines(data)[j].deadline, UpcomingDeadlines(data)[i].deadline)
  {
    if data.Some? {
      var s := Sort(ActiveProjects(data.value), ByDeadline());
      var r := UpcomingDeadlines(data);
      UpcomingIsPrefix(data.value);
      forall i, j | 0 <= i < j < |r| ensures !StrLess(r[j].deadline, r[i].deadline) {
        assert r[i] == s[i] && r[j] == s[j];
        assert ByDeadline()(s[i], s[j]);
      }
    }
  }

  /** In an ordered list, what a prefix keeps may stay before what it drops. */
  lemma KeptBeforeDropped<T>(s: seq<T>, n: nat, le: (T, T) -> bool, p: T, q: T)
    requires n <= |s| && SortedBy(s, le)
    requires p in s && p !in s[..n] && q in s[..n]
    ensures le(q, p)
  {
    var j :| 0 <= j < |s| && s[j] == p;
    var i :| 0 <= i < n && s[..n][i] == q;
  }

  /** No open project left out is due before one that was kept. */
  lemma UpcomingDeadlinesEarliest(projects: seq<Project>, p: Project, q: Project)
    requires p in projects && !p.status.Completed?
    requires p !in UpcomingDeadlines(Some(projects)) && q in UpcomingDeadlines(Some(projects))
    ensures !StrLess(p.deadline, q.deadline)
  {
    var s := Sort(ActiveProjects(projects), ByDeadline());
    var r := UpcomingDeadlines(Some(projects));
    UpcomingIsPrefix(projects);
    FilterMembers(projects, IsOpen(), p);
    assert p in multiset(ActiveProjects(projects));
    assert p in multiset(s);
    KeptBeforeDropped(s, |r|, ByDeadline(), p, q);
  }
}
