/** The knowledge cards and their modal (`KnowledgeBase`): the projects of
    the opened record sorted by r-points, the three best of them
    highlighted, and the placeholder record shown for an unknown id. */
module KnowledgeBase {
  import opened Collections
  import opened Knowledge

  /** The sort key `Number(project.rpoints)`; a missing value reads as 0. */
  function ProjectPoints(): Project -> int {
    (p: Project) => RPoints(p)
  }

  /** `[...projects].sort((a, b) => b.rpoints - a.rpoints)`. */
  function SortedProjects(ps: seq<Project>): seq<Project> {
    ByKeyTotal(ProjectPoints(), false);
    SortBy(ps, ByKey(ProjectPoints(), false))
  }

  /** `top3Projects`: the first three of the sorted copy. */
  function Top3(ps: seq<Project>): seq<Project> {
    Take(SortedProjects(ps), 3)
  }

  /** `top3Projects.some(p => p.coin_or_project === project.coin_or_project)`. */
  predicate IsTopProject(top3: seq<Project>, p: Project) {
    exists k :: 0 <= k < |top3| && top3[k].coin == p.coin
  }

  /** One table row: the project and whether it is highlighted. */
  datatype Row = Row(project: Project, highlighted: bool)

  /** What `renderLLMAnswer` shows: the table, or its error message when
      the spread of `projects` throws. */
  datatype Answer = Table(rows: seq<Row>) | RenderError

  function RowsOf(ps: seq<Project>): seq<Row> {
    var sorted := SortedProjects(ps);
    var top3 := Top3(ps);
    seq(|sorted|, i requires 0 <= i < |sorted| => Row(sorted[i], IsTopProject(top3, sorted[i])))
  }

  /** Spreading a missing `projects` or a single object throws, and the
      `catch` shows the error message. */
  function RenderLLMAnswer(f: ProjectsField): Answer {
    match f
    case List(ps) => Table(RowsOf(ps))
    case _ => RenderError
  }

  lemma RenderCases(f: ProjectsField)
    ensures RenderLLMAnswer(f).RenderError? <==> !f.List?
    ensures f.List? ==> |RenderLLMAnswer(f).rows| == |f.projects|
  {
  }

  /** At most three projects, as many as there are when there are fewer,
      each a project of the list, by non-increasing r-points; no project
      left out has more r-points than one kept. */
  lemma Top3Spec(ps: seq<Project>)
    ensures var t := Top3(ps);
      && |t| == (if |ps| < 3 then |ps| else 3)
      && multiset(t) <= multiset(ps)
      && (forall i, j :: 0 <= i < j < |t| ==> RPoints(t[i]) >= RPoints(t[j]))
      && (forall q, k :: q in ps && q !in t && 0 <= k < |t| ==> RPoints(t[k]) >= RPoints(q))
  {
    Top3Kept(ps);
    Top3Ordered(ps);
    forall q, k | q in ps && q !in Top3(ps) && 0 <= k < |Top3(ps)| ensures RPoints(Top3(ps)[k]) >= RPoints(q) {
      LeftOutBelow(ps, q, k);
    }
  }

  lemma Top3Kept(ps: seq<Project>)
    ensures multiset(Top3(ps)) <= multiset(ps)
  {
    var s := SortedProjects(ps);
    var t := Top3(ps);
    assert s == t + s[|t|..];
  }

  lemma Top3Ordered(ps: seq<Project>)
    ensures forall i, j :: 0 <= i < j < |Top3(ps)| ==> RPoints(Top3(ps)[i]) >= RPoints(Top3(ps)[j])
  {
    var s := SortedProjects(ps);
    var t := Top3(ps);
    ByKeyTotal(ProjectPoints(), false);
    assert SortedBy(s, ByKey(ProjectPoints(), false));
    forall i, j | 0 <= i < j < |t| ensures RPoints(t[i]) >= RPoints(t[j]) {
      assert ByKey(ProjectPoints(), false)(s[i], s[j]);
    }
  }

  lemma LeftOutBelow(ps: seq<Project>, q: Project, k: nat)
    requires q in ps && q !in Top3(ps) && k < |Top3(ps)|
    ensures RPoints(Top3(ps)[k]) >= RPoints(q)
  {
    var s := SortedProjects(ps);
    var t := Top3(ps);
    ByKeyTotal(ProjectPoints(), false);
    assert SortedBy(s, ByKey(ProjectPoints(), false));
    assert q in multiset(ps);
    assert q in multiset(s);
    var m :| 0 <= m < |s| && s[m] == q;
    assert m >= |t| by {
      assert forall j :: 0 <= j < |t| ==> t[j] == s[j] && t[j] != q;
    }
    assert ByKey(ProjectPoints(), false)(s[k], s[m]);
  }

  /** The table holds every project as often as the list does, by
      non-increasing r-points, each highlighted exactly when its coin name
      is one of the top three names. */
  lemma RowsSpec(ps: seq<Project>)
    ensures var r := RowsOf(ps);
      && |r| == |ps|
      && multiset(seq(|r|, i requires 0 <= i < |r| => r[i].project)) == multiset(ps)
      && (forall i, j :: 0 <= i < j < |r| ==> RPoints(r[i].project) >= RPoints(r[j].project))
      && (forall i :: 0 <= i < |r| ==>
            (r[i].highlighted <==> exists k :: 0 <= k < |Top3(ps)| && Top3(ps)[k].coin == r[i].project.coin))
  {
    var r := RowsOf(ps);
    assert seq(|r|, i requires 0 <= i < |r| => r[i].project) == SortedProjects(ps);
    RowsOrdered(ps);
  }

  lemma RowsOrdered(ps: seq<Project>)
    ensures forall i, j :: 0 <= i < j < |RowsOf(ps)| ==> RPoints(RowsOf(ps)[i].project) >= RPoints(RowsOf(ps)[j].project)
  {
    var s := SortedProjects(ps);
    var r := RowsOf(ps);
    ByKeyTotal(ProjectPoints(), false);
    assert SortedBy(s, ByKey(ProjectPoints(), false));
    forall i, j | 0 <= i < j < |r| ensures RPoints(r[i].project) >= RPoints(r[j].project) {
      assert ByKey(ProjectPoints(), false)(s[i], s[j]);
    }
  }

  /** The first rows, up to three, are the top projects and so are all
      highlighted. */
  lemma LeadingRowsHighlighted(ps: seq<Project>, i: nat)
    requires i < 3 && i < |ps|
    ensures RowsOf(ps)[i].highlighted
  {
    var t := Top3(ps);
    assert t[i] == SortedProjects(ps)[i];
  }

  /** A row whose coin name is not among the top three names lies past the
      first three rows. */
  lemma PlainRowsAfterTop(ps: seq<Project>, i: nat)
    requires i < |RowsOf(ps)| && !RowsOf(ps)[i].highlighted
    ensures i >= 3
  {
    if i < 3 {
      LeadingRowsHighlighted(ps, i);
    }
  }

  // ---- the modal ----

  /** The project of the placeholder record. */
  const EmptyProject := Project("", Some(""), Some(0), Some(0), Some([]))

  /** The record the modal shows when no record has the opened id. */
  const Placeholder := KnowledgeItem("", "", "", "Crypto Trading Insights", "Unknown", "", List([EmptyProject]))

  function HasId(id: string): KnowledgeItem -> bool {
    (item: KnowledgeItem) => item.id == id
  }

  /** The modal for `expandedCard`: none for `null` or `""`, otherwise the
      first record with that id, or the placeholder. */
  function ModalItem(items: seq<KnowledgeItem>, expandedCard: Option<string>): Option<KnowledgeItem> {
    if expandedCard.None? || expandedCard.value == "" then None
    else
      match Find(items, HasId(expandedCard.value))
      case Some(item) => Some(item)
      case None => Some(Placeholder)
  }

  /** An opened id no record has shows the placeholder: one empty project,
      rendered as one highlighted row. */
  lemma PlaceholderShown(items: seq<KnowledgeItem>, id: string)
    requires id != "" && forall i :: 0 <= i < |items| ==> items[i].id != id
    ensures ModalItem(items, Some(id)) == Some(Placeholder)
    ensures ProjectList(Placeholder.projects) == [EmptyProject]
    ensures RenderLLMAnswer(Placeholder.projects) == Table([Row(EmptyProject, true)])
  {
    FindSpec(items, HasId(id));
    var r := RowsOf([EmptyProject]);
    assert SortedProjects([EmptyProject]) == [EmptyProject];
    assert Top3([EmptyProject]) == [EmptyProject];
    assert IsTopProject([EmptyProject], EmptyProject);
    assert r == [Row(EmptyProject, true)];
  }

  /** An opened id some record has shows the first record with that id. */
  lemma MatchShown(items: seq<KnowledgeItem>, id: string, i: nat)
    requires id != "" && i < |items| && items[i].id == id
    requires forall j :: 0 <= j < i ==> items[j].id != id
    ensures ModalItem(items, Some(id)) == Some(items[i])
  {
    FindFirst(items, HasId(id), i);
  }

  /** No modal without an opened id. */
  lemma NoModal(items: seq<KnowledgeItem>, expandedCard: Option<string>)
    ensures ModalItem(items, expandedCard).None? <==> expandedCard.None? || expandedCard.value == ""
  {
  }
}
