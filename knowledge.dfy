/** The knowledge records the dashboard reads: one analysed video each, with
    the projects (coins) the analysis found in it. */
module Knowledge {
  import opened Collections

  /** One project of an analysis. Optional fields are `None` when the value
      is missing from the record. */
  datatype Project = Project(
    coin: string,
    marketcap: Option<string>,
    rpoints: Option<int>,
    totalCount: Option<int>,
    category: Option<seq<string>>)

  /** `project.rpoints || 0`. */
  function RPoints(p: Project): int {
    match p.rpoints
    case Some(v) => v
    case None => 0
  }

  /** `project.category || []`. */
  function Categories(p: Project): seq<string> {
    match p.category
    case Some(c) => c
    case None => []
  }

  /** The value of `llm_answer.projects`: missing (or a missing `llm_answer`),
      a single object where an array was expected, or an array. */
  datatype ProjectsField = Absent | Single(project: Project) | List(projects: seq<Project>)

  datatype KnowledgeItem = KnowledgeItem(
    id: string,
    date: string,
    transcript: string,
    videoTitle: string,
    channelName: string,
    link: string,
    projects: ProjectsField)

  /** The projects the channel views fold over: none when the field is
      missing, a single object read as a one-element list. */
  function ProjectList(f: ProjectsField): (r: seq<Project>)
    ensures f.Absent? ==> r == []
    ensures f.Single? ==> r == [f.project]
    ensures f.List? ==> r == f.projects
  {
    match f
    case Absent => []
    case Single(p) => [p]
    case List(ps) => ps
  }

  /** One project of one record, with the date of that record. */
  datatype Mention = Mention(date: string, project: Project)

  function ItemMentions(item: KnowledgeItem): (r: seq<Mention>)
    ensures |r| == |ProjectList(item.projects)|
    ensures forall j :: 0 <= j < |r| ==> r[j] == Mention(item.date, ProjectList(item.projects)[j])
  {
    var ps := ProjectList(item.projects);
    seq(|ps|, j requires 0 <= j < |ps| => Mention(item.date, ps[j]))
  }

  function EachMentions(): KnowledgeItem -> seq<Mention> {
    (item: KnowledgeItem) => ItemMentions(item)
  }

  /** Every project of every record, in record order. */
  function Mentions(items: seq<KnowledgeItem>): seq<Mention> {
    Concat(items, EachMentions())
  }

  lemma MentionsAppend(a: seq<KnowledgeItem>, b: seq<KnowledgeItem>)
    ensures Mentions(a + b) == Mentions(a) + Mentions(b)
  {
    ConcatAppend(a, b, EachMentions());
  }

  /** A record contributes exactly its projects, so records without
      `llm_answer.projects` contribute nothing. */
  lemma MentionsOfOne(item: KnowledgeItem)
    ensures Mentions([item]) == ItemMentions(item)
    ensures item.projects.Absent? ==> Mentions([item]) == []
  {
    ConcatOne(item, EachMentions());
  }

  lemma MentionsStep(items: seq<KnowledgeItem>, i: nat)
    requires i < |items|
    ensures Mentions(items[..i + 1]) == Mentions(items[..i]) + ItemMentions(items[i])
  {
    ConcatStep(items, i, EachMentions());
  }
}
