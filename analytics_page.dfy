/** The legacy analytics page (`analytics/page.tsx`): per-coin totals of
    `"Total count"` from array payloads and of r-points from object
    payloads, each cut to its most frequent entries. `JSON.parse` of a
    record's `sorted` text is abstracted to the value it yields. */
module AnalyticsPage {
  import opened Collections
  import opened Tallies

  /** A project's `Rpoints`: a number, a value `parseFloat` reads as NaN,
      or missing (so `project.Rpoints.toString()` throws). */
  datatype RPointsField = Number(v: int) | NotANumber | MissingField

  /** One project of a payload; a `"Total count"` of 0 stands for a missing
      or zero count, both falsy. */
  datatype LegacyProject = LegacyProject(coin: string, totalCount: int, rpoints: RPointsField)

  /** `JSON.parse(item.sorted)` for one record: no `sorted` text, text that
      does not parse, an array (whose elements may be `null`), an object
      with a truthy `projects` list, or any other value. */
  datatype Payload =
    | NoPayload
    | Malformed
    | ArrayOf(elements: seq<Option<LegacyProject>>)
    | ObjectWith(projects: seq<LegacyProject>)
    | OtherValue

  // ---- the coin totals ----

  /** `project && project.Coin && project["Total count"]`. */
  predicate Counted(e: Option<LegacyProject>) {
    e.Some? && e.value.coin != "" && e.value.totalCount != 0
  }

  /** The delta one array element gives `coinMap`, if any. */
  function ElementDelta(e: Option<LegacyProject>): seq<(string, int)> {
    if Counted(e) then [(e.value.coin, e.value.totalCount)] else []
  }

  function EachElementDelta(): Option<LegacyProject> -> seq<(string, int)> {
    (e: Option<LegacyProject>) => ElementDelta(e)
  }

  /** The deltas `coinMap` receives from one array, in order. */
  function ElementDeltas(es: seq<Option<LegacyProject>>): seq<(string, int)> {
    Concat(es, EachElementDelta())
  }

  function PayloadCoinDeltas(p: Payload): seq<(string, int)> {
    if p.ArrayOf? then ElementDeltas(p.elements) else []
  }

  function EachPayloadCoinDeltas(): Payload -> seq<(string, int)> {
    (p: Payload) => PayloadCoinDeltas(p)
  }

  /** The deltas `coinMap` receives from all records, in order. */
  function CoinDeltas(ps: seq<Payload>): seq<(string, int)> {
    Concat(ps, EachPayloadCoinDeltas())
  }

  // ---- the r-point totals ----

  /** The position of the first project whose `Rpoints` is missing: the
      `forEach` throws there and the rest of that record is skipped. */
  function UntilMissing(ps: seq<LegacyProject>): (r: nat)
    ensures r <= |ps|
    ensures forall k :: 0 <= k < r ==> !ps[k].rpoints.MissingField?
    ensures r < |ps| ==> ps[r].rpoints.MissingField?
  {
    if ps == [] || ps[0].rpoints.MissingField? then 0 else 1 + UntilMissing(ps[1..])
  }

  /** The delta one project read without a throw gives `rPointsMap`: its
      numeric `Rpoints`, none for NaN. */
  function PointDelta(q: LegacyProject): seq<(string, int)> {
    if q.rpoints.Number? then [(q.coin, q.rpoints.v)] else []
  }

  function EachPointDelta(): LegacyProject -> seq<(string, int)> {
    (q: LegacyProject) => PointDelta(q)
  }

  function PointDeltas(ps: seq<LegacyProject>): seq<(string, int)> {
    Concat(ps, EachPointDelta())
  }

  function PayloadPointDeltas(p: Payload): seq<(string, int)> {
    if p.ObjectWith? then PointDeltas(p.projects[..UntilMissing(p.projects)]) else []
  }

  function EachPayloadPointDeltas(): Payload -> seq<(string, int)> {
    (p: Payload) => PayloadPointDeltas(p)
  }

  function RPointsDeltas(ps: seq<Payload>): seq<(string, int)> {
    Concat(ps, EachPayloadPointDeltas())
  }

  // ---- the folds ----

  /** `processedData` without the market cap chart. */
  datatype Processed = Processed(categoryDistribution: seq<Entry>, rPointsTrend: seq<Entry>, topProjects: seq<Entry>)

  method ProcessedData(ps: seq<Payload>) returns (r: Processed)
    ensures r.categoryDistribution == Top(CoinDeltas(ps), 10)
    ensures r.rPointsTrend == Top(RPointsDeltas(ps), 5) && r.topProjects == r.rPointsTrend
  {
    var coins := CoinDistribution(ps);
    var points := RPointsTop(ps);
    r := Processed(coins, points, points);
  }

  /** The `coinMap` loop and its ten largest entries. */
  method CoinDistribution(ps: seq<Payload>) returns (r: seq<Entry>)
    ensures r == Top(CoinDeltas(ps), 10)
  {
    var count := NewCounter;
    assert ps[..0] == [];
    var i := 0;
    while i < |ps|
      invariant 0 <= i <= |ps|
      invariant Holds(count, CoinDeltas(ps[..i]))
    {
      ConcatStep(ps, i, EachPayloadCoinDeltas());
      if ps[i].ArrayOf? {
        count := CountElements(count, CoinDeltas(ps[..i]), ps[i].elements);
      } else {
        SameAfterEmpty(CoinDeltas(ps[..i]));
      }
      i := i + 1;
    }
    assert ps[..i] == ps;
    EntriesHold(count, CoinDeltas(ps));
    ByKeyTotal(Value, false);
    r := Take(SortBy(Entries(count), ByValueDesc()), 10);
  }

  lemma SameAfterEmpty(a: seq<(string, int)>)
    ensures a + [] == a
  {
  }

  lemma HoldsSnoc(count: Counter, base: seq<(string, int)>, done: seq<(string, int)>, k: string, d: int)
    requires Holds(count, base + done)
    ensures Holds(Add(count, k, d), base + (done + [(k, d)]))
  {
    AddHolds(count, base + done, k, d);
    assert base + done + [(k, d)] == base + (done + [(k, d)]);
  }

  /** The inner `for (const project of projects)` loop. */
  method CountElements(count: Counter, ghost base: seq<(string, int)>, es: seq<Option<LegacyProject>>) returns (r: Counter)
    requires Holds(count, base)
    ensures Holds(r, base + ElementDeltas(es))
  {
    r := count;
    assert es[..0] == [];
    SameAfterEmpty(base);
    var j := 0;
    while j < |es|
      invariant 0 <= j <= |es|
      invariant Holds(r, base + ElementDeltas(es[..j]))
    {
      var e := es[j];
      ElementStep(r, base, es, j);
      if Counted(e) {
        r := Add(r, e.value.coin, e.value.totalCount);
      }
      j := j + 1;
    }
    assert es[..j] == es;
  }

  lemma ElementStep(count: Counter, base: seq<(string, int)>, es: seq<Option<LegacyProject>>, j: nat)
    requires j < |es| && Holds(count, base + ElementDeltas(es[..j]))
    ensures var e := es[j];
      Holds(if Counted(e) then Add(count, e.value.coin, e.value.totalCount) else count, base + ElementDeltas(es[..j + 1]))
  {
    var e := es[j];
    var done := ElementDeltas(es[..j]);
    ConcatStep(es, j, EachElementDelta());
    if Counted(e) {
      HoldsSnoc(count, base, done, e.value.coin, e.value.totalCount);
    } else {
      SameAfterEmpty(done);
    }
  }

  /** The `rPointsMap` loop and its five largest entries. */
  method RPointsTop(ps: seq<Payload>) returns (r: seq<Entry>)
    ensures r == Top(RPointsDeltas(ps), 5)
  {
    var count := NewCounter;
    assert ps[..0] == [];
    var i := 0;
    while i < |ps|
      invariant 0 <= i <= |ps|
      invariant Holds(count, RPointsDeltas(ps[..i]))
    {
      ConcatStep(ps, i, EachPayloadPointDeltas());
      if ps[i].ObjectWith? {
        count := CountPoints(count, RPointsDeltas(ps[..i]), ps[i].projects);
      } else {
        SameAfterEmpty(RPointsDeltas(ps[..i]));
      }
      i := i + 1;
    }
    assert ps[..i] == ps;
    EntriesHold(count, RPointsDeltas(ps));
    ByKeyTotal(Value, false);
    r := Take(SortBy(Entries(count), ByValueDesc()), 5);
  }

  /** The inner `projects.forEach`, which throws at the first missing
      `Rpoints` and so ends that record. */
  method CountPoints(count: Counter, ghost base: seq<(string, int)>, projects: seq<LegacyProject>) returns (r: Counter)
    requires Holds(count, base)
    ensures Holds(r, base + PointDeltas(projects[..UntilMissing(projects)]))
  {
    r := count;
    assert projects[..0] == [];
    SameAfterEmpty(base);
    var j := 0;
    var thrown := false;
    while j < |projects| && !thrown
      invariant 0 <= j <= UntilMissing(projects)
      decreases |projects| - j, if thrown then 0 else 1
      invariant thrown ==> j == UntilMissing(projects)
      invariant Holds(r, base + PointDeltas(projects[..j]))
    {
      var q := projects[j];
      if q.rpoints.MissingField? {
        thrown := true;
      } else {
        PointStep(r, base, projects, j);
        if q.rpoints.Number? {
          r := Add(r, q.coin, q.rpoints.v);
        }
        j := j + 1;
      }
    }
  }

  lemma PointStep(count: Counter, base: seq<(string, int)>, projects: seq<LegacyProject>, j: nat)
    requires j < |projects| && Holds(count, base + PointDeltas(projects[..j]))
    ensures var q := projects[j];
      Holds(if q.rpoints.Number? then Add(count, q.coin, q.rpoints.v) else count, base + PointDeltas(projects[..j + 1]))
  {
    var q := projects[j];
    var done := PointDeltas(projects[..j]);
    ConcatStep(projects, j, EachPointDelta());
    if q.rpoints.Number? {
      HoldsSnoc(count, base, done, q.coin, q.rpoints.v);
    } else {
      SameAfterEmpty(done);
    }
  }

  // ---- properties ----

  /** A coin delta is the coin and count of an array element with a truthy
      coin and count, and every such element gives one. */
  lemma ElementDeltasMember(es: seq<Option<LegacyProject>>, d: (string, int))
    ensures d in ElementDeltas(es) <==>
      exists k :: 0 <= k < |es| && Counted(es[k]) && d == (es[k].value.coin, es[k].value.totalCount)
  {
    ConcatMember(es, EachElementDelta(), d);
  }

  /** An r-point delta is the coin and value of a numeric `Rpoints`. */
  lemma PointDeltasMember(ps: seq<LegacyProject>, d: (string, int))
    ensures d in PointDeltas(ps) <==>
      exists k :: 0 <= k < |ps| && ps[k].rpoints.Number? && d == (ps[k].coin, ps[k].rpoints.v)
  {
    ConcatMember(ps, EachPointDelta(), d);
  }

  /** The fold over records concatenates each record's deltas, so a record
      feeds only its own deltas and a bad record does not stop the loop. */
  lemma CoinDeltasAppend(a: seq<Payload>, b: seq<Payload>)
    ensures CoinDeltas(a + b) == CoinDeltas(a) + CoinDeltas(b)
  {
    ConcatAppend(a, b, EachPayloadCoinDeltas());
  }

  lemma RPointsDeltasAppend(a: seq<Payload>, b: seq<Payload>)
    ensures RPointsDeltas(a + b) == RPointsDeltas(a) + RPointsDeltas(b)
  {
    ConcatAppend(a, b, EachPayloadPointDeltas());
  }

  /** A record without a usable payload changes neither total. */
  lemma SkippedRecord(a: seq<Payload>, p: Payload, b: seq<Payload>)
    requires p.NoPayload? || p.Malformed? || p.OtherValue?
    ensures CoinDeltas(a + [p] + b) == CoinDeltas(a + b)
    ensures RPointsDeltas(a + [p] + b) == RPointsDeltas(a + b)
  {
    SkippedCoins(a, p, b);
    SkippedPoints(a, p, b);
  }

  lemma SkippedCoins(a: seq<Payload>, p: Payload, b: seq<Payload>)
    requires !p.ArrayOf?
    ensures CoinDeltas(a + [p] + b) == CoinDeltas(a + b)
  {
    CoinDeltasAppend(a + [p], b);
    CoinDeltasAppend(a, b);
    assert CoinDeltas(a + [p]) == CoinDeltas(a) by {
      CoinDeltasAppend(a, [p]);
      ConcatOne(p, EachPayloadCoinDeltas());
      SameAfterEmpty(CoinDeltas(a));
    }
  }

  lemma SkippedPoints(a: seq<Payload>, p: Payload, b: seq<Payload>)
    requires !p.ObjectWith?
    ensures RPointsDeltas(a + [p] + b) == RPointsDeltas(a + b)
  {
    RPointsDeltasAppend(a + [p], b);
    RPointsDeltasAppend(a, b);
    assert RPointsDeltas(a + [p]) == RPointsDeltas(a) by {
      RPointsDeltasAppend(a, [p]);
      ConcatOne(p, EachPayloadPointDeltas());
      SameAfterEmpty(RPointsDeltas(a));
    }
  }

  /** No payload feeds both maps. */
  lemma NeverBoth(p: Payload)
    ensures PayloadCoinDeltas(p) == [] || PayloadPointDeltas(p) == []
  {
  }

  /** `d` is the coin and count of a counted element of the array `p`. */
  predicate CountedIn(p: Payload, d: (string, int)) {
    && p.ArrayOf?
    && exists k :: 0 <= k < |p.elements| && Counted(p.elements[k]) && d == (p.elements[k].value.coin, p.elements[k].value.totalCount)
  }

  lemma PayloadCoinDeltasMember(p: Payload, d: (string, int))
    ensures d in PayloadCoinDeltas(p) <==> CountedIn(p, d)
  {
    if p.ArrayOf? {
      ElementDeltasMember(p.elements, d);
    }
  }

  /** A delta of `coinMap` comes from an array element of some record with a
      truthy coin and count, and every such element gives one. */
  lemma CoinDeltasMember(ps: seq<Payload>, d: (string, int))
    ensures d in CoinDeltas(ps) <==> exists i :: 0 <= i < |ps| && CountedIn(ps[i], d)
  {
    ConcatMember(ps, EachPayloadCoinDeltas(), d);
    forall i | 0 <= i < |ps| ensures d in PayloadCoinDeltas(ps[i]) <==> CountedIn(ps[i], d) {
      PayloadCoinDeltasMember(ps[i], d);
    }
  }

  /** The ten coins shown: distinct, by non-increasing total, each total
      the sum of its counted elements' counts; no coin left out has a larger
      total than one shown. */
  lemma CategoryDistributionSpec(ps: seq<Payload>, c: string)
    ensures var t := Top(CoinDeltas(ps), 10);
      && |t| <= 10
      && UniqueNames(t)
      && (forall i, j :: 0 <= i < j < |t| ==> t[i].value >= t[j].value)
      && (forall e :: e in t ==> e.value == SumFor(CoinDeltas(ps), e.name) && e.name in KeysOf(CoinDeltas(ps)))
  {
    var a := CoinDeltas(ps);
    var t := Top(a, 10);
    TopSpec(a, 10);
    forall e | e in t ensures e.value == SumFor(a, e.name) && e.name in KeysOf(a) {
      TabulateMember(a, e);
      KeysOfIndex(a);
      var i :| 0 <= i < |a| && a[i].0 == e.name;
      assert KeysOf(a)[i] == e.name;
    }
  }

  /** The five coins of the r-points trend: distinct, by non-increasing
      total, each total the sum of its numeric r-points. */
  lemma RPointsTrendSpec(ps: seq<Payload>)
    ensures var t := Top(RPointsDeltas(ps), 5);
      && |t| <= 5
      && UniqueNames(t)
      && (forall i, j :: 0 <= i < j < |t| ==> t[i].value >= t[j].value)
      && (forall e :: e in t ==> e.value == SumFor(RPointsDeltas(ps), e.name))
  {
    var a := RPointsDeltas(ps);
    TopSpec(a, 5);
    forall e | e in Top(a, 5) ensures e.value == SumFor(a, e.name) {
      TabulateMember(a, e);
    }
  }

  /** A coin left out of the top entries totals no more than any kept. */
  lemma LeftOutIsSmaller(ps: seq<Payload>, e: Entry)
    requires e in Tabulate(CoinDeltas(ps)) && e !in Top(CoinDeltas(ps), 10)
    ensures forall i :: 0 <= i < |Top(CoinDeltas(ps), 10)| ==> Top(CoinDeltas(ps), 10)[i].value >= e.value
  {
    TopIsTop(CoinDeltas(ps), 10, e);
  }
}
