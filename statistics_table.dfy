/**
 * The completion statistics of the grail page: `calculateStats` walks one
 * category subtree and counts, in a shared `Stats` object, its item leaves,
 * the found ones and the perfect ones; `render` runs it over the categories
 * of the current grail mode, folds the category rows into a total row and
 * derives a total-perfects row from it.
 */
module StatisticsTable {
  import opened JsonTree
  import ItemScoreCalculator

  /** The three counters of a `Stats` row. */
  datatype Counts = Counts(total: int, found: int, perfects: int) {
    /** The counters after first this and then `other` were added to them. */
    function Plus(other: Counts): Counts {
      Counts(total + other.total, found + other.found, perfects + other.perfects)
    }

    /** No counter exceeds the number of items. */
    predicate Bounded() {
      0 <= found <= total && 0 <= perfects <= total
    }
  }

  const NoCounts: Counts := Counts(0, 0, 0)

  /** What one item leaf adds: one item, found when `wasFound` is truthy,
      perfect when `isPerfect` is truthy, the two independently. */
  function LeafCounts(item: Json): Counts {
    Counts(1, if Present(Get(item, "wasFound")) then 1 else 0, if Present(Get(item, "isPerfect")) then 1 else 0)
  }

  /** What `calculateStats(() => v, stats)` adds to `stats` for a truthy `v`. */
  function NodeCounts(v: Json): Counts
    decreases v
  {
    if v.Obj? then FieldsCounts(v.fields) else NoCounts
  }

  /** The counts of the keys `fields`, processed in order. */
  function FieldsCounts(fields: seq<Field>): Counts
    decreases fields
  {
    if fields == [] then NoCounts
    else FieldsCounts(fields[..|fields| - 1]).Plus(EntryCounts(fields[|fields| - 1]))
  }

  /** One iteration of the `forEach`: an item leaf is counted, anything else
      is walked with the same accumulator. */
  function EntryCounts(f: Field): Counts
    decreases f
  {
    if IsItem(f.value) then LeafCounts(f.value)
    else if !Truthy(f.value) then NoCounts
    else NodeCounts(f.value)
  }

  /** What `calculateStats` adds to its `Stats` once its getter produced `data`. */
  function Counted(data: Option<Json>): Counts {
    if !Present(data) then NoCounts else NodeCounts(data.value)
  }

  /** The `Stats` row object. `icon`, `iconTooltip` and `usePerfects` are
      optional (`undefined` is `None`). */
  class Stats {
    var total: int
    var found: int
    var perfects: int
    var name: string
    var icon: Option<string>
    var iconTooltip: Option<string>
    var usePerfects: Option<bool>

    constructor (name: string)
      ensures Counters() == NoCounts
      ensures this.name == name && icon.None? && iconTooltip.None? && usePerfects.None?
    {
      total, found, perfects := 0, 0, 0;
      this.name := name;
      icon, iconTooltip, usePerfects := None, None, None;
    }

    function Counters(): Counts
      reads this
    {
      Counts(total, found, perfects)
    }

    /** The `renderValue` getter: the perfects when the row renders
        perfects, the found items otherwise. */
    function RenderValue(): int
      reads this
    {
      if usePerfects == Some(true) then perfects else found
    }
  }

  /** The node a getter yields, used to measure the recursion. */
  function FetchedNode(get: Getter): Json {
    var d := Fetched(get);
    if d.Some? then d.value else Null
  }

  lemma PlusAssociative(a: Counts, b: Counts, c: Counts)
    ensures a.Plus(b).Plus(c) == a.Plus(b.Plus(c))
  {
  }

  lemma FieldsCountsSnoc(fields: seq<Field>, f: Field)
    ensures FieldsCounts(fields + [f]) == FieldsCounts(fields).Plus(EntryCounts(f))
  {
    assert (fields + [f])[..|fields|] == fields;
  }

  /** `calculateStats`: adds the counts of the subtree that `dataFunc`
      yields to `stats` and returns `stats`; a getter that throws or yields
      a falsy value leaves `stats` as it was. */
  method CalculateStats(dataFunc: Getter, stats: Stats) returns (r: Stats)
    modifies stats
    ensures r == stats
    ensures stats.Counters() == old(stats.Counters()).Plus(Counted(Fetched(dataFunc)))
    ensures stats.name == old(stats.name) && stats.icon == old(stats.icon)
    ensures stats.iconTooltip == old(stats.iconTooltip) && stats.usePerfects == old(stats.usePerfects)
    decreases FetchedNode(dataFunc), 1
  {
    var data := Fetched(dataFunc);
    if !Present(data) {
      return stats;
    }
    var node := data.value;
    var fields := Entries(node);
    ghost var start := stats.Counters();
    for i := 0 to |fields|
      invariant stats.Counters() == start.Plus(FieldsCounts(fields[..i]))
      invariant stats.name == old(stats.name) && stats.icon == old(stats.icon)
      invariant stats.iconTooltip == old(stats.iconTooltip) && stats.usePerfects == old(stats.usePerfects)
    {
      CountsStep(start, fields, i);
      assert node.Obj? && fields[i] in node.fields;
      CountEntry(stats, fields[i]);
    }
    assert fields[..|fields|] == fields;
    return stats;
  }

  /** One more key of the loop adds that key's counts. */
  lemma CountsStep(start: Counts, fields: seq<Field>, i: nat)
    requires i < |fields|
    ensures start.Plus(FieldsCounts(fields[..i + 1])) == start.Plus(FieldsCounts(fields[..i])).Plus(EntryCounts(fields[i]))
  {
    assert fields[..i + 1] == fields[..i] + [fields[i]];
    FieldsCountsSnoc(fields[..i], fields[i]);
    PlusAssociative(start, FieldsCounts(fields[..i]), EntryCounts(fields[i]));
  }

  /** One iteration of the `forEach` over the keys: an item leaf is counted,
      anything else is walked into the same `stats`. */
  method CountEntry(stats: Stats, f: Field)
    modifies stats
    ensures stats.Counters() == old(stats.Counters()).Plus(EntryCounts(f))
    ensures stats.name == old(stats.name) && stats.icon == old(stats.icon)
    ensures stats.iconTooltip == old(stats.iconTooltip) && stats.usePerfects == old(stats.usePerfects)
    decreases f, 0
  {
    var possibleItem := f.value;
    if IsItem(possibleItem) {
      CountLeaf(stats, possibleItem);
    } else {
      assert FetchedNode(Returns(Some(possibleItem))) == possibleItem;
      var _ := CalculateStats(Returns(Some(possibleItem)), stats);
    }
  }

  /** The item-leaf branch of the `forEach`: one more item, one more found
      item when `wasFound` is truthy, one more perfect when `isPerfect` is. */
  method CountLeaf(stats: Stats, possibleItem: Json)
    modifies stats
    ensures stats.Counters() == old(stats.Counters()).Plus(LeafCounts(possibleItem))
    ensures stats.name == old(stats.name) && stats.icon == old(stats.icon)
    ensures stats.iconTooltip == old(stats.iconTooltip) && stats.usePerfects == old(stats.usePerfects)
  {
    stats.total := stats.total + 1;
    if Present(Get(possibleItem, "wasFound")) {
      stats.found := stats.found + 1;
    }
    if Present(Get(possibleItem, "isPerfect")) {
      stats.perfects := stats.perfects + 1;
    }
  }

  // ---------------------------------------------------------------------
  // Properties of the counts
  // ---------------------------------------------------------------------

  lemma {:induction false} NodeCountsBounded(v: Json)
    ensures NodeCounts(v).Bounded()
    decreases v
  {
    if v.Obj? {
      FieldsCountsBounded(v.fields);
    }
  }

  lemma {:induction false} FieldsCountsBounded(fields: seq<Field>)
    ensures FieldsCounts(fields).Bounded()
    decreases fields
  {
    if fields != [] {
      var f := fields[|fields| - 1];
      FieldsCountsBounded(fields[..|fields| - 1]);
      if !IsItem(f.value) && Truthy(f.value) {
        NodeCountsBounded(f.value);
      }
    }
  }

  /** Whatever the tree, a walk never counts more found items, nor more
      perfect items, than items; so a row that starts from a new `Stats`
      has `found <= total` and `perfects <= total`. */
  lemma CountedBounded(data: Option<Json>)
    ensures Counted(data).Bounded()
  {
    if Present(data) {
      NodeCountsBounded(data.value);
    }
  }

  /** A leaf counts as perfect whether or not it was found. */
  lemma PerfectIndependentOfFound()
    ensures LeafCounts(Obj(PlainObject, [Field("isPerfect", Bool(true))])) == Counts(1, 0, 1)
    ensures LeafCounts(Obj(PlainObject, [Field("wasFound", Bool(true))])) == Counts(1, 1, 0)
    ensures LeafCounts(Obj(PlainObject, [])) == Counts(1, 0, 0)
  {
  }

  /** A getter that throws or yields a falsy value counts nothing. */
  lemma FailedGetterCountsNothing(get: Getter)
    requires get.Throws? || !Present(get.result)
    ensures Counted(Fetched(get)) == NoCounts
  {
  }

  /** The keys of a container are counted one after the other, so the
      counts of a split key list are the sums of the counts of its parts. */
  lemma {:induction false} FieldsCountsAppend(f1: seq<Field>, f2: seq<Field>)
    ensures FieldsCounts(f1 + f2) == FieldsCounts(f1).Plus(FieldsCounts(f2))
    decreases |f2|
  {
    if f2 == [] {
      assert f1 + f2 == f1;
    } else {
      var init, last := f2[..|f2| - 1], f2[|f2| - 1];
      assert f2 == init + [last];
      assert f1 + f2 == (f1 + init) + [last];
      FieldsCountsSnoc(f1 + init, last);
      FieldsCountsSnoc(init, last);
      FieldsCountsAppend(f1, init);
      PlusAssociative(FieldsCounts(f1), FieldsCounts(init), EntryCounts(last));
    }
  }

  /** The client's walk and the server's `sumMissing` see the same leaves:
      the items the client counts are the server's missing plus found
      items, and both count the same found items. */
  lemma {:induction false} NodeAgreesWithServer(table: map<string, int>, v: Json, category: Option<string>)
    requires ItemScoreCalculator.ValidTable(table)
    ensures var t := ItemScoreCalculator.NodeContribution(table, v, category);
      NodeCounts(v).total == t.missing + t.found && NodeCounts(v).found == t.found
    decreases v
  {
    if v.Obj? {
      FieldsAgreeWithServer(table, v.fields, category);
    }
  }

  lemma {:induction false} FieldsAgreeWithServer(table: map<string, int>, fields: seq<Field>, category: Option<string>)
    requires ItemScoreCalculator.ValidTable(table)
    ensures var t := ItemScoreCalculator.FieldsContribution(table, fields, category);
      FieldsCounts(fields).total == t.missing + t.found && FieldsCounts(fields).found == t.found
    decreases fields
  {
    if fields != [] {
      var f := fields[|fields| - 1];
      FieldsAgreeWithServer(table, fields[..|fields| - 1], category);
      if !IsItem(f.value) && Truthy(f.value) {
        NodeAgreesWithServer(table, f.value, Some(f.key));
      }
    }
  }

  lemma CountedAgreesWithServer(table: map<string, int>, data: Option<Json>, category: Option<string>)
    requires ItemScoreCalculator.ValidTable(table)
    ensures var t := ItemScoreCalculator.Contribution(table, data, category);
      Counted(data).total == t.missing + t.found && Counted(data).found == t.found
  {
    if Present(data) {
      NodeAgreesWithServer(table, data.value, category);
    }
  }

  // ---------------------------------------------------------------------
  // Rows
  // ---------------------------------------------------------------------

  /** One rendered row: its header (the icon when there is one, the name
      otherwise) and the Exist, Owned and Remaining cells. */
  datatype Row = Row(header: string, exist: int, owned: int, remaining: int)

  /** `renderRow`, without the percentage cell. */
  function RowOf(s: Stats): Row
    reads s
  {
    var header := if s.icon.Some? && s.icon.value != "" then s.icon.value else s.name;
    Row(header, s.total, s.RenderValue(), s.total - s.RenderValue())
  }

  /** A row owns its perfects when it renders perfects and its found items
      otherwise, what it owns and what remains add up to what exists, and
      with bounded counters neither is negative. */
  lemma RowRemainingBounded(s: Stats)
    ensures RowOf(s).exist == s.total
    ensures RowOf(s).owned == if s.usePerfects == Some(true) then s.perfects else s.found
    ensures RowOf(s).owned + RowOf(s).remaining == RowOf(s).exist
    ensures s.Counters().Bounded() ==> 0 <= RowOf(s).owned <= RowOf(s).exist && 0 <= RowOf(s).remaining <= RowOf(s).exist
  {
  }

  /** The mode the grail page shows. Every mode other than ethereal and
      runeword takes the `default` branch. */
  datatype GrailMode = Holy | Eth | Runeword

  /** A category row: its name and the property path its getter reads. */
  datatype Category = Category(name: string, path: seq<string>)

  /** The categories `render` counts in each mode. */
  function Categories(mode: GrailMode): (r: seq<Category>)
    ensures mode.Eth? ==> |r| == 3
    ensures mode.Runeword? ==> r == [Category("Runewords", [])]
    ensures mode.Holy? ==> |r| == 5
  {
    var uniques := [Category("Unique Armors", ["uniques", "armor"]), Category("Unique Weapons", ["uniques", "weapons"]),
                    Category("Unique Other", ["uniques", "other"])];
    match mode
    case Eth => uniques
    case Runeword => [Category("Runewords", [])]
    case Holy => uniques + [Category("Sets", ["sets"]), Category("Runes", ["runes"])]
  }

  /** The counts of the category rows of `data`. */
  function CategoryCounts(data: Option<Json>, cats: seq<Category>): (r: seq<Counts>)
    ensures |r| == |cats|
    ensures forall i :: 0 <= i < |cats| ==> r[i] == Counted(Fetched(PathGetter(data, cats[i].path)))
  {
    seq(|cats|, i requires 0 <= i < |cats| => Counted(Fetched(PathGetter(data, cats[i].path))))
  }

  /** The `reduce` of the rows into the total row, in order. */
  function SumCounts(rows: seq<Counts>): Counts {
    if rows == [] then NoCounts else SumCounts(rows[..|rows| - 1]).Plus(rows[|rows| - 1])
  }

  /** Sums of bounded rows are bounded, so the total row never shows a
      negative remainder either. */
  lemma {:induction false} SumCountsBounded(rows: seq<Counts>)
    requires forall i :: 0 <= i < |rows| ==> rows[i].Bounded()
    ensures SumCounts(rows).Bounded()
  {
    if rows != [] {
      SumCountsBounded(rows[..|rows| - 1]);
    }
  }

  /** The totals of each counter are the sums over the rows. */
  lemma {:induction false} SumCountsAppend(a: seq<Counts>, b: seq<Counts>)
    ensures SumCounts(a + b) == SumCounts(a).Plus(SumCounts(b))
    decreases |b|
  {
    if b == [] {
      assert a + b == a;
    } else {
      var init, last := b[..|b| - 1], b[|b| - 1];
      assert (a + b)[..|a + b| - 1] == a + init && (a + b)[|a + b| - 1] == last;
      assert SumCounts(a + b) == SumCounts(a + init).Plus(last);
      assert SumCounts(b) == SumCounts(init).Plus(last);
      SumCountsAppend(a, init);
      PlusAssociative(SumCounts(a), SumCounts(init), last);
    }
  }

  /** The counters of a list of rows. */
  function CountersOf(rows: seq<Stats>): (r: seq<Counts>)
    reads rows
    ensures |r| == |rows| && forall i :: 0 <= i < |rows| ==> r[i] == rows[i].Counters()
  {
    seq(|rows|, i reads rows requires 0 <= i < |rows| => rows[i].Counters())
  }

  /** One `calculateStats` call of `render`, on a new `Stats` named after
      the category. */
  method CategoryRow(data: Option<Json>, c: Category) returns (s: Stats)
    ensures fresh(s) && s.name == c.name
    ensures s.Counters() == Counted(Fetched(PathGetter(data, c.path)))
  {
    s := new Stats(c.name);
    s := CalculateStats(PathGetter(data, c.path), s);
  }

  /** The `calculateStats` calls of `render`: one row per category, in order. */
  method CategoryRows(data: Option<Json>, cats: seq<Category>) returns (stats: seq<Stats>)
    ensures |stats| == |cats| && CountersOf(stats) == CategoryCounts(data, cats)
    ensures forall i :: 0 <= i < |cats| ==> stats[i].name == cats[i].name
  {
    stats := [];
    for i := 0 to |cats|
      invariant |stats| == i
      invariant forall j :: 0 <= j < i ==>
        stats[j].name == cats[j].name && stats[j].Counters() == Counted(Fetched(PathGetter(data, cats[j].path)))
    {
      var s := CategoryRow(data, cats[i]);
      stats := stats + [s];
    }
  }

  /** The `reduce` of `render`: a new "Total" row whose counters are the
      sums of the rows' counters. */
  method Totals(stats: seq<Stats>) returns (totalStats: Stats)
    ensures fresh(totalStats) && totalStats.name == "Total"
    ensures totalStats.Counters() == SumCounts(CountersOf(stats))
    ensures totalStats.icon.None? && totalStats.usePerfects.None?
  {
    ghost var rows := CountersOf(stats);
    totalStats := new Stats("Total");
    for i := 0 to |stats|
      invariant totalStats.Counters() == SumCounts(rows[..i]) && totalStats.name == "Total"
      invariant totalStats.icon.None? && totalStats.usePerfects.None?
    {
      assert rows[..i + 1][..i] == rows[..i];
      totalStats.found := totalStats.found + stats[i].found;
      totalStats.perfects := totalStats.perfects + stats[i].perfects;
      totalStats.total := totalStats.total + stats[i].total;
    }
    assert rows[..|stats|] == rows;
  }

  /** The starred "Total Perfects" row: the total's items and perfects,
      rendered as perfects. */
  method PerfectsRow(totalStats: Stats) returns (totalPerfectStats: Stats)
    ensures fresh(totalPerfectStats)
    ensures totalPerfectStats.name == "Total Perfects" && totalPerfectStats.usePerfects == Some(true)
    ensures totalPerfectStats.icon == Some("star") && totalPerfectStats.iconTooltip == Some("Perfect items")
    ensures totalPerfectStats.Counters() == Counts(totalStats.total, 0, totalStats.perfects)
  {
    totalPerfectStats := new Stats("Total Perfects");
    totalPerfectStats.usePerfects := Some(true);
    totalPerfectStats.icon := Some("star");
    totalPerfectStats.iconTooltip := Some("Perfect items");
    totalPerfectStats.perfects := totalStats.perfects;
    totalPerfectStats.total := totalStats.total;
  }

  /** `render`'s statistics: one row per category of `mode`, the total row
      and the total-perfects row. */
  method Render(mode: GrailMode, data: Option<Json>) returns (stats: seq<Stats>, totalStats: Stats, totalPerfectStats: Stats)
    ensures |stats| == |Categories(mode)|
    ensures forall i :: 0 <= i < |stats| ==> stats[i].name == Categories(mode)[i].name
    ensures CountersOf(stats) == CategoryCounts(data, Categories(mode))
    ensures totalStats.name == "Total" && totalStats.Counters() == SumCounts(CategoryCounts(data, Categories(mode)))
    ensures totalPerfectStats.name == "Total Perfects" && totalPerfectStats.usePerfects == Some(true)
    ensures totalPerfectStats.icon == Some("star") && totalPerfectStats.iconTooltip == Some("Perfect items")
    ensures totalPerfectStats.Counters() == Counts(totalStats.total, 0, totalStats.perfects)
  {
    var cats := Categories(mode);
    stats := CategoryRows(data, cats);
    totalStats := Totals(stats);
    totalPerfectStats := PerfectsRow(totalStats);
  }

  /** The total-perfects row renders the party's perfect items out of all
      items, and never a negative remainder. */
  lemma TotalPerfectsRow(data: Option<Json>, mode: GrailMode, t: Stats, p: Stats)
    requires t.Counters() == SumCounts(CategoryCounts(data, Categories(mode)))
    requires p.usePerfects == Some(true) && p.Counters() == Counts(t.total, 0, t.perfects)
    ensures RowOf(p).exist == t.total && RowOf(p).owned == t.perfects
    ensures 0 <= RowOf(p).remaining <= RowOf(p).exist
  {
    var rows := CategoryCounts(data, Categories(mode));
    forall i | 0 <= i < |rows|
      ensures rows[i].Bounded()
    {
      CountedBounded(Fetched(PathGetter(data, Categories(mode)[i].path)));
    }
    SumCountsBounded(rows);
  }
}
