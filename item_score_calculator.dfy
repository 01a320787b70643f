/**
 * The server's per-category statistics reducer: `sumMissing` walks one
 * player's checklist tree depth-first in key order and accumulates, in a
 * shared `MissingItems` object, the found bit string, the rarity score of
 * every slot and the missing/found counts; `formatGrailForParty` runs it over
 * the five categories that the party leaderboard shows.
 */
module ItemScoreCalculator {
  import opened JsonTree
  import opened PartyData

  /** The key of the `ItemScores` table that scores facets. */
  const FacetKey: string := "Rainbow Facet"

  /** The `ItemScores` table maps item names to rarity scores; its content
      is static data and stays abstract here, except that it scores facets. */
  predicate ValidTable(table: map<string, int>) {
    FacetKey in table
  }

  /** The statistics a `MissingItems` accumulator holds. */
  datatype Tally = Tally(missing: nat, found: nat, score: int, foundBits: string, itemScores: seq<int>) {
    /** The accumulator after first this and then `other` were added to it. */
    function Plus(other: Tally): Tally {
      Tally(missing + other.missing, found + other.found, score + other.score,
            foundBits + other.foundBits, itemScores + other.itemScores)
    }
  }

  const Zero: Tally := Tally(0, 0, 0, "", [])

  /** The score of a found leaf named `key` whose container sits under the
      key `category`. A name with no (or a zero) table score is a facet: it
      counts double under the legacy combined grouping "all". */
  function LeafScore(table: map<string, int>, key: string, category: Option<string>): int
    requires ValidTable(table)
  {
    if key in table && table[key] != 0 then table[key]
    else if category == Some("all") then 2 * table[FacetKey]
    else table[FacetKey]
  }

  /** What one item leaf adds to the accumulator. */
  function LeafTally(table: map<string, int>, key: string, item: Json, category: Option<string>): Tally
    requires ValidTable(table)
  {
    if !Present(Get(item, "wasFound")) then Tally(1, 0, 0, "0", [0])
    else
      var s := LeafScore(table, key, category);
      Tally(0, 1, s, "1", [s])
  }

  /** What `sumMissing(() => v, acc, category)` adds to `acc` for a truthy `v`. */
  function NodeContribution(table: map<string, int>, v: Json, category: Option<string>): Tally
    requires ValidTable(table)
    decreases v
  {
    if v.Obj? then FieldsContribution(table, v.fields, category) else Zero
  }

  /** The contribution of the keys `fields`, processed in order. */
  function FieldsContribution(table: map<string, int>, fields: seq<Field>, category: Option<string>): Tally
    requires ValidTable(table)
    decreases fields
  {
    if fields == [] then Zero
    else
      FieldsContribution(table, fields[..|fields| - 1], category)
        .Plus(EntryContribution(table, fields[|fields| - 1], category))
  }

  /** One iteration of the `forEach`: an item leaf is tallied, anything else
      is walked with its own key as `category`. */
  function EntryContribution(table: map<string, int>, f: Field, category: Option<string>): Tally
    requires ValidTable(table)
    decreases f
  {
    if IsItem(f.value) then LeafTally(table, f.key, f.value, category)
    else if !Truthy(f.value) then Zero
    else NodeContribution(table, f.value, Some(f.key))
  }

  /** What `sumMissing` adds to its accumulator once its getter produced `data`. */
  function Contribution(table: map<string, int>, data: Option<Json>, category: Option<string>): Tally
    requires ValidTable(table)
  {
    if !Present(data) then Zero else NodeContribution(table, data.value, category)
  }

  /** The accumulator invariant: one bit and one score per visited leaf, a
      '0' for each missing leaf, and unfound leaves score nothing. */
  ghost predicate Coherent(t: Tally) {
    && |t.foundBits| == |t.itemScores| == t.missing + t.found
    && t.missing == CountMissing(t.foundBits)
    && t.score == Sum(t.itemScores)
    && (forall i :: 0 <= i < |t.foundBits| ==> t.foundBits[i] in "01")
    && (forall i :: 0 <= i < |t.foundBits| && t.foundBits[i] == '0' ==> t.itemScores[i] == 0)
  }

  /** `MissingItems`: the accumulator that `sumMissing` updates in place. */
  class MissingItems {
    var missing: nat
    var score: int
    var found: nat
    var foundBits: string
    var itemScores: seq<int>

    constructor ()
      ensures State() == Zero
    {
      missing, score, found, foundBits, itemScores := 0, 0, 0, "", [];
    }

    function State(): Tally
      reads this
    {
      Tally(missing, found, score, foundBits, itemScores)
    }
  }

  /** The node a getter yields, used to measure the recursion. */
  function FetchedNode(get: Getter): Json {
    var d := Fetched(get);
    if d.Some? then d.value else Null
  }

  /** `sumMissing`: adds the contribution of the subtree that `dataFunc`
      yields to `missing` and returns `missing`. */
  method SumMissing(table: map<string, int>, dataFunc: Getter, missing: MissingItems, category: Option<string>)
    returns (r: MissingItems)
    requires ValidTable(table)
    modifies missing
    ensures r == missing
    ensures missing.State() == old(missing.State()).Plus(Contribution(table, Fetched(dataFunc), category))
    decreases FetchedNode(dataFunc), 1
  {
    var data := Fetched(dataFunc);
    if !Present(data) {
      return missing;
    }
    var node := data.value;
    var fields := Entries(node);
    ghost var start := missing.State();
    for i := 0 to |fields|
      invariant missing.State() == start.Plus(FieldsContribution(table, fields[..i], category))
    {
      ContributionStep(table, start, fields, i, category);
      assert node.Obj? && fields[i] in node.fields;
      AddEntry(table, missing, fields[i], category);
    }
    assert fields[..|fields|] == fields;
    return missing;
  }

  /** The `forEach` body of `sumMissing`: an item leaf is tallied, anything
      else is walked with its key as the category. */
  method AddEntry(table: map<string, int>, missing: MissingItems, f: Field, category: Option<string>)
    requires ValidTable(table)
    modifies missing
    ensures missing.State() == old(missing.State()).Plus(EntryContribution(table, f, category))
    decreases f, 0
  {
    if IsItem(f.value) {
      AddLeaf(table, missing, f.key, f.value, category);
    } else {
      assert FetchedNode(Returns(Some(f.value))) == f.value;
      var _ := SumMissing(table, Returns(Some(f.value)), missing, Some(f.key));
    }
  }

  /** One more key of the loop adds that key's contribution. */
  lemma ContributionStep(table: map<string, int>, start: Tally, fields: seq<Field>, i: nat, category: Option<string>)
    requires ValidTable(table) && i < |fields|
    ensures start.Plus(FieldsContribution(table, fields[..i + 1], category))
         == start.Plus(FieldsContribution(table, fields[..i], category)).Plus(EntryContribution(table, fields[i], category))
  {
    assert fields[..i + 1] == fields[..i] + [fields[i]];
    FieldsContributionSnoc(table, fields[..i], fields[i], category);
    PlusAssociative(start, FieldsContribution(table, fields[..i], category), EntryContribution(table, fields[i], category));
  }

  /** The item-leaf branch of the `forEach` body of `sumMissing`. */
  method AddLeaf(table: map<string, int>, missing: MissingItems, key: string, possibleItem: Json, category: Option<string>)
    requires ValidTable(table)
    modifies missing
    ensures missing.State() == old(missing.State()).Plus(LeafTally(table, key, possibleItem, category))
  {
    if !Present(Get(possibleItem, "wasFound")) {
      missing.missing := missing.missing + 1;
      missing.foundBits := missing.foundBits + "0";
      missing.itemScores := missing.itemScores + [0];
    } else {
      missing.found := missing.found + 1;
      missing.foundBits := missing.foundBits + "1";
      var itemScore := if key in table then table[key] else 0;
      if itemScore == 0 {
        // a facet
        if category == Some("all") {
          itemScore := 2 * table[FacetKey];
        } else {
          itemScore := table[FacetKey];
        }
      }
      missing.score := missing.score + itemScore;
      missing.itemScores := missing.itemScores + [itemScore];
    }
  }

  lemma PlusAssociative(a: Tally, b: Tally, c: Tally)
    ensures a.Plus(b).Plus(c) == a.Plus(b.Plus(c))
  {
    assert (a.foundBits + b.foundBits) + c.foundBits == a.foundBits + (b.foundBits + c.foundBits);
    assert (a.itemScores + b.itemScores) + c.itemScores == a.itemScores + (b.itemScores + c.itemScores);
  }

  lemma PlusCoherent(a: Tally, b: Tally)
    requires Coherent(a) && Coherent(b)
    ensures Coherent(a.Plus(b))
  {
    var c := a.Plus(b);
    CountMissingAppend(a.foundBits, b.foundBits);
    SumAppend(a.itemScores, b.itemScores);
    forall i | 0 <= i < |c.foundBits|
      ensures c.foundBits[i] in "01"
      ensures c.foundBits[i] == '0' ==> c.itemScores[i] == 0
    {
      if i >= |a.foundBits| {
        assert c.foundBits[i] == b.foundBits[i - |a.foundBits|];
        assert c.itemScores[i] == b.itemScores[i - |a.foundBits|];
      }
    }
  }

  lemma {:induction false} NodeCoherent(table: map<string, int>, v: Json, category: Option<string>)
    requires ValidTable(table)
    ensures Coherent(NodeContribution(table, v, category))
    decreases v
  {
    if v.Obj? {
      FieldsCoherent(table, v.fields, category);
    }
  }

  lemma {:induction false} FieldsCoherent(table: map<string, int>, fields: seq<Field>, category: Option<string>)
    requires ValidTable(table)
    ensures Coherent(FieldsContribution(table, fields, category))
    decreases fields
  {
    if fields != [] {
      var f := fields[|fields| - 1];
      FieldsCoherent(table, fields[..|fields| - 1], category);
      if !IsItem(f.value) && Truthy(f.value) {
        NodeCoherent(table, f.value, Some(f.key));
      }
      assert Coherent(EntryContribution(table, f, category));
      PlusCoherent(FieldsContribution(table, fields[..|fields| - 1], category), EntryContribution(table, f, category));
    }
  }

  /** Whatever the tree, the statistics `sumMissing` adds keep the
      accumulator invariant: as many bits as scores as leaves, the missing
      count is the number of '0' bits, the score is the sum of the scores,
      and an unfound leaf scores 0. */
  lemma ContributionCoherent(table: map<string, int>, data: Option<Json>, category: Option<string>)
    requires ValidTable(table)
    ensures Coherent(Contribution(table, data, category))
  {
    if Present(data) {
      NodeCoherent(table, data.value, category);
    }
  }

  /** Traversal order: the keys of a container contribute one after the
      other, so the bits and scores of a split key list are the
      concatenation of the bits and scores of its parts. */
  lemma {:induction false} FieldsContributionAppend(table: map<string, int>, f1: seq<Field>, f2: seq<Field>, category: Option<string>)
    requires ValidTable(table)
    ensures FieldsContribution(table, f1 + f2, category)
         == FieldsContribution(table, f1, category).Plus(FieldsContribution(table, f2, category))
    decreases |f2|
  {
    if f2 == [] {
      assert f1 + f2 == f1;
    } else {
      var init, last := f2[..|f2| - 1], f2[|f2| - 1];
      var e := EntryContribution(table, last, category);
      SplitLast(f1, f2);
      FieldsContributionSnoc(table, f1 + init, last, category);
      FieldsContributionSnoc(table, init, last, category);
      FieldsContributionAppend(table, f1, init, category);
      PlusAssociative(FieldsContribution(table, f1, category), FieldsContribution(table, init, category), e);
    }
  }

  lemma FieldsContributionSnoc(table: map<string, int>, fields: seq<Field>, f: Field, category: Option<string>)
    requires ValidTable(table)
    ensures FieldsContribution(table, fields + [f], category)
         == FieldsContribution(table, fields, category).Plus(EntryContribution(table, f, category))
  {
    assert (fields + [f])[..|fields|] == fields;
  }

  /** An item leaf: a missing one adds a '0', a zero score and one to
      `missing`; a found one adds a '1', its score and one to `found`. */
  lemma ItemEntry(table: map<string, int>, f: Field, category: Option<string>)
    requires ValidTable(table) && IsItem(f.value)
    ensures var t := EntryContribution(table, f, category);
      if Present(Get(f.value, "wasFound"))
      then t == Tally(0, 1, LeafScore(table, f.key, category), "1", [LeafScore(table, f.key, category)])
      else t == Tally(1, 0, 0, "0", [0])
  {
  }

  /** The facet rule: a found leaf without a (non-zero) table score scores
      twice the facet score under "all" and once under any other key. */
  lemma FacetScore(table: map<string, int>, key: string, category: Option<string>)
    requires ValidTable(table)
    requires key !in table || table[key] == 0
    ensures category == Some("all") ==> LeafScore(table, key, category) == 2 * table[FacetKey]
    ensures category != Some("all") ==> LeafScore(table, key, category) == table[FacetKey]
  {
  }

  /** A getter that throws, or yields `undefined` or a falsy value, leaves
      the accumulator as it was. */
  lemma FailedGetterAddsNothing(table: map<string, int>, get: Getter, category: Option<string>)
    requires ValidTable(table)
    requires get.Throws? || !Present(get.result)
    ensures Contribution(table, Fetched(get), category) == Zero
  {
  }

  /** A walk that found nothing produced only '0' bits and zero scores. */
  lemma NothingFound(t: Tally)
    requires Coherent(t) && t.found == 0
    ensures t.score == 0 && t.missing == |t.foundBits|
    ensures forall i :: 0 <= i < |t.foundBits| ==> t.foundBits[i] == '0' && t.itemScores[i] == 0
  {
    forall i | 0 <= i < |t.foundBits|
      ensures t.foundBits[i] == '0'
    {
      if t.foundBits[i] != '0' {
        CountMissingBelowLength(t.foundBits, i);
      }
    }
    AllZeroScores(t.itemScores, t.foundBits);
  }

  lemma {:induction false} CountMissingBelowLength(bits: string, i: nat)
    requires i < |bits| && bits[i] != '0'
    ensures CountMissing(bits) < |bits|
  {
    var n := |bits| - 1;
    if i < n {
      CountMissingBelowLength(bits[..n], i);
    }
  }

  lemma {:induction false} AllZeroScores(scores: seq<int>, bits: string)
    requires |scores| == |bits|
    requires forall i :: 0 <= i < |bits| ==> bits[i] == '0' && scores[i] == 0
    ensures Sum(scores) == 0
  {
    if scores != [] {
      AllZeroScores(scores[..|scores| - 1], bits[..|bits| - 1]);
    }
  }

  /** The wire statistics of one category: its defaults when the category is
      absent, otherwise what `sumMissing` computed from a fresh accumulator. */
  function CategoryOf(table: map<string, int>, sub: Option<Json>, default: nat): CategoryStats
    requires ValidTable(table)
  {
    if Present(sub) then
      var t := Contribution(table, sub, None);
      CategoryStats(t.missing, t.foundBits, t.itemScores)
    else CategoryStats(default, "", [])
  }

  /** `data.uniques.<name>` when `data && data.uniques`, otherwise absent. */
  function UniquesPart(data: Option<Json>, name: string): Option<Json> {
    if Present(data) && Present(Get(data.value, "uniques")) then Get(Get(data.value, "uniques").value, name)
    else None
  }

  /** `data.<name>` when `data`, otherwise absent. */
  function TopPart(data: Option<Json>, name: string): Option<Json> {
    if Present(data) then Get(data.value, name) else None
  }

  /** A contribution holds one score per bit, and its score is their sum. */
  lemma ContributionShape(table: map<string, int>, data: Option<Json>, category: Option<string>)
    requires ValidTable(table)
    ensures var t := Contribution(table, data, category);
      |t.foundBits| == |t.itemScores| && t.score == Sum(t.itemScores)
  {
    ContributionCoherent(table, data, category);
  }

  /** Runs `sumMissing` on a fresh accumulator when the category is present. */
  method SumCategory(table: map<string, int>, sub: Option<Json>, default: nat) returns (stats: CategoryStats, score: int)
    requires ValidTable(table)
    ensures stats == CategoryOf(table, sub, default)
    ensures score == Sum(stats.itemScores)
    ensures |stats.foundBits| == |stats.itemScores|
  {
    stats, score := CategoryStats(default, "", []), 0;
    if Present(sub) {
      var missing := new MissingItems();
      missing := SumMissing(table, Returns(sub), missing, None);
      ContributionShape(table, sub, None);
      stats := CategoryStats(missing.missing, missing.foundBits, missing.itemScores);
      score := missing.score;
    }
  }

  /** `formatGrailForParty`: the five categories' statistics of a grail tree,
      with fixed default missing counts for absent categories, and the item
      score summed over the categories present. */
  method FormatGrailForParty(table: map<string, int>, data: Option<Json>) returns (r: UserGrailData)
    requires ValidTable(table)
    ensures r.uniqueArmor == CategoryOf(table, UniquesPart(data, "armor"), ArmorTotal)
    ensures r.uniqueWeapons == CategoryOf(table, UniquesPart(data, "weapons"), WeaponsTotal)
    ensures r.uniqueOther == CategoryOf(table, UniquesPart(data, "other"), OtherTotal)
    ensures r.sets == CategoryOf(table, TopPart(data, "sets"), SetsTotal)
    ensures r.runes == CategoryOf(table, TopPart(data, "runes"), RunesTotal)
    ensures r.itemScore == Sum(r.uniqueArmor.itemScores) + Sum(r.uniqueWeapons.itemScores)
      + Sum(r.uniqueOther.itemScores) + Sum(r.sets.itemScores) + Sum(r.runes.itemScores)
  {
    var armor, weapons, other := CategoryStats(ArmorTotal, "", []), CategoryStats(WeaponsTotal, "", []), CategoryStats(OtherTotal, "", []);
    var sets, runes := CategoryStats(SetsTotal, "", []), CategoryStats(RunesTotal, "", []);
    var itemScore := 0;
    if Present(data) && Present(Get(data.value, "uniques")) {
      var uniques := Get(data.value, "uniques").value;
      var score;
      weapons, score := SumCategory(table, Get(uniques, "weapons"), WeaponsTotal);
      itemScore := itemScore + score;
      armor, score := SumCategory(table, Get(uniques, "armor"), ArmorTotal);
      itemScore := itemScore + score;
      other, score := SumCategory(table, Get(uniques, "other"), OtherTotal);
      itemScore := itemScore + score;
    }
    if Present(data) {
      var score;
      sets, score := SumCategory(table, Get(data.value, "sets"), SetsTotal);
      itemScore := itemScore + score;
      runes, score := SumCategory(table, Get(data.value, "runes"), RunesTotal);
      itemScore := itemScore + score;
    }
    r := UserGrailData(armor, weapons, other, sets, runes, itemScore);
  }

  /** A category present in the tree reports one bit and one score per leaf
      and counts as missing exactly its '0' bits; an absent one keeps its
      default count with empty vectors. */
  lemma CategoryOfShape(table: map<string, int>, sub: Option<Json>, default: nat)
    requires ValidTable(table)
    ensures var c := CategoryOf(table, sub, default);
      && |c.foundBits| == |c.itemScores|
      && (Present(sub) ==> c.missing == CountMissing(c.foundBits))
      && (!Present(sub) ==> c == CategoryStats(default, "", []))
  {
    ContributionCoherent(table, sub, None);
  }
}
