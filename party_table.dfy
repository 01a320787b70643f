/**
 * The party leaderboard of the client: one row of missing counts per member,
 * and an `Overall` accumulator that unions the members' found bit strings
 * and score arrays into the party's combined progress.
 */
module PartyTable {
  import opened JsonTree
  import opened PartyData

  // ---------------------------------------------------------------------
  // Position-wise unions
  // ---------------------------------------------------------------------

  function Max(x: int, y: int): int {
    if x < y then y else x
  }

  /** Position `i` of `s` holds a '1'; a missing position does not. */
  predicate BitSet(s: string, i: nat) {
    i < |s| && s[i] == '1'
  }

  /** A string of '0' and '1' characters only. */
  predicate IsBits(s: string) {
    forall i :: 0 <= i < |s| ==> s[i] == '0' || s[i] == '1'
  }

  /** `unionBits`: an empty operand yields the other one; otherwise the
      position-wise OR, as long as the longer operand. */
  function BitUnion(a: string, b: string): string {
    if a == "" then b
    else if b == "" then a
    else seq(Max(|a|, |b|), i requires 0 <= i => if BitSet(a, i) || BitSet(b, i) then '1' else '0')
  }

  /** `unionArrays` where it is defined: an empty operand yields the other
      one; otherwise two arrays of one length give the position-wise maximum. */
  function ScoreUnion(a: seq<int>, b: seq<int>): seq<int>
    requires Fits(a, b)
  {
    if a == [] then b
    else if b == [] then a
    else seq(|a|, i requires 0 <= i < |a| => Max(a[i], b[i]))
  }

  /** Two non-empty operands give a bit string as long as the longer one
      whose '1' positions are exactly those of either operand. */
  lemma BitUnionExactly(a: string, b: string)
    requires a != "" && b != ""
    ensures var r := BitUnion(a, b);
      && |r| == Max(|a|, |b|) && IsBits(r)
      && forall i :: 0 <= i < |r| ==> (r[i] == '1' <==> BitSet(a, i) || BitSet(b, i))
  {
  }

  lemma BitUnionCommutes(a: string, b: string)
    ensures BitUnion(a, b) == BitUnion(b, a)
  {
    if a != "" && b != "" {
      assert |BitUnion(a, b)| == |BitUnion(b, a)|;
      forall i | 0 <= i < |BitUnion(a, b)|
        ensures BitUnion(a, b)[i] == BitUnion(b, a)[i]
      {
      }
    }
  }

  /** On bit strings the union is idempotent. */
  lemma BitUnionIdempotent(a: string)
    requires IsBits(a)
    ensures BitUnion(a, a) == a
  {
    if a != "" {
      forall i | 0 <= i < |a|
        ensures BitUnion(a, a)[i] == a[i]
      {
      }
    }
  }

  /** On bit strings the union is associative, so the party bits do not
      depend on how the members are grouped. */
  lemma BitUnionAssociative(a: string, b: string, c: string)
    requires IsBits(a) && IsBits(b) && IsBits(c)
    ensures BitUnion(BitUnion(a, b), c) == BitUnion(a, BitUnion(b, c))
  {
    if a != "" && b != "" && c != "" {
      var l := BitUnion(BitUnion(a, b), c);
      var r := BitUnion(a, BitUnion(b, c));
      BitUnionExactly(a, b);
      BitUnionExactly(b, c);
      BitUnionExactly(BitUnion(a, b), c);
      BitUnionExactly(a, BitUnion(b, c));
      forall i | 0 <= i < |l|
        ensures l[i] == r[i]
      {
      }
    }
  }

  /** The union never clears a found bit. */
  lemma BitUnionKeepsFound(a: string, b: string, i: nat)
    requires BitSet(a, i)
    ensures BitSet(BitUnion(a, b), i) && BitSet(BitUnion(b, a), i)
  {
    BitUnionCommutes(a, b);
  }

  /** Union with a bit string of the same length (or an empty one) never
      increases the number of missing items. */
  lemma {:induction false} BitUnionNeverAddsMissing(a: string, b: string)
    requires IsBits(a) && (b == "" || |b| == |a|)
    ensures CountMissing(BitUnion(a, b)) <= CountMissing(a)
    ensures IsBits(BitUnion(a, b)) && |BitUnion(a, b)| == |a|
  {
    if a != "" && b != "" {
      BitUnionExactly(a, b);
      MissingPointwise(BitUnion(a, b), a);
    }
  }

  /** A string whose '0' positions all hold '0' in `a` too has no more
      missing items than `a`. */
  lemma {:induction false} MissingPointwise(r: string, a: string)
    requires |r| == |a|
    requires forall i :: 0 <= i < |r| ==> r[i] == '0' ==> a[i] == '0'
    ensures CountMissing(r) <= CountMissing(a)
  {
    if r != "" {
      MissingPointwise(r[..|r| - 1], a[..|a| - 1]);
    }
  }

  /** The union never lowers a score. */
  lemma ScoreUnionNeverLowers(a: seq<int>, b: seq<int>)
    requires Fits(a, b)
    ensures var r := ScoreUnion(a, b);
      && (a != [] ==> |r| == |a|)
      && (forall i :: 0 <= i < |a| ==> a[i] <= r[i])
      && (forall i :: 0 <= i < |b| ==> b[i] <= r[i])
  {
  }

  lemma ScoreUnionCommutes(a: seq<int>, b: seq<int>)
    requires Fits(a, b)
    ensures ScoreUnion(a, b) == ScoreUnion(b, a)
  {
    if a != [] && b != [] {
      forall i | 0 <= i < |a|
        ensures ScoreUnion(a, b)[i] == ScoreUnion(b, a)[i]
      {
      }
    }
  }

  lemma ScoreUnionIdempotent(a: seq<int>)
    ensures ScoreUnion(a, a) == a
  {
    if a != [] {
      forall i | 0 <= i < |a|
        ensures ScoreUnion(a, a)[i] == a[i]
      {
      }
    }
  }

  /** Where it is defined, the score union is associative as well. */
  lemma ScoreUnionAssociative(a: seq<int>, b: seq<int>, c: seq<int>)
    requires Fits(a, b) && Fits(b, c) && Fits(a, c)
    ensures Fits(ScoreUnion(a, b), c) && Fits(a, ScoreUnion(b, c))
    ensures ScoreUnion(ScoreUnion(a, b), c) == ScoreUnion(a, ScoreUnion(b, c))
  {
    if a != [] && b != [] && c != [] {
      var l := ScoreUnion(ScoreUnion(a, b), c);
      var r := ScoreUnion(a, ScoreUnion(b, c));
      forall i | 0 <= i < |a|
        ensures l[i] == r[i]
      {
      }
    }
  }

  /** ... so the party's item score never decreases. */
  lemma ScoreUnionSumGrows(a: seq<int>, b: seq<int>)
    requires a != [] && Fits(a, b)
    ensures Sum(a) <= Sum(ScoreUnion(a, b))
  {
    ScoreUnionNeverLowers(a, b);
    if b != [] {
      SumPointwise(a, ScoreUnion(a, b));
    }
  }

  lemma {:induction false} SumPointwise(a: seq<int>, r: seq<int>)
    requires |a| == |r| && forall i :: 0 <= i < |a| ==> a[i] <= r[i]
    ensures Sum(a) <= Sum(r)
  {
    if a != [] {
      SumPointwise(a[..|a| - 1], r[..|r| - 1]);
    }
  }

  /** The examples of the source's comments. */
  lemma UnionExamples()
    ensures BitUnion("001", "101") == "101"
    ensures BitUnion("101", "010") == "111"
    ensures BitUnion("", "0110") == "0110"
    ensures ScoreUnion([0, 5], [3, 0]) == [3, 5]
  {
    assert BitUnion("001", "101") == ['1', '0', '1'];
    assert BitUnion("101", "010") == ['1', '1', '1'];
  }

  /** `unionBits`: builds the union one character at a time. */
  method UnionBits(sum: string, toUnion: string) returns (r: string)
    ensures r == BitUnion(sum, toUnion)
  {
    if sum == "" {
      return toUnion;
    }
    if toUnion == "" {
      return sum;
    }
    r := "";
    var max := Max(|sum|, |toUnion|);
    for i := 0 to max
      invariant |r| == i
      invariant forall k :: 0 <= k < i ==> r[k] == BitUnion(sum, toUnion)[k]
    {
      r := r + (if BitSet(sum, i) || BitSet(toUnion, i) then "1" else "0");
    }
  }

  /** `unionArrays`: builds the position-wise maximum one entry at a time. */
  method UnionArrays(sum: seq<int>, toUnion: seq<int>) returns (r: seq<int>)
    requires Fits(sum, toUnion)
    ensures r == ScoreUnion(sum, toUnion)
  {
    if sum == [] {
      return toUnion;
    }
    if toUnion == [] {
      return sum;
    }
    r := [];
    for i := 0 to |sum|
      invariant r == ScoreUnion(sum, toUnion)[..i]
    {
      r := r + [Max(sum[i], toUnion[i])];
    }
  }

  // ---------------------------------------------------------------------
  // The party accumulator
  // ---------------------------------------------------------------------

  datatype Category = UniqueArmor | UniqueWeapons | UniqueOther | Sets | Runes

  function Slots(c: Category): nat {
    match c
    case UniqueArmor => ArmorTotal
    case UniqueWeapons => WeaponsTotal
    case UniqueOther => OtherTotal
    case Sets => SetsTotal
    case Runes => RunesTotal
  }

  function StatsOf(d: UserGrailData, c: Category): CategoryStats {
    match c
    case UniqueArmor => d.uniqueArmor
    case UniqueWeapons => d.uniqueWeapons
    case UniqueOther => d.uniqueOther
    case Sets => d.sets
    case Runes => d.runes
  }

  /** The contents of an `Overall` object. */
  datatype Party = Party(arm: string, wep: string, oth: string, sets: string, rune: string,
                         armScores: seq<int>, wepScores: seq<int>, othScores: seq<int>,
                         setScores: seq<int>, runeScores: seq<int>)
  {
    function Bits(c: Category): string {
      match c
      case UniqueArmor => arm
      case UniqueWeapons => wep
      case UniqueOther => oth
      case Sets => sets
      case Runes => rune
    }

    function Scores(c: Category): seq<int> {
      match c
      case UniqueArmor => armScores
      case UniqueWeapons => wepScores
      case UniqueOther => othScores
      case Sets => setScores
      case Runes => runeScores
    }
  }

  function Zeros(n: nat): (r: string)
    ensures |r| == n && IsBits(r)
  {
    seq(n, _ => '0')
  }

  function ZeroScores(n: nat): (r: seq<int>)
    ensures |r| == n
  {
    seq(n, _ => 0)
  }

  /** A new `Overall`: every slot missing, every score zero. */
  const Fresh: Party := Party(Zeros(ArmorTotal), Zeros(WeaponsTotal), Zeros(OtherTotal), Zeros(SetsTotal), Zeros(RunesTotal),
                              ZeroScores(ArmorTotal), ZeroScores(WeaponsTotal), ZeroScores(OtherTotal),
                              ZeroScores(SetsTotal), ZeroScores(RunesTotal))

  /** Two score arrays for which `unionArrays` is defined. */
  predicate Fits(a: seq<int>, b: seq<int>) {
    a == [] || b == [] || |a| == |b|
  }

  /** A member's score arrays for which `unionArrays` is defined: empty, or
      as long as the party's. */
  predicate Unionable(p: Party, d: UserGrailData) {
    && Fits(p.armScores, d.uniqueArmor.itemScores)
    && Fits(p.wepScores, d.uniqueWeapons.itemScores)
    && Fits(p.othScores, d.uniqueOther.itemScores)
    && Fits(p.setScores, d.sets.itemScores)
    && Fits(p.runeScores, d.runes.itemScores)
  }

  /** `add`: the party after one member's statistics were folded in. */
  function Added(p: Party, d: Option<UserGrailData>): Party
    requires d.Some? ==> Unionable(p, d.value)
  {
    if d.None? then p
    else
      var v := d.value;
      Party(BitUnion(p.arm, v.uniqueArmor.foundBits), BitUnion(p.wep, v.uniqueWeapons.foundBits),
            BitUnion(p.oth, v.uniqueOther.foundBits), BitUnion(p.sets, v.sets.foundBits),
            BitUnion(p.rune, v.runes.foundBits),
            ScoreUnion(p.armScores, v.uniqueArmor.itemScores), ScoreUnion(p.wepScores, v.uniqueWeapons.itemScores),
            ScoreUnion(p.othScores, v.uniqueOther.itemScores), ScoreUnion(p.setScores, v.sets.itemScores),
            ScoreUnion(p.runeScores, v.runes.itemScores))
  }

  lemma AddedCategory(p: Party, d: UserGrailData, c: Category)
    requires Unionable(p, d)
    ensures Fits(p.Scores(c), StatsOf(d, c).itemScores)
    ensures Added(p, Some(d)).Bits(c) == BitUnion(p.Bits(c), StatsOf(d, c).foundBits)
    ensures Added(p, Some(d)).Scores(c) == ScoreUnion(p.Scores(c), StatsOf(d, c).itemScores)
  {
  }

  /** One leaderboard row (`Stats` of the party table). */
  datatype StatRow = StatRow(name: string, uniqArm: int, uniqWep: int, uniqOth: int, sets: int, rune: int,
                             total: int, itemScore: int)

  /** `getStats`: the totals row of the party. */
  function TotalsRow(p: Party): (r: StatRow)
    ensures r.total == r.uniqArm + r.uniqWep + r.uniqOth + r.sets + r.rune
    ensures r.itemScore == Sum(p.armScores) + Sum(p.wepScores) + Sum(p.othScores) + Sum(p.setScores) + Sum(p.runeScores)
    ensures r.uniqArm == CountMissing(p.arm) && r.uniqWep == CountMissing(p.wep) && r.uniqOth == CountMissing(p.oth)
    ensures r.sets == CountMissing(p.sets) && r.rune == CountMissing(p.rune)
  {
    var arm, wep, oth, st, rune := CountMissing(p.arm), CountMissing(p.wep), CountMissing(p.oth), CountMissing(p.sets), CountMissing(p.rune);
    StatRow("Totals", arm, wep, oth, st, rune, arm + wep + oth + st + rune,
            Sum(p.armScores) + Sum(p.wepScores) + Sum(p.othScores) + Sum(p.setScores) + Sum(p.runeScores))
  }

  lemma {:induction false} CountMissingZeros(n: nat)
    ensures CountMissing(Zeros(n)) == n
  {
    if n > 0 {
      assert Zeros(n)[..n - 1] == Zeros(n - 1);
      CountMissingZeros(n - 1);
    }
  }

  lemma {:induction false} SumZeroScores(n: nat)
    ensures Sum(ZeroScores(n)) == 0
  {
    if n > 0 {
      assert ZeroScores(n)[..n - 1] == ZeroScores(n - 1);
      SumZeroScores(n - 1);
    }
  }

  /** A new party misses every slot and scores nothing. */
  lemma FreshTotals()
    ensures var r := TotalsRow(Fresh);
      && r.uniqArm == ArmorTotal && r.uniqWep == WeaponsTotal && r.uniqOth == OtherTotal
      && r.sets == SetsTotal && r.rune == RunesTotal
      && r.total == 539 && r.itemScore == 0
  {
    CountMissingZeros(ArmorTotal);
    CountMissingZeros(WeaponsTotal);
    CountMissingZeros(OtherTotal);
    CountMissingZeros(SetsTotal);
    CountMissingZeros(RunesTotal);
    SumZeroScores(ArmorTotal);
    SumZeroScores(WeaponsTotal);
    SumZeroScores(OtherTotal);
    SumZeroScores(SetsTotal);
    SumZeroScores(RunesTotal);
  }

  /** The party's bit strings and score arrays as built from a new
      `Overall`: bit strings and arrays of the full slot counts. */
  predicate FullWidth(p: Party) {
    forall c :: IsBits(p.Bits(c)) && |p.Bits(c)| == Slots(c) && |p.Scores(c)| == Slots(c)
  }

  /** Member statistics of the full width (or empty, for a category the
      member's grail lacks). */
  predicate MemberFits(d: UserGrailData) {
    forall c ::
      && (StatsOf(d, c).foundBits == "" || (IsBits(StatsOf(d, c).foundBits) && |StatsOf(d, c).foundBits| == Slots(c)))
      && (StatsOf(d, c).itemScores == [] || |StatsOf(d, c).itemScores| == Slots(c))
  }

  lemma FreshFullWidth()
    ensures FullWidth(Fresh)
  {
    forall c ensures IsBits(Fresh.Bits(c)) && |Fresh.Bits(c)| == Slots(c) && |Fresh.Scores(c)| == Slots(c) {
    }
  }

  /** The totals row of a full-width party misses no more items of a
      category than the category has slots, and at most 539 in all. */
  lemma TotalsRowBounded(p: Party)
    requires FullWidth(p)
    ensures var r := TotalsRow(p);
      && 0 <= r.uniqArm <= ArmorTotal && 0 <= r.uniqWep <= WeaponsTotal && 0 <= r.uniqOth <= OtherTotal
      && 0 <= r.sets <= SetsTotal && 0 <= r.rune <= RunesTotal
      && 0 <= r.total <= 539
  {
    assert |p.Bits(UniqueArmor)| == Slots(UniqueArmor);
    assert |p.Bits(UniqueWeapons)| == Slots(UniqueWeapons);
    assert |p.Bits(UniqueOther)| == Slots(UniqueOther);
    assert |p.Bits(Sets)| == Slots(Sets);
    assert |p.Bits(Runes)| == Slots(Runes);
  }

  /** Adding a fitting member keeps the party full width, never increases a
      missing count, and never lowers a category score. */
  lemma AddNeverLosesProgress(p: Party, d: UserGrailData)
    requires FullWidth(p) && MemberFits(d)
    ensures Unionable(p, d)
    ensures FullWidth(Added(p, Some(d)))
    ensures forall c :: CountMissing(Added(p, Some(d)).Bits(c)) <= CountMissing(p.Bits(c))
    ensures forall c :: Sum(p.Scores(c)) <= Sum(Added(p, Some(d)).Scores(c))
  {
    forall c
      ensures Fits(p.Scores(c), StatsOf(d, c).itemScores)
    {
    }
    assert Fits(p.Scores(UniqueArmor), StatsOf(d, UniqueArmor).itemScores);
    assert Fits(p.Scores(UniqueWeapons), StatsOf(d, UniqueWeapons).itemScores);
    assert Fits(p.Scores(UniqueOther), StatsOf(d, UniqueOther).itemScores);
    assert Fits(p.Scores(Sets), StatsOf(d, Sets).itemScores);
    assert Fits(p.Scores(Runes), StatsOf(d, Runes).itemScores);
    forall c
      ensures IsBits(Added(p, Some(d)).Bits(c)) && |Added(p, Some(d)).Bits(c)| == Slots(c)
      ensures |Added(p, Some(d)).Scores(c)| == Slots(c)
      ensures CountMissing(Added(p, Some(d)).Bits(c)) <= CountMissing(p.Bits(c))
      ensures Sum(p.Scores(c)) <= Sum(Added(p, Some(d)).Scores(c))
    {
      AddedCategory(p, d, c);
      BitUnionNeverAddsMissing(p.Bits(c), StatsOf(d, c).foundBits);
      ScoreUnionNeverLowers(p.Scores(c), StatsOf(d, c).itemScores);
      ScoreUnionSumGrows(p.Scores(c), StatsOf(d, c).itemScores);
    }
  }

  /** The party after every member of the roster was added, in order. */
  function PartyOf(users: seq<UserData>): (p: Party)
    requires forall i :: 0 <= i < |users| ==> users[i].data.Some? ==> MemberFits(users[i].data.value)
    ensures FullWidth(p)
  {
    if users == [] then
      FreshFullWidth();
      Fresh
    else
      var init := PartyOf(users[..|users| - 1]);
      var d := users[|users| - 1].data;
      if d.Some? then
        AddNeverLosesProgress(init, d.value);
        Added(init, d)
      else init
  }

  /** The party misses at most what any one member with a full-width bit
      string misses. */
  lemma {:induction false} PartyMissesAtMostMember(users: seq<UserData>, i: nat, c: Category)
    requires forall j :: 0 <= j < |users| ==> users[j].data.Some? ==> MemberFits(users[j].data.value)
    requires i < |users| && users[i].data.Some? && |StatsOf(users[i].data.value, c).foundBits| == Slots(c)
    ensures CountMissing(PartyOf(users).Bits(c)) <= CountMissing(StatsOf(users[i].data.value, c).foundBits)
  {
    var n := |users|;
    var init := users[..n - 1];
    var prev := PartyOf(init);
    var d := users[n - 1].data;
    if i == n - 1 {
      var b := StatsOf(d.value, c).foundBits;
      AddNeverLosesProgress(prev, d.value);
      AddedCategory(prev, d.value, c);
      BitUnionCommutes(prev.Bits(c), b);
      BitUnionNeverAddsMissing(b, prev.Bits(c));
    } else {
      assert init[i] == users[i];
      PartyMissesAtMostMember(init, i, c);
      if d.Some? {
        AddNeverLosesProgress(prev, d.value);
      }
    }
  }

  /** The `Overall` accumulator of the party table. */
  class Overall {
    var name: string
    var uniqArm: string
    var uniqWep: string
    var uniqOth: string
    var sets: string
    var rune: string
    var uniqArmScores: seq<int>
    var uniqWepScores: seq<int>
    var uniqOthScores: seq<int>
    var setScores: seq<int>
    var runeScores: seq<int>

    function State(): Party
      reads this
    {
      Party(uniqArm, uniqWep, uniqOth, sets, rune, uniqArmScores, uniqWepScores, uniqOthScores, setScores, runeScores)
    }

    constructor (name: string)
      ensures this.name == name && State() == Fresh
    {
      this.name := name;
      uniqArm, uniqWep, uniqOth := Zeros(ArmorTotal), Zeros(WeaponsTotal), Zeros(OtherTotal);
      sets, rune := Zeros(SetsTotal), Zeros(RunesTotal);
      uniqArmScores, uniqWepScores, uniqOthScores := ZeroScores(ArmorTotal), ZeroScores(WeaponsTotal), ZeroScores(OtherTotal);
      setScores, runeScores := ZeroScores(SetsTotal), ZeroScores(RunesTotal);
    }

    /** `add`: folds one member in; a member without data changes nothing. */
    method Add(data: Option<UserGrailData>)
      requires data.Some? ==> Unionable(State(), data.value)
      modifies this
      ensures State() == Added(old(State()), data) && name == old(name)
    {
      if data.Some? {
        AddBits(data.value);
        AddScores(data.value);
      }
    }

    /** The five `unionBits` calls of `add`. */
    method AddBits(d: UserGrailData)
      modifies this
      ensures uniqArm == BitUnion(old(uniqArm), d.uniqueArmor.foundBits)
      ensures uniqWep == BitUnion(old(uniqWep), d.uniqueWeapons.foundBits)
      ensures uniqOth == BitUnion(old(uniqOth), d.uniqueOther.foundBits)
      ensures sets == BitUnion(old(sets), d.sets.foundBits)
      ensures rune == BitUnion(old(rune), d.runes.foundBits)
      ensures name == old(name) && uniqArmScores == old(uniqArmScores) && uniqWepScores == old(uniqWepScores)
      ensures uniqOthScores == old(uniqOthScores) && setScores == old(setScores) && runeScores == old(runeScores)
    {
      uniqArm := UnionBits(uniqArm, d.uniqueArmor.foundBits);
      uniqWep := UnionBits(uniqWep, d.uniqueWeapons.foundBits);
      uniqOth := UnionBits(uniqOth, d.uniqueOther.foundBits);
      sets := UnionBits(sets, d.sets.foundBits);
      rune := UnionBits(rune, d.runes.foundBits);
    }

    /** The five `unionArrays` calls of `add`. */
    method AddScores(d: UserGrailData)
      requires Unionable(State(), d)
      modifies this
      ensures uniqArmScores == ScoreUnion(old(uniqArmScores), d.uniqueArmor.itemScores)
      ensures uniqWepScores == ScoreUnion(old(uniqWepScores), d.uniqueWeapons.itemScores)
      ensures uniqOthScores == ScoreUnion(old(uniqOthScores), d.uniqueOther.itemScores)
      ensures setScores == ScoreUnion(old(setScores), d.sets.itemScores)
      ensures runeScores == ScoreUnion(old(runeScores), d.runes.itemScores)
      ensures name == old(name) && uniqArm == old(uniqArm) && uniqWep == old(uniqWep)
      ensures uniqOth == old(uniqOth) && sets == old(sets) && rune == old(rune)
    {
      uniqArmScores := UnionArrays(uniqArmScores, d.uniqueArmor.itemScores);
      uniqWepScores := UnionArrays(uniqWepScores, d.uniqueWeapons.itemScores);
      uniqOthScores := UnionArrays(uniqOthScores, d.uniqueOther.itemScores);
      setScores := UnionArrays(setScores, d.sets.itemScores);
      runeScores := UnionArrays(runeScores, d.runes.itemScores);
    }

    /** `getStats`. */
    method GetStats() returns (r: StatRow)
      ensures r == TotalsRow(State())
    {
      r := TotalsRow(State());
    }
  }

  // ---------------------------------------------------------------------
  // Rows and ordering
  // ---------------------------------------------------------------------

  /** The row of one member; a member who never saved reports every slot
      missing and a score of 0. */
  function UserRow(u: UserData): (r: StatRow)
    ensures r.name == u.username
    ensures r.total == r.uniqArm + r.uniqWep + r.uniqOth + r.sets + r.rune
    ensures u.data.None? ==> r.total == 539 && r.itemScore == 0
    ensures u.data.Some? ==>
      && r.uniqArm == u.data.value.uniqueArmor.missing && r.uniqWep == u.data.value.uniqueWeapons.missing
      && r.uniqOth == u.data.value.uniqueOther.missing && r.sets == u.data.value.sets.missing
      && r.rune == u.data.value.runes.missing && r.itemScore == u.data.value.itemScore
  {
    match u.data
    case None =>
      StatRow(u.username, ArmorTotal, WeaponsTotal, OtherTotal, SetsTotal, RunesTotal,
              ArmorTotal + WeaponsTotal + OtherTotal + SetsTotal + RunesTotal, 0)
    case Some(d) =>
      StatRow(u.username, d.uniqueArmor.missing, d.uniqueWeapons.missing, d.uniqueOther.missing,
              d.sets.missing, d.runes.missing,
              d.uniqueArmor.missing + d.uniqueWeapons.missing + d.uniqueOther.missing + d.sets.missing + d.runes.missing,
              d.itemScore)
  }

  /** The column a leaderboard is sorted by. */
  datatype SortKey = Total | UniqArm | UniqWep | UniqOth | Set | Rune | ItemScore

  /** The sort rank of a row: the column's value, negated for the item score,
      which the leaderboard lists highest first. */
  function Rank(row: StatRow, key: SortKey): int {
    match key
    case Total => row.total
    case UniqArm => row.uniqArm
    case UniqWep => row.uniqWep
    case UniqOth => row.uniqOth
    case Set => row.sets
    case Rune => row.rune
    case ItemScore => -row.itemScore
  }

  /** `sortData`: sorts the rows in place, ascending by the chosen column and
      descending by item score. */
  method SortData(a: array<StatRow>, key: SortKey)
    modifies a
    ensures forall m, n :: 0 <= m < n < a.Length ==> Rank(a[m], key) <= Rank(a[n], key)
    ensures key == ItemScore ==> forall m, n :: 0 <= m < n < a.Length ==> a[m].itemScore >= a[n].itemScore
    ensures multiset(a[..]) == multiset(old(a[..]))
  {
    var i := 0;
    while i < a.Length
      invariant 0 <= i <= a.Length
      invariant forall m, n :: 0 <= m < n < i ==> Rank(a[m], key) <= Rank(a[n], key)
      invariant multiset(a[..]) == multiset(old(a[..]))
    {
      Insert(a, i, key);
      i := i + 1;
    }
  }

  /** One pass of the insertion sort: moves `a[i]` down into the sorted
      prefix `a[..i]`. */
  method Insert(a: array<StatRow>, i: nat, key: SortKey)
    requires i < a.Length
    requires forall m, n :: 0 <= m < n < i ==> Rank(a[m], key) <= Rank(a[n], key)
    modifies a
    ensures forall m, n :: 0 <= m < n <= i ==> Rank(a[m], key) <= Rank(a[n], key)
    ensures multiset(a[..]) == multiset(old(a[..]))
  {
    var j := i;
    while j > 0 && Rank(a[j - 1], key) > Rank(a[j], key)
      invariant 0 <= j <= i
      invariant forall m, n :: 0 <= m < n <= i && n != j ==> Rank(a[m], key) <= Rank(a[n], key)
      invariant multiset(a[..]) == multiset(old(a[..]))
    {
      Swap(a, j);
      j := j - 1;
    }
  }

  /** Exchanges `a[j - 1]` and `a[j]`. */
  method Swap(a: array<StatRow>, j: nat)
    requires 0 < j < a.Length
    modifies a
    ensures a[j - 1] == old(a[j]) && a[j] == old(a[j - 1])
    ensures forall k :: 0 <= k < a.Length && k != j - 1 && k != j ==> a[k] == old(a[k])
    ensures multiset(a[..]) == multiset(old(a[..]))
  {
    a[j - 1], a[j] := a[j], a[j - 1];
  }

  /** The rows of `render` in the order of the roster. */
  function UserRows(users: seq<UserData>): (r: seq<StatRow>)
    ensures |r| == |users| && forall i :: 0 <= i < |users| ==> r[i] == UserRow(users[i])
  {
    seq(|users|, i requires 0 <= i < |users| => UserRow(users[i]))
  }

  /** `overall.add(user.data)` for member `i` of the roster. */
  method AddMember(overall: Overall, us: seq<UserData>, i: nat)
    requires forall j :: 0 <= j < |us| ==> us[j].data.Some? ==> MemberFits(us[j].data.value)
    requires i < |us| && overall.State() == PartyOf(us[..i])
    modifies overall
    ensures overall.State() == PartyOf(us[..i + 1])
  {
    assert us[..i + 1][..i] == us[..i];
    if us[i].data.Some? {
      AddNeverLosesProgress(overall.State(), us[i].data.value);
    }
    overall.Add(us[i].data);
  }

  /** `render`'s data: the sorted member rows and the party totals row; no
      rows and no totals when the party data carries no user list. */
  method Leaderboard(users: Option<seq<UserData>>, key: SortKey) returns (rows: array<StatRow>, totals: Option<StatRow>)
    requires users.Some? ==> forall i :: 0 <= i < |users.value| ==> users.value[i].data.Some? ==> MemberFits(users.value[i].data.value)
    ensures fresh(rows)
    ensures users.None? ==> rows.Length == 0 && totals.None?
    ensures users.Some? ==> multiset(rows[..]) == multiset(UserRows(users.value))
    ensures forall m, n :: 0 <= m < n < rows.Length ==> Rank(rows[m], key) <= Rank(rows[n], key)
    ensures users.Some? ==> totals == Some(TotalsRow(PartyOf(users.value)))
  {
    if users.None? {
      rows := new StatRow[0];
      return rows, None;
    }
    var us := users.value;
    rows := new StatRow[|us|](i requires 0 <= i < |us| => UserRow(us[i]));
    assert rows[..] == UserRows(us);
    var overall := new Overall("Overall");
    FreshFullWidth();
    for i := 0 to |us|
      invariant overall.State() == PartyOf(us[..i])
      invariant rows[..] == UserRows(us)
    {
      AddMember(overall, us, i);
    }
    assert us[..|us|] == us;
    SortData(rows, key);
    var t := overall.GetStats();
    totals := Some(t);
  }
}
