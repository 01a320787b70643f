/**
 * The per-category statistics that the server sends to the party
 * leaderboard, and the number of item slots of each category of the
 * holy-grail catalogue.
 */
module PartyData {
  import opened JsonTree

  /** Item slots per category: unique armor, unique weapons, unique other,
      sets and runes. */
  const ArmorTotal: nat := 123
  const WeaponsTotal: nat := 197
  const OtherTotal: nat := 59
  const SetsTotal: nat := 127
  const RunesTotal: nat := 33

  /** `ICategoryStatsData`: missing count, found bit string, score per slot. */
  datatype CategoryStats = CategoryStats(missing: nat, foundBits: string, itemScores: seq<int>)

  /** `IUserGrailData`: the five category statistics and the summed item score. */
  datatype UserGrailData = UserGrailData(
    uniqueArmor: CategoryStats,
    uniqueWeapons: CategoryStats,
    uniqueOther: CategoryStats,
    sets: CategoryStats,
    runes: CategoryStats,
    itemScore: int)

  /** `IUserData`: one party member; `data` is absent until the member saves. */
  datatype UserData = UserData(username: string, data: Option<UserGrailData>)

  /** Sum of a score array. */
  function Sum(s: seq<int>): int {
    if s == [] then 0 else Sum(s[..|s| - 1]) + s[|s| - 1]
  }

  /** `countMissing`: the number of '0' characters of a found bit string. */
  function CountMissing(bits: string): (r: nat)
    ensures r <= |bits|
  {
    if bits == "" then 0
    else CountMissing(bits[..|bits| - 1]) + (if bits[|bits| - 1] == '0' then 1 else 0)
  }

  lemma {:induction false} CountMissingAppend(a: string, b: string)
    ensures CountMissing(a + b) == CountMissing(a) + CountMissing(b)
  {
    if b == "" {
      assert a + b == a;
    } else {
      assert (a + b)[..|a + b| - 1] == a + b[..|b| - 1];
      CountMissingAppend(a, b[..|b| - 1]);
    }
  }

  lemma {:induction false} SumAppend(a: seq<int>, b: seq<int>)
    ensures Sum(a + b) == Sum(a) + Sum(b)
  {
    if b == [] {
      assert a + b == a;
    } else {
      assert (a + b)[..|a + b| - 1] == a + b[..|b| - 1];
      SumAppend(a, b[..|b| - 1]);
    }
  }
}
