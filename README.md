# Diablo II holy-grail tracker: a verified model of its core

This project models in Dafny the logic at the heart of the holy-grail tracker
(theredsox/d2-holy-grail): players tick off the unique items, sets, runes and
runewords they have found in a large checklist tree. Groups of players form a
party whose progress is shown as one combined tree and as a leaderboard.

The model covers four pieces of the repository:

- **The per-category statistics reducer** (`server/src/utils/ItemScoreCalculator.ts`),
  in `item_score_calculator.dfy`.
  - `isItem` separates item leaves from category nodes.
  - `sumMissing` walks a tree depth-first in key order. It fills a shared
    `MissingItems` accumulator with a found-bit string, a rarity score per
    slot, and the missing and found counts.
  - `formatGrailForParty` runs `sumMissing` over the five categories.
  - `sumMissing` is a recursive method with a loop over the keys. It is proved
    against a specification function, `Contribution`. Lemmas then show that
    the accumulator keeps one bit and one score per leaf, that the missing
    count is the number of `'0'` bits, and that the score is the sum of the
    scores.
- **The account controller** (`server/src/controllers/GrailController.ts`),
  in `grail_controller.dfy`.
  - `update` is an optimistic compare-and-swap over an in-memory store. It
    writes only when the normalised address, the password and the token all
    match. It then rotates the token and counts the update. A rejected write
    is classified as not-found (404), wrong-password (401) or stale-token
    (403); a stale-token reply carries the stored token.
  - `add` refuses a taken address.
  - `updateSettings` and `updateGrail` check their arguments.
  - `mapAndReturnGrailData` projects a record without its password.
  - `trimAndToLower` normalises addresses.
  - `mergeData`, `mergeItem` and `mapGrailsToPartyGrailData` fold the members'
    trees into a read-only party tree.
- **The party leaderboard** (`client/src/areas/party/PartyTable.tsx`), in
  `party_table.dfy`.
  - The `Overall` accumulator unions the members' found-bit strings
    (position-wise OR) and score arrays (position-wise maximum), and derives
    the totals row.
  - `render` builds one row per member.
  - `sortData` sorts the rows in place.
- **The completion statistics table** (`client/src/areas/grail/StatisticsTable.tsx`),
  in `statistics_table.dfy`.
  - `calculateStats` counts items, found items and perfect items into a
    shared `Stats` object.
  - `render` sums the category rows into a total row and derives a
    total-perfects row.

Two more files hold shared definitions:

- `json_tree.dfy` holds the JavaScript values the code walks.
  - Objects keep their own properties in order.
  - An object records whether it is a plain object or an instance of the
    server's `Item` class.
  - `undefined` is `None`, and truthiness is explicit.
  - A getter closure either throws or returns a value.
- `party_data.dfy` holds the wire types of
  `client/src/common/definitions/union/IPartyData.ts` and the slot counts
  123/197/59/127/33.

Other modelling choices:

- **Injected values.** The clock and the token generator are parameters
  (`now`, `freshToken`). The rarity table `ItemScores` is a parameter that
  must score `"Rainbow Facet"`.
- **Leaf rule.** The party merge takes the test that recognises an item leaf
  as a parameter:
  - `InstanceOfItem` is `partyData instanceof Item`, as the code is written.
  - `StructuralItem` is the `isItem` rule.

  See "Findings" for why this matters.
- **Behaviours of the code the model keeps as written:**
  - An absent category reports the fixed default missing count of its slots,
    not zero (`server/src/utils/ItemScoreCalculator.ts:19-46`).
  - `unionArrays` of two score arrays of unequal length yields `NaN` entries
    past the shorter one (`client/src/areas/party/PartyTable.tsx:102-118`), so
    the model requires equal lengths.
  - `getToken` returns a timestamp (`server/src/controllers/GrailController.ts:254-256`),
    not a unique value, so the model assumes nothing about it beyond what
    `ConcurrentWritersSameToken` requires.
  - The party merge loses later members' found flags (see "Findings").
- **Code quirks the model keeps:**
  - Appending a member's note to a party item that has no note yields
    `"undefined"` followed by the note (`NoteAfterMissingNote`).
  - A member record without an `updateCount` makes the party's count `NaN`
    (`None` in `SumCounts`).

## Model

| member | source | states |
|---|---|---|
| JsonTree.IsItemExactly | server/src/utils/ItemScoreCalculator.ts:149-157 | a node is an item exactly when it is an object with no own keys or with one of the keys `wasFound`, `note`, `isPerfect` |
| PartyData.CountMissing | client/src/areas/party/PartyTable.tsx:93-95 | the number of `'0'` characters never exceeds the length of the bit string |
| PartyData.CountMissingAppend | client/src/areas/party/PartyTable.tsx:93-95 | the missing count of a concatenation is the sum of the parts' missing counts |
| PartyData.SumAppend | client/src/areas/party/PartyTable.tsx:97-99 | the sum of a concatenated score array is the sum of the parts' sums |
| ItemScoreCalculator.MissingItems.constructor | server/src/utils/ItemScoreCalculator.ts:5-13 | a new accumulator has zero counts, an empty bit string and no scores |
| ItemScoreCalculator.SumMissing | server/src/utils/ItemScoreCalculator.ts:102-147 | the accumulator afterwards is the old one followed by the subtree's contribution, in key order, and the same object is returned |
| ItemScoreCalculator.AddLeaf | server/src/utils/ItemScoreCalculator.ts:120-141 | an unfound leaf adds one missing item, a `'0'` bit and a zero score; a found leaf adds one found item, a `'1'` bit and its score, to both the score list and the total |
| ItemScoreCalculator.AddEntry | server/src/utils/ItemScoreCalculator.ts:118-145 | one key of a category: the accumulator afterwards is the old one followed by that entry's contribution, an item leaf directly or a nested category recursively |
| ItemScoreCalculator.PlusCoherent | server/src/utils/ItemScoreCalculator.ts:121-140 | appending one coherent tally to another keeps bits, scores and counts in step, the missing count equal to the `'0'` bits and the score equal to the sum |
| ItemScoreCalculator.NodeCoherent | server/src/utils/ItemScoreCalculator.ts:118-145 | the contribution of any subtree is coherent |
| ItemScoreCalculator.FieldsCoherent | server/src/utils/ItemScoreCalculator.ts:118-145 | the contribution of any key list is coherent |
| ItemScoreCalculator.ContributionCoherent | server/src/utils/ItemScoreCalculator.ts:102-147 | whatever the getter yields, `sumMissing` adds one bit and one score per leaf, counts as missing exactly the `'0'` bits, sums the scores and scores unfound leaves 0 |
| ItemScoreCalculator.ContributionShape | server/src/utils/ItemScoreCalculator.ts:102-147 | whatever the getter yields, the contribution has one score per bit and a total score equal to the sum of its scores |
| ItemScoreCalculator.FieldsContributionAppend | server/src/utils/ItemScoreCalculator.ts:118-145 | a category's bits and scores are the concatenation, in key order, of its children's |
| ItemScoreCalculator.ItemEntry | server/src/utils/ItemScoreCalculator.ts:120-141 | an item leaf's exact contribution, found or not |
| ItemScoreCalculator.FacetScore | server/src/utils/ItemScoreCalculator.ts:128-138 | a leaf without a non-zero table score scores twice the facet score under `"all"` and once elsewhere |
| ItemScoreCalculator.FailedGetterAddsNothing | server/src/utils/ItemScoreCalculator.ts:107-116 | a getter that throws or yields a falsy value adds nothing |
| ItemScoreCalculator.NothingFound | server/src/utils/ItemScoreCalculator.ts:121-124 | a coherent tally with nothing found has only `'0'` bits, zero scores, a zero total and missing equal to its length |
| ItemScoreCalculator.SumCategory | server/src/utils/ItemScoreCalculator.ts:48-57 | one category block: the statistics of a fresh accumulator (or the defaults when the category is absent), with a score equal to the sum of the item scores |
| ItemScoreCalculator.FormatGrailForParty | server/src/utils/ItemScoreCalculator.ts:18-100 | each of the five categories is what `sumMissing` computes from a fresh accumulator when present, or its default count with empty vectors; the item score is the sum over all five |
| ItemScoreCalculator.CategoryOfShape | server/src/utils/ItemScoreCalculator.ts:19-46 | a present category has as many bits as scores and missing equal to its `'0'` bits; an absent one is exactly its default |
| GrailController.LowerChar | server/src/controllers/GrailController.ts:259 | lowercasing leaves no ASCII capital and keeps every other character |
| GrailController.Lower | server/src/controllers/GrailController.ts:259 | `toLowerCase` keeps the length, maps each character, and leaves no capital |
| GrailController.TrimStart | server/src/controllers/GrailController.ts:259 | the result is a suffix of the input that does not start with white space, and every character dropped before it is white space |
| GrailController.TrimEnd | server/src/controllers/GrailController.ts:259 | the result is a prefix of the input that does not end with white space, and every character dropped after it is white space |
| GrailController.LeadingBlanks | server/src/controllers/GrailController.ts:259 | the count covers only white space and stops at the first other character |
| GrailController.TrailingBlanksFrom | server/src/controllers/GrailController.ts:259 | everything from that position on is white space, and the character before it is not |
| GrailController.TrimShape | server/src/controllers/GrailController.ts:259 | trimming both ends keeps one contiguous part of the string, which neither starts nor ends with white space |
| GrailController.TrimDropsBlank | server/src/controllers/GrailController.ts:259 | the parts trimming drops before and after the kept part are white space |
| GrailController.LowerKeepsBlank | server/src/controllers/GrailController.ts:259 | white space in the lowercased string is white space in the original |
| GrailController.NormalizeKeepsMiddle | server/src/controllers/GrailController.ts:258-260 | a normalised address is one contiguous part of the lowercased address |
| GrailController.NormalizeDropsBlank | server/src/controllers/GrailController.ts:258-260 | everything normalisation drops before and after that part is white space, so the address loses exactly its leading and trailing white space |
| GrailController.NormalizeShape | server/src/controllers/GrailController.ts:258-260 | a normalised address has no capital letter and neither starts nor ends with white space |
| GrailController.NormalizeIdempotent | server/src/controllers/GrailController.ts:258-260 | normalising twice is normalising once |
| GrailController.TrimAndToLowerIdempotent | server/src/controllers/GrailController.ts:258-260 | `trimAndToLower` is idempotent unless it yields the empty string |
| GrailController.TrimAndToLowerOfBlank | server/src/controllers/GrailController.ts:258-260 | a blank address normalises to `""`, which a second call turns into `null` |
| GrailController.ViewHidesSecrets | server/src/controllers/GrailController.ts:231-248 | the record sent back never depends on the password, the update counter or the dates, and carries the token and the trees |
| GrailController.UpdateSucceedsExactlyOnMatch | server/src/controllers/GrailController.ts:161-191 | a write succeeds exactly when address, password and token all match; it then rotates the token, stamps the time, increments the count, keeps the password and address, replies with the new view and leaves every other record alone |
| GrailController.UpdateFailureClassified | server/src/controllers/GrailController.ts:193-229 | a refused write changes nothing and replies 404 for an unknown address, 401 for a wrong password, or 403 with the stored token |
| GrailController.ConcurrentWritersSameToken | server/src/controllers/GrailController.ts:171-186 | of two writers presenting the same token, the first succeeds and the second is refused as stale and told the first one's token |
| GrailController.AddNeverOverwrites | server/src/controllers/GrailController.ts:20-55 | the address is refused as a duplicate (400) exactly when its normalised form is taken, and the store is then unchanged |
| GrailController.AddInsertsOne | server/src/controllers/GrailController.ts:20-55 | an accepted address adds exactly one record, under its normalised form, with the issued token and no update count, and keeps every other record |
| GrailController.GrailStore.constructor | server/src/controllers/GrailController.ts:18 | a new store is empty and keyed by address |
| GrailController.GrailStore.Add | server/src/controllers/GrailController.ts:20-55 | the store and reply are those of `AddOutcome`, and every record stays under its own address |
| GrailController.GrailStore.Update | server/src/controllers/GrailController.ts:161-209 | the store and reply are those of `UpdateOutcome`, and every record stays under its own address |
| GrailController.GrailStore.UpdateSettings | server/src/controllers/GrailController.ts:80-95 | missing settings give an argument error and leave the store alone; otherwise a compare-and-swap write of the settings |
| GrailController.GrailStore.UpdateGrail | server/src/controllers/GrailController.ts:97-120 | missing grail data gives an argument error and leaves the store alone; otherwise a compare-and-swap write of the grail trees and of the party statistics computed from the grail: each category as `formatGrailForParty` computes it and an item score equal to the sum of all category scores |
| GrailController.JsOr | server/src/controllers/GrailController.ts:362-363 | `a \|\| b` is one of its operands and is truthy exactly when either operand is |
| GrailController.JoinNotes | server/src/controllers/GrailController.ts:366-371 | a non-empty party note and a member note are joined with `" --- "`; an empty party note is replaced; the member note always ends the result |
| GrailController.MergeItem | server/src/controllers/GrailController.ts:360-374 | the merged item is found or perfect exactly when either side is, carries the joined note when the member has one, keeps every other property, and throws on a `null` member |
| GrailController.OrAssign | server/src/controllers/GrailController.ts:362-363 | `x = x \|\| y` on one property makes it truthy exactly when it or `y` was, and touches no other property |
| GrailController.FlagFields | server/src/controllers/GrailController.ts:362-363 | the item is perfect, and found, exactly when the party item or the member item is; no other property changes |
| GrailController.NoteFields | server/src/controllers/GrailController.ts:366-371 | a member with a non-empty note leaves the joined note on the party item; a member without one changes nothing; no other property changes |
| GrailController.MergeKey | server/src/controllers/GrailController.ts:337-353 | one loop iteration adds the member's key to the party's keys and changes no other property |
| GrailController.MergeFieldsFrame | server/src/controllers/GrailController.ts:337-356 | the merged object's keys are the party's and the member's, and a key the member lacks keeps its party value |
| GrailController.MergeFieldsKey | server/src/controllers/GrailController.ts:339-353 | a member key absent from the party is copied, a nested plain object is merged recursively, a `null` party value is filled, and any other party value is kept |
| GrailController.MergeFieldsNewKeys | server/src/controllers/GrailController.ts:350-353 | when no member key is in the party, the member's properties are appended in order |
| GrailController.FirstMemberCopied | server/src/controllers/GrailController.ts:309-353 | the first member's tree merged into the empty party object is copied unchanged |
| GrailController.StructuralMergeUnitesFound | server/src/controllers/GrailController.ts:332-334 | with a structural leaf test, an item of the merged tree is found exactly when the party or the member found it |
| GrailController.AsWrittenLosesLaterFind | server/src/controllers/GrailController.ts:332-349 | as written, a shako found only by the second member comes out unfound in the party tree |
| GrailController.StructuralKeepsLaterFind | server/src/controllers/GrailController.ts:332-334 | with the structural leaf test, the same party tree shows the shako found |
| GrailController.NotesJoined | server/src/controllers/GrailController.ts:366-371 | party note `"Bob"` and member note `"Alice"` merge into `"Bob --- Alice"` |
| GrailController.NoteAfterMissingNote | server/src/controllers/GrailController.ts:370 | a member note appended to a party item without a note yields `"undefined"` followed by the note |
| GrailController.AbsentMemberContributesNothing | server/src/controllers/GrailController.ts:319-321 | a member with no saved tree leaves the party tree unchanged |
| GrailController.SumCounts | server/src/controllers/GrailController.ts:318 | the summed update count is a number exactly when every member has one, and is then at least each member's count |
| GrailController.MapGrailsToPartyGrailData | server/src/controllers/GrailController.ts:300-324 | the loop computes `PartyView`: the leader's record with summed counts, the members' trees merged in roster order, and the read-only flag set |
| GrailController.AddCount | server/src/controllers/GrailController.ts:318 | one iteration adds the next member's update count, giving the count summed over the members so far |
| GrailController.MergeNext | server/src/controllers/GrailController.ts:319-321 | one iteration merges the next member's tree into the party tree merged so far, or reports that the merge of the whole roster fails |
| GrailController.PartyViewOf | server/src/controllers/GrailController.ts:300-324 | once the three trees are merged, the party record is the leader's with the summed count, the three merged trees and the read-only flag |
| GrailController.PartyViewShape | server/src/controllers/GrailController.ts:300-316 | the party view keeps the leader's address, password, token, settings and statistics, is read-only, and has a count exactly when every member has one |
| GrailController.PartyOfOne | server/src/controllers/GrailController.ts:317-322 | a party of one shows that member's three trees unchanged and its update count |
| PartyTable.BitUnionExactly | client/src/areas/party/PartyTable.tsx:120-137 | two non-empty bit strings give a bit string as long as the longer, with a `'1'` exactly where either has one |
| PartyTable.BitUnionCommutes | client/src/areas/party/PartyTable.tsx:120-137 | the bit union is commutative |
| PartyTable.BitUnionIdempotent | client/src/areas/party/PartyTable.tsx:120-137 | the bit union of a bit string with itself is that string |
| PartyTable.BitUnionAssociative | client/src/areas/party/PartyTable.tsx:120-137 | the bit union is associative on bit strings |
| PartyTable.BitUnionKeepsFound | client/src/areas/party/PartyTable.tsx:134 | the union never clears a found bit of either operand |
| PartyTable.BitUnionNeverAddsMissing | client/src/areas/party/PartyTable.tsx:120-137 | a union with an equal-length or empty bit string keeps the length and never increases the missing count |
| PartyTable.ScoreUnionNeverLowers | client/src/areas/party/PartyTable.tsx:102-118 | the score union is at least each operand at every position |
| PartyTable.ScoreUnionCommutes | client/src/areas/party/PartyTable.tsx:102-118 | the score union is commutative |
| PartyTable.ScoreUnionIdempotent | client/src/areas/party/PartyTable.tsx:102-118 | the score union of an array with itself is that array |
| PartyTable.ScoreUnionAssociative | client/src/areas/party/PartyTable.tsx:102-118 | the score union is associative where it is defined |
| PartyTable.ScoreUnionSumGrows | client/src/areas/party/PartyTable.tsx:97-118 | the union never lowers the sum of the party's scores |
| PartyTable.UnionExamples | client/src/areas/party/PartyTable.tsx:101-120 | `("001","101")` gives `"101"`, `("101","010")` gives `"111"`, an empty operand gives the other, and `([0,5],[3,0])` gives `[3,5]` |
| PartyTable.UnionBits | client/src/areas/party/PartyTable.tsx:121-137 | the loop computes the bit union |
| PartyTable.UnionArrays | client/src/areas/party/PartyTable.tsx:102-118 | the loop computes the score union |
| PartyTable.TotalsRow | client/src/areas/party/PartyTable.tsx:73-91 | the totals row holds the missing count of each category, their sum as total, and the summed score arrays as item score |
| PartyTable.FreshTotals | client/src/areas/party/PartyTable.tsx:40-91 | a new `Overall` misses 123/197/59/127/33 items, 539 in all, and scores 0 |
| PartyTable.TotalsRowBounded | client/src/areas/party/PartyTable.tsx:73-91 | the totals row of a full-width party misses at most the slot count of each category and 539 items in all |
| PartyTable.FreshFullWidth | client/src/areas/party/PartyTable.tsx:41-51 | a new `Overall` holds bit strings and score arrays of the full slot counts |
| PartyTable.AddNeverLosesProgress | client/src/areas/party/PartyTable.tsx:55-71 | adding a member with full-width statistics keeps the party full width, never raises a missing count and never lowers a category score |
| PartyTable.PartyOf | client/src/areas/party/PartyTable.tsx:165-187 | the party after the whole roster is full width |
| PartyTable.PartyMissesAtMostMember | client/src/areas/party/PartyTable.tsx:165-187 | the party misses no more items of a category than any one member with full-width bits |
| PartyTable.Overall.constructor | client/src/areas/party/PartyTable.tsx:40-53 | all-`'0'` bit strings and all-zero arrays of the slot counts |
| PartyTable.Overall.Add | client/src/areas/party/PartyTable.tsx:55-71 | a member without data changes nothing; otherwise each bit string and score array becomes its union with the member's |
| PartyTable.Overall.AddBits | client/src/areas/party/PartyTable.tsx:60-64 | the five bit strings become their unions and nothing else changes |
| PartyTable.Overall.AddScores | client/src/areas/party/PartyTable.tsx:66-70 | the five score arrays become their unions and nothing else changes |
| PartyTable.Overall.GetStats | client/src/areas/party/PartyTable.tsx:73-91 | returns the totals row of the current state |
| PartyTable.UserRow | client/src/areas/party/PartyTable.tsx:168-183 | a member's row holds its five missing counts, its item score and the sum of the counts as total; a member who never saved misses all 539 items and scores 0 |
| PartyTable.SortData | client/src/areas/party/PartyTable.tsx:337-341 | the rows end up as a permutation, ascending by the chosen column, or descending by item score |
| PartyTable.Insert | client/src/areas/party/PartyTable.tsx:337-341 | inserting the next row keeps the sorted prefix sorted, one row longer, and the rows a permutation |
| PartyTable.Swap | client/src/areas/party/PartyTable.tsx:337-341 | exchanging two neighbouring rows changes nothing else and keeps the rows a permutation |
| PartyTable.Leaderboard | client/src/areas/party/PartyTable.tsx:161-192 | without a user list there are no rows and no totals; otherwise the rows are a sorted permutation of the members' rows and the totals row is that of the party after every member was added |
| PartyTable.AddMember | client/src/areas/party/PartyTable.tsx:186 | `overall.add` of the next member gives the party of the members so far |
| StatisticsTable.Stats.constructor | client/src/areas/grail/StatisticsTable.tsx:25-39 | a new row has zero counters, its name and no icon, tooltip or perfects flag |
| StatisticsTable.CalculateStats | client/src/areas/grail/StatisticsTable.tsx:168-195 | the counters afterwards are the old ones plus the subtree's counts; the name and display flags are unchanged and the same object is returned |
| StatisticsTable.CountLeaf | client/src/areas/grail/StatisticsTable.tsx:182-189 | an item leaf adds one to the total, one to found when found and one to perfects when perfect; the name and display flags are unchanged |
| StatisticsTable.CountEntry | client/src/areas/grail/StatisticsTable.tsx:181-192 | one key adds that entry's counts, a leaf directly or a nested category recursively; the name and display flags are unchanged |
| StatisticsTable.NodeCountsBounded | client/src/areas/grail/StatisticsTable.tsx:180-193 | in any subtree the found and perfect counts are at most the item count |
| StatisticsTable.FieldsCountsBounded | client/src/areas/grail/StatisticsTable.tsx:180-193 | in any key list the found and perfect counts are at most the item count |
| StatisticsTable.CountedBounded | client/src/areas/grail/StatisticsTable.tsx:180-189 | starting from zero, `found <= total` and `perfects <= total` whatever the getter yields |
| StatisticsTable.PerfectIndependentOfFound | client/src/areas/grail/StatisticsTable.tsx:182-189 | a leaf counts as perfect without being found, as found without being perfect, and an empty leaf counts as an item |
| StatisticsTable.FailedGetterCountsNothing | client/src/areas/grail/StatisticsTable.tsx:169-178 | a getter that throws or yields a falsy value counts nothing |
| StatisticsTable.FieldsCountsAppend | client/src/areas/grail/StatisticsTable.tsx:180-193 | the counts of a key list are the sums of the counts of its parts |
| StatisticsTable.NodeAgreesWithServer | client/src/areas/grail/StatisticsTable.tsx:180-193 | for a subtree, the client's item count is the server's missing plus found, and both count the same found items |
| StatisticsTable.FieldsAgreeWithServer | client/src/areas/grail/StatisticsTable.tsx:180-193 | the same agreement for a key list |
| StatisticsTable.CountedAgreesWithServer | client/src/areas/grail/StatisticsTable.tsx:168-195 | the same agreement for what a getter yields |
| StatisticsTable.RowRemainingBounded | client/src/areas/grail/StatisticsTable.tsx:147-166 | a row owns its perfects when it renders perfects and its found items otherwise; owned plus remaining is exist; with bounded counters neither is negative |
| StatisticsTable.Categories | client/src/areas/grail/StatisticsTable.tsx:64-104 | the ethereal mode counts three unique categories, the runeword mode counts the whole tree, and the default mode counts five categories |
| StatisticsTable.SumCountsBounded | client/src/areas/grail/StatisticsTable.tsx:105-111 | the total row of bounded rows is bounded |
| StatisticsTable.SumCountsAppend | client/src/areas/grail/StatisticsTable.tsx:105-111 | the total of concatenated rows is the sum of the parts' totals |
| StatisticsTable.CategoryRow | client/src/areas/grail/StatisticsTable.tsx:88-91 | a new row named after the category holds the counts of the category's subtree |
| StatisticsTable.CategoryRows | client/src/areas/grail/StatisticsTable.tsx:64-104 | one row per category, in order, each with its name and the counts of its subtree |
| StatisticsTable.Totals | client/src/areas/grail/StatisticsTable.tsx:105-111 | a new `"Total"` row whose counters are the sums of the rows' counters |
| StatisticsTable.Render | client/src/areas/grail/StatisticsTable.tsx:61-118 | one row per category of the mode with its subtree's counts, a total row summing them, and a starred total-perfects row with the total's items and perfects |
| StatisticsTable.PerfectsRow | client/src/areas/grail/StatisticsTable.tsx:113-118 | a new starred `"Total Perfects"` row that shows perfects, with the total row's item count and perfect count and no found count |
| StatisticsTable.TotalPerfectsRow | client/src/areas/grail/StatisticsTable.tsx:113-118 | the total-perfects row shows all items as existing and the perfect ones as owned, and never a negative remainder |

## Left out

- MongoDB and Express are not modelled: `insertOne`, `findOneAndUpdate`, `findOne`, `find`, HTTP status objects and the catch-all unknown-error reply. The store is an in-memory map and the replies are the `Response` datatype.
- Time is a parameter. `getToken` (a timestamp) is the `freshToken` parameter, and `new Date()` is `now`. Nothing is assumed about token uniqueness.
- The duplicate-key check of `add` relies on a unique index in the database. It is modelled only as a key already present in the map.
- `get`, `getPartyByAddress`, `getPartyData`, `validatePassword` and `getStatistics` are not modelled. They are database queries around the modelled pieces; `get` only combines `getByAddress`, the party view and the projection.
- Mutation in place and aliasing in `mergeData` and `mergeItem` are not modelled. The merge is modelled on values. In particular, the party tree sharing the first member's objects is not captured.
- `undefined`-valued properties are not modelled. `MergeItem` keeps the old value where the code would store `undefined`.
- `Object.keys` of strings and arrays is not modelled. Primitives have no keys in this model, and arrays do not occur in the modelled trees.
- JavaScript numbers are unbounded integers. Floating point and `NaN` arithmetic are not modelled, except that `NaN` for a missing update count is `None`.
- `GrailController.Lower`: `toLowerCase` is modelled for ASCII letters only, because Unicode case mapping is not modelled.
- The server's `Item` class, the client's `Util.isItem` and the `ItemScores` table are not part of this model. Both item tests use the `isItem` rule. The table is an abstract map that scores `"Rainbow Facet"`.
- `PartyTable.UnionArrays`, `PartyTable.Overall.Add` and `PartyTable.Leaderboard` require score arrays of equal length (or an empty one). With unequal lengths the code produces `NaN` entries, which this model does not represent.
- `ItemTotal` (the client's slot counts) is not part of this model. Its values are taken to be the server's defaults 123/197/59/127/33.
- `PartyTable.SortData`: stability of `Array.prototype.sort` is not stated. The method is an insertion sort, but only sortedness and permutation are proved.
- `StatisticsTable.RowOf`: the percentage column is left out, because it uses floating division and `toFixed`.
- The `"N/A"` item-score cell, the completed-grail star, the empty-roster row and the claim that a finished grail scores 10000 are not modelled. The claim depends on the contents of the score table.
- React state handling is not modelled: `getDerivedStateFromProps`, `changeSortingState`, `refreshData`, and the `GrailManager` and `PartyManager` singletons. All rendering is left out.
- `PartyData.UserGrailData`: the five categories and the item score are required fields, while `IUserGrailData` declares them optional. A member record without one of them, on which `add` and `render` would throw, is not modelled.
- `PartyTable.PartyOf`, `PartyTable.AddMember` and `PartyTable.Leaderboard` require every member's bit strings to be `'0'`/`'1'` strings of the full slot count, or empty, as well as the score arrays (`MemberFits`). Shorter or malformed bit strings, which `unionBits` would still combine, are not modelled.
- `GrailController.Classify`: a refused write is classified against the same store state as the write. The code re-reads the record with a separate `findOne` after the failed `findOneAndUpdate`, so a write by another client landing in between is not captured.
- `GrailController.JoinNotes`: non-string notes are modelled only through `String()` conversion of the party note. A non-string member note is ignored, as `note.length > 0` is then false for every case the model has.

## Findings

| source | as written | input that shows it | evidently intended | confidence | as-written member | corrected member |
|---|---|---|---|---|---|---|
| server/src/controllers/GrailController.ts:332 | `mergeData` reaches `mergeItem` only when the party node is `instanceof Item`. Trees read from the store are plain objects, so this test never holds. A leaf is then merged key by key, where a party value is replaced only when it is `null`. | Alice's tree `{shako: {wasFound: false}}` and then Bob's tree `{shako: {wasFound: true}}`: the party tree shows the shako unfound. | The party's `wasFound`/`isPerfect` is the OR over the members and notes are joined, as `mergeItem` does: a structural item test at the leaf. | high (not executed) | GrailController.AsWrittenLosesLaterFind | GrailController.StructuralMergeUnitesFound |
