/**
 * The server's account controller: the optimistic compare-and-swap update of
 * one player's stored record, the projection of a record that is sent back
 * to clients, and the party view that folds every member's checklist tree
 * into one read-only tree.
 *
 * The document store is an in-memory map from normalised address to record;
 * the clock and the token generator are parameters (`now`, `freshToken`).
 */
module GrailController {
  import opened JsonTree
  import opened PartyData
  import ItemScoreCalculator

  // ---------------------------------------------------------------------
  // Address normalisation
  // ---------------------------------------------------------------------

  /** The characters that `String.prototype.trim` removes. */
  predicate IsTrimmed(c: char) {
    || c == '\t' || c == '\n' || c == '\r' || c == ' '
    || c == '\U{000B}' || c == '\U{000C}' || c == '\U{00A0}' || c == '\U{1680}'
    || ('\U{2000}' <= c <= '\U{200A}')
    || c == '\U{2028}' || c == '\U{2029}' || c == '\U{202F}' || c == '\U{205F}'
    || c == '\U{3000}' || c == '\U{FEFF}'
  }

  /** The characters of `s` from `lo` up to `hi` are all white space. */
  predicate BlankBetween(s: string, lo: nat, hi: nat)
    requires lo <= hi <= |s|
  {
    forall i :: lo <= i < hi ==> IsTrimmed(s[i])
  }

  /** `toLowerCase` on one character, for the ASCII letters. */
  function LowerChar(c: char): (r: char)
    ensures !('A' <= r <= 'Z')
    ensures !('A' <= c <= 'Z') ==> r == c
  {
    if 'A' <= c <= 'Z' then (c as int + 32) as char else c
  }

  function Lower(s: string): (r: string)
    ensures |r| == |s| && forall i :: 0 <= i < |s| ==> r[i] == LowerChar(s[i])
    ensures NoUpper(r)
  {
    seq(|s|, i requires 0 <= i < |s| => LowerChar(s[i]))
  }

  /** The number of white-space characters at the start of `s`. */
  function LeadingBlanks(s: string): (k: nat)
    ensures k <= |s| && BlankBetween(s, 0, k)
    ensures k < |s| ==> !IsTrimmed(s[k])
  {
    if s == "" || !IsTrimmed(s[0]) then 0
    else
      var k := 1 + LeadingBlanks(s[1..]);
      assert forall i :: 1 <= i < k ==> s[i] == s[1..][i - 1];
      k
  }

  /** Where the white space at the end of `s` begins. */
  function TrailingBlanksFrom(s: string): (k: nat)
    ensures k <= |s| && BlankBetween(s, k, |s|)
    ensures k > 0 ==> !IsTrimmed(s[k - 1])
  {
    if s == "" || !IsTrimmed(s[|s| - 1]) then |s|
    else
      var k := TrailingBlanksFrom(s[..|s| - 1]);
      assert forall i :: k <= i < |s| - 1 ==> s[i] == s[..|s| - 1][i];
      k
  }

  /** Drops the leading white space: what remains is a suffix that does not
      start with white space, and everything dropped is white space. */
  function TrimStart(s: string): (r: string)
    ensures r == "" || !IsTrimmed(r[0])
    ensures |r| <= |s| && r == s[|s| - |r|..]
    ensures BlankBetween(s, 0, |s| - |r|)
  {
    s[LeadingBlanks(s)..]
  }

  /** Drops the trailing white space: what remains is a prefix that does not
      end with white space, and everything dropped is white space. */
  function TrimEnd(s: string): (r: string)
    ensures r == "" || !IsTrimmed(r[|r| - 1])
    ensures |r| <= |s| && r == s[..|r|]
    ensures BlankBetween(s, |r|, |s|)
  {
    s[..TrailingBlanksFrom(s)]
  }

  /** `value.toLowerCase().trim()`. */
  function Normalize(s: string): string {
    TrimEnd(TrimStart(Lower(s)))
  }

  /** `trimAndToLower`: the lowercased and trimmed address, or `null` for a
      falsy (absent or empty) one. */
  function TrimAndToLower(value: Option<string>): Option<string> {
    if value.None? || value.value == "" then None else Some(Normalize(value.value))
  }

  lemma TrimStartOfTrimmed(s: string)
    requires s == "" || !IsTrimmed(s[0])
    ensures TrimStart(s) == s
  {
  }

  lemma TrimEndOfTrimmed(s: string)
    requires s == "" || !IsTrimmed(s[|s| - 1])
    ensures TrimEnd(s) == s
  {
  }

  lemma LowerOfLowered(s: string)
    requires NoUpper(s)
    ensures Lower(s) == s
  {
    forall i | 0 <= i < |s|
      ensures Lower(s)[i] == s[i]
    {
      assert !('A' <= s[i] <= 'Z');
    }
  }

  predicate NoUpper(s: string) {
    forall i :: 0 <= i < |s| ==> !('A' <= s[i] <= 'Z')
  }

  /** Every part of a string without capitals is without capitals. */
  lemma NoUpperSlice(s: string, lo: nat, hi: nat)
    requires NoUpper(s) && lo <= hi <= |s|
    ensures NoUpper(s[lo..hi])
  {
    forall i | 0 <= i < hi - lo
      ensures !('A' <= s[lo..hi][i] <= 'Z')
    {
      assert s[lo..hi][i] == s[lo + i];
    }
  }

  /** Trimming the end keeps the first character. */
  lemma TrimEndKeepsStart(t: string)
    requires t == "" || !IsTrimmed(t[0])
    ensures var n := TrimEnd(t); n == "" || !IsTrimmed(n[0])
  {
    var n := TrimEnd(t);
    if n != "" {
      assert n[0] == t[0];
    }
  }

  /** Trimming both ends of a string keeps one contiguous part of it, which
      neither starts nor ends with white space. */
  lemma TrimShape(l: string)
    ensures var t := TrimStart(l);
      var n := TrimEnd(t);
      var lo := |l| - |t|;
      && lo + |n| <= |l| && n == l[lo..lo + |n|]
      && (n == "" || (!IsTrimmed(n[0]) && !IsTrimmed(n[|n| - 1])))
  {
    var t := TrimStart(l);
    SuffixParts(l, t, |TrimEnd(t)|);
    TrimEndKeepsStart(t);
  }

  /** The parts that trimming both ends drops are white space. */
  lemma TrimDropsBlank(l: string)
    ensures var t := TrimStart(l);
      var lo := |l| - |t|;
      var hi := lo + |TrimEnd(t)|;
      hi <= |l| && BlankBetween(l, 0, lo) && BlankBetween(l, hi, |l|)
  {
    var t := TrimStart(l);
    var lo := |l| - |t|;
    var hi := lo + |TrimEnd(t)|;
    forall i | hi <= i < |l|
      ensures IsTrimmed(l[i])
    {
      assert l[i] == t[i - lo];
    }
  }

  /** Lowercasing neither creates nor removes white space. */
  lemma LowerKeepsBlank(s: string, lo: nat, hi: nat)
    requires lo <= hi <= |s| && BlankBetween(Lower(s), lo, hi)
    ensures BlankBetween(s, lo, hi)
  {
    forall i | lo <= i < hi
      ensures IsTrimmed(s[i])
    {
      assert Lower(s)[i] == LowerChar(s[i]);
    }
  }

  /** A normalised address is one contiguous part of the lowercased address ... */
  lemma NormalizeKeepsMiddle(s: string)
    ensures var n := Normalize(s);
      var lo := |s| - |TrimStart(Lower(s))|;
      lo + |n| <= |s| && n == Lower(s)[lo..lo + |n|]
  {
    var l := Lower(s);
    assert |l| == |s|;
    TrimShape(l);
  }

  /** ... and everything dropped before and after that part is white space:
      the address with exactly its leading and trailing white space removed. */
  lemma NormalizeDropsBlank(s: string)
    ensures var n := Normalize(s);
      var lo := |s| - |TrimStart(Lower(s))|;
      lo + |n| <= |s| && BlankBetween(s, 0, lo) && BlankBetween(s, lo + |n|, |s|)
  {
    var l := Lower(s);
    var lo := |l| - |TrimStart(l)|;
    TrimDropsBlank(l);
    LowerKeepsBlank(s, 0, lo);
    LowerKeepsBlank(s, lo + |Normalize(s)|, |s|);
  }

  /** What is kept neither starts nor ends with white space and has no
      upper-case letter. */
  lemma NormalizeShape(s: string)
    ensures var n := Normalize(s);
      && (n == "" || (!IsTrimmed(n[0]) && !IsTrimmed(n[|n| - 1])))
      && NoUpper(n)
  {
    var l := Lower(s);
    var n := Normalize(s);
    var lo := |l| - |TrimStart(l)|;
    TrimShape(l);
    NoUpperSlice(l, lo, lo + |n|);
  }

  /** Normalising a normalised address changes nothing. */
  lemma NormalizeIdempotent(s: string)
    ensures Normalize(Normalize(s)) == Normalize(s)
  {
    var n := Normalize(s);
    NormalizeShape(s);
    LowerOfLowered(n);
    TrimStartOfTrimmed(n);
    TrimEndOfTrimmed(n);
  }

  /** `trimAndToLower` is idempotent on every address it maps to a non-empty
      string. */
  lemma TrimAndToLowerIdempotent(value: Option<string>)
    requires TrimAndToLower(value) != Some("")
    ensures TrimAndToLower(TrimAndToLower(value)) == TrimAndToLower(value)
  {
    if value.Some? && value.value != "" {
      NormalizeIdempotent(value.value);
    }
  }

  /** ... but not on an address of white space only: it maps to the empty
      string, which maps to `null`. */
  lemma TrimAndToLowerOfBlank()
    ensures TrimAndToLower(Some(" ")) == Some("")
    ensures TrimAndToLower(TrimAndToLower(Some(" "))) == None
  {
    assert Lower(" ") == " ";
    assert TrimStart(" ") == TrimStart("");
  }

  // ---------------------------------------------------------------------
  // Stored records, responses and the projection sent to clients
  // ---------------------------------------------------------------------

  /** One stored grail document. `address` is the normalised address (the
      unique key); `updateCount` is absent until the first update. */
  datatype Account = Account(
    address: Option<string>,
    password: string,
    token: string,
    version: Option<Json>,
    created: int,
    modified: int,
    updateCount: Option<nat>,
    data: Option<Json>,
    ethData: Option<Json>,
    runewordData: Option<Json>,
    partyData: Option<UserGrailData>,
    settings: Option<Json>,
    readOnly: Option<bool>,
    hasParty: Option<bool>)

  type Accounts = map<Option<string>, Account>

  /** What a client receives for a grail: no password, no counters, no dates. */
  datatype GrailView = GrailView(
    address: string,
    data: Option<Json>,
    ethData: Option<Json>,
    runewordData: Option<Json>,
    settings: Option<Json>,
    token: string,
    version: Option<Json>,
    readOnly: Option<bool>,
    hasParty: Option<bool>)

  /** The replies of the controller, one per HTTP status and error type. */
  datatype Response =
    | Ok(view: GrailView)
    | NotFound(address: string)
    | WrongPassword(address: string)
    | StaleToken(correctToken: string, specifiedToken: string, address: string)
    | ArgumentError(argumentName: string)
    | DuplicateKey(originalAddress: Option<string>)

  function Status(r: Response): nat {
    match r
    case Ok(_) => 200
    case NotFound(_) => 404
    case WrongPassword(_) => 401
    case StaleToken(_, _, _) => 403
    case ArgumentError(_) => 500
    case DuplicateKey(_) => 400
  }

  /** `mapAndReturnGrailData`: the record as sent to the client, under the
      address the client used. */
  function View(originalAddress: string, a: Account): GrailView {
    GrailView(originalAddress, a.data, a.ethData, a.runewordData, a.settings,
              a.token, a.version, a.readOnly, a.hasParty)
  }

  /** The projection never depends on the stored password, counters or dates. */
  lemma ViewHidesSecrets(originalAddress: string, a: Account, password: string, count: Option<nat>, created: int, modified: int)
    ensures View(originalAddress, a) == View(originalAddress, a.(password := password, updateCount := count, created := created, modified := modified))
    ensures View(originalAddress, a).token == a.token && View(originalAddress, a).data == a.data
  {
  }

  // ---------------------------------------------------------------------
  // The compare-and-swap update
  // ---------------------------------------------------------------------

  /** The field changes a caller asks for. */
  datatype Patch =
    | SettingsPatch(settings: Json)
    | GrailPatch(version: Option<Json>, grail: Json, ethGrail: Option<Json>, runewordGrail: Option<Json>, partyData: UserGrailData)

  function ApplyPatch(a: Account, p: Patch): Account {
    match p
    case SettingsPatch(s) => a.(settings := Some(s))
    case GrailPatch(v, g, e, rw, pd) =>
      a.(version := v, data := Some(g), ethData := e, runewordData := rw, partyData := Some(pd))
  }

  function Increment(count: Option<nat>): nat {
    if count.Some? then count.value + 1 else 1
  }

  /** A write that found no record with the address, password and token:
      the failure is classified from the record stored under the address. */
  function Classify(accounts: Accounts, address: string, password: string, token: string): Response {
    var key := TrimAndToLower(Some(address));
    if key !in accounts then NotFound(address)
    else if accounts[key].password != password then WrongPassword(address)
    else StaleToken(accounts[key].token, token, address)
  }

  /** `update`: the store and the reply after one compare-and-swap write. */
  function UpdateOutcome(accounts: Accounts, address: string, password: string, token: string,
                         patch: Patch, freshToken: string, now: int): (Accounts, Response)
  {
    var key := TrimAndToLower(Some(address));
    if key in accounts && accounts[key].password == password && accounts[key].token == token then
      var a := accounts[key];
      var updated := ApplyPatch(a, patch).(token := freshToken, modified := now, updateCount := Some(Increment(a.updateCount)));
      (accounts[key := updated], Ok(View(address, updated)))
    else
      (accounts, Classify(accounts, address, password, token))
  }

  /** A write succeeds exactly when address, password and token all match;
      it then rotates the token, stamps the time, counts the update and
      applies the patch to that record only. */
  lemma UpdateSucceedsExactlyOnMatch(accounts: Accounts, address: string, password: string, token: string,
                                     patch: Patch, freshToken: string, now: int)
    ensures var (after, r) := UpdateOutcome(accounts, address, password, token, patch, freshToken, now);
      var key := TrimAndToLower(Some(address));
      && (r.Ok? <==> key in accounts && accounts[key].password == password && accounts[key].token == token)
      && (r.Ok? ==>
            && after.Keys == accounts.Keys
            && after[key].token == freshToken && after[key].modified == now
            && after[key].updateCount == Some(Increment(accounts[key].updateCount))
            && after[key].password == accounts[key].password
            && after[key].address == accounts[key].address
            && r.view == View(address, after[key])
            && (forall k :: k in accounts && k != key ==> after[k] == accounts[k]))
  {
  }

  /** A rejected write changes nothing and says why: no such address (404),
      wrong password (401), or a stale token (403) carrying the stored one. */
  lemma UpdateFailureClassified(accounts: Accounts, address: string, password: string, token: string,
                                patch: Patch, freshToken: string, now: int)
    ensures var (after, r) := UpdateOutcome(accounts, address, password, token, patch, freshToken, now);
      var key := TrimAndToLower(Some(address));
      !r.Ok? ==>
        && after == accounts
        && (key !in accounts ==> r == NotFound(address) && Status(r) == 404)
        && (key in accounts && accounts[key].password != password ==> r == WrongPassword(address) && Status(r) == 401)
        && (key in accounts && accounts[key].password == password ==>
              && r == StaleToken(accounts[key].token, token, address) && Status(r) == 403
              && accounts[key].token != token)
  {
  }

  /** Two writers holding the same token: the first wins and rotates the
      token; the second is refused as stale and told the winner's token. */
  lemma ConcurrentWritersSameToken(accounts: Accounts, address: string, password: string, token: string,
                                   p1: Patch, fresh1: string, now1: int, p2: Patch, fresh2: string, now2: int)
    requires var key := TrimAndToLower(Some(address));
      key in accounts && accounts[key].password == password && accounts[key].token == token
    requires fresh1 != token
    ensures var (s1, r1) := UpdateOutcome(accounts, address, password, token, p1, fresh1, now1);
      var (s2, r2) := UpdateOutcome(s1, address, password, token, p2, fresh2, now2);
      r1.Ok? && r2 == StaleToken(fresh1, token, address) && s2 == s1
  {
  }

  /** A new grail as posted by a client, optionally cloned from a template. */
  datatype Template = Template(version: Option<Json>, data: Option<Json>, ethData: Option<Json>,
                               runewordData: Option<Json>, settings: Option<Json>)

  datatype NewGrail = NewGrail(address: Option<string>, password: string, version: Option<Json>,
                               data: Option<Json>, ethData: Option<Json>, runewordData: Option<Json>,
                               settings: Option<Json>, template: Option<Template>)

  /** The document `add` inserts. */
  function NewAccount(req: NewGrail, freshToken: string, now: int): Account {
    var base := Account(TrimAndToLower(req.address), req.password, freshToken, req.version, now, now, None,
                        req.data, req.ethData, req.runewordData, None, req.settings, None, None);
    if req.template.Some? then
      var t := req.template.value;
      base.(version := t.version, data := t.data, ethData := t.ethData, runewordData := t.runewordData, settings := t.settings)
    else base
  }

  /** `add`: insert under the normalised address unless it is taken. */
  function AddOutcome(accounts: Accounts, req: NewGrail, freshToken: string, now: int): (Accounts, Response) {
    var a := NewAccount(req, freshToken, now);
    if a.address in accounts then (accounts, DuplicateKey(req.address))
    else
      var shown := if req.address.Some? then req.address.value else "";
      (accounts[a.address := a], Ok(View(shown, a)))
  }

  /** Creation never overwrites: a taken address is refused and the store is
      unchanged. */
  lemma AddNeverOverwrites(accounts: Accounts, req: NewGrail, freshToken: string, now: int)
    ensures var (after, r) := AddOutcome(accounts, req, freshToken, now);
      && (r.DuplicateKey? <==> TrimAndToLower(req.address) in accounts)
      && (r.DuplicateKey? ==> after == accounts && Status(r) == 400)
  {
    var a := NewAccount(req, freshToken, now);
    assert a.address == TrimAndToLower(req.address);
  }

  /** Otherwise exactly one record is added, under the normalised address,
      with the issued token and no update count. */
  lemma AddInsertsOne(accounts: Accounts, req: NewGrail, freshToken: string, now: int)
    ensures var (after, r) := AddOutcome(accounts, req, freshToken, now);
      var key := TrimAndToLower(req.address);
      r.Ok? ==>
        && after.Keys == accounts.Keys + {key} && after[key].token == freshToken
        && after[key].updateCount.None? && r.view.token == freshToken
        && (forall k :: k in accounts ==> after[k] == accounts[k])
  {
    var a := NewAccount(req, freshToken, now);
    assert a.address == TrimAndToLower(req.address) && a.token == freshToken && a.updateCount.None?;
    if a.address !in accounts {
      InsertFresh(accounts, a.address, a);
    }
  }

  /** Inserting under a new key adds that key and keeps every other entry. */
  lemma InsertFresh<K, V>(m: map<K, V>, key: K, v: V)
    requires key !in m
    ensures m[key := v].Keys == m.Keys + {key} && m[key := v][key] == v
    ensures forall k :: k in m ==> m[key := v][k] == m[k]
  {
  }


  /** The account collection. */
  class GrailStore {
    var accounts: Accounts

    /** Every record is stored under its own address. */
    ghost predicate Valid()
      reads this
    {
      forall k :: k in accounts ==> accounts[k].address == k
    }

    constructor ()
      ensures Valid() && accounts == map[]
    {
      accounts := map[];
    }

    method Add(req: NewGrail, freshToken: string, now: int) returns (r: Response)
      requires Valid()
      modifies this
      ensures Valid()
      ensures (accounts, r) == AddOutcome(old(accounts), req, freshToken, now)
    {
      var a := NewAccount(req, freshToken, now);
      if a.address in accounts {
        return DuplicateKey(req.address);
      }
      accounts := accounts[a.address := a];
      var shown := if req.address.Some? then req.address.value else "";
      r := Ok(View(shown, a));
    }

    /** `update`: one compare-and-swap write, then the failure classification. */
    method Update(address: string, password: string, token: string, patch: Patch, freshToken: string, now: int)
      returns (r: Response)
      requires Valid()
      modifies this
      ensures Valid()
      ensures (accounts, r) == UpdateOutcome(old(accounts), address, password, token, patch, freshToken, now)
    {
      var key := TrimAndToLower(Some(address));
      if key in accounts && accounts[key].password == password && accounts[key].token == token {
        var a := accounts[key];
        var updated := ApplyPatch(a, patch).(token := freshToken, modified := now, updateCount := Some(Increment(a.updateCount)));
        accounts := accounts[key := updated];
        return Ok(View(address, updated));
      }
      if key !in accounts {
        return NotFound(address);
      }
      var existing := accounts[key];
      if existing.password != password {
        r := WrongPassword(address);
      } else {
        r := StaleToken(existing.token, token, address);
      }
    }

    /** `updateSettings`: refuses a missing settings object without touching
      the store. */
    method UpdateSettings(address: string, password: string, token: string, settings: Option<Json>,
                          freshToken: string, now: int) returns (r: Response)
      requires Valid()
      modifies this
      ensures Valid()
      ensures !Present(settings) ==> r == ArgumentError("settings") && accounts == old(accounts)
      ensures Present(settings) ==>
        (accounts, r) == UpdateOutcome(old(accounts), address, password, token, SettingsPatch(settings.value), freshToken, now)
    {
      if !Present(settings) {
        return ArgumentError("settings");
      }
      r := Update(address, password, token, SettingsPatch(settings.value), freshToken, now);
    }

    /** `updateGrail`: refuses missing grail data without touching the store;
      otherwise stores the trees together with their party statistics. */
    method UpdateGrail(table: map<string, int>, address: string, password: string, token: string,
                       version: Option<Json>, grail: Option<Json>, ethGrail: Option<Json>, runewordGrail: Option<Json>,
                       freshToken: string, now: int) returns (r: Response)
      requires Valid() && ItemScoreCalculator.ValidTable(table)
      modifies this
      ensures Valid()
      ensures !Present(grail) ==> r == ArgumentError("grail") && accounts == old(accounts)
      ensures Present(grail) ==> exists pd: UserGrailData ::
        && pd.uniqueArmor == ItemScoreCalculator.CategoryOf(table, ItemScoreCalculator.UniquesPart(grail, "armor"), ArmorTotal)
        && pd.uniqueWeapons == ItemScoreCalculator.CategoryOf(table, ItemScoreCalculator.UniquesPart(grail, "weapons"), WeaponsTotal)
        && pd.uniqueOther == ItemScoreCalculator.CategoryOf(table, ItemScoreCalculator.UniquesPart(grail, "other"), OtherTotal)
        && pd.sets == ItemScoreCalculator.CategoryOf(table, ItemScoreCalculator.TopPart(grail, "sets"), SetsTotal)
        && pd.runes == ItemScoreCalculator.CategoryOf(table, ItemScoreCalculator.TopPart(grail, "runes"), RunesTotal)
        && pd.itemScore == Sum(pd.uniqueArmor.itemScores) + Sum(pd.uniqueWeapons.itemScores)
             + Sum(pd.uniqueOther.itemScores) + Sum(pd.sets.itemScores) + Sum(pd.runes.itemScores)
        && (accounts, r) == UpdateOutcome(old(accounts), address, password, token,
                                          GrailPatch(version, grail.value, ethGrail, runewordGrail, pd), freshToken, now)
    {
      var partyData := ItemScoreCalculator.FormatGrailForParty(table, grail);
      if !Present(grail) {
        return ArgumentError("grail");
      }
      r := Update(address, password, token, GrailPatch(version, grail.value, ethGrail, runewordGrail, partyData), freshToken, now);
    }
  }

  // ---------------------------------------------------------------------
  // The party view: merging the members' checklist trees
  // ---------------------------------------------------------------------

  /** The test `mergeData` applies to the party node to decide that it has
      reached an item leaf. */
  datatype LeafRule =
    | InstanceOfItem  // `partyData instanceof Item`, as the controller is written
    | StructuralItem  // the node carries one of the `Item` property names

  predicate IsLeaf(rule: LeafRule, party: Json) {
    match rule
    case InstanceOfItem => party.Obj? && party.proto == ItemInstance
    case StructuralItem => IsItem(party) && party.fields != []
  }

  /** `v != null && v.constructor === Object`. */
  predicate IsPlainObject(v: Json) {
    v.Obj? && v.proto == PlainObject
  }

  const EmptyObject: Json := Obj(PlainObject, [])

  /** `a || b`: the first operand when truthy, otherwise the second. */
  function JsOr(a: Option<Json>, b: Option<Json>): (r: Option<Json>)
    ensures Present(r) <==> Present(a) || Present(b)
    ensures r == a || r == b
  {
    if Present(a) then a else b
  }

  function Digit(d: nat): (c: char)
    requires d < 10
    ensures '0' <= c <= '9'
  {
    "0123456789"[d]
  }

  /** Decimal digits of a natural number, most significant first. */
  function Digits(n: nat): (r: string)
    ensures r != [] && forall i :: 0 <= i < |r| ==> '0' <= r[i] <= '9'
  {
    if n < 10 then [Digit(n)] else Digits(n / 10) + [Digit(n % 10)]
  }

  /** `String(v)`, as `+=` converts the left operand of a string concatenation. */
  function JsString(v: Option<Json>): string {
    match v
    case None => "undefined"
    case Some(Null) => "null"
    case Some(Bool(b)) => if b then "true" else "false"
    case Some(Num(n)) => if n < 0 then "-" + Digits(-n) else Digits(n)
    case Some(Str(s)) => s
    case Some(Obj(_, _)) => "[object Object]"
  }

  /** `note && note.length > 0`: a non-empty string. */
  predicate HasNote(note: Option<Json>) {
    note.Some? && note.value.Str? && note.value.s != ""
  }

  /** The party note after a member's non-empty note is appended to it. */
  function JoinNotes(party: Option<Json>, member: string): (r: string)
    requires member != ""
    ensures HasNote(party) ==> r == party.value.s + " --- " + member
    ensures party == Some(Str("")) ==> r == member
    ensures |member| <= |r| && r[|r| - |member|..] == member
  {
    (if HasNote(party) then party.value.s + " --- " else JsString(party)) + member
  }

  /** `obj[key] = v` where `v` may be `undefined`; an undefined result keeps
      the stored value. */
  function SetDefined(fields: seq<Field>, key: string, v: Option<Json>): seq<Field> {
    if v.Some? then Put(fields, key, v.value) else fields
  }

  /** `obj[key] = obj[key] || b`: the property is truthy exactly when it or
      `b` was, and no other property changes. */
  lemma OrAssign(fields: seq<Field>, key: string, b: Option<Json>)
    ensures var r := SetDefined(fields, key, JsOr(Lookup(fields, key), b));
      && (Present(Lookup(r, key)) <==> Present(Lookup(fields, key)) || Present(b))
      && (forall k :: k != key ==> Lookup(r, k) == Lookup(fields, k))
  {
  }

  /** `mergeItem`: ORs the flags and appends the member's note; reading a
      property of a `null` member throws (`None`). */
  function MergeItem(party: Json, member: Json): (r: Option<Json>)
    requires party.Obj?
    ensures r.None? <==> member.Null?
    ensures r.Some? ==> r.value.Obj? && r.value.proto == party.proto
    ensures r.Some? ==>
      (Present(Get(r.value, "wasFound")) <==> Present(Get(party, "wasFound")) || Present(Get(member, "wasFound")))
    ensures r.Some? ==>
      (Present(Get(r.value, "isPerfect")) <==> Present(Get(party, "isPerfect")) || Present(Get(member, "isPerfect")))
    ensures r.Some? && HasNote(Get(member, "note")) ==>
      Get(r.value, "note") == Some(Str(JoinNotes(Get(party, "note"), Get(member, "note").value.s)))
    ensures r.Some? && !HasNote(Get(member, "note")) ==> Get(r.value, "note") == Get(party, "note")
    ensures r.Some? ==> forall k :: k !in ItemKeys ==> Get(r.value, k) == Get(party, k)
  {
    if member.Null? then None
    else Some(Obj(party.proto, NoteFields(FlagFields(party.fields, member), member)))
  }

  /** The two OR assignments of `mergeItem`, `isPerfect` first. */
  function FlagFields(fields: seq<Field>, member: Json): (r: seq<Field>)
    ensures Present(Lookup(r, "wasFound")) <==> Present(Lookup(fields, "wasFound")) || Present(Get(member, "wasFound"))
    ensures Present(Lookup(r, "isPerfect")) <==> Present(Lookup(fields, "isPerfect")) || Present(Get(member, "isPerfect"))
    ensures forall k :: k != "wasFound" && k != "isPerfect" ==> Lookup(r, k) == Lookup(fields, k)
  {
    var withPerfect := SetDefined(fields, "isPerfect", JsOr(Lookup(fields, "isPerfect"), Get(member, "isPerfect")));
    OrAssign(fields, "isPerfect", Get(member, "isPerfect"));
    OrAssign(withPerfect, "wasFound", Get(member, "wasFound"));
    SetDefined(withPerfect, "wasFound", JsOr(Lookup(withPerfect, "wasFound"), Get(member, "wasFound")))
  }

  /** The note branch of `mergeItem`: a member's non-empty note is joined
      onto the party's note. */
  function NoteFields(fields: seq<Field>, member: Json): (r: seq<Field>)
    ensures HasNote(Get(member, "note")) ==>
      Lookup(r, "note") == Some(Str(JoinNotes(Lookup(fields, "note"), Get(member, "note").value.s)))
    ensures !HasNote(Get(member, "note")) ==> r == fields
    ensures forall k :: k != "note" ==> Lookup(r, k) == Lookup(fields, k)
  {
    var note := Get(member, "note");
    if HasNote(note) then Put(fields, "note", Str(JoinNotes(Lookup(fields, "note"), note.value.s)))
    else fields
  }

  /** `mergeData`: merges one member subtree into the party subtree and
      returns the new party subtree; `None` when the code throws (a
      property test on `null` or `undefined`, or a property write on a
      primitive in strict mode). */
  function MergeData(rule: LeafRule, party: Json, member: Json): Option<Json>
    decreases member, 0
  {
    if IsLeaf(rule, party) then MergeItem(party, member)
    else if Entries(member) == [] then Some(party)
    else if !party.Obj? then None
    else
      var fields :- MergeFields(rule, party.fields, member.fields);
      Some(Obj(party.proto, fields))
  }

  /** The `for ... in` loop of `mergeData`, over the member's keys in order. */
  function MergeFields(rule: LeafRule, acc: seq<Field>, member: seq<Field>): Option<seq<Field>>
    decreases member, 0
  {
    if member == [] then Some(acc)
    else
      var init :- MergeFields(rule, acc, member[..|member| - 1]);
      MergeKey(rule, init, member[|member| - 1])
  }

  /** One iteration of that loop, for the member property `f`. */
  function MergeKey(rule: LeafRule, acc: seq<Field>, f: Field): (r: Option<seq<Field>>)
    decreases f, 0
    ensures r.Some? ==> forall k :: HasKey(r.value, k) <==> HasKey(acc, k) || k == f.key
    ensures r.Some? ==> forall k :: k != f.key ==> Lookup(r.value, k) == Lookup(acc, k)
  {
    var v :- KeyResult(rule, Lookup(acc, f.key), f.value);
    PutKeys(acc, f.key, v);
    Some(Put(acc, f.key, v))
  }

  /** The value a party property holds after the member's value `mv` for the
      same key is merged into its value `pv` (`None` for a missing key). */
  function KeyResult(rule: LeafRule, pv: Option<Json>, mv: Json): Option<Json>
    decreases mv, 1
  {
    if pv.None? then Some(mv)                             // not in the party yet: copy
    else if IsPlainObject(mv) then MergeData(rule, pv.value, mv)  // nested object: recurse
    else if pv.value.Null? && !mv.Null? then Some(mv)     // fill a null
    else pv                                               // otherwise keep the party's
  }

  /** One member grail (`member.data` and the like may be undefined). */
  function MergeMember(rule: LeafRule, acc: Json, member: Option<Json>): Option<Json> {
    if member.Some? then MergeData(rule, acc, member.value)
    else if IsLeaf(rule, acc) then None
    else Some(acc)
  }

  /** The property names of the merged object are those of the party and of
      the member, and a property the member lacks keeps its party value. */
  lemma {:induction false} MergeFieldsFrame(rule: LeafRule, acc: seq<Field>, member: seq<Field>)
    ensures var r := MergeFields(rule, acc, member);
      r.Some? ==>
        && (forall k :: HasKey(r.value, k) <==> HasKey(acc, k) || HasKey(member, k))
        && (forall k :: !HasKey(member, k) ==> Lookup(r.value, k) == Lookup(acc, k))
  {
    if member != [] {
      var n := |member|;
      MergeFieldsFrame(rule, acc, member[..n - 1]);
      assert member == member[..n - 1] + [member[n - 1]];
      forall k
        ensures HasKey(member, k) <==> HasKey(member[..n - 1], k) || member[n - 1].key == k
      {
        HasKeySnoc(member[..n - 1], member[n - 1], k);
      }
    }
  }

  /** With distinct member names, each member property ends up as follows: a
      property the party lacks is copied; a plain-object value is merged
      recursively; any other value replaces only a party `null`. */
  lemma {:induction false} MergeFieldsKey(rule: LeafRule, acc: seq<Field>, member: seq<Field>, i: nat)
    requires UniqueKeys(member) && i < |member|
    ensures var r := MergeFields(rule, acc, member);
      var k, mv, pv := member[i].key, member[i].value, Lookup(acc, member[i].key);
      r.Some? ==>
        && Lookup(r.value, k) == KeyResult(rule, pv, mv)
        && (pv.None? ==> Lookup(r.value, k) == Some(mv))
        && (pv.Some? && IsPlainObject(mv) ==> Lookup(r.value, k) == MergeData(rule, pv.value, mv))
        && (pv.Some? && !IsPlainObject(mv) ==>
              Lookup(r.value, k) == if pv.value.Null? && !mv.Null? then Some(mv) else pv)
  {
    var n := |member|;
    var init := MergeFields(rule, acc, member[..n - 1]);
    if init.Some? {
      if i == n - 1 {
        var init := member[..n - 1];
        forall j | 0 <= j < n - 1
          ensures init[j].key != member[i].key
        {
          assert init[j] == member[j];
        }
        MergeFieldsFrame(rule, acc, member[..n - 1]);
      } else {
        UniqueKeysPrefix(member, n - 1);
        assert member[..n - 1][i] == member[i];
        MergeFieldsKey(rule, acc, member[..n - 1], i);
        assert member[n - 1].key != member[i].key;
      }
    }
  }

  lemma NewKeyNotInPrefix(acc: seq<Field>, member: seq<Field>)
    requires UniqueKeys(member) && member != []
    requires forall i :: 0 <= i < |member| ==> !HasKey(acc, member[i].key)
    ensures !HasKey(acc + member[..|member| - 1], member[|member| - 1].key)
  {
    var n := |member|;
    var both := acc + member[..n - 1];
    forall j | 0 <= j < |both|
      ensures both[j].key != member[n - 1].key
    {
      if j < |acc| {
        assert both[j] == acc[j];
      } else {
        assert both[j] == member[j - |acc|];
      }
    }
  }

  /** Member properties the party lacks are copied verbatim, appended in the
      member's order. */
  lemma {:induction false} MergeFieldsNewKeys(rule: LeafRule, acc: seq<Field>, member: seq<Field>)
    requires UniqueKeys(member)
    requires forall i :: 0 <= i < |member| ==> !HasKey(acc, member[i].key)
    ensures MergeFields(rule, acc, member) == Some(acc + member)
  {
    if member == [] {
      assert acc + member == acc;
    } else {
      var n := |member|;
      var init := member[..n - 1];
      var last := member[n - 1];
      UniqueKeysPrefix(member, n - 1);
      forall i | 0 <= i < |init|
        ensures !HasKey(acc, init[i].key)
      {
        assert init[i] == member[i];
      }
      MergeFieldsNewKeys(rule, acc, init);
      NewKeyNotInPrefix(acc, member);
      assert Lookup(acc + init, last.key) == None;
      assert KeyResult(rule, None, last.value) == Some(last.value);
      assert Put(acc + init, last.key, last.value) == (acc + init) + [last];
      assert MergeFields(rule, acc, member) == MergeKey(rule, acc + init, last);
      SplitLast(acc, member);
    }
  }

  /** The first member merged into the empty party object is copied as is,
      under either leaf rule. */
  lemma FirstMemberCopied(rule: LeafRule, m: Json)
    requires IsPlainObject(m) && UniqueKeys(m.fields)
    ensures MergeMember(rule, EmptyObject, Some(m)) == Some(m)
  {
    if m.fields != [] {
      MergeFieldsNewKeys(rule, [], m.fields);
      assert [] + m.fields == m.fields;
    }
  }

  /** Follows property names from a node; `null` once a name is missing. */
  function Descend(v: Json, path: seq<string>): Json
    decreases |path|
  {
    if path == [] then v
    else
      match Get(v, path[0])
      case None => Null
      case Some(c) => Descend(c, path[1..])
  }

  /** The item at the end of `path` is marked found. */
  predicate FoundAt(v: Json, path: seq<string>) {
    Present(Get(Descend(v, path), "wasFound"))
  }

  /** `path` leads through plain category objects to a plain item object, as
      in the checklist trees read back from the store. */
  predicate ItemPath(v: Json, path: seq<string>)
    decreases |path|
  {
    && IsPlainObject(v)
    && UniqueKeys(v.fields)
    && if path == [] then IsItem(v) && v.fields != []
       else !IsItem(v) && HasKey(v.fields, path[0]) && ItemPath(Lookup(v.fields, path[0]).value, path[1..])
  }

  /** With the structural leaf test, an item of the party view is found
      exactly when the party or the member has found it. */
  lemma {:induction false} StructuralMergeUnitesFound(p: Json, m: Json, path: seq<string>)
    decreases path
    requires ItemPath(p, path) && ItemPath(m, path)
    requires MergeData(StructuralItem, p, m).Some?
    ensures FoundAt(MergeData(StructuralItem, p, m).value, path) <==> FoundAt(p, path) || FoundAt(m, path)
  {
    if path != [] {
      var k := path[0];
      var i :| 0 <= i < |m.fields| && m.fields[i].key == k;
      LookupUnique(m.fields, i);
      var fields := MergeFields(StructuralItem, p.fields, m.fields);
      assert MergeData(StructuralItem, p, m) == Some(Obj(p.proto, fields.value));
      MergeFieldsKey(StructuralItem, p.fields, m.fields, i);
      MergeFieldsFrame(StructuralItem, p.fields, m.fields);
      var pv := Lookup(p.fields, k).value;
      var mv := m.fields[i].value;
      assert Lookup(fields.value, k) == MergeData(StructuralItem, pv, mv);
      StructuralMergeUnitesFound(pv, mv, path[1..]);
    }
  }

  /** Two members whose trees hold one plain item: Alice has not found it,
      Bob has. */
  const AliceItem: Json := Obj(PlainObject, [Field("wasFound", Bool(false))])
  const BobItem: Json := Obj(PlainObject, [Field("wasFound", Bool(true))])
  const AliceTree: Json := Obj(PlainObject, [Field("shako", AliceItem)])
  const BobTree: Json := Obj(PlainObject, [Field("shako", BobItem)])

  lemma MergeFieldsSingle(rule: LeafRule, acc: seq<Field>, f: Field)
    ensures MergeFields(rule, acc, [f]) == MergeKey(rule, acc, f)
  {
    assert [f][..0] == [];
  }

  /** The party view of Alice then Bob is Bob's tree merged into Alice's. */
  lemma AliceThenBob(rule: LeafRule)
    ensures MergeAll(rule, EmptyObject, [Some(AliceTree), Some(BobTree)]) == MergeData(rule, AliceTree, BobTree)
  {
    var trees := [Some(AliceTree), Some(BobTree)];
    assert trees[..1] == [Some(AliceTree)];
    assert [Some(AliceTree)][..0] == [];
    FirstMemberCopied(rule, AliceTree);
    assert MergeAll(rule, EmptyObject, trees[..1]) == Some(AliceTree);
  }

  /** As written, the plain item copied from Alice is never recognised as a
      leaf, so Bob's `wasFound: true` does not replace Alice's `false`. */
  lemma AsWrittenLosesLaterFind()
    ensures ItemPath(AliceTree, ["shako"]) && ItemPath(BobTree, ["shako"])
    ensures FoundAt(BobTree, ["shako"]) && !FoundAt(AliceTree, ["shako"])
    ensures MergeAll(InstanceOfItem, EmptyObject, [Some(AliceTree), Some(BobTree)]) == Some(AliceTree)
  {
    assert IsItem(AliceItem) by { assert AliceItem.fields[0].key in ItemKeys; }
    assert IsItem(BobItem) by { assert BobItem.fields[0].key in ItemKeys; }
    AliceThenBob(InstanceOfItem);
    MergeFieldsSingle(InstanceOfItem, AliceItem.fields, BobItem.fields[0]);
    assert Lookup(AliceItem.fields, "wasFound") == Some(Bool(false));
    assert KeyResult(InstanceOfItem, Some(Bool(false)), Bool(true)) == Some(Bool(false));
    assert Put(AliceItem.fields, "wasFound", Bool(false)) == AliceItem.fields;
    assert MergeKey(InstanceOfItem, AliceItem.fields, BobItem.fields[0]) == Some(AliceItem.fields);
    assert MergeData(InstanceOfItem, AliceItem, BobItem) == Some(AliceItem);
    MergeFieldsSingle(InstanceOfItem, AliceTree.fields, BobTree.fields[0]);
    assert Lookup(AliceTree.fields, "shako") == Some(AliceItem);
    assert KeyResult(InstanceOfItem, Some(AliceItem), BobItem) == Some(AliceItem);
    assert Put(AliceTree.fields, "shako", AliceItem) == AliceTree.fields;
  }

  /** With the structural leaf test the same party view shows the item found. */
  lemma StructuralKeepsLaterFind()
    ensures MergeAll(StructuralItem, EmptyObject, [Some(AliceTree), Some(BobTree)]) == Some(BobTree)
    ensures FoundAt(BobTree, ["shako"])
  {
    assert IsItem(AliceItem) by { assert AliceItem.fields[0].key in ItemKeys; }
    AliceThenBob(StructuralItem);
    assert Get(AliceItem, "isPerfect") == None && Get(BobItem, "isPerfect") == None;
    assert Get(AliceItem, "wasFound") == Some(Bool(false)) && Get(BobItem, "wasFound") == Some(Bool(true));
    assert Get(BobItem, "note") == None;
    assert Put(AliceItem.fields, "wasFound", Bool(true)) == BobItem.fields;
    assert MergeItem(AliceItem, BobItem) == Some(BobItem);
    assert MergeData(StructuralItem, AliceItem, BobItem) == Some(BobItem);
    MergeFieldsSingle(StructuralItem, AliceTree.fields, BobTree.fields[0]);
    assert Lookup(AliceTree.fields, "shako") == Some(AliceItem);
    assert KeyResult(StructuralItem, Some(AliceItem), BobItem) == Some(BobItem);
    assert Put(AliceTree.fields, "shako", BobItem) == BobTree.fields;
  }

  /** A member note is appended after the party note with the separator. */
  lemma NotesJoined()
    ensures var party := Obj(ItemInstance, [Field("wasFound", Bool(true)), Field("note", Str("Bob"))]);
      var member := Obj(PlainObject, [Field("wasFound", Bool(false)), Field("note", Str("Alice"))]);
      MergeItem(party, member) == Some(Obj(ItemInstance,
        [Field("wasFound", Bool(true)), Field("note", Str("Bob --- Alice"))]))
  {
    var pf := [Field("wasFound", Bool(true)), Field("note", Str("Bob"))];
    var member := Obj(PlainObject, [Field("wasFound", Bool(false)), Field("note", Str("Alice"))]);
    UnchangedFlags(pf, member);
    assert Get(member, "note") == Some(Str("Alice"));
    assert Lookup(pf, "note") == Some(Str("Bob"));
    assert JoinNotes(Some(Str("Bob")), "Alice") == "Bob --- Alice";
    assert Put(pf, "note", Str("Bob --- Alice")) == [Field("wasFound", Bool(true)), Field("note", Str("Bob --- Alice"))];
  }

  /** A member note appended to a party item that has no note follows the
      string `"undefined"`: `partyItem.note += memberItem.note` converts the
      undefined left operand. */
  lemma NoteAfterMissingNote()
    ensures var party := Obj(ItemInstance, [Field("wasFound", Bool(true))]);
      var member := Obj(PlainObject, [Field("note", Str("ear"))]);
      MergeItem(party, member) == Some(Obj(ItemInstance, [Field("wasFound", Bool(true)), Field("note", Str("undefinedear"))]))
  {
    var pf := [Field("wasFound", Bool(true))];
    var member := Obj(PlainObject, [Field("note", Str("ear"))]);
    UnchangedFlags(pf, member);
    assert Get(member, "note") == Some(Str("ear"));
    assert Lookup(pf, "note") == None;
    assert JoinNotes(None, "ear") == "undefinedear";
    assert Put(pf, "note", Str("undefinedear")) == [Field("wasFound", Bool(true)), Field("note", Str("undefinedear"))];
  }

  /** A party item already found and not perfect, merged with a member item
      that is not perfect, keeps its fields. */
  lemma UnchangedFlags(pf: seq<Field>, member: Json)
    requires pf != [] && pf[0] == Field("wasFound", Bool(true))
    requires Lookup(pf, "isPerfect") == None && Get(member, "isPerfect") == None
    ensures FlagFields(pf, member) == pf
  {
    assert Put(pf, "wasFound", Bool(true)) == [Field("wasFound", Bool(true))] + pf[1..] == pf;
  }

  // ---------------------------------------------------------------------
  // `mapGrailsToPartyGrailData`
  // ---------------------------------------------------------------------

  /** Merges the members' trees into `acc` in roster order; `None` once a
      merge throws. */
  function MergeAll(rule: LeafRule, acc: Json, trees: seq<Option<Json>>): Option<Json>
    decreases |trees|
  {
    if trees == [] then Some(acc)
    else
      var init :- MergeAll(rule, acc, trees[..|trees| - 1]);
      MergeMember(rule, init, trees[|trees| - 1])
  }

  /** A member with no saved tree leaves the party tree as it was. */
  lemma AbsentMemberContributesNothing(rule: LeafRule, acc: Json, trees: seq<Option<Json>>)
    requires MergeAll(rule, acc, trees).Some? && !IsLeaf(rule, MergeAll(rule, acc, trees).value)
    ensures MergeAll(rule, acc, trees + [None]) == MergeAll(rule, acc, trees)
  {
    assert (trees + [None])[..|trees|] == trees;
  }

  /** `updateCount += member.updateCount` from 0; `None` stands for `NaN`,
      which an absent count produces and which then persists. */
  function SumCounts(grails: seq<Account>): (r: Option<nat>)
    ensures r.Some? <==> forall i :: 0 <= i < |grails| ==> grails[i].updateCount.Some?
    ensures r.Some? ==> forall i :: 0 <= i < |grails| ==> grails[i].updateCount.value <= r.value
  {
    if grails == [] then Some(0)
    else
      var last := grails[|grails| - 1];
      var init := SumCounts(grails[..|grails| - 1]);
      assert forall i :: 0 <= i < |grails| - 1 ==> grails[..|grails| - 1][i] == grails[i];
      if init.Some? && last.updateCount.Some? then Some(init.value + last.updateCount.value) else None
  }

  function DataTrees(grails: seq<Account>): (r: seq<Option<Json>>)
    ensures |r| == |grails| && forall i :: 0 <= i < |grails| ==> r[i] == grails[i].data
  {
    seq(|grails|, i requires 0 <= i < |grails| => grails[i].data)
  }

  function EthTrees(grails: seq<Account>): (r: seq<Option<Json>>)
    ensures |r| == |grails| && forall i :: 0 <= i < |grails| ==> r[i] == grails[i].ethData
  {
    seq(|grails|, i requires 0 <= i < |grails| => grails[i].ethData)
  }

  function RunewordTrees(grails: seq<Account>): (r: seq<Option<Json>>)
    ensures |r| == |grails| && forall i :: 0 <= i < |grails| ==> r[i] == grails[i].runewordData
  {
    seq(|grails|, i requires 0 <= i < |grails| => grails[i].runewordData)
  }

  /** The read-only party grail built from the leader's record and the
      members' records; `None` when a merge throws. */
  function PartyView(rule: LeafRule, grail: Account, grails: seq<Account>): Option<Account> {
    var data :- MergeAll(rule, EmptyObject, DataTrees(grails));
    var eth :- MergeAll(rule, EmptyObject, EthTrees(grails));
    var runeword :- MergeAll(rule, EmptyObject, RunewordTrees(grails));
    Some(grail.(updateCount := SumCounts(grails), data := Some(data), ethData := Some(eth),
                runewordData := Some(runeword), readOnly := Some(true)))
  }

  lemma MergeAllStep(rule: LeafRule, acc: Json, trees: seq<Option<Json>>, i: nat)
    requires i < |trees| && MergeAll(rule, acc, trees[..i]).Some?
    ensures MergeAll(rule, acc, trees[..i + 1]) == MergeMember(rule, MergeAll(rule, acc, trees[..i]).value, trees[i])
  {
    assert trees[..i + 1][..i] == trees[..i];
  }

  lemma MergeAllFailStep(rule: LeafRule, acc: Json, trees: seq<Option<Json>>, i: nat)
    requires i < |trees| && MergeAll(rule, acc, trees[..i]).None?
    ensures MergeAll(rule, acc, trees[..i + 1]).None?
  {
    assert trees[..i + 1][..i] == trees[..i];
  }

  /** Once a merge has thrown, later members cannot undo it. */
  lemma {:induction false} MergeAllStaysFailed(rule: LeafRule, acc: Json, trees: seq<Option<Json>>, i: nat)
    requires i <= |trees| && MergeAll(rule, acc, trees[..i]).None?
    ensures MergeAll(rule, acc, trees).None?
    decreases |trees| - i
  {
    if i == |trees| {
      assert trees[..i] == trees;
    } else {
      MergeAllFailStep(rule, acc, trees, i);
      MergeAllStaysFailed(rule, acc, trees, i + 1);
    }
  }

  /** One `partyData.x = this.mergeData(partyData.x, member.x)` of the roster
      loop: merges tree `i` into the party tree built from the trees before it. */
  method MergeNext(rule: LeafRule, trees: seq<Option<Json>>, i: nat, acc: Json) returns (r: Option<Json>)
    requires i < |trees| && MergeAll(rule, EmptyObject, trees[..i]) == Some(acc)
    ensures r.Some? ==> MergeAll(rule, EmptyObject, trees[..i + 1]) == r
    ensures r.None? ==> MergeAll(rule, EmptyObject, trees).None?
  {
    MergeAllStep(rule, EmptyObject, trees, i);
    r := MergeMember(rule, acc, trees[i]);
    if r.None? {
      MergeAllStaysFailed(rule, EmptyObject, trees, i + 1);
    }
  }

  /** `partyData.updateCount += member.updateCount` for member `i`. */
  method AddCount(grails: seq<Account>, i: nat, count: Option<nat>) returns (c: Option<nat>)
    requires i < |grails| && count == SumCounts(grails[..i])
    ensures c == SumCounts(grails[..i + 1])
  {
    assert grails[..i + 1][..i] == grails[..i];
    var member := grails[i];
    c := if count.Some? && member.updateCount.Some? then Some(count.value + member.updateCount.value) else None;
  }

  /** The party view once all three trees are merged. */
  lemma PartyViewOf(rule: LeafRule, grail: Account, grails: seq<Account>, data: Json, eth: Json, runeword: Json)
    requires MergeAll(rule, EmptyObject, DataTrees(grails)) == Some(data)
    requires MergeAll(rule, EmptyObject, EthTrees(grails)) == Some(eth)
    requires MergeAll(rule, EmptyObject, RunewordTrees(grails)) == Some(runeword)
    ensures PartyView(rule, grail, grails) == Some(grail.(updateCount := SumCounts(grails), data := Some(data),
      ethData := Some(eth), runewordData := Some(runeword), readOnly := Some(true)))
  {
  }

  /** `mapGrailsToPartyGrailData`: one pass over the roster. */
  method MapGrailsToPartyGrailData(rule: LeafRule, grail: Account, grails: seq<Account>) returns (r: Option<Account>)
    ensures r == PartyView(rule, grail, grails)
  {
    var count: Option<nat> := Some(0);
    var data, eth, runeword := EmptyObject, EmptyObject, EmptyObject;
    for i := 0 to |grails|
      invariant count == SumCounts(grails[..i])
      invariant MergeAll(rule, EmptyObject, DataTrees(grails)[..i]) == Some(data)
      invariant MergeAll(rule, EmptyObject, EthTrees(grails)[..i]) == Some(eth)
      invariant MergeAll(rule, EmptyObject, RunewordTrees(grails)[..i]) == Some(runeword)
    {
      count := AddCount(grails, i, count);
      var d := MergeNext(rule, DataTrees(grails), i, data);
      if d.None? {
        return None;
      }
      var e := MergeNext(rule, EthTrees(grails), i, eth);
      if e.None? {
        return None;
      }
      var w := MergeNext(rule, RunewordTrees(grails), i, runeword);
      if w.None? {
        return None;
      }
      data, eth, runeword := d.value, e.value, w.value;
    }
    assert grails[..|grails|] == grails;
    assert DataTrees(grails)[..|grails|] == DataTrees(grails);
    assert EthTrees(grails)[..|grails|] == EthTrees(grails);
    assert RunewordTrees(grails)[..|grails|] == RunewordTrees(grails);
    PartyViewOf(rule, grail, grails, data, eth, runeword);
    r := Some(grail.(updateCount := count, data := Some(data), ethData := Some(eth),
                     runewordData := Some(runeword), readOnly := Some(true)));
  }

  /** The party view keeps the leader's identity and token, is read-only, and
      counts the members' updates. */
  lemma PartyViewShape(rule: LeafRule, grail: Account, grails: seq<Account>)
    ensures var r := PartyView(rule, grail, grails);
      r.Some? ==>
        && r.value.readOnly == Some(true)
        && r.value.address == grail.address && r.value.password == grail.password
        && r.value.token == grail.token && r.value.settings == grail.settings
        && r.value.partyData == grail.partyData && r.value.hasParty == grail.hasParty
        && (r.value.updateCount.Some? <==> forall i :: 0 <= i < |grails| ==> grails[i].updateCount.Some?)
  {
  }

  /** A party of one member shows that member's trees unchanged. */
  lemma PartyOfOne(rule: LeafRule, grail: Account, member: Account)
    requires member.data.Some? && IsPlainObject(member.data.value) && UniqueKeys(member.data.value.fields)
    requires member.ethData.Some? && IsPlainObject(member.ethData.value) && UniqueKeys(member.ethData.value.fields)
    requires member.runewordData.Some? && IsPlainObject(member.runewordData.value) && UniqueKeys(member.runewordData.value.fields)
    ensures var r := PartyView(rule, grail, [member]);
      && r.Some?
      && r.value.data == member.data && r.value.ethData == member.ethData
      && r.value.runewordData == member.runewordData
      && r.value.updateCount == member.updateCount
  {
    FirstMemberCopied(rule, member.data.value);
    FirstMemberCopied(rule, member.ethData.value);
    FirstMemberCopied(rule, member.runewordData.value);
    MergeAllStep(rule, EmptyObject, DataTrees([member]), 0);
    MergeAllStep(rule, EmptyObject, EthTrees([member]), 0);
    MergeAllStep(rule, EmptyObject, RunewordTrees([member]), 0);
    assert DataTrees([member])[..1] == DataTrees([member]);
    assert EthTrees([member])[..1] == EthTrees([member]);
    assert RunewordTrees([member])[..1] == RunewordTrees([member]);
    assert [member][..0] == [];
    assert SumCounts([member][..0]) == Some(0);
  }
}
