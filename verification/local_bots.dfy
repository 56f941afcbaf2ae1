/** The browser-resident bot store of src/utils/localBots.ts: a list of bot
    records kept as one JSON array under a single storage key, with lookup,
    upsert and delete. The JSON encoding is taken to round-trip exactly, so
    the stored array is modelled as the sequence itself; the ISO timestamp
    and the millisecond clock are parameters. */
module LocalBots {
  import opened Wrappers
  import opened Seqs
  import JsText

  datatype Status = Active | Inactive | Draft

  /** The optional messaging and AI configuration of a bot; every key may be absent. */
  datatype BotConfig = BotConfig(
    modelName: Option<string>,
    subModelName: Option<string>,
    apiKey: Option<string>,
    whatsappAccessToken: Option<string>,
    phoneNumberId: Option<string>,
    phoneNumber: Option<string>)

  /** One stored bot record (`LocalBot`). */
  datatype LocalBot = LocalBot(
    id: string,
    projectName: string,
    userId: string,
    description: string,
    status: Status,
    createdAt: string,
    updatedAt: Option<string>,
    verifyToken: Option<string>,
    config: Option<BotConfig>)

  /** The argument of `saveBot`: a record without `id`, `created_at` and
      `status`, plus an optional `id`. `None` is a key the caller left out. */
  datatype BotInput = BotInput(
    id: Option<string>,
    projectName: string,
    userId: string,
    description: string,
    updatedAt: Option<string>,
    verifyToken: Option<string>,
    config: Option<BotConfig>)

  /** The browser state the store sees: whether a `window` (and so
      `localStorage`) exists, and the array stored under the key, if any. */
  datatype Storage = Storage(hasWindow: bool, saved: Option<seq<LocalBot>>)

  /** Writing to `localStorage` without a window throws. */
  datatype StorageError = StorageUnavailable

  /** What `saveBot` leaves behind and returns. */
  datatype Saved = Saved(store: Storage, bot: LocalBot)

  function BotId(b: LocalBot): string
  {
    b.id
  }

  /** Some record of `bots` has identifier `id`. */
  predicate HasId(bots: seq<LocalBot>, id: string)
  {
    exists j :: 0 <= j < |bots| && bots[j].id == id
  }

  /** Index `i` holds the first record of `bots` with identifier `id`. */
  predicate IsFirstMatch(bots: seq<LocalBot>, i: int, id: string)
  {
    && 0 <= i < |bots|
    && bots[i].id == id
    && forall j :: 0 <= j < i ==> bots[j].id != id
  }

  /** No two records share an identifier. */
  predicate UniqueIds(bots: seq<LocalBot>)
  {
    forall i, j :: 0 <= i < j < |bots| ==> bots[i].id != bots[j].id
  }

  /** `getBots()`: the stored array, or the empty list when there is no
      window or nothing stored. */
  function GetBots(st: Storage): (bots: seq<LocalBot>)
    ensures !st.hasWindow || st.saved.None? ==> bots == []
    ensures st.hasWindow && st.saved.Some? ==> bots == st.saved.value
  {
    if !st.hasWindow then []
    else match st.saved
      case None => []
      case Some(b) => b
  }

  /** `localStorage.setItem(BOTS_STORAGE_KEY, JSON.stringify(bots))`. */
  function Write(st: Storage, bots: seq<LocalBot>): (r: Result<Storage, StorageError>)
    ensures r.Success? <==> st.hasWindow
    ensures r.Success? ==> GetBots(r.value) == bots
    ensures r.Success? ==> r.value.hasWindow
  {
    if st.hasWindow then Success(st.(saved := Some(bots))) else Failure(StorageUnavailable)
  }

  /** `findIndex(b => b.id === id)`, with `None` for -1. */
  function FindIndex(bots: seq<LocalBot>, id: string): (r: Option<nat>)
    ensures r.Some? ==> IsFirstMatch(bots, r.value, id)
    ensures r.None? <==> !HasId(bots, id)
  {
    if bots == [] then None
    else if bots[0].id == id then Some(0)
    else match FindIndex(bots[1..], id)
      case None =>
        assert forall j :: 1 <= j < |bots| ==> bots[j] == bots[1..][j - 1];
        None
      case Some(i) =>
        assert forall j :: 1 <= j <= i ==> bots[j] == bots[1..][j - 1];
        Some(i + 1)
  }

  /** The first match is unique. */
  lemma FirstMatchUnique(bots: seq<LocalBot>, i: int, k: int, id: string)
    requires IsFirstMatch(bots, i, id) && IsFirstMatch(bots, k, id)
    ensures i == k
  {
  }

  /** `getBot(id)`: the first stored record with identifier `id`, if any. */
  function GetBot(st: Storage, id: string): (r: Option<LocalBot>)
    ensures r.Some? <==> HasId(GetBots(st), id)
    ensures r.Some? ==> exists i :: IsFirstMatch(GetBots(st), i, id) && GetBots(st)[i] == r.value
  {
    var bots := GetBots(st);
    match FindIndex(bots, id)
    case None => None
    case Some(i) => Some(bots[i])
  }

  /** An optional key under object spread `{...base, ...patch}`: the patch's
      key when it carries one, otherwise the base's. */
  function Overlay<T>(patch: Option<T>, base: Option<T>): Option<T>
  {
    if patch.Some? then patch else base
  }

  /** The record the update branch stores: `{...existing, ...input, updated_at: now}`.
      Keys the input carries replace the existing ones; absent keys keep them. */
  function Merge(existing: LocalBot, input: BotInput, now: string): (r: LocalBot)
    ensures r.id == existing.id && r.createdAt == existing.createdAt && r.status == existing.status
    ensures r.projectName == input.projectName && r.userId == input.userId && r.description == input.description
    ensures r.updatedAt == Some(now)
    ensures input.verifyToken.Some? ==> r.verifyToken == input.verifyToken
    ensures input.verifyToken.None? ==> r.verifyToken == existing.verifyToken
    ensures input.config.Some? ==> r.config == input.config
    ensures input.config.None? ==> r.config == existing.config
  {
    existing.(
      projectName := input.projectName,
      userId := input.userId,
      description := input.description,
      updatedAt := Some(now),
      verifyToken := Overlay(input.verifyToken, existing.verifyToken),
      config := Overlay(input.config, existing.config))
  }

  /** The identifier generated for a new record when none is supplied: `bot-${Date.now()}`. */
  function GeneratedId(ms: nat): (id: string)
    ensures "bot-" <= id && id != ""
    ensures id[4..] == JsText.Decimal(ms)
  {
    "bot-" + JsText.Decimal(ms)
  }

  /** The identifier the create branch gives a new record: `bot.id || bot-<ms>`. */
  function NewId(input: BotInput, ms: nat): (id: string)
    ensures id != ""
    ensures JsText.Truthy(input.id) ==> id == input.id.value
    ensures !JsText.Truthy(input.id) ==> id == GeneratedId(ms)
  {
    JsText.OrElse(input.id, GeneratedId(ms))
  }

  /** The record the create branch appends: `{...input, id, created_at: now, status: 'Draft'}`. */
  function NewBot(input: BotInput, now: string, ms: nat): (r: LocalBot)
    ensures r.id != "" && r.status == Draft && r.createdAt == now
    ensures JsText.Truthy(input.id) ==> r.id == input.id.value
    ensures !JsText.Truthy(input.id) ==> r.id == GeneratedId(ms)
    ensures r.projectName == input.projectName && r.userId == input.userId && r.description == input.description
    ensures r.updatedAt == input.updatedAt && r.verifyToken == input.verifyToken && r.config == input.config
  {
    LocalBot(
      id := NewId(input, ms),
      projectName := input.projectName,
      userId := input.userId,
      description := input.description,
      status := Draft,
      createdAt := now,
      updatedAt := input.updatedAt,
      verifyToken := input.verifyToken,
      config := input.config)
  }

  /** Whether `saveBot` takes its update branch: a truthy id that is stored. */
  function UpdateIndex(bots: seq<LocalBot>, input: BotInput): (r: Option<nat>)
    ensures r.Some? <==> JsText.Truthy(input.id) && HasId(bots, input.id.value)
    ensures r.Some? ==> IsFirstMatch(bots, r.value, input.id.value)
  {
    if JsText.Truthy(input.id) then FindIndex(bots, input.id.value) else None
  }

  /** `saveBot(bot)` at ISO time `now` and clock reading `ms`: merge into the
      first record with the supplied id, or append a new Draft record. */
  function SaveBot(st: Storage, input: BotInput, now: string, ms: nat): (r: Result<Saved, StorageError>)
    // every path ends in a write, which throws without a window
    ensures r.Success? <==> st.hasWindow
    ensures r.Failure? ==> r.error == StorageUnavailable
    // update branch: same length, only the first match changes, and it keeps
    // its id, creation time and status while taking the supplied fields
    ensures r.Success? && UpdateIndex(GetBots(st), input).Some? ==>
      var before, after, i := GetBots(st), GetBots(r.value.store), UpdateIndex(GetBots(st), input).value;
      && |after| == |before|
      && after[i] == r.value.bot
      && (forall j :: 0 <= j < |before| && j != i ==> after[j] == before[j])
      && r.value.bot.id == before[i].id == input.id.value
      && r.value.bot.createdAt == before[i].createdAt
      && r.value.bot.status == before[i].status
      && r.value.bot.projectName == input.projectName
      && r.value.bot.userId == input.userId
      && r.value.bot.description == input.description
      && r.value.bot.verifyToken == Overlay(input.verifyToken, before[i].verifyToken)
      && r.value.bot.config == Overlay(input.config, before[i].config)
      && r.value.bot.updatedAt == Some(now)
    // create branch: exactly one Draft record appended at the end
    ensures r.Success? && UpdateIndex(GetBots(st), input).None? ==>
      var before, after := GetBots(st), GetBots(r.value.store);
      && |after| == |before| + 1
      && after[..|before|] == before
      && after[|before|] == r.value.bot
      && r.value.bot.id == NewId(input, ms)
      && r.value.bot.status == Draft
      && r.value.bot.createdAt == now
      && r.value.bot.projectName == input.projectName
      && r.value.bot.userId == input.userId
      && r.value.bot.description == input.description
      && r.value.bot.updatedAt == input.updatedAt
      && r.value.bot.verifyToken == input.verifyToken
      && r.value.bot.config == input.config
  {
    var bots := GetBots(st);
    var (next, bot) :=
      match UpdateIndex(bots, input)
      case Some(i) =>
        var updated := Merge(bots[i], input, now);
        (bots[i := updated], updated)
      case None =>
        var created := NewBot(input, now, ms);
        (bots + [created], created);
    match Write(st, next)
    case Success(written) => Success(Saved(written, bot))
    case Failure(e) => Failure(e)
  }

  /** `deleteBot(id)`: drop every record with identifier `id`, writing only
      when something was dropped; the flag says whether anything was. */
  function DeleteBot(st: Storage, id: string): (r: (Storage, bool))
    ensures r.1 <==> HasId(GetBots(st), id)
    ensures !HasId(GetBots(r.0), id)
    ensures forall b :: b in GetBots(r.0) <==> b in GetBots(st) && b.id != id
    ensures GetBots(r.0) == Without(GetBots(st), BotId, id)
    ensures !r.1 ==> r.0 == st
    ensures r.1 ==> r.0 == st.(saved := Some(Without(GetBots(st), BotId, id)))
  {
    var bots := GetBots(st);
    var kept := Without(bots, BotId, id);
    if |kept| < |bots| then
      var w := Write(st, kept);
      assert w.Success?;
      assert forall j :: 0 <= j < |kept| ==> kept[j] in kept;
      (w.value, true)
    else
      WithoutNoMatch(bots, BotId, id);
      (st, false)
  }

  /** After a save, `getBot` on the returned id finds the returned record,
      unless the save created a record whose generated id was already
      stored (a millisecond collision): then the older record shadows it. */
  lemma {:induction false} SaveThenGet(st: Storage, input: BotInput, now: string, ms: nat)
    requires st.hasWindow
    requires JsText.Truthy(input.id) || !HasId(GetBots(st), GeneratedId(ms))
    ensures SaveBot(st, input, now, ms).Success?
    ensures var r := SaveBot(st, input, now, ms).value;
            GetBot(r.store, r.bot.id) == Some(r.bot)
  {
    var before := GetBots(st);
    var r := SaveBot(st, input, now, ms).value;
    var after := GetBots(r.store);
    match UpdateIndex(before, input)
    case Some(i) =>
      assert IsFirstMatch(after, i, r.bot.id);
      var k := FindIndex(after, r.bot.id).value;
      FirstMatchUnique(after, i, k, r.bot.id);
    case None =>
      assert !HasId(before, r.bot.id);
      assert forall j :: 0 <= j < |before| ==> after[j] == before[j];
      assert IsFirstMatch(after, |before|, r.bot.id);
      var k := FindIndex(after, r.bot.id).value;
      FirstMatchUnique(after, |before|, k, r.bot.id);
  }

  /** A save keeps identifiers unique, given that a generated id is fresh;
      an update keeps every id and a create adds one not yet stored. */
  lemma SavePreservesUniqueIds(st: Storage, input: BotInput, now: string, ms: nat)
    requires st.hasWindow
    requires UniqueIds(GetBots(st))
    requires JsText.Truthy(input.id) || !HasId(GetBots(st), GeneratedId(ms))
    ensures UniqueIds(GetBots(SaveBot(st, input, now, ms).value.store))
  {
    var before := GetBots(st);
    var r := SaveBot(st, input, now, ms).value;
    var after := GetBots(r.store);
    match UpdateIndex(before, input)
    case Some(i) =>
      assert forall j :: 0 <= j < |after| ==> after[j].id == before[j].id;
    case None =>
      assert !HasId(before, r.bot.id);
      assert forall j :: 0 <= j < |before| ==> after[j] == before[j];
  }

  /** Removing records keeps identifiers unique. */
  lemma {:induction false} WithoutKeepsUniqueIds(bots: seq<LocalBot>, id: string)
    requires UniqueIds(bots)
    ensures UniqueIds(Without(bots, BotId, id))
    decreases |bots|
  {
    if bots != [] {
      var tail := bots[1..];
      assert UniqueIds(tail) by {
        forall i, j | 0 <= i < j < |tail| ensures tail[i].id != tail[j].id {
          assert tail[i] == bots[i + 1] && tail[j] == bots[j + 1];
        }
      }
      WithoutKeepsUniqueIds(tail, id);
      var rest := Without(tail, BotId, id);
      if bots[0].id != id {
        forall j | 0 <= j < |rest| ensures rest[j].id != bots[0].id {
          assert rest[j] in tail;
        }
        assert Without(bots, BotId, id) == [bots[0]] + rest;
      }
    }
  }

  /** `deleteBot` keeps identifiers unique. */
  lemma DeletePreservesUniqueIds(st: Storage, id: string)
    requires UniqueIds(GetBots(st))
    ensures UniqueIds(GetBots(DeleteBot(st, id).0))
  {
    WithoutKeepsUniqueIds(GetBots(st), id);
  }

  /** Creating a record under a fresh id and deleting it again gives back
      the stored list, and the delete reports a removal. */
  lemma {:induction false} CreateThenDelete(st: Storage, input: BotInput, now: string, ms: nat)
    requires st.hasWindow
    requires !HasId(GetBots(st), NewId(input, ms))
    ensures SaveBot(st, input, now, ms).Success?
    ensures var r := SaveBot(st, input, now, ms).value;
            var d := DeleteBot(r.store, r.bot.id);
            d.1 && GetBots(d.0) == GetBots(st)
  {
    var before := GetBots(st);
    assert UpdateIndex(before, input).None?;
    var r := SaveBot(st, input, now, ms).value;
    var after := GetBots(r.store);
    assert after == before + [r.bot];
    WithoutConcat(before, [r.bot], BotId, r.bot.id);
    WithoutNoMatch(before, BotId, r.bot.id);
    assert Without([r.bot], BotId, r.bot.id) == [];
    assert HasId(after, r.bot.id) by {
      assert after[|before|].id == r.bot.id;
    }
  }

  /** Saves without an id at different clock readings generate different ids. */
  lemma GeneratedIdsDistinct(ms1: nat, ms2: nat)
    requires ms1 != ms2
    ensures GeneratedId(ms1) != GeneratedId(ms2)
  {
    assert JsText.DigitsValue(GeneratedId(ms1)[4..]) == ms1;
    assert JsText.DigitsValue(GeneratedId(ms2)[4..]) == ms2;
  }

  /** Deleting an id that is not stored reports no removal and writes nothing. */
  lemma DeleteAbsentIsNoOp(st: Storage, id: string)
    requires !HasId(GetBots(st), id)
    ensures DeleteBot(st, id) == (st, false)
  {
  }
}
