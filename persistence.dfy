/**
 * Snapshot defaulting of src/store/persistence.ts. JSON text stays abstract:
 * a stored or imported string is represented by what `JSON.parse` makes of it.
 */
module Persistence {
  import opened Wrappers
  import opened Domain

  /** A JSON value found under a key: `null`, a falsy value (`false`, `0`, `""`), or a value of the expected shape. */
  datatype Json<+T> = Null | Falsy | Given(value: T)

  /** The five top-level keys of a parsed object; `None` is a key the object does not have. */
  datatype Document = Document(
    profile: Option<Json<UserProfile>>,
    fixedExpenses: Option<Json<seq<FixedExpense>>>,
    temporaryExpenses: Option<Json<seq<TemporaryExpense>>>,
    expenses: Option<Json<seq<Expense>>>,
    monthlyGoals: Option<Json<seq<MonthlyGoal>>>)

  /** The outcome of `JSON.parse`: a syntax error, the literal `null`, another non-object value, or an object. */
  datatype Parsed = SyntaxError | NullDocument | Scalar | Object(doc: Document)

  /** What `localStorage.getItem(STORAGE_KEY)` yields: nothing, an access error, or a stored text. */
  datatype Stored = NothingStored | ReadFailed | Text(parsed: Parsed)

  /** The object `loadState` returns: the spread keeps whatever value a present key had, `null` included. */
  datatype LoadedState = LoadedState(
    profile: Json<UserProfile>,
    fixedExpenses: Json<seq<FixedExpense>>,
    temporaryExpenses: Json<seq<TemporaryExpense>>,
    expenses: Json<seq<Expense>>,
    monthlyGoals: Json<seq<MonthlyGoal>>)

  const InvalidFormat := "Formato de dados inválido"

  const StorageKey := "finny-data"

  /** A well-formed state as the JSON object it is stored as. */
  function FromState(s: PersistedState): LoadedState {
    LoadedState(
      if s.profile.Some? then Given(s.profile.value) else Null,
      Given(s.fixedExpenses), Given(s.temporaryExpenses), Given(s.expenses), Given(s.monthlyGoals))
  }

  /** `defaultState`. */
  const Defaults: LoadedState := FromState(DefaultState)

  /** `JSON.stringify` followed by `JSON.parse`: every key present. */
  function Encode(l: LoadedState): Parsed {
    Object(Document(Some(l.profile), Some(l.fixedExpenses), Some(l.temporaryExpenses), Some(l.expenses), Some(l.monthlyGoals)))
  }

  /** `{ ...defaultState, ...parsed }` for one key. */
  function Overlay<T>(key: Option<Json<T>>, default: Json<T>): Json<T> {
    if key.Some? then key.value else default
  }

  /** `value || fallback` for one key: a missing, `null` or falsy value gives the fallback. */
  function OrElse<T>(key: Option<Json<T>>, fallback: T): (r: T)
    ensures key.Some? && key.value.Given? ==> r == key.value.value
    ensures key.None? || !key.value.Given? ==> r == fallback
  {
    if key.Some? && key.value.Given? then key.value.value else fallback
  }

  /**
   * `loadState`: the defaults when nothing is stored, when reading or parsing
   * fails; otherwise the parsed keys over the defaults. Spreading `null` or a
   * non-object adds no key.
   */
  function LoadState(stored: Stored): (r: LoadedState)
    ensures stored.NothingStored? || stored.ReadFailed? ==> r == Defaults
    ensures stored.Text? && !stored.parsed.Object? ==> r == Defaults
    ensures stored.Text? && stored.parsed.Object? ==>
      var d := stored.parsed.doc;
      (d.profile.Some? ==> r.profile == d.profile.value) && (d.profile.None? ==> r.profile == Null) &&
      (d.fixedExpenses.Some? ==> r.fixedExpenses == d.fixedExpenses.value) &&
      (d.fixedExpenses.None? ==> r.fixedExpenses == Given([])) &&
      (d.temporaryExpenses.Some? ==> r.temporaryExpenses == d.temporaryExpenses.value) &&
      (d.temporaryExpenses.None? ==> r.temporaryExpenses == Given([])) &&
      (d.expenses.Some? ==> r.expenses == d.expenses.value) && (d.expenses.None? ==> r.expenses == Given([])) &&
      (d.monthlyGoals.Some? ==> r.monthlyGoals == d.monthlyGoals.value) &&
      (d.monthlyGoals.None? ==> r.monthlyGoals == Given([]))
  {
    match stored
    case NothingStored => Defaults
    case ReadFailed => Defaults
    case Text(parsed) =>
      match parsed
      case SyntaxError => Defaults
      case NullDocument => Defaults
      case Scalar => Defaults
      case Object(d) =>
        LoadedState(
          Overlay(d.profile, Defaults.profile),
          Overlay(d.fixedExpenses, Defaults.fixedExpenses),
          Overlay(d.temporaryExpenses, Defaults.temporaryExpenses),
          Overlay(d.expenses, Defaults.expenses),
          Overlay(d.monthlyGoals, Defaults.monthlyGoals))
  }

  /**
   * The state `importData` builds, or its error: a parse failure, and reading
   * a key of `null`, raise "Formato de dados inválido"; each missing, null or
   * falsy key becomes `null` (profile) or `[]` (collections).
   */
  function Normalize(parsed: Parsed): (r: Result<PersistedState, string>)
    ensures parsed.SyntaxError? || parsed.NullDocument? ==> r == Err(InvalidFormat)
    ensures parsed.Scalar? ==> r == Ok(DefaultState)
    ensures parsed.Object? ==>
      var d := parsed.doc;
      r.Ok? &&
      (r.value.profile.Some? <==> d.profile.Some? && d.profile.value.Given?) &&
      (r.value.profile.Some? ==> r.value.profile.value == d.profile.value.value) &&
      (d.fixedExpenses.None? || !d.fixedExpenses.value.Given? ==> r.value.fixedExpenses == []) &&
      (d.temporaryExpenses.None? || !d.temporaryExpenses.value.Given? ==> r.value.temporaryExpenses == []) &&
      (d.expenses.None? || !d.expenses.value.Given? ==> r.value.expenses == []) &&
      (d.monthlyGoals.None? || !d.monthlyGoals.value.Given? ==> r.value.monthlyGoals == []) &&
      (d.fixedExpenses.Some? && d.fixedExpenses.value.Given? ==> r.value.fixedExpenses == d.fixedExpenses.value.value) &&
      (d.temporaryExpenses.Some? && d.temporaryExpenses.value.Given? ==>
        r.value.temporaryExpenses == d.temporaryExpenses.value.value) &&
      (d.expenses.Some? && d.expenses.value.Given? ==> r.value.expenses == d.expenses.value.value) &&
      (d.monthlyGoals.Some? && d.monthlyGoals.value.Given? ==> r.value.monthlyGoals == d.monthlyGoals.value.value)
  {
    match parsed
    case SyntaxError => Err(InvalidFormat)
    case NullDocument => Err(InvalidFormat)
    case Scalar => Ok(DefaultState)
    case Object(d) =>
      Ok(PersistedState(
        if d.profile.Some? && d.profile.value.Given? then Some(d.profile.value.value) else None,
        OrElse(d.fixedExpenses, []),
        OrElse(d.temporaryExpenses, []),
        OrElse(d.expenses, []),
        OrElse(d.monthlyGoals, [])))
  }

  /** `localStorage` under `STORAGE_KEY`, holding the parsed form of the text written there. */
  class Storage {
    var item: Option<Parsed>

    constructor(initial: Option<Parsed>)
      ensures item == initial
    {
      item := initial;
    }

    /** What a read yields; `readFails` stands for `getItem` throwing. */
    function Read(readFails: bool): Stored
      reads this
    {
      if readFails then ReadFailed else if item.None? then NothingStored else Text(item.value)
    }

    /** `saveState`: writes the state; `writeFails` stands for `setItem` throwing, which is caught. */
    method SaveState(state: PersistedState, writeFails: bool)
      modifies this
      ensures item == if writeFails then old(item) else Some(Encode(FromState(state)))
    {
      if !writeFails {
        item := Some(Encode(FromState(state)));
      }
    }

    /** `clearState`. */
    method ClearState()
      modifies this
      ensures item.None?
    {
      item := None;
    }

    /** `loadState` read from this storage. */
    method Load(readFails: bool) returns (r: LoadedState)
      ensures r == LoadState(Read(readFails))
    {
      if readFails || item.None? {
        return Defaults;
      }
      r := LoadState(Text(item.value));
    }

    /** `exportData`: the loaded state, serialised. */
    method ExportData(readFails: bool) returns (r: Parsed)
      ensures r == Encode(LoadState(Read(readFails)))
    {
      var state := Load(readFails);
      r := Encode(state);
    }

    /** `importData`: builds the state and saves it on success; on an error nothing is written. */
    method ImportData(parsed: Parsed, writeFails: bool) returns (r: Result<PersistedState, string>)
      modifies this
      ensures r == Normalize(parsed)
      ensures r.Ok? && !writeFails ==> item == Some(Encode(FromState(r.value)))
      ensures r.Err? || writeFails ==> item == old(item)
    {
      r := Normalize(parsed);
      if r.Ok? {
        SaveState(r.value, writeFails);
      }
    }
  }

  /** Importing what a well-formed state serialises to gives that state back. */
  lemma {:induction false} ImportOfExport(s: PersistedState)
    ensures Normalize(Encode(FromState(s))) == Ok(s)
  {
  }

  /** Loading what was saved gives back the saved state, every key present. */
  lemma {:induction false} LoadOfSave(s: PersistedState)
    ensures LoadState(Text(Encode(FromState(s)))) == FromState(s)
  {
  }

  /** Exporting and importing again keeps the five fields whenever the loaded state is well formed. */
  lemma {:induction false} ExportThenImport(stored: Stored, s: PersistedState)
    requires LoadState(stored) == FromState(s)
    ensures Normalize(Encode(LoadState(stored))) == Ok(s)
  {
    ImportOfExport(s);
  }

  /** Normalising is idempotent: importing an import's result changes nothing. */
  lemma {:induction false} ImportIdempotent(parsed: Parsed)
    requires Normalize(parsed).Ok?
    ensures Normalize(Encode(FromState(Normalize(parsed).value))) == Normalize(parsed)
  {
    ImportOfExport(Normalize(parsed).value);
  }

  /**
   * The two defaulting rules differ on a key present with `null`: loading keeps
   * the `null`, importing replaces it with `[]`. On JSON `null` itself loading
   * gives the defaults while importing fails.
   */
  lemma {:induction false} NullKeyDiffers(d: Document)
    requires d.fixedExpenses == Some(Null)
    ensures LoadState(Text(Object(d))).fixedExpenses == Null
    ensures Normalize(Object(d)).Ok? && Normalize(Object(d)).value.fixedExpenses == []
    ensures LoadState(Text(NullDocument)) == Defaults && Normalize(NullDocument) == Err(InvalidFormat)
  {
  }

  /** A key missing from a loaded object takes its default, so an empty object loads as the defaults. */
  lemma {:induction false} EmptyObjectLoadsDefaults()
    ensures LoadState(Text(Object(Document(None, None, None, None, None)))) == Defaults
    ensures Normalize(Object(Document(None, None, None, None, None))) == Ok(DefaultState)
  {
  }
}
