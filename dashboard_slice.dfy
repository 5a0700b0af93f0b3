/**
 * The `dashboard` slice of the store: which database and time range are
 * shown, the auto-refresh setting, the active section, the selected
 * incident, a loading flag and an error. Each of its eight reducers writes
 * exactly one field.
 */
module DashboardSlice {
  import opened Wrappers
  import opened Records

  datatype DashboardState = DashboardState(
    selectedDb: string,
    timeRange: string,
    autoRefresh: string,
    activeSection: string,
    selectedIncident: Option<Incident>,
    isLoading: bool,
    error: Option<string>)

  /** `initialState`. */
  function InitialState(): (s: DashboardState)
    ensures s.selectedDb == "ORCL_PROD" && s.timeRange == "5h" && s.autoRefresh == "30s"
    ensures s.activeSection == "overview" && s.selectedIncident.None? && !s.isLoading && s.error.None?
  {
    DashboardState("ORCL_PROD", "5h", "30s", "overview", None, false, None)
  }

  datatype DashboardAction =
    | SetSelectedDb(db: string)
    | SetTimeRange(range: string)
    | SetAutoRefresh(refresh: string)
    | SetActiveSection(section: string)
    | SetSelectedIncident(incident: Option<Incident>)
    | SetLoading(loading: bool)
    | SetError(err: Option<string>)
    | ClearError

  datatype Field = SelectedDb | TimeRange | AutoRefresh | ActiveSection | SelectedIncident | IsLoading | Error

  /** The field an action writes. */
  function Writes(a: DashboardAction): Field {
    match a
    case SetSelectedDb(_) => SelectedDb
    case SetTimeRange(_) => TimeRange
    case SetAutoRefresh(_) => AutoRefresh
    case SetActiveSection(_) => ActiveSection
    case SetSelectedIncident(_) => SelectedIncident
    case SetLoading(_) => IsLoading
    case SetError(_) => Error
    case ClearError => Error
  }

  /** `s` and `t` agree on every field except `f`. */
  predicate AgreeExcept(s: DashboardState, t: DashboardState, f: Field) {
    && (f != SelectedDb ==> s.selectedDb == t.selectedDb)
    && (f != TimeRange ==> s.timeRange == t.timeRange)
    && (f != AutoRefresh ==> s.autoRefresh == t.autoRefresh)
    && (f != ActiveSection ==> s.activeSection == t.activeSection)
    && (f != SelectedIncident ==> s.selectedIncident == t.selectedIncident)
    && (f != IsLoading ==> s.isLoading == t.isLoading)
    && (f != Error ==> s.error == t.error)
  }

  /** The slice reducer: each action stores its payload in its own field only. */
  function Reduce(s: DashboardState, a: DashboardAction): (r: DashboardState)
    ensures AgreeExcept(s, r, Writes(a))
    ensures a.SetSelectedDb? ==> r.selectedDb == a.db
    ensures a.SetTimeRange? ==> r.timeRange == a.range
    ensures a.SetAutoRefresh? ==> r.autoRefresh == a.refresh
    ensures a.SetActiveSection? ==> r.activeSection == a.section
    ensures a.SetSelectedIncident? ==> r.selectedIncident == a.incident
    ensures a.SetLoading? ==> r.isLoading == a.loading
    ensures a.SetError? ==> r.error == a.err
    ensures a.ClearError? ==> r.error.None?
  {
    match a
    case SetSelectedDb(db) => s.(selectedDb := db)
    case SetTimeRange(range) => s.(timeRange := range)
    case SetAutoRefresh(refresh) => s.(autoRefresh := refresh)
    case SetActiveSection(section) => s.(activeSection := section)
    case SetSelectedIncident(incident) => s.(selectedIncident := incident)
    case SetLoading(loading) => s.(isLoading := loading)
    case SetError(err) => s.(error := err)
    case ClearError => s.(error := None)
  }

  /** Every reducer is a plain setter: applying it twice is applying it once. */
  lemma ReduceIdempotent(s: DashboardState, a: DashboardAction)
    ensures Reduce(Reduce(s, a), a) == Reduce(s, a)
  {
  }

  /** Of two actions on the same field, the later one wins. */
  lemma LastWriteWins(s: DashboardState, a: DashboardAction, b: DashboardAction)
    requires Writes(a) == Writes(b)
    ensures Reduce(Reduce(s, a), b) == Reduce(s, b)
  {
  }

  /** Actions on different fields commute. */
  lemma DistinctFieldsCommute(s: DashboardState, a: DashboardAction, b: DashboardAction)
    requires Writes(a) != Writes(b)
    ensures Reduce(Reduce(s, a), b) == Reduce(Reduce(s, b), a)
  {
  }

  /** `clearError` is `setError(null)`, and it undoes any `setError`. */
  lemma ClearErrorUndoesSetError(s: DashboardState, message: string)
    ensures Reduce(s, ClearError) == Reduce(s, SetError(None))
    ensures Reduce(Reduce(s, SetError(Some(message))), ClearError) == Reduce(s, ClearError)
  {
  }

  /** The slice as its reducers mutate it. */
  class Dashboard {
    var selectedDb: string
    var timeRange: string
    var autoRefresh: string
    var activeSection: string
    var selectedIncident: Option<Incident>
    var isLoading: bool
    var error: Option<string>

    function Snapshot(): DashboardState
      reads this
    {
      DashboardState(selectedDb, timeRange, autoRefresh, activeSection, selectedIncident, isLoading, error)
    }

    constructor ()
      ensures Snapshot() == InitialState()
    {
      selectedDb, timeRange, autoRefresh, activeSection := "ORCL_PROD", "5h", "30s", "overview";
      selectedIncident, isLoading, error := None, false, None;
    }

    method SetSelectedDb(db: string)
      modifies this
      ensures Snapshot() == Reduce(old(Snapshot()), DashboardAction.SetSelectedDb(db))
    {
      selectedDb := db;
    }

    method SetTimeRange(range: string)
      modifies this
      ensures Snapshot() == Reduce(old(Snapshot()), DashboardAction.SetTimeRange(range))
    {
      timeRange := range;
    }

    method SetAutoRefresh(refresh: string)
      modifies this
      ensures Snapshot() == Reduce(old(Snapshot()), DashboardAction.SetAutoRefresh(refresh))
    {
      autoRefresh := refresh;
    }

    method SetActiveSection(section: string)
      modifies this
      ensures Snapshot() == Reduce(old(Snapshot()), DashboardAction.SetActiveSection(section))
    {
      activeSection := section;
    }

    method SetSelectedIncident(incident: Option<Incident>)
      modifies this
      ensures Snapshot() == Reduce(old(Snapshot()), DashboardAction.SetSelectedIncident(incident))
    {
      selectedIncident := incident;
    }

    method SetLoading(loading: bool)
      modifies this
      ensures Snapshot() == Reduce(old(Snapshot()), DashboardAction.SetLoading(loading))
    {
      isLoading := loading;
    }

    method SetError(err: Option<string>)
      modifies this
      ensures Snapshot() == Reduce(old(Snapshot()), DashboardAction.SetError(err))
    {
      error := err;
    }

    method ClearError()
      modifies this
      ensures Snapshot() == Reduce(old(Snapshot()), DashboardAction.ClearError)
    {
      error := None;
    }
  }
}
