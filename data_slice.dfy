/**
 * The `data` slice of the store: the four feeds the dashboard fetches
 * (incidents, CPU metrics, storage health, blocking sessions), each with a
 * loading flag and an error. Every fetch goes pending, then fulfilled or
 * rejected; `clearErrors` drops all four errors.
 *
 * DataStore is the slice as its reducers mutate it; Reduce is the same
 * transition on values, and the lemmas below are about Reduce.
 */
module DataSlice {
  import opened Wrappers
  import opened Records

  /** The four fetches, named after their keys in `loading` and `errors`. */
  datatype Category = IncidentsFeed | CpuMetrics | Storage | Blocking

  /** An object with one entry per category (`loading`, `errors`). */
  datatype PerCategory<T> = PerCategory(incidents: T, cpuMetrics: T, storage: T, blocking: T)
  {
    function Get(c: Category): T {
      match c
      case IncidentsFeed => incidents
      case CpuMetrics => cpuMetrics
      case Storage => storage
      case Blocking => blocking
    }

    /** `obj[c] = v`: the entry for `c` becomes `v`, the others stay. */
    function Set(c: Category, v: T): (r: PerCategory<T>)
      ensures r.Get(c) == v
      ensures forall d :: d != c ==> r.Get(d) == Get(d)
    {
      match c
      case IncidentsFeed => this.(incidents := v)
      case CpuMetrics => this.(cpuMetrics := v)
      case Storage => this.(storage := v)
      case Blocking => this.(blocking := v)
    }
  }

  function AllCategories<T>(v: T): (r: PerCategory<T>)
    ensures forall c :: r.Get(c) == v
  {
    PerCategory(v, v, v, v)
  }

  /** What a fulfilled fetch carries, one shape per category. */
  datatype Payload =
    | IncidentsData(incidents: seq<Incident>)
    | CpuData(sessionCPU: seq<SessionSample>, sqlQueryCPU: seq<SqlQuery>)
    | StorageData(tablespaces: seq<Tablespace>, waitClassData: seq<WaitClassItem>)
    | BlockingData(nodes: seq<BlockingNode>)

  function CategoryOf(p: Payload): Category {
    match p
    case IncidentsData(_) => IncidentsFeed
    case CpuData(_, _) => CpuMetrics
    case StorageData(_, _) => Storage
    case BlockingData(_) => Blocking
  }

  datatype DataState = DataState(
    incidents: seq<Incident>,
    sessionCPU: seq<SessionSample>,
    sqlQueryCPU: seq<SqlQuery>,
    blockingNodes: seq<BlockingNode>,
    tablespaces: seq<Tablespace>,
    waitClassData: seq<WaitClassItem>,
    loading: PerCategory<bool>,
    errors: PerCategory<Option<string>>)

  /** The fields a category's fetch fills, read back as its payload. */
  function DataOf(s: DataState, c: Category): (p: Payload)
    ensures CategoryOf(p) == c
  {
    match c
    case IncidentsFeed => IncidentsData(s.incidents)
    case CpuMetrics => CpuData(s.sessionCPU, s.sqlQueryCPU)
    case Storage => StorageData(s.tablespaces, s.waitClassData)
    case Blocking => BlockingData(s.blockingNodes)
  }

  /** Every feed empty, nothing loading, no errors. */
  function InitialState(): (s: DataState)
    ensures forall c :: !s.loading.Get(c) && s.errors.Get(c).None?
    ensures s.incidents == [] && s.sessionCPU == [] && s.sqlQueryCPU == []
    ensures s.blockingNodes == [] && s.tablespaces == [] && s.waitClassData == []
  {
    DataState([], [], [], [], [], [], AllCategories(false), AllCategories(None))
  }

  /** The slice's actions: `clearErrors` and the three outcomes of each fetch. */
  datatype DataAction =
    | ClearErrors
    | Pending(category: Category)
    | Fulfilled(payload: Payload)
    | Rejected(category: Category, message: string)

  /** The category an action is about; `clearErrors` concerns all of them. */
  function Concerns(a: DataAction): Option<Category> {
    match a
    case ClearErrors => None
    case Pending(c) => Some(c)
    case Fulfilled(p) => Some(CategoryOf(p))
    case Rejected(c, _) => Some(c)
  }

  /** The payload's fields replace the ones its category fills, and nothing else. */
  function Store(s: DataState, p: Payload): (r: DataState)
    ensures DataOf(r, CategoryOf(p)) == p
    ensures forall c :: c != CategoryOf(p) ==> DataOf(r, c) == DataOf(s, c)
    ensures r.loading == s.loading && r.errors == s.errors
  {
    match p
    case IncidentsData(xs) => s.(incidents := xs)
    case CpuData(sessions, queries) => s.(sessionCPU := sessions, sqlQueryCPU := queries)
    case StorageData(spaces, waits) => s.(tablespaces := spaces, waitClassData := waits)
    case BlockingData(nodes) => s.(blockingNodes := nodes)
  }

  /**
   * The slice reducer. Pending raises the flag and clears the error; fulfilled
   * lowers the flag and stores the data, leaving the error as it is; rejected
   * lowers the flag and records the message, leaving the data as it is.
   */
  function Reduce(s: DataState, a: DataAction): (r: DataState)
    ensures a.ClearErrors? ==>
      forall c :: r.errors.Get(c).None? && r.loading.Get(c) == s.loading.Get(c) && DataOf(r, c) == DataOf(s, c)
    ensures a.Pending? ==>
      r.loading.Get(a.category) && r.errors.Get(a.category).None? && DataOf(r, a.category) == DataOf(s, a.category)
    ensures a.Fulfilled? ==> var c := CategoryOf(a.payload);
      !r.loading.Get(c) && r.errors.Get(c) == s.errors.Get(c) && DataOf(r, c) == a.payload
    ensures a.Rejected? ==>
      !r.loading.Get(a.category) && r.errors.Get(a.category) == Some(a.message)
      && DataOf(r, a.category) == DataOf(s, a.category)
  {
    match a
    case ClearErrors => s.(errors := AllCategories(None))
    case Pending(c) => s.(loading := s.loading.Set(c, true), errors := s.errors.Set(c, None))
    case Fulfilled(p) => Store(s, p).(loading := s.loading.Set(CategoryOf(p), false))
    case Rejected(c, m) => s.(loading := s.loading.Set(c, false), errors := s.errors.Set(c, Some(m)))
  }

  /** The data, flag and error of a category together. */
  predicate SameCategory(s: DataState, t: DataState, c: Category) {
    DataOf(s, c) == DataOf(t, c) && s.loading.Get(c) == t.loading.Get(c) && s.errors.Get(c) == t.errors.Get(c)
  }

  /** A fetch's actions never touch another category's data, flag or error. */
  lemma CategoriesIsolated(s: DataState, a: DataAction, c: Category)
    requires Concerns(a).Some? && Concerns(a).value != c
    ensures SameCategory(s, Reduce(s, a), c)
  {
  }

  /** A fetch that succeeds ends with its data stored, not loading and no error. */
  lemma PendingThenFulfilled(s: DataState, p: Payload)
    ensures var r := Reduce(Reduce(s, Pending(CategoryOf(p))), Fulfilled(p));
      var c := CategoryOf(p);
      DataOf(r, c) == p && !r.loading.Get(c) && r.errors.Get(c).None?
  {
  }

  /** A fetch that fails ends not loading, with its message, and the data it had before. */
  lemma PendingThenRejected(s: DataState, c: Category, message: string)
    ensures var r := Reduce(Reduce(s, Pending(c)), Rejected(c, message));
      DataOf(r, c) == DataOf(s, c) && !r.loading.Get(c) && r.errors.Get(c) == Some(message)
  {
  }

  /** A new fetch clears the previous failure's message. */
  lemma RetryClearsError(s: DataState, c: Category, message: string)
    ensures Reduce(Reduce(Reduce(s, Pending(c)), Rejected(c, message)), Pending(c)).errors.Get(c).None?
  {
  }

  /** Clearing errors twice is clearing them once. */
  lemma ClearErrorsIdempotent(s: DataState)
    ensures Reduce(Reduce(s, ClearErrors), ClearErrors) == Reduce(s, ClearErrors)
  {
  }

  /** From the initial state, a fetch of one feed leaves the other feeds in the initial state. */
  lemma FirstFetchIsolated(p: Payload, c: Category)
    requires c != CategoryOf(p)
    ensures var s := InitialState();
      SameCategory(s, Reduce(Reduce(s, Pending(CategoryOf(p))), Fulfilled(p)), c)
  {
    var s := InitialState();
    CategoriesIsolated(s, Pending(CategoryOf(p)), c);
    CategoriesIsolated(Reduce(s, Pending(CategoryOf(p))), Fulfilled(p), c);
  }

  /** The slice as the reducers mutate it (Immer drafts). */
  class DataStore {
    var incidents: seq<Incident>
    var sessionCPU: seq<SessionSample>
    var sqlQueryCPU: seq<SqlQuery>
    var blockingNodes: seq<BlockingNode>
    var tablespaces: seq<Tablespace>
    var waitClassData: seq<WaitClassItem>
    var loading: PerCategory<bool>
    var errors: PerCategory<Option<string>>

    function Snapshot(): DataState
      reads this
    {
      DataState(incidents, sessionCPU, sqlQueryCPU, blockingNodes, tablespaces, waitClassData, loading, errors)
    }

    /** `initialState`. */
    constructor ()
      ensures Snapshot() == InitialState()
    {
      incidents, sessionCPU, sqlQueryCPU := [], [], [];
      blockingNodes, tablespaces, waitClassData := [], [], [];
      loading := AllCategories(false);
      errors := AllCategories(None);
    }

    /** `clearErrors`: installs a fresh errors object. */
    method ClearErrors()
      modifies this
      ensures Snapshot() == Reduce(old(Snapshot()), DataAction.ClearErrors)
    {
      errors := PerCategory(None, None, None, None);
    }

    /** `fetchX.pending`. */
    method Pending(c: Category)
      modifies this
      ensures Snapshot() == Reduce(old(Snapshot()), DataAction.Pending(c))
    {
      loading := loading.Set(c, true);
      errors := errors.Set(c, None);
    }

    /** `fetchX.fulfilled`: lowers the flag and copies the payload's fields. */
    method Fulfilled(p: Payload)
      modifies this
      ensures Snapshot() == Reduce(old(Snapshot()), DataAction.Fulfilled(p))
    {
      loading := loading.Set(CategoryOf(p), false);
      match p
      case IncidentsData(xs) =>
        incidents := xs;
      case CpuData(sessions, queries) =>
        sessionCPU := sessions;
        sqlQueryCPU := queries;
      case StorageData(spaces, waits) =>
        tablespaces := spaces;
        waitClassData := waits;
      case BlockingData(nodes) =>
        blockingNodes := nodes;
    }

    /** `fetchX.rejected`: the payload is the message the thunk rejected with. */
    method Rejected(c: Category, message: string)
      modifies this
      ensures Snapshot() == Reduce(old(Snapshot()), DataAction.Rejected(c, message))
    {
      loading := loading.Set(c, false);
      errors := errors.Set(c, Some(message));
    }

    /** The reducer: routes an action to its case. */
    method Dispatch(a: DataAction)
      modifies this
      ensures Snapshot() == Reduce(old(Snapshot()), a)
    {
      match a
      case ClearErrors => ClearErrors();
      case Pending(c) => Pending(c);
      case Fulfilled(p) => Fulfilled(p);
      case Rejected(c, m) => Rejected(c, m);
    }
  }
}
