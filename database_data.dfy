/**
 * The data hooks: `useDatabaseData` starts the four fetches from the
 * selected database and time range, and `useAutoRefresh` picks the refresh
 * period. Effects are modelled as the fetch requests one render issues.
 */
module DatabaseData {
  import opened Wrappers
  import DashboardSlice
  import DataSlice

  /** The thunks the hook dispatches, with their arguments. */
  datatype FetchRequest =
    | FetchIncidents(db: string)
    | FetchCPUMetrics(db: string, timeRange: string)
    | FetchStorageHealth(db: string)
    | FetchBlockingSessions(db: string)

  /** The slice category whose pending/fulfilled/rejected reducers a request drives. */
  function CategoryOf(r: FetchRequest): DataSlice.Category {
    match r
    case FetchIncidents(_) => DataSlice.IncidentsFeed
    case FetchCPUMetrics(_, _) => DataSlice.CpuMetrics
    case FetchStorageHealth(_) => DataSlice.Storage
    case FetchBlockingSessions(_) => DataSlice.Blocking
  }

  /** A string is truthy when it is not empty. */
  predicate Truthy(s: string) { s != "" }

  /** The dependencies of the previous render, if there was one. */
  datatype Deps = Deps(selectedDb: string, timeRange: string)

  /**
   * The requests one render issues, in effect order. An effect runs on the
   * first render and whenever one of its dependencies changed: the incident,
   * storage and blocking effects depend on the database, the CPU effect on
   * the database and the time range. A running effect fetches only when its
   * inputs are truthy.
   */
  function Requests(prev: Option<Deps>, selectedDb: string, timeRange: string): (r: seq<FetchRequest>)
    ensures var dbRun := prev.None? || prev.value.selectedDb != selectedDb;
      var cpuRun := dbRun || prev.value.timeRange != timeRange;
      && (FetchIncidents(selectedDb) in r <==> dbRun && Truthy(selectedDb))
      && (FetchStorageHealth(selectedDb) in r <==> dbRun && Truthy(selectedDb))
      && (FetchBlockingSessions(selectedDb) in r <==> dbRun && Truthy(selectedDb))
      && (FetchCPUMetrics(selectedDb, timeRange) in r <==> cpuRun && Truthy(selectedDb) && Truthy(timeRange))
    ensures forall q :: q in r ==> q.db == selectedDb && (q.FetchCPUMetrics? ==> q.timeRange == timeRange)
  {
    var dbRun := prev.None? || prev.value.selectedDb != selectedDb;
    var cpuRun := dbRun || prev.value.timeRange != timeRange;
    var gate := dbRun && Truthy(selectedDb);
    (if gate then [FetchIncidents(selectedDb)] else [])
    + (if cpuRun && Truthy(selectedDb) && Truthy(timeRange) then [FetchCPUMetrics(selectedDb, timeRange)] else [])
    + (if gate then [FetchStorageHealth(selectedDb)] else [])
    + (if gate then [FetchBlockingSessions(selectedDb)] else [])
  }

  /** One render starts at most one fetch per feed. */
  lemma {:induction false} RequestsOnePerFeed(prev: Option<Deps>, selectedDb: string, timeRange: string)
    ensures var r := Requests(prev, selectedDb, timeRange);
      forall i, j :: 0 <= i < j < |r| ==> CategoryOf(r[i]) != CategoryOf(r[j])
  {
    var r := Requests(prev, selectedDb, timeRange);
    forall i, j | 0 <= i < j < |r| ensures CategoryOf(r[i]) != CategoryOf(r[j]) {
      InEffectOrder(prev, selectedDb, timeRange, i);
      InEffectOrder(prev, selectedDb, timeRange, j);
    }
  }

  /** The position of a feed in the effect order. */
  function Order(c: DataSlice.Category): nat {
    match c
    case IncidentsFeed => 0
    case CpuMetrics => 1
    case Storage => 2
    case Blocking => 3
  }

  /** The requests come in effect order: incidents, CPU metrics, storage, blocking. */
  lemma InEffectOrder(prev: Option<Deps>, selectedDb: string, timeRange: string, i: nat)
    requires i < |Requests(prev, selectedDb, timeRange)|
    ensures forall j :: i < j < |Requests(prev, selectedDb, timeRange)| ==>
      Order(CategoryOf(Requests(prev, selectedDb, timeRange)[i])) < Order(CategoryOf(Requests(prev, selectedDb, timeRange)[j]))
  {
  }

  /** The first render with the initial dashboard state fetches all four feeds of ORCL_PROD. */
  lemma MountFetchesEverything()
    ensures var s := DashboardSlice.InitialState();
      Requests(None, s.selectedDb, s.timeRange)
      == [FetchIncidents("ORCL_PROD"), FetchCPUMetrics("ORCL_PROD", "5h"),
          FetchStorageHealth("ORCL_PROD"), FetchBlockingSessions("ORCL_PROD")]
  {
  }

  /** Changing only the time range re-fetches only the CPU metrics. */
  lemma TimeRangeChangeRefetchesCpuOnly(db: string, oldRange: string, newRange: string)
    requires Truthy(db) && Truthy(newRange) && oldRange != newRange
    ensures Requests(Some(Deps(db, oldRange)), db, newRange) == [FetchCPUMetrics(db, newRange)]
  {
  }

  /** A render whose dependencies did not change issues nothing. */
  lemma UnchangedDepsFetchNothing(db: string, range: string)
    ensures Requests(Some(Deps(db, range)), db, range) == []
  {
  }

  /** Without a database nothing is fetched, whatever changed. */
  lemma NoDatabaseNoFetch(prev: Option<Deps>, range: string)
    ensures Requests(prev, "", range) == []
  {
  }

  /**
   * `useAutoRefresh`'s period: none for 'off' (no timer is set), the table's
   * period for '10s', '30s' and '1m', and 30 seconds for anything else.
   */
  function RefreshInterval(autoRefresh: string): (ms: Option<nat>)
    ensures ms.None? <==> autoRefresh == "off"
    ensures autoRefresh == "10s" ==> ms == Some(10000)
    ensures autoRefresh == "30s" ==> ms == Some(30000)
    ensures autoRefresh == "1m" ==> ms == Some(60000)
    ensures autoRefresh !in {"off", "10s", "30s", "1m"} ==> ms == Some(30000)
    ensures ms.Some? ==> ms.value >= 10000
  {
    if autoRefresh == "off" then None
    else if autoRefresh == "10s" then Some(10000)
    else if autoRefresh == "1m" then Some(60000)
    else Some(30000)
  }

  /** The initial dashboard refreshes every 30 seconds. */
  lemma InitialRefreshEvery30s()
    ensures RefreshInterval(DashboardSlice.InitialState().autoRefresh) == Some(30000)
  {
  }
}
