/** The `KanbanBoard` component as a state machine: the state its hooks hold,
    the recompute effect, the two preference handlers, the fetch, and what the
    component renders. */
module Board {
  import opened Wrappers
  import opened Tickets
  import opened Grouping
  import opened Sorting
  import opened Enrichment

  const GroupingKey: string := "groupingType"
  const SortingKey: string := "sortingType"
  const LoadFailedMessage: string := "Failed to load tickets. Please try again."

  /** The recompute effect: group the tickets by the grouping criterion, then
      sort each bucket on its own by the sorting criterion. */
  function Recompute(ts: seq<EnrichedTicket>, groupingType: Option<string>, sortingType: Option<string>): (columns: map<Value, seq<EnrichedTicket>>)
    ensures columns.Keys == KeysOf(ts, FieldNamed(groupingType))
    ensures forall k :: k in columns ==>
      columns[k] == SortTickets(Select(ts, FieldNamed(groupingType), k), sortingType)
  {
    var grouped := GroupBy(ts, FieldNamed(groupingType));
    GroupBySelects(ts, FieldNamed(groupingType));
    map k | k in grouped :: SortTickets(grouped[k], sortingType)
  }

  /** Each column holds exactly the tickets of its key, once per occurrence,
      no column is empty, and each is ordered by the sorting criterion with
      ties left in load order. */
  lemma RecomputeColumns(ts: seq<EnrichedTicket>, groupingType: Option<string>, sortingType: Option<string>)
    ensures IsPartition(Recompute(ts, groupingType, sortingType), ts, FieldNamed(groupingType))
    ensures forall k :: k in Recompute(ts, groupingType, sortingType) ==>
      var column := Recompute(ts, groupingType, sortingType)[k];
      && column != []
      && SortedBy(column, SortField(sortingType))
      && StableBy(column, Select(ts, FieldNamed(groupingType), k), SortField(sortingType))
  {
    var f := FieldNamed(groupingType);
    var columns := Recompute(ts, groupingType, sortingType);
    GroupBySelects(ts, f);
    GroupByPartition(ts, f);
    forall k | k in columns
      ensures columns[k] != []
      ensures SortedBy(columns[k], SortField(sortingType))
      ensures StableBy(columns[k], Select(ts, f, k), SortField(sortingType))
    {
      SortTicketsSorted(Select(ts, f, k), sortingType);
      SortTicketsStable(Select(ts, f, k), sortingType);
      assert |columns[k]| == |multiset(columns[k])| == |Select(ts, f, k)|;
    }
    forall k, t | k in columns ensures multiset(columns[k])[t] == Share(ts, f, k, t) {
      SelectCount(ts, f, k, t);
    }
    forall t | t in ts ensures Get(t, f) in columns {
      assert Get(t, f) in KeysOf(ts, f);
    }
  }

  /** Scanning the columns in any order the view enumerates their keys shows
      every loaded ticket exactly as often as it was loaded. */
  lemma RecomputeShowsEveryTicket(ts: seq<EnrichedTicket>, groupingType: Option<string>, sortingType: Option<string>, order: seq<Value>)
    requires Distinct(order)
    requires forall k :: k in Recompute(ts, groupingType, sortingType) ==> k in order
    ensures multiset(Flatten(Recompute(ts, groupingType, sortingType), order)) == multiset(ts)
  {
    RecomputeColumns(ts, groupingType, sortingType);
    FlattenPermutation(Recompute(ts, groupingType, sortingType), ts, FieldNamed(groupingType), order);
  }

  /** The two criteria held in component state, and the persistent key-value
      store they are mirrored to. */
  datatype Prefs = Prefs(groupingType: Option<string>, sortingType: Option<string>, store: map<string, string>)

  /** `localStorage.getItem(key)`: `None` stands for `null`. */
  function Stored(store: map<string, string>, key: string): Option<string>
  {
    if key in store then Some(store[key]) else None
  }

  /** The lazy initialisers of the two criteria: read them back from the store. */
  function LoadPrefs(store: map<string, string>): (p: Prefs)
    ensures p.store == store
    ensures InSync(p)
  {
    Prefs(Stored(store, GroupingKey), Stored(store, SortingKey), store)
  }

  /** The criteria in state agree with what the store would hand back. */
  ghost predicate InSync(p: Prefs)
  {
    p.groupingType == Stored(p.store, GroupingKey) && p.sortingType == Stored(p.store, SortingKey)
  }

  /** `handleGroupingChange`: set the grouping criterion and store it. */
  function HandleGroupingChange(p: Prefs, grouping: string): (r: Prefs)
    ensures r.groupingType == Some(grouping) && Stored(r.store, GroupingKey) == Some(grouping)
    ensures r.sortingType == p.sortingType
    ensures forall key :: key != GroupingKey ==> Stored(r.store, key) == Stored(p.store, key)
  {
    p.(groupingType := Some(grouping), store := p.store[GroupingKey := grouping])
  }

  /** `handleSortingChange`: set the sorting criterion and store it. */
  function HandleSortingChange(p: Prefs, sorting: string): (r: Prefs)
    ensures r.sortingType == Some(sorting) && Stored(r.store, SortingKey) == Some(sorting)
    ensures r.groupingType == p.groupingType
    ensures forall key :: key != SortingKey ==> Stored(r.store, key) == Stored(p.store, key)
  {
    p.(sortingType := Some(sorting), store := p.store[SortingKey := sorting])
  }

  /** Both handlers keep state and store in agreement, so a reload restores
      exactly the criteria last chosen. */
  lemma HandlersPersist(p: Prefs, choice: string)
    requires InSync(p)
    ensures InSync(HandleGroupingChange(p, choice)) && InSync(HandleSortingChange(p, choice))
    ensures LoadPrefs(HandleGroupingChange(p, choice).store).groupingType == Some(choice)
    ensures LoadPrefs(HandleGroupingChange(p, choice).store).sortingType == p.sortingType
    ensures LoadPrefs(HandleSortingChange(p, choice).store).sortingType == Some(choice)
    ensures LoadPrefs(HandleSortingChange(p, choice).store).groupingType == p.groupingType
  {
  }

  /** The component's state hooks. */
  datatype Board = Board(
    tickets: seq<EnrichedTicket>,
    groupedTickets: map<Value, seq<EnrichedTicket>>,
    prefs: Prefs,
    isDataLoaded: bool,
    isLoading: bool,
    error: Option<string>)

  /** What the fetch produced: a rejected request or unparsable body, or the
      parsed document. */
  datatype FetchOutcome = NetworkFailure | Received(payload: Payload)

  function Fetched(outcome: FetchOutcome): Result<seq<EnrichedTicket>, LoadError>
  {
    match outcome
    case NetworkFailure => Failure(NetworkError)
    case Received(p) => Load(p)
  }

  /** The state on first render, criteria read from the store. */
  function Mount(store: map<string, string>): (r: Board)
    ensures r.prefs == LoadPrefs(store)
    ensures !r.isDataLoaded && !r.isLoading && r.error.None?
    ensures Render(r) == Columns(map[])
  {
    Board([], map[], LoadPrefs(store), false, false, None)
  }

  /** The recompute effect, which runs after any change to the loaded flag,
      the tickets or either criterion; it does nothing before a load. */
  function Settle(b: Board): (r: Board)
    ensures r.(groupedTickets := b.groupedTickets) == b
    ensures !b.isDataLoaded ==> r == b
    ensures b.isDataLoaded ==> r.groupedTickets == Recompute(b.tickets, b.prefs.groupingType, b.prefs.sortingType)
  {
    if b.isDataLoaded
    then b.(groupedTickets := Recompute(b.tickets, b.prefs.groupingType, b.prefs.sortingType))
    else b
  }

  /** The start of `fetchData`: raise the loading flag and clear the error. */
  function BeginFetch(b: Board): (r: Board)
    ensures Render(r) == Loading && r.error.None?
    ensures r.(isLoading := b.isLoading, error := b.error) == b
  {
    b.(isLoading := true, error := None)
  }

  /** The end of `fetchData` and the effect it triggers. A failure of either
      kind sets the error message and commits nothing else. */
  function CompleteFetch(b: Board, outcome: FetchOutcome): (r: Board)
    ensures !r.isLoading && r.prefs == b.prefs
    ensures Fetched(outcome).Failure? ==>
      && r.error == Some(LoadFailedMessage)
      && r.tickets == b.tickets
      && r.isDataLoaded == b.isDataLoaded
      && r.groupedTickets == b.groupedTickets
    ensures Fetched(outcome).Success? ==>
      && r.isDataLoaded
      && r.error == b.error
      && r.tickets == Fetched(outcome).value
  {
    match Fetched(outcome)
    case Success(ts) => Settle(b.(tickets := ts, isDataLoaded := true, isLoading := false))
    case Failure(_) => b.(error := Some(LoadFailedMessage), isLoading := false)
  }

  function ChangeGrouping(b: Board, grouping: string): (r: Board)
    ensures r.prefs == HandleGroupingChange(b.prefs, grouping)
    ensures r.tickets == b.tickets && r.isDataLoaded == b.isDataLoaded
    ensures r.isLoading == b.isLoading && r.error == b.error
    ensures r.isDataLoaded ==> r.groupedTickets == Recompute(b.tickets, Some(grouping), b.prefs.sortingType)
    ensures !r.isDataLoaded ==> r.groupedTickets == b.groupedTickets
  {
    Settle(b.(prefs := HandleGroupingChange(b.prefs, grouping)))
  }

  function ChangeSorting(b: Board, sorting: string): (r: Board)
    ensures r.prefs == HandleSortingChange(b.prefs, sorting)
    ensures r.tickets == b.tickets && r.isDataLoaded == b.isDataLoaded
    ensures r.isLoading == b.isLoading && r.error == b.error
    ensures r.isDataLoaded ==> r.groupedTickets == Recompute(b.tickets, b.prefs.groupingType, Some(sorting))
    ensures !r.isDataLoaded ==> r.groupedTickets == b.groupedTickets
  {
    Settle(b.(prefs := HandleSortingChange(b.prefs, sorting)))
  }

  /** What every reachable state satisfies: criteria mirrored in the store,
      and the columns rebuilt from the current tickets and criteria once data
      is loaded (nothing loaded, nothing shown, before that). */
  ghost predicate Consistent(b: Board)
  {
    && InSync(b.prefs)
    && (b.isDataLoaded ==> b.groupedTickets == Recompute(b.tickets, b.prefs.groupingType, b.prefs.sortingType))
    && (!b.isDataLoaded ==> b.tickets == [] && b.groupedTickets == map[])
  }

  lemma TransitionsKeepConsistent(store: map<string, string>, b: Board, outcome: FetchOutcome, choice: string)
    requires Consistent(b)
    ensures Consistent(Mount(store))
    ensures Consistent(BeginFetch(b))
    ensures Consistent(CompleteFetch(b, outcome))
    ensures Consistent(ChangeGrouping(b, choice))
    ensures Consistent(ChangeSorting(b, choice))
  {
    CompleteFetchConsistent(b, outcome);
    ChangeGroupingConsistent(b, choice);
    ChangeSortingConsistent(b, choice);
  }

  lemma CompleteFetchConsistent(b: Board, outcome: FetchOutcome)
    requires Consistent(b)
    ensures Consistent(CompleteFetch(b, outcome))
  {
    match Fetched(outcome)
    case Success(ts) =>
    case Failure(_) =>
  }

  lemma ChangeGroupingConsistent(b: Board, choice: string)
    requires Consistent(b)
    ensures Consistent(ChangeGrouping(b, choice))
  {
    HandlersPersist(b.prefs, choice);
  }

  lemma ChangeSortingConsistent(b: Board, choice: string)
    requires Consistent(b)
    ensures Consistent(ChangeSorting(b, choice))
  {
    HandlersPersist(b.prefs, choice);
  }

  datatype View = Loading | Message(text: string) | Columns(columns: map<Value, seq<EnrichedTicket>>)

  /** The component's early returns, then the board. */
  function Render(b: Board): (r: View)
    ensures r == Loading <==> b.isLoading
    ensures r.Message? ==> r.text != "" && b.error == Some(r.text)
    ensures r.Columns? <==> !b.isLoading && (b.error.None? || b.error.value == "")
    ensures r.Columns? ==> r.columns == b.groupedTickets
  {
    if b.isLoading then Loading
    else if b.error.Some? && b.error.value != "" then Message(b.error.value)
    else Columns(b.groupedTickets)
  }

  /** A first load that fails, for a missing field or a failed request, shows
      the message and no ticket. */
  lemma FailedFirstLoadShowsMessage(store: map<string, string>, outcome: FetchOutcome)
    requires Fetched(outcome).Failure?
    ensures var b := CompleteFetch(BeginFetch(Mount(store)), outcome);
      && Render(b) == Message(LoadFailedMessage)
      && !b.isDataLoaded
      && b.tickets == []
  {
  }

  /** Once data is in, the board shows the columns of the current criteria:
      a partition of the loaded tickets, each column sorted. */
  lemma LoadedBoardShowsColumns(b: Board)
    requires Consistent(b) && b.isDataLoaded && !b.isLoading && b.error.None?
    ensures Render(b).Columns?
    ensures IsPartition(Render(b).columns, b.tickets, FieldNamed(b.prefs.groupingType))
    ensures forall k :: k in Render(b).columns ==> SortedBy(Render(b).columns[k], SortField(b.prefs.sortingType))
  {
    RecomputeColumns(b.tickets, b.prefs.groupingType, b.prefs.sortingType);
  }

  /** Two tickets in one status, loaded with grouping by status and sorting by
      priority: one column, lower priority first, names resolved. Switching
      the grouping to priority rebuilds the board with one column per
      priority value. */
  lemma TwoTicketExample()
    ensures
      var t1 := Ticket("1", "u1", "Todo", 2, "B");
      var t2 := Ticket("2", "u2", "Todo", 1, "A");
      var users := [User("u1", "Alice"), User("u2", "Bob")];
      var store := map[GroupingKey := "status", SortingKey := "priority"];
      var b := CompleteFetch(BeginFetch(Mount(store)), Received(Payload(Some([t1, t2]), Some(users))));
      var e1, e2 := EnrichedTicket(t1, "Alice"), EnrichedTicket(t2, "Bob");
      && Render(b) == Columns(map[Str("Todo") := [e2, e1]])
      && Render(ChangeGrouping(b, "priority")) == Columns(map[Num(1) := [e2], Num(2) := [e1]])
  {
    var t1 := Ticket("1", "u1", "Todo", 2, "B");
    var t2 := Ticket("2", "u2", "Todo", 1, "A");
    var e1, e2 := EnrichedTicket(t1, "Alice"), EnrichedTicket(t2, "Bob");
    ExampleEnrich(t1, t2);
    ExampleColumns(e1, e2);
  }

  lemma ExampleEnrich(t1: Ticket, t2: Ticket)
    requires t1.userId == "u1" && t2.userId == "u2"
    ensures Enrich([t1, t2], [User("u1", "Alice"), User("u2", "Bob")])
      == [EnrichedTicket(t1, "Alice"), EnrichedTicket(t2, "Bob")]
  {
    var users := [User("u1", "Alice"), User("u2", "Bob")];
    assert UserMap(users) == map["u1" := users[0], "u2" := users[1]] by {
      assert users[..1] == [users[0]];
      assert UserMap(users[..1]) == map["u1" := users[0]];
    }
  }

  lemma ExampleColumns(e1: EnrichedTicket, e2: EnrichedTicket)
    requires e1.ticket.status == "Todo" && e2.ticket.status == "Todo"
    requires e1.ticket.priority == 2 && e2.ticket.priority == 1
    ensures Recompute([e1, e2], Some("status"), Some("priority")) == map[Str("Todo") := [e2, e1]]
    ensures Recompute([e1, e2], Some("priority"), Some("priority")) == map[Num(1) := [e2], Num(2) := [e1]]
  {
    ExampleByStatus(e1, e2);
    ExampleByPriority(e1, e2);
  }

  lemma ExampleByStatus(e1: EnrichedTicket, e2: EnrichedTicket)
    requires e1.ticket.status == "Todo" && e2.ticket.status == "Todo"
    requires e1.ticket.priority == 2 && e2.ticket.priority == 1
    ensures Recompute([e1, e2], Some("status"), Some("priority")) == map[Str("Todo") := [e2, e1]]
  {
    var columns := Recompute([e1, e2], Some("status"), Some("priority"));
    ExampleStatusBucket(e1, e2);
    ExampleSort(e1, e2);
    MapOfOne(columns, Str("Todo"), [e2, e1]);
  }

  lemma ExampleStatusBucket(e1: EnrichedTicket, e2: EnrichedTicket)
    requires e1.ticket.status == "Todo" && e2.ticket.status == "Todo"
    ensures KeysOf([e1, e2], Status) == {Str("Todo")}
    ensures Select([e1, e2], Status, Str("Todo")) == [e1, e2]
  {
    var ts := [e1, e2];
    assert Get(e1, Status) in KeysOf(ts, Status);
    assert Select([e2], Status, Str("Todo")) == [e2];
  }

  lemma ExampleByPriority(e1: EnrichedTicket, e2: EnrichedTicket)
    requires e1.ticket.priority == 2 && e2.ticket.priority == 1
    ensures Recompute([e1, e2], Some("priority"), Some("priority")) == map[Num(1) := [e2], Num(2) := [e1]]
  {
    var ts := [e1, e2];
    var columns := Recompute(ts, Some("priority"), Some("priority"));
    assert Get(e1, Priority) in KeysOf(ts, Priority) && Get(e2, Priority) in KeysOf(ts, Priority);
    assert KeysOf(ts, Priority) == {Num(1), Num(2)};
    assert Select([e2], Priority, Num(1)) == [e2];
    assert Select(ts, Priority, Num(1)) == [e2];
    assert Select([e2], Priority, Num(2)) == [];
    assert Select(ts, Priority, Num(2)) == [e1];
    assert columns[Num(1)] == [e2];
    assert columns[Num(2)] == [e1];
    MapOfTwo(columns, Num(1), [e2], Num(2), [e1]);
  }

  lemma ExampleSort(e1: EnrichedTicket, e2: EnrichedTicket)
    requires e1.ticket.priority == 2 && e2.ticket.priority == 1
    ensures SortTickets([e1, e2], Some("priority")) == [e2, e1]
  {
    assert [e1, e2][1..] == [e2];
    assert SortTickets([e2], Some("priority")) == [e2];
    assert Insert(Some("priority"), e1, [e2]) == [e2, e1];
  }

  lemma MapOfOne(m: map<Value, seq<EnrichedTicket>>, k: Value, v: seq<EnrichedTicket>)
    requires m.Keys == {k} && m[k] == v
    ensures m == map[k := v]
  {
  }

  lemma MapOfTwo(m: map<Value, seq<EnrichedTicket>>, k1: Value, v1: seq<EnrichedTicket>, k2: Value, v2: seq<EnrichedTicket>)
    requires k1 != k2 && m.Keys == {k1, k2} && m[k1] == v1 && m[k2] == v2
    ensures m == map[k1 := v1, k2 := v2]
  {
  }
}
