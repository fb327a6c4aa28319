# Kanban board data pipeline, modelled in Dafny

The Kanban board fetches one document holding `tickets` and `users`, joins
every ticket to its user's name, groups the tickets into columns by a chosen
field (status, user or priority), and sorts each column by priority or title.
The two chosen criteria are persisted in the browser's key-value store. All of
this logic lives in `src/Components/KanbanBoard.jsx`; the rest of the
repository is markup.

This project models that pipeline as pure Dafny functions over immutable
records and sequences and proves what it promises:

- `wrappers.dfy` — `Option` and `Result`.
- `tickets.dfy` (module `Tickets`) — users, tickets and enriched tickets; the
  dynamic lookup `ticket[criterion]` as an explicit `Field` selector yielding a
  `Value` (number, string or `undefined`); the lexicographic string
  comparison used for titles, with its order laws.
- `enrichment.dfy` (module `Enrichment`) — the `userMap` reduce (last
  duplicate id wins), the display-name fallback `'Unknown User'`, the
  enrichment `map`, and the shape check that rejects a document without
  `tickets` or `users`.
- `grouping.dfy` (module `Grouping`) — the `groupBy` reduce, proved to be a
  partition whose buckets are the order-preserving selections of the input.
- `sorting.dfy` (module `Sorting`) — the three-branch comparator and the sorted
  copy, proved to be a permutation, ordered, stable, and the unique sequence
  with those properties (so any stable sort, such as the engine's, gives it).
- `board.dfy` (module `Board`) — the recompute effect (group, then sort every
  bucket), the preference handlers and store, the fetch as a state
  transition, an invariant every transition keeps, and what the component
  renders.
- `prototype_keys.dfy` (module `PrototypeKeys`) — the two lookups on plain
  objects as written, with the inputs on which they misbehave (see Findings).

A criterion missing from the store is `null`, not a default. `ticket[null]`
reads `undefined` for every ticket, so grouping by a missing criterion puts
all tickets into a single `undefined` column rather than leaving them
ungrouped. A falsy user name, not only a missing user, falls back to
`'Unknown User'`.

## Model

| member | source | states |
|---|---|---|
| Tickets.FieldNamed | src/Components/KanbanBoard.jsx:64 | the property `ticket[criterion]` reads; any recognised field is the one whose name was given, and `null` or an unknown name reads nothing |
| Tickets.FieldNamedRoundTrip | src/Components/KanbanBoard.jsx:64 | looking a field up by its own name finds that field |
| Tickets.LexCompare | src/Components/KanbanBoard.jsx:78 | the title comparison yields -1, 0 or 1, and the empty string sorts first |
| Tickets.LexCompareZero | src/Components/KanbanBoard.jsx:78 | two titles compare as equal exactly when they are the same string |
| Tickets.LexCompareFlip | src/Components/KanbanBoard.jsx:78 | swapping the titles negates the comparison, so the order is total |
| Tickets.LexCompareTrans | src/Components/KanbanBoard.jsx:78 | the title order is transitive |
| Tickets.ValueLeqTotal | src/Components/KanbanBoard.jsx:75-78 | any two sort keys are comparable |
| Tickets.ValueLeqAntisym | src/Components/KanbanBoard.jsx:75-78 | keys that sort no later than each other are equal |
| Tickets.ValueLeqTrans | src/Components/KanbanBoard.jsx:75-78 | the key order is transitive |
| Enrichment.UserMap | src/Components/KanbanBoard.jsx:42-45 | an id is in the map iff some user carries it, and it maps to the last user carrying it |
| Enrichment.LastWithIdUnique | src/Components/KanbanBoard.jsx:42-45 | the last user with a given id is unique |
| Enrichment.DisplayName | src/Components/KanbanBoard.jsx:49 | the shown name is never empty |
| Enrichment.DisplayNameResolves | src/Components/KanbanBoard.jsx:42-49 | the name shown for a user id is the last matching user's non-empty name, or exactly "Unknown User" when there is none or its name is empty |
| Enrichment.ResolvesToUnique | src/Components/KanbanBoard.jsx:49 | that rule determines a single name |
| Enrichment.Enrich | src/Components/KanbanBoard.jsx:47-50 | same length and order as the tickets, each ticket unchanged, its username non-empty and resolved by the rule above |
| Enrichment.Load | src/Components/KanbanBoard.jsx:36-50 | the load fails with a shape error iff `tickets` or `users` is absent, and otherwise yields the enriched tickets |
| Tickets.Get | src/Components/KanbanBoard.jsx:64 | no contract of its own; Tickets.GetKinds states its behaviour |
| Tickets.GetKinds | src/Components/KanbanBoard.jsx:64 | `ticket[criterion]`: only a criterion naming no field reads `undefined`, and only `priority` reads a number |
| Grouping.Push | src/Components/KanbanBoard.jsx:64-69 | no contract of its own; Grouping.PushAppends states its behaviour |
| Grouping.PushAppends | src/Components/KanbanBoard.jsx:64-69 | the reducer callback appends the ticket to its own bucket, creating the bucket if absent, and leaves every other bucket unchanged |
| Grouping.GroupBy | src/Components/KanbanBoard.jsx:62-71 | no bucket is ever empty |
| Grouping.PushSelects | src/Components/KanbanBoard.jsx:63-69 | one reducer step keeps every bucket equal to the in-order selection of its key |
| Grouping.GroupBySelects | src/Components/KanbanBoard.jsx:62-71 | the buckets are keyed by exactly the values the field takes, and each holds the tickets with that value in input order |
| Grouping.SelectKeepsOrder | src/Components/KanbanBoard.jsx:64-68 | a bucket sits inside the input at strictly increasing positions, so relative order is kept |
| Grouping.GroupByPartition | src/Components/KanbanBoard.jsx:62-71 | every ticket's key has a bucket, and each bucket holds every copy of the tickets with its key and nothing else |
| Grouping.FlattenPermutation | src/Components/KanbanBoard.jsx:185-207 | reading all columns once, in any key order, yields the input tickets as a multiset |
| Sorting.Comparator | src/Components/KanbanBoard.jsx:74-82 | the comparator is non-positive iff the first ticket's key sorts no later, and zero iff the keys are equal |
| Sorting.Insert | src/Components/KanbanBoard.jsx:74 | inserting adds exactly the one ticket |
| Sorting.SortTickets | src/Components/KanbanBoard.jsx:73-83 | the sorted copy is a permutation of the input |
| Sorting.InsertSorted | src/Components/KanbanBoard.jsx:74-82 | inserting into a sorted sequence keeps it sorted |
| Sorting.InsertSelect | src/Components/KanbanBoard.jsx:74-82 | an inserted ticket lands ahead of the tickets with an equal key |
| Sorting.SortTicketsSorted | src/Components/KanbanBoard.jsx:74-82 | the copy is non-decreasing in the criterion's key |
| Sorting.SortTicketsStable | src/Components/KanbanBoard.jsx:74-82 | tickets with equal keys keep their input order |
| Sorting.SortedStableUnique | src/Components/KanbanBoard.jsx:74 | two sorted sequences that agree on every equal-key subsequence are the same sequence |
| Sorting.SortTicketsCharacterised | src/Components/KanbanBoard.jsx:73-83 | a sequence is the sorted copy iff it is sorted by the criterion's key and stable |
| Sorting.SortTicketsOtherCriterion | src/Components/KanbanBoard.jsx:79-81 | any criterion other than priority or title returns the input unchanged |
| Sorting.SortTicketsIdempotent | src/Components/KanbanBoard.jsx:73-83 | sorting the sorted copy again changes nothing |
| Sorting.SortByPriority | src/Components/KanbanBoard.jsx:75-76 | by priority: priorities non-decreasing, equal priorities in input order |
| Sorting.SortByTitle | src/Components/KanbanBoard.jsx:77-78 | by title: titles non-decreasing, equal titles in input order |
| Board.Recompute | src/Components/KanbanBoard.jsx:85-96 | the columns are keyed by the values of the grouping field, each the sorted copy of that value's tickets |
| Board.RecomputeColumns | src/Components/KanbanBoard.jsx:85-96 | the columns partition the tickets, none is empty, each is sorted and stable |
| Board.RecomputeShowsEveryTicket | src/Components/KanbanBoard.jsx:185-205 | the tickets across all columns are a permutation of the loaded tickets |
| Board.LoadPrefs | src/Components/KanbanBoard.jsx:12-19 | the store is kept as given and the initial criteria are the values it holds under the two keys (`null` when absent) |
| Board.HandleGroupingChange | src/Components/KanbanBoard.jsx:98-101 | grouping and its stored value become the choice; sorting and every other stored key are unchanged |
| Board.HandleSortingChange | src/Components/KanbanBoard.jsx:103-106 | sorting and its stored value become the choice; grouping and every other stored key are unchanged |
| Board.HandlersPersist | src/Components/KanbanBoard.jsx:98-106 | state and store stay in agreement, so a reload restores the last choices |
| Board.CompleteFetch | src/Components/KanbanBoard.jsx:32-59 | a failure sets the message and commits no tickets; a success commits the enriched tickets and marks the data loaded |
| Board.Mount | src/Components/KanbanBoard.jsx:9-21 | the first render reads the criteria from the store, has nothing loaded, no error, not loading, and shows no columns |
| Board.BeginFetch | src/Components/KanbanBoard.jsx:28-30 | starting the fetch shows the loading view and clears the error, changing nothing else |
| Board.Settle | src/Components/KanbanBoard.jsx:85-96 | the effect changes only the columns, and only once data is loaded; then they are the recompute of the current tickets and criteria |
| Board.ChangeGrouping | src/Components/KanbanBoard.jsx:85-101 | choosing a grouping applies the handler, keeps tickets and flags, and after a load rebuilds the columns for the new grouping and the current sorting |
| Board.ChangeSorting | src/Components/KanbanBoard.jsx:85-106 | choosing a sorting applies the handler, keeps tickets and flags, and after a load rebuilds the columns for the current grouping and the new sorting |
| Board.Render | src/Components/KanbanBoard.jsx:170-213 | the loading view iff loading; otherwise a non-empty error is shown as the message; the columns are shown iff neither applies, and they are the current grouped tickets |
| Board.TransitionsKeepConsistent | src/Components/KanbanBoard.jsx:85-96 | after every transition the columns are the recompute of the current tickets and criteria, or empty before a load |
| Board.FailedFirstLoadShowsMessage | src/Components/KanbanBoard.jsx:170-176 | a failed first load shows the message, with no ticket loaded |
| Board.LoadedBoardShowsColumns | src/Components/KanbanBoard.jsx:178-207 | a loaded board shows columns that partition the tickets, each sorted |
| Board.TwoTicketExample | src/Components/KanbanBoard.jsx:36-96 | two "Todo" tickets grouped by status and sorted by priority form one column with the lower priority first; regrouping by priority gives one column per priority |
| PrototypeKeys.GroupByAsWritten | src/Components/KanbanBoard.jsx:62-71 | when the reduce as written does not throw, none of its buckets is keyed by an inherited property name |
| PrototypeKeys.DisplayNameAsWritten | src/Components/KanbanBoard.jsx:49 | the name as written is never empty, and equals the corrected name whenever the id belongs to a user or names no inherited property |
| PrototypeKeys.GroupByAsWrittenAgrees | src/Components/KanbanBoard.jsx:62-71 | the reduce as written throws iff some key names an inherited property, and otherwise equals the corrected grouping |
| PrototypeKeys.GroupByAsWrittenThrows | src/Components/KanbanBoard.jsx:64-68 | a ticket with status "toString" makes the reduce as written throw |
| PrototypeKeys.EnrichAsWritten | src/Components/KanbanBoard.jsx:47-50 | the enrichment as written keeps length, order and tickets |
| PrototypeKeys.EnrichAsWrittenAgrees | src/Components/KanbanBoard.jsx:42-50 | the enrichment as written equals the corrected one unless a ticket names an inherited property that no user carries |
| PrototypeKeys.EnrichAsWrittenMisnames | src/Components/KanbanBoard.jsx:49 | a ticket with user id "constructor" and no such user is shown as "Object" |

## Left out

- The network request, `response.json()` and the loading flag as timing: the fetch is a parameter (`FetchOutcome`), and a failed request or unparsable body is one case, as in the source's single `catch`.
- React's `useState`/`useEffect` scheduling: each transition applies the recompute effect directly after the state change that would trigger it.
- `localStorage` as a device: the store is a `map<string, string>` carried in the preference record.
- `localeCompare`: its result depends on the locale, and a collation may rank distinct strings as equal (canonically equivalent forms such as a precomposed "é" and "e" followed by a combining accent compare as 0), so it is a total preorder. Titles are compared by character code instead, a total order. Where the source's stable sort would keep two such titles in input order, the model orders them by code point. Case and accents are the more common difference: by character code "B" sorts before "a" (`LexCompare("B", "a") < 0`), while `"a".localeCompare("B")` is negative in common locales.
- The key order of the grouped object (integer-like keys enumerate first in JavaScript): columns are a map, and the permutation result holds for every enumeration order.
- Key stringification: JavaScript object keys are strings, so the priority 2 and the status "2" would share a key. Within one grouping every key comes from one field and has one type, so this cannot merge two buckets; the model keeps the typed key.
- Ticket fields beyond `id`, `userId`, `status`, `priority` and `title`: the model drops them, although the enrichment's spread keeps every field the response carries. A stored criterion naming such a field (say `tag`) groups by that field's values in the source, one bucket per value, but gives the single `Undefined` bucket in the model. Only a value already in the store reaches this case, since the selectors never write one. A criterion naming a property inherited from `Object.prototype`, such as `toString`, `constructor` or `__proto__`, reads the same shared function or object from every ticket, keyed by its string form; that single bucket matches the model's single `Undefined` bucket.
- A user whose `name` is `null` or missing: names are strings and the empty string stands for every falsy name.
- A `tickets` or `users` field that is present but not an array: the model types them as sequences, so the error the source would throw from `map`/`reduce` is not modelled.
- A user whose id is `__proto__`: JavaScript then replaces the map's prototype instead of adding a key. Lookups still find that user, and other ids reach only that user's string and boolean fields, which have no `name`. So the model's result is the same and the case is not modelled separately.
- `renderGroupIcon` and the JSX (lines 108-213 apart from the column walk), and `Navbar.jsx`, `GroupingSelector.jsx`, `SortingSelector.jsx`, `CardIcons.jsx`: presentation only. The only logic there is the dropdown toggle and the option lists.
- The possible state update after the component unmounts, since a pending fetch cannot be cancelled: concurrency is out of scope.

## Findings

| source | as written | input that shows it | evidently intended | confidence | as-written member | corrected member |
|---|---|---|---|---|---|---|
| src/Components/KanbanBoard.jsx:64-68 | `!group[key]` is false for a key inherited from `Object.prototype`, so no array is created and `group[key].push` is not a function | one ticket with status "toString", grouped by status | every key gets its own bucket | not executed; high (standard JavaScript property lookup) | PrototypeKeys.GroupByAsWrittenThrows | Grouping.GroupBySelects |
| src/Components/KanbanBoard.jsx:42-49 | `userMap[ticket.userId]?.name` finds inherited methods, whose `name` is their own name or "Object" | one ticket with user id "constructor" and no users | the fallback "Unknown User" when no user matches | not executed; high (standard JavaScript property lookup) | PrototypeKeys.EnrichAsWrittenMisnames | Enrichment.DisplayNameResolves |
