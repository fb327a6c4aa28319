/** The load step of `fetchData` (KanbanBoard.jsx): reject a payload without
    `tickets` or `users`, index the users by id, and copy every ticket with the
    name of its user attached. */
module Enrichment {
  import opened Wrappers
  import opened Tickets

  /** The name shown when a ticket's user cannot be resolved. */
  const UnknownUser: string := "Unknown User"

  /** `users[i]` is the last user in `users` carrying `id`. */
  ghost predicate LastWithId(users: seq<User>, id: string, i: int)
  {
    && 0 <= i < |users|
    && users[i].id == id
    && forall j :: i < j < |users| ==> users[j].id != id
  }

  lemma LastWithIdUnique(users: seq<User>, id: string, i: int, j: int)
    requires LastWithId(users, id, i) && LastWithId(users, id, j)
    ensures i == j
  {
  }

  /** The reduce that builds `userMap`: each user is stored under its id, a
      later user overwriting an earlier one with the same id. */
  function UserMap(users: seq<User>): (m: map<string, User>)
    ensures forall id :: id in m <==> exists i :: 0 <= i < |users| && users[i].id == id
    ensures forall id :: id in m ==> exists i :: LastWithId(users, id, i) && m[id] == users[i]
  {
    if users == [] then map[]
    else
      var front := users[..|users| - 1];
      var u := users[|users| - 1];
      var m := UserMap(front);
      assert forall i :: 0 <= i < |front| ==> front[i] == users[i];
      assert LastWithId(users, u.id, |users| - 1);
      assert forall id, i :: id != u.id && LastWithId(front, id, i) ==> LastWithId(users, id, i);
      m[u.id := u]
  }

  /** `userMap[userId]?.name || 'Unknown User'`: an absent user and an empty
      (falsy) name both fall back to the sentinel. */
  function DisplayName(m: map<string, User>, userId: string): (name: string)
    ensures name != ""
  {
    if userId in m && m[userId].name != "" then m[userId].name else UnknownUser
  }

  /** `name` is what the board must show for `userId`: the name of the last
      user with that id when it is non-empty, and the sentinel otherwise. */
  ghost predicate ResolvesTo(users: seq<User>, userId: string, name: string)
  {
    || (exists i :: LastWithId(users, userId, i) && users[i].name != "" && name == users[i].name)
    || (name == UnknownUser && forall i :: LastWithId(users, userId, i) ==> users[i].name == "")
  }

  /** At most one name resolves a user id. */
  lemma ResolvesToUnique(users: seq<User>, userId: string, a: string, b: string)
    requires ResolvesTo(users, userId, a) && ResolvesTo(users, userId, b)
    ensures a == b
  {
    if exists i :: LastWithId(users, userId, i) {
      var i :| LastWithId(users, userId, i);
      forall k | LastWithId(users, userId, k) ensures k == i {
        LastWithIdUnique(users, userId, i, k);
      }
    }
  }

  lemma DisplayNameResolves(users: seq<User>, userId: string)
    ensures ResolvesTo(users, userId, DisplayName(UserMap(users), userId))
  {
    var m := UserMap(users);
    if userId in m {
      var i :| LastWithId(users, userId, i) && m[userId] == users[i];
      forall j | LastWithId(users, userId, j) ensures j == i {
        LastWithIdUnique(users, userId, i, j);
      }
    }
  }

  /** `tickets.map(...)` with the spread: each ticket unchanged, in place, with
      its resolved name added. */
  function Enrich(tickets: seq<Ticket>, users: seq<User>): (r: seq<EnrichedTicket>)
    ensures |r| == |tickets|
    ensures forall i :: 0 <= i < |r| ==> r[i].ticket == tickets[i]
    ensures forall i :: 0 <= i < |r| ==> r[i].username != ""
    ensures forall i :: 0 <= i < |r| ==> ResolvesTo(users, tickets[i].userId, r[i].username)
  {
    var m := UserMap(users);
    var r := seq(|tickets|, i requires 0 <= i < |tickets| => EnrichedTicket(tickets[i], DisplayName(m, tickets[i].userId)));
    assert forall i :: 0 <= i < |r| ==> ResolvesTo(users, tickets[i].userId, r[i].username) by {
      forall i | 0 <= i < |r| ensures ResolvesTo(users, tickets[i].userId, r[i].username) {
        DisplayNameResolves(users, tickets[i].userId);
      }
    }
    r
  }

  /** The top-level fields of the fetched document; `None` is an absent or
      falsy field. */
  datatype Payload = Payload(tickets: Option<seq<Ticket>>, users: Option<seq<User>>)

  datatype LoadError = DataShapeError | NetworkError

  /** The body of the `try` after the response is parsed: the shape check,
      then enrichment. */
  function Load(p: Payload): (r: Result<seq<EnrichedTicket>, LoadError>)
    ensures r.Failure? <==> p.tickets.None? || p.users.None?
    ensures r.Failure? ==> r.error == DataShapeError
    ensures r.Success? ==> |r.value| == |p.tickets.value|
    ensures r.Success? ==> forall i :: 0 <= i < |r.value| ==>
      r.value[i].ticket == p.tickets.value[i] && ResolvesTo(p.users.value, p.tickets.value[i].userId, r.value[i].username)
  {
    if p.tickets.None? || p.users.None? then Failure(DataShapeError)
    else Success(Enrich(p.tickets.value, p.users.value))
  }
}
