/** Both `userMap` and the `groupBy` accumulator start as `{}`, a plain
    JavaScript object that inherits the properties of `Object.prototype`. A
    lookup by a key that names one of them finds the inherited property even
    though the code never stored anything under it. This module models the two
    lookups as written, shows an input on which each departs from the intended
    behaviour, and shows they agree with the corrected definitions (`GroupBy`,
    `Enrich`) on every other input. */
module PrototypeKeys {
  import opened Wrappers
  import opened Tickets
  import opened Grouping
  import opened Enrichment

  /** The property names every plain object inherits from `Object.prototype`. */
  const InheritedNames: set<string> := {
    "constructor", "hasOwnProperty", "isPrototypeOf", "propertyIsEnumerable",
    "toString", "toLocaleString", "valueOf", "__proto__",
    "__defineGetter__", "__defineSetter__", "__lookupGetter__", "__lookupSetter__"
  }

  /** A bucket key whose property name is inherited. Numbers print as digits
      and `undefined` as "undefined", so only strings can be. */
  predicate Inherited(k: Value)
  {
    k.Str? && k.s in InheritedNames
  }

  /** `groupBy` as written. `!group[key]` is false for an inherited key, so no
      array is created, and the `push` that follows is not a function: the
      reduce throws (`None`). */
  function GroupByAsWritten(ts: seq<EnrichedTicket>, f: Field): (r: Option<map<Value, seq<EnrichedTicket>>>)
    ensures r.Some? ==> forall k :: k in r.value ==> !Inherited(k)
  {
    if ts == [] then Some(map[])
    else
      match GroupByAsWritten(ts[..|ts| - 1], f)
      case None => None
      case Some(grouped) =>
        var t := ts[|ts| - 1];
        if Get(t, f) !in grouped && Inherited(Get(t, f)) then None
        else Some(Push(grouped, t, f))
  }

  /** Some ticket of `ts` has an inherited key. */
  ghost predicate HasInheritedKey(ts: seq<EnrichedTicket>, f: Field)
  {
    exists t :: t in ts && Inherited(Get(t, f))
  }

  lemma HasInheritedKeySnoc(front: seq<EnrichedTicket>, t: EnrichedTicket, f: Field)
    ensures HasInheritedKey(front + [t], f) <==> HasInheritedKey(front, f) || Inherited(Get(t, f))
  {
    assert forall u :: u in front + [t] <==> u in front || u == t;
  }

  /** A key already holding a bucket is the key of an earlier ticket. */
  lemma BucketKeyOfEarlierTicket(front: seq<EnrichedTicket>, f: Field, key: Value)
    requires key in GroupBy(front, f)
    ensures exists u :: u in front && Get(u, f) == key
  {
    GroupBySelects(front, f);
  }

  /** The written reduce throws exactly when some ticket's key is inherited,
      and otherwise builds the same buckets as `GroupBy`. */
  lemma {:induction false} GroupByAsWrittenAgrees(ts: seq<EnrichedTicket>, f: Field)
    ensures GroupByAsWritten(ts, f).None? <==> HasInheritedKey(ts, f)
    ensures GroupByAsWritten(ts, f).Some? ==> GroupByAsWritten(ts, f).value == GroupBy(ts, f)
    decreases |ts|
  {
    if ts != [] {
      var front := ts[..|ts| - 1];
      var t := ts[|ts| - 1];
      GroupByAsWrittenAgrees(front, f);
      HasInheritedKeySnoc(front, t, f);
      assert ts == front + [t];
      if GroupByAsWritten(front, f).Some? && Get(t, f) in GroupBy(front, f) {
        BucketKeyOfEarlierTicket(front, f, Get(t, f));
      }
    }
  }

  /** A single ticket whose status is "toString": `GroupBy` gives it a column
      of its own, the code as written throws. */
  lemma GroupByAsWrittenThrows(t: EnrichedTicket)
    requires t.ticket.status == "toString"
    ensures GroupByAsWritten([t], Status) == None
    ensures GroupBy([t], Status) == map[Str("toString") := [t]]
  {
    assert [t][..0] == [];
    assert [] + [t] == [t];
  }

  /** `userMap[id]` when no user has `id`: the inherited property, if any,
      and its `name`. Every inherited method is named after its property
      except the constructor, which is `Object`; the prototype object itself
      (`__proto__`) has no name. */
  function InheritedName(id: string): Option<string>
  {
    if id == "__proto__" then None
    else if id == "constructor" then Some("Object")
    else if id in InheritedNames then Some(id)
    else None
  }

  /** `userMap[ticket.userId]?.name || 'Unknown User'` as written. */
  function DisplayNameAsWritten(m: map<string, User>, userId: string): (name: string)
    ensures name != ""
    ensures userId in m || userId !in InheritedNames ==> name == DisplayName(m, userId)
  {
    var found := if userId in m then Some(m[userId].name) else InheritedName(userId);
    if found.Some? && found.value != "" then found.value else UnknownUser
  }

  function EnrichAsWritten(tickets: seq<Ticket>, users: seq<User>): (r: seq<EnrichedTicket>)
    ensures |r| == |tickets|
    ensures forall i :: 0 <= i < |r| ==> r[i].ticket == tickets[i]
  {
    var m := UserMap(users);
    seq(|tickets|, i requires 0 <= i < |tickets| => EnrichedTicket(tickets[i], DisplayNameAsWritten(m, tickets[i].userId)))
  }

  /** The written lookup agrees with `Enrich` whenever no ticket refers to an
      inherited name that no user carries. */
  lemma EnrichAsWrittenAgrees(tickets: seq<Ticket>, users: seq<User>)
    requires forall i :: 0 <= i < |tickets| ==> tickets[i].userId !in InheritedNames || tickets[i].userId in UserMap(users)
    ensures EnrichAsWritten(tickets, users) == Enrich(tickets, users)
  {
  }

  /** A ticket whose `userId` is "constructor", with no such user: the written
      code shows the name "Object", which is no user's name, where the
      intended fallback is "Unknown User". */
  lemma EnrichAsWrittenMisnames(t: Ticket)
    requires t.userId == "constructor"
    ensures EnrichAsWritten([t], []) == [EnrichedTicket(t, "Object")]
    ensures Enrich([t], []) == [EnrichedTicket(t, UnknownUser)]
    ensures !ResolvesTo([], t.userId, "Object")
  {
  }
}
