/** The records the board works on, and the dynamic field lookup
    `ticket[criterion]` made explicit as a selector over a closed set of fields. */
module Tickets {
  import opened Wrappers

  datatype User = User(id: string, name: string)

  datatype Ticket = Ticket(id: string, userId: string, status: string, priority: int, title: string)

  /** A ticket after enrichment: the ticket as received plus the resolved display name. */
  datatype EnrichedTicket = EnrichedTicket(ticket: Ticket, username: string)

  /** What reading a field of an enriched ticket yields; `Undefined` is what
      JavaScript gives for a property the ticket does not have. */
  datatype Value = Num(n: int) | Str(s: string) | Undefined

  /** The properties of an enriched ticket, plus `Missing` for any other name. */
  datatype Field = Id | UserId | Status | Priority | Title | Username | Missing

  /** The property name of a field. */
  function FieldName(f: Field): string
    requires f != Missing
  {
    match f
    case Id => "id"
    case UserId => "userId"
    case Status => "status"
    case Priority => "priority"
    case Title => "title"
    case Username => "username"
  }

  /** The field that `ticket[name]` reads. A `null` criterion reads the
      property "null", which no ticket has. */
  function FieldNamed(name: Option<string>): (f: Field)
    ensures f != Missing ==> name == Some(FieldName(f))
  {
    match name
    case None => Missing
    case Some(n) =>
      if n == "id" then Id
      else if n == "userId" then UserId
      else if n == "status" then Status
      else if n == "priority" then Priority
      else if n == "title" then Title
      else if n == "username" then Username
      else Missing
  }

  /** Looking a field up by its own name finds that field again. */
  lemma FieldNamedRoundTrip(f: Field)
    requires f != Missing
    ensures FieldNamed(Some(FieldName(f))) == f
  {
  }

  /** `ticket[f]` on an enriched ticket. */
  function Get(t: EnrichedTicket, f: Field): Value
  {
    match f
    case Id => Str(t.ticket.id)
    case UserId => Str(t.ticket.userId)
    case Status => Str(t.ticket.status)
    case Priority => Num(t.ticket.priority)
    case Title => Str(t.ticket.title)
    case Username => Str(t.username)
    case Missing => Undefined
  }

  /** Only a criterion naming no field reads `undefined`, and only the
      priority is a number. */
  lemma GetKinds(t: EnrichedTicket, f: Field)
    ensures Get(t, f) == Undefined <==> f == Missing
    ensures Get(t, f).Num? <==> f == Priority
  {
  }

  /** Three-way lexicographic comparison of strings by character code, the
      model's stand-in for `String.prototype.localeCompare`: negative, zero or
      positive as `a` sorts before, together with or after `b`. */
  function LexCompare(a: string, b: string): (r: int)
    ensures -1 <= r <= 1
    ensures a == [] ==> (r == 0 <==> b == [])
    ensures a == [] ==> r <= 0
  {
    if a == [] then (if b == [] then 0 else -1)
    else if b == [] then 1
    else if a[0] < b[0] then -1
    else if b[0] < a[0] then 1
    else LexCompare(a[1..], b[1..])
  }

  /** Two strings compare as equal exactly when they are the same string. */
  lemma {:induction false} LexCompareZero(a: string, b: string)
    ensures LexCompare(a, b) == 0 <==> a == b
    decreases |a|
  {
    if a != [] && b != [] && a[0] == b[0] {
      LexCompareZero(a[1..], b[1..]);
      assert a == [a[0]] + a[1..];
      assert b == [b[0]] + b[1..];
    }
  }

  /** Swapping the arguments negates the comparison. */
  lemma {:induction false} LexCompareFlip(a: string, b: string)
    ensures LexCompare(b, a) == -LexCompare(a, b)
    decreases |a|
  {
    if a != [] && b != [] && a[0] == b[0] {
      LexCompareFlip(a[1..], b[1..]);
    }
  }

  /** "Sorts no later than" is transitive. */
  lemma {:induction false} LexCompareTrans(a: string, b: string, c: string)
    requires LexCompare(a, b) <= 0 && LexCompare(b, c) <= 0
    ensures LexCompare(a, c) <= 0
    decreases |a|
  {
    if a != [] && b != [] && c != [] && a[0] == b[0] && b[0] == c[0] {
      LexCompareTrans(a[1..], b[1..], c[1..]);
    }
  }

  function Rank(v: Value): nat
  {
    match v
    case Num(_) => 0
    case Str(_) => 1
    case Undefined => 2
  }

  /** The order the sort comparator induces on field values: numbers
      numerically, strings lexicographically. Values of different kinds never
      meet in one sort; ranking them keeps the order total. */
  predicate ValueLeq(a: Value, b: Value)
  {
    if a.Num? && b.Num? then a.n <= b.n
    else if a.Str? && b.Str? then LexCompare(a.s, b.s) <= 0
    else Rank(a) <= Rank(b)
  }

  lemma ValueLeqRefl(a: Value)
    ensures ValueLeq(a, a)
  {
    if a.Str? {
      LexCompareZero(a.s, a.s);
    }
  }

  lemma ValueLeqTotal(a: Value, b: Value)
    ensures ValueLeq(a, b) || ValueLeq(b, a)
  {
    if a.Str? && b.Str? {
      LexCompareFlip(a.s, b.s);
    }
  }

  lemma ValueLeqAntisym(a: Value, b: Value)
    requires ValueLeq(a, b) && ValueLeq(b, a)
    ensures a == b
  {
    if a.Str? && b.Str? {
      LexCompareFlip(a.s, b.s);
      LexCompareZero(a.s, b.s);
    }
  }

  lemma ValueLeqTrans(a: Value, b: Value, c: Value)
    requires ValueLeq(a, b) && ValueLeq(b, c)
    ensures ValueLeq(a, c)
  {
    if a.Str? && b.Str? && c.Str? {
      LexCompareTrans(a.s, b.s, c.s);
    }
  }
}
