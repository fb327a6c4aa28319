/** `sortTickets` (KanbanBoard.jsx): copy the bucket, then sort the copy with a
    three-branch comparator. `Array.prototype.sort` is stable, so the result is
    the stable sort under that comparator; the model computes it by insertion
    and proves that every stable sort yields the same sequence. */
module Sorting {
  import opened Wrappers
  import opened Tickets
  import opened Grouping

  /** The field the comparator orders by: `priority` and `title` are
      recognised, every other criterion (and `null`) compares all tickets
      as equal. */
  function SortField(criterion: Option<string>): Field
  {
    if criterion == Some("priority") then Priority
    else if criterion == Some("title") then Title
    else Missing
  }

  /** The comparator passed to `sort`: negative, zero or positive as `a`
      belongs before, level with or after `b`. */
  function Comparator(criterion: Option<string>, a: EnrichedTicket, b: EnrichedTicket): (r: int)
    ensures r <= 0 <==> ValueLeq(Get(a, SortField(criterion)), Get(b, SortField(criterion)))
    ensures r == 0 <==> Get(a, SortField(criterion)) == Get(b, SortField(criterion))
  {
    if criterion == Some("priority") then a.ticket.priority - b.ticket.priority
    else if criterion == Some("title") then
      LexCompareZero(a.ticket.title, b.ticket.title);
      LexCompare(a.ticket.title, b.ticket.title)
    else 0
  }

  /** Place `x` before the first element it does not sort after. */
  function Insert(criterion: Option<string>, x: EnrichedTicket, s: seq<EnrichedTicket>): (r: seq<EnrichedTicket>)
    ensures multiset(r) == multiset{x} + multiset(s)
  {
    if s == [] then [x]
    else if Comparator(criterion, x, s[0]) <= 0 then [x] + s
    else
      assert s == [s[0]] + s[1..];
      [s[0]] + Insert(criterion, x, s[1..])
  }

  /** A sorted copy of `s`; `s` itself is a value and is never changed. */
  function SortTickets(s: seq<EnrichedTicket>, criterion: Option<string>): (r: seq<EnrichedTicket>)
    ensures multiset(r) == multiset(s)
  {
    if s == [] then []
    else
      assert s == [s[0]] + s[1..];
      Insert(criterion, s[0], SortTickets(s[1..], criterion))
  }

  /** Non-decreasing in field `f`. */
  ghost predicate SortedBy(s: seq<EnrichedTicket>, f: Field)
  {
    forall i, j :: 0 <= i < j < |s| ==> ValueLeq(Get(s[i], f), Get(s[j], f))
  }

  /** Tickets that agree on field `f` appear in `r` in the same relative order
      as in `s`, and `r` has exactly the tickets of `s`. */
  ghost predicate StableBy(r: seq<EnrichedTicket>, s: seq<EnrichedTicket>, f: Field)
  {
    forall v :: Select(r, f, v) == Select(s, f, v)
  }

  /** `v` is no greater than field `f` of any ticket of `s`. */
  ghost predicate LowerBound(v: Value, s: seq<EnrichedTicket>, f: Field)
  {
    forall t :: t in s ==> ValueLeq(v, Get(t, f))
  }

  lemma SortedCons(x: EnrichedTicket, s: seq<EnrichedTicket>, f: Field)
    requires SortedBy(s, f) && LowerBound(Get(x, f), s, f)
    ensures SortedBy([x] + s, f)
  {
    var r := [x] + s;
    forall i, j | 0 <= i < j < |r| ensures ValueLeq(Get(r[i], f), Get(r[j], f)) {
      if i == 0 {
        assert r[j] == s[j - 1];
        assert r[j] in s;
      } else {
        assert r[i] == s[i - 1] && r[j] == s[j - 1];
      }
    }
  }

  lemma SortedHead(s: seq<EnrichedTicket>, f: Field)
    requires s != [] && SortedBy(s, f)
    ensures SortedBy(s[1..], f)
    ensures LowerBound(Get(s[0], f), s[1..], f)
  {
    forall t | t in s[1..] ensures ValueLeq(Get(s[0], f), Get(t, f)) {
      var j :| 0 <= j < |s[1..]| && s[1..][j] == t;
      assert s[j + 1] == t;
    }
  }

  lemma {:induction false} InsertSorted(criterion: Option<string>, x: EnrichedTicket, s: seq<EnrichedTicket>)
    requires SortedBy(s, SortField(criterion))
    ensures SortedBy(Insert(criterion, x, s), SortField(criterion))
    decreases |s|
  {
    var f := SortField(criterion);
    if s == [] {
    } else if Comparator(criterion, x, s[0]) <= 0 {
      SortedHead(s, f);
      forall t | t in s ensures ValueLeq(Get(x, f), Get(t, f)) {
        if t != s[0] {
          assert t in s[1..] by {
            var j :| 0 <= j < |s| && s[j] == t;
            assert s[1..][j - 1] == t;
          }
          ValueLeqTrans(Get(x, f), Get(s[0], f), Get(t, f));
        } else {
          assert ValueLeq(Get(x, f), Get(s[0], f));
        }
      }
      SortedCons(x, s, f);
    } else {
      SortedHead(s, f);
      InsertSorted(criterion, x, s[1..]);
      var rest := Insert(criterion, x, s[1..]);
      ValueLeqTotal(Get(x, f), Get(s[0], f));
      forall t | t in rest ensures ValueLeq(Get(s[0], f), Get(t, f)) {
        assert t in multiset(rest);
        assert t == x || t in multiset(s[1..]);
      }
      SortedCons(s[0], rest, f);
    }
  }

  /** Moving `x` past a ticket with a different key changes no selection. */
  lemma SelectSwap(y: EnrichedTicket, x: EnrichedTicket, rest: seq<EnrichedTicket>, tail: seq<EnrichedTicket>, f: Field, v: Value)
    requires Get(x, f) != Get(y, f)
    requires Select(rest, f, v) == Select([x] + tail, f, v)
    ensures Select([y] + rest, f, v) == Select([x] + ([y] + tail), f, v)
  {
    SelectCons(y, rest, f, v);
    SelectCons(x, tail, f, v);
    SelectCons(x, [y] + tail, f, v);
    SelectCons(y, tail, f, v);
  }

  /** Inserting into a sorted sequence keeps, for each key value, the inserted
      ticket ahead of the tickets already there. */
  lemma {:induction false} InsertSelect(criterion: Option<string>, x: EnrichedTicket, s: seq<EnrichedTicket>, v: Value)
    requires SortedBy(s, SortField(criterion))
    ensures Select(Insert(criterion, x, s), SortField(criterion), v) == Select([x] + s, SortField(criterion), v)
    decreases |s|
  {
    var f := SortField(criterion);
    if s != [] && Comparator(criterion, x, s[0]) > 0 {
      SortedHead(s, f);
      InsertSelect(criterion, x, s[1..], v);
      SelectSwap(s[0], x, Insert(criterion, x, s[1..]), s[1..], f, v);
      assert s == [s[0]] + s[1..];
    }
  }

  /** The sorted copy is ordered by the criterion's field. */
  lemma {:induction false} SortTicketsSorted(s: seq<EnrichedTicket>, criterion: Option<string>)
    ensures SortedBy(SortTickets(s, criterion), SortField(criterion))
    decreases |s|
  {
    if s != [] {
      SortTicketsSorted(s[1..], criterion);
      InsertSorted(criterion, s[0], SortTickets(s[1..], criterion));
    }
  }

  /** The sorted copy keeps tickets the comparator ties in input order. */
  lemma {:induction false} SortTicketsStable(s: seq<EnrichedTicket>, criterion: Option<string>)
    ensures StableBy(SortTickets(s, criterion), s, SortField(criterion))
    decreases |s|
  {
    if s != [] {
      var f := SortField(criterion);
      SortTicketsStable(s[1..], criterion);
      SortTicketsSorted(s[1..], criterion);
      forall v ensures Select(SortTickets(s, criterion), f, v) == Select(s, f, v) {
        InsertSelect(criterion, s[0], SortTickets(s[1..], criterion), v);
        SelectCons(s[0], SortTickets(s[1..], criterion), f, v);
        SelectCons(s[0], s[1..], f, v);
        assert s == [s[0]] + s[1..];
      }
    }
  }

  /** Sequences that agree on every selection hold the same tickets. */
  lemma StableSameTickets(a: seq<EnrichedTicket>, b: seq<EnrichedTicket>, f: Field)
    requires StableBy(a, b, f)
    ensures multiset(a) == multiset(b)
  {
    forall t ensures multiset(a)[t] == multiset(b)[t] {
      var v := Get(t, f);
      assert Select(a, f, v) == Select(b, f, v);
      SelectCount(a, f, v, t);
      SelectCount(b, f, v, t);
    }
  }

  /** Two non-empty sequences sorted by `f` that agree on every selection
      start with the same ticket. */
  lemma SortedStableHeads(a: seq<EnrichedTicket>, b: seq<EnrichedTicket>, f: Field)
    requires SortedBy(a, f) && SortedBy(b, f)
    requires StableBy(a, b, f)
    requires a != [] && b != []
    ensures a[0] == b[0]
  {
    StableSameTickets(a, b, f);
    var ka, kb := Get(a[0], f), Get(b[0], f);
    assert b[0] in multiset(a);
    var i :| 0 <= i < |a| && a[i] == b[0];
    assert a[0] in multiset(b);
    var j :| 0 <= j < |b| && b[j] == a[0];
    ValueLeqRefl(ka);
    ValueLeqRefl(kb);
    assert ValueLeq(ka, kb);
    assert ValueLeq(kb, ka);
    ValueLeqAntisym(ka, kb);
    var sa, sb := Select(a, f, ka), Select(b, f, ka);
    assert sa == sb;
    assert sa == [a[0]] + Select(a[1..], f, ka);
    assert sb == [b[0]] + Select(b[1..], f, ka);
    assert sa[0] == a[0] && sb[0] == b[0];
  }

  /** Dropping an equal head keeps the selections in agreement. */
  lemma StableTails(a: seq<EnrichedTicket>, b: seq<EnrichedTicket>, f: Field)
    requires StableBy(a, b, f)
    requires a != [] && b != [] && a[0] == b[0]
    ensures StableBy(a[1..], b[1..], f)
  {
    forall v ensures Select(a[1..], f, v) == Select(b[1..], f, v) {
      var h := if Get(a[0], f) == v then [a[0]] else [];
      var sa, sb := Select(a, f, v), Select(b, f, v);
      assert sa == sb;
      assert sa == h + Select(a[1..], f, v);
      assert sb == h + Select(b[1..], f, v);
      assert Select(a[1..], f, v) == sa[|h|..];
      assert Select(b[1..], f, v) == sb[|h|..];
    }
  }

  /** Two sequences sorted by `f` that agree on every selection are equal:
      a stable sort has only one possible result. */
  lemma {:induction false} SortedStableUnique(a: seq<EnrichedTicket>, b: seq<EnrichedTicket>, f: Field)
    requires SortedBy(a, f) && SortedBy(b, f)
    requires StableBy(a, b, f)
    ensures a == b
    decreases |a|
  {
    StableSameTickets(a, b, f);
    assert |a| == |multiset(a)| == |multiset(b)| == |b|;
    if a != [] {
      SortedStableHeads(a, b, f);
      StableTails(a, b, f);
      SortedHead(a, f);
      SortedHead(b, f);
      SortedStableUnique(a[1..], b[1..], f);
      assert a == [a[0]] + a[1..];
      assert b == [b[0]] + b[1..];
    }
  }

  /** The result of `sortTickets` is characterised without reference to any
      algorithm: it is the one sequence that is sorted by the criterion's field
      and keeps tickets with equal keys in input order. */
  lemma SortTicketsCharacterised(s: seq<EnrichedTicket>, criterion: Option<string>, r: seq<EnrichedTicket>)
    ensures r == SortTickets(s, criterion)
        <==> SortedBy(r, SortField(criterion)) && StableBy(r, s, SortField(criterion))
  {
    var f := SortField(criterion);
    var q := SortTickets(s, criterion);
    SortTicketsSorted(s, criterion);
    SortTicketsStable(s, criterion);
    if SortedBy(r, f) && StableBy(r, s, f) {
      SortedStableUnique(r, q, f);
    }
  }

  /** Any criterion other than `priority` or `title` leaves the order as it was. */
  lemma SortTicketsOtherCriterion(s: seq<EnrichedTicket>, criterion: Option<string>)
    requires criterion != Some("priority") && criterion != Some("title")
    ensures SortTickets(s, criterion) == s
  {
    SortTicketsCharacterised(s, criterion, s);
  }

  /** Sorting an already sorted copy changes nothing. */
  lemma SortTicketsIdempotent(s: seq<EnrichedTicket>, criterion: Option<string>)
    ensures SortTickets(SortTickets(s, criterion), criterion) == SortTickets(s, criterion)
  {
    var q := SortTickets(s, criterion);
    SortTicketsSorted(s, criterion);
    SortTicketsCharacterised(q, criterion, q);
  }

  /** By priority: non-decreasing priorities, and tickets of equal priority in
      input order. */
  lemma SortByPriority(s: seq<EnrichedTicket>)
    ensures var r := SortTickets(s, Some("priority"));
      && (forall i, j :: 0 <= i < j < |r| ==> r[i].ticket.priority <= r[j].ticket.priority)
      && (forall p :: Select(r, Priority, Num(p)) == Select(s, Priority, Num(p)))
  {
    SortTicketsSorted(s, Some("priority"));
    SortTicketsStable(s, Some("priority"));
  }

  /** By title: titles in non-decreasing lexicographic order, and tickets with
      the same title in input order. */
  lemma SortByTitle(s: seq<EnrichedTicket>)
    ensures var r := SortTickets(s, Some("title"));
      && (forall i, j :: 0 <= i < j < |r| ==> LexCompare(r[i].ticket.title, r[j].ticket.title) <= 0)
      && (forall x :: Select(r, Title, Str(x)) == Select(s, Title, Str(x)))
  {
    SortTicketsSorted(s, Some("title"));
    SortTicketsStable(s, Some("title"));
  }
}
