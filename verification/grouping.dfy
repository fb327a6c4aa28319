/** `groupBy` (KanbanBoard.jsx): a single left-to-right pass that appends each
    ticket to the bucket named by the value of the chosen field. */
module Grouping {
  import opened Tickets

  /** The tickets of `s` whose field `f` holds `v`, in input order: the
      reference against which the buckets are judged. */
  function Select(s: seq<EnrichedTicket>, f: Field, v: Value): (r: seq<EnrichedTicket>)
    ensures |r| <= |s|
  {
    if s == [] then []
    else (if Get(s[0], f) == v then [s[0]] else []) + Select(s[1..], f, v)
  }

  /** Each ticket occurs in the selection for its own key exactly as often as
      in the input, and in no other selection. */
  lemma {:induction false} SelectCount(s: seq<EnrichedTicket>, f: Field, v: Value, t: EnrichedTicket)
    ensures multiset(Select(s, f, v))[t] == Share(s, f, v, t)
    decreases |s|
  {
    if s != [] {
      SelectCount(s[1..], f, v, t);
      assert s == [s[0]] + s[1..];
    }
  }

  lemma SelectCons(t: EnrichedTicket, s: seq<EnrichedTicket>, f: Field, v: Value)
    ensures Select([t] + s, f, v) == (if Get(t, f) == v then [t] else []) + Select(s, f, v)
  {
    assert ([t] + s)[1..] == s;
  }

  /** Selecting from a concatenation selects from each part. */
  lemma {:induction false} SelectAppend(a: seq<EnrichedTicket>, b: seq<EnrichedTicket>, f: Field, v: Value)
    ensures Select(a + b, f, v) == Select(a, f, v) + Select(b, f, v)
    decreases |a|
  {
    if a == [] {
      assert a + b == b;
    } else {
      SelectAppend(a[1..], b, f, v);
      assert a + b == [a[0]] + (a[1..] + b);
      SelectCons(a[0], a[1..] + b, f, v);
      SelectCons(a[0], a[1..], f, v);
      assert a == [a[0]] + a[1..];
    }
  }

  /** `idx` places the elements of `a`, in order, at strictly increasing
      positions of `b`: `a` is `b` with some elements deleted. */
  ghost predicate OrderedEmbedding(a: seq<EnrichedTicket>, b: seq<EnrichedTicket>, idx: seq<int>)
  {
    && |idx| == |a|
    && (forall i :: 0 <= i < |idx| ==> 0 <= idx[i] < |b| && b[idx[i]] == a[i])
    && (forall i, j :: 0 <= i < j < |idx| ==> idx[i] < idx[j])
  }

  function Shift(idx: seq<int>): (r: seq<int>)
    ensures |r| == |idx|
    ensures forall i :: 0 <= i < |idx| ==> r[i] == idx[i] + 1
  {
    seq(|idx|, i requires 0 <= i < |idx| => idx[i] + 1)
  }

  lemma EmbedSkip(a: seq<EnrichedTicket>, b: seq<EnrichedTicket>, idx: seq<int>)
    requires b != [] && OrderedEmbedding(a, b[1..], idx)
    ensures OrderedEmbedding(a, b, Shift(idx))
  {
  }

  lemma EmbedKeep(a: seq<EnrichedTicket>, b: seq<EnrichedTicket>, idx: seq<int>)
    requires b != [] && OrderedEmbedding(a, b[1..], idx)
    ensures OrderedEmbedding([b[0]] + a, b, [0] + Shift(idx))
  {
  }

  /** A selection keeps the relative order of the input. */
  lemma {:induction false} SelectKeepsOrder(s: seq<EnrichedTicket>, f: Field, v: Value) returns (idx: seq<int>)
    ensures OrderedEmbedding(Select(s, f, v), s, idx)
    decreases |s|
  {
    if s == [] {
      idx := [];
    } else {
      var rest := SelectKeepsOrder(s[1..], f, v);
      SelectCons(s[0], s[1..], f, v);
      assert [s[0]] + s[1..] == s;
      if Get(s[0], f) == v {
        EmbedKeep(Select(s[1..], f, v), s, rest);
        idx := [0] + Shift(rest);
      } else {
        EmbedSkip(Select(s[1..], f, v), s, rest);
        idx := Shift(rest);
      }
    }
  }

  /** The values field `f` takes across `ts`. */
  function KeysOf(ts: seq<EnrichedTicket>, f: Field): set<Value>
  {
    set t | t in ts :: Get(t, f)
  }

  /** The reducer callback of `groupBy`: create the ticket's bucket when it
      is absent, then push the ticket onto it. */
  function Push(grouped: map<Value, seq<EnrichedTicket>>, t: EnrichedTicket, f: Field): (r: map<Value, seq<EnrichedTicket>>)
  {
    var key := Get(t, f);
    var created := if key in grouped then grouped else grouped[key := []];
    created[key := created[key] + [t]]
  }

  /** The callback appends the ticket to its own bucket, creating the bucket
      when absent, and leaves every other bucket alone. */
  lemma PushAppends(grouped: map<Value, seq<EnrichedTicket>>, t: EnrichedTicket, f: Field)
    ensures Push(grouped, t, f).Keys == grouped.Keys + {Get(t, f)}
    ensures Get(t, f) in grouped ==> Push(grouped, t, f)[Get(t, f)] == grouped[Get(t, f)] + [t]
    ensures Get(t, f) !in grouped ==> Push(grouped, t, f)[Get(t, f)] == [t]
    ensures forall k :: k in grouped && k != Get(t, f) ==> Push(grouped, t, f)[k] == grouped[k]
  {
    assert [] + [t] == [t];
  }

  /** `tickets.reduce(callback, {})`. */
  function GroupBy(ts: seq<EnrichedTicket>, f: Field): (g: map<Value, seq<EnrichedTicket>>)
    ensures forall k :: k in g ==> g[k] != []
  {
    if ts == [] then map[]
    else Push(GroupBy(ts[..|ts| - 1], f), ts[|ts| - 1], f)
  }

  /** The buckets are exactly the selections: one per value the field takes,
      holding the tickets with that value in input order. */
  lemma {:induction false} GroupBySelects(ts: seq<EnrichedTicket>, f: Field)
    ensures GroupBy(ts, f).Keys == KeysOf(ts, f)
    ensures forall k :: k in GroupBy(ts, f) ==> GroupBy(ts, f)[k] == Select(ts, f, k)
    decreases |ts|
  {
    if ts != [] {
      var front := ts[..|ts| - 1];
      GroupBySelects(front, f);
      PushSelects(GroupBy(front, f), front, ts[|ts| - 1], f);
      assert ts == front + [ts[|ts| - 1]];
    }
  }

  /** One step of the reduce keeps the buckets equal to the selections. */
  lemma PushSelects(grouped: map<Value, seq<EnrichedTicket>>, front: seq<EnrichedTicket>, t: EnrichedTicket, f: Field)
    requires grouped.Keys == KeysOf(front, f)
    requires forall k :: k in grouped ==> grouped[k] == Select(front, f, k)
    ensures Push(grouped, t, f).Keys == KeysOf(front + [t], f)
    ensures forall k :: k in Push(grouped, t, f) ==> Push(grouped, t, f)[k] == Select(front + [t], f, k)
  {
    PushKeys(grouped, front, t, f);
    forall k | k in Push(grouped, t, f) ensures Push(grouped, t, f)[k] == Select(front + [t], f, k) {
      PushBucket(grouped, front, t, f, k);
    }
  }

  lemma PushKeys(grouped: map<Value, seq<EnrichedTicket>>, front: seq<EnrichedTicket>, t: EnrichedTicket, f: Field)
    requires grouped.Keys == KeysOf(front, f)
    ensures Push(grouped, t, f).Keys == KeysOf(front + [t], f)
  {
    assert forall u :: u in front + [t] <==> u in front || u == t;
    assert KeysOf(front + [t], f) == KeysOf(front, f) + {Get(t, f)};
  }

  lemma PushBucket(grouped: map<Value, seq<EnrichedTicket>>, front: seq<EnrichedTicket>, t: EnrichedTicket, f: Field, k: Value)
    requires grouped.Keys == KeysOf(front, f)
    requires k in grouped ==> grouped[k] == Select(front, f, k)
    requires k in Push(grouped, t, f)
    ensures Push(grouped, t, f)[k] == Select(front + [t], f, k)
  {
    SelectAppend(front, [t], f, k);
    SelectCons(t, [], f, k);
    assert [t] + [] == [t];
    if k !in grouped {
      SelectAbsent(front, f, k);
    }
  }

  lemma SelectAbsent(s: seq<EnrichedTicket>, f: Field, v: Value)
    requires v !in KeysOf(s, f)
    ensures Select(s, f, v) == []
  {
    forall t ensures multiset(Select(s, f, v))[t] == 0 {
      SelectCount(s, f, v, t);
      if t in s {
        assert Get(t, f) in KeysOf(s, f);
      }
    }
    assert multiset(Select(s, f, v)) == multiset{};
  }

  /** `g` splits `ts` by field `f`: every ticket's key is a bucket, and each
      bucket holds exactly the copies of the tickets with that key. */
  ghost predicate IsPartition(g: map<Value, seq<EnrichedTicket>>, ts: seq<EnrichedTicket>, f: Field)
  {
    && (forall t :: t in ts ==> Get(t, f) in g)
    && (forall k, t :: k in g ==> multiset(g[k])[t] == Share(ts, f, k, t))
  }

  /** How many copies of `t` belong in the bucket for `k`. */
  function Share(ts: seq<EnrichedTicket>, f: Field, k: Value, t: EnrichedTicket): nat
  {
    if Get(t, f) == k then multiset(ts)[t] else 0
  }

  /** Grouping is a partition: every ticket lands in the bucket of its own
      key, once per occurrence, and in no other bucket. */
  lemma GroupByPartition(ts: seq<EnrichedTicket>, f: Field)
    ensures IsPartition(GroupBy(ts, f), ts, f)
  {
    GroupBySelects(ts, f);
    SelectionsPartition(GroupBy(ts, f), ts, f);
  }

  /** Any map holding one selection per key value is a partition. */
  lemma SelectionsPartition(g: map<Value, seq<EnrichedTicket>>, ts: seq<EnrichedTicket>, f: Field)
    requires g.Keys == KeysOf(ts, f)
    requires forall k :: k in g ==> g[k] == Select(ts, f, k)
    ensures IsPartition(g, ts, f)
  {
    forall t | t in ts ensures Get(t, f) in g {
      assert Get(t, f) in KeysOf(ts, f);
    }
    forall k, t | k in g
      ensures multiset(g[k])[t] == Share(ts, f, k, t)
    {
      SelectCount(ts, f, k, t);
    }
  }

  /** The tickets of the buckets named by `order`, bucket after bucket: what a
      reader sees scanning the columns in that order. */
  function Flatten(g: map<Value, seq<EnrichedTicket>>, order: seq<Value>): seq<EnrichedTicket>
  {
    if order == [] then []
    else (if order[0] in g then g[order[0]] else []) + Flatten(g, order[1..])
  }

  ghost predicate Distinct(order: seq<Value>)
  {
    forall i, j :: 0 <= i < j < |order| ==> order[i] != order[j]
  }

  lemma {:induction false} FlattenCount(g: map<Value, seq<EnrichedTicket>>, ts: seq<EnrichedTicket>, f: Field, order: seq<Value>, t: EnrichedTicket)
    requires IsPartition(g, ts, f)
    requires Distinct(order)
    ensures multiset(Flatten(g, order))[t] == if Get(t, f) in order then multiset(ts)[t] else 0
    decreases |order|
  {
    if order != [] {
      FlattenCount(g, ts, f, order[1..], t);
      assert order == [order[0]] + order[1..];
      assert order[0] !in order[1..];
      if order[0] !in g && Get(t, f) == order[0] {
        assert t !in ts;
      }
    }
  }

  /** Reading every bucket once, in any order of the keys, yields the input
      tickets, each as often as it occurs there. */
  lemma FlattenPermutation(g: map<Value, seq<EnrichedTicket>>, ts: seq<EnrichedTicket>, f: Field, order: seq<Value>)
    requires IsPartition(g, ts, f)
    requires Distinct(order)
    requires forall k :: k in g ==> k in order
    ensures multiset(Flatten(g, order)) == multiset(ts)
  {
    forall t ensures multiset(Flatten(g, order))[t] == multiset(ts)[t] {
      FlattenCount(g, ts, f, order, t);
    }
  }
}
