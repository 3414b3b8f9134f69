/** The saga log as stored: an append-only table whose timestamps are text, and the query for the
    latest row of a saga. */
module SagaLog {
  import opened Options
  import opened Timestamps
  import Orchestrator

  datatype Entry = Entry(saga: string, row: Orchestrator.Row, payload: string, at: Instant)

  /** A table row: an empty payload is stored as NULL, the time as text. */
  datatype Stored = Stored(id: nat, saga: string, row: Orchestrator.Row, payload: Option<string>, at: string)

  function Store(id: nat, e: Entry): Stored {
    Stored(id, e.saga, e.row, if e.payload == "" then None else Some(e.payload), Format(e.at))
  }

  datatype Answer = NotFound | BadTime | Found(entry: Entry)

  function Load(r: Stored): Answer {
    var at := Parse(r.at);
    if at.None? then BadTime else Found(Entry(r.saga, r.row, r.payload.GetOr(""), at.value))
  }

  lemma LoadOfStore(id: nat, e: Entry)
    requires Valid(e.at)
    ensures Load(Store(id, e)) == Found(e)
  {
    ParseOfFormat(e.at);
    hide Parse, Format;
  }

  /** updated_at, then id. */
  predicate Earlier(a: Stored, b: Stored) {
    Less(a.at, b.at) || (a.at == b.at && a.id < b.id)
  }

  /** ORDER BY updated_at DESC, id DESC LIMIT 1, over the rows of a saga. */
  function Latest(rows: seq<Stored>, saga: string): (r: Option<Stored>)
    ensures r.Some? ==> r.value in rows && r.value.saga == saga
    ensures r.None? ==> forall q :: q in rows ==> q.saga != saga
  {
    if rows == [] then None
    else
      var last := rows[|rows| - 1];
      var best := Latest(rows[..|rows| - 1], saga);
      if last.saga == saga && (best.None? || Earlier(best.value, last)) then Some(last) else best
  }

  ghost predicate Numbered(rows: seq<Stored>) {
    forall i :: 0 <= i < |rows| ==> rows[i].id == i + 1
  }

  lemma EarlierIsTransitive(a: Stored, b: Stored, c: Stored)
    requires Earlier(a, b) && Earlier(b, c)
    ensures Earlier(a, c)
  {
    if Less(a.at, b.at) && Less(b.at, c.at) {
      LessIsTransitive(a.at, b.at, c.at);
    }
  }

  lemma EarlierIsTotal(a: Stored, b: Stored)
    requires a.id != b.id
    ensures Earlier(a, b) || Earlier(b, a)
  {
    LessIsTotal(a.at, b.at);
  }

  /** The row found is above every other row of the saga. */
  lemma {:induction false} LatestIsAbove(rows: seq<Stored>, saga: string, q: Stored)
    requires Numbered(rows) && q in rows && q.saga == saga
    ensures Latest(rows, saga).Some?
    ensures q == Latest(rows, saga).value || Earlier(q, Latest(rows, saga).value)
  {
    var n := |rows| - 1;
    var last := rows[n];
    var best := Latest(rows[..n], saga);
    if q in rows[..n] {
      LatestIsAbove(rows[..n], saga, q);
    }
    if best.Some? {
      EarlierIsTotal(best.value, last);
      if q in rows[..n] && q != best.value && Earlier(best.value, last) {
        EarlierIsTransitive(q, best.value, last);
      }
    }
  }

  lemma EarlierIsStrict(a: Stored, b: Stored)
    requires Earlier(a, b)
    ensures !Earlier(b, a) && a != b
  {
    LessIsIrreflexive(a.at);
    if Less(a.at, b.at) && Less(b.at, a.at) {
      LessIsTransitive(a.at, b.at, a.at);
    }
  }

  /** And being above every other row is being the row found. */
  lemma AboveIsLatest(rows: seq<Stored>, saga: string, k: nat)
    requires Numbered(rows) && k < |rows| && rows[k].saga == saga
    ensures Latest(rows, saga) == Some(rows[k])
       <==> forall i :: 0 <= i < |rows| && i != k && rows[i].saga == saga ==> Earlier(rows[i], rows[k])
  {
    LatestIsAbove(rows, saga, rows[k]);
    var r := Latest(rows, saga).value;
    if r == rows[k] {
      forall i | 0 <= i < |rows| && i != k && rows[i].saga == saga
        ensures Earlier(rows[i], rows[k])
      {
        LatestIsAbove(rows, saga, rows[i]);
      }
    } else {
      var i :| 0 <= i < |rows| && rows[i] == r;
      EarlierIsStrict(rows[k], r);
    }
  }

  /** The table after appending entries one by one. */
  function Table(entries: seq<Entry>): (rows: seq<Stored>)
    ensures |rows| == |entries|
    ensures forall i :: 0 <= i < |rows| ==> rows[i] == Store(i + 1, entries[i])
  {
    hide Store;
    if entries == [] then []
    else Table(entries[..|entries| - 1]) + [Store(|entries|, entries[|entries| - 1])]
  }

  /** The clock of one saga does not run backwards. */
  ghost predicate Monotone(entries: seq<Entry>, saga: string) {
    forall i, j :: 0 <= i < j < |entries| && entries[i].saga == saga && entries[j].saga == saga
      ==> !Before(entries[j].at, entries[i].at)
  }

  /** An earlier row in the same second whose fraction digits begin those of the row in question. */
  ghost predicate Overshadows(e: Entry, last: Entry) {
    e.at != last.at && SameSecond(e.at, last.at) && ProperPrefix(Fraction(e.at.nano), Fraction(last.at.nano))
  }

  lemma StoredOrder(e: Entry, last: Entry, i: nat, k: nat)
    requires Valid(e.at) && Valid(last.at) && i < k && !Before(last.at, e.at)
    ensures Earlier(Store(i, e), Store(k, last)) <==> !Overshadows(e, last)
  {
    if e.at == last.at {
      LessIsIrreflexive(Format(e.at));
    } else {
      assert Before(e.at, last.at);
      TextOrderExactly(e.at, last.at);
      if Format(e.at) == Format(last.at) {
        LessIsIrreflexive(Format(e.at));
      }
    }
    hide Format, Less, Fraction, DaysIn;
  }

  /** GetLatest answers with the last row a saga wrote exactly when no earlier row of the saga
      overshadows it. */
  lemma LatestIsLastExactly(entries: seq<Entry>, saga: string, k: nat)
    requires k < |entries| && entries[k].saga == saga
    requires forall i :: k < i < |entries| ==> entries[i].saga != saga
    requires forall i :: 0 <= i < |entries| ==> Valid(entries[i].at)
    requires Monotone(entries, saga)
    ensures Latest(Table(entries), saga) == Some(Store(k + 1, entries[k]))
       <==> forall i :: 0 <= i < k && entries[i].saga == saga ==> !Overshadows(entries[i], entries[k])
  {
    hide Overshadows, Earlier, Store, Valid, Before, Latest, Table;
    var rows := Table(entries);
    assert forall i :: 0 <= i < |rows| ==> rows[i].saga == entries[i].saga by { SagasStored(entries); }
    assert Numbered(rows) by { RowsNumbered(entries); }
    AboveIsLatest(rows, saga, k);
    forall i | 0 <= i < k && entries[i].saga == saga
      ensures Earlier(rows[i], rows[k]) <==> !Overshadows(entries[i], entries[k])
    {
      StoredOrder(entries[i], entries[k], i + 1, k + 1);
    }
  }

  lemma RowsNumbered(entries: seq<Entry>)
    ensures Numbered(Table(entries))
  {
  }

  lemma SagasStored(entries: seq<Entry>)
    ensures forall i :: 0 <= i < |entries| ==> Table(entries)[i].saga == entries[i].saga
  {
  }

  class Repository {
    var rows: seq<Stored>
    ghost var entries: seq<Entry>

    ghost predicate Good()
      reads this
    {
      rows == Table(entries) && forall i :: 0 <= i < |entries| ==> Valid(entries[i].at)
    }

    constructor ()
      ensures Good() && entries == []
    {
      rows, entries := [], [];
    }

    /** Appends a row, or fails and appends nothing. */
    method Save(e: Entry) returns (ok: bool)
      requires Good() && Valid(e.at)
      modifies this
      ensures Good() && entries == old(entries) + (if ok then [e] else [])
      ensures !ok ==> rows == old(rows)
      ensures ok ==> rows == old(rows) + [Stored(|old(rows)| + 1, e.saga, e.row,
                                                 if e.payload == "" then None else Some(e.payload), Format(e.at))]
    {
      hide Format, Valid;
      ok := *;
      if ok {
        var payload := if e.payload == "" then None else Some(e.payload);
        rows := rows + [Stored(|rows| + 1, e.saga, e.row, payload, Format(e.at))];
        entries := entries + [e];
        assert entries[..|entries| - 1] == old(entries);
      }
    }

    /** The stored time always parses, and what was saved comes back whole. */
    method GetLatest(saga: string) returns (answer: Answer)
      requires Good()
      ensures answer.NotFound? <==> forall e :: e in entries ==> e.saga != saga
      ensures !answer.BadTime?
      ensures answer.Found? ==>
        exists k :: && 0 <= k < |entries| && answer.entry == entries[k]
                    && Latest(rows, saga) == Some(Store(k + 1, entries[k]))
    {
      hide Format, Valid, Parse;
      var r := Latest(rows, saga);
      if r.None? {
        forall e | e in entries ensures e.saga != saga {
          var i :| 0 <= i < |entries| && entries[i] == e;
          assert rows[i] in rows && rows[i].saga == e.saga;
        }
        return NotFound;
      }
      ghost var k :| 0 <= k < |rows| && rows[k] == r.value;
      LoadOfStore(k + 1, entries[k]);
      answer := Load(r.value);
    }
  }

  /** Of two rows of a saga, the later one is never found again if the earlier one overshadows it. */
  lemma OvershadowedIsMissed(first: Entry, second: Entry)
    requires first.saga == second.saga && Valid(first.at) && Valid(second.at)
    requires !Before(second.at, first.at) && Overshadows(first, second)
    ensures Latest(Table([first, second]), first.saga) == Some(Store(1, first))
  {
    hide Latest, Format, Valid, Before, Overshadows, Earlier, Table;
    var entries := [first, second];
    var rows := Table(entries);
    LatestIsLastExactly(entries, first.saga, 1);
    assert rows[0].saga == first.saga && rows[0] in rows;
    assert rows == [Store(1, first), Store(2, second)];
  }

  function Noon(nano: nat): Instant {
    Instant(2024, 1, 1, 12, 0, 0, nano)
  }

  /** A saga that completed a hundredth of a second after its last step still reads as not completed. */
  lemma CompletedReadsAsStepDone()
    ensures var done := Entry("o", Orchestrator.Row(Orchestrator.STEP_DONE, "s", []), "", Noon(500_000_000));
            var completed := Entry("o", Orchestrator.Row(Orchestrator.COMPLETED, "", []), "", Noon(510_000_000));
            Latest(Table([done, completed]), "o") == Some(Store(1, done))
  {
    hide Latest, Table, Fraction;
    var done := Entry("o", Orchestrator.Row(Orchestrator.STEP_DONE, "s", []), "", Noon(500_000_000));
    var completed := Entry("o", Orchestrator.Row(Orchestrator.COMPLETED, "", []), "", Noon(510_000_000));
    FractionOfHalf();
    OvershadowedIsMissed(done, completed);
  }
}
