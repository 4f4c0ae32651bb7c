/**
 The execution event log: the PostgreSQL store over an abstract table, the in-memory store, and
 the coordinator that allocates sequence numbers.

 A table keeps, per execution, its rows in the order they were committed.
 */
module EventLog {
  import opened Ordering
  import opened Prelude

  datatype Record = Record(eventId: string, executionId: string, sequence: int, kind: string)

  type Table = map<string, seq<Record>>

  function Rows(t: Table, execution: string): seq<Record> {
    if execution in t then t[execution] else []
  }

  function After(rows: seq<Record>, sequence: int): seq<Record> {
    if rows == [] then []
    else if rows[0].sequence > sequence then [rows[0]] + After(rows[1..], sequence)
    else After(rows[1..], sequence)
  }

  function UpTo(rows: seq<Record>, sequence: int): seq<Record> {
    if rows == [] then []
    else if rows[0].sequence <= sequence then [rows[0]] + UpTo(rows[1..], sequence)
    else UpTo(rows[1..], sequence)
  }

  predicate Earlier(a: Record, b: Record) {
    a.sequence < b.sequence
  }

  /** `ORDER BY sequence`, and Python's stable `sorted` by sequence. */
  function BySequence(rows: seq<Record>): (sorted: seq<Record>)
    ensures |sorted| == |rows|
  {
    SortElements(Earlier, rows);
    Sort(Earlier, rows)
  }

  predicate Increasing(rows: seq<Record>) {
    forall i, j :: 0 <= i < j < |rows| ==> rows[i].sequence < rows[j].sequence
  }

  /** The highest sequence, 0 when there are no rows. */
  function Top(rows: seq<Record>): int {
    if rows == [] then 0 else BySequence(rows)[|BySequence(rows)| - 1].sequence
  }

  // ---------------------------------------------------------------------------
  // Batches, on values
  // ---------------------------------------------------------------------------

  /** The events of one execution, in the order given. */
  function Batch(events: seq<Record>, execution: string): seq<Record> {
    if events == [] then []
    else Batch(events[..|events| - 1], execution) +
         if events[|events| - 1].executionId == execution then [events[|events| - 1]] else []
  }

  function Executions(events: seq<Record>): set<string> {
    set i | 0 <= i < |events| :: events[i].executionId
  }

  predicate Contiguous(rows: seq<Record>, from: int) {
    forall i :: 0 <= i < |rows| ==> rows[i].sequence == from + i
  }

  /** The sequence before position i, where `previous` comes before the first. */
  function Prior(rows: seq<Record>, previous: int, i: nat): int
    requires i <= |rows|
  {
    if i == 0 then previous else rows[i - 1].sequence
  }

  predicate Ascending(rows: seq<Record>, previous: int) {
    forall i :: 0 <= i < |rows| ==> rows[i].sequence > Prior(rows, previous, i)
  }

  predicate Gapless(rows: seq<Record>, previous: int) {
    forall i :: 0 <= i < |rows| ==> rows[i].sequence <= Prior(rows, previous, i) + 1
  }

  function LastSequence(rows: seq<Record>): int {
    if rows == [] then 0 else rows[|rows| - 1].sequence
  }

  function Extended(t: Table, batches: map<string, seq<Record>>): Table {
    map e | e in t.Keys + batches.Keys :: Rows(t, e) + if e in batches then batches[e] else []
  }

  function Grouped(events: seq<Record>): map<string, seq<Record>> {
    map e | e in Executions(events) :: Batch(events, e)
  }

  /** The PostgreSQL store takes an execution's batch whose sequences, once sorted, continue the
      rows it has without a gap. */
  predicate PgTakes(t: Table, execution: string, batch: seq<Record>) {
    Contiguous(BySequence(batch), Top(Rows(t, execution)) + 1)
  }

  predicate PgTakesAll(t: Table, grouped: map<string, seq<Record>>) {
    forall e :: e in grouped ==> PgTakes(t, e, grouped[e])
  }

  predicate PgAccepts(t: Table, events: seq<Record>) {
    PgTakesAll(t, Grouped(events))
  }

  function SortedBatches(grouped: map<string, seq<Record>>): map<string, seq<Record>> {
    map e | e in grouped :: BySequence(grouped[e])
  }

  function PgAppendMany(t: Table, events: seq<Record>): Table {
    if events != [] && PgAccepts(t, events) then Extended(t, SortedBatches(Grouped(events))) else t
  }

  /** The in-memory store takes an execution's batch that ascends, in the order given, past what
      it has. */
  predicate MemTakes(m: Table, execution: string, batch: seq<Record>) {
    Ascending(batch, LastSequence(Rows(m, execution)))
  }

  predicate MemTakesAll(m: Table, grouped: map<string, seq<Record>>) {
    forall e :: e in grouped ==> MemTakes(m, e, grouped[e])
  }

  predicate MemAccepts(m: Table, events: seq<Record>) {
    MemTakesAll(m, Grouped(events))
  }

  function MemAppendMany(m: Table, events: seq<Record>): Table {
    if MemAccepts(m, events) then Extended(m, Grouped(events)) else m
  }

  function Listing(t: Table, execution: string, after: int): seq<Record> {
    After(BySequence(Rows(t, execution)), after)
  }

  // ---------------------------------------------------------------------------
  // The stores
  // ---------------------------------------------------------------------------

  /** `grouped.setdefault(event.execution_id, []).append(event)` over a batch. */
  method Group(events: seq<Record>) returns (grouped: map<string, seq<Record>>)
    ensures grouped == Grouped(events)
  {
    grouped := map[];
    for i := 0 to |events|
      invariant grouped.Keys == Executions(events[..i])
      invariant forall e :: e in grouped ==> grouped[e] == Batch(events[..i], e)
    {
      var event := events[i];
      var e := event.executionId;
      assert events[..i + 1][..i] == events[..i];
      assert Executions(events[..i + 1]) == Executions(events[..i]) + {e};
      if e !in grouped {
        NoBatch(events[..i], e);
      }
      grouped := grouped[e := (if e in grouped then grouped[e] else []) + [event]];
    }
    assert events[..|events|] == events;
  }

  lemma {:induction false} NoBatch(events: seq<Record>, execution: string)
    requires execution !in Executions(events)
    ensures Batch(events, execution) == []
  {
    if events != [] {
      var n := |events| - 1;
      assert events[n].executionId in Executions(events);
      assert Executions(events[..n]) <= Executions(events);
      NoBatch(events[..n], execution);
    }
  }

  /** The validation loop with its running expected sequence. */
  method CheckContiguous(batch: seq<Record>, last: int) returns (ok: bool)
    ensures ok <==> Contiguous(batch, last + 1)
  {
    var expected := last + 1;
    for i := 0 to |batch|
      invariant expected == last + 1 + i
      invariant forall j :: 0 <= j < i ==> batch[j].sequence == last + 1 + j
    {
      if batch[i].sequence != expected {
        return false;
      }
      expected := expected + 1;
    }
    ok := true;
  }

  method CheckAscending(batch: seq<Record>, last: int) returns (ok: bool)
    ensures ok <==> Ascending(batch, last)
  {
    var previous := last;
    for i := 0 to |batch|
      invariant previous == Prior(batch, last, i)
      invariant forall j :: 0 <= j < i ==> batch[j].sequence > Prior(batch, last, j)
    {
      if batch[i].sequence <= previous {
        return false;
      }
      previous := batch[i].sequence;
    }
    ok := true;
  }

  method ValidatePg(t: Table, grouped: map<string, seq<Record>>)
    returns (ok: bool, validated: map<string, seq<Record>>)
    ensures ok <==> PgTakesAll(t, grouped)
    ensures ok ==> validated == SortedBatches(grouped)
  {
    validated := map[];
    var left := grouped.Keys;
    while left != {}
      invariant left <= grouped.Keys && validated.Keys == grouped.Keys - left
      invariant forall e :: e in validated ==> validated[e] == BySequence(grouped[e]) && PgTakes(t, e, grouped[e])
      decreases left
    {
      var e :| e in left;
      left := left - {e};
      var batch := BySequence(grouped[e]);
      var contiguous := CheckContiguous(batch, Top(Rows(t, e)));
      if !contiguous {
        assert !PgTakes(t, e, grouped[e]);
        return false, validated;
      }
      validated := validated[e := batch];
    }
    ok := true;
  }

  method ValidateMem(m: Table, grouped: map<string, seq<Record>>) returns (ok: bool)
    ensures ok <==> MemTakesAll(m, grouped)
  {
    var left := grouped.Keys;
    while left != {}
      invariant left <= grouped.Keys
      invariant forall e :: e in grouped && e !in left ==> MemTakes(m, e, grouped[e])
      decreases left
    {
      var e :| e in left;
      left := left - {e};
      var ascending := CheckAscending(grouped[e], LastSequence(Rows(m, e)));
      if !ascending {
        assert !MemTakes(m, e, grouped[e]);
        return false;
      }
    }
    ok := true;
  }

  lemma ExtendedByNothing(t: Table)
    ensures Grouped([]) == map[] && Extended(t, map[]) == t
  {
    assert forall e :: e in t ==> Extended(t, map[])[e] == t[e];
  }

  class PostgreSQLExecutionEventStore {
    var table: Table

    constructor (table: Table)
      ensures this.table == table
    {
      this.table := table;
    }

    /** Rejects a sequence the execution already has; gaps are not its concern. */
    method Append(event: Record) returns (ok: bool)
      modifies this
      ensures ok <==> forall r :: r in Rows(old(table), event.executionId) ==> r.sequence != event.sequence
      ensures table == if ok then Extended(old(table), map[event.executionId := [event]]) else old(table)
    {
      var rows := Rows(table, event.executionId);
      for i := 0 to |rows|
        invariant forall j :: 0 <= j < i ==> rows[j].sequence != event.sequence
      {
        if rows[i].sequence == event.sequence {
          return false;
        }
      }
      table := Extended(table, map[event.executionId := [event]]);
      ok := true;
    }

    /** Nothing is added until every execution's batch has passed. */
    method AppendMany(events: seq<Record>) returns (ok: bool)
      modifies this
      ensures ok <==> PgAccepts(old(table), events)
      ensures table == PgAppendMany(old(table), events)
    {
      if events == [] {
        return true;
      }
      var grouped := Group(events);
      var validated;
      ok, validated := ValidatePg(table, grouped);
      if !ok {
        return;
      }
      table := Extended(table, validated);
    }

    method List(execution: string, afterSequence: int) returns (result: Result<seq<Record>, string>)
      ensures result == if afterSequence < 0 then Err("after_sequence cannot be negative")
                        else Ok(Listing(table, execution, afterSequence))
    {
      if afterSequence < 0 {
        return Err("after_sequence cannot be negative");
      }
      result := Ok(After(BySequence(Rows(table, execution)), afterSequence));
    }
  }

  class InMemoryExecutionEventStore {
    var events: Table

    constructor (events: Table)
      ensures this.events == events
    {
      this.events := events;
    }

    /** Rejects a sequence not above the last one; the first event may carry any. */
    method Append(event: Record) returns (ok: bool)
      modifies this
      ensures ok <==> Rows(old(events), event.executionId) == [] ||
                      event.sequence > LastSequence(Rows(old(events), event.executionId))
      ensures ok ==> events == Extended(old(events), map[event.executionId := [event]])
      ensures !ok ==> events == old(events)
    {
      var rows := Rows(events, event.executionId);
      if rows != [] && event.sequence <= rows[|rows| - 1].sequence {
        return false;
      }
      events := Extended(events, map[event.executionId := [event]]);
      ok := true;
    }

    method AppendMany(batch: seq<Record>) returns (ok: bool)
      modifies this
      ensures ok <==> MemAccepts(old(events), batch)
      ensures events == MemAppendMany(old(events), batch)
    {
      if batch == [] {
        ExtendedByNothing(events);
        return true;
      }
      var grouped := Group(batch);
      ok := ValidateMem(events, grouped);
      if ok {
        AppendEach(batch);
      }
    }

    /** The second loop: the batch is appended event by event, in the order given. */
    method AppendEach(batch: seq<Record>)
      modifies this
      ensures events == Extended(old(events), Grouped(batch))
    {
      ExtendedByNothing(events);
      assert batch[..0] == [];
      for i := 0 to |batch|
        invariant events == Extended(old(events), Grouped(batch[..i]))
      {
        AppendNext(old(events), batch, i);
        var e := batch[i].executionId;
        events := events[e := Rows(events, e) + [batch[i]]];
      }
      assert batch[..|batch|] == batch;
    }

    method List(execution: string, afterSequence: int) returns (result: Result<seq<Record>, string>)
      ensures result == if afterSequence < 0 then Err("after_sequence cannot be negative")
                        else Ok(After(Rows(events, execution), afterSequence))
    {
      if afterSequence < 0 {
        return Err("after_sequence cannot be negative");
      }
      result := Ok(After(Rows(events, execution), afterSequence));
    }
  }

  lemma GroupedAppend(events: seq<Record>, r: Record)
    ensures Executions(events + [r]) == Executions(events) + {r.executionId}
    ensures forall e :: Batch(events + [r], e) == Batch(events, e) + if e == r.executionId then [r] else []
  {
    var longer := events + [r];
    assert longer[..|events|] == events;
    assert longer[|events|] == r && forall i :: 0 <= i < |events| ==> longer[i] == events[i];
  }

  lemma ExtendedRows(t: Table, batches: map<string, seq<Record>>, e: string)
    ensures Rows(Extended(t, batches), e) == Rows(t, e) + if e in batches then batches[e] else []
    ensures e in Extended(t, batches) <==> e in t || e in batches
  {
  }

  lemma GroupedStep(events: seq<Record>, r: Record)
    ensures var a, b, e := Grouped(events), Grouped(events + [r]), r.executionId;
      && b.Keys == a.Keys + {e}
      && b[e] == (if e in a then a[e] else []) + [r]
      && forall k :: k in a && k != e ==> b[k] == a[k]
  {
    GroupedAppend(events, r);
    if r.executionId !in Executions(events) {
      NoBatch(events, r.executionId);
    }
  }

  lemma ExtendedElsewhere(t: Table, a: map<string, seq<Record>>, b: map<string, seq<Record>>, k: string)
    requires k in b <==> k in a
    requires k in a ==> b[k] == a[k]
    ensures k in Extended(t, b) <==> k in Extended(t, a)
    ensures k in Extended(t, a) ==> Extended(t, b)[k] == Extended(t, a)[k]
  {
  }

  lemma ExtendedHere(t: Table, a: map<string, seq<Record>>, b: map<string, seq<Record>>, e: string, r: Record)
    requires e in b && b[e] == (if e in a then a[e] else []) + [r]
    ensures e in Extended(t, b) && Extended(t, b)[e] == Rows(Extended(t, a), e) + [r]
  {
    ExtendedRows(t, a, e);
    var rows := if e in a then a[e] else [];
    assert Rows(t, e) + (rows + [r]) == Rows(t, e) + rows + [r];
  }

  lemma ExtendedStep(t: Table, a: map<string, seq<Record>>, b: map<string, seq<Record>>, e: string, r: Record)
    requires b.Keys == a.Keys + {e}
    requires b[e] == (if e in a then a[e] else []) + [r]
    requires forall k :: k in a && k != e ==> b[k] == a[k]
    ensures Extended(t, b) == Extended(t, a)[e := Rows(Extended(t, a), e) + [r]]
  {
    var x, y := Extended(t, a), Extended(t, b);
    var z := x[e := Rows(x, e) + [r]];
    ExtendedHere(t, a, b, e, r);
    forall k ensures (k in y <==> k in z) && (k in z ==> y[k] == z[k]) {
      if k != e {
        ExtendedElsewhere(t, a, b, k);
      }
    }
    assert y.Keys == z.Keys;
  }

  lemma AppendOne(t: Table, events: seq<Record>, r: Record)
    ensures var x := Extended(t, Grouped(events)); var e := r.executionId;
      Extended(t, Grouped(events + [r])) == x[e := Rows(x, e) + [r]]
  {
    GroupedStep(events, r);
    ExtendedStep(t, Grouped(events), Grouped(events + [r]), r.executionId, r);
  }

  lemma AppendNext(t: Table, events: seq<Record>, i: nat)
    requires i < |events|
    ensures var x, r := Extended(t, Grouped(events[..i])), events[i];
      Extended(t, Grouped(events[..i + 1])) == x[r.executionId := Rows(x, r.executionId) + [r]]
  {
    assert events[..i + 1] == events[..i] + [events[i]];
    AppendOne(t, events[..i], events[i]);
  }

  // ---------------------------------------------------------------------------
  // The two stores agree
  // ---------------------------------------------------------------------------

  lemma SortedUnchanged(rows: seq<Record>)
    requires Increasing(rows)
    ensures BySequence(rows) == rows
  {
    SortUnchanged(Earlier, rows);
  }

  lemma {:induction false} AscendingChain(rows: seq<Record>, previous: int, i: nat, j: nat)
    requires Ascending(rows, previous) && i <= j < |rows|
    ensures i < j ==> rows[i].sequence < rows[j].sequence
    ensures rows[j].sequence > previous
    decreases j
  {
    assert rows[j].sequence > Prior(rows, previous, j);
    if j > 0 {
      AscendingChain(rows, previous, if i < j then i else j - 1, j - 1);
    }
  }

  lemma AscendingIncreases(rows: seq<Record>, previous: int)
    requires Ascending(rows, previous)
    ensures Increasing(rows)
    ensures forall i :: 0 <= i < |rows| ==> rows[i].sequence > previous
  {
    forall i, j | 0 <= i <= j < |rows|
      ensures (i < j ==> rows[i].sequence < rows[j].sequence) && rows[j].sequence > previous
    {
      AscendingChain(rows, previous, i, j);
    }
  }

  /** Both stores hold the same rows, in the order of their positive sequences. */
  predicate InStep(t: Table, m: Table) {
    && t == m
    && forall e :: e in t ==> Increasing(t[e]) && forall i :: 0 <= i < |t[e]| ==> t[e][i].sequence >= 1
  }

  predicate InSequenceOrder(events: seq<Record>) {
    forall e :: e in Grouped(events) ==> Increasing(Grouped(events)[e])
  }

  /** No execution's batch skips a number, after what is stored or inside itself. */
  predicate NoGaps(m: Table, events: seq<Record>) {
    forall e :: e in Grouped(events) ==> Gapless(Grouped(events)[e], LastSequence(Rows(m, e)))
  }

  lemma {:induction false} ContiguousIsGaplessAscent(rows: seq<Record>, last: int)
    ensures Contiguous(rows, last + 1) <==> Ascending(rows, last) && Gapless(rows, last)
  {
    if Ascending(rows, last) && Gapless(rows, last) {
      for k := 0 to |rows|
        invariant forall i :: 0 <= i < k ==> rows[i].sequence == last + 1 + i
      {
        assert rows[k].sequence == Prior(rows, last, k) + 1;
      }
    }
  }

  lemma OneExecutionAgrees(t: Table, m: Table, e: string, batch: seq<Record>)
    requires Increasing(Rows(t, e)) && Rows(m, e) == Rows(t, e) && Increasing(batch)
    ensures BySequence(batch) == batch
    ensures PgTakes(t, e, batch) <==> MemTakes(m, e, batch) && Gapless(batch, LastSequence(Rows(m, e)))
  {
    SortedUnchanged(batch);
    SortedUnchanged(Rows(t, e));
    ContiguousIsGaplessAscent(batch, LastSequence(Rows(m, e)));
  }

  lemma AcceptanceAgrees(t: Table, m: Table, grouped: map<string, seq<Record>>)
    requires forall e :: e in grouped ==> Increasing(Rows(t, e)) && Rows(m, e) == Rows(t, e) && Increasing(grouped[e])
    ensures PgTakesAll(t, grouped) <==>
            MemTakesAll(m, grouped) && forall e :: e in grouped ==> Gapless(grouped[e], LastSequence(Rows(m, e)))
    ensures SortedBatches(grouped) == grouped
  {
    forall e | e in grouped
      ensures BySequence(grouped[e]) == grouped[e]
      ensures PgTakes(t, e, grouped[e]) <==>
              MemTakes(m, e, grouped[e]) && Gapless(grouped[e], LastSequence(Rows(m, e)))
    {
      OneExecutionAgrees(t, m, e, grouped[e]);
    }
  }

  /** What the in-memory store accepts is in sequence order. */
  lemma AcceptedInOrder(m: Table, events: seq<Record>)
    requires MemAccepts(m, events)
    ensures InSequenceOrder(events)
  {
    forall e | e in Grouped(events) ensures Increasing(Grouped(events)[e]) {
      assert MemTakes(m, e, Grouped(events)[e]);
      AscendingIncreases(Grouped(events)[e], LastSequence(Rows(m, e)));
    }
  }

  /** From equal logs, the PostgreSQL store accepts a batch in sequence order exactly when the
      in-memory store accepts it without gaps, and both then hold the same rows again. */
  lemma StoresAgree(t: Table, m: Table, events: seq<Record>)
    requires InStep(t, m)
    ensures PgAccepts(t, events) && InSequenceOrder(events) <==> MemAccepts(m, events) && NoGaps(m, events)
    ensures PgAccepts(t, events) && InSequenceOrder(events) ==>
      InStep(PgAppendMany(t, events), MemAppendMany(m, events))
  {
    if MemAccepts(m, events) {
      AcceptedInOrder(m, events);
    }
    if InSequenceOrder(events) {
      AcceptanceAgrees(t, m, Grouped(events));
      if PgAccepts(t, events) {
        GrownInStep(t, events);
        ExtendedByNothing(t);
      }
    }
  }

  /** So the stores differ on exactly two kinds of batches: PostgreSQL alone takes those it can put
      in order first, the in-memory store alone takes those that leave a gap. */
  lemma StoresDiffer(t: Table, m: Table, events: seq<Record>)
    requires InStep(t, m)
    ensures PgAccepts(t, events) && !MemAccepts(m, events) <==> PgAccepts(t, events) && !InSequenceOrder(events)
    ensures MemAccepts(m, events) && !PgAccepts(t, events) <==> MemAccepts(m, events) && !NoGaps(m, events)
  {
    StoresAgree(t, m, events);
    if MemAccepts(m, events) {
      AcceptedInOrder(m, events);
    }
  }

  /** In any order, the PostgreSQL store accepts exactly the batches that, each put in sequence
      order, the in-memory store accepts without gaps. */
  lemma SortingReconciles(t: Table, m: Table, events: seq<Record>)
    requires InStep(t, m)
    ensures var sorted := SortedBatches(Grouped(events));
      PgAccepts(t, events) <==>
        MemTakesAll(m, sorted) && forall e :: e in sorted ==> Gapless(sorted[e], LastSequence(Rows(m, e)))
  {
    var sorted := SortedBatches(Grouped(events));
    forall e | e in Grouped(events)
      ensures PgTakes(t, e, Grouped(events)[e]) <==>
              MemTakes(m, e, sorted[e]) && Gapless(sorted[e], LastSequence(Rows(m, e)))
    {
      SortedUnchanged(Rows(t, e));
      ContiguousIsGaplessAscent(sorted[e], LastSequence(Rows(m, e)));
    }
  }

  lemma GrownInStep(t: Table, events: seq<Record>)
    requires InStep(t, t) && MemAccepts(t, events)
    ensures InStep(Extended(t, Grouped(events)), Extended(t, Grouped(events)))
  {
    var grouped := Grouped(events);
    var x := Extended(t, grouped);
    forall e | e in x
      ensures Increasing(x[e]) && forall i :: 0 <= i < |x[e]| ==> x[e][i].sequence >= 1
    {
      if e in grouped {
        assert MemTakes(t, e, grouped[e]);
        RowsGrow(Rows(t, e), grouped[e]);
      }
    }
  }

  lemma RowsGrow(rows: seq<Record>, batch: seq<Record>)
    requires Increasing(rows) && forall i :: 0 <= i < |rows| ==> rows[i].sequence >= 1
    requires Ascending(batch, LastSequence(rows))
    ensures Increasing(rows + batch) && forall i :: 0 <= i < |rows + batch| ==> (rows + batch)[i].sequence >= 1
  {
    AscendingIncreases(batch, LastSequence(rows));
    assert forall i :: 0 <= i < |rows| ==> rows[i].sequence <= LastSequence(rows);
  }

  /** Stores in step answer every listing alike. */
  lemma ListingsAgree(t: Table, m: Table, execution: string, after: int)
    requires InStep(t, m)
    ensures Listing(t, execution, after) == After(Rows(m, execution), after)
  {
    SortedUnchanged(Rows(t, execution));
  }

  /** Two events of one execution, the later first: for every execution whose next two numbers these
      are, PostgreSQL takes the batch and the in-memory store refuses it. */
  lemma OrderMatters(t: Table, m: Table, second: Record, first: Record)
    requires InStep(t, m) && second.executionId == first.executionId
    requires first.sequence == LastSequence(Rows(m, first.executionId)) + 1 && second.sequence == first.sequence + 1
    ensures PgAccepts(t, [second, first]) && !MemAccepts(m, [second, first])
  {
    var e, events := first.executionId, [second, first];
    OutOfOrderBatch(second, first);
    SortedUnchanged(Rows(t, e));
    assert PgTakes(t, e, events);
    assert e in Grouped(events) && Grouped(events)[e] == events;
    assert events[0].sequence >= events[1].sequence && !Increasing(events);
    StoresDiffer(t, m, events);
  }

  lemma OutOfOrderBatch(second: Record, first: Record)
    requires first.sequence < second.sequence && first.executionId == second.executionId
    ensures Grouped([second, first]) == map[first.executionId := [second, first]]
    ensures BySequence([second, first]) == [first, second]
  {
    var e := first.executionId;
    assert [] + [second] == [second] && [second] + [first] == [second, first];
    GroupedStep([], second);
    GroupedStep([second], first);
    assert [second][..0] == [] && [second, first][..1] == [second];
    assert Insert(Earlier, [second], first) == Insert(Earlier, [second][..0], first) + [second] == [first, second];
    assert Sort(Earlier, [second, first]) == Insert(Earlier, Sort(Earlier, [second]), first);
  }

  /** Reading up to k and then after k reads the whole log, once, in order. */
  lemma {:induction false} ListingSplits(rows: seq<Record>, k: int)
    requires Increasing(rows)
    ensures UpTo(rows, k) + After(rows, k) == rows
  {
    if rows != [] {
      assert rows[0] == rows[0] && Increasing(rows[1..]);
      ListingSplits(rows[1..], k);
      if rows[0].sequence > k {
        NoneUpTo(rows, k);
      }
    }
  }

  lemma {:induction false} NoneUpTo(rows: seq<Record>, k: int)
    requires forall i :: 0 <= i < |rows| ==> rows[i].sequence > k
    ensures UpTo(rows, k) == [] && After(rows, k) == rows
  {
    if rows != [] {
      NoneUpTo(rows[1..], k);
    }
  }

  // ---------------------------------------------------------------------------
  // Sequence allocation
  // ---------------------------------------------------------------------------

  /** Where an `append_event` call is. It holds its execution's lock from `Locked` on; the row it
      adds becomes visible when the transaction commits. */
  datatype Stage =
    | Ready
    | Locked
    | Numbered(sequence: int)
    | Flushed(sequence: int)
    | Stored(sequence: int)
    | Failed
    | Lost

  datatype Call = Call(execution: string, eventId: string, kind: string, stage: Stage)

  /** The coordinator's process state next to the durable table. `spoiled` counts, per execution,
      the commits that failed. */
  datatype System = System(
    table: Table,
    counters: map<string, int>,
    holders: map<string, nat>,
    calls: seq<Call>,
    spoiled: multiset<string>)

  /** `fails` is what the database does with the flush or the commit. `Restart` is a new process:
      calls under way are lost, and so is the local state. */
  datatype Action = Advance(call: nat, fails: bool) | Restart | Close(execution: string)

  predicate Holding(c: Call) {
    c.stage.Locked? || c.stage.Numbered? || c.stage.Flushed?
  }

  /** Last sequence as `list(execution_id)` shows it. */
  function LastListed(t: Table, execution: string): int {
    LastSequence(Listing(t, execution, 0))
  }

  predicate Taken(t: Table, execution: string, sequence: int) {
    exists i :: 0 <= i < |Rows(t, execution)| && Rows(t, execution)[i].sequence == sequence
  }

  function Released(s: System, i: nat, stage: Stage): System
    requires i < |s.calls|
  {
    s.(calls := s.calls[i := s.calls[i].(stage := stage)], holders := s.holders - {s.calls[i].execution})
  }

  function AdvanceCall(s: System, i: nat, fails: bool): System
    requires i < |s.calls|
  {
    var c, e := s.calls[i], s.calls[i].execution;
    match c.stage
    case Ready =>
      if e in s.holders then s
      else s.(calls := s.calls[i := c.(stage := Locked)], holders := s.holders[e := i])
    case Locked =>
      var last := if e in s.counters then s.counters[e] else LastListed(s.table, e);
      s.(counters := s.counters[e := last], calls := s.calls[i := c.(stage := Numbered(last + 1))])
    case Numbered(sequence) =>
      if Taken(s.table, e, sequence) || fails then Released(s, i, Failed)
      else s.(counters := s.counters[e := sequence], calls := s.calls[i := c.(stage := Flushed(sequence))])
    case Flushed(sequence) =>
      if fails then Released(s, i, Failed).(spoiled := s.spoiled + multiset{e})
      else Released(s, i, Stored(sequence)).(
        table := Extended(s.table, map[e := [Record(c.eventId, e, sequence, c.kind)]]))
    case _ => s
  }

  function Step(s: System, a: Action): System {
    match a
    case Advance(i, fails) => if i < |s.calls| then AdvanceCall(s, i, fails) else s
    case Restart =>
      s.(counters := map[], holders := map[],
         calls := seq(|s.calls|, i requires 0 <= i < |s.calls| =>
           if Holding(s.calls[i]) then s.calls[i].(stage := Lost) else s.calls[i]))
    case Close(e) =>
      if e in s.holders then s else s.(counters := s.counters - {e})
  }

  function Run(s: System, actions: seq<Action>): System
    decreases |actions|
  {
    if actions == [] then s else Run(Step(s, actions[0]), actions[1..])
  }

  predicate Initial(s: System) {
    && s.table == map[] && s.counters == map[] && s.holders == map[] && s.spoiled == multiset{}
    && forall i :: 0 <= i < |s.calls| ==> s.calls[i].stage == Ready
  }

  /** A call holds the lock exactly while it is between acquiring and releasing it, and the
      number it was given is the one after the counter, or the counter itself once flushed. */
  predicate CallInv(s: System, i: nat)
    requires i < |s.calls|
  {
    var c := s.calls[i];
    && (Holding(c) <==> c.execution in s.holders && s.holders[c.execution] == i)
    && (c.stage.Numbered? ==> c.execution in s.counters && c.stage.sequence == s.counters[c.execution] + 1)
    && (c.stage.Flushed? ==> c.execution in s.counters && c.stage.sequence == s.counters[c.execution])
  }

  /** Is execution e between flushing a row and committing it? */
  predicate InFlight(s: System, e: string) {
    e in s.holders && s.holders[e] < |s.calls| && s.calls[s.holders[e]].stage.Flushed?
  }

  predicate LogInv(s: System, e: string) {
    var rows := Rows(s.table, e);
    && Increasing(rows)
    && (forall i :: 0 <= i < |rows| ==> rows[i].sequence >= 1)
    && (e in s.counters ==> s.counters[e] >= LastSequence(rows) + if InFlight(s, e) then 1 else 0)
    && (s.spoiled[e] == 0 ==>
          && Contiguous(rows, 1)
          && (e in s.counters ==> s.counters[e] == |rows| + if InFlight(s, e) then 1 else 0))
  }

  predicate HolderInv(s: System) {
    forall e :: e in s.holders ==> s.holders[e] < |s.calls| && s.calls[s.holders[e]].execution == e
  }

  ghost predicate Inv(s: System) {
    && HolderInv(s)
    && (forall i: nat :: i < |s.calls| ==> CallInv(s, i))
    && (forall e :: LogInv(s, e))
  }

  lemma LastListedIsLast(t: Table, e: string)
    requires Increasing(Rows(t, e))
    requires forall i :: 0 <= i < |Rows(t, e)| ==> Rows(t, e)[i].sequence >= 1
    ensures LastListed(t, e) == LastSequence(Rows(t, e))
  {
    SortedUnchanged(Rows(t, e));
    NoneUpTo(Rows(t, e), 0);
  }

  lemma OtherUntouched(s: System, i: nat, fails: bool, e: string)
    requires i < |s.calls| && e != s.calls[i].execution
    ensures var t := AdvanceCall(s, i, fails);
      && Rows(t.table, e) == Rows(s.table, e)
      && (e in t.counters <==> e in s.counters) && (e in s.counters ==> t.counters[e] == s.counters[e])
      && (e in t.holders <==> e in s.holders) && (e in s.holders ==> t.holders[e] == s.holders[e])
      && t.spoiled[e] == s.spoiled[e]
      && |t.calls| == |s.calls| && forall j :: 0 <= j < |s.calls| && j != i ==> t.calls[j] == s.calls[j]
  {
    var c := s.calls[i];
    if c.stage.Flushed? {
      ExtendedRows(s.table, map[c.execution := [Record(c.eventId, c.execution, c.stage.sequence, c.kind)]], e);
    }
  }

  /** A call that advances keeps its own invariant and that of every other call. */
  lemma AdvanceKeepsCall(s: System, k: nat, fails: bool, i: nat)
    requires k < |s.calls| && i < |s.calls| && CallInv(s, k) && CallInv(s, i)
    ensures |AdvanceCall(s, k, fails).calls| == |s.calls| && CallInv(AdvanceCall(s, k, fails), i)
  {
    if s.calls[i].execution != s.calls[k].execution {
      OtherUntouched(s, k, fails, s.calls[i].execution);
    }
  }

  lemma AdvanceKeepsHolders(s: System, k: nat, fails: bool)
    requires k < |s.calls| && HolderInv(s)
    ensures HolderInv(AdvanceCall(s, k, fails))
  {
  }

  lemma StepKeepsCalls(s: System, a: Action, i: nat)
    requires i < |s.calls| && CallInv(s, i) && (a.Advance? && a.call < |s.calls| ==> CallInv(s, a.call))
    ensures i < |Step(s, a).calls| && CallInv(Step(s, a), i)
  {
    if a.Advance? && a.call < |s.calls| {
      AdvanceKeepsCall(s, a.call, a.fails, i);
    }
  }

  lemma StepKeepsHolders(s: System, a: Action)
    requires HolderInv(s)
    ensures HolderInv(Step(s, a)) && |Step(s, a).calls| == |s.calls|
  {
    if a.Advance? && a.call < |s.calls| {
      AdvanceKeepsHolders(s, a.call, a.fails);
    }
  }

  /** One more row with a number above all others. */
  lemma RowAppended(rows: seq<Record>, row: Record)
    requires Increasing(rows) && row.sequence > LastSequence(rows)
    ensures Increasing(rows + [row])
    ensures Contiguous(rows, 1) && row.sequence == |rows| + 1 ==> Contiguous(rows + [row], 1)
  {
    assert forall j :: 0 <= j < |rows| ==> rows[j].sequence <= LastSequence(rows);
  }

  lemma CommitKeepsLog(s: System, i: nat)
    requires Inv(s) && i < |s.calls| && s.calls[i].stage.Flushed?
    ensures LogInv(AdvanceCall(s, i, false), s.calls[i].execution)
  {
    var c, e := s.calls[i], s.calls[i].execution;
    assert CallInv(s, i) && LogInv(s, e);
    var row := Record(c.eventId, e, c.stage.sequence, c.kind);
    ExtendedRows(s.table, map[e := [row]], e);
    assert Rows(AdvanceCall(s, i, false).table, e) == Rows(s.table, e) + [row];
    RowAppended(Rows(s.table, e), row);
  }

  lemma OwnLogKept(s: System, i: nat, fails: bool)
    requires Inv(s) && i < |s.calls|
    ensures LogInv(AdvanceCall(s, i, fails), s.calls[i].execution)
  {
    var c, e := s.calls[i], s.calls[i].execution;
    assert CallInv(s, i) && LogInv(s, e);
    if c.stage.Flushed? && !fails {
      CommitKeepsLog(s, i);
    } else if c.stage.Locked? {
      LastListedIsLast(s.table, e);
    }
  }

  /** A step of a call on another execution leaves this one's rows, counter and lock alone. */
  lemma OtherLogKept(s: System, i: nat, fails: bool, e: string)
    requires LogInv(s, e) && HolderInv(s) && i < |s.calls| && e != s.calls[i].execution
    ensures LogInv(AdvanceCall(s, i, fails), e)
  {
    OtherUntouched(s, i, fails, e);
    assert e in s.holders ==> s.holders[e] != i;
  }

  lemma StepKeepsLog(s: System, a: Action, e: string)
    requires Inv(s)
    ensures LogInv(Step(s, a), e)
  {
    assert LogInv(s, e);
    if a.Advance? && a.call < |s.calls| {
      if e == s.calls[a.call].execution {
        OwnLogKept(s, a.call, a.fails);
      } else {
        OtherLogKept(s, a.call, a.fails, e);
      }
    }
  }

  lemma StepKeepsInv(s: System, a: Action)
    requires Inv(s)
    ensures Inv(Step(s, a))
  {
    var t := Step(s, a);
    StepKeepsHolders(s, a);
    forall i: nat | i < |t.calls| ensures CallInv(t, i) { StepKeepsCalls(s, a, i); }
    forall e ensures LogInv(t, e) { StepKeepsLog(s, a, e); }
  }

  lemma {:induction false} RunKeepsInv(s: System, actions: seq<Action>)
    requires Inv(s)
    ensures Inv(Run(s, actions))
    decreases |actions|
  {
    if actions != [] {
      StepKeepsInv(s, actions[0]);
      RunKeepsInv(Step(s, actions[0]), actions[1..]);
    }
  }

  /** However append_event calls interleave and however often the process restarts, an
      execution's stored sequences ascend strictly, and they are exactly 1..n as long as no
      commit for it has failed. */
  lemma SequencesAscend(s: System, actions: seq<Action>, e: string)
    requires Initial(s)
    ensures var t := Run(s, actions); var rows := Rows(t.table, e);
      && Increasing(rows)
      && (t.spoiled[e] == 0 ==> Contiguous(rows, 1))
      && Listing(t.table, e, 0) == rows
  {
    RunKeepsInv(s, actions);
    var t := Run(s, actions);
    assert LogInv(t, e);
    SortedUnchanged(Rows(t.table, e));
    NoneUpTo(Rows(t.table, e), 0);
  }

  /** The number a call is given is never taken: the duplicate check cannot fail. */
  lemma NumbersAreFree(s: System, actions: seq<Action>, i: nat)
    requires Initial(s) && i < |Run(s, actions).calls| && Run(s, actions).calls[i].stage.Numbered?
    ensures var t := Run(s, actions);
      !Taken(t.table, t.calls[i].execution, t.calls[i].stage.sequence)
  {
    RunKeepsInv(s, actions);
    var t := Run(s, actions);
    assert CallInv(t, i) && LogInv(t, t.calls[i].execution);
    var rows := Rows(t.table, t.calls[i].execution);
    assert forall j :: 0 <= j < |rows| ==> rows[j].sequence <= LastSequence(rows);
  }

  /** A call that is let through its whole transaction, undisturbed. */
  function Append(s: System, j: nat): System {
    Step(Step(Step(Step(s, Advance(j, false)), Advance(j, false)), Advance(j, false)), Advance(j, false))
  }

  /** The number the next call of an execution gets. */
  function NextNumber(s: System, e: string): int {
    (if e in s.counters then s.counters[e] else LastSequence(Rows(s.table, e))) + 1
  }

  /** Up to the flush. */
  lemma NextFlushed(s: System, j: nat)
    requires Inv(s) && j < |s.calls| && s.calls[j].stage == Ready && s.calls[j].execution !in s.holders
    ensures var c, e := s.calls[j], s.calls[j].execution;
      var t := Step(Step(Step(s, Advance(j, false)), Advance(j, false)), Advance(j, false));
      t.table == s.table && |t.calls| == |s.calls| && t.calls[j] == c.(stage := Flushed(NextNumber(s, e)))
  {
    var c, e := s.calls[j], s.calls[j].execution;
    assert LogInv(s, e);
    LastListedIsLast(s.table, e);
    var locked := Step(s, Advance(j, false));
    assert locked.calls[j] == c.(stage := Locked) && locked.counters == s.counters;
    var numbered := Step(locked, Advance(j, false));
    assert numbered.calls[j] == c.(stage := Numbered(NextNumber(s, e)));
    var rows := Rows(s.table, e);
    assert forall i :: 0 <= i < |rows| ==> rows[i].sequence <= LastSequence(rows);
    assert !Taken(numbered.table, e, NextNumber(s, e));
  }

  /** An undisturbed call stores one row, with the next number. */
  lemma NextStored(s: System, j: nat)
    requires Inv(s) && j < |s.calls| && s.calls[j].stage == Ready && s.calls[j].execution !in s.holders
    ensures var c, e := s.calls[j], s.calls[j].execution;
      Rows(Append(s, j).table, e) == Rows(s.table, e) + [Record(c.eventId, e, NextNumber(s, e), c.kind)]
  {
    var c, e := s.calls[j], s.calls[j].execution;
    NextFlushed(s, j);
    ExtendedRows(s.table, map[e := [Record(c.eventId, e, NextNumber(s, e), c.kind)]], e);
  }

  lemma LostNumber(s: System, i: nat)
    requires Inv(s) && i < |s.calls| && s.calls[i].stage.Flushed?
    ensures var e := s.calls[i].execution; var t := Step(s, Advance(i, true)); var u := Step(t, Restart);
      var last, lost := LastSequence(Rows(s.table, e)), s.calls[i].stage.sequence;
      && t.table == s.table && u.table == s.table && e !in t.holders && e !in u.holders
      && NextNumber(t, e) == lost + 1 >= last + 2 && (s.spoiled[e] == 0 ==> lost + 1 == last + 2)
      && NextNumber(u, e) == last + 1
  {
    assert CallInv(s, i) && LogInv(s, s.calls[i].execution);
  }

  lemma OtherCallWaits(s: System, i: nat, j: nat)
    requires Inv(s) && i < |s.calls| && s.calls[i].stage.Flushed? && j < |s.calls| && s.calls[j].stage == Ready
    ensures var t := Step(s, Advance(i, true)); var u := Step(t, Restart);
      && Inv(t) && j < |t.calls| && t.calls[j] == s.calls[j]
      && Inv(u) && j < |u.calls| && u.calls[j] == s.calls[j]
  {
    StepKeepsInv(s, Advance(i, true));
    StepKeepsInv(Step(s, Advance(i, true)), Restart);
  }

  /** What an undisturbed call stores for an execution whose next number is known. */
  lemma NextStoredAs(s: System, j: nat, e: string, number: int)
    requires Inv(s) && j < |s.calls| && s.calls[j].stage == Ready && s.calls[j].execution == e && e !in s.holders
    requires NextNumber(s, e) == number
    ensures Rows(Append(s, j).table, e) == Rows(s.table, e) + [Record(s.calls[j].eventId, e, number, s.calls[j].kind)]
  {
    NextStored(s, j);
  }

  /** A commit that fails costs its number: the next row of the execution is stored behind it, two
      after the last one if no earlier commit failed. Only a restart in between takes the number up
      again. */
  lemma FailedCommitLeavesGap(s: System, i: nat, j: nat)
    requires Inv(s) && i < |s.calls| && s.calls[i].stage.Flushed?
    requires j < |s.calls| && s.calls[j].stage == Ready && s.calls[j].execution == s.calls[i].execution
    ensures var e, c := s.calls[i].execution, s.calls[j]; var t := Step(s, Advance(i, true));
      var last, lost := LastSequence(Rows(s.table, e)), s.calls[i].stage.sequence;
      && Rows(Append(t, j).table, e) == Rows(s.table, e) + [Record(c.eventId, e, lost + 1, c.kind)]
      && lost + 1 >= last + 2 && (s.spoiled[e] == 0 ==> lost + 1 == last + 2)
      && Rows(Append(Step(t, Restart), j).table, e) == Rows(s.table, e) + [Record(c.eventId, e, last + 1, c.kind)]
  {
    var t := Step(s, Advance(i, true));
    LostNumber(s, i);
    OtherCallWaits(s, i, j);
    var e, lost := s.calls[i].execution, s.calls[i].stage.sequence;
    NextStoredAs(t, j, e, lost + 1);
    NextStoredAs(Step(t, Restart), j, e, LastSequence(Rows(s.table, e)) + 1);
  }
}
