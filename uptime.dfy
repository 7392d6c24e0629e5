/**
 The uptime run (runall.go): probe every endpoint, read the prior state,
 detect transitions, then write the state, alert once and append history,
 in that order, stopping at the first error.
 */
module Uptime {
  import opened Model
  import opened Probing
  import opened Stores
  import opened Changes

  /** The catalog after the probe loop: every entry re-measured. */
  ghost function Probed(tests: TestMap, probe: string -> Observation): (r: TestMap)
    ensures r.Keys == tests.Keys
    ensures forall k :: k in r ==> r[k].name == tests[k].name && r[k].url == tests[k].url
    ensures forall k :: k in r ==> r[k].tested == probe(k).start && r[k].duration == probe(k).elapsed
    ensures forall k :: k in r ==> r[k].durationMS == probe(k).elapsed / 1_000_000
    ensures forall k :: k in r ==> (r[k].success <==> Healthy(probe(k).outcome))
  {
    map k | k in tests :: Measure(tests[k], probe(k))
  }

  /** `order` lists every key of `tests` exactly once and `batch` holds the
      matching results, position by position. */
  ghost predicate OneRecordPerEntry(batch: seq<TestResult>, order: seq<string>, tests: TestMap)
  {
    && |batch| == |order|
    && (forall i :: 0 <= i < |order| ==> order[i] in tests && batch[i] == tests[order[i]])
    && (forall k :: k in tests ==> k in order)
    && (forall i, j :: 0 <= i < j < |order| ==> order[i] != order[j])
  }

  /** Some listing of the entries of `tests` yields `batch`. */
  ghost predicate IsBatchOf(batch: seq<TestResult>, tests: TestMap)
  {
    exists order :: OneRecordPerEntry(batch, order, tests)
  }

  /** ReadDatabase: look up each active endpoint in the state store, keep
      the documents that exist, and stop at the first read error with what
      was gathered so far. `visited` is the set of keys read successfully. */
  method ReadDatabase(store: StateStore, tests: TestMap) returns (m: TestMap, err: Option<string>, ghost visited: set<string>)
    ensures visited <= tests.Keys && visited !! store.readFaults.Keys
    ensures m == Restrict(store.docs, visited)
    ensures m.Keys <= tests.Keys
    ensures forall k :: k in m ==> k in store.docs && m[k] == store.docs[k]
    ensures err.None? <==> tests.Keys !! store.readFaults.Keys
    ensures err.None? ==> visited == tests.Keys && m == Restrict(store.docs, tests.Keys)
    ensures err.Some? ==> exists k :: k in tests && k in store.readFaults && err == Some(store.readFaults[k])
  {
    m, err, visited := map[], None, {};
    var remaining := tests.Keys;
    while remaining != {}
      invariant remaining <= tests.Keys && visited == tests.Keys - remaining
      invariant visited !! store.readFaults.Keys
      invariant m == Restrict(store.docs, visited)
      invariant err.None?
      decreases remaining
    {
      var k :| k in remaining;
      var doc;
      doc, err := store.Get(k);
      if err.Some? {
        assert k in tests.Keys * store.readFaults.Keys;
        return;
      }
      if doc.Some? {
        m := m[k := doc.value];
      }
      remaining := remaining - {k};
      visited := visited + {k};
    }
  }

  /** WriteToDatabase: store every result under its name, last write wins;
      the first failing write stops the loop. `written` is the set of keys
      stored before that. */
  method WriteToDatabase(store: StateStore, tests: TestMap) returns (err: Option<string>, ghost written: set<string>)
    modifies store`docs
    ensures written <= tests.Keys && written !! store.writeFaults.Keys
    ensures store.docs == old(store.docs) + Restrict(tests, written)
    ensures err.None? <==> tests.Keys !! store.writeFaults.Keys
    ensures err.None? ==> written == tests.Keys && store.docs == old(store.docs) + tests
    ensures err.Some? ==> exists k :: k in tests && k !in written && k in store.writeFaults && err == Some(store.writeFaults[k])
  {
    err, written := None, {};
    var remaining := tests.Keys;
    while remaining != {}
      invariant remaining <= tests.Keys && written == tests.Keys - remaining
      invariant written !! store.writeFaults.Keys
      invariant store.docs == old(store.docs) + Restrict(tests, written)
      invariant err.None?
      decreases remaining
    {
      var k :| k in remaining;
      err := store.Set(k, tests[k]);
      if err.Some? {
        assert k in tests.Keys * store.writeFaults.Keys;
        return;
      }
      remaining := remaining - {k};
      written := written + {k};
    }
    assert Restrict(tests, written) == tests;
  }

  /** The loop of StreamToBigQuery that copies every entry into the batch,
      in map order. */
  method CollectRecords(tests: TestMap) returns (batch: seq<TestResult>, ghost order: seq<string>)
    ensures OneRecordPerEntry(batch, order, tests)
    ensures |batch| == |tests|
  {
    batch, order := [], [];
    var remaining := tests.Keys;
    while remaining != {}
      invariant remaining <= tests.Keys
      invariant |batch| == |order|
      invariant forall i :: 0 <= i < |order| ==> order[i] in tests && order[i] !in remaining && batch[i] == tests[order[i]]
      invariant forall k :: k in tests ==> k in order || k in remaining
      invariant forall i, j :: 0 <= i < j < |order| ==> order[i] != order[j]
      decreases remaining
    {
      var k :| k in remaining;
      batch, order := batch + [tests[k]], order + [k];
      remaining := remaining - {k};
    }
    OneRecordPerEntryCount(batch, order, tests);
  }

  /** StreamToBigQuery: one Put of all results. */
  method StreamToBigQuery(history: HistoryStore, tests: TestMap) returns (err: Option<string>, ghost batch: seq<TestResult>)
    modifies history`rows
    ensures err == history.putFault
    ensures |batch| == |tests| && IsBatchOf(batch, tests)
    ensures err.None? ==> history.rows == old(history.rows) + batch
    ensures err.Some? ==> history.rows == old(history.rows)
  {
    var records, order := CollectRecords(tests);
    assert OneRecordPerEntry(records, order, tests);
    err := history.Put(records);
    batch := records;
  }

  /** A batch with one record per entry has as many records as the map. */
  lemma {:induction false} OneRecordPerEntryCount(batch: seq<TestResult>, order: seq<string>, tests: TestMap)
    requires OneRecordPerEntry(batch, order, tests)
    ensures |batch| == |tests|
  {
    DistinctCovering(order, tests.Keys);
  }

  /** A duplicate-free listing of exactly the elements of `ks` has |ks| items. */
  lemma {:induction false} DistinctCovering(order: seq<string>, ks: set<string>)
    requires forall i :: 0 <= i < |order| ==> order[i] in ks
    requires forall k :: k in ks ==> k in order
    requires forall i, j :: 0 <= i < j < |order| ==> order[i] != order[j]
    ensures |order| == |ks|
  {
    if order != [] {
      var last := order[|order| - 1];
      var front := order[..|order| - 1];
      forall k | k in ks - {last} ensures k in front {
        var i :| 0 <= i < |order| && order[i] == k;
        assert i != |order| - 1;
        assert front[i] == k;
      }
      forall i | 0 <= i < |front| ensures front[i] in ks - {last} {
        assert front[i] == order[i];
        assert order[i] != order[|order| - 1];
      }
      DistinctCovering(front, ks - {last});
    } else {
      assert forall k :: k !in ks;
      assert ks == {};
    }
  }

  /** After a successful write, the next read of the same endpoints gives
      back exactly what was written. */
  lemma ReadAfterWrite(docs: TestMap, tests: TestMap)
    ensures Restrict(docs + tests, tests.Keys) == tests
  {
  }

  /** A read that stopped early can only lose transitions, never report one
      that a complete read would not. */
  lemma PartialReadOnlyLosesTransitions(tests: TestMap, docs: TestMap, visited: set<string>)
    requires visited <= tests.Keys
    ensures Transitions(tests, Restrict(docs, visited)) == Restrict(Transitions(tests, Restrict(docs, tests.Keys)), visited)
  {
  }

  /** Two successive runs in which every endpoint answers 200, the first
      of them writing its state successfully, report no transition the
      second time, whatever was stored before the first. */
  lemma SteadyStateHasNoTransitions(catalog: TestMap, docs: TestMap,
                                      first: string -> Observation, second: string -> Observation)
    requires forall k :: k in catalog ==> Healthy(first(k).outcome) && Healthy(second(k).outcome)
    ensures var current := Probed(catalog, first);
            var again := Probed(current, second);
            Transitions(again, Restrict(docs + current, again.Keys)) == map[]
  {
  }

  /** The scenario of one endpoint staying up and one going down: only the
      one that went down is a transition, and it carries its new status. */
  lemma ExampleScenario()
    ensures var a := TestResult("A", "https://a.example/", 200, 0, true, 0, 0, "");
            var b := TestResult("B", "https://b.example/", 200, 0, true, 0, 0, "");
            var probe := (k: string) => if k == "A" then Observation(Responded(200), 10, 3_000_000)
                                        else Observation(Responded(500), 20, 4_500_000);
            var current := Probed(map["A" := a, "B" := b], probe);
            var changes := Transitions(current, map["A" := a, "B" := b]);
            && current["A"].success && current["A"].statusCode == 200
            && !current["B"].success && current["B"].statusCode == 500
            && current["B"].errorMsg == "Internal Server Error" && current["B"].durationMS == 4
            && changes.Keys == {"B"} && changes["B"] == current["B"]
  {
  }

  /** The package-level state of the function: the `tests` map. */
  class Monitor {
    var tests: TestMap

    constructor (catalog: TestMap)
      ensures tests == catalog
    {
      tests := catalog;
    }

    /** The probe loop: overwrite every entry with its fresh measurement. */
    method ProbeAll(probe: string -> Observation)
      modifies this`tests
      ensures tests == Probed(old(tests), probe)
    {
      var remaining := tests.Keys;
      ghost var done := {};
      while remaining != {}
        invariant tests.Keys == old(tests).Keys
        invariant remaining + done == tests.Keys && remaining !! done
        invariant forall k :: k in remaining ==> tests[k] == old(tests)[k]
        invariant forall k :: k in done ==> tests[k] == Measure(old(tests)[k], probe(k))
        decreases remaining
      {
        var i :| i in remaining;
        var obs := probe(i);
        var t := TestURL(tests[i], obs.outcome);
        t := t.(duration := obs.elapsed);
        t := t.(durationMS := t.duration / 1_000_000);
        t := t.(tested := obs.start);
        tests := tests[i := t];
        remaining := remaining - {i};
        done := done + {i};
      }
    }

    /** RunTests: one run. `oldTests` is the prior state that was read,
        `changes` the endpoints found to have flipped and `batch` the
        records handed to the history store. */
    method RunTests(probe: string -> Observation, db: StateStore, history: HistoryStore, mail: Mailer)
      returns (err: Option<string>, ghost oldTests: TestMap, ghost changes: TestMap, ghost batch: seq<TestResult>)
      modifies this`tests, db`docs, history`rows, mail`attempts, mail`delivered
      ensures tests == Probed(old(tests), probe)
      ensures oldTests.Keys <= tests.Keys
      ensures forall k :: k in oldTests ==> k in old(db.docs) && oldTests[k] == old(db.docs)[k]
      ensures tests.Keys !! db.readFaults.Keys ==> oldTests == Restrict(old(db.docs), tests.Keys)
      ensures exists visited :: visited <= tests.Keys && visited !! db.readFaults.Keys && oldTests == Restrict(old(db.docs), visited)
      ensures changes == Transitions(tests, oldTests)
      ensures Committed(old(db.docs), old(history.rows), old(mail.attempts), old(mail.delivered), db, history, mail, tests, changes, err, batch)
    {
      ProbeAll(probe);
      // A read error does not stop the run: the assignment to err in
      // Commit discards it.
      var prior, readErr, visited := ReadDatabase(db, tests);
      assert db.docs == old(db.docs);
      assert visited <= tests.Keys && visited !! db.readFaults.Keys && prior == Restrict(old(db.docs), visited);
      oldTests := prior;
      var found := DetectChanges(tests, prior);
      changes := found;
      err, batch := Commit(db, history, mail, tests, found);
    }
  }

  /** What the write / alert / append sequence leaves behind, given the
      store contents and the alert count before it. */
  ghost predicate Committed(docs0: TestMap, rows0: seq<TestResult>, attempts0: nat, delivered0: nat,
                            db: StateStore, history: HistoryStore, mail: Mailer,
                            tests: TestMap, changes: TestMap, err: Option<string>, batch: seq<TestResult>)
    reads db, history, mail
  {
    var writesOk := tests.Keys !! db.writeFaults.Keys;
    var alerted := changes != map[];
    // step 1: the state write; a failure ends the run here
    && (exists written :: written <= tests.Keys && written !! db.writeFaults.Keys &&
                          db.docs == docs0 + Restrict(tests, written))
    && (writesOk ==> db.docs == docs0 + tests)
    && (!writesOk ==> (exists k :: k in tests && k in db.writeFaults && err == Some(db.writeFaults[k])) &&
                      mail.attempts == attempts0 && history.rows == rows0)
    // step 2: one alert exactly when something flipped; a failure ends the run here
    && (writesOk ==> mail.attempts == attempts0 + (if alerted then 1 else 0))
    && mail.attempts <= attempts0 + 1
    && mail.delivered == delivered0 + (if mail.attempts > attempts0 && mail.fault.None? then 1 else 0)
    && (writesOk && alerted && mail.fault.Some? ==> err == mail.fault && history.rows == rows0)
    // step 3: the history append, one record per endpoint
    && (writesOk && (!alerted || mail.fault.None?) ==>
          err == history.putFault && |batch| == |tests| && IsBatchOf(batch, tests) &&
          history.rows == rows0 + (if err.None? then batch else []))
  }

  /** The side effects of a run, in order: write the state, alert if
      anything flipped, append the history; each error returns at once. */
  method Commit(db: StateStore, history: HistoryStore, mail: Mailer, tests: TestMap, changes: TestMap)
    returns (err: Option<string>, ghost batch: seq<TestResult>)
    modifies db`docs, history`rows, mail`attempts, mail`delivered
    ensures Committed(old(db.docs), old(history.rows), old(mail.attempts), old(mail.delivered), db, history, mail, tests, changes, err, batch)
  {
    batch := [];
    ghost var written;
    err, written := WriteToDatabase(db, tests);
    if err.Some? {
      return;
    }
    ghost var stored, rowsBefore := db.docs, history.rows;
    if |changes| > 0 {
      err := mail.SendAlert();
      if err.Some? {
        return;
      }
    }
    assert history.rows == rowsBefore;
    err, batch := StreamToBigQuery(history, tests);
    assert db.docs == stored;
  }
}
