/**
 * The watermark-tracked extraction loop of `export_profiles`: the persisted
 * watermark table, the append-only sink, and one poll/process/flush cycle,
 * specified by the pure state machine `Poll` and its repetition `Run`.
 */
module Extraction {
  import opened Wrappers
  import opened Timestamps
  import opened SourceStore
  import opened Documents

  datatype Error = NotInitialized

  /** Every row of `rows` replaced by `v`, as `UPDATE watermark SET last_extracted = v` does. */
  function Overwritten(rows: seq<Option<DateTime>>, v: Option<DateTime>): (r: seq<Option<DateTime>>)
    ensures |r| == |rows| && forall k :: 0 <= k < |r| ==> r[k] == v
  {
    seq(|rows|, _ => v)
  }

  lemma OverwrittenTwice(rows: seq<Option<DateTime>>, current: seq<Option<DateTime>>, v: Option<DateTime>)
    requires |current| == |rows|
    ensures Overwritten(current, v) == Overwritten(rows, v)
  {
  }

  /**
   * The `watermark` table: a single nullable TIMESTAMP column and nothing
   * that limits it to one row.
   */
  class WatermarkStore {
    var rows: seq<Option<DateTime>>

    /** `CREATE TABLE watermark` on a fresh database. */
    constructor Create()
      ensures rows == []
    {
      rows := [];
    }

    /** Seeds the table with `datetime.min` only when it holds no row. */
    method Seed()
      modifies this
      ensures rows == if old(rows) == [] then [Some(MinDateTime)] else old(rows)
    {
      if |rows| == 0 {
        rows := [Some(MinDateTime)];
      }
    }

    /**
     * `load_last_extracted`: the first row's value; with no row,
     * `fetchone()` gives nothing and the load fails.
     */
    method Load() returns (r: Result<Option<DateTime>, Error>)
      ensures rows == [] <==> r.Failure?
      ensures r.Failure? ==> r.error == NotInitialized
      ensures r.Success? ==> r.value == rows[0]
    {
      if |rows| == 0 {
        r := Failure(NotInitialized);
      } else {
        r := Success(rows[0]);
      }
    }

    /** `update_last_extracted`: an unconditional overwrite of every row. */
    method Update(lastDate: Option<DateTime>)
      modifies this
      ensures rows == Overwritten(old(rows), lastDate)
    {
      rows := Overwritten(rows, lastDate);
    }
  }

  /** The output file, as the sequence of batches appended to it. */
  class ProfileSink {
    var batches: seq<seq<Document>>

    constructor (existing: seq<seq<Document>>)
      ensures batches == existing
    {
      batches := existing;
    }

    /** `save_profiles_to_json`: appends one batch, documents in order. */
    method Append(profiles: seq<Document>)
      modifies this
      ensures batches == old(batches) + [profiles]
    {
      batches := batches + [profiles];
    }
  }

  /**
   * Everything one poll reads or writes: the persisted watermark rows, the
   * local cursor `last_extracted_date`, the in-memory batch `all_profiles`,
   * and the sink.
   */
  datatype State = State(
    watermark: seq<Option<DateTime>>,
    cursor: Option<DateTime>,
    batch: seq<Document>,
    sink: seq<seq<Document>>)

  /** What the loop keeps true between polls. */
  predicate Consistent(s: State) {
    s.watermark != [] && s.watermark[0] == s.cursor && s.batch == []
  }

  function Fetched(s: State, store: seq<StoreEntry>): seq<ProfileRecord> {
    FetchNewProfiles(store, s.cursor)
  }

  /**
   * One iteration of the `while True` body. An empty fetch changes nothing;
   * otherwise each row is transformed into the batch and the cursor and the
   * persisted watermark move to its creation date, after which the batch is
   * appended to the sink and cleared.
   */
  function Poll(s: State, store: seq<StoreEntry>, currentYear: int): State {
    var fetched := Fetched(s, store);
    if fetched == [] then s
    else
      var last := fetched[|fetched| - 1].profileCreationDate;
      State(Overwritten(s.watermark, last), last, [], s.sink + [s.batch + TransformAll(fetched, currentYear)])
  }

  /** What the store holds and what year the clock shows when a poll runs. */
  datatype Tick = Tick(store: seq<StoreEntry>, currentYear: int)

  /** Successive polls, one per tick. */
  function Run(s: State, ticks: seq<Tick>): State {
    if ticks == [] then s
    else
      var t := ticks[|ticks| - 1];
      Poll(Run(s, ticks[..|ticks| - 1]), t.store, t.currentYear)
  }

  /** The rows fetched by the poll at position `i` of a run. */
  function FetchedAt(s: State, ticks: seq<Tick>, i: nat): seq<ProfileRecord>
    requires i < |ticks|
  {
    Fetched(Run(s, ticks[..i]), ticks[i].store)
  }

  /** Watermark, database and sink as the loop starts from a provisioned database. */
  function Provisioned(existingSink: seq<seq<Document>>): (s: State)
    ensures Consistent(s)
  {
    State([Some(MinDateTime)], Some(MinDateTime), [], existingSink)
  }

  // ---- properties of one poll ---------------------------------------------

  /** An idle poll touches neither the watermark, the batch nor the sink. */
  lemma IdlePollIsNoOp(s: State, store: seq<StoreEntry>, currentYear: int)
    requires Fetched(s, store) == []
    ensures Poll(s, store, currentYear) == s
  {
  }

  /** Every fetched row was created no later than the last one fetched. */
  lemma FetchedNotAfterLast(s: State, store: seq<StoreEntry>)
    requires Fetched(s, store) != []
    ensures var f := Fetched(s, store);
      AllDated(f) && forall i :: 0 <= i < |f| ==> NotAfter(Created(f[i]), Created(f[|f| - 1]))
  {
    FetchNewProfilesSpec(store, s.cursor);
  }

  /**
   * A poll never moves the watermark back. After a non-empty poll the cursor
   * and every persisted row hold the creation date of the last fetched row,
   * which is strictly later than the cursor before the poll.
   */
  lemma PollAdvancesWatermark(s: State, store: seq<StoreEntry>, currentYear: int)
    ensures Advances(s.cursor, Poll(s, store, currentYear).cursor)
    ensures |Poll(s, store, currentYear).watermark| == |s.watermark|
    ensures var f := Fetched(s, store); var p := Poll(s, store, currentYear);
      f != [] ==>
        && p.cursor == f[|f| - 1].profileCreationDate
        && After(p.cursor, s.cursor)
        && (forall k :: 0 <= k < |p.watermark| ==> p.watermark[k] == p.cursor)
  {
    var f := Fetched(s, store);
    FetchNewProfilesSpec(store, s.cursor);
    if f != [] {
      assert After(f[|f| - 1].profileCreationDate, s.cursor);
    }
  }

  /** A poll keeps the cursor equal to the persisted watermark and the batch empty. */
  lemma PollKeepsConsistent(s: State, store: seq<StoreEntry>, currentYear: int)
    requires Consistent(s)
    ensures Consistent(Poll(s, store, currentYear))
  {
  }

  /**
   * A non-empty poll appends exactly one batch to the sink: the transformed
   * rows, as many as were fetched, in fetch order.
   */
  lemma PollFlushesOneBatch(s: State, store: seq<StoreEntry>, currentYear: int)
    requires Consistent(s) && Fetched(s, store) != []
    ensures var f := Fetched(s, store); var p := Poll(s, store, currentYear);
      && |p.sink| == |s.sink| + 1
      && p.sink[..|s.sink|] == s.sink
      && |p.sink[|s.sink|]| == |f|
      && (forall i :: 0 <= i < |f| ==> p.sink[|s.sink|][i] == Transform(f[i], f[i].customer.customerId, currentYear))
      && p.batch == []
  {
    var p := Poll(s, store, currentYear);
    assert p.sink[..|s.sink|] == s.sink;
  }

  /**
   * No duplicate extraction: polling again over an unchanged store fetches
   * nothing and changes nothing, whatever the clock says.
   */
  lemma RepeatedPollIsIdle(s: State, store: seq<StoreEntry>, currentYear: int, laterYear: int)
    ensures Fetched(Poll(s, store, currentYear), store) == []
    ensures Poll(Poll(s, store, currentYear), store, laterYear) == Poll(s, store, currentYear)
  {
    var f := Fetched(s, store);
    if f != [] {
      FetchNewProfilesSpec(store, s.cursor);
      FetchedNotAfterLast(s, store);
      var latest := Created(f[|f| - 1]);
      assert After(f[|f| - 1].profileCreationDate, s.cursor);
      forall i | 0 <= i < |store| && Matches(store[i], Some(s.cursor.value))
        ensures NotAfter(Created(Joined(store[i]).value), latest)
      {
        var r := Joined(store[i]).value;
        assert r in f;
        var k :| 0 <= k < |f| && f[k] == r;
      }
      NothingAfterLatest(store, s.cursor.value, latest);
    }
  }

  // ---- properties of a run ------------------------------------------------

  lemma {:induction false} RunSplit(s: State, a: seq<Tick>, b: seq<Tick>)
    ensures Run(s, a + b) == Run(Run(s, a), b)
  {
    if b != [] {
      RunSplit(s, a, b[..|b| - 1]);
      assert (a + b)[..|a + b| - 1] == a + b[..|b| - 1];
    } else {
      assert a + b == a;
    }
  }

  /** Over any sequence of polls, whatever the store does meanwhile, the watermark never regresses. */
  lemma {:induction false} RunAdvancesWatermark(s: State, ticks: seq<Tick>)
    ensures Advances(s.cursor, Run(s, ticks).cursor)
  {
    if ticks != [] {
      var t := ticks[|ticks| - 1];
      var mid := Run(s, ticks[..|ticks| - 1]);
      RunAdvancesWatermark(s, ticks[..|ticks| - 1]);
      PollAdvancesWatermark(mid, t.store, t.currentYear);
      AdvancesTransitive(s.cursor, mid.cursor, Run(s, ticks).cursor);
    }
  }

  /** The run up to and including poll `i` is the run up to poll `i` followed by that poll. */
  lemma RunStep(s: State, ticks: seq<Tick>, i: nat)
    requires i < |ticks|
    ensures Run(s, ticks[..i + 1]) == Poll(Run(s, ticks[..i]), ticks[i].store, ticks[i].currentYear)
  {
    assert ticks[..i + 1][..i] == ticks[..i];
  }

  /** Poll `j` of a run is poll `j - m` of the run that starts after the first `m` polls. */
  lemma FetchedAtShift(s: State, ticks: seq<Tick>, m: nat, j: nat)
    requires m <= j < |ticks|
    ensures FetchedAt(s, ticks, j) == FetchedAt(Run(s, ticks[..m]), ticks[m..], j - m)
  {
    assert ticks[..j] == ticks[..m] + ticks[m..][..j - m];
    RunSplit(s, ticks[..m], ticks[m..][..j - m]);
    assert ticks[m..][j - m] == ticks[j];
  }

  /** A row created no later than the current watermark is never fetched by any later poll. */
  lemma RowAtOrBelowWatermarkNeverFetched(s: State, ticks: seq<Tick>, r: ProfileRecord, j: nat)
    requires s.cursor.Some? && Dated(r) && NotAfter(Created(r), s.cursor.value)
    requires j < |ticks|
    ensures r !in FetchedAt(s, ticks, j)
  {
    var sj := Run(s, ticks[..j]);
    RunAdvancesWatermark(s, ticks[..j]);
    var f := Fetched(sj, ticks[j].store);
    FetchNewProfilesSpec(ticks[j].store, sj.cursor);
    forall k | 0 <= k < |f| ensures f[k] != r {
      assert After(f[k].profileCreationDate, sj.cursor);
    }
  }

  /** After a poll, every row it fetched is at or below the new watermark. */
  lemma FetchedAtOrBelowNewWatermark(s: State, store: seq<StoreEntry>, currentYear: int, r: ProfileRecord)
    requires r in Fetched(s, store)
    ensures var c := Poll(s, store, currentYear).cursor;
      Dated(r) && c.Some? && NotAfter(Created(r), c.value)
  {
    var f := Fetched(s, store);
    FetchedNotAfterLast(s, store);
    var k :| 0 <= k < |f| && f[k] == r;
  }

  /** A row is never fetched by two different polls of a run. */
  lemma NeverFetchedTwice(s: State, ticks: seq<Tick>, i: nat, j: nat)
    requires i < j < |ticks|
    ensures forall r :: r in FetchedAt(s, ticks, i) ==> r !in FetchedAt(s, ticks, j)
  {
    var next := Run(s, ticks[..i + 1]);
    RunStep(s, ticks, i);
    FetchedAtShift(s, ticks, i + 1, j);
    assert FetchedAt(s, ticks, j) == FetchedAt(next, ticks[i + 1..], j - i - 1);
    forall r | r in FetchedAt(s, ticks, i) ensures r !in FetchedAt(next, ticks[i + 1..], j - i - 1) {
      FetchedAtOrBelowNewWatermark(Run(s, ticks[..i]), ticks[i].store, ticks[i].currentYear, r);
      RowAtOrBelowWatermarkNeverFetched(next, ticks[i + 1..], r, j - i - 1);
    }
  }

  /** Two complete profiles created after `datetime.min`, `t1` before `t2`. */
  predicate TwoProfiles(e1: StoreEntry, e2: StoreEntry, t1: DateTime, t2: DateTime) {
    && Joined(e1).Some? && Joined(e2).Some?
    && Joined(e1).value.profileCreationDate == Some(t1)
    && Joined(e2).value.profileCreationDate == Some(t2)
    && Before(MinDateTime, t1) && Before(t1, t2)
  }

  lemma TwoProfileSelected(e1: StoreEntry, e2: StoreEntry, t1: DateTime, t2: DateTime, store: seq<StoreEntry>)
    requires TwoProfiles(e1, e2, t1, t2)
    requires store == [e1, e2] || store == [e2, e1]
    ensures multiset(Selected(store, Some(MinDateTime))) == multiset{Joined(e1).value, Joined(e2).value}
  {
    var r1, r2 := Joined(e1).value, Joined(e2).value;
    assert Matches(e1, Some(MinDateTime)) && Matches(e2, Some(MinDateTime));
    assert store[..1][..0] == [];
    if store == [e1, e2] {
      assert store[..1] == [e1];
      assert Selected(store[..1], Some(MinDateTime)) == [r1];
    } else {
      assert store[..1] == [e2];
      assert Selected(store[..1], Some(MinDateTime)) == [r2];
    }
  }

  /** The only sorted arrangement of two rows created at `t1 < t2` puts the `t1` row first. */
  lemma SortedPair(f: seq<ProfileRecord>, r1: ProfileRecord, r2: ProfileRecord)
    requires Dated(r1) && Dated(r2) && Before(Created(r1), Created(r2))
    requires AllDated(f) && SortedByCreation(f) && multiset(f) == multiset{r1, r2}
    ensures f == [r1, r2]
  {
    assert |f| == |multiset(f)| == 2;
    assert f[0] in multiset(f) && f[1] in multiset(f);
    assert NotAfter(Created(f[0]), Created(f[1]));
    assert multiset(f) == multiset{f[0], f[1]} by {
      assert f == [f[0], f[1]];
    }
  }

  /** Whichever order the store holds them in, the first fetch returns both, oldest first. */
  lemma TwoProfileFetch(e1: StoreEntry, e2: StoreEntry, t1: DateTime, t2: DateTime,
                        store: seq<StoreEntry>, existingSink: seq<seq<Document>>)
    requires TwoProfiles(e1, e2, t1, t2)
    requires store == [e1, e2] || store == [e2, e1]
    ensures Fetched(Provisioned(existingSink), store) == [Joined(e1).value, Joined(e2).value]
  {
    TwoProfileSelected(e1, e2, t1, t2, store);
    FetchNewProfilesSpec(store, Some(MinDateTime));
    SortedPair(FetchNewProfiles(store, Some(MinDateTime)), Joined(e1).value, Joined(e2).value);
  }

  /**
   * From a freshly provisioned watermark and a store holding two complete
   * profiles created at `t1 < t2`, the first poll exports both in creation
   * order as one batch and leaves the watermark at `t2`; a second poll over
   * the same store is idle.
   */
  lemma TwoProfileScenario(e1: StoreEntry, e2: StoreEntry, t1: DateTime, t2: DateTime,
                           store: seq<StoreEntry>, existingSink: seq<seq<Document>>, currentYear: int)
    requires TwoProfiles(e1, e2, t1, t2)
    requires store == [e1, e2] || store == [e2, e1]
    ensures var s1 := Poll(Provisioned(existingSink), store, currentYear);
      && s1.watermark == [Some(t2)] && s1.cursor == Some(t2) && s1.batch == []
      && s1.sink == existingSink
                    + [[Transform(Joined(e1).value, e1.customer.customerId, currentYear),
                        Transform(Joined(e2).value, e2.customer.customerId, currentYear)]]
      && Poll(s1, store, currentYear) == s1
  {
    var s0 := Provisioned(existingSink);
    TwoProfileFetch(e1, e2, t1, t2, store, existingSink);
    var f := Fetched(s0, store);
    var docs := TransformAll(f, currentYear);
    assert docs == [Transform(Joined(e1).value, e1.customer.customerId, currentYear),
                    Transform(Joined(e2).value, e2.customer.customerId, currentYear)];
    assert Overwritten(s0.watermark, Some(t2)) == [Some(t2)];
    assert s0.batch + docs == docs;
    RepeatedPollIsIdle(s0, store, currentYear, currentYear);
  }

  // ---- the running extractor ----------------------------------------------

  /** The state of `export_profiles` between two iterations of its loop. */
  class Exporter {
    const watermark: WatermarkStore
    const sink: ProfileSink
    var lastExtractedDate: Option<DateTime>
    var allProfiles: seq<Document>

    ghost predicate Valid()
      reads this, watermark
    {
      watermark.rows != [] && watermark.rows[0] == lastExtractedDate && allProfiles == []
    }

    function Snapshot(): State
      reads this, watermark, sink
    {
      State(watermark.rows, lastExtractedDate, allProfiles, sink.batches)
    }

    constructor Init(watermark: WatermarkStore, sink: ProfileSink, loaded: Option<DateTime>)
      requires watermark.rows != [] && watermark.rows[0] == loaded
      ensures Valid()
      ensures this.watermark == watermark && this.sink == sink
      ensures lastExtractedDate == loaded && allProfiles == []
    {
      this.watermark := watermark;
      this.sink := sink;
      lastExtractedDate := loaded;
      allProfiles := [];
    }

    /**
     * The `for profile in new_profiles` loop: each row is transformed and
     * appended to the batch, then the cursor and the persisted watermark are
     * moved to its creation date, so after every row the two agree.
     */
    method ProcessFetched(fetched: seq<ProfileRecord>, currentYear: int)
      requires fetched != [] && watermark.rows != []
      modifies this, watermark
      ensures allProfiles == old(allProfiles) + TransformAll(fetched, currentYear)
      ensures lastExtractedDate == fetched[|fetched| - 1].profileCreationDate
      ensures watermark.rows == Overwritten(old(watermark.rows), lastExtractedDate)
      ensures watermark.rows[0] == lastExtractedDate
    {
      ghost var batch0, rows0 := allProfiles, watermark.rows;
      for i := 0 to |fetched|
        invariant allProfiles == batch0 + TransformAll(fetched[..i], currentYear)
        invariant i == 0 ==> watermark.rows == rows0
        invariant i > 0 ==> lastExtractedDate == fetched[i - 1].profileCreationDate
        invariant i > 0 ==> watermark.rows == Overwritten(rows0, lastExtractedDate)
        invariant |watermark.rows| == |rows0|
      {
        var profile := fetched[i];
        var customerId := profile.customer.customerId;
        var jsonProfile := Transform(profile, customerId, currentYear);
        assert fetched[..i + 1][..i] == fetched[..i];
        allProfiles := allProfiles + [jsonProfile];
        lastExtractedDate := profile.profileCreationDate;
        OverwrittenTwice(rows0, watermark.rows, lastExtractedDate);
        watermark.Update(lastExtractedDate);
      }
      assert fetched[..|fetched|] == fetched;
    }

    /**
     * One iteration of the loop: fetch past the cursor; on an empty result do
     * nothing; otherwise process every row and then append the batch to the
     * sink and clear it.
     */
    method PollOnce(store: seq<StoreEntry>, currentYear: int) returns (fetched: seq<ProfileRecord>)
      requires Valid()
      modifies this, watermark, sink
      ensures Valid()
      ensures fetched == FetchNewProfiles(store, old(lastExtractedDate))
      ensures Snapshot() == Poll(old(Snapshot()), store, currentYear)
    {
      ghost var before := Snapshot();
      fetched := FetchNewProfiles(store, lastExtractedDate);
      if |fetched| == 0 {
        return;
      }
      ProcessFetched(fetched, currentYear);
      sink.Append(allProfiles);
      allProfiles := [];
    }

    /** The `while True` loop cut to one poll per tick. */
    method PollRepeatedly(ticks: seq<Tick>)
      requires Valid()
      modifies this, watermark, sink
      ensures Valid()
      ensures Snapshot() == Run(old(Snapshot()), ticks)
    {
      for i := 0 to |ticks|
        invariant Valid()
        invariant Snapshot() == Run(old(Snapshot()), ticks[..i])
      {
        assert ticks[..i + 1][..i] == ticks[..i];
        var _ := PollOnce(ticks[i].store, ticks[i].currentYear);
      }
      assert ticks[..|ticks|] == ticks;
    }
  }

  /**
   * The start of `export_profiles`: load the watermark once into the
   * cursor with an empty batch; a missing watermark row aborts.
   */
  method StartExport(watermark: WatermarkStore, sink: ProfileSink) returns (r: Result<Exporter, Error>)
    ensures watermark.rows == [] <==> r.Failure?
    ensures r.Failure? ==> r.error == NotInitialized
    ensures r.Success? ==>
      && fresh(r.value) && r.value.Valid()
      && r.value.watermark == watermark && r.value.sink == sink
      && r.value.Snapshot() == State(watermark.rows, watermark.rows[0], [], sink.batches)
  {
    var loaded := watermark.Load();
    if loaded.Failure? {
      return Failure(loaded.error);
    }
    var exporter := new Exporter.Init(watermark, sink, loaded.value);
    return Success(exporter);
  }

  /**
   * A fresh database provisioned by `generate_tables` (an empty watermark
   * table, then seeded) and an extractor started on it: the start state is
   * `Provisioned`.
   */
  method ProvisionAndStart(existingSink: seq<seq<Document>>) returns (r: Result<Exporter, Error>)
    ensures r.Success?
    ensures r.value.Valid() && r.value.Snapshot() == Provisioned(existingSink)
  {
    var watermark := new WatermarkStore.Create();
    watermark.Seed();
    var sink := new ProfileSink(existingSink);
    r := StartExport(watermark, sink);
  }
}
