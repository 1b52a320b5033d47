/** Cache writes commit without fsync and a flag says that a flush is due (src/cache/redb_store.rs,
    `SharedDb`). Each event is one transaction commit or one access to the flag, by any number of
    writers and flushers. */
module CacheDurability {
  import opened Wire

  /** A committed write, by identity. */
  type Write = nat

  /** `committed` is what readers see, in order; its first `durable` writes survive a crash. `owing`
      are the places of the writes whose committer has not stored the flag yet. A flusher is known by
      the number of writes it found when it took the flag: `flushing` are those before their own
      commit, `failed` those whose commit failed and who have not put the flag back. */
  datatype Db = Db(committed: seq<Write>, durable: nat, dirty: bool,
                   owing: set<nat>, flushing: multiset<nat>, failed: multiset<nat>)

  const FRESH := Db([], 0, false, {}, multiset{}, multiset{})

  datatype Event =
    | Commit(write: Write)
    | MarkDirty(place: nat)
    | TakeFlag
    | FlushDone(found: nat)
    | FlushFailed(found: nat)
    | PutBack(found: nat)
    | Crash

  predicate Can(db: Db, e: Event) {
    match e
    case MarkDirty(i) => i in db.owing
    case FlushDone(found) => found in db.flushing
    case FlushFailed(found) => found in db.flushing
    case PutBack(found) => found in db.failed
    case Crash => db.durable <= |db.committed|
    case _ => true
  }

  /** A flusher that finds the flag down has nothing to do. An empty durable commit persists every
      commit before it. A crash keeps the durable writes and ends every writer and flusher. */
  function Step(db: Db, e: Event): Db
    requires Can(db, e)
  {
    match e
    case Commit(w) => db.(committed := db.committed + [w], owing := db.owing + {|db.committed|})
    case MarkDirty(i) => db.(dirty := true, owing := db.owing - {i})
    case TakeFlag =>
      if db.dirty then db.(dirty := false, flushing := db.flushing + multiset{|db.committed|}) else db
    case FlushDone(found) => db.(durable := |db.committed|, flushing := db.flushing - multiset{found})
    case FlushFailed(found) =>
      db.(flushing := db.flushing - multiset{found}, failed := db.failed + multiset{found})
    case PutBack(found) => db.(dirty := true, failed := db.failed - multiset{found})
    case Crash => Db(db.committed[..db.durable], db.durable, false, {}, multiset{}, multiset{})
  }

  /** Somebody answers for the write at place `i`: the flag, its own committer, or a flusher that
      found it there and has not finished. */
  predicate Covered(db: Db, i: nat) {
    db.dirty || i in db.owing || (exists found :: found in db.flushing + db.failed && i < found)
  }

  predicate Inv(db: Db) {
    && db.durable <= |db.committed|
    && (forall i: nat :: db.durable <= i < |db.committed| ==> Covered(db, i))
  }

  lemma StepKeepsInv(db: Db, e: Event)
    requires Inv(db) && Can(db, e)
    ensures Inv(Step(db, e))
  {
    var next := Step(db, e);
    forall i: nat | next.durable <= i < |next.committed|
      ensures Covered(next, i)
    {
      if i < |db.committed| {
        assert Covered(db, i);
        StaysCovered(db, e, i);
      }
    }
  }

  /** No step but the durable commit and the crash leaves a write without its cover. */
  lemma StaysCovered(db: Db, e: Event, i: nat)
    requires Can(db, e) && Covered(db, i) && i < |db.committed| && !e.FlushDone? && !e.Crash?
    ensures Covered(Step(db, e), i)
  {
    var next := Step(db, e);
    if e.TakeFlag? && db.dirty {
      assert |db.committed| in next.flushing + next.failed;
    } else if !db.dirty && i !in db.owing {
      var found :| found in db.flushing + db.failed && i < found;
      assert e.PutBack? || found in next.flushing + next.failed;
    }
  }

  predicate Runs(db: Db, es: seq<Event>)
    decreases |es|
  {
    es == [] || (Can(db, es[0]) && Runs(Step(db, es[0]), es[1..]))
  }

  function After(db: Db, es: seq<Event>): Db
    requires Runs(db, es)
    decreases |es|
  {
    if es == [] then db else After(Step(db, es[0]), es[1..])
  }

  lemma {:induction false} RunKeepsInv(db: Db, es: seq<Event>)
    requires Inv(db) && Runs(db, es)
    ensures Inv(After(db, es))
    decreases |es|
  {
    hide Can, Step;
    if es != [] {
      StepKeepsInv(db, es[0]);
      RunKeepsInv(Step(db, es[0]), es[1..]);
    }
  }

  /** Over every interleaving, each committed write that is not durable yet is covered by the flag, by
      its own committer who still owes it, or by a flusher that took the flag after it was committed
      and has not finished. */
  lemma UndurableWritesAreCovered(es: seq<Event>)
    requires Runs(FRESH, es)
    ensures var db := After(FRESH, es);
            && db.durable <= |db.committed|
            && (forall i: nat :: db.durable <= i < |db.committed| ==> Covered(db, i))
  {
    RunKeepsInv(FRESH, es);
  }

  /** So a crash leaves a prefix of the writes, and with it every write nobody answers for: a clean,
      quiet database loses nothing. */
  lemma CleanDatabaseSurvivesCrash(es: seq<Event>)
    requires Runs(FRESH, es)
    ensures var db := After(FRESH, es);
            && Can(db, Crash)
            && var kept := Step(db, Crash).committed;
            && kept <= db.committed
            && (forall i: nat :: i < |db.committed| && !Covered(db, i) ==> i < |kept|)
            && (Quiet(db) ==> kept == db.committed)
  {
    hide Covered;
    RunKeepsInv(FRESH, es);
    var db := After(FRESH, es);
    if Quiet(db) {
      QuietIsDurable(db);
    }
  }

  lemma {:induction false} StaysMarked(db: Db, es: seq<Event>, i: nat)
    requires Inv(db) && Runs(db, es) && i < |db.committed| && i !in db.owing && Crash !in es
    ensures Inv(After(db, es)) && i !in After(db, es).owing && i < |After(db, es).committed|
    decreases |es|
  {
    if es != [] {
      StepKeepsInv(db, es[0]);
      assert i !in Step(db, es[0]).owing && i < |Step(db, es[0]).committed|;
      hide Step, Can, Inv;
      StaysMarked(Step(db, es[0]), es[1..], i);
    }
  }

  lemma {:induction false} OwingIsCommitted(db: Db, es: seq<Event>, i: nat)
    requires Runs(db, es) && (forall j :: j in db.owing ==> j < |db.committed|) && i in After(db, es).owing
    ensures i < |After(db, es).committed|
    decreases |es|
  {
    if es != [] {
      OwingIsCommitted(Step(db, es[0]), es[1..], i);
    }
  }

  /** In every interleaving a committer that has put the flag up is done with it: until the next crash its
      write is durable, or the flag is up, or a flusher that found the write has not finished. */
  lemma MarkedIsFlushable(before: seq<Event>, i: nat, later: seq<Event>)
    requires Runs(FRESH, before) && Can(After(FRESH, before), MarkDirty(i))
    requires Runs(Step(After(FRESH, before), MarkDirty(i)), later) && Crash !in later
    ensures var db := After(Step(After(FRESH, before), MarkDirty(i)), later);
            i < db.durable || db.dirty || exists found :: found in db.flushing + db.failed && i < found
  {
    RunKeepsInv(FRESH, before);
    OwingIsCommitted(FRESH, before, i);
    StepKeepsInv(After(FRESH, before), MarkDirty(i));
    StaysMarked(Step(After(FRESH, before), MarkDirty(i)), later, i);
    var db := After(Step(After(FRESH, before), MarkDirty(i)), later);
    assert i < db.durable || Covered(db, i);
  }

  predicate Quiet(db: Db) {
    !db.dirty && db.owing == {} && db.flushing == db.failed == multiset{}
  }

  lemma QuietIsDurable(db: Db)
    requires Inv(db) && Quiet(db)
    ensures db.durable == |db.committed|
  {
    assert !Covered(db, db.durable);
  }

  lemma StepKeepsDurable(db: Db, e: Event)
    requires db.durable <= |db.committed| && Can(db, e)
    ensures var next := Step(db, e);
            && db.durable <= next.durable <= |next.committed|
            && next.committed[..db.durable] == db.committed[..db.durable]
            && (!e.Crash? ==> db.committed <= next.committed)
  {
  }

  lemma PrefixKept<T>(a: seq<T>, b: seq<T>, c: seq<T>, m: nat, n: nat)
    requires m <= n && m <= |a| && n <= |b| && n <= |c|
    requires b[..m] == a[..m] && c[..n] == b[..n]
    ensures c[..m] == a[..m]
  {
    assert c[..m] == c[..n][..m] && b[..m] == b[..n][..m];
  }

  /** Writes are never lost, reordered or made up but by a crash, and durable ones not even then. */
  lemma {:induction false} DurableWritesStay(db: Db, es: seq<Event>)
    requires Inv(db) && Runs(db, es)
    ensures db.durable <= |After(db, es).committed|
    ensures After(db, es).committed[..db.durable] == db.committed[..db.durable]
    ensures db.durable <= After(db, es).durable
    ensures (forall i :: 0 <= i < |es| ==> !es[i].Crash?) ==> db.committed <= After(db, es).committed
    decreases |es|
  {
    if es != [] {
      hide Inv, Step;
      var next := Step(db, es[0]);
      StepKeepsInv(db, es[0]);
      StepKeepsDurable(db, es[0]) by { DurableBound(db); }
      DurableWritesStay(next, es[1..]);
      PrefixKept(db.committed, next.committed, After(next, es[1..]).committed, db.durable, next.durable);
      assert forall i :: 0 <= i < |es[1..]| ==> es[1..][i] == es[i + 1];
    } else {
      DurableBound(db);
    }
  }

  lemma DurableBound(db: Db)
    requires Inv(db)
    ensures db.durable <= |db.committed|
  {
  }

  /** A flush that runs alone and reports success leaves every write durable whose committer was
      through when it began, whether it found the flag up or down. */
  lemma FlushAloneIsDurable(db: Db, between: seq<Event>, found: nat)
    requires Inv(db) && db.flushing == db.failed == multiset{}
    requires Runs(Step(db, TakeFlag), between) && Can(After(Step(db, TakeFlag), between), FlushDone(found))
    requires forall i :: 0 <= i < |between| ==> !between[i].Crash?
    ensures !db.dirty ==> forall i: nat :: i < |db.committed| && i !in db.owing ==> i < db.durable
    ensures db.dirty ==>
              var after := Step(After(Step(db, TakeFlag), between), FlushDone(found));
              db.committed <= after.committed && after.durable == |after.committed|
  {
    StepKeepsInv(db, TakeFlag);
    DurableWritesStay(Step(db, TakeFlag), between);
    forall i: nat | i < |db.committed| && i !in db.owing && !db.dirty
      ensures i < db.durable
    {
      assert !Covered(db, i);
    }
  }

  /** A flush can do its work: with the flag up and nobody else flushing it takes the flag, and its
      commit makes every write durable with the flag down; when the commit fails the flag goes back up
      and nothing has changed. */
  lemma FlushGetsThrough(db: Db)
    requires db.dirty && db.flushing == db.failed == multiset{}
    ensures var taken := Step(db, TakeFlag);
            var n := |db.committed|;
            && !taken.dirty && Can(taken, FlushDone(n)) && Can(taken, FlushFailed(n))
            && Step(taken, FlushDone(n)) == db.(durable := n, dirty := false)
            && var failed := Step(taken, FlushFailed(n));
               Can(failed, PutBack(n)) && Step(failed, PutBack(n)) == db
  {
    var n := |db.committed|;
    assert multiset{} + multiset{n} - multiset{n} == multiset{};
  }

  /** A flusher that finds the flag down reports success at once. A write its committer was through
      with can then still be lost, and only a flush that found the write and has not finished can be
      the reason. */
  lemma EarlyReportNeedsAnotherFlush(es: seq<Event>, i: nat)
    requires Runs(FRESH, es) && !After(FRESH, es).dirty
    requires i < |After(FRESH, es).committed| && i !in After(FRESH, es).owing
    ensures var db := After(FRESH, es);
            i < db.durable || exists found :: found in db.flushing + db.failed && i < found
  {
    RunKeepsInv(FRESH, es);
    assert After(FRESH, es).durable <= i ==> Covered(After(FRESH, es), i);
  }

  /** Such a flush there can be: two at once would not do. Hence the lock around flushing. */
  lemma SecondFlushMayReportEarly(w: Write)
    ensures var es := [Commit(w), MarkDirty(0), TakeFlag, TakeFlag];
            && Runs(FRESH, es)
            && var db := After(FRESH, es);
               db.flushing == multiset{1} && db.durable == 0 && db.committed == [w] && Step(db, Crash).committed == []
  {
    var es := [Commit(w), MarkDirty(0), TakeFlag, TakeFlag];
    var db1 := Step(FRESH, Commit(w));
    var db2 := Step(db1, MarkDirty(0));
    var db3 := Step(db2, TakeFlag);
    assert es[1..] == [MarkDirty(0), TakeFlag, TakeFlag];
    assert es[1..][1..] == [TakeFlag, TakeFlag];
    assert es[1..][1..][1..] == [TakeFlag];
    assert After(db3, [TakeFlag]) == db3;
    assert After(db2, [TakeFlag, TakeFlag]) == db3;
  }

  // ─── The object ─────────────────────────────────────────────────────────────

  /** `SharedDb` used by one caller at a time. */
  class SharedDb {
    var committed: seq<Write>
    var durable: nat
    var dirty: bool

    constructor ()
      ensures Value() == FRESH
    {
      committed, durable, dirty := [], 0, false;
    }

    function Value(): Db
      reads this
    {
      Db(committed, durable, dirty, {}, multiset{}, multiset{})
    }

    method CommitCacheWrite(w: Write)
      requires Inv(Value())
      modifies this
      ensures Inv(Value()) && dirty
      ensures Value() == Step(Step(old(Value()), Commit(w)), MarkDirty(|old(committed)|))
    {
      committed := committed + [w];
      dirty := true;
      assert {} + {|old(committed)|} - {|old(committed)|} == {};
    }

    /** `ok` is whether the durable commit goes through. */
    method Flush(ok: bool) returns (success: bool)
      requires Inv(Value())
      modifies this
      ensures Inv(Value()) && committed == old(committed)
      ensures success ==> durable == |committed| && !dirty
      ensures !success ==> dirty && durable == old(durable)
      ensures success <==> ok || !old(dirty)
    {
      if !dirty {
        QuietIsDurable(Value());
        return true;
      }
      dirty := false;
      if ok {
        durable := |committed|;
        return true;
      }
      dirty := true;
      return false;
    }
  }
}
