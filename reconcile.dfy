/**
 * The timer reconciliation of src/ical-events.ts: the live timers, the
 * refresh cycle `cronCheckJob` (lines 85-237) that diffs them against the
 * boundaries of a fresh fetch, the two fire handlers (lines 239-256) and the
 * teardown loop of the `close` handler (lines 26-37).
 *
 * The source keeps `newCronJobs` and `startedCronJobs` in the closure of the
 * module, so every node shares them; here they are the fields of one
 * `Scheduler` object that every node's cycle is run against.  Everything a
 * cycle does after its calendar fetch is synchronous, so one call of
 * `CronCheck` is one atomic step; the fetch result, the clock, the node's
 * offset configuration and the outcome of each `start()` are its parameters.
 */
module Reconcile {
  import opened Wrappers
  import opened Offset
  import opened Boundaries

  /**
   * A `CronJob` of the cron library armed for one boundary: it fires at
   * `boundary.target` and then calls `boundary.handler`.  Whether it is
   * running is the library's state and is kept in `Scheduler.running`.
   */
  class Job {
    const boundary: Boundary

    constructor (b: Boundary)
      ensures boundary == b
    {
      boundary := b;
    }
  }

  /** The uid a job was armed for (the id its payload carries, by `BoundariesKeyed`). */
  function Key(j: Job): Uid { j.boundary.uid }

  /**
   * One `node.send`: the message on output 1 (a start fired), on output 2
   * (an end fired) and the live timers on output 3.
   */
  datatype Message = Message(onStart: Option<Payload>, onEnd: Option<Payload>, status: map<Uid, Job>)

  /**
   * What `cronJobStart` and `cronJobEnd` send when a timer fires: the payload
   * on exactly one of the first two outputs, chosen by the kind of boundary,
   * and the live timers on the third.
   */
  function FireMessage(h: Handler, status: map<Uid, Job>): (m: Message)
    ensures m.onStart.Some? != m.onEnd.Some?
    ensures m.onStart.Some? <==> h.OnStart?
    ensures (if h.OnStart? then m.onStart else m.onEnd) == Some(h.event)
    ensures m.status == status
  {
    match h
    case OnStart(event) => Message(Some(event), None, status)
    case OnEnd(event) => Message(None, Some(event), status)
  }

  /** Every timer sits under the uid it was armed for; so no two uids share a timer. */
  ghost predicate Keyed(m: map<Uid, Job>)
  {
    forall k :: k in m ==> Key(m[k]) == k
  }

  /** The live timers of the given uids: the timers staging them stops. */
  function LiveOf(started: map<Uid, Job>, uids: seq<Uid>): set<Job>
  {
    set k | k in started && k in uids :: started[k]
  }

  /** The staged timers whose start does not throw. */
  function StartedOf(staged: map<Uid, Job>, failing: set<Uid>): set<Job>
  {
    set k | k in staged && k !in failing :: staged[k]
  }

  /** Under a keyed live set, a live timer is among `LiveOf` exactly when its uid is listed. */
  lemma LiveOfKeyed(started: map<Uid, Job>, r0: set<Job>, r: set<Job>, uids: seq<Uid>)
    requires Keyed(started) && r == r0 - LiveOf(started, uids)
    ensures forall k :: k in started ==> (started[k] in r <==> started[k] in r0 && k !in uids)
  {
    forall k | k in started && started[k] in r0 && k !in uids
      ensures started[k] !in LiveOf(started, uids)
    {
      forall k' | k' in started && k' in uids
        ensures started[k'] != started[k]
      {
        assert Key(started[k']) == k';
      }
    }
  }

  lemma LiveOfAppend(started: map<Uid, Job>, uids: seq<Uid>, more: seq<Uid>)
    ensures LiveOf(started, uids + more) == LiveOf(started, uids) + LiveOf(started, more)
  {
  }

  /**
   * The running timers after promotion are the earlier ones plus the staged
   * timers whose start did not throw.
   */
  lemma PromotedRunning(r0: set<Job>, r: set<Job>, staged: map<Uid, Job>, failing: set<Uid>)
    requires Keyed(staged)
    requires r0 <= r
    requires forall k :: k in staged ==> (staged[k] in r <==> k !in failing)
    requires forall j :: j in r ==> j in r0 || (Key(j) in staged && staged[Key(j)] == j)
    ensures r == r0 + StartedOf(staged, failing)
  {
    forall j | j in r && j !in r0 ensures j in StartedOf(staged, failing) {
      assert Key(j) in staged && Key(j) !in failing;
    }
    forall j | j in StartedOf(staged, failing) ensures j in r {
      var k :| k in staged && k !in failing && j == staged[k];
    }
  }

  /**
   * After promotion every timer still sits under its own uid and every
   * running timer is the live timer of its uid, given that no staged uid's
   * live timer was running.
   */
  lemma PromotedTracked(started0: map<Uid, Job>, r0: set<Job>, staged: map<Uid, Job>, failing: set<Uid>,
                        started: map<Uid, Job>, r: set<Job>)
    requires Keyed(started0) && Keyed(staged)
    requires forall j :: j in r0 ==> Key(j) in started0 && started0[Key(j)] == j
    requires forall k :: k in staged && k in started0 ==> started0[k] !in r0
    requires forall k :: k in started <==> k in started0 || (k in staged && k !in failing)
    requires forall k :: k in started ==>
      started[k] == if k in staged && k !in failing then staged[k] else started0[k]
    requires forall k :: k in staged ==> (staged[k] in r <==> k !in failing)
    requires forall j :: j in r ==> j in r0 || (Key(j) in staged && staged[Key(j)] == j)
    ensures Keyed(started)
    ensures forall j :: j in r ==> Key(j) in started && started[Key(j)] == j
  {
  }

  class Scheduler {
    /** `newCronJobs`: timers staged in this cycle, not yet started. */
    var newJobs: map<Uid, Job>
    /** `startedCronJobs`: the live set. */
    var started: map<Uid, Job>
    /** The timers the cron library is running: started, and neither stopped nor fired since. */
    var running: set<Job>
    /** The boundary each staged timer was armed for, uid by uid. */
    ghost var Plan: map<Uid, Boundary>

    /** Every running timer is the live timer of its own uid. */
    ghost predicate Tracked()
      reads this
    {
      forall j :: j in running ==> Key(j) in started && started[Key(j)] == j
    }

    /** The state between cycles: nothing staged, every live timer under its own uid, every running timer live. */
    ghost predicate Valid()
      reads this
    {
      newJobs == map[] && Keyed(started) && Tracked()
    }

    /** `Plan` records the boundary of every staged timer. */
    ghost predicate Planned()
      reads this
    {
      && (forall k :: k in newJobs <==> k in Plan)
      && (forall k :: k in newJobs ==> newJobs[k].boundary == Plan[k])
    }

    constructor ()
      ensures Valid() && started == map[] && running == {}
    {
      newJobs := map[];
      started := map[];
      running := {};
      Plan := map[];
    }

    /** At most one running timer per uid. */
    lemma AtMostOneLive(j1: Job, j2: Job)
      requires Tracked()
      requires j1 in running && j2 in running && Key(j1) == Key(j2)
      ensures j1 == j2
    {
    }

    /**
     * The staging step for one boundary (src/ical-events.ts:137-149, and
     * 179-194 for an end): a fresh timer is made; a uid neither staged nor
     * live gets it; a live uid has its timer stopped and gets another fresh
     * one; a uid staged but not live keeps what it has, and the fresh timer
     * is dropped.
     */
    method StageBoundary(b: Boundary)
      requires Planned()
      requires forall k :: k in newJobs ==> newJobs[k] !in running
      modifies this
      ensures started == old(started)
      ensures Plan == Stage(old(Plan), started.Keys, b)
      ensures running == if b.uid in started then old(running) - {started[b.uid]} else old(running)
      ensures forall k :: k in newJobs ==> (k in old(newJobs) && newJobs[k] == old(newJobs[k])) || fresh(newJobs[k])
      ensures b.uid in started || b.uid !in old(newJobs) ==>
        b.uid in newJobs && fresh(newJobs[b.uid]) && newJobs == old(newJobs)[b.uid := newJobs[b.uid]]
      ensures b.uid !in started && b.uid in old(newJobs) ==> newJobs == old(newJobs)
      ensures Planned()
      ensures forall k :: k in newJobs ==> newJobs[k] !in running
    {
      var job2 := new Job(b);
      if b.uid !in newJobs && b.uid !in started {
        newJobs := newJobs[b.uid := job2];
        Plan := Plan[b.uid := b];
      } else if b.uid in started {
        var cronJob := started[b.uid];
        running := running - {cronJob};
        job2 := new Job(b);
        newJobs := newJobs[b.uid := job2];
        Plan := Plan[b.uid := b];
      }
    }

    /**
     * The start branch for one fetched event (src/ical-events.ts:109-150):
     * when the start lies ahead, its uid is returned (the source pushes it to
     * `possibleUids`), the payload is built, the start is shifted and the
     * boundary is staged.  The event is returned as the branch leaves it.
     */
    method StageStart(ev: CalEvent, now: Time, offset: int, unit: OffsetUnit)
      returns (ev': CalEvent, uids: seq<Uid>)
      requires Keyed(started) && Planned()
      requires forall k :: k in newJobs ==> newJobs[k] !in running
      modifies this
      ensures ev' == AfterStart(ev, now, offset, unit)
      ensures uids == Uids(StartPart(ev, now, offset, unit))
      ensures started == old(started)
      ensures Plan == StageAll(old(Plan), started.Keys, StartPart(ev, now, offset, unit))
      ensures running == old(running) - LiveOf(started, uids)
      ensures forall k :: k in started ==> (started[k] in running <==> started[k] in old(running) && k !in uids)
      ensures forall k :: k in newJobs ==> (k in old(newJobs) && newJobs[k] == old(newJobs[k])) || fresh(newJobs[k])
      ensures forall k :: k in old(newJobs) && (k !in uids || k !in started) ==> k in newJobs && newJobs[k] == old(newJobs[k])
      ensures Planned()
      ensures forall k :: k in newJobs ==> newJobs[k] !in running
    {
      ev' := ev;
      if ev'.eventStart > now {
        var uid := ev'.id + "start";
        uids := [uid];
        var event := Payload(ev'.summary, ev'.summary, uid, ev'.location, ev'.eventStart, ev'.eventEnd,
                             ev'.description, ev'.calendarName, ev'.eventStart);
        ev' := ev'.(eventStart := Shift(ev'.eventStart, offset, unit));
        // the payload holds the very Date object that was just shifted
        event := event.(eventStart := ev'.eventStart);
        var b := Boundary(uid, ev'.eventStart, OnStart(event));
        assert [b] == StartPart(ev, now, offset, unit);
        StageBoundary(b);
      } else {
        uids := [];
      }
    }

    /**
     * The end branch for one fetched event (src/ical-events.ts:151-195), run
     * on the event as the start branch left it.
     */
    method StageEnd(ev: CalEvent, now: Time, offset: int, unit: OffsetUnit)
      returns (ev': CalEvent, uids: seq<Uid>)
      requires Keyed(started) && Planned()
      requires forall k :: k in newJobs ==> newJobs[k] !in running
      modifies this
      ensures ev' == AfterEnd(ev, now, offset, unit)
      ensures uids == Uids(EndPart(ev, now, offset, unit))
      ensures started == old(started)
      ensures Plan == StageAll(old(Plan), started.Keys, EndPart(ev, now, offset, unit))
      ensures running == old(running) - LiveOf(started, uids)
      ensures forall k :: k in started ==> (started[k] in running <==> started[k] in old(running) && k !in uids)
      ensures forall k :: k in newJobs ==> (k in old(newJobs) && newJobs[k] == old(newJobs[k])) || fresh(newJobs[k])
      ensures forall k :: k in old(newJobs) && (k !in uids || k !in started) ==> k in newJobs && newJobs[k] == old(newJobs[k])
      ensures Planned()
      ensures forall k :: k in newJobs ==> newJobs[k] !in running
    {
      ev' := ev;
      if ev'.eventEnd > now {
        var uid := ev'.id + "end";
        uids := [uid];
        var event := Payload(ev'.summary, ev'.summary, uid, ev'.location, ev'.eventStart, ev'.eventEnd,
                             ev'.description, ev'.calendarName, ev'.eventStart);
        ev' := ev'.(eventEnd := Shift(ev'.eventEnd, offset, unit));
        // the payload holds the very Date object that was just shifted
        event := event.(eventEnd := ev'.eventEnd);
        var b := Boundary(uid, ev'.eventEnd, OnEnd(event));
        assert [b] == EndPart(ev, now, offset, unit);
        StageBoundary(b);
      } else {
        uids := [];
      }
    }

    /**
     * One fetched event (src/ical-events.ts:106-195): the start branch, then
     * the end branch; the uids of the edges still ahead are returned, and
     * the event as both branches leave it.
     */
    method StageEvent(ev: CalEvent, now: Time, offset: int, unit: OffsetUnit)
      returns (ev': CalEvent, uids: seq<Uid>)
      requires Keyed(started) && Planned()
      requires forall k :: k in newJobs ==> newJobs[k] !in running
      modifies this
      ensures ev' == ShiftEvent(ev, now, offset, unit)
      ensures uids == Uids(EventBoundaries(ev, now, offset, unit))
      ensures started == old(started)
      ensures Plan == StageAll(old(Plan), started.Keys, EventBoundaries(ev, now, offset, unit))
      ensures running == old(running) - LiveOf(started, uids)
      ensures forall k :: k in started ==> (started[k] in running <==> started[k] in old(running) && k !in uids)
      ensures forall k :: k in newJobs ==> (k in old(newJobs) && newJobs[k] == old(newJobs[k])) || fresh(newJobs[k])
      ensures forall k :: k in old(newJobs) && (k !in uids || k !in started) ==> k in newJobs && newJobs[k] == old(newJobs[k])
      ensures Planned()
      ensures forall k :: k in newJobs ==> newJobs[k] !in running
    {
      var ev1, uids1 := StageStart(ev, now, offset, unit);
      var uids2;
      ev', uids2 := StageEnd(ev1, now, offset, unit);
      uids := uids1 + uids2;
      LiveOfAppend(started, uids1, uids2);
      UidsAppend(StartPart(ev, now, offset, unit), EndPart(ev1, now, offset, unit));
      StageAllAppend(old(Plan), started.Keys, StartPart(ev, now, offset, unit), EndPart(ev1, now, offset, unit));
    }

    /**
     * One turn of the staging pass: the event at `i` is staged and its uids
     * are added to those of the events before it.
     */
    method StageNext(data: seq<CalEvent>, i: int, possible: seq<Uid>, now: Time, offset: int, unit: OffsetUnit,
                     ghost running0: set<Job>)
      returns (possible': seq<Uid>)
      requires 0 <= i < |data|
      requires Keyed(started) && Planned()
      requires possible == Uids(FetchBoundaries(data[..i], now, offset, unit))
      requires Plan == StageAll(map[], started.Keys, FetchBoundaries(data[..i], now, offset, unit))
      requires running == running0 - LiveOf(started, possible)
      requires forall k :: k in newJobs ==> newJobs[k] !in running
      modifies this
      ensures started == old(started)
      ensures possible' == Uids(FetchBoundaries(data[..i + 1], now, offset, unit))
      ensures Plan == StageAll(map[], started.Keys, FetchBoundaries(data[..i + 1], now, offset, unit))
      ensures running == running0 - LiveOf(started, possible')
      ensures forall k :: k in newJobs ==> (k in old(newJobs) && newJobs[k] == old(newJobs[k])) || fresh(newJobs[k])
      ensures forall k :: k in old(newJobs) && (k !in Uids(EventBoundaries(data[i], now, offset, unit)) || k !in started) ==>
        k in newJobs && newJobs[k] == old(newJobs[k])
      ensures forall k :: k in newJobs ==> newJobs[k] !in running
      ensures Planned()
    {
      ghost var acc := FetchBoundaries(data[..i], now, offset, unit);
      ghost var eb := EventBoundaries(data[i], now, offset, unit);
      var _, uids := StageEvent(data[i], now, offset, unit);
      possible' := possible + uids;
      LiveOfAppend(started, possible, uids);
      assert FetchBoundaries(data[..i + 1], now, offset, unit) == acc + eb by {
        BoundariesSnoc(data, i, now, offset, unit);
      }
      assert possible' == Uids(acc + eb) by {
        UidsAppend(acc, eb);
      }
      assert Plan == StageAll(map[], started.Keys, acc + eb) by {
        StageAllAppend(map[], started.Keys, acc, eb);
      }
    }

    /**
     * The staging pass over a fetch (src/ical-events.ts:104-198): every event
     * in order, with its uids collected in `possible`.
     */
    method StageFetched(data: seq<CalEvent>, now: Time, offset: int, unit: OffsetUnit)
      returns (possible: seq<Uid>)
      requires newJobs == map[] && Plan == map[] && Keyed(started)
      modifies this
      ensures possible == Uids(FetchBoundaries(data, now, offset, unit))
      ensures started == old(started)
      ensures Plan == StageAll(map[], started.Keys, FetchBoundaries(data, now, offset, unit))
      ensures running == old(running) - LiveOf(started, possible)
      ensures forall k :: k in started ==> (started[k] in running <==> started[k] in old(running) && k !in possible)
      ensures forall k :: k in newJobs ==> fresh(newJobs[k]) && newJobs[k] !in running
      ensures Planned()
    {
      possible := [];
      var i := 0;
      while i < |data|
        invariant 0 <= i <= |data|
        invariant started == old(started)
        invariant possible == Uids(FetchBoundaries(data[..i], now, offset, unit))
        invariant Plan == StageAll(map[], started.Keys, FetchBoundaries(data[..i], now, offset, unit))
        invariant running == old(running) - LiveOf(started, possible)
        invariant forall k :: k in newJobs ==> fresh(newJobs[k]) && newJobs[k] !in running
        invariant Planned()
      {
        possible := StageNext(data, i, possible, now, offset, unit, old(running));
        i := i + 1;
      }
      assert data[..i] == data;
      LiveOfKeyed(started, old(running), running, possible);
    }

    /**
     * One turn of promotion: the staged timer of `k` is started and stored in
     * the live set unless its start throws.  `todo` holds the uids not yet
     * promoted, `k` among them.
     */
    method PromoteNext(k: Uid, failing: set<Uid>, ghost todo: set<Uid>, ghost started0: map<Uid, Job>,
                       ghost running0: set<Job>)
      requires k in todo && todo <= newJobs.Keys && Keyed(newJobs)
      requires forall u :: u in started <==> u in started0 || (u in newJobs && u !in todo && u !in failing)
      requires forall u :: u in started ==>
        started[u] == if u in newJobs && u !in todo && u !in failing then newJobs[u] else started0[u]
      requires forall u :: u in newJobs ==> (newJobs[u] in running <==> u !in todo && u !in failing)
      requires forall j :: j in running ==> j in running0 || (Key(j) in newJobs && newJobs[Key(j)] == j)
      requires running0 <= running
      modifies this
      ensures newJobs == old(newJobs)
      ensures forall u :: u in started <==> u in started0 || (u in newJobs && u !in todo - {k} && u !in failing)
      ensures forall u :: u in started ==>
        started[u] == if u in newJobs && u !in todo - {k} && u !in failing then newJobs[u] else started0[u]
      ensures forall u :: u in newJobs ==> (newJobs[u] in running <==> u !in todo - {k} && u !in failing)
      ensures forall j :: j in running ==> j in running0 || (Key(j) in newJobs && newJobs[Key(j)] == j)
      ensures running0 <= running
    {
      var job := newJobs[k];
      if k !in failing {
        running := running + {job};
        started := started[k := job];
      }
    }

    /**
     * Promotion (src/ical-events.ts:200-214): every staged timer is started
     * and stored under its uid in the live set, except those whose start
     * throws, which are skipped; then nothing is staged.
     */
    method Promote(failing: set<Uid>)
      requires Keyed(newJobs) && Keyed(started) && Tracked()
      requires forall k :: k in newJobs ==> newJobs[k] !in running
      requires forall k :: k in newJobs && k in started ==> started[k] !in running
      modifies this
      ensures newJobs == map[]
      ensures forall k :: k in started <==> k in old(started) || (k in old(newJobs) && k !in failing)
      ensures forall k :: k in started ==>
        started[k] == if k in old(newJobs) && k !in failing then old(newJobs[k]) else old(started[k])
      ensures forall k :: k in old(newJobs) ==> (old(newJobs[k]) in running <==> k !in failing)
      ensures forall j :: j in running ==> j in old(running) || (Key(j) in old(newJobs) && old(newJobs)[Key(j)] == j)
      ensures running == old(running) + StartedOf(old(newJobs), failing)
      ensures Keyed(started) && Tracked()
    {
      ghost var staged := newJobs;
      ghost var started0 := started;
      var todo := newJobs.Keys;
      while todo != {}
        invariant todo <= staged.Keys && newJobs == staged
        invariant forall k :: k in started <==> k in started0 || (k in staged && k !in todo && k !in failing)
        invariant forall k :: k in started ==>
          started[k] == if k in staged && k !in todo && k !in failing then staged[k] else started0[k]
        invariant forall k :: k in staged ==> (staged[k] in running <==> k !in todo && k !in failing)
        invariant forall j :: j in running ==> j in old(running) || (Key(j) in staged && staged[Key(j)] == j)
        invariant old(running) <= running
        decreases todo
      {
        var k :| k in todo;
        PromoteNext(k, failing, todo, started0, old(running));
        todo := todo - {k};
      }
      PromotedRunning(old(running), running, staged, failing);
      PromotedTracked(started0, old(running), staged, failing, started, running);
      newJobs := map[];
    }

    /**
     * The sweep (src/ical-events.ts:217-231): a live timer that no longer
     * runs is dropped; a running one whose uid this cycle did not produce is
     * stopped and dropped; the rest stay.
     */
    method Sweep(possible: seq<Uid>)
      requires Keyed(started) && Tracked()
      modifies this
      ensures newJobs == old(newJobs)
      ensures forall k :: k in started <==> k in old(started) && old(started[k]) in old(running) && k in possible
      ensures forall k :: k in started ==> started[k] == old(started[k])
      ensures forall k :: k in old(started) ==> (old(started)[k] in running <==> old(started)[k] in old(running) && k in possible)
      ensures running <= old(running)
      ensures Keyed(started) && Tracked()
    {
      ghost var started0 := started;
      var todo := started.Keys;
      while todo != {}
        invariant todo <= started0.Keys && newJobs == old(newJobs)
        invariant forall k :: k in started <==> k in started0 && (k in todo || (started0[k] in old(running) && k in possible))
        invariant forall k :: k in started ==> started[k] == started0[k]
        invariant forall k :: k in started0 ==> (started0[k] in running <==> started0[k] in old(running) && (k in todo || k in possible))
        invariant running <= old(running)
        invariant Keyed(started) && Tracked()
        decreases todo
      {
        var k :| k in todo;
        if started[k] !in running {
          started := started - {k};
        } else if k !in possible {
          running := running - {started[k]};
          started := started - {k};
        }
        todo := todo - {k};
      }
    }

    /**
     * The end of a cycle (src/ical-events.ts:200-231): promotion, then the
     * sweep.  Every produced uid is staged and no live timer of a produced uid
     * still runs, so what stays live is exactly the staged timers that
     * started.
     */
    method PromoteAndSweep(failing: set<Uid>, possible: seq<Uid>)
      requires Keyed(newJobs) && Keyed(started) && Tracked()
      requires forall k :: k in newJobs ==> newJobs[k] !in running && k in possible
      requires forall k :: k in started && started[k] in running ==> k !in possible
      modifies this
      ensures Valid()
      ensures forall k :: k in started <==> k in old(newJobs) && k !in failing
      ensures forall k :: k in started ==> started[k] == old(newJobs[k]) && started[k] in running
    {
      Promote(failing);
      Sweep(possible);
    }

    /**
     * One refresh cycle after its fetch (src/ical-events.ts:94-235).  A
     * missing fetch result ends the cycle with nothing changed and nothing
     * sent.  Otherwise every boundary still ahead is produced and staged, the
     * staged timers are started (except those whose start throws) and the
     * live set is swept; then the live set is sent on output 3.  Afterwards
     * exactly the produced uids whose start did not throw are live, each with
     * a fresh running timer armed for the boundary staging kept, and no timer
     * that was live before still runs.
     */
    method CronCheck(data: Option<seq<CalEvent>>, now: Time, offset: int, units: string, failing: set<Uid>)
      returns (sent: Option<Message>)
      requires Valid()
      modifies this
      ensures Valid()
      ensures data.None? ==> sent == None && started == old(started) && running == old(running)
      ensures data.Some? ==>
        var bs := FetchBoundaries(data.value, now, offset, UnitOf(units));
        forall k :: k in started <==> k in Uids(bs) && k !in failing
      ensures data.Some? ==>
        var staged := StageAll(map[], old(started).Keys, FetchBoundaries(data.value, now, offset, UnitOf(units)));
        forall k :: k in started ==>
          fresh(started[k]) && started[k] in running && k in staged && started[k].boundary == staged[k]
      ensures data.Some? ==> forall k :: k in old(started) ==> old(started)[k] !in running
      ensures data.Some? ==> sent == Some(Message(None, None, started))
    {
      if data.None? {
        return None;
      }
      Plan := map[];
      var possible := StageFetched(data.value, now, offset, UnitOf(units));
      ghost var bs := FetchBoundaries(data.value, now, offset, UnitOf(units));
      StagedKeys(old(started).Keys, bs);
      forall k | k in newJobs ensures Key(newJobs[k]) == k {
        StagedChoice(old(started).Keys, bs, k);
      }
      PromoteAndSweep(failing, possible);
      sent := Some(Message(None, None, started));
    }

    /**
     * A timer elapsing (src/ical-events.ts:239-256): the one-shot job stops
     * running and its bound handler sends the payload on output 1 or 2 and the
     * live set on output 3.  The timer stays in the live set until the next
     * sweep sees that it no longer runs.
     */
    method Fire(j: Job) returns (m: Message)
      requires Valid() && j in running
      modifies this
      ensures Valid()
      ensures running == old(running) - {j} && started == old(started)
      ensures m == FireMessage(j.boundary.handler, started)
    {
      running := running - {j};
      m := FireMessage(j.boundary.handler, started);
    }

    /**
     * The `close` handler (src/ical-events.ts:26-37): every timer in the live
     * set is stopped; the live set itself is kept.  Afterwards no timer runs.
     */
    method Close()
      requires Valid()
      modifies this
      ensures Valid()
      ensures started == old(started) && running == {}
    {
      var todo := started.Keys;
      while todo != {}
        invariant todo <= started.Keys && started == old(started) && newJobs == old(newJobs)
        invariant forall k :: k in started && k !in todo ==> started[k] !in running
        invariant Valid()
        decreases todo
      {
        var key :| key in todo;
        running := running - {started[key]};
        todo := todo - {key};
      }
    }
  }
}
