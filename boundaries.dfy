/**
 * The pure part of one refresh cycle of `cronCheckJob`
 * (src/ical-events.ts:104-198): which boundaries (an event's start, and
 * separately its end) a fetched calendar yields, what each boundary's timer
 * fires at and carries, and which timer the staging step keeps for each uid.
 *
 * The source applies the offset by editing the event's `Date` in place, after
 * the start payload was built around that same `Date` and before the end
 * payload reads it.  The functions here spell out the values that each
 * payload ends up holding because of that.
 */
module Boundaries {
  import opened Offset

  type Uid = string

  /** One fetched calendar event (times in seconds). */
  datatype CalEvent = CalEvent(
    id: string, summary: string, location: string, description: string,
    calendarName: string, eventStart: Time, eventEnd: Time)

  /**
   * The record a fired boundary sends downstream.  The source stores
   * `countdown(t)` for some instant t; the countdown library is foreign, so
   * the payload records t itself in `countdownTo`.
   */
  datatype Payload = Payload(
    summary: string, topic: string, id: Uid, location: string,
    eventStart: Time, eventEnd: Time, description: string,
    calendarName: string, countdownTo: Time)

  /** The callback a timer is bound to: `cronJobStart` or `cronJobEnd` with its payload. */
  datatype Handler = OnStart(event: Payload) | OnEnd(event: Payload)

  /** A desired timer: its uid, the time it fires at and what it does then. */
  datatype Boundary = Boundary(uid: Uid, target: Time, handler: Handler)

  function StartUid(ev: CalEvent): Uid { ev.id + "start" }
  function EndUid(ev: CalEvent): Uid { ev.id + "end" }

  /** The event once the start branch has run: its start is shifted when it lies in the future. */
  function AfterStart(ev: CalEvent, now: Time, offset: int, unit: OffsetUnit): CalEvent
  {
    if ev.eventStart > now then ev.(eventStart := Shift(ev.eventStart, offset, unit)) else ev
  }

  /** The event once the end branch has run: its end is shifted when it lies in the future. */
  function AfterEnd(ev: CalEvent, now: Time, offset: int, unit: OffsetUnit): CalEvent
  {
    if ev.eventEnd > now then ev.(eventEnd := Shift(ev.eventEnd, offset, unit)) else ev
  }

  /** The event once both branches have run: how the cycle leaves the fetched object. */
  function ShiftEvent(ev: CalEvent, now: Time, offset: int, unit: OffsetUnit): CalEvent
  {
    AfterEnd(AfterStart(ev, now, offset, unit), now, offset, unit)
  }

  /**
   * The start boundary of `ev` (src/ical-events.ts:109-137).  Its payload's
   * `eventStart` is the very `Date` that is shifted afterwards, so it holds
   * the shifted time; its `eventEnd` is a copy taken before any shift, and
   * its countdown was taken before the shift.
   */
  function StartBoundary(ev: CalEvent, offset: int, unit: OffsetUnit): Boundary
  {
    var uid := StartUid(ev);
    var shifted := Shift(ev.eventStart, offset, unit);
    Boundary(uid, shifted, OnStart(Payload(
      ev.summary, ev.summary, uid, ev.location, shifted, ev.eventEnd,
      ev.description, ev.calendarName, ev.eventStart)))
  }

  /**
   * The end boundary of `ev`, read when the start branch has already run
   * (src/ical-events.ts:153-179): its `eventStart` and countdown see the
   * start as it stands then; its `eventEnd` is the `Date` that is shifted.
   */
  function EndBoundary(ev: CalEvent, offset: int, unit: OffsetUnit): Boundary
  {
    var uid := EndUid(ev);
    var shifted := Shift(ev.eventEnd, offset, unit);
    Boundary(uid, shifted, OnEnd(Payload(
      ev.summary, ev.summary, uid, ev.location, ev.eventStart, shifted,
      ev.description, ev.calendarName, ev.eventStart)))
  }

  /** The start boundary of `ev`, if its start lies ahead. */
  function StartPart(ev: CalEvent, now: Time, offset: int, unit: OffsetUnit): seq<Boundary>
  {
    if ev.eventStart > now then [StartBoundary(ev, offset, unit)] else []
  }

  /** The end boundary of `ev` (as the start branch left it), if its end lies ahead. */
  function EndPart(ev: CalEvent, now: Time, offset: int, unit: OffsetUnit): seq<Boundary>
  {
    if ev.eventEnd > now then [EndBoundary(ev, offset, unit)] else []
  }

  /** The boundaries one event contributes, in the order the source handles them. */
  function EventBoundaries(ev: CalEvent, now: Time, offset: int, unit: OffsetUnit): seq<Boundary>
  {
    StartPart(ev, now, offset, unit) + EndPart(AfterStart(ev, now, offset, unit), now, offset, unit)
  }

  /** The boundaries a whole fetch yields, in processing order. */
  function FetchBoundaries(data: seq<CalEvent>, now: Time, offset: int, unit: OffsetUnit): seq<Boundary>
  {
    if data == [] then []
    else FetchBoundaries(data[..|data| - 1], now, offset, unit) + EventBoundaries(data[|data| - 1], now, offset, unit)
  }

  /** `possibleUids`: the uid of every boundary, in order, repeats included. */
  function Uids(bs: seq<Boundary>): (us: seq<Uid>)
    ensures |us| == |bs|
  {
    seq(|bs|, i requires 0 <= i < |bs| => bs[i].uid)
  }

  /** One more event appends its boundaries. */
  lemma BoundariesSnoc(data: seq<CalEvent>, i: int, now: Time, offset: int, unit: OffsetUnit)
    requires 0 <= i < |data|
    ensures FetchBoundaries(data[..i + 1], now, offset, unit)
      == FetchBoundaries(data[..i], now, offset, unit) + EventBoundaries(data[i], now, offset, unit)
  {
    assert data[..i + 1][..i] == data[..i];
  }

  lemma UidsAppend(bs: seq<Boundary>, more: seq<Boundary>)
    ensures Uids(bs + more) == Uids(bs) + Uids(more)
  {
  }

  // ---------------------------------------------------------------------
  // What the boundaries of a fetch are
  // ---------------------------------------------------------------------

  /** Whether `ev` contributes uid `u`: its start lies ahead and `u` is its start uid, or likewise for its end. */
  predicate Produces(ev: CalEvent, now: Time, u: Uid)
  {
    (ev.eventStart > now && u == StartUid(ev)) || (ev.eventEnd > now && u == EndUid(ev))
  }

  /** The uids one event contributes: its start uid and then its end uid, each when that edge lies ahead. */
  lemma EventUids(ev: CalEvent, now: Time, offset: int, unit: OffsetUnit)
    ensures Uids(EventBoundaries(ev, now, offset, unit))
      == (if ev.eventStart > now then [StartUid(ev)] else []) + (if ev.eventEnd > now then [EndUid(ev)] else [])
  {
    assert AfterStart(ev, now, offset, unit).id == ev.id;
    UidsAppend(StartPart(ev, now, offset, unit), EndPart(AfterStart(ev, now, offset, unit), now, offset, unit));
  }

  /**
   * A uid is produced in a cycle exactly when some fetched event produces
   * it: the event's start lies in the future and the uid is that event's
   * id + "start", or likewise for its end.
   */
  lemma {:induction false} UidProduced(data: seq<CalEvent>, now: Time, offset: int, unit: OffsetUnit, u: Uid)
    ensures u in Uids(FetchBoundaries(data, now, offset, unit)) <==>
      exists i :: 0 <= i < |data| && Produces(data[i], now, u)
  {
    if data != [] {
      var init := data[..|data| - 1];
      var ev := data[|data| - 1];
      var bs0 := FetchBoundaries(init, now, offset, unit);
      var eb := EventBoundaries(ev, now, offset, unit);
      assert FetchBoundaries(data, now, offset, unit) == bs0 + eb;
      UidsAppend(bs0, eb);
      UidProduced(init, now, offset, unit, u);
      EventUids(ev, now, offset, unit);
      assert u in Uids(eb) <==> Produces(ev, now, u);
      if u in Uids(bs0) {
        var i :| 0 <= i < |init| && Produces(init[i], now, u);
        assert data[i] == init[i];
      }
      if exists i :: 0 <= i < |data| && Produces(data[i], now, u) {
        var i :| 0 <= i < |data| && Produces(data[i], now, u);
        if i < |init| {
          assert init[i] == data[i];
        }
      }
    }
  }

  /**
   * A start that has passed while its shifted fire time still lies ahead:
   * this happens only with a positive offset, and a refresh at such a time
   * no longer produces the start uid, so the sweep stops the pending start
   * timer before it fires.
   */
  lemma PendingStartNotProduced(ev: CalEvent, now: Time, offset: int, unit: OffsetUnit)
    requires ev.eventStart <= now < Shift(ev.eventStart, offset, unit)
    ensures offset > 0
    ensures StartUid(ev) !in Uids(FetchBoundaries([ev], now, offset, unit))
  {
    ShiftAdds(ev.eventStart, offset, unit);
    UidProduced([ev], now, offset, unit, StartUid(ev));
    assert |StartUid(ev)| != |EndUid(ev)|;
  }

  /** Every boundary is keyed by the id its payload carries. */
  lemma {:induction false} BoundariesKeyed(data: seq<CalEvent>, now: Time, offset: int, unit: OffsetUnit)
    ensures forall b :: b in FetchBoundaries(data, now, offset, unit) ==> b.handler.event.id == b.uid
  {
    if data != [] {
      BoundariesKeyed(data[..|data| - 1], now, offset, unit);
    }
  }

  /**
   * The start boundary of an event whose start lies ahead fires at the
   * shifted start; its payload shows the shifted start, the unshifted end,
   * and a countdown to the unshifted start.
   */
  lemma StartBoundaryShape(ev: CalEvent, now: Time, offset: int, unit: OffsetUnit)
    requires ev.eventStart > now
    ensures var b := EventBoundaries(ev, now, offset, unit)[0];
      && b.uid == StartUid(ev) && b.handler.OnStart?
      && b.target == ev.eventStart + offset * UnitSeconds(unit)
      && b.handler.event.eventStart == b.target
      && b.handler.event.eventEnd == ev.eventEnd
      && b.handler.event.countdownTo == ev.eventStart
  {
    ShiftAdds(ev.eventStart, offset, unit);
  }

  /**
   * The end boundary of an event whose end lies ahead fires at the shifted
   * end; its payload's start, and the countdown, are shifted exactly when the
   * start lay ahead too.
   */
  lemma EndBoundaryShape(ev: CalEvent, now: Time, offset: int, unit: OffsetUnit)
    requires ev.eventEnd > now
    ensures var bs := EventBoundaries(ev, now, offset, unit);
      var b := bs[|bs| - 1];
      var start := if ev.eventStart > now then ev.eventStart + offset * UnitSeconds(unit) else ev.eventStart;
      && b.uid == EndUid(ev) && b.handler.OnEnd?
      && b.target == ev.eventEnd + offset * UnitSeconds(unit)
      && b.handler.event.eventEnd == b.target
      && b.handler.event.eventStart == start
      && b.handler.event.countdownTo == start
  {
    ShiftAdds(ev.eventStart, offset, unit);
    ShiftAdds(ev.eventEnd, offset, unit);
  }

  /** An event yields one boundary per edge that still lies ahead, and no others. */
  lemma EventBoundaryCount(ev: CalEvent, now: Time, offset: int, unit: OffsetUnit)
    ensures |EventBoundaries(ev, now, offset, unit)| ==
      (if ev.eventStart > now then 1 else 0) + (if ev.eventEnd > now then 1 else 0)
  {
  }

  // ---------------------------------------------------------------------
  // Staging (src/ical-events.ts:139-149 and 181-194)
  // ---------------------------------------------------------------------

  /**
   * One staging decision: a uid neither staged nor live is staged; a live
   * uid is (re)staged with the new boundary, replacing any staged one; a uid
   * already staged but not live is left alone.
   */
  function Stage(staged: map<Uid, Boundary>, live: set<Uid>, b: Boundary): map<Uid, Boundary>
  {
    if b.uid !in staged && b.uid !in live then staged[b.uid := b]
    else if b.uid in live then staged[b.uid := b]
    else staged
  }

  /**
   * A staging decision touches only the boundary's own uid, which is staged
   * afterwards: with this boundary when the uid is live or was not staged,
   * and unchanged otherwise.
   */
  lemma StageDecision(staged: map<Uid, Boundary>, live: set<Uid>, b: Boundary)
    ensures Stage(staged, live, b).Keys == staged.Keys + {b.uid}
    ensures forall k :: k in staged && k != b.uid ==> Stage(staged, live, b)[k] == staged[k]
    ensures b.uid in live || b.uid !in staged ==> Stage(staged, live, b)[b.uid] == b
    ensures b.uid !in live && b.uid in staged ==> Stage(staged, live, b) == staged
  {
  }

  /** Staging every boundary of a cycle in order. */
  function StageAll(staged: map<Uid, Boundary>, live: set<Uid>, bs: seq<Boundary>): map<Uid, Boundary>
  {
    if bs == [] then staged
    else Stage(StageAll(staged, live, bs[..|bs| - 1]), live, bs[|bs| - 1])
  }

  /** Staging a longer run of boundaries continues from where the shorter run left off. */
  lemma {:induction false} StageAllAppend(staged: map<Uid, Boundary>, live: set<Uid>, bs: seq<Boundary>, more: seq<Boundary>)
    ensures StageAll(staged, live, bs + more) == StageAll(StageAll(staged, live, bs), live, more)
  {
    if more == [] {
      assert bs + more == bs;
    } else {
      assert (bs + more)[..|bs + more| - 1] == bs + more[..|more| - 1];
      StageAllAppend(staged, live, bs, more[..|more| - 1]);
    }
  }

  /** Staging from nothing stages exactly the uids the cycle produced. */
  lemma {:induction false} StagedKeys(live: set<Uid>, bs: seq<Boundary>)
    ensures forall u :: u in StageAll(map[], live, bs) <==> u in Uids(bs)
  {
    if bs != [] {
      StagedKeys(live, bs[..|bs| - 1]);
      assert Uids(bs) == Uids(bs[..|bs| - 1]) + [bs[|bs| - 1].uid];
    }
  }

  /**
   * `bs[i]` is the boundary staging keeps for `u`: the last one with that uid
   * when `u` was live, the first one when it was not.
   */
  predicate KeptAt(bs: seq<Boundary>, live: set<Uid>, u: Uid, i: int)
  {
    && 0 <= i < |bs| && bs[i].uid == u
    && (u in live ==> forall j :: i < j < |bs| ==> bs[j].uid != u)
    && (u !in live ==> forall j :: 0 <= j < i ==> bs[j].uid != u)
  }

  /**
   * For a uid that was live the cycle stages the LAST boundary with that
   * uid; for a new uid, the FIRST one.
   */
  lemma {:induction false} StagedChoice(live: set<Uid>, bs: seq<Boundary>, u: Uid)
    requires u in StageAll(map[], live, bs)
    ensures exists i :: KeptAt(bs, live, u, i) && bs[i] == StageAll(map[], live, bs)[u]
  {
    var init := bs[..|bs| - 1];
    var b := bs[|bs| - 1];
    var s0 := StageAll(map[], live, init);
    var s := StageAll(map[], live, bs);
    if u == b.uid && (u in live || u !in s0) {
      var i := |bs| - 1;
      if u !in live {
        StagedKeys(live, init);
        forall j | 0 <= j < i ensures bs[j].uid != u {
          assert bs[j] == init[j];
          assert Uids(init)[j] == init[j].uid;
        }
      }
      assert KeptAt(bs, live, u, i);
    } else {
      assert s[u] == s0[u];
      StagedChoice(live, init, u);
      var i :| KeptAt(init, live, u, i) && init[i] == s0[u];
      assert bs[i] == init[i];
      if u in live {
        assert u != b.uid;
      }
      assert KeptAt(bs, live, u, i);
    }
  }

  /** All uids in `bs` differ. */
  predicate DistinctUids(bs: seq<Boundary>)
  {
    forall i, j :: 0 <= i < j < |bs| ==> bs[i].uid != bs[j].uid
  }

  /**
   * When no uid repeats within a fetch, what is staged does not depend on
   * which uids were live: re-observing the same boundaries stages the same
   * timers, each at its own boundary.
   */
  lemma StagingIgnoresLive(live1: set<Uid>, live2: set<Uid>, bs: seq<Boundary>)
    requires DistinctUids(bs)
    ensures StageAll(map[], live1, bs) == StageAll(map[], live2, bs)
    ensures forall i :: 0 <= i < |bs| ==>
      bs[i].uid in StageAll(map[], live1, bs) && StageAll(map[], live1, bs)[bs[i].uid] == bs[i]
  {
    var s1 := StageAll(map[], live1, bs);
    var s2 := StageAll(map[], live2, bs);
    StagedKeys(live1, bs);
    StagedKeys(live2, bs);
    forall i | 0 <= i < |bs| ensures bs[i].uid in s1 && s1[bs[i].uid] == bs[i] && s2[bs[i].uid] == bs[i] {
      assert Uids(bs)[i] == bs[i].uid;
      var u := bs[i].uid;
      StagedChoice(live1, bs, u);
      StagedChoice(live2, bs, u);
      var i1 :| KeptAt(bs, live1, u, i1) && bs[i1] == s1[u];
      var i2 :| KeptAt(bs, live2, u, i2) && bs[i2] == s2[u];
      assert i1 == i && i2 == i;
    }
    forall u | u in s1 ensures u in s2 && s1[u] == s2[u] {
      var k :| 0 <= k < |bs| && Uids(bs)[k] == u;
    }
    assert s1.Keys == s2.Keys;
  }

  /**
   * When a uid does repeat within a fetch, the staged timer depends on
   * whether the uid was live: the first boundary wins for a new uid, the last
   * one for a live uid, so re-observing the same fetch moves the timer.
   */
  lemma RepeatedUidDependsOnLive(h: Handler)
    ensures var bs := [Boundary("astart", 10, h), Boundary("astart", 20, h)];
      && StageAll(map[], {}, bs)["astart"].target == 10
      && StageAll(map[], {"astart"}, bs)["astart"].target == 20
  {
    var bs := [Boundary("astart", 10, h), Boundary("astart", 20, h)];
    assert bs[..1] == [bs[0]];
    assert bs[..1][..0] == [];
    assert StageAll(map[], {}, bs[..1]) == map["astart" := bs[0]];
    assert StageAll(map[], {"astart"}, bs[..1]) == map["astart" := bs[0]];
  }
}
