/** The timer queue and the scripted timelines of the newer app: the shoot
    sequence, the external-URL sequence and the 60-tick revive glow, with
    what the state is at each moment after they start, and what the timers
    still do after the panel that started them has been closed. */
module WebAppTimelines {
  import opened Common
  import opened Narration
  import opened FocusPose
  import opened WebAppSpec
  import opened WebAppLaws

  // ----- the timer queue -----

  /** Inserting into a sorted queue keeps it sorted. */
  lemma {:induction false} InsertSorted(sorted: seq<Step>, x: Step)
    requires SortedByDelay(sorted)
    ensures SortedByDelay(Insert(sorted, x))
    decreases |sorted|
  {
    if |sorted| > 0 && x.delay >= sorted[0].delay {
      var tail := sorted[1..];
      InsertSorted(tail, x);
      InsertAbove(tail, x, sorted[0].delay);
    }
  }

  /** Inserting keeps a lower bound that the queue and `x` both respect. */
  lemma {:induction false} InsertAbove(sorted: seq<Step>, x: Step, lo: nat)
    requires forall i :: 0 <= i < |sorted| ==> lo <= sorted[i].delay
    requires lo <= x.delay
    ensures forall i :: 0 <= i < |Insert(sorted, x)| ==> lo <= Insert(sorted, x)[i].delay
    decreases |sorted|
  {
    if |sorted| > 0 && x.delay >= sorted[0].delay {
      InsertAbove(sorted[1..], x, lo);
    }
  }

  /** Inserting adds exactly `x` to the queue. */
  lemma {:induction false} InsertAdds(sorted: seq<Step>, x: Step)
    ensures multiset(Insert(sorted, x)) == multiset(sorted) + multiset{x}
    decreases |sorted|
  {
    if |sorted| > 0 && x.delay >= sorted[0].delay {
      InsertAdds(sorted[1..], x);
      assert sorted == [sorted[0]] + sorted[1..];
    }
  }

  /** A step that fires no earlier than everything queued goes last. */
  lemma {:induction false} InsertAtEnd(sorted: seq<Step>, x: Step)
    requires forall i :: 0 <= i < |sorted| ==> sorted[i].delay <= x.delay
    ensures Insert(sorted, x) == sorted + [x]
    decreases |sorted|
  {
    if |sorted| > 0 {
      InsertAtEnd(sorted[1..], x);
      assert sorted == [sorted[0]] + sorted[1..];
    }
  }

  /** The queue fires every started timer once, earliest delay first. */
  lemma {:induction false} ByDelaySortedPermutation(ts: seq<Step>)
    ensures SortedByDelay(ByDelay(ts))
    ensures multiset(ByDelay(ts)) == multiset(ts)
    decreases |ts|
  {
    if |ts| > 0 {
      var init := ts[..|ts| - 1];
      ByDelaySortedPermutation(init);
      InsertSorted(ByDelay(init), ts[|ts| - 1]);
      InsertAdds(ByDelay(init), ts[|ts| - 1]);
      assert ts == init + [ts[|ts| - 1]];
    }
  }

  /** Timers started in firing order fire in the order they were started. */
  lemma {:induction false} ByDelayOfSorted(ts: seq<Step>)
    requires SortedByDelay(ts)
    ensures ByDelay(ts) == ts
    decreases |ts|
  {
    if |ts| > 0 {
      var init := ts[..|ts| - 1];
      assert SortedByDelay(init);
      ByDelayOfSorted(init);
      InsertAtEnd(init, ts[|ts| - 1]);
      assert ts == init + [ts[|ts| - 1]];
    }
  }

  /** In a sorted queue the steps due by `t` are its first `n` steps when
      exactly those fire no later than `t`. */
  lemma {:induction false} DueByPrefix(ts: seq<Step>, t: nat, n: nat)
    requires n <= |ts|
    requires forall i :: 0 <= i < n ==> ts[i].delay <= t
    requires forall i :: n <= i < |ts| ==> ts[i].delay > t
    ensures DueBy(ts, t) == ts[..n]
    decreases |ts|
  {
    if |ts| > 0 {
      if n > 0 {
        DueByPrefix(ts[1..], t, n - 1);
        assert ts[..n] == [ts[0]] + ts[1..][..n - 1];
      } else {
        DueByPrefix(ts[1..], t, 0);
      }
    }
  }

  /** Firing a list and then one more step is firing that step where the
      list left off, its timers after the list's. */
  lemma {:induction false} RunThenStep(s: AppState, a: seq<Step>, x: Step)
    ensures var r := Run(s, a); var f := Fire(r.state, x.action);
      Run(s, a + [x]) == Outcome(f.state, r.timers + f.timers)
    decreases |a|
  {
    if |a| > 0 {
      var o := Fire(s, a[0].action);
      assert (a + [x])[0] == a[0];
      assert (a + [x])[1..] == a[1..] + [x];
      RunThenStep(o.state, a[1..], x);
      var mid := Run(o.state, a[1..]);
      var f := Fire(mid.state, x.action);
      RunUnfold(s, a, o, mid);
      RunUnfold(s, a + [x], o, Outcome(f.state, mid.timers + f.timers));
      assert o.timers + (mid.timers + f.timers) == (o.timers + mid.timers) + f.timers;
    } else {
      RunSingle(s, a, x);
    }
  }

  lemma RunSingle(s: AppState, a: seq<Step>, x: Step)
    requires |a| == 0
    ensures var r := Run(s, a); var f := Fire(r.state, x.action);
      Run(s, a + [x]) == Outcome(f.state, r.timers + f.timers)
  {
    assert a + [x] == [x];
    assert Run(s, a) == Outcome(s, []);
    var f := Fire(s, x.action);
    RunUnfold(s, [x], f, Outcome(f.state, []));
    assert f.timers + [] == [] + f.timers;
  }

  /** One unfolding of Run, with the first firing and the rest named. */
  lemma RunUnfold(s: AppState, steps: seq<Step>, o: Outcome, rest: Outcome)
    requires |steps| > 0 && o == Fire(s, steps[0].action) && rest == Run(o.state, steps[1..])
    ensures Run(s, steps) == Outcome(rest.state, o.timers + rest.timers)
  {
  }

  // ----- shoot -----

  /** The shoot timers in firing order. */
  function ShootFiring(): seq<Step> {
    [Step(200, BloodOn), Step(500, ShotOn), Step(1300, BloodOff), Step(1500, ScopeOff)]
  }

  /** The shoot timers fire blood on, shot, blood off, scope off. */
  lemma ShootOrder()
    ensures ByDelay(ShootTimeline()) == ShootFiring()
  {
    var tl := ShootTimeline();
    var bloodOn, bloodOff, shot, scopeOff := tl[0], tl[1], tl[2], tl[3];
    assert tl[..1][..0] == [];
    assert ByDelay(tl[..1]) == [bloodOn];
    assert tl[..2][..1] == tl[..1];
    InsertAtEnd([bloodOn], bloodOff);
    assert ByDelay(tl[..2]) == [bloodOn, bloodOff];
    assert tl[..3][..2] == tl[..2];
    assert Insert([bloodOff], shot) == [shot, bloodOff];
    assert ByDelay(tl[..3]) == [bloodOn, shot, bloodOff];
    assert tl[..3] == tl[..|tl| - 1];
    InsertAtEnd([bloodOn, shot, bloodOff], scopeOff);
  }

  /** `t` ms after the shot: the blood shows exactly in [200, 1300), the
      sparrow prince is shot from 500 on and the scope is gone from 1500 on;
      nothing else changes. */
  lemma ShootAt(s: AppState, t: nat)
    ensures var r := Elapse(s, ShootTimeline(), t);
      && (t < 200 ==> r == s)
      && (200 <= t < 500 ==> r == s.(bloodEffect := true))
      && (500 <= t < 1300 ==> r == s.(bloodEffect := true, sparrowShot := true))
      && (1300 <= t < 1500 ==> r == s.(bloodEffect := false, sparrowShot := true))
      && (1500 <= t ==> r == s.(bloodEffect := false, sparrowShot := true, showScope := false))
  {
    var q := ShootFiring();
    ShootDue(s, t);
    ShootBlood(s);
    ShootHit(s);
    ShootBloodGone(s);
    ShootScopeGone(s);
    assert q[..4] == q;
  }

  /** The shoot steps due `t` ms after the shot, as a prefix of the firing
      order. */
  lemma ShootDue(s: AppState, t: nat)
    ensures var n := if t < 200 then 0 else if t < 500 then 1 else if t < 1300 then 2 else if t < 1500 then 3 else 4;
      Elapse(s, ShootTimeline(), t) == Run(s, ShootFiring()[..n]).state
  {
    ShootOrder();
    var n := if t < 200 then 0 else if t < 500 then 1 else if t < 1300 then 2 else if t < 1500 then 3 else 4;
    DueByPrefix(ShootFiring(), t, n);
  }

  lemma ShootBlood(s: AppState)
    ensures Run(s, ShootFiring()[..1]).state == s.(bloodEffect := true)
  {
    var q := ShootFiring();
    assert q[..1] == [] + [q[0]];
    RunSnoc(s, [], q[0]);
  }

  lemma ShootHit(s: AppState)
    ensures Run(s, ShootFiring()[..2]).state == s.(bloodEffect := true, sparrowShot := true)
  {
    var q := ShootFiring();
    ShootBlood(s);
    assert q[..2] == q[..1] + [Step(500, ShotOn)];
    RunSnocFrom(s, q[..1], Step(500, ShotOn), s.(bloodEffect := true));
  }

  lemma ShootBloodGone(s: AppState)
    ensures Run(s, ShootFiring()[..3]).state == s.(bloodEffect := false, sparrowShot := true)
  {
    var q := ShootFiring();
    ShootHit(s);
    var m := s.(bloodEffect := true, sparrowShot := true);
    assert q[..3] == q[..2] + [Step(1300, BloodOff)];
    RunSnocFrom(s, q[..2], Step(1300, BloodOff), m);
  }

  lemma ShootScopeGone(s: AppState)
    ensures Run(s, ShootFiring()[..4]).state == s.(bloodEffect := false, sparrowShot := true, showScope := false)
  {
    var q := ShootFiring();
    ShootBloodGone(s);
    var m := s.(bloodEffect := false, sparrowShot := true);
    assert q[..4] == q[..3] + [Step(1500, ScopeOff)];
    RunSnocFrom(s, q[..3], Step(1500, ScopeOff), m);
  }

  /** Firing a list and then one more step. */
  lemma RunSnoc(s: AppState, a: seq<Step>, x: Step)
    requires x.action != ShowScene
    ensures Run(s, a + [x]).state == Fire(Run(s, a).state, x.action).state
  {
    RunThenStep(s, a, x);
    FireStartsNothing(Run(s, a).state, x.action);
  }

  /** The same, with the state the list leaves named. */
  lemma RunSnocFrom(s: AppState, a: seq<Step>, x: Step, m: AppState)
    requires x.action != ShowScene && Run(s, a).state == m
    ensures Run(s, a + [x]).state == Fire(m, x.action).state
  {
    RunSnoc(s, a, x);
  }

  // ----- revive glow -----

  /** The glow starts at 4, ends at 0 and stays in between. */
  lemma GlowLevelRange(k: nat)
    requires k <= 60
    ensures 0.0 <= GlowLevel(k) <= 4.0
    ensures GlowLevel(0) == 4.0 && GlowLevel(60) == 0.0
  {
  }

  /** The glow never rises from one tick to a later one. */
  lemma GlowNonIncreasing(j: nat, k: nat)
    requires j <= k
    ensures GlowLevel(k) <= GlowLevel(j)
  {
  }

  /** Tick k fires at 100·k ms; reviving ends with the 60th tick at 6 s. */
  lemma GlowTimelineSorted()
    ensures SortedByDelay(GlowTimeline())
    ensures forall i :: 0 <= i < 60 ==> GlowTimeline()[i].delay == 100 * (i + 1)
    ensures GlowTimeline()[60] == Step(6000, ReviveDone)
    ensures GlowTimeline()[59] == Step(6000, Glow(0.0))
  {
  }

  /** After the first k ticks the glow is the k-th level. */
  lemma {:induction false} GlowTicks(s: AppState, k: nat)
    requires 1 <= k <= 60
    ensures Run(s, GlowTimeline()[..k]) == Outcome(s.(glow := GlowLevel(k)), [])
    decreases k
  {
    var tl := GlowTimeline();
    if k == 1 {
      assert tl[..1] == [Step(100, Glow(GlowLevel(1)))];
    } else {
      GlowTicks(s, k - 1);
      assert tl[..k] == tl[..k - 1] + [tl[k - 1]];
      RunThenStep(s, tl[..k - 1], tl[k - 1]);
    }
  }

  /** `t` ms after the revive the glow shows the level of the ticks so far;
      from 6 s on it is 0 and reviving is over. */
  lemma GlowAt(s: AppState, t: nat)
    ensures var r := Elapse(s, GlowTimeline(), t);
      && (t < 100 ==> r == s)
      && (100 <= t < 6000 ==> r == s.(glow := GlowLevel(t / 100)))
      && (6000 <= t ==> r == s.(glow := 0.0, reviving := false))
  {
    if t < 100 {
      GlowBefore(s, t);
    } else if t < 6000 {
      GlowDuring(s, t);
    } else {
      GlowAfter(s, t);
    }
  }

  lemma GlowBefore(s: AppState, t: nat)
    requires t < 100
    ensures Elapse(s, GlowTimeline(), t) == s
  {
    var tl := GlowTimeline();
    GlowTimelineSorted();
    ByDelayOfSorted(tl);
    DueByPrefix(tl, t, 0);
  }

  lemma GlowDuring(s: AppState, t: nat)
    requires 100 <= t < 6000
    ensures Elapse(s, GlowTimeline(), t) == s.(glow := GlowLevel(t / 100))
  {
    var tl := GlowTimeline();
    GlowTimelineSorted();
    ByDelayOfSorted(tl);
    var k := t / 100;
    forall i | k <= i < 61 ensures tl[i].delay > t {
      if i < 60 {
        assert tl[i].delay == 100 * (i + 1);
      }
    }
    DueByPrefix(tl, t, k);
    GlowTicks(s, k);
  }

  lemma GlowAfter(s: AppState, t: nat)
    requires 6000 <= t
    ensures Elapse(s, GlowTimeline(), t) == s.(glow := 0.0, reviving := false)
  {
    GlowAllDue(t);
    GlowRunAll(s);
    ElapseIsRun(s, GlowTimeline(), t, GlowTimeline());
  }

  lemma GlowAllDue(t: nat)
    requires 6000 <= t
    ensures DueBy(ByDelay(GlowTimeline()), t) == GlowTimeline()
  {
    var tl := GlowTimeline();
    GlowDelaysBounded();
    GlowTimelineSorted();
    ByDelayOfSorted(tl);
    DueByAll(tl, t);
  }

  lemma GlowDelaysBounded()
    ensures forall i :: 0 <= i < |GlowTimeline()| ==> GlowTimeline()[i].delay <= 6000
  {
    var tl := GlowTimeline();
    GlowTimelineSorted();
    forall i | 0 <= i < 61 ensures tl[i].delay <= 6000 {
      if i < 60 {
        assert tl[i].delay == 100 * (i + 1);
      }
    }
  }

  /** When every step is due, all of them fire. */
  lemma DueByAll(ts: seq<Step>, t: nat)
    requires forall i :: 0 <= i < |ts| ==> ts[i].delay <= t
    ensures DueBy(ts, t) == ts
  {
    DueByPrefix(ts, t, |ts|);
    assert ts[..|ts|] == ts;
  }

  lemma GlowRunAll(s: AppState)
    ensures Run(s, GlowTimeline()).state == s.(glow := 0.0, reviving := false)
  {
    var tl := GlowTimeline();
    GlowTimelineSorted();
    GlowTicks(s, 60);
    GlowLevelRange(60);
    var m := s.(glow := 0.0);
    TakeOneMore(tl, 60);
    TakeAll(tl);
    RunSnocFrom(s, tl[..60], Step(6000, ReviveDone), m);
    FireReviveDone(m);
  }

  lemma TakeAll(ts: seq<Step>)
    ensures ts[..|ts|] == ts
  {
  }

  lemma TakeOneMore(ts: seq<Step>, n: nat)
    requires n < |ts|
    ensures ts[..n + 1] == ts[..n] + [ts[n]]
  {
  }

  lemma FireReviveDone(m: AppState)
    ensures Fire(m, ReviveDone).state == m.(reviving := false, glow := 0.0)
  {
  }

  /** Elapsing is running the steps due. */
  lemma ElapseIsRun(s: AppState, ts: seq<Step>, t: nat, due: seq<Step>)
    requires DueBy(ByDelay(ts), t) == due
    ensures Elapse(s, ts, t) == Run(s, due).state
  {
  }

  // ----- external URL -----

  /** The states after the first one, two and three external-URL steps. */
  lemma ExternalFlash(s: AppState, url: string)
    ensures Run(s, ExternalTimeline(url)[..1]).state == s.(teleportFlash := true)
  {
    var tl := ExternalTimeline(url);
    assert tl[..1] == [] + [tl[0]];
    RunSnoc(s, [], tl[0]);
  }

  lemma ExternalOpen(s: AppState, url: string)
    ensures Run(s, ExternalTimeline(url)[..2]).state == s.(teleportFlash := true, openedUrls := s.openedUrls + [url])
  {
    var tl := ExternalTimeline(url);
    ExternalFlash(s, url);
    assert tl[..2] == tl[..1] + [tl[1]];
    RunSnoc(s, tl[..1], tl[1]);
  }

  lemma ExternalReset(s: AppState, url: string)
    ensures Run(s, ExternalTimeline(url)[..3]).state ==
              s.(teleportFlash := false, openedUrls := s.openedUrls + [url], camera := Tween(Overview, 0.0), maxDistance := 40.0)
  {
    var tl := ExternalTimeline(url);
    var m := s.(teleportFlash := true, openedUrls := s.openedUrls + [url]);
    ExternalOpen(s, url);
    assert tl[..3] == tl[..2] + [tl[2]];
    RunSnocFrom(s, tl[..2], tl[2], m);
    FireReset(m);
  }

  lemma FireReset(m: AppState)
    ensures Fire(m, FlashOffReset).state == m.(teleportFlash := false, camera := Tween(Overview, 0.0), maxDistance := 40.0)
  {
  }

  /** `t` ms after the camera starts climbing: the flash shows from 2 s, the
      URL is opened at 2.8 s, and at 3.3 s the flash ends and the camera is
      back at the overview with the zoom limit at 40. */
  lemma ExternalAt(s: AppState, url: string, t: nat)
    ensures var r := Elapse(s, ExternalTimeline(url), t);
      && (t < 2000 ==> r == s)
      && (2000 <= t < 2800 ==> r == s.(teleportFlash := true))
      && (2800 <= t < 3300 ==> r == s.(teleportFlash := true, openedUrls := s.openedUrls + [url]))
      && (3300 <= t ==> r == s.(teleportFlash := false, openedUrls := s.openedUrls + [url],
                                 camera := Tween(Overview, 0.0), maxDistance := 40.0))
  {
    var tl := ExternalTimeline(url);
    ByDelayOfSorted(tl);
    var n := if t < 2000 then 0 else if t < 2800 then 1 else if t < 3300 then 2 else 3;
    DueByPrefix(tl, t, n);
    ExternalFlash(s, url);
    ExternalOpen(s, url);
    ExternalReset(s, url);
    assert tl[..3] == tl;
  }

  // ----- timers outlive the panel -----

  /** Kill with the sparrow prince selected, then close within the second.
      The curtain swallows the close button, so that close can only be
      Escape, whose listener is on the window; the scope still comes up at
      1 s, over a closed panel. */
  lemma ScopeAfterClose(s: AppState, pois: seq<Poi>, tan: real -> real)
    requires s.phase == Scene && !s.showScope && !s.scopeTransition && !s.teleportFlash
    requires !s.sparrowShot && IsSelected(s, SparrowId)
    ensures var o := Handle(s, KillOrRevive, pois, tan);
      Handle(o.state, CloseInfo, pois, tan) == Outcome(o.state, [])
    ensures var o := Handle(s, KillOrRevive, pois, tan);
      var r := Elapse(Handle(o.state, KeyDown("Escape"), pois, tan).state, o.timers, 1000);
      r.showScope && r.selected.None?
  {
    var o := Handle(s, KillOrRevive, pois, tan);
    assert o == KillOrReviveOutcome(s, pois, tan);
    assert o.timers == [Step(1000, ScopeOn), Step(1500, ScopeTransitionOff)];
    var c := Handle(o.state, KeyDown("Escape"), pois, tan).state;
    assert c.selected.None?;
    ByDelayOfSorted(o.timers);
    DueByPrefix(o.timers, 1000, 1);
    assert o.timers[..1] == [Step(1000, ScopeOn)];
  }

  /** Pick a POI, then close before the focus move ends: its completion
      still narrows the zoom limit to 15 over the overview. */
  lemma FocusLimitAfterClose(s: AppState, p: Poi, tan: real -> real)
    requires s.cameraReady && !IsSelected(s, p.id)
    ensures var o := PoiClick(s, p, false, tan);
      var r := Elapse(Close(o.state).state, o.timers, 1500);
      r.maxDistance == 15.0 && r.selected.None?
  {
    var o := PoiClick(s, p, false, tan);
    FocusPickTimers(s, p, tan);
    var c := Close(o.state).state;
    ElapseOneDue(c, Step(1500, FocusDone), 1500);
    FireFocusDone(c);
  }

  lemma FocusPickTimers(s: AppState, p: Poi, tan: real -> real)
    requires s.cameraReady && !IsSelected(s, p.id)
    ensures PoiClick(s, p, false, tan).timers == [Step(1500, FocusDone)]
  {
  }

  /** A single timer that is due has fired. */
  lemma ElapseOneDue(m: AppState, x: Step, t: nat)
    requires x.delay <= t && x.action != ShowScene
    ensures Elapse(m, [x], t) == Fire(m, x.action).state
  {
    ByDelayOfSorted([x]);
    DueByPrefix([x], t, 1);
    assert [x][..1] == [x];
    RunSnocFrom(m, [], x, m);
    assert [] + [x] == [x];
  }

  lemma FireFocusDone(m: AppState)
    ensures Fire(m, FocusDone).state == m.(maxDistance := 15.0)
  {
  }

  // ----- scene lights -----

  /** A lights frame never leaves the range between the two targets. */
  lemma LightsStayInRange(current: real, dimmed: bool, delta: real)
    requires 0.3 <= current <= 1.2 && delta >= 0.0
    ensures 0.3 <= LightStep(current, dimmed, delta) <= 1.2
  {
  }

  /** With frames of a fixed length, the lights reach their target once
      2·delta·n covers the gap, and stay there. */
  lemma LightsReachTarget(current: real, dimmed: bool, delta: real, n: nat)
    requires delta > 0.0
    requires n as real * (delta * 2.0) >= Abs(LightTarget(dimmed) - current)
    ensures MoveFrames(current, LightTarget(dimmed), delta * 2.0, n) == LightTarget(dimmed)
  {
    MoveFramesReachTarget(current, LightTarget(dimmed), delta * 2.0, n);
  }
}
