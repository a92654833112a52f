/** Exactly when a sprayed session can hang on its permit pool. */
module SprayDeadlock {
  import opened Machine
  import opened SprayPermits

  // ---------------------------------------------------------------------
  // Building runs
  // ---------------------------------------------------------------------

  lemma {:induction false} ApplyKeepsLength(cfg: Config, s: State, step: Step)
    requires |s.phase| == |cfg.frames| && Apply(cfg, s, step).Some?
    ensures |Apply(cfg, s, step).value.phase| == |cfg.frames|
  {
  }

  lemma {:induction false} RunConcat(cfg: Config, s: State, a: seq<Step>, t: State, b: seq<Step>)
    requires |s.phase| == |t.phase| == |cfg.frames| && Run(cfg, s, a) == Some(t)
    ensures Run(cfg, s, a + b) == Run(cfg, t, b)
    decreases |a|
  {
    hide Apply;
    if a == [] {
      assert a + b == b;
    } else {
      ApplyKeepsLength(cfg, s, a[0]);
      RunConcat(cfg, Apply(cfg, s, a[0]).value, a[1..], t, b);
      assert (a + b)[1..] == a[1..] + b;
    }
  }

  lemma {:induction false} RunCons(cfg: Config, s: State, step: Step, t: State, rest: seq<Step>)
    requires |s.phase| == |cfg.frames| && Apply(cfg, s, step) == Some(t)
    ensures |t.phase| == |cfg.frames| && Run(cfg, s, [step] + rest) == Run(cfg, t, rest)
  {
    ApplyKeepsLength(cfg, s, step);
    hide Apply;
    assert ([step] + rest)[1..] == rest;
  }

  /** One more step at the end of a run. */
  lemma {:induction false} RunSnoc(cfg: Config, s: State, steps: seq<Step>, t: State, step: Step, u: State)
    requires |s.phase| == |t.phase| == |cfg.frames|
    requires Run(cfg, s, steps) == Some(t) && Apply(cfg, t, step) == Some(u)
    ensures |u.phase| == |cfg.frames| && Run(cfg, s, steps + [step]) == Some(u)
  {
    hide Apply;
    RunConcat(cfg, s, steps, t, [step]);
    RunCons(cfg, t, step, u, []);
    assert [step] + [] == [step];
  }

  /** One frame from its connection into the stash, nothing else moving. */
  function Delivered(cfg: Config, s: State, i: nat): State
    requires |s.phase| == |cfg.frames| && i < |s.phase|
  {
    var t := s.(phase := s.phase[i := Stashed]);
    if TakesPermit(cfg.frames[i]) && s.available > 0 then t.(available := s.available - 1, inUse := s.inUse + 1)
    else t
  }

  lemma {:induction false} Deliver(cfg: Config, s: State, i: nat) returns (steps: seq<Step>)
    requires |s.phase| == |cfg.frames| && i < |s.phase| && s.phase[i].Unread? && LaneClear(cfg, s, i)
    requires s.channel == [] && !NextIsStashed(s)
    requires TakesPermit(cfg.frames[i]) ==> s.available > 0
    ensures Run(cfg, s, steps) == Some(Delivered(cfg, s, i))
  {
    hide Run;
    var t, u := s, s;
    steps := [];
    RunNothing(cfg, s);
    if TakesPermit(cfg.frames[i]) {
      t := s.(phase := s.phase[i := Parked]);
      RunSnoc(cfg, s, steps, s, Read(i), t);
      steps := steps + [Read(i)];
      u := t.(phase := t.phase[i := Reading], available := s.available - 1, inUse := s.inUse + 1);
      RunSnoc(cfg, s, steps, t, Acquire(i), u);
      steps := steps + [Acquire(i)];
    } else {
      u := s.(phase := s.phase[i := Reading]);
      RunSnoc(cfg, s, steps, s, Read(i), u);
      steps := steps + [Read(i)];
    }
    var v := u.(phase := u.phase[i := InChannel], channel := [i]);
    assert u.channel + [i] == [i];
    RunSnoc(cfg, s, steps, u, Send(i), v);
    steps := steps + [Send(i)];
    var w := v.(phase := v.phase[i := Stashed], channel := []);
    assert [i][1..] == [];
    RunSnoc(cfg, s, steps, v, Receive, w);
    steps := steps + [Receive];
    assert w.phase == s.phase[i := Stashed];
  }

  lemma {:induction false} RunNothing(cfg: Config, s: State)
    requires |s.phase| == |cfg.frames|
    ensures Run(cfg, s, []) == Some(s)
  {
  }

  // ---------------------------------------------------------------------
  // A session up to frame n, one layer at a time
  // ---------------------------------------------------------------------

  /** The first `n` frames are done and nothing else has started. */
  function Settled(cfg: Config, n: nat): (s: State)
    ensures |s.phase| == |cfg.frames|
  {
    State(seq(|cfg.frames|, i => if i < n then Done else Unread), [], n, cfg.capacity, 0)
  }

  lemma {:induction false} SettleSingle(cfg: Config, n: nat) returns (steps: seq<Step>)
    requires WellFormed(cfg) && n < |cfg.frames| && cfg.frames[n].kind.Single?
    ensures Run(cfg, Settled(cfg, n), steps) == Some(Settled(cfg, n + 1))
  {
    hide Run;
    var s := Settled(cfg, n);
    steps := Deliver(cfg, s, n);
    var t := Delivered(cfg, s, n);
    var u := t.(phase := t.phase[n := AtSink], next := n + 1);
    RunSnoc(cfg, s, steps, t, Pop, u);
    steps := steps + [Pop];
    var v := Settled(cfg, n + 1);
    assert v.phase == u.phase[n := Done];
    RunSnoc(cfg, s, steps, u, Release(n), v);
    steps := steps + [Release(n)];
  }

  lemma {:induction false} SettlePair(cfg: Config, n: nat) returns (steps: seq<Step>)
    requires WellFormed(cfg) && n + 1 < |cfg.frames| && cfg.frames[n].kind.Key? && cfg.frames[n + 1].kind.Value?
    ensures Run(cfg, Settled(cfg, n), steps) == Some(Settled(cfg, n + 2))
  {
    hide Run;
    var s := Settled(cfg, n);
    steps := Deliver(cfg, s, n);
    var t := Delivered(cfg, s, n);
    var u := t.(phase := t.phase[n := Pending], next := n + 1);
    RunSnoc(cfg, s, steps, t, Pop, u);
    steps := steps + [Pop];
    var more := Deliver(cfg, u, n + 1);
    var v := Delivered(cfg, u, n + 1);
    RunConcat(cfg, s, steps, u, more);
    steps := steps + more;
    var w := v.(phase := v.phase[n + 1 := Done][n := AtSink], next := n + 2);
    RunSnoc(cfg, s, steps, v, Pop, w);
    steps := steps + [Pop];
    var x := Settled(cfg, n + 2);
    assert x.phase == w.phase[n := Done];
    RunSnoc(cfg, s, steps, w, Release(n), x);
    steps := steps + [Release(n)];
  }

  lemma {:induction false} Settle(cfg: Config, n: nat) returns (steps: seq<Step>)
    requires WellFormed(cfg) && n <= |cfg.frames| && (n < |cfg.frames| ==> TakesPermit(cfg.frames[n]))
    ensures Run(cfg, Start(cfg), steps) == Some(Settled(cfg, n))
    decreases n
  {
    hide Run;
    if n == 0 {
      steps := [];
      assert Settled(cfg, 0) == Start(cfg);
      RunNothing(cfg, Start(cfg));
    } else {
      assert PairedAt(cfg.frames, n - 1);
      if cfg.frames[n - 1].kind.Single? {
        steps := Settle(cfg, n - 1);
        var more := SettleSingle(cfg, n - 1);
        RunConcat(cfg, Start(cfg), steps, Settled(cfg, n - 1), more);
        steps := steps + more;
      } else {
        assert PairedAt(cfg.frames, n - 2);
        steps := Settle(cfg, n - 2);
        var more := SettlePair(cfg, n - 2);
        RunConcat(cfg, Start(cfg), steps, Settled(cfg, n - 2), more);
        steps := steps + more;
      }
    }
  }

  // ---------------------------------------------------------------------
  // Rivals empty the pool
  // ---------------------------------------------------------------------

  /** Frame `n` has not started; every other connection was read up to `m`. */
  function Overtaken(cfg: Config, n: nat, m: nat): (s: State)
    requires n < |cfg.frames| && Count(m, Rivals(cfg, n)) <= cfg.capacity
    ensures |s.phase| == |cfg.frames|
  {
    State(seq(|cfg.frames|, i requires 0 <= i < |cfg.frames| =>
                if i < n then Done
                else if n < i < m && cfg.frames[i].lane != cfg.frames[n].lane then Stashed
                else Unread),
          [], n, cfg.capacity - Count(m, Rivals(cfg, n)), Count(m, Rivals(cfg, n)))
  }

  lemma {:induction false} Overtake(cfg: Config, n: nat, m: nat) returns (steps: seq<Step>)
    requires WellFormed(cfg) && n < m <= |cfg.frames| && TakesPermit(cfg.frames[n])
    requires Count(m, Rivals(cfg, n)) <= cfg.capacity
    ensures Run(cfg, Start(cfg), steps) == Some(Overtaken(cfg, n, m))
    decreases m
  {
    hide Run, Count;
    if m == n + 1 {
      steps := Settle(cfg, n);
      CountNone(m, Rivals(cfg, n));
      assert Settled(cfg, n) == Overtaken(cfg, n, m);
    } else {
      CountStep(m - 1, Rivals(cfg, n));
      steps := Overtake(cfg, n, m - 1);
      var s := Overtaken(cfg, n, m - 1);
      if cfg.frames[m - 1].lane == cfg.frames[n].lane {
        assert s == Overtaken(cfg, n, m);
      } else {
        var more := Deliver(cfg, s, m - 1);
        assert Delivered(cfg, s, m - 1) == Overtaken(cfg, n, m);
        RunConcat(cfg, Start(cfg), steps, s, more);
        steps := steps + more;
      }
    }
  }

  lemma {:induction false} CountStep(n: nat, p: nat -> bool)
    ensures Count(n + 1, p) == Count(n, p) + if p(n) then 1 else 0
  {
  }

  /** Where the pool has just run dry. */
  lemma {:induction false} LastPermit(cfg: Config, n: nat, top: nat) returns (m: nat)
    requires 1 <= cfg.capacity <= Count(top, Rivals(cfg, n)) && n < top
    ensures n < m <= top && Count(m, Rivals(cfg, n)) == cfg.capacity
    decreases top
  {
    hide Count;
    if Count(top, Rivals(cfg, n)) == cfg.capacity {
      m := top;
    } else {
      CountStep(top - 1, Rivals(cfg, n));
      if top == n + 1 {
        CountNone(top, Rivals(cfg, n));
      }
      m := LastPermit(cfg, n, top - 1);
    }
  }

  // ---------------------------------------------------------------------
  // From an empty pool to a hung session
  // ---------------------------------------------------------------------

  /** The pool is empty, the sink holds nothing, and `n` has no permit. */
  predicate Blocked(cfg: Config, s: State, n: nat) {
    && Inv(cfg, s) && s.next == n < |cfg.frames| && TakesPermit(cfg.frames[n]) && s.available == 0
    && (s.phase[n].Unread? || s.phase[n].Parked?)
    && forall i :: 0 <= i < n ==> s.phase[i].Done?
  }

  lemma {:induction false} BlockedStays(cfg: Config, s: State, n: nat, step: Step)
    requires WellFormed(cfg) && Blocked(cfg, s, n) && Apply(cfg, s, step).Some?
    ensures Blocked(cfg, Apply(cfg, s, step).value, n)
  {
    StepKeepsInv(cfg, s, step);
    hide LanesOk, Held;
    assert forall i :: n < i < |s.phase| ==> PhaseOk(cfg.frames[i], n, i, s.phase[i]);
  }

  /** From here the session runs on into a hang. */
  lemma {:induction false} BlockedHangs(cfg: Config, s: State, n: nat) returns (steps: seq<Step>, t: State)
    requires WellFormed(cfg) && Blocked(cfg, s, n)
    ensures |s.phase| == |t.phase| == |cfg.frames|
    ensures Run(cfg, s, steps) == Some(t) && Stuck(cfg, t)
    decreases 7 * |cfg.frames| - Work(s.phase)
  {
    hide Apply, Held, LanesOk, ChannelOk, Run;
    if Stuck(cfg, s) {
      steps, t := [], s;
      RunNothing(cfg, s);
    } else {
      var step :| Apply(cfg, s, step).Some?;
      var u := Apply(cfg, s, step).value;
      BlockedStays(cfg, s, n, step);
      StepWorks(cfg, s, step);
      steps, t := BlockedHangs(cfg, u, n);
      RunCons(cfg, s, step, u, steps);
      steps := [step] + steps;
    }
  }

  lemma {:induction false} OvertakenIsBlocked(cfg: Config, n: nat, m: nat)
    requires WellFormed(cfg) && n < m <= |cfg.frames| && TakesPermit(cfg.frames[n])
    requires Count(m, Rivals(cfg, n)) == cfg.capacity && Inv(cfg, Overtaken(cfg, n, m))
    ensures Blocked(cfg, Overtaken(cfg, n, m), n)
  {
    hide Count, Inv;
  }

  lemma {:induction false} StarvedHangs(cfg: Config, n: nat) returns (s: State)
    requires WellFormed(cfg) && Starves(cfg, n)
    ensures Reachable(cfg, s) && |s.phase| == |cfg.frames| && Stuck(cfg, s)
  {
    hide Run, Count, Inv, Stuck;
    var m := LastPermit(cfg, n, |cfg.frames|);
    var steps := Overtake(cfg, n, m);
    StartKeepsInv(cfg);
    RunKeepsInv(cfg, Start(cfg), steps);
    OvertakenIsBlocked(cfg, n, m);
    var more, t := BlockedHangs(cfg, Overtaken(cfg, n, m), n);
    RunConcat(cfg, Start(cfg), steps, Overtaken(cfg, n, m), more);
    s := t;
  }

  // ---------------------------------------------------------------------
  // The exact condition
  // ---------------------------------------------------------------------

  ghost predicate CanHang(cfg: Config) {
    exists s: State :: Reachable(cfg, s) && |s.phase| == |cfg.frames| && Stuck(cfg, s)
  }

  /** A sprayed session can hang exactly when some permit-taking frame has, on
      the other connections, at least as many later permit takers as the pool
      has permits. */
  lemma {:induction false} HangsExactlyWhenStarved(cfg: Config)
    requires WellFormed(cfg)
    ensures CanHang(cfg) <==> exists n: nat :: Starves(cfg, n)
  {
    hide Starves, Stuck, Reachable;
    if CanHang(cfg) {
      var s: State :| Reachable(cfg, s) && |s.phase| == |cfg.frames| && Stuck(cfg, s);
      PermitsAreConserved(cfg, s);
      StuckStarves(cfg, s);
    }
    if exists n: nat :: Starves(cfg, n) {
      var n: nat :| Starves(cfg, n);
      var s := StarvedHangs(cfg, n);
    }
  }

  /** Otherwise every run can be continued until all frames are in, and no run
      is longer than seven steps a frame. */
  lemma {:induction false} UnstarvedCompletes(cfg: Config, steps: seq<Step>)
    requires WellFormed(cfg) && !(exists n: nat :: Starves(cfg, n))
    requires Run(cfg, Start(cfg), steps).Some?
    ensures |steps| <= 7 * |cfg.frames|
    ensures var s := Run(cfg, Start(cfg), steps).value;
            |s.phase| == |cfg.frames| &&
            (s.next == |cfg.frames| || exists step :: Apply(cfg, s, step).Some?)
  {
    hide Starves, Run, Apply, Inv;
    var s := Run(cfg, Start(cfg), steps).value;
    StartKeepsInv(cfg);
    RunWorks(cfg, Start(cfg), steps);
    assert Reachable(cfg, s);
    PermitsAreConserved(cfg, s);
    NextInBounds(cfg, s);
    if Stuck(cfg, s) {
      StuckStarves(cfg, s);
    }
  }

  lemma {:induction false} NextInBounds(cfg: Config, s: State)
    requires Inv(cfg, s)
    ensures s.next <= |cfg.frames|
  {
  }

  /** All permit takers on one connection: no interleaving hangs. */
  lemma {:induction false} KeysTogetherNeverHang(cfg: Config, lane: nat)
    requires WellFormed(cfg)
    requires forall i :: 0 <= i < |cfg.frames| && TakesPermit(cfg.frames[i]) ==> cfg.frames[i].lane == lane
    ensures !CanHang(cfg)
  {
    hide CanHang, Count;
    HangsExactlyWhenStarved(cfg);
    forall n: nat ensures !Starves(cfg, n) {
      if n < |cfg.frames| && TakesPermit(cfg.frames[n]) {
        CountNone(|cfg.frames|, Rivals(cfg, n));
      }
    }
  }

  lemma {:induction false} CountTwo(n: nat, p: nat -> bool, i: nat, j: nat)
    requires i < j < n && p(i) && p(j)
    ensures Count(n, p) >= 2
    decreases n
  {
    if j < n - 1 {
      CountTwo(n - 1, p, i, j);
    } else {
      CountOne(j, p, i);
    }
  }

  lemma {:induction false} CountOne(n: nat, p: nat -> bool, i: nat)
    requires i < n && p(i)
    ensures Count(n, p) >= 1
    decreases n
  {
    if i >= n - 1 {
    } else {
      CountOne(n - 1, p, i);
    }
  }

  /** Layers dealt out to two connections in turn. */
  function Alternating(layers: nat): Config {
    Config(seq(2 * layers, i => Frame(if i % 2 == 0 then Key else Value, (i / 2) % 2)), 2)
  }

  /** With the shipped pool of two, four alternating layers already can hang. */
  lemma {:induction false} AlternatingCanHang(layers: nat)
    requires layers >= 4
    ensures WellFormed(Alternating(layers)) && CanHang(Alternating(layers))
  {
    hide CanHang, Count;
    var cfg := Alternating(layers);
    CountTwo(|cfg.frames|, Rivals(cfg, 0), 2, 6);
    assert Starves(cfg, 0);
    HangsExactlyWhenStarved(cfg);
  }
}
