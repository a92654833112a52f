/** Reader threads, the shared permit pool and the session thread of a sprayed
    session, as one step system. */
module SprayPermits {
  import opened Machine

  /** A key or a lone plane takes a permit; a value rides on its key's. */
  datatype Kind = Single | Key | Value

  datatype Frame = Frame(kind: Kind, lane: nat)

  datatype Config = Config(frames: seq<Frame>, capacity: nat)

  predicate TakesPermit(f: Frame) {
    !f.kind.Value?
  }

  /** A pool of 1 to 64 permits, and every key followed by its value. */
  predicate WellFormed(cfg: Config) {
    && 1 <= cfg.capacity <= 64
    && forall i: nat | i < |cfg.frames| :: PairedAt(cfg.frames, i)
  }

  predicate PairedAt(frames: seq<Frame>, i: nat)
    requires i < |frames|
  {
    && (frames[i].kind.Key? ==> i + 1 < |frames| && frames[i + 1].kind.Value?)
    && (frames[i].kind.Value? ==> i > 0 && frames[i - 1].kind.Key?)
  }

  /** Where a frame is: still on its connection, with its reader waiting for a
      permit, being read, in the event channel, stashed by the mux, pending as
      a key, held by the sink, or done. */
  datatype Phase = Unread | Parked | Reading | InChannel | Stashed | Pending | AtSink | Done

  datatype State = State(phase: seq<Phase>, channel: seq<nat>, next: nat, available: nat, inUse: nat)

  datatype Step =
    | Read(i: nat)
    | Acquire(i: nat)
    | Send(i: nat)
    | Receive
    | Pop
    | Release(i: nat)

  function Start(cfg: Config): State {
    State(seq(|cfg.frames|, i => Unread), [], 0, cfg.capacity, 0)
  }

  predicate WithReader(p: Phase) {
    p.Unread? || p.Parked? || p.Reading?
  }

  /** Every earlier frame of the same connection has been sent on. */
  predicate LaneClear(cfg: Config, s: State, i: nat)
    requires |s.phase| == |cfg.frames| && i < |s.phase|
  {
    forall j :: 0 <= j < i && cfg.frames[j].lane == cfg.frames[i].lane ==> !WithReader(s.phase[j])
  }

  predicate NextIsStashed(s: State) {
    s.next < |s.phase| && s.phase[s.next].Stashed?
  }

  /** What each thread may do next; `None` when the step is not enabled. */
  function Apply(cfg: Config, s: State, step: Step): Option<State>
    requires |s.phase| == |cfg.frames|
  {
    match step
    case Read(i) =>
      if i < |s.phase| && s.phase[i].Unread? && LaneClear(cfg, s, i)
      then Some(s.(phase := s.phase[i := if TakesPermit(cfg.frames[i]) then Parked else Reading]))
      else None
    case Acquire(i) =>
      if i < |s.phase| && s.phase[i].Parked? && s.available > 0
      then Some(s.(phase := s.phase[i := Reading], available := s.available - 1, inUse := s.inUse + 1))
      else None
    case Send(i) =>
      if i < |s.phase| && s.phase[i].Reading?
      then Some(s.(phase := s.phase[i := InChannel], channel := s.channel + [i]))
      else None
    case Receive =>
      if s.channel != [] && s.channel[0] < |s.phase| && !NextIsStashed(s)
      then Some(s.(phase := s.phase[s.channel[0] := Stashed], channel := s.channel[1..]))
      else None
    case Pop =>
      if NextIsStashed(s) then Some(s.(phase := Popped(cfg, s), next := s.next + 1)) else None
    case Release(i) =>
      if i < |s.phase| && s.phase[i].AtSink?
      then Some(s.(phase := s.phase[i := Done],
                   available := Min(s.available + 1, cfg.capacity),
                   inUse := if s.inUse > 0 then s.inUse - 1 else 0))
      else None
  }

  function Popped(cfg: Config, s: State): (phase: seq<Phase>)
    requires |s.phase| == |cfg.frames| && s.next < |s.phase|
    ensures |phase| == |s.phase|
  {
    match cfg.frames[s.next].kind
    case Single => s.phase[s.next := AtSink]
    case Key => s.phase[s.next := Pending]
    case Value =>
      if s.next > 0 then s.phase[s.next := Done][s.next - 1 := AtSink] else s.phase[s.next := Done]
  }

  /** Runs of the whole system, from any state. */
  function Run(cfg: Config, s: State, steps: seq<Step>): Option<State>
    requires |s.phase| == |cfg.frames|
    decreases |steps|
  {
    if steps == [] then Some(s)
    else
      var t := Apply(cfg, s, steps[0]);
      if t.None? then None else Run(cfg, t.value, steps[1..])
  }

  ghost predicate Reachable(cfg: Config, s: State) {
    exists steps :: Run(cfg, Start(cfg), steps) == Some(s)
  }

  /** Frames are still missing and no thread can move. */
  ghost predicate Stuck(cfg: Config, s: State)
    requires |s.phase| == |cfg.frames|
  {
    s.next < |cfg.frames| && forall step :: Apply(cfg, s, step).None?
  }

  // ---------------------------------------------------------------------
  // Counting
  // ---------------------------------------------------------------------

  function Count(n: nat, p: nat -> bool): (c: nat)
    ensures c <= n
  {
    if n == 0 then 0 else Count(n - 1, p) + if p(n - 1) then 1 else 0
  }

  lemma {:induction false} CountSame(n: nat, p: nat -> bool, q: nat -> bool)
    requires forall i: nat | i < n :: p(i) == q(i)
    ensures Count(n, p) == Count(n, q)
    decreases n
  {
    if n == 0 {
    } else {
      CountSame(n - 1, p, q);
    }
  }

  lemma {:induction false} CountChange(n: nat, p: nat -> bool, q: nat -> bool, k: nat)
    requires k < n && forall i: nat | i < n && i != k :: p(i) == q(i)
    ensures Count(n, q) + (if p(k) then 1 else 0) == Count(n, p) + if q(k) then 1 else 0
    decreases n
  {
    if k == n - 1 {
      CountSame(n - 1, p, q);
    } else {
      CountChange(n - 1, p, q, k);
    }
  }

  lemma {:induction false} CountAtMost(n: nat, p: nat -> bool, q: nat -> bool)
    requires forall i: nat | i < n && p(i) :: q(i)
    ensures Count(n, p) <= Count(n, q)
    decreases n
  {
    if n == 0 {
    } else {
      CountAtMost(n - 1, p, q);
    }
  }

  lemma {:induction false} CountNone(n: nat, p: nat -> bool)
    requires forall i: nat | i < n :: !p(i)
    ensures Count(n, p) == 0
    decreases n
  {
    if n == 0 {
    } else {
      CountNone(n - 1, p);
    }
  }

  // ---------------------------------------------------------------------
  // What every reachable state keeps
  // ---------------------------------------------------------------------

  predicate PhaseHolds(p: Phase) {
    p.Reading? || p.InChannel? || p.Stashed? || p.Pending? || p.AtSink?
  }

  function Holders(cfg: Config, s: State): nat -> bool {
    (i: nat) => i < |cfg.frames| && i < |s.phase| && TakesPermit(cfg.frames[i]) && PhaseHolds(s.phase[i])
  }

  /** Permits live with readers, channel, stash, coordinator and sink. */
  function Held(cfg: Config, s: State): nat {
    Count(|cfg.frames|, Holders(cfg, s))
  }

  /** Frames below `next` went through the coordinator, the others did not. */
  predicate PhaseOk(f: Frame, next: nat, i: nat, p: Phase) {
    if i < next then
      if i == next - 1 && f.kind.Key? then p.Pending? else p.Done? || (p.AtSink? && TakesPermit(f))
    else if p.Parked? then TakesPermit(f)
    else p.Unread? || p.Reading? || p.InChannel? || p.Stashed?
  }

  predicate PositionsOk(cfg: Config, s: State) {
    && |s.phase| == |cfg.frames| && s.next <= |cfg.frames|
    && forall i :: 0 <= i < |s.phase| ==> PhaseOk(cfg.frames[i], s.next, i, s.phase[i])
  }

  /** The channel holds exactly the frames in it, each once. */
  predicate ChannelOk(phase: seq<Phase>, channel: seq<nat>) {
    && (forall k :: 0 <= k < |channel| ==> channel[k] < |phase| && phase[channel[k]].InChannel?)
    && (forall i: nat :: i < |phase| && phase[i].InChannel? ==> i in channel)
    && (forall k, l :: 0 <= k < l < |channel| ==> channel[k] != channel[l])
  }

  /** Each connection is read in order. */
  predicate InTurn(frames: seq<Frame>, phase: seq<Phase>, j: nat, i: nat)
    requires |phase| == |frames| && j < i < |phase|
  {
    frames[j].lane == frames[i].lane && WithReader(phase[j]) ==> phase[i].Unread?
  }

  predicate LanesOk(frames: seq<Frame>, phase: seq<Phase>)
    requires |phase| == |frames|
  {
    forall j: nat, i: nat :: j < i < |phase| ==> InTurn(frames, phase, j, i)
  }

  predicate PermitsOk(cfg: Config, s: State) {
    s.available + s.inUse == cfg.capacity && s.inUse == Held(cfg, s)
  }

  predicate Inv(cfg: Config, s: State) {
    && PositionsOk(cfg, s) && ChannelOk(s.phase, s.channel)
    && LanesOk(cfg.frames, s.phase) && PermitsOk(cfg, s)
  }

  lemma {:induction false} StartKeepsInv(cfg: Config)
    requires WellFormed(cfg)
    ensures Inv(cfg, Start(cfg))
  {
    CountNone(|cfg.frames|, Holders(cfg, Start(cfg)));
  }

  // One frame moves from one phase to another.

  lemma {:induction false} MoveKeepsPositions(cfg: Config, s: State, t: State, i: nat, to: Phase)
    requires PositionsOk(cfg, s) && i < |s.phase|
    requires t.phase == s.phase[i := to] && t.next == s.next && PhaseOk(cfg.frames[i], s.next, i, to)
    ensures PositionsOk(cfg, t)
  {
  }

  lemma {:induction false} MoveKeepsChannel(phase: seq<Phase>, channel: seq<nat>, i: nat, to: Phase)
    requires ChannelOk(phase, channel) && i < |phase| && !phase[i].InChannel? && !to.InChannel?
    ensures ChannelOk(phase[i := to], channel)
  {
  }

  lemma {:induction false} SendKeepsChannel(phase: seq<Phase>, channel: seq<nat>, i: nat)
    requires ChannelOk(phase, channel) && i < |phase| && !phase[i].InChannel?
    ensures ChannelOk(phase[i := InChannel], channel + [i])
  {
    var c, after := channel + [i], phase[i := InChannel];
    forall k: nat | k < |after| && after[k].InChannel? ensures k in c {
      assert k != i ==> phase[k].InChannel?;
      assert c[|channel|] == i;
    }
  }

  lemma {:induction false} ReceiveKeepsChannel(phase: seq<Phase>, channel: seq<nat>)
    requires ChannelOk(phase, channel) && channel != []
    ensures channel[0] < |phase| && ChannelOk(phase[channel[0] := Stashed], channel[1..])
  {
    var c, after := channel[1..], phase[channel[0] := Stashed];
    forall k: nat | k < |after| && after[k].InChannel? ensures k in c {
      assert phase[k].InChannel?;
    }
  }

  lemma {:induction false} MoveKeepsLanes(frames: seq<Frame>, phase: seq<Phase>, i: nat, to: Phase)
    requires |phase| == |frames| && LanesOk(frames, phase) && i < |phase| && !to.Unread?
    requires WithReader(to) ==> WithReader(phase[i])
    requires phase[i].Unread? ==> forall j: nat | j < i :: frames[j].lane == frames[i].lane ==> !WithReader(phase[j])
    ensures LanesOk(frames, phase[i := to])
  {
    var after := phase[i := to];
    forall j: nat, k: nat | j < k < |after| ensures InTurn(frames, after, j, k) {
      assert InTurn(frames, phase, j, k);
    }
  }

  lemma {:induction false} MoveKeepsHeld(cfg: Config, s: State, t: State, i: nat, to: Phase)
    requires |s.phase| == |cfg.frames| && i < |s.phase| && t.phase == s.phase[i := to]
    ensures TakesPermit(cfg.frames[i]) ==>
              Held(cfg, t) + (if PhaseHolds(s.phase[i]) then 1 else 0) ==
              Held(cfg, s) + if PhaseHolds(to) then 1 else 0
    ensures !TakesPermit(cfg.frames[i]) ==> Held(cfg, t) == Held(cfg, s)
  {
    hide Count;
    CountChange(|cfg.frames|, Holders(cfg, s), Holders(cfg, t), i);
  }

  lemma {:induction false} PopKeepsPositions(cfg: Config, s: State)
    requires WellFormed(cfg) && PositionsOk(cfg, s) && NextIsStashed(s)
    ensures PositionsOk(cfg, s.(phase := Popped(cfg, s), next := s.next + 1))
  {
    var n, phase := s.next, Popped(cfg, s);
    assert PairedAt(cfg.frames, n) && (n > 0 ==> PairedAt(cfg.frames, n - 1));
    forall i | 0 <= i < |phase| ensures PhaseOk(cfg.frames[i], n + 1, i, phase[i]) {
      assert PhaseOk(cfg.frames[i], n, i, s.phase[i]);
    }
  }

  /** A pop moves the popped frame and, for a value, its waiting key. */
  lemma {:induction false} PopKeepsRest(cfg: Config, s: State)
    requires WellFormed(cfg) && Inv(cfg, s) && NextIsStashed(s)
    ensures var t := s.(phase := Popped(cfg, s), next := s.next + 1);
            ChannelOk(t.phase, t.channel) && LanesOk(cfg.frames, t.phase) && Held(cfg, t) == Held(cfg, s)
  {
    hide ChannelOk, LanesOk, Held, PermitsOk;
    var n := s.next;
    var kind := cfg.frames[n].kind;
    var to := if kind.Single? then AtSink else if kind.Key? then Pending else Done;
    var mid := s.(phase := s.phase[n := to], next := n + 1);
    MoveKeepsChannel(s.phase, s.channel, n, to);
    MoveKeepsLanes(cfg.frames, s.phase, n, to);
    MoveKeepsHeld(cfg, s, mid, n, to);
    if kind.Value? {
      assert PairedAt(cfg.frames, n);
      assert PhaseOk(cfg.frames[n - 1], n, n - 1, s.phase[n - 1]);
      var t := mid.(phase := mid.phase[n - 1 := AtSink]);
      MoveKeepsChannel(mid.phase, mid.channel, n - 1, AtSink);
      MoveKeepsLanes(cfg.frames, mid.phase, n - 1, AtSink);
      MoveKeepsHeld(cfg, mid, t, n - 1, AtSink);
    }
  }

  /** A reader step, or the sink letting go of a permit. */
  lemma {:induction false} MoveKeepsInv(cfg: Config, s: State, t: State, i: nat, to: Phase)
    requires Inv(cfg, s) && i < |s.phase| && t.phase == s.phase[i := to] && t.next == s.next
    requires PhaseOk(cfg.frames[i], s.next, i, to) && !to.Unread?
    requires WithReader(to) ==> WithReader(s.phase[i])
    requires s.phase[i].Unread? ==> LaneClear(cfg, s, i)
    requires ChannelOk(t.phase, t.channel)
    requires t.available + t.inUse == cfg.capacity
    requires t.inUse + (if TakesPermit(cfg.frames[i]) && PhaseHolds(s.phase[i]) then 1 else 0) ==
             s.inUse + if TakesPermit(cfg.frames[i]) && PhaseHolds(to) then 1 else 0
    ensures Inv(cfg, t)
  {
    hide ChannelOk, LanesOk, Held;
    MoveKeepsPositions(cfg, s, t, i, to);
    MoveKeepsLanes(cfg.frames, s.phase, i, to);
    MoveKeepsHeld(cfg, s, t, i, to);
  }

  lemma {:induction false} StepKeepsInv(cfg: Config, s: State, step: Step)
    requires WellFormed(cfg) && Inv(cfg, s) && Apply(cfg, s, step).Some?
    ensures Inv(cfg, Apply(cfg, s, step).value)
  {
    hide ChannelOk, LanesOk, Held, LaneClear;
    var t := Apply(cfg, s, step).value;
    match step
    case Read(i) =>
      var to := if TakesPermit(cfg.frames[i]) then Parked else Reading;
      MoveKeepsChannel(s.phase, s.channel, i, to);
      MoveKeepsInv(cfg, s, t, i, to);
    case Acquire(i) =>
      MoveKeepsChannel(s.phase, s.channel, i, Reading);
      MoveKeepsInv(cfg, s, t, i, Reading);
    case Send(i) =>
      SendKeepsChannel(s.phase, s.channel, i);
      MoveKeepsInv(cfg, s, t, i, InChannel);
    case Receive =>
      ReceiveKeepsChannel(s.phase, s.channel);
      InChannelHead(s.phase, s.channel);
      MoveKeepsInv(cfg, s, t, s.channel[0], Stashed);
    case Pop =>
      PopKeepsPositions(cfg, s);
      PopKeepsRest(cfg, s);
    case Release(i) =>
      HolderIsCounted(cfg, s, i);
      MoveKeepsChannel(s.phase, s.channel, i, Done);
      MoveKeepsInv(cfg, s, t, i, Done);
  }

  lemma {:induction false} InChannelHead(phase: seq<Phase>, channel: seq<nat>)
    requires ChannelOk(phase, channel) && channel != []
    ensures channel[0] < |phase| && phase[channel[0]].InChannel?
  {
  }

  /** A held permit is counted, so giving it back never saturates. */
  lemma {:induction false} HolderIsCounted(cfg: Config, s: State, i: nat)
    requires |s.phase| == |cfg.frames| && i < |s.phase|
    requires TakesPermit(cfg.frames[i]) && PhaseHolds(s.phase[i])
    ensures Held(cfg, s) > 0
  {
    hide Count;
    var t := s.(phase := s.phase[i := Done]);
    MoveKeepsHeld(cfg, s, t, i, Done);
  }

  /** Safety of whole runs. */
  lemma {:induction false} RunKeepsInv(cfg: Config, s: State, steps: seq<Step>)
    requires WellFormed(cfg) && Inv(cfg, s) && Run(cfg, s, steps).Some?
    ensures Inv(cfg, Run(cfg, s, steps).value)
    decreases |steps|
  {
    hide Inv;
    if steps == [] {
    } else {
      PhasesCount(cfg, s);
      StepKeepsInv(cfg, s, steps[0]);
      RunKeepsInv(cfg, Apply(cfg, s, steps[0]).value, steps[1..]);
    }
  }

  lemma {:induction false} PhasesCount(cfg: Config, s: State)
    requires Inv(cfg, s)
    ensures |s.phase| == |cfg.frames|
  {
  }

  /** In every reachable state the pool's two counters add up, the permits in
      use are exactly those held somewhere, and no release is lost. */
  lemma {:induction false} PermitsAreConserved(cfg: Config, s: State)
    requires WellFormed(cfg) && Reachable(cfg, s)
    ensures |s.phase| == |cfg.frames| && Inv(cfg, s)
    ensures s.available + s.inUse == cfg.capacity && s.inUse == Held(cfg, s)
    ensures forall i: nat | i < |s.phase| && s.phase[i].AtSink? ::
              s.inUse > 0 && s.available + 1 <= cfg.capacity
  {
    var steps :| Run(cfg, Start(cfg), steps) == Some(s);
    StartKeepsInv(cfg);
    RunKeepsInv(cfg, Start(cfg), steps);
    hide Held;
    forall i: nat | i < |s.phase| && s.phase[i].AtSink? ensures s.inUse > 0 && s.available + 1 <= cfg.capacity {
      assert PhaseOk(cfg.frames[i], s.next, i, s.phase[i]);
      HolderIsCounted(cfg, s, i);
    }
  }

  // ---------------------------------------------------------------------
  // Every run ends
  // ---------------------------------------------------------------------

  function Rank(p: Phase): nat {
    match p
    case Unread => 0
    case Parked => 1
    case Reading => 2
    case InChannel => 3
    case Stashed => 4
    case Pending => 5
    case AtSink => 6
    case Done => 7
  }

  function Work(phase: seq<Phase>): (w: nat)
    ensures w <= 7 * |phase|
  {
    if phase == [] then 0 else Work(phase[..|phase| - 1]) + Rank(phase[|phase| - 1])
  }

  lemma {:induction false} WorkChange(phase: seq<Phase>, i: nat, to: Phase)
    requires i < |phase|
    ensures Work(phase[i := to]) + Rank(phase[i]) == Work(phase) + Rank(to)
    decreases |phase|
  {
    var n := |phase| - 1;
    if i < n {
      WorkChange(phase[..n], i, to);
      assert phase[i := to][..n] == phase[..n][i := to];
    } else {
      assert phase[i := to][..n] == phase[..n];
    }
  }

  /** Every step moves some frame forward. */
  lemma {:induction false} StepWorks(cfg: Config, s: State, step: Step)
    requires WellFormed(cfg) && Inv(cfg, s) && Apply(cfg, s, step).Some?
    ensures Work(Apply(cfg, s, step).value.phase) > Work(s.phase)
  {
    hide LanesOk, Held, LaneClear, Work;
    match step
    case Read(i) => WorkChange(s.phase, i, if TakesPermit(cfg.frames[i]) then Parked else Reading);
    case Acquire(i) => WorkChange(s.phase, i, Reading);
    case Send(i) => WorkChange(s.phase, i, InChannel);
    case Receive => WorkChange(s.phase, s.channel[0], Stashed);
    case Pop =>
      var n := s.next;
      var kind := cfg.frames[n].kind;
      var to := if kind.Single? then AtSink else if kind.Key? then Pending else Done;
      WorkChange(s.phase, n, to);
      if kind.Value? {
        assert PairedAt(cfg.frames, n);
        assert PhaseOk(cfg.frames[n - 1], n, n - 1, s.phase[n - 1]);
        WorkChange(s.phase[n := Done], n - 1, AtSink);
      }
    case Release(i) => WorkChange(s.phase, i, Done);
  }

  lemma {:induction false} RunWorks(cfg: Config, s: State, steps: seq<Step>)
    requires WellFormed(cfg) && Inv(cfg, s) && Run(cfg, s, steps).Some?
    ensures Work(s.phase) + |steps| <= 7 * |cfg.frames|
    decreases |steps|
  {
    hide Apply;
    if steps == [] {
    } else {
      StepKeepsInv(cfg, s, steps[0]);
      StepWorks(cfg, s, steps[0]);
      RunWorks(cfg, Apply(cfg, s, steps[0]).value, steps[1..]);
    }
  }

  // ---------------------------------------------------------------------
  // When the session can hang
  // ---------------------------------------------------------------------

  /** Later permit takers on other connections than `n`'s. */
  function Rivals(cfg: Config, n: nat): nat -> bool {
    (m: nat) => n < m < |cfg.frames| && TakesPermit(cfg.frames[m]) && cfg.frames[m].lane != cfg.frames[n].lane
  }

  /** Enough rivals to empty the pool before `n`'s reader asks for a permit. */
  predicate Starves(cfg: Config, n: nat) {
    && n < |cfg.frames| && TakesPermit(cfg.frames[n])
    && Count(|cfg.frames|, Rivals(cfg, n)) >= cfg.capacity
  }

  /** A hung session waits for a frame whose reader waits for a permit. */
  lemma {:induction false} StuckIsParked(cfg: Config, s: State)
    requires WellFormed(cfg) && Inv(cfg, s) && Stuck(cfg, s)
    ensures s.phase[s.next].Parked? && s.available == 0
  {
    hide Held, LanesOk;
    var n := s.next;
    assert PhaseOk(cfg.frames[n], n, n, s.phase[n]);
    assert forall j :: 0 <= j < n ==> PhaseOk(cfg.frames[j], n, j, s.phase[j]);
    assert Apply(cfg, s, Read(n)).None?;
    assert Apply(cfg, s, Acquire(n)).None?;
    assert Apply(cfg, s, Send(n)).None?;
    assert Apply(cfg, s, Receive).None?;
    assert Apply(cfg, s, Pop).None?;
  }

  /** Every permit of a hung session is with a stashed rival. */
  lemma {:induction false} StuckHolderIsRival(cfg: Config, s: State, i: nat)
    requires WellFormed(cfg) && Inv(cfg, s) && Stuck(cfg, s)
    requires s.phase[s.next].Parked? && i < |cfg.frames| && Holders(cfg, s)(i)
    ensures Rivals(cfg, s.next)(i)
  {
    hide Held;
    var n := s.next;
    assert PhaseOk(cfg.frames[i], n, i, s.phase[i]) && PhaseOk(cfg.frames[n], n, n, s.phase[n]);
    assert Apply(cfg, s, Send(i)).None?;
    assert Apply(cfg, s, Receive).None?;
    assert Apply(cfg, s, Release(i)).None?;
    assert PairedAt(cfg.frames, i);
    if n < i {
      assert InTurn(cfg.frames, s.phase, n, i);
    }
  }

  lemma {:induction false} StuckStarves(cfg: Config, s: State)
    requires WellFormed(cfg) && Inv(cfg, s) && Stuck(cfg, s)
    ensures Starves(cfg, s.next)
  {
    hide Apply, Count, LanesOk, ChannelOk, Holders, Rivals;
    StuckIsParked(cfg, s);
    assert PhaseOk(cfg.frames[s.next], s.next, s.next, s.phase[s.next]);
    forall i: nat | i < |cfg.frames| && Holders(cfg, s)(i) ensures Rivals(cfg, s.next)(i) {
      StuckHolderIsRival(cfg, s, i);
    }
    CountAtMost(|cfg.frames|, Holders(cfg, s), Rivals(cfg, s.next));
  }
}
