/** The permit system of a session whose manifest was armed. */
module SprayPlan {
  import opened HandoffTypes
  import opened Layout
  import opened BeginValidation
  import SprayPermits
  import SprayDeadlock

  function KindOf(b: Begin, e: Entry): SprayPermits.Kind {
    if e.role.Value? then SprayPermits.Value
    else if SingleRole(b, e) then SprayPermits.Single
    else SprayPermits.Key
  }

  /** The planned frames, frame `i` on connection `lanes[i]`. */
  function Spread(b: Begin, lanes: seq<nat>, capacity: nat): SprayPermits.Config
    requires |lanes| == |Plan(b)|
  {
    var plan := Plan(b);
    SprayPermits.Config(
      seq(|plan|, i requires 0 <= i < |plan| => SprayPermits.Frame(KindOf(b, plan[i]), lanes[i])),
      capacity)
  }

  /** Every armed plan is one the step system speaks about, so the exact hang
      condition is a property of the manifest and the frame spread alone. */
  lemma {:induction false} ArmedPlanHangs(b: Begin, limits: Limits, lanes: seq<nat>, capacity: nat)
    requires ValidBegin(b, limits) && |lanes| == |Plan(b)| && 1 <= capacity <= 64
    ensures SprayPermits.WellFormed(Spread(b, lanes, capacity))
    ensures SprayDeadlock.CanHang(Spread(b, lanes, capacity)) <==>
              exists n: nat :: SprayPermits.Starves(Spread(b, lanes, capacity), n)
  {
    hide ValidBegin, Plan, Total, SprayDeadlock.CanHang, SprayPermits.Starves;
    ArmedPlan(b, limits);
    var cfg, plan := Spread(b, lanes, capacity), Plan(b);
    forall i: nat | i < |cfg.frames| ensures SprayPermits.PairedAt(cfg.frames, i) {
      assert PairedAt(b, plan, i);
      if i + 1 < |plan| {
        assert PairedAt(b, plan, i + 1);
      }
      if i > 0 {
        assert PairedAt(b, plan, i - 1);
      }
    }
    SprayDeadlock.HangsExactlyWhenStarved(cfg);
  }

  /** One connection: whatever the schedule, the session cannot hang. */
  lemma {:induction false} OneConnectionNeverHangs(b: Begin, limits: Limits, lanes: seq<nat>, capacity: nat)
    requires ValidBegin(b, limits) && |lanes| == |Plan(b)| && 1 <= capacity <= 64
    requires forall i :: 0 <= i < |lanes| ==> lanes[i] == 0
    ensures !SprayDeadlock.CanHang(Spread(b, lanes, capacity))
  {
    hide ValidBegin, Plan, SprayDeadlock.CanHang, SprayPermits.Starves, SprayPermits.WellFormed;
    ArmedPlanHangs(b, limits, lanes, capacity);
    SprayDeadlock.KeysTogetherNeverHang(Spread(b, lanes, capacity), 0);
  }
}
