/** The receiver interrupt handle as interleaved atomic steps: a
    compare-exchange on the reason, and a mutex-guarded socket list. */
module Interrupt {
  datatype Reason = NotInterrupted | Cancelled | DeadlineExceeded

  /** Where one call to `interrupt` or `register` stands. */
  datatype Call =
    | Interrupting(reason: Reason)
    | ShuttingDown
    | InterruptDone
    | Registering(socket: nat)
    | Checked(socket: nat)
    | Pushed(socket: nat)
    | RegisterDone(socket: nat, ok: bool)

  datatype Handle = Handle(reason: Reason, sockets: set<nat>, shut: set<nat>, calls: seq<Call>)

  predicate Init(h: Handle) {
    && h.reason.NotInterrupted? && h.sockets == {} && h.shut == {}
    && forall i :: 0 <= i < |h.calls| ==>
         || h.calls[i].Registering?
         || (h.calls[i].Interrupting? && !h.calls[i].reason.NotInterrupted?)
  }

  /** One atomic step of call `i`; a finished call does nothing. */
  function Step(h: Handle, i: nat): Handle
    requires i < |h.calls|
  {
    match h.calls[i]
    case Interrupting(reason) =>
      var won := if h.reason.NotInterrupted? then reason else h.reason;
      h.(reason := won, calls := h.calls[i := ShuttingDown])
    case ShuttingDown =>
      h.(shut := h.shut + h.sockets, calls := h.calls[i := InterruptDone])
    case Registering(socket) =>
      if h.reason.NotInterrupted? then h.(calls := h.calls[i := Checked(socket)])
      else h.(calls := h.calls[i := RegisterDone(socket, false)])
    case Checked(socket) =>
      h.(sockets := h.sockets + {socket}, calls := h.calls[i := Pushed(socket)])
    case Pushed(socket) =>
      h.(calls := h.calls[i := RegisterDone(socket, h.reason.NotInterrupted?)])
    case InterruptDone => h
    case RegisterDone(_, _) => h
  }

  predicate ValidSchedule(schedule: seq<nat>, n: nat) {
    forall k :: 0 <= k < |schedule| ==> schedule[k] < n
  }

  function Run(h: Handle, schedule: seq<nat>): (h': Handle)
    requires ValidSchedule(schedule, |h.calls|)
    ensures |h'.calls| == |h.calls|
    decreases |schedule|
  {
    if schedule == [] then h else Run(Step(h, schedule[0]), schedule[1..])
  }

  predicate Finished(c: Call) {
    c.InterruptDone? || c.RegisterDone?
  }

  predicate Inv(h: Handle) {
    && (forall i :: 0 <= i < |h.calls| && h.calls[i].Interrupting? ==>
          !h.calls[i].reason.NotInterrupted?)
    && (forall i :: 0 <= i < |h.calls| && (h.calls[i].ShuttingDown? || h.calls[i].InterruptDone?) ==>
          !h.reason.NotInterrupted?)
    && (forall i :: 0 <= i < |h.calls| && h.calls[i].RegisterDone? && h.calls[i].ok ==>
          h.calls[i].socket in h.sockets)
    && (forall i :: 0 <= i < |h.calls| && h.calls[i].RegisterDone? && !h.calls[i].ok ==>
          !h.reason.NotInterrupted?)
    // a finished interrupt leaves no acknowledged socket open
    && (forall i, j ::
          (0 <= i < |h.calls| && 0 <= j < |h.calls| && h.calls[i].InterruptDone?
           && h.calls[j].RegisterDone? && h.calls[j].ok)
          ==> h.calls[j].socket in h.shut)
    && (forall i :: 0 <= i < |h.calls| && h.calls[i].Pushed? ==> h.calls[i].socket in h.sockets)
  }

  lemma {:induction false} StepKeepsInv(h: Handle, i: nat)
    requires Inv(h) && i < |h.calls|
    ensures Inv(Step(h, i))
    ensures !h.reason.NotInterrupted? ==> Step(h, i).reason == h.reason
  {
  }

  lemma {:induction false} RunKeepsInv(h: Handle, schedule: seq<nat>)
    requires Inv(h) && ValidSchedule(schedule, |h.calls|)
    ensures Inv(Run(h, schedule))
    ensures !h.reason.NotInterrupted? ==> Run(h, schedule).reason == h.reason
    decreases |schedule|
  {
    if schedule == [] {
    } else {
      StepKeepsInv(h, schedule[0]);
      RunKeepsInv(Step(h, schedule[0]), schedule[1..]);
    }
  }

  lemma {:induction false} RunConcat(h: Handle, first: seq<nat>, second: seq<nat>)
    requires ValidSchedule(first, |h.calls|) && ValidSchedule(second, |h.calls|)
    ensures ValidSchedule(first + second, |h.calls|)
    ensures Run(h, first + second) == Run(Run(h, first), second)
    decreases |first|
  {
    if first == [] {
      assert first + second == second;
    } else {
      assert (first + second)[1..] == first[1..] + second;
      RunConcat(Step(h, first[0]), first[1..], second);
    }
  }

  /** The first reason is never overwritten, in any interleaving. */
  lemma {:induction false} FirstReasonWins(h: Handle, first: seq<nat>, second: seq<nat>)
    requires Init(h) && ValidSchedule(first, |h.calls|) && ValidSchedule(second, |h.calls|)
    requires !Run(h, first).reason.NotInterrupted?
    ensures ValidSchedule(first + second, |h.calls|)
    ensures Run(h, first + second).reason == Run(h, first).reason
  {
    RunConcat(h, first, second);
    RunKeepsInv(h, first);
    RunKeepsInv(Run(h, first), second);
  }

  /** Once an interrupt and a registration are both finished, the socket is
      shut down or its registration reported an error; and a registration
      reports an error only if something interrupted the handle. */
  lemma {:induction false} NoSocketSurvives(h: Handle, schedule: seq<nat>, i: nat, j: nat)
    requires Init(h) && ValidSchedule(schedule, |h.calls|)
    requires i < |h.calls| && j < |h.calls|
    requires h.calls[i].Interrupting? && h.calls[j].Registering?
    requires Finished(Run(h, schedule).calls[i]) && Finished(Run(h, schedule).calls[j])
    ensures var end := Run(h, schedule);
            && end.calls[j].RegisterDone? && end.calls[j].socket == h.calls[j].socket
            && (h.calls[j].socket in end.shut || !end.calls[j].ok)
            && (!end.calls[j].ok ==> !end.reason.NotInterrupted?)
  {
    RunKeepsInv(h, schedule);
    KindsAreKept(h, schedule, i);
    KindsAreKept(h, schedule, j);
  }

  predicate IsRegister(c: Call) {
    c.Registering? || c.Checked? || c.Pushed? || c.RegisterDone?
  }

  lemma {:induction false} KindsAreKept(h: Handle, schedule: seq<nat>, i: nat)
    requires i < |h.calls| && ValidSchedule(schedule, |h.calls|)
    ensures IsRegister(Run(h, schedule).calls[i]) == IsRegister(h.calls[i])
    ensures IsRegister(h.calls[i]) ==> Run(h, schedule).calls[i].socket == h.calls[i].socket
    decreases |schedule|
  {
    if schedule == [] {
    } else {
      KindsAreKept(Step(h, schedule[0]), schedule[1..], i);
    }
  }
}
