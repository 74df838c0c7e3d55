/** Runs of the controller. The work queue delivers activity events and the
    dormant work one at a time, so a run is a sequence of atomic steps. */
module SubrateTraces {
  import opened SubrateTiers
  import opened SubrateController

  /** One serialised callback: an event handed to the listener, or the
      dormant work coming due. `conns` is the stack's connection list at
      that moment. */
  datatype Input = Deliver(ev: Event, conns: seq<Conn>) | DormantDue(conns: seq<Conn>)

  /** One callback. The dormant work only runs while it is scheduled. */
  function Step(cfg: Config, s: ControllerState, i: Input): ControllerState {
    match i
    case Deliver(ev, conns) => AfterEvent(cfg, s, ev, conns).state
    case DormantDue(conns) => if s.timerArmed then AfterTimer(cfg, s, conns) else s
  }

  function Run(cfg: Config, s: ControllerState, inputs: seq<Input>): ControllerState
    decreases |inputs|
  {
    if |inputs| == 0 then s else Run(cfg, Step(cfg, s, inputs[0]), inputs[1..])
  }

  /** An activity event that the listener answers by going IDLE (IDLE or SLEEP). */
  predicate GoesIdle(i: Input) {
    i.Deliver? && ActionFor(i.ev) == GoIdle
  }

  /** An event that the listener refuses. */
  predicate Refused(i: Input) {
    i.Deliver? && ActionFor(i.ev).Refuse?
  }

  const IdleEvent: Event := ActivityStateChanged(ActivityIdle)
  const ActiveEvent: Event := ActivityStateChanged(ActivityActive)

  /** Running two pieces of a run one after the other is running the whole. */
  lemma {:induction false} RunAppend(cfg: Config, s: ControllerState, a: seq<Input>, b: seq<Input>)
    ensures Run(cfg, s, a + b) == Run(cfg, Run(cfg, s, a), b)
    decreases |a|
  {
    if |a| > 0 {
      assert (a + b)[0] == a[0];
      assert (a + b)[1..] == a[1..] + b;
      RunAppend(cfg, Step(cfg, s, a[0]), a[1..], b);
    } else {
      assert a + b == b;
    }
  }

  /** Once ACTIVE with the dormant work cancelled, the controller stays
      exactly as it is until an IDLE or SLEEP event arrives: no tier change
      and no request, whatever else is delivered. */
  lemma {:induction false} ActiveIsQuiescent(cfg: Config, s: ControllerState, inputs: seq<Input>)
    requires s.tier == Active && !s.timerArmed
    requires forall k | 0 <= k < |inputs| :: !GoesIdle(inputs[k])
    ensures Run(cfg, s, inputs) == s
    decreases |inputs|
  {
    if |inputs| > 0 {
      assert Step(cfg, s, inputs[0]) == s;
      ActiveIsQuiescent(cfg, s, inputs[1..]);
    }
  }

  /** Idle debounce: an IDLE event followed by an ACTIVE event before the
      dormant work runs never leads to DORMANT. At every later point without
      another IDLE or SLEEP event the tier is ACTIVE and no request has been
      added since the ACTIVE event. */
  lemma IdleThenActiveNeverDormant(cfg: Config, s: ControllerState, c1: seq<Conn>, c2: seq<Conn>,
                                   rest: seq<Input>)
    requires forall k | 0 <= k < |rest| :: !GoesIdle(rest[k])
    ensures Run(cfg, s, [Deliver(IdleEvent, c1)]).tier == Idle
    ensures Run(cfg, s, [Deliver(IdleEvent, c1)]).timerArmed
    ensures Run(cfg, s, [Deliver(IdleEvent, c1), Deliver(ActiveEvent, c2)]).tier == Active
    ensures forall n | 0 <= n <= |rest| ::
      Run(cfg, s, [Deliver(IdleEvent, c1), Deliver(ActiveEvent, c2)] + rest[..n])
        == Run(cfg, s, [Deliver(IdleEvent, c1), Deliver(ActiveEvent, c2)])
  {
    var head := [Deliver(IdleEvent, c1), Deliver(ActiveEvent, c2)];
    var mid := Run(cfg, s, head);
    assert head == [Deliver(IdleEvent, c1)] + [Deliver(ActiveEvent, c2)];
    RunAppend(cfg, s, [Deliver(IdleEvent, c1)], [Deliver(ActiveEvent, c2)]);
    forall n | 0 <= n <= |rest|
      ensures Run(cfg, s, head + rest[..n]) == mid
    {
      RunAppend(cfg, s, head, rest[..n]);
      ActiveIsQuiescent(cfg, mid, rest[..n]);
    }
  }

  /** Refused events leave the state exactly as it was. */
  lemma {:induction false} RefusedAreInert(cfg: Config, s: ControllerState, noise: seq<Input>)
    requires forall k | 0 <= k < |noise| :: Refused(noise[k])
    ensures Run(cfg, s, noise) == s
    decreases |noise|
  {
    if |noise| > 0 {
      RefusedAreInert(cfg, s, noise[1..]);
    }
  }

  /** Dormant escalation: an IDLE event followed, with only refused events in
      between, by the dormant work coming due leaves the controller DORMANT
      with the DORMANT record installed and requested on every target link. */
  lemma IdleThenDueIsDormant(cfg: Config, s: ControllerState, c1: seq<Conn>, noise: seq<Input>, c2: seq<Conn>)
    requires forall k | 0 <= k < |noise| :: Refused(noise[k])
    ensures var idle := Run(cfg, s, [Deliver(IdleEvent, c1)]);
      && Run(cfg, s, [Deliver(IdleEvent, c1)] + noise + [DormantDue(c2)])
         == ControllerState(Dormant, false, Some(ParamsFor(cfg, Dormant)),
                            idle.requests + Broadcast(c2, ParamsFor(cfg, Dormant)))
  {
    var idle := Run(cfg, s, [Deliver(IdleEvent, c1)]);
    RunAppend(cfg, s, [Deliver(IdleEvent, c1)], noise);
    RefusedAreInert(cfg, idle, noise);
    RunAppend(cfg, s, [Deliver(IdleEvent, c1)] + noise, [DormantDue(c2)]);
  }

  /** Every record a run hands to the stack passes the four checks. */
  lemma {:induction false} RunSound(cfg: Config, s: ControllerState, inputs: seq<Input>)
    requires BuildAssertsCorrected(cfg) && Sound(s)
    ensures Sound(Run(cfg, s, inputs))
    decreases |inputs|
  {
    if |inputs| > 0 {
      var s' := Step(cfg, s, inputs[0]);
      match inputs[0] {
        case Deliver(ev, conns) =>
          SetTierSound(cfg, s.(timerArmed := false), Active, conns);
          SetTierSound(cfg, s.(timerArmed := false), Idle, conns);
        case DormantDue(conns) =>
          SetTierSound(cfg, s.(timerArmed := false), Dormant, conns);
      }
      RunSound(cfg, s', inputs[1..]);
    }
  }

  /** Once start-up has installed the defaults, the stack default stays the
      current tier's record through any run. */
  lemma {:induction false} RunSynced(cfg: Config, s: ControllerState, inputs: seq<Input>)
    requires Synced(cfg, s)
    ensures Synced(cfg, Run(cfg, s, inputs))
    decreases |inputs|
  {
    if |inputs| > 0 {
      RunSynced(cfg, Step(cfg, s, inputs[0]), inputs[1..]);
    }
  }

  /** The controller starts IDLE with the dormant work unscheduled, and
      start-up installs the IDLE record, which passes the checks, as the
      stack default. */
  lemma StartUp(cfg: Config)
    requires BuildAssertsCorrected(cfg)
    ensures Boot().tier == Idle && !Boot().timerArmed && Boot().requests == []
    ensures Synced(cfg, AfterInit(cfg, Boot()))
    ensures Sound(AfterInit(cfg, Boot()))
  {
  }

  /** A whole scenario on one connection list: ACTIVE, IDLE, the dormant work
      comes due, IDLE, ACTIVE, then the dormant work would come due. Each
      tier change is broadcast once; the last arming was cancelled by the
      ACTIVE event, so no second DORMANT broadcast happens. */
  lemma Scenario(cfg: Config, c: seq<Conn>)
    ensures
      var inputs := [Deliver(ActiveEvent, c), Deliver(IdleEvent, c), DormantDue(c),
                     Deliver(IdleEvent, c), Deliver(ActiveEvent, c), DormantDue(c)];
      var a, i, d := ParamsFor(cfg, Active), ParamsFor(cfg, Idle), ParamsFor(cfg, Dormant);
      Run(cfg, AfterInit(cfg, Boot()), inputs)
        == ControllerState(Active, false, Some(a),
                           Broadcast(c, a) + Broadcast(c, i) + Broadcast(c, d) + Broadcast(c, i) + Broadcast(c, a))
  {
    var s0 := AfterInit(cfg, Boot());
    var a, i, d := ParamsFor(cfg, Active), ParamsFor(cfg, Idle), ParamsFor(cfg, Dormant);
    var s1 := Step(cfg, s0, Deliver(ActiveEvent, c));
    var s2 := Step(cfg, s1, Deliver(IdleEvent, c));
    var s3 := Step(cfg, s2, DormantDue(c));
    var s4 := Step(cfg, s3, Deliver(IdleEvent, c));
    var s5 := Step(cfg, s4, Deliver(ActiveEvent, c));
    var s6 := Step(cfg, s5, DormantDue(c));
    assert s6.requests == Broadcast(c, a) + Broadcast(c, i) + Broadcast(c, d) + Broadcast(c, i) + Broadcast(c, a);
    var inputs := [Deliver(ActiveEvent, c), Deliver(IdleEvent, c), DormantDue(c),
                   Deliver(IdleEvent, c), Deliver(ActiveEvent, c), DormantDue(c)];
    var t1 := [Deliver(IdleEvent, c), DormantDue(c), Deliver(IdleEvent, c), Deliver(ActiveEvent, c), DormantDue(c)];
    var t2 := [DormantDue(c), Deliver(IdleEvent, c), Deliver(ActiveEvent, c), DormantDue(c)];
    var t3 := [Deliver(IdleEvent, c), Deliver(ActiveEvent, c), DormantDue(c)];
    var t4 := [Deliver(ActiveEvent, c), DormantDue(c)];
    var t5 := [DormantDue(c)];
    assert inputs[1..] == t1 && t1[1..] == t2 && t2[1..] == t3 && t3[1..] == t4 && t4[1..] == t5 && t5[1..] == [];
    assert Run(cfg, s5, t5) == s6;
    assert Run(cfg, s4, t4) == s6;
    assert Run(cfg, s3, t3) == s6;
    assert Run(cfg, s2, t2) == s6;
    assert Run(cfg, s1, t1) == s6;
    assert Run(cfg, s0, inputs) == s6;
  }
}
