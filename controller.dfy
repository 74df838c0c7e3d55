/** The subrating tier controller of the central role: the current tier, the
    dormant timer, the parameters installed as the stack default and the log
    of per-connection subrate requests. The pure functions below say what
    each step does to a `ControllerState`; the class `Controller` performs the
    same steps in place and is proved against them. */
module SubrateController {
  import opened SubrateTiers

  /** Error numbers of the Zephyr C library. */
  const EINVAL: int := 22
  const EALREADY: int := 120
  const ENOTSUP: int := 134

  datatype Option<T> = None | Some(value: T)

  /** The role and state reported by `bt_conn_get_info`. */
  datatype Role = Central | Peripheral
  datatype LinkState = Disconnected | Connecting | Connected | Disconnecting

  /** One entry of the stack's list of LE connections. `reply` is the value
      the stack's subrate request returns when asked for this connection; it
      is chosen by the stack, so it is an input of the model. */
  datatype Conn = Conn(role: Role, state: LinkState, reply: int)

  /** Only a connected link on which this device is central may request subrating. */
  predicate IsTarget(c: Conn) {
    c.role == Central && c.state == Connected
  }

  /** How a reply to a subrate request is treated: success, `-EALREADY`
      (swallowed silently), or any other error (a warning is logged). */
  datatype Outcome = Accepted | AlreadyPending | Warned(err: int)

  function Classify(err: int): (o: Outcome)
    ensures o == Accepted <==> err == 0
    ensures o == AlreadyPending <==> err == -EALREADY
    ensures o.Warned? <==> err != 0 && err != -EALREADY
    ensures o.Warned? ==> o.err == err
  {
    if err == 0 then Accepted
    else if err == -EALREADY then AlreadyPending
    else Warned(err)
  }

  /** One subrate request issued on the connection at position `slot` of the
      stack's iteration order, with the stack's reply as classified. */
  datatype Request = Request(slot: nat, params: SubrateParams, outcome: Outcome)

  /** What visiting one connection adds to the request log. */
  function RequestsFor(slot: nat, c: Conn, p: SubrateParams): seq<Request> {
    if IsTarget(c) then [Request(slot, p, Classify(c.reply))] else []
  }

  /** The requests a walk over `conns` issues with parameters `p`, in order. */
  function Broadcast(conns: seq<Conn>, p: SubrateParams): seq<Request> {
    if |conns| == 0 then []
    else
      var n := |conns| - 1;
      Broadcast(conns[..n], p) + RequestsFor(n, conns[n], p)
  }

  /** `r` holds exactly one request for each central, connected link of
      `conns` and none for any other, in iteration order, every one with
      parameters `p` and the stack's reply for that link. */
  predicate OncePerTarget(conns: seq<Conn>, r: seq<Request>, p: SubrateParams) {
    && (forall k | 0 <= k < |r| ::
          && r[k].slot < |conns|
          && IsTarget(conns[r[k].slot])
          && r[k].params == p
          && r[k].outcome == Classify(conns[r[k].slot].reply))
    && (forall k, j | 0 <= k < j < |r| :: r[k].slot < r[j].slot)
    && (forall i | 0 <= i < |conns| && IsTarget(conns[i]) ::
          exists k :: 0 <= k < |r| && r[k].slot == i)
  }

  /** The walk over the connections meets `OncePerTarget`, whatever the
      stack replies. */
  lemma {:induction false} BroadcastTargets(conns: seq<Conn>, p: SubrateParams)
    ensures OncePerTarget(conns, Broadcast(conns, p), p)
  {
    if |conns| > 0 {
      var n := |conns| - 1;
      var front := conns[..n];
      BroadcastTargets(front, p);
      var r0 := Broadcast(front, p);
      var r := Broadcast(conns, p);
      assert r == r0 + RequestsFor(n, conns[n], p);
      forall k | 0 <= k < |r0| ensures r[k] == r0[k] && r[k].slot < n {
      }
      forall i | 0 <= i < |conns| && IsTarget(conns[i])
        ensures exists k :: 0 <= k < |r| && r[k].slot == i
      {
        if i < n {
          assert front[i] == conns[i];
          var k :| 0 <= k < |r0| && r0[k].slot == i;
          assert r[k].slot == i;
        } else {
          assert r[|r0|].slot == i;
        }
      }
    }
  }

  /** A failed request does not stop the walk: which connections are asked,
      and with what, does not depend on what the stack replies. */
  lemma {:induction false} BroadcastIgnoresReplies(a: seq<Conn>, b: seq<Conn>, p: SubrateParams)
    requires |a| == |b|
    requires forall i | 0 <= i < |a| :: a[i].role == b[i].role && a[i].state == b[i].state
    ensures |Broadcast(a, p)| == |Broadcast(b, p)|
    ensures forall k | 0 <= k < |Broadcast(a, p)| ::
      Broadcast(a, p)[k].slot == Broadcast(b, p)[k].slot && Broadcast(a, p)[k].params == Broadcast(b, p)[k].params
  {
    if |a| > 0 {
      var n := |a| - 1;
      BroadcastIgnoresReplies(a[..n], b[..n], p);
    }
  }

  /** The controller's whole state. `defaults` holds the parameters last
      handed to the stack's default-setting call (None before any). */
  datatype ControllerState = ControllerState(
    tier: Tier,
    timerArmed: bool,
    defaults: Option<SubrateParams>,
    requests: seq<Request>)

  /** The static initial values: tier IDLE, dormant work not scheduled. */
  function Boot(): ControllerState {
    ControllerState(Idle, false, None, [])
  }

  /** Start-up: the IDLE record becomes the stack default. */
  function AfterInit(cfg: Config, s: ControllerState): ControllerState {
    s.(defaults := Some(ParamsFor(cfg, Idle)))
  }

  /** `set_tier`: nothing happens when `t` is already the tier; otherwise the
      tier becomes `t`, its record becomes the default and is requested on
      every target connection. */
  function AfterSetTier(cfg: Config, s: ControllerState, t: Tier, conns: seq<Conn>): (r: ControllerState)
    ensures r.tier == t && r.timerArmed == s.timerArmed
    ensures s.requests <= r.requests
  {
    if t == s.tier then s
    else
      var p := ParamsFor(cfg, t);
      s.(tier := t, defaults := Some(p), requests := s.requests + Broadcast(conns, p))
  }

  /** `subrate_active`: cancel the dormant work, then go ACTIVE. */
  function AfterActive(cfg: Config, s: ControllerState, conns: seq<Conn>): ControllerState {
    AfterSetTier(cfg, s.(timerArmed := false), Active, conns)
  }

  /** `subrate_idle`: cancel the dormant work, go IDLE, schedule the dormant work. */
  function AfterIdle(cfg: Config, s: ControllerState, conns: seq<Conn>): ControllerState {
    AfterSetTier(cfg, s.(timerArmed := false), Idle, conns).(timerArmed := true)
  }

  /** `dormant_timer_handler`: the work has run, so it is no longer pending; go DORMANT. */
  function AfterTimer(cfg: Config, s: ControllerState, conns: seq<Conn>): ControllerState {
    AfterSetTier(cfg, s.(timerArmed := false), Dormant, conns)
  }

  /** The activity state carried by an activity event; `ActivityUnknown`
      stands for any value outside the three the listener recognises. */
  datatype ActivityState = ActivityActive | ActivityIdle | ActivitySleep | ActivityUnknown(code: int)

  /** An event delivered to the listener: an activity change, or any other event. */
  datatype Event = ActivityStateChanged(state: ActivityState) | OtherEvent

  datatype Action = GoActive | GoIdle | Refuse(rc: int)

  /** The listener's decision for one event. */
  function ActionFor(ev: Event): (a: Action)
    ensures a == GoActive <==> ev == ActivityStateChanged(ActivityActive)
    ensures a == GoIdle <==> ev == ActivityStateChanged(ActivityIdle) || ev == ActivityStateChanged(ActivitySleep)
    ensures a == Refuse(-ENOTSUP) <==> ev == OtherEvent
    ensures a == Refuse(-EINVAL) <==> ev.ActivityStateChanged? && ev.state.ActivityUnknown?
  {
    match ev
    case OtherEvent => Refuse(-ENOTSUP)
    case ActivityStateChanged(st) =>
      match st
      case ActivityActive => GoActive
      case ActivityIdle => GoIdle
      case ActivitySleep => GoIdle
      case ActivityUnknown(_) => Refuse(-EINVAL)
  }

  /** The listener's new state and return code. */
  datatype Reaction = Reaction(state: ControllerState, rc: int)

  /** `subrating_activity_listener`: an ACTIVE event leaves the tier ACTIVE
      and the timer unarmed; IDLE and SLEEP leave it IDLE with the timer
      armed; both return 0. Any other event changes nothing and returns
      `-ENOTSUP` (not an activity event) or `-EINVAL` (unknown state). */
  function AfterEvent(cfg: Config, s: ControllerState, ev: Event, conns: seq<Conn>): (r: Reaction)
    ensures ev == ActivityStateChanged(ActivityActive) ==>
      r.rc == 0 && r.state.tier == Active && !r.state.timerArmed
    ensures ev == ActivityStateChanged(ActivityIdle) || ev == ActivityStateChanged(ActivitySleep) ==>
      r.rc == 0 && r.state.tier == Idle && r.state.timerArmed
    ensures ev == OtherEvent ==> r == Reaction(s, -ENOTSUP)
    ensures ev.ActivityStateChanged? && ev.state.ActivityUnknown? ==> r == Reaction(s, -EINVAL)
    ensures r.rc == 0 || r.state == s
  {
    match ActionFor(ev)
    case GoActive => Reaction(AfterActive(cfg, s, conns), 0)
    case GoIdle => Reaction(AfterIdle(cfg, s, conns), 0)
    case Refuse(rc) => Reaction(s, rc)
  }

  /** Every record the controller has handed to the stack passes the four checks. */
  predicate Sound(s: ControllerState) {
    && (s.defaults.Some? ==> ParamsValid(s.defaults.value))
    && forall k | 0 <= k < |s.requests| :: ParamsValid(s.requests[k].params)
  }

  /** The stack default is the current tier's record. */
  predicate Synced(cfg: Config, s: ControllerState) {
    s.defaults == Some(ParamsFor(cfg, s.tier))
  }

  /** Applying a tier hands the stack only records that pass the checks. */
  lemma SetTierSound(cfg: Config, s: ControllerState, t: Tier, conns: seq<Conn>)
    requires BuildAssertsCorrected(cfg) && Sound(s)
    ensures Sound(AfterSetTier(cfg, s, t, conns))
  {
    if t != s.tier {
      var p := ParamsFor(cfg, t);
      TableValid(cfg);
      assert ParamsValid(p);
      BroadcastTargets(conns, p);
      var b := Broadcast(conns, p);
      var r := s.requests + b;
      forall k | 0 <= k < |r| ensures ParamsValid(r[k].params) {
        if k >= |s.requests| {
          assert r[k] == b[k - |s.requests|];
        }
      }
    }
  }

  /** A second `set_tier` with the same tier changes nothing and issues no
      request, whatever connections exist then. */
  lemma SetTierIdempotent(cfg: Config, s: ControllerState, t: Tier, c1: seq<Conn>, c2: seq<Conn>)
    ensures AfterSetTier(cfg, AfterSetTier(cfg, s, t, c1), t, c2) == AfterSetTier(cfg, s, t, c1)
  {
  }

  /** Changing tier installs exactly the new tier's record as the default,
      whatever the stack replies to the per-connection requests. */
  lemma SetTierKeepsDefaults(cfg: Config, s: ControllerState, t: Tier, conns: seq<Conn>)
    requires t != s.tier
    ensures Synced(cfg, AfterSetTier(cfg, s, t, conns))
    ensures AfterSetTier(cfg, s, t, conns).requests == s.requests + Broadcast(conns, ParamsFor(cfg, t))
  {
  }

  /** A repeated activity event of the same kind issues no new request. */
  lemma RepeatedEventIsQuiet(cfg: Config, s: ControllerState, ev: Event, c1: seq<Conn>, c2: seq<Conn>)
    ensures var s1 := AfterEvent(cfg, s, ev, c1).state;
      AfterEvent(cfg, s1, ev, c2).state.requests == s1.requests
  {
  }

  /** The controller object: the module's static state, updated in place by
      the listener and the timer handler. */
  class Controller {
    const cfg: Config
    var tier: Tier
    var timerArmed: bool
    var defaults: Option<SubrateParams>
    var requests: seq<Request>

    function Snapshot(): ControllerState
      reads this
    {
      ControllerState(tier, timerArmed, defaults, requests)
    }

    ghost predicate Valid()
      reads this
    {
      BuildAssertsCorrected(cfg) && Sound(Snapshot())
    }

    /** The static initialisers; the table has passed the build-time assertions. */
    constructor (cfg: Config)
      requires BuildAssertsCorrected(cfg)
      ensures Valid() && this.cfg == cfg
      ensures Snapshot() == Boot()
    {
      this.cfg := cfg;
      tier := Idle;
      timerArmed := false;
      defaults := None;
      requests := [];
    }

    /** `zmk_sdc_subrating_init`: install the IDLE record as the default and
        return what the stack returned (`err`). */
    method Init(err: int) returns (rc: int)
      requires Valid()
      modifies this
      ensures Valid()
      ensures Snapshot() == AfterInit(cfg, old(Snapshot()))
      ensures defaults == Some(ParamsFor(cfg, Idle)) && rc == err
    {
      TableValid(cfg);
      defaults := Some(ParamsFor(cfg, Idle));
      rc := err;
    }

    /** `apply_subrate_to_conn` for the connection at position `slot`. */
    method ApplyToConn(slot: nat, c: Conn, p: SubrateParams)
      requires Valid() && ParamsValid(p)
      modifies this`requests
      ensures Valid()
      ensures requests == old(requests) + RequestsFor(slot, c, p)
    {
      if c.role == Central && c.state == Connected {
        var err := c.reply;
        requests := requests + [Request(slot, p, Classify(err))];
        assert requests[|requests| - 1].params == p;
      }
    }

    /** `bt_conn_foreach` over the LE connections with `apply_subrate_to_conn`. */
    method ApplyToAll(conns: array<Conn>, p: SubrateParams)
      requires Valid() && ParamsValid(p)
      modifies this`requests
      ensures Valid()
      ensures requests == old(requests) + Broadcast(conns[..], p)
    {
      for i := 0 to conns.Length
        invariant Valid()
        invariant requests == old(requests) + Broadcast(conns[..i], p)
      {
        assert conns[..i + 1][..i] == conns[..i];
        ApplyToConn(i, conns[i], p);
      }
      assert conns[..conns.Length] == conns[..];
    }

    /** `set_tier`. */
    method SetTier(t: Tier, conns: array<Conn>)
      requires Valid()
      modifies this
      ensures Valid()
      ensures Snapshot() == AfterSetTier(cfg, old(Snapshot()), t, conns[..])
      ensures t == old(tier) ==> Snapshot() == old(Snapshot())
      ensures t != old(tier) ==>
        && tier == t
        && defaults == Some(ParamsFor(cfg, t))
        && requests == old(requests) + Broadcast(conns[..], ParamsFor(cfg, t))
    {
      if t == tier {
        return;
      }
      TableValid(cfg);
      tier := t;
      var params := ParamsFor(cfg, t);
      defaults := Some(params);
      ApplyToAll(conns, params);
    }

    /** `subrate_active`. */
    method SubrateActive(conns: array<Conn>)
      requires Valid()
      modifies this
      ensures Valid()
      ensures Snapshot() == AfterActive(cfg, old(Snapshot()), conns[..])
      ensures tier == Active && !timerArmed
    {
      timerArmed := false;
      SetTier(Active, conns);
    }

    /** `subrate_idle`. */
    method SubrateIdle(conns: array<Conn>)
      requires Valid()
      modifies this
      ensures Valid()
      ensures Snapshot() == AfterIdle(cfg, old(Snapshot()), conns[..])
      ensures tier == Idle && timerArmed
    {
      timerArmed := false;
      SetTier(Idle, conns);
      timerArmed := true;
    }

    /** `dormant_timer_handler`, run by the work queue once the dormant work
        is due; the work is no longer pending while it runs. */
    method DormantTimerHandler(conns: array<Conn>)
      requires Valid()
      modifies this
      ensures Valid()
      ensures Snapshot() == AfterTimer(cfg, old(Snapshot()), conns[..])
      ensures tier == Dormant && !timerArmed
    {
      timerArmed := false;
      SetTier(Dormant, conns);
    }

    /** `subrating_activity_listener`. */
    method ActivityListener(ev: Event, conns: array<Conn>) returns (rc: int)
      requires Valid()
      modifies this
      ensures Valid()
      ensures Reaction(Snapshot(), rc) == AfterEvent(cfg, old(Snapshot()), ev, conns[..])
    {
      match ActionFor(ev)
      case GoActive =>
        SubrateActive(conns);
        rc := 0;
      case GoIdle =>
        SubrateIdle(conns);
        rc := 0;
      case Refuse(code) =>
        rc := code;
    }
  }
}
