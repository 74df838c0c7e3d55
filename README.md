# Subrating tier controller

A Dafny model of the connection-subrating tier controller of the ZMK
SoftDevice-controller module (`src/subrating.c`). On the central side of a
split keyboard, the controller moves every connected Bluetooth LE link on
which the keyboard is central between three parameter tiers: ACTIVE, IDLE
and DORMANT. The tier's record also becomes the stack default for links made
later; links on which the keyboard is peripheral are never asked. It follows
ZMK activity events and a single deferred "dormant" work item. Each tier is a constant
`bt_conn_le_subrate_param` record. Build-time assertions check it against the
limits of the HCI LE Subrate Request command of the Connection Subrating
feature (Bluetooth Core Specification v5.3, Vol 6, Part B, section 4.5.1):
subrate factor × (latency + 1) ≤ 500, continuation number < subrate max,
max ≥ min, and a supervision timeout long enough for a 7.5 ms interval.

The project has three modules:

- `tiers.dfy`, module `SubrateTiers`: the tier records, the four checks, the
  twelve build-time assertions over the Kconfig values (`Config`), and the
  tier-to-record switch. Each value is stored into a 16-bit field, so the
  switch keeps it modulo 2^16.
- `controller.dfy`, module `SubrateController`: the stack's connection list
  as a sequence of `(role, state, reply)` records. Here `reply` is what the
  stack would return to a subrate request on that link. The module also holds
  the request log, the pure step functions (`AfterSetTier`, `AfterActive`,
  `AfterIdle`, `AfterTimer`, `AfterEvent`, `AfterInit`) and the class
  `Controller`. The class holds the module's static state (`tier`,
  `timerArmed`, `defaults`, `requests`). Its methods do each step in place;
  the walk over the connection array is a loop. Each method is proved equal
  to the matching step function.
- `traces.dfy`, module `SubrateTraces`: runs of serialised callbacks
  (activity events and the dormant work coming due), and the properties that
  span several of them.

How the model represents the environment:

- `defaults` holds the record last handed to `bt_conn_le_subrate_set_defaults`.
  It is `None` before start-up.
- `set_tier` ignores the result of that call, so the model ignores it too.
- Start-up returns that call's result; in the model it is the parameter
  `err` of `Controller.Init`.
- Each entry of `requests` records one `bt_conn_le_subrate_request`. It holds
  the link's position in the iteration order, the record sent, and how the
  reply was treated: accepted, `-EALREADY` ignored silently, or any other
  error warned.
- The dormant work is a boolean: scheduled or not. The work queue coming due
  is an explicit input, and it runs the handler only while the work is
  scheduled.

## Model

| member | source | states |
|---|---|---|
| `SubrateTiers.TableValid` | src/subrating.c:24-85 | The twelve build-time assertions, plus the missing one (the timeout fits 16 bits), hold exactly when every value fits its field and all three stored records pass the four checks: max ≥ min, max·(latency+1) ≤ 500, cn < max, 2·timeout > 3·max·(latency+1). For ACTIVE, latency 0 reduces the span check to max ≤ 500. |
| `SubrateTiers.AssertsMissTruncation` | src/subrating.c:30 | The assertions as written accept a timeout of 65636. The stored IDLE record then has timeout 100 and fails the timeout check. |
| `SubrateTiers.AssertsBoundFields` | src/subrating.c:24-77 | The assertions as written bound every value except the timeout: min, max ≤ 500 and cn, latency < 500 for every tier. Only the timeout can be cut short when stored. |
| `SubrateTiers.ValidParamsInRange` | src/subrating.c:24-85 | A consequence of the four checks: a record that passes them has 1 ≤ max ≤ 500, min ≤ max, latency < 500, cn < 500 and 2·timeout > 3·max. These are the HCI command's ranges for those fields. |
| `SubrateTiers.U16` | src/subrating.c:33-39 | Storing a value into a `uint16_t` field gives a value below 2^16, and leaves a value that already fits unchanged. |
| `SubrateTiers.ParamsFor` | src/subrating.c:33-85 | Every tier record carries the shared supervision timeout as stored in 16 bits, and the ACTIVE record has latency 0. |
| `SubrateController.Classify` | src/subrating.c:100-103 | A reply of 0 is accepted and `-EALREADY` is ignored silently. Every other value is warned, and the warning keeps the error code. |
| `SubrateController.BroadcastTargets` | src/subrating.c:93-105 | The walk issues exactly one request to each central, connected link and none to any other. Requests follow the iteration order, and every one carries the tier's record and the stack's reply for that link. |
| `SubrateController.BroadcastIgnoresReplies` | src/subrating.c:100-104 | A failed request does not stop the walk: which links are asked, and with what record, does not depend on the stack's replies. |
| `SubrateController.AfterSetTier` | src/subrating.c:107-140 | `set_tier(t)` always leaves the tier at `t` and the dormant work untouched. It only ever appends to the request log. |
| `SubrateController.SetTierIdempotent` | src/subrating.c:107-110 | A second `set_tier` with the same tier changes nothing and issues no request, whatever connections exist then. |
| `SubrateController.SetTierKeepsDefaults` | src/subrating.c:112-139 | After a real tier change, the stack default is exactly the new tier's record, whatever the per-link replies. The log grows by exactly the broadcast of that record. |
| `SubrateController.SetTierSound` | src/subrating.c:112-139 | Given a table that passed the corrected build-time assertions, a tier change hands the stack only records that pass the four checks. This holds for both the default and every request. |
| `SubrateController.RepeatedEventIsQuiet` | src/subrating.c:146-155 | Delivering the same activity event twice issues no request the second time. |
| `SubrateController.ActionFor` | src/subrating.c:157-176 | ACTIVE maps to going active, and IDLE or SLEEP map to going idle. A non-activity event is refused with `-ENOTSUP`, and an unknown activity state with `-EINVAL`. Each case holds in both directions. |
| `SubrateController.AfterEvent` | src/subrating.c:157-176 | ACTIVE leaves the tier ACTIVE with the dormant work cancelled and returns 0. IDLE or SLEEP leave the tier IDLE with the work scheduled and return 0. A non-activity event returns `-ENOTSUP` and an unknown state returns `-EINVAL`, both with the state unchanged. |
| `SubrateController.Controller.constructor` | src/subrating.c:87-91 | The controller starts in tier IDLE, with the dormant work not scheduled, no defaults installed and no requests. |
| `SubrateController.Controller.Init` | src/subrating.c:181-194 | Start-up installs the IDLE record as the stack default and returns the stack's result. Nothing else changes. |
| `SubrateController.Controller.ApplyToConn` | src/subrating.c:93-105 | Visiting one link appends one request exactly when the link is central and connected. Given a record that passes the checks, every record handed over still passes them. |
| `SubrateController.Controller.ApplyToAll` | src/subrating.c:139 | The loop over the connection array appends exactly `Broadcast` of the record to the log, and keeps every handed record passing the checks. |
| `SubrateController.Controller.SetTier` | src/subrating.c:107-140 | Equal tier: the state is unchanged. New tier: the tier is `t`, the default is `t`'s record, and the log gains that record's broadcast. Every record handed over passes the checks. |
| `SubrateController.Controller.SubrateActive` | src/subrating.c:146-149 | The dormant work is cancelled and the tier becomes ACTIVE, through `set_tier`. |
| `SubrateController.Controller.SubrateIdle` | src/subrating.c:151-155 | The dormant work is cancelled, the tier becomes IDLE, and then the work is scheduled again. |
| `SubrateController.Controller.DormantTimerHandler` | src/subrating.c:142-144 | The handler leaves the tier DORMANT with the work no longer pending. |
| `SubrateController.Controller.ActivityListener` | src/subrating.c:157-176 | The new state and the return code are those of `AfterEvent`. |
| `SubrateTraces.ActiveIsQuiescent` | src/subrating.c:146-149 | Once the tier is ACTIVE with the work cancelled, nothing changes and no request is issued until an IDLE or SLEEP event arrives. This covers refused events and any due-time of the cancelled work. |
| `SubrateTraces.IdleThenActiveNeverDormant` | src/subrating.c:142-155 | After IDLE the tier is IDLE with the work scheduled. An ACTIVE event before the work runs means DORMANT is never reached: at every later point without another IDLE or SLEEP event, the tier is ACTIVE and the state is unchanged. |
| `SubrateTraces.RefusedAreInert` | src/subrating.c:157-173 | Any run of refused events leaves the state exactly as it was. |
| `SubrateTraces.IdleThenDueIsDormant` | src/subrating.c:142-155 | An IDLE event, then only refused events, then the work coming due leaves the controller DORMANT. The work is no longer pending, the default is the DORMANT record, and that record is broadcast once. |
| `SubrateTraces.RunSound` | src/subrating.c:107-176 | Given a table that passes the corrected assertions, every record any run hands to the stack passes the four checks. |
| `SubrateTraces.RunSynced` | src/subrating.c:112-138 | Once the default is the current tier's record, every run keeps it so. |
| `SubrateTraces.StartUp` | src/subrating.c:181-186 | The controller starts IDLE with the work unscheduled. Start-up makes the IDLE record, which passes the checks, the stack default, matching the tier. |
| `SubrateTraces.Scenario` | src/subrating.c:142-176 | From start-up, the run ACTIVE, IDLE, due, IDLE, ACTIVE, due broadcasts ACTIVE, IDLE, DORMANT, IDLE, ACTIVE once each. The last due-time finds the work cancelled, so the run ends ACTIVE with the ACTIVE default. |

## Left out

- Logging (`LOG_*`), the tier names and the start-up summary line: they only produce output.
- `subrate_changed_cb`, `phy_to_str`, `phy_updated_cb` and the `BT_CONN_CB_DEFINE` registration: they only format and log, and never touch the controller's state.
- The Bluetooth stack itself: `bt_conn_get_info`, `bt_conn_le_subrate_request`, `bt_conn_le_subrate_set_defaults` and `bt_conn_foreach` are foreign code. The connection list (already limited to LE links) and the replies are inputs. Whether the stack actually adopted a default is not modelled.
- The Zephyr work queue: no wall-clock time and no dormant delay value. Re-scheduling after a cancel does restart the delay, but a boolean cannot show that. The race between cancelling and a handler already running is also not modelled: the work queue serialises callbacks, so every step is atomic.
- The `default: return;` arm of the switch in `set_tier`: the enum has only three values, so it cannot be reached.
- Integer widths: the build-time assertions are evaluated in C integer arithmetic on the unstored values, modelled as unbounded naturals. Storing into the 16-bit record fields is modelled (`U16`); the consequence is under "## Findings".
- Kconfig ranges and the Core Specification's lower bounds on Subrate_Min (≥ 1) and on the supervision timeout: `src/subrating.c` does not check them, and the Kconfig files are not part of this model.
- Start-up order: `SYS_INIT` runs start-up before any activity event. The model does not enforce that order, so `RunSynced` assumes start-up has already happened.
- The `#if` role gating and the `ZMK_LISTENER`/`ZMK_SUBSCRIPTION`/`SYS_INIT` registration macros: the model is the central-role build.
- `SetTierSound`, `RunSound`, `StartUp` and the `Controller` invariant assume the corrected assertions (`BuildAssertsCorrected`: the timeout is below 65536). The assertions as written do not guarantee this; `AssertsMissTruncation` shows a configuration they accept whose stored IDLE record fails the timeout check.
- The numeric values of `EINVAL`, `EALREADY` and `ENOTSUP` are Zephyr's C library values. `errno.h` is not part of this model, and only their distinctness and sign matter.

## Findings

| source | as written | input that shows it | evidently intended | confidence | as-written member | corrected member |
|---|---|---|---|---|---|---|
| src/subrating.c:30 | The timeout assertions at lines 30, 53 and 76 check `SUBRATE_TIMEOUT` before it is stored into the 16-bit `supervision_timeout` field at lines 38, 61 and 84. A timeout of 65536 or more passes them and is then stored modulo 2^16. | `SUBRATE_TIMEOUT` = 65636, IDLE max 100 with latency 0 (ACTIVE and DORMANT 1-1, cn 0): the assertions hold, the stored timeout is 100, and 2·100 > 3·100 fails. | The stored record passes the timeout check, that is, the timeout also fits 16 bits. A Kconfig range on the timeout, not part of this model, may already ensure it. | low; not executed | `SubrateTiers.AssertsMissTruncation` | `SubrateTiers.TableValid` |
