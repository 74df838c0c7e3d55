/** The subrating tier table: three constant parameter records and the
    build-time checks that guard them. The checks are the limits of the
    HCI LE Subrate Request command of the Connection Subrating feature
    (Bluetooth Core Specification v5.3, Vol 6, Part B, section 4.5.1),
    evaluated for the shortest possible connection interval of 7.5 ms. */
module SubrateTiers {

  /** The three operating points of the controller. */
  datatype Tier = Active | Idle | Dormant

  /** The parameter record handed to the stack (`struct bt_conn_le_subrate_param`). */
  datatype SubrateParams = SubrateParams(
    subrateMin: nat,
    subrateMax: nat,
    maxLatency: nat,
    continuationNumber: nat,
    supervisionTimeout: nat)

  /** Bound on subrate factor × (peripheral latency + 1). */
  const MaxSubrateSpan: nat := 500

  /** The number of underlying connection intervals between two mandatory
      wake-ups in the worst case: subrate factor × (latency + 1). */
  function Span(p: SubrateParams): nat {
    p.subrateMax * (p.maxLatency + 1)
  }

  /** The four checks that every tier's record must pass. The last one says
      the supervision timeout (in 10 ms units) exceeds twice the longest gap
      between wake-ups at a 7.5 ms connection interval: 10·T > 2·7.5·Span. */
  predicate ParamsValid(p: SubrateParams) {
    && p.subrateMax >= p.subrateMin
    && Span(p) <= MaxSubrateSpan
    && p.continuationNumber < p.subrateMax
    && p.supervisionTimeout * 2 > 3 * Span(p)
  }

  /** The build-time configuration: the Kconfig values the table is made of. */
  datatype Config = Config(
    timeout: nat,
    activeMin: nat, activeMax: nat, activeCn: nat,
    idleMin: nat, idleMax: nat, idleCn: nat, idleMaxLatency: nat,
    dormantMin: nat, dormantMax: nat, dormantCn: nat, dormantMaxLatency: nat)

  /** The twelve build-time assertions, each as written for its tier. The
      ACTIVE tier has latency 0, so its span check is written `max <= 500`. */
  predicate BuildAsserts(c: Config) {
    // ACTIVE tier
    && c.activeMax >= c.activeMin
    && c.activeMax <= 500
    && c.activeCn < c.activeMax
    && c.timeout * 2 > 3 * c.activeMax
    // IDLE tier
    && c.idleMax >= c.idleMin
    && c.idleMax * (c.idleMaxLatency + 1) <= 500
    && c.idleCn < c.idleMax
    && c.timeout * 2 > 3 * c.idleMax * (c.idleMaxLatency + 1)
    // DORMANT tier
    && c.dormantMax >= c.dormantMin
    && c.dormantMax * (c.dormantMaxLatency + 1) <= 500
    && c.dormantCn < c.dormantMax
    && c.timeout * 2 > 3 * c.dormantMax * (c.dormantMaxLatency + 1)
  }

  /** Every field of `struct bt_conn_le_subrate_param` is a `uint16_t`:
      storing a configuration value keeps it modulo 2^16. */
  const U16Modulus: nat := 0x1_0000

  function U16(x: nat): (r: nat)
    ensures r < U16Modulus
    ensures x < U16Modulus ==> r == x
  {
    x % U16Modulus
  }

  /** The tier-to-record switch: `active_params`, `idle_params`,
      `dormant_params`, each value stored into its 16-bit field. */
  function ParamsFor(c: Config, t: Tier): (p: SubrateParams)
    ensures p.supervisionTimeout == U16(c.timeout)
    ensures t == Active ==> p.maxLatency == 0
  {
    match t
    case Active =>
      SubrateParams(U16(c.activeMin), U16(c.activeMax), 0, U16(c.activeCn), U16(c.timeout))
    case Idle =>
      SubrateParams(U16(c.idleMin), U16(c.idleMax), U16(c.idleMaxLatency), U16(c.idleCn), U16(c.timeout))
    case Dormant =>
      SubrateParams(U16(c.dormantMin), U16(c.dormantMax), U16(c.dormantMaxLatency), U16(c.dormantCn), U16(c.timeout))
  }

  /** Every configuration value fits the 16-bit field it is stored in. */
  predicate FieldsFit(c: Config) {
    && c.timeout < U16Modulus
    && c.activeMin < U16Modulus && c.activeMax < U16Modulus && c.activeCn < U16Modulus
    && c.idleMin < U16Modulus && c.idleMax < U16Modulus && c.idleCn < U16Modulus
    && c.idleMaxLatency < U16Modulus
    && c.dormantMin < U16Modulus && c.dormantMax < U16Modulus && c.dormantCn < U16Modulus
    && c.dormantMaxLatency < U16Modulus
  }

  /** The build-time assertions as written check the configuration values
      before they are stored, so they let through a supervision timeout that
      does not fit its 16-bit field; the stored record then fails the
      timeout check. */
  lemma AssertsMissTruncation()
    ensures var c := Config(65636, 1, 1, 0, 1, 100, 0, 0, 1, 1, 0, 0);
      && BuildAsserts(c)
      && ParamsFor(c, Idle).supervisionTimeout == 100
      && !ParamsValid(ParamsFor(c, Idle))
  {
    var c := Config(65636, 1, 1, 0, 1, 100, 0, 0, 1, 1, 0, 0);
    assert 65636 % U16Modulus == 100;
    assert Span(ParamsFor(c, Idle)) == 100;
  }

  /** The build-time assertions, with the one that is missing: the supervision
      timeout fits its 16-bit field. */
  predicate BuildAssertsCorrected(c: Config) {
    BuildAsserts(c) && c.timeout < U16Modulus
  }

  /** x ≤ x·(y + 1): used to bound both factors of a span. */
  lemma MulGrows(x: nat, y: nat)
    ensures x <= x * (y + 1)
  {
    assert x * (y + 1) == x * y + x;
  }

  /** If m·(l + 1) ≤ 500 with m ≥ 1, then l < 500. */
  lemma LatencyBound(m: nat, l: nat)
    requires 1 <= m && m * (l + 1) <= MaxSubrateSpan
    ensures l < MaxSubrateSpan
  {
    MulGrows(l + 1, m - 1);
    assert (l + 1) * m == m * (l + 1);
  }

  /** The build-time assertions bound every value except the supervision
      timeout by 500, so only the timeout can be cut short when stored. */
  lemma AssertsBoundFields(c: Config)
    requires BuildAsserts(c)
    ensures c.activeMin <= 500 && c.activeMax <= 500 && c.activeCn < 500
    ensures c.idleMin <= 500 && c.idleMax <= 500 && c.idleCn < 500 && c.idleMaxLatency < 500
    ensures c.dormantMin <= 500 && c.dormantMax <= 500 && c.dormantCn < 500 && c.dormantMaxLatency < 500
  {
    LatencyBound(c.idleMax, c.idleMaxLatency);
    LatencyBound(c.dormantMax, c.dormantMaxLatency);
    MulGrows(c.idleMax, c.idleMaxLatency);
    MulGrows(c.dormantMax, c.dormantMaxLatency);
  }

  /** With the missing assertion added, the build-time assertions pass exactly
      when every value fits its field and every tier's stored record passes
      the four checks: the table that links into an image is valid, and a
      valid table always passes the assertions. */
  lemma TableValid(c: Config)
    ensures BuildAssertsCorrected(c) <==> FieldsFit(c) && forall t: Tier :: ParamsValid(ParamsFor(c, t))
  {
    if BuildAsserts(c) {
      AssertsBoundFields(c);
    }
    if FieldsFit(c) {
      var a, i, d := ParamsFor(c, Active), ParamsFor(c, Idle), ParamsFor(c, Dormant);
      assert a == SubrateParams(c.activeMin, c.activeMax, 0, c.activeCn, c.timeout);
      assert i == SubrateParams(c.idleMin, c.idleMax, c.idleMaxLatency, c.idleCn, c.timeout);
      assert d == SubrateParams(c.dormantMin, c.dormantMax, c.dormantMaxLatency, c.dormantCn, c.timeout);
      assert Span(a) == c.activeMax;
      assert 3 * Span(i) == 3 * c.idleMax * (c.idleMaxLatency + 1);
      assert 3 * Span(d) == 3 * c.dormantMax * (c.dormantMaxLatency + 1);
      if BuildAsserts(c) {
        forall t: Tier ensures ParamsValid(ParamsFor(c, t)) {
          match t
          case Active =>
          case Idle =>
          case Dormant =>
        }
      }
      if forall t: Tier :: ParamsValid(ParamsFor(c, t)) {
        assert ParamsValid(a) && ParamsValid(i) && ParamsValid(d);
      }
    }
  }

  /** A record that passes the four checks lies inside the ranges the HCI LE
      Subrate Request command accepts for Subrate_Max (1..500), Max_Latency
      (0..499) and Continuation_Number (0..499), and its supervision timeout
      exceeds 1.5 × Subrate_Max. */
  lemma ValidParamsInRange(p: SubrateParams)
    requires ParamsValid(p)
    ensures 1 <= p.subrateMax <= MaxSubrateSpan
    ensures p.subrateMin <= p.subrateMax
    ensures p.maxLatency < MaxSubrateSpan
    ensures p.continuationNumber < MaxSubrateSpan
    ensures 2 * p.supervisionTimeout > 3 * p.subrateMax
  {
    MulGrows(p.subrateMax, p.maxLatency);
    LatencyBound(p.subrateMax, p.maxLatency);
  }
}
