/**
 * The power-action loop at the end of uhubctl 1.5's `main`: for every hub of
 * the catalog, an optional "off" phase (ClearPortFeature(PORT_POWER)) and an
 * optional "on" phase (SetPortFeature(PORT_POWER)), each visiting ports
 * 1..nports that the port mask selects, skipping ports whose power bit is
 * already in the target state and repeating an "off" request `opt_repeat`
 * times when the port shows more than its power bit.
 *
 * The control transfers the loop sends are its output. What `libusb_open`
 * and `get_port_status` return are inputs: `canOpen(i)` says whether hub `i`
 * could be opened, and `status(i, k, port)` is the wPortStatus word read for
 * `port` of hub `i` in phase `k` (0 = off, 1 = on), so a status that changed
 * between the phases is covered. USB 2.0 section 11.24.2 gives the requests:
 * bmRequestType 0x23 (class, recipient "other" = port), CLEAR_FEATURE 1,
 * SET_FEATURE 3, feature selector PORT_POWER 8 (Table 11-17), wIndex the
 * port; PORT_POWER is bit 8 (0x0100) of wPortStatus (Table 11-21).
 */
module PowerControl {
  import opened UsbHub
  import opened HubOptions
  import opened HubCatalog

  const USB_PORT_STAT_POWER: bv16 := 0x0100
  /** USB_PORT_FEAT_POWER = 1 << 3. */
  const USB_PORT_FEAT_POWER: Word := 8
  const LIBUSB_REQUEST_CLEAR_FEATURE: Byte := 1
  const LIBUSB_REQUEST_SET_FEATURE: Byte := 3
  /** LIBUSB_REQUEST_TYPE_CLASS | LIBUSB_RECIPIENT_OTHER. */
  const PORT_REQUEST_TYPE: Byte := 0x23

  /** One `libusb_control_transfer` call of the loop; `hub` is the index of
      the hub in `hubs[]`. */
  datatype Transfer = Transfer(hub: nat, requestType: Byte, request: Byte, value: Word, index: nat)

  /** The phases: k = 0 sends "off", k = 1 sends "on". */
  function RequestOf(k: nat): Byte {
    if k == 0 then LIBUSB_REQUEST_CLEAR_FEATURE else LIBUSB_REQUEST_SET_FEATURE
  }

  function PortTransfer(i: nat, k: nat, port: nat): Transfer {
    Transfer(i, PORT_REQUEST_TYPE, RequestOf(k), USB_PORT_FEAT_POWER, port)
  }

  /** `(1 << (port-1)) & ports`. */
  predicate Selected(ports: Mask, port: nat) {
    1 <= port && port - 1 in ports
  }

  /** Every hub's port count allows the shifts of the loop. */
  predicate PortCountsFit(hubs: seq<HubInfo>) {
    forall j :: 0 <= j < |hubs| ==> 0 <= hubs[j].nports < 31
  }

  /** Phase `k` runs for `action`: never for POWER_KEEP, the off phase not
      for POWER_ON, the on phase not for POWER_OFF. */
  predicate PhaseRuns(action: Action, k: nat) {
    action != POWER_KEEP && !(k == 0 && action == POWER_ON) && !(k == 1 && action == POWER_OFF)
  }

  predicate Powered(st: bv16) {
    st & USB_PORT_STAT_POWER != 0
  }

  /** A port needs a request unless its power bit already has the target value. */
  predicate NeedsRequest(k: nat, st: bv16) {
    if k == 0 then Powered(st) else !Powered(st)
  }

  /** How often one port's request is sent: `opt_repeat` times (none when it
      is not positive) for an off request, once for an on request, and once
      whenever the status has no bit besides the power bit. */
  function RepeatCount(k: nat, st: bv16, optRepeat: int): nat {
    if st & !USB_PORT_STAT_POWER == 0 then 1
    else if k == 0 then (if optRepeat > 0 then optRepeat else 0)
    else 1
  }

  /** `n` copies of `t`. */
  function Copies(t: Transfer, n: nat): seq<Transfer> {
    seq(n, _ => t)
  }

  // ---------------------------------------------------------------- the plan

  /** The requests for one port in phase `k`. */
  function PortPlan(i: nat, k: nat, port: nat, ports: Mask, status: (nat, nat, nat) -> bv16, optRepeat: int): seq<Transfer> {
    var st := status(i, k, port);
    if Selected(ports, port) && NeedsRequest(k, st) then Copies(PortTransfer(i, k, port), RepeatCount(k, st, optRepeat))
    else []
  }

  /** The requests for ports 1..n in phase `k`. */
  function PhasePlan(i: nat, k: nat, n: nat, ports: Mask, status: (nat, nat, nat) -> bv16, optRepeat: int): seq<Transfer> {
    if n == 0 then [] else PhasePlan(i, k, n - 1, ports, status, optRepeat) + PortPlan(i, k, n, ports, status, optRepeat)
  }

  /** The ports the loop operates on: `((1 << nports) - 1) & opt_ports`. */
  function AffectedPorts(h: HubInfo, optPorts: Mask): Mask
    requires 0 <= h.nports < 31
  {
    LowMask(h.nports) * optPorts
  }

  /** The requests of the first `k` phases for hub `i`. */
  function PhasesPlan(i: nat, h: HubInfo, k: nat, action: Action, optPorts: Mask,
                      status: (nat, nat, nat) -> bv16, optRepeat: int): seq<Transfer>
    requires 0 <= h.nports < 31
  {
    if k == 0 then []
    else
      PhasesPlan(i, h, k - 1, action, optPorts, status, optRepeat) +
      (if PhaseRuns(action, k - 1) then PhasePlan(i, k - 1, h.nports, AffectedPorts(h, optPorts), status, optRepeat) else [])
  }

  /** Both phases: the off requests (when that phase runs), then the on
      requests. */
  lemma PhasesPlanTwo(i: nat, h: HubInfo, action: Action, optPorts: Mask,
                      status: (nat, nat, nat) -> bv16, optRepeat: int)
    requires 0 <= h.nports < 31
    ensures PhasesPlan(i, h, 2, action, optPorts, status, optRepeat) ==
      (if PhaseRuns(action, 0) then PhasePlan(i, 0, h.nports, AffectedPorts(h, optPorts), status, optRepeat) else []) +
      (if PhaseRuns(action, 1) then PhasePlan(i, 1, h.nports, AffectedPorts(h, optPorts), status, optRepeat) else [])
  {
    var off := if PhaseRuns(action, 0) then PhasePlan(i, 0, h.nports, AffectedPorts(h, optPorts), status, optRepeat) else [];
    assert PhasesPlan(i, h, 1, action, optPorts, status, optRepeat) == [] + off == off;
  }

  /** The requests for hub `i`: none for POWER_KEEP or when it cannot be opened. */
  function HubPlan(i: nat, h: HubInfo, canOpen: nat -> bool, action: Action, optPorts: Mask,
                   status: (nat, nat, nat) -> bv16, optRepeat: int): seq<Transfer>
    requires 0 <= h.nports < 31
  {
    if action == POWER_KEEP || !canOpen(i) then [] else PhasesPlan(i, h, 2, action, optPorts, status, optRepeat)
  }

  /** The requests for the first `m` hubs. */
  function Plan(hubs: seq<HubInfo>, m: nat, canOpen: nat -> bool, action: Action, optPorts: Mask,
                status: (nat, nat, nat) -> bv16, optRepeat: int): seq<Transfer>
    requires m <= |hubs| && PortCountsFit(hubs)
  {
    if m == 0 then []
    else Plan(hubs, m - 1, canOpen, action, optPorts, status, optRepeat) + HubPlan(m - 1, hubs[m - 1], canOpen, action, optPorts, status, optRepeat)
  }

  /** The warning about changing several hubs at once. */
  predicate MultiHubWarning(hubCount: nat, action: Action) {
    hubCount > 1 && action >= 0
  }

  // ---------------------------------------------------------------- reference

  /**
   * Reference definition, free of any order: how many times the loop sends
   * the transfer `t`. Only port-power requests with the loop's request type
   * and feature are sent; a ClearPortFeature belongs to the off phase and a
   * SetPortFeature to the on phase; the hub must exist, be opened and have
   * the phase run; the port must be in 1..nports and in the mask, and have
   * its power bit differ from the target.
   */
  function ExpectedCount(hubs: seq<HubInfo>, canOpen: nat -> bool, action: Action, optPorts: Mask,
                         status: (nat, nat, nat) -> bv16, optRepeat: int, t: Transfer): nat
    requires PortCountsFit(hubs)
  {
    if t.hub < |hubs| && t.requestType == PORT_REQUEST_TYPE && t.value == USB_PORT_FEAT_POWER &&
       (t.request == LIBUSB_REQUEST_CLEAR_FEATURE || t.request == LIBUSB_REQUEST_SET_FEATURE)
    then
      var k := if t.request == LIBUSB_REQUEST_CLEAR_FEATURE then 0 else 1;
      var h := hubs[t.hub];
      var st := status(t.hub, k, t.index);
      if canOpen(t.hub) && PhaseRuns(action, k) && 1 <= t.index <= h.nports &&
         Selected(AffectedPorts(h, optPorts), t.index) && NeedsRequest(k, st)
      then RepeatCount(k, st, optRepeat)
      else 0
    else 0
  }

  lemma {:induction false} CopiesCount(t: Transfer, n: nat, u: Transfer)
    ensures multiset(Copies(t, n))[u] == if u == t then n else 0
  {
    if n > 0 {
      CopiesCount(t, n - 1, u);
      assert Copies(t, n) == Copies(t, n - 1) + [t];
    }
  }

  /** The count of a transfer among the first `n` ports of hub `i`'s phase `k`. */
  function PhaseCount(i: nat, k: nat, n: nat, ports: Mask, status: (nat, nat, nat) -> bv16, optRepeat: int, t: Transfer): nat {
    if t.hub == i && t.requestType == PORT_REQUEST_TYPE && t.request == RequestOf(k) &&
       t.value == USB_PORT_FEAT_POWER && 1 <= t.index <= n &&
       Selected(ports, t.index) && NeedsRequest(k, status(i, k, t.index))
    then RepeatCount(k, status(i, k, t.index), optRepeat)
    else 0
  }

  /** One port's requests: the count of `t` when `t` is for this port. */
  lemma PortPlanCount(i: nat, k: nat, port: nat, ports: Mask, status: (nat, nat, nat) -> bv16, optRepeat: int, t: Transfer)
    requires 1 <= port
    ensures multiset(PortPlan(i, k, port, ports, status, optRepeat))[t] ==
      if t.index == port then PhaseCount(i, k, port, ports, status, optRepeat, t) else 0
  {
    var st := status(i, k, port);
    if Selected(ports, port) && NeedsRequest(k, st) {
      CopiesCount(PortTransfer(i, k, port), RepeatCount(k, st, optRepeat), t);
    }
  }

  lemma {:induction false} PhasePlanCount(i: nat, k: nat, n: nat, ports: Mask, status: (nat, nat, nat) -> bv16, optRepeat: int, t: Transfer)
    ensures multiset(PhasePlan(i, k, n, ports, status, optRepeat))[t] == PhaseCount(i, k, n, ports, status, optRepeat, t)
    decreases n
  {
    if n > 0 {
      var j: nat := n - 1;
      var prev := PhasePlan(i, k, j, ports, status, optRepeat);
      var last := PortPlan(i, k, n, ports, status, optRepeat);
      PhasePlanCount(i, k, j, ports, status, optRepeat, t);
      PortPlanCount(i, k, n, ports, status, optRepeat, t);
      assert PhasePlan(i, k, n, ports, status, optRepeat) == prev + last;
      assert multiset(prev + last)[t] == multiset(prev)[t] + multiset(last)[t];
    }
  }

  lemma HubPlanCount(i: nat, h: HubInfo, canOpen: nat -> bool, action: Action, optPorts: Mask,
                     status: (nat, nat, nat) -> bv16, optRepeat: int, t: Transfer)
    requires 0 <= h.nports < 31
    ensures multiset(HubPlan(i, h, canOpen, action, optPorts, status, optRepeat))[t] ==
      if action == POWER_KEEP || !canOpen(i) then 0
      else
        (if PhaseRuns(action, 0) then PhaseCount(i, 0, h.nports, AffectedPorts(h, optPorts), status, optRepeat, t) else 0) +
        (if PhaseRuns(action, 1) then PhaseCount(i, 1, h.nports, AffectedPorts(h, optPorts), status, optRepeat, t) else 0)
  {
    var ports := AffectedPorts(h, optPorts);
    PhasePlanCount(i, 0, h.nports, ports, status, optRepeat, t);
    PhasePlanCount(i, 1, h.nports, ports, status, optRepeat, t);
    PhasesPlanTwo(i, h, action, optPorts, status, optRepeat);
  }

  /** Hub `i`'s requests are the reference count of the transfers that
      address it. */
  lemma HubCountIsExpected(hubs: seq<HubInfo>, i: nat, canOpen: nat -> bool, action: Action, optPorts: Mask,
                           status: (nat, nat, nat) -> bv16, optRepeat: int, t: Transfer)
    requires i < |hubs| && PortCountsFit(hubs)
    ensures multiset(HubPlan(i, hubs[i], canOpen, action, optPorts, status, optRepeat))[t] ==
      if t.hub == i then ExpectedCount(hubs, canOpen, action, optPorts, status, optRepeat, t) else 0
  {
    HubPlanCount(i, hubs[i], canOpen, action, optPorts, status, optRepeat, t);
    var ports := AffectedPorts(hubs[i], optPorts);
    if t.request == LIBUSB_REQUEST_CLEAR_FEATURE {
      assert PhaseCount(i, 1, hubs[i].nports, ports, status, optRepeat, t) == 0;
    } else {
      assert PhaseCount(i, 0, hubs[i].nports, ports, status, optRepeat, t) == 0;
    }
  }

  /** The transfers the plan holds for the first `m` hubs. */
  lemma {:induction false} PlanCountPrefix(hubs: seq<HubInfo>, m: nat, canOpen: nat -> bool, action: Action, optPorts: Mask,
                                           status: (nat, nat, nat) -> bv16, optRepeat: int, t: Transfer)
    requires m <= |hubs| && PortCountsFit(hubs)
    ensures multiset(Plan(hubs, m, canOpen, action, optPorts, status, optRepeat))[t] ==
      if t.hub < m then ExpectedCount(hubs, canOpen, action, optPorts, status, optRepeat, t) else 0
    decreases m
  {
    if m > 0 {
      var j: nat := m - 1;
      var prev := Plan(hubs, j, canOpen, action, optPorts, status, optRepeat);
      var last := HubPlan(j, hubs[j], canOpen, action, optPorts, status, optRepeat);
      assert Plan(hubs, m, canOpen, action, optPorts, status, optRepeat) == prev + last;
      PlanCountPrefix(hubs, j, canOpen, action, optPorts, status, optRepeat, t);
      HubCountIsExpected(hubs, j, canOpen, action, optPorts, status, optRepeat, t);
      CountStep(prev, last, j, t, ExpectedCount(hubs, canOpen, action, optPorts, status, optRepeat, t));
    }
  }

  /** Appending hub `j`'s requests to those of the hubs before it. */
  lemma CountStep(prev: seq<Transfer>, last: seq<Transfer>, j: nat, t: Transfer, e: nat)
    requires multiset(prev)[t] == if t.hub < j then e else 0
    requires multiset(last)[t] == if t.hub == j then e else 0
    ensures multiset(prev + last)[t] == if t.hub < j + 1 then e else 0
  {
    assert multiset(prev + last) == multiset(prev) + multiset(last);
  }

  /** The plan sends each transfer exactly as often as the reference says:
      the plan is the reference count, laid out in some order. */
  lemma PlanCount(hubs: seq<HubInfo>, canOpen: nat -> bool, action: Action, optPorts: Mask,
                  status: (nat, nat, nat) -> bv16, optRepeat: int, t: Transfer)
    requires PortCountsFit(hubs)
    ensures multiset(Plan(hubs, |hubs|, canOpen, action, optPorts, status, optRepeat))[t] ==
      ExpectedCount(hubs, canOpen, action, optPorts, status, optRepeat, t)
  {
    PlanCountPrefix(hubs, |hubs|, canOpen, action, optPorts, status, optRepeat, t);
  }

  /** What the count implies about the requests sent: nothing at all for
      POWER_KEEP, no "on" request for POWER_OFF, no "off" request for
      POWER_ON; every request addresses a selected port of a hub that could be opened. */
  lemma PlanRequests(hubs: seq<HubInfo>, canOpen: nat -> bool, action: Action, optPorts: Mask,
                     status: (nat, nat, nat) -> bv16, optRepeat: int)
    requires PortCountsFit(hubs)
    ensures var plan := Plan(hubs, |hubs|, canOpen, action, optPorts, status, optRepeat);
      (action == POWER_KEEP ==> plan == []) &&
      forall t :: t in plan ==>
        t.hub < |hubs| && canOpen(t.hub) && t.requestType == PORT_REQUEST_TYPE && t.value == USB_PORT_FEAT_POWER &&
        1 <= t.index <= hubs[t.hub].nports && Selected(optPorts, t.index) &&
        (t.request == LIBUSB_REQUEST_CLEAR_FEATURE ==> action != POWER_ON && Powered(status(t.hub, 0, t.index))) &&
        (t.request == LIBUSB_REQUEST_SET_FEATURE ==> action != POWER_OFF && !Powered(status(t.hub, 1, t.index))) &&
        (t.request == LIBUSB_REQUEST_CLEAR_FEATURE || t.request == LIBUSB_REQUEST_SET_FEATURE)
  {
    var plan := Plan(hubs, |hubs|, canOpen, action, optPorts, status, optRepeat);
    forall t | t in plan
      ensures t.hub < |hubs| && canOpen(t.hub) && t.requestType == PORT_REQUEST_TYPE && t.value == USB_PORT_FEAT_POWER
      ensures 1 <= t.index <= hubs[t.hub].nports && Selected(optPorts, t.index)
      ensures t.request == LIBUSB_REQUEST_CLEAR_FEATURE ==> action != POWER_ON && Powered(status(t.hub, 0, t.index))
      ensures t.request == LIBUSB_REQUEST_SET_FEATURE ==> action != POWER_OFF && !Powered(status(t.hub, 1, t.index))
      ensures t.request == LIBUSB_REQUEST_CLEAR_FEATURE || t.request == LIBUSB_REQUEST_SET_FEATURE
    {
      PlanCount(hubs, canOpen, action, optPorts, status, optRepeat, t);
      assert multiset(plan)[t] > 0;
    }
    if action == POWER_KEEP && plan != [] {
      PlanCount(hubs, canOpen, action, optPorts, status, optRepeat, plan[0]);
    }
  }

  // ---------------------------------------------------------------- order

  /** The position of a request in the loop's order: hub, then phase, then port. */
  function Rank(t: Transfer): nat {
    t.hub * 64 + (if t.request == LIBUSB_REQUEST_CLEAR_FEATURE then 0 else 32) + t.index
  }

  predicate Ordered(s: seq<Transfer>) {
    forall a, b :: 0 <= a < b < |s| ==> Rank(s[a]) <= Rank(s[b])
  }

  predicate RanksWithin(s: seq<Transfer>, lo: nat, hi: nat) {
    forall a :: 0 <= a < |s| ==> lo <= Rank(s[a]) <= hi
  }

  lemma OrderedConcat(s: seq<Transfer>, u: seq<Transfer>, mid: nat)
    requires Ordered(s) && Ordered(u)
    requires forall a :: 0 <= a < |s| ==> Rank(s[a]) <= mid
    requires forall a :: 0 <= a < |u| ==> mid <= Rank(u[a])
    ensures Ordered(s + u)
  {
    var w := s + u;
    forall a, b | 0 <= a < b < |w|
      ensures Rank(w[a]) <= Rank(w[b])
    {
      if b < |s| {
        assert w[a] == s[a] && w[b] == s[b];
      } else if a >= |s| {
        assert w[a] == u[a - |s|] && w[b] == u[b - |s|];
      } else {
        assert w[a] == s[a] && w[b] == u[b - |s|];
      }
    }
  }

  lemma RanksWithinConcat(s: seq<Transfer>, u: seq<Transfer>, lo: nat, hi: nat)
    requires RanksWithin(s, lo, hi) && RanksWithin(u, lo, hi)
    ensures RanksWithin(s + u, lo, hi)
  {
    var w := s + u;
    forall a | 0 <= a < |w|
      ensures lo <= Rank(w[a]) <= hi
    {
      if a < |s| {
        assert w[a] == s[a];
      } else {
        assert w[a] == u[a - |s|];
      }
    }
  }

  /** One port's requests all have the rank of that port. */
  lemma PortPlanRanks(i: nat, k: nat, port: nat, ports: Mask, status: (nat, nat, nat) -> bv16, optRepeat: int)
    requires k < 2 && 1 <= port
    ensures var p := PortPlan(i, k, port, ports, status, optRepeat);
      Ordered(p) && RanksWithin(p, i * 64 + 32 * k + port, i * 64 + 32 * k + port)
  {
    var p := PortPlan(i, k, port, ports, status, optRepeat);
    assert forall a :: 0 <= a < |p| ==> p[a] == PortTransfer(i, k, port);
  }

  /** A phase's requests run through its ports in increasing order. */
  lemma {:induction false} PhasePlanOrdered(i: nat, k: nat, n: nat, ports: Mask, status: (nat, nat, nat) -> bv16, optRepeat: int)
    requires k < 2
    ensures var s := PhasePlan(i, k, n, ports, status, optRepeat);
      Ordered(s) && RanksWithin(s, i * 64 + 32 * k + 1, i * 64 + 32 * k + n)
    decreases n
  {
    if n > 0 {
      var j: nat := n - 1;
      var s := PhasePlan(i, k, j, ports, status, optRepeat);
      var p := PortPlan(i, k, n, ports, status, optRepeat);
      assert PhasePlan(i, k, n, ports, status, optRepeat) == s + p;
      PhasePlanOrdered(i, k, j, ports, status, optRepeat);
      RanksWiden(s, i * 64 + 32 * k + 1, i * 64 + 32 * k + j, i * 64 + 32 * k + 1, i * 64 + 32 * k + n);
      PortPlanRanks(i, k, n, ports, status, optRepeat);
      SplitRanks(s, p, i * 64 + 32 * k + 1, i * 64 + 32 * k + n, i * 64 + 32 * k + n);
    }
  }

  lemma RanksWiden(s: seq<Transfer>, lo: nat, hi: nat, lo': nat, hi': nat)
    requires RanksWithin(s, lo, hi) && lo' <= lo && hi <= hi'
    ensures RanksWithin(s, lo', hi')
  {
    assert forall a :: 0 <= a < |s| ==> lo <= Rank(s[a]) <= hi;
  }

  /** Two ordered runs, the first below `mid` and the second above it. */
  lemma SplitRanks(s: seq<Transfer>, u: seq<Transfer>, lo: nat, mid: nat, hi: nat)
    requires Ordered(s) && RanksWithin(s, lo, mid)
    requires Ordered(u) && RanksWithin(u, mid, hi) && lo <= mid <= hi
    ensures Ordered(s + u) && RanksWithin(s + u, lo, hi)
  {
    OrderedConcat(s, u, mid);
    RanksWiden(s, lo, mid, lo, hi);
    RanksWiden(u, mid, hi, lo, hi);
    RanksWithinConcat(s, u, lo, hi);
  }

  /** Phase `k` of hub `i`, when it runs, within a window of ranks. */
  lemma PhaseOrderedWithin(i: nat, h: HubInfo, k: nat, action: Action, optPorts: Mask,
                           status: (nat, nat, nat) -> bv16, optRepeat: int, lo: nat, hi: nat)
    requires k < 2 && 0 <= h.nports < 31
    requires lo <= i * 64 + 32 * k + 1 && i * 64 + 32 * k + h.nports <= hi
    ensures var s := if PhaseRuns(action, k) then PhasePlan(i, k, h.nports, AffectedPorts(h, optPorts), status, optRepeat) else [];
      Ordered(s) && RanksWithin(s, lo, hi)
  {
    if PhaseRuns(action, k) {
      PhasePlanOrdered(i, k, h.nports, AffectedPorts(h, optPorts), status, optRepeat);
      RanksWiden(PhasePlan(i, k, h.nports, AffectedPorts(h, optPorts), status, optRepeat),
                 i * 64 + 32 * k + 1, i * 64 + 32 * k + h.nports, lo, hi);
    }
  }

  lemma PhasesPlanOrdered(i: nat, h: HubInfo, action: Action, optPorts: Mask,
                          status: (nat, nat, nat) -> bv16, optRepeat: int)
    requires 0 <= h.nports < 31
    ensures var s := PhasesPlan(i, h, 2, action, optPorts, status, optRepeat);
      Ordered(s) && RanksWithin(s, i * 64, i * 64 + 63)
  {
    var base: nat := i * 64;
    var off := if PhaseRuns(action, 0) then PhasePlan(i, 0, h.nports, AffectedPorts(h, optPorts), status, optRepeat) else [];
    var on := if PhaseRuns(action, 1) then PhasePlan(i, 1, h.nports, AffectedPorts(h, optPorts), status, optRepeat) else [];
    PhasesPlanTwo(i, h, action, optPorts, status, optRepeat);
    PhaseOrderedWithin(i, h, 0, action, optPorts, status, optRepeat, base, base + 32);
    PhaseOrderedWithin(i, h, 1, action, optPorts, status, optRepeat, base + 32, base + 63);
    SplitRanks(off, on, base, base + 32, base + 63);
  }

  lemma HubPlanOrdered(i: nat, h: HubInfo, canOpen: nat -> bool, action: Action, optPorts: Mask,
                       status: (nat, nat, nat) -> bv16, optRepeat: int)
    requires 0 <= h.nports < 31
    ensures var s := HubPlan(i, h, canOpen, action, optPorts, status, optRepeat);
      Ordered(s) && RanksWithin(s, i * 64, i * 64 + 63)
  {
    if action != POWER_KEEP && canOpen(i) {
      PhasesPlanOrdered(i, h, action, optPorts, status, optRepeat);
    }
  }

  /** Appending hub `j`'s ordered requests to those of the hubs before it. */
  lemma PrefixStep(prev: seq<Transfer>, last: seq<Transfer>, j: nat)
    requires Ordered(prev) && forall a :: 0 <= a < |prev| ==> Rank(prev[a]) < j * 64
    requires Ordered(last) && RanksWithin(last, j * 64, j * 64 + 63)
    ensures Ordered(prev + last) && forall a :: 0 <= a < |prev + last| ==> Rank((prev + last)[a]) < (j + 1) * 64
  {
    OrderedConcat(prev, last, j * 64);
    var w := prev + last;
    forall a | 0 <= a < |w|
      ensures Rank(w[a]) < (j + 1) * 64
    {
      if a < |prev| {
        assert w[a] == prev[a];
      } else {
        assert w[a] == last[a - |prev|];
      }
    }
  }

  lemma {:induction false} PlanOrderedPrefix(hubs: seq<HubInfo>, m: nat, canOpen: nat -> bool, action: Action, optPorts: Mask,
                                             status: (nat, nat, nat) -> bv16, optRepeat: int)
    requires m <= |hubs| && PortCountsFit(hubs)
    ensures var s := Plan(hubs, m, canOpen, action, optPorts, status, optRepeat);
      Ordered(s) && forall a :: 0 <= a < |s| ==> Rank(s[a]) < m * 64
    decreases m
  {
    if m > 0 {
      var j: nat := m - 1;
      var prev := Plan(hubs, j, canOpen, action, optPorts, status, optRepeat);
      var last := HubPlan(j, hubs[j], canOpen, action, optPorts, status, optRepeat);
      assert Plan(hubs, m, canOpen, action, optPorts, status, optRepeat) == prev + last;
      PlanOrderedPrefix(hubs, j, canOpen, action, optPorts, status, optRepeat);
      HubPlanOrdered(j, hubs[j], canOpen, action, optPorts, status, optRepeat);
      PrefixStep(prev, last, j);
    }
  }

  /** The requests go out hub by hub in table order, within a hub all "off"
      requests before all "on" requests, and within a phase by increasing
      port number. */
  lemma PlanOrdered(hubs: seq<HubInfo>, canOpen: nat -> bool, action: Action, optPorts: Mask,
                    status: (nat, nat, nat) -> bv16, optRepeat: int)
    requires PortCountsFit(hubs)
    ensures var s := Plan(hubs, |hubs|, canOpen, action, optPorts, status, optRepeat);
      forall a, b :: 0 <= a < b < |s| ==>
        s[a].hub <= s[b].hub &&
        (s[a].hub == s[b].hub && s[b].request == LIBUSB_REQUEST_CLEAR_FEATURE ==> s[a].request == LIBUSB_REQUEST_CLEAR_FEATURE) &&
        (s[a].hub == s[b].hub && s[a].request == s[b].request ==> s[a].index <= s[b].index)
  {
    var s := Plan(hubs, |hubs|, canOpen, action, optPorts, status, optRepeat);
    PlanOrderedPrefix(hubs, |hubs|, canOpen, action, optPorts, status, optRepeat);
    PlanRequests(hubs, canOpen, action, optPorts, status, optRepeat);
    forall a, b | 0 <= a < b < |s|
      ensures s[a].hub <= s[b].hub
      ensures s[a].hub == s[b].hub && s[b].request == LIBUSB_REQUEST_CLEAR_FEATURE ==> s[a].request == LIBUSB_REQUEST_CLEAR_FEATURE
      ensures s[a].hub == s[b].hub && s[a].request == s[b].request ==> s[a].index <= s[b].index
    {
      assert s[a] in s && s[b] in s;
      assert Rank(s[a]) <= Rank(s[b]);
    }
  }

  // ---------------------------------------------------------------- the loop

  /**
   * The hub loop of `main`: the warning when several hubs would change,
   * then, per hub unless the action is POWER_KEEP and when the hub opens,
   * the off and on phases over the affected ports, with the
   * `while (repeat-- > 0)` loop sending each request.
   */
  method PowerHubs(table: HubTable, canOpen: nat -> bool, action: Action, optPorts: Mask,
                   optRepeat: int, status: (nat, nat, nat) -> bv16) returns (sent: seq<Transfer>, warned: bool)
    requires table.Valid() && PortCountsFit(table.hubs[..table.hubCount])
    ensures warned == MultiHubWarning(table.hubCount, action)
    ensures sent == Plan(table.hubs[..table.hubCount], table.hubCount, canOpen, action, optPorts, status, optRepeat)
  {
    ghost var hubs := table.hubs[..table.hubCount];
    warned := table.hubCount > 1 && action >= 0;
    sent := [];
    var i := 0;
    while i < table.hubCount
      invariant 0 <= i <= table.hubCount
      invariant sent == Plan(hubs, i, canOpen, action, optPorts, status, optRepeat)
    {
      var h := table.hubs[i];
      assert h == hubs[i];
      ghost var done := sent;
      sent := PowerStep(sent, i, h, canOpen, action, optPorts, optRepeat, status);
      assert Plan(hubs, i + 1, canOpen, action, optPorts, status, optRepeat) ==
        done + HubPlan(i, h, canOpen, action, optPorts, status, optRepeat);
      i := i + 1;
    }
    assert hubs[..i] == hubs;
  }

  /** One round of the hub loop: the hub's two phases when there is
      something to do and the hub can be opened, nothing otherwise. */
  method PowerStep(sent0: seq<Transfer>, i: nat, h: HubInfo, canOpen: nat -> bool, action: Action,
                   optPorts: Mask, optRepeat: int, status: (nat, nat, nat) -> bv16) returns (sent: seq<Transfer>)
    requires 0 <= h.nports < 31
    ensures sent == sent0 + HubPlan(i, h, canOpen, action, optPorts, status, optRepeat)
  {
    if action != POWER_KEEP && canOpen(i) {
      sent := PowerHub(sent0, i, h, action, optPorts, optRepeat, status);
    } else {
      sent := sent0;
      assert sent == sent0 + [];
    }
  }

  /** One hub that opens: the off phase and then the on phase, each unless
      the action leaves it out. */
  method PowerHub(sent0: seq<Transfer>, i: nat, h: HubInfo, action: Action, optPorts: Mask,
                  optRepeat: int, status: (nat, nat, nat) -> bv16) returns (sent: seq<Transfer>)
    requires action != POWER_KEEP && 0 <= h.nports < 31
    ensures sent == sent0 + PhasesPlan(i, h, 2, action, optPorts, status, optRepeat)
  {
    sent := sent0;
    var ports := LowMask(h.nports) * optPorts;
    var k := 0;
    while k < 2
      invariant 0 <= k <= 2
      invariant sent == sent0 + PhasesPlan(i, h, k, action, optPorts, status, optRepeat)
    {
      ghost var done := sent;
      sent := PhaseStep(sent, i, k, h, action, ports, optRepeat, status);
      assert PhasesPlan(i, h, k + 1, action, optPorts, status, optRepeat) ==
        PhasesPlan(i, h, k, action, optPorts, status, optRepeat) +
        (if PhaseRuns(action, k) then PhasePlan(i, k, h.nports, ports, status, optRepeat) else []);
      k := k + 1;
    }
  }

  /** One round of the phase loop: skipped (`continue`) when the action
      leaves the phase out, otherwise the phase's port loop. */
  method PhaseStep(sent0: seq<Transfer>, i: nat, k: nat, h: HubInfo, action: Action, ports: Mask,
                   optRepeat: int, status: (nat, nat, nat) -> bv16) returns (sent: seq<Transfer>)
    requires action != POWER_KEEP && k < 2 && 0 <= h.nports < 31
    ensures sent == sent0 + (if PhaseRuns(action, k) then PhasePlan(i, k, h.nports, ports, status, optRepeat) else [])
  {
    if (k == 0 && action == POWER_ON) || (k == 1 && action == POWER_OFF) {
      sent := sent0;
      assert sent == sent0 + [];
      return;
    }
    sent := PowerPhase(sent0, i, k, h.nports, ports, optRepeat, status);
  }

  /** The port loop of one phase, appending its requests to `sent`. */
  method PowerPhase(sent0: seq<Transfer>, i: nat, k: nat, nports: nat, ports: Mask,
                    optRepeat: int, status: (nat, nat, nat) -> bv16) returns (sent: seq<Transfer>)
    requires k < 2 && nports < 31
    ensures sent == sent0 + PhasePlan(i, k, nports, ports, status, optRepeat)
  {
    sent := sent0;
    var request := if k == 0 then LIBUSB_REQUEST_CLEAR_FEATURE else LIBUSB_REQUEST_SET_FEATURE;
    var port := 1;
    while port <= nports
      invariant 1 <= port <= nports + 1
      invariant sent == sent0 + PhasePlan(i, k, port - 1, ports, status, optRepeat)
    {
      ghost var done := PhasePlan(i, k, port - 1, ports, status, optRepeat);
      sent := PowerPort(sent, i, k, request, port, ports, optRepeat, status);
      assert sent == sent0 + PhasePlan(i, k, port, ports, status, optRepeat) by {
        assert PhasePlan(i, k, port, ports, status, optRepeat) == done + PortPlan(i, k, port, ports, status, optRepeat);
      }
      port := port + 1;
    }
  }

  /** One round of the port loop: nothing for a port outside the mask or
      whose power bit already has the target value, else the request as
      often as `repeat` says. */
  method PowerPort(sent0: seq<Transfer>, i: nat, k: nat, request: Byte, port: nat, ports: Mask,
                   optRepeat: int, status: (nat, nat, nat) -> bv16) returns (sent: seq<Transfer>)
    requires k < 2 && request == RequestOf(k) && 1 <= port
    ensures sent == sent0 + PortPlan(i, k, port, ports, status, optRepeat)
  {
    sent := sent0;
    if port - 1 in ports {
      var portStatus := status(i, k, port);
      if (k == 0 && portStatus & USB_PORT_STAT_POWER == 0) || (k == 1 && portStatus & USB_PORT_STAT_POWER != 0) {
        assert sent == sent0 + [];
        return;
      }
      var repeat := 1;
      if k == 0 {
        repeat := optRepeat;
      }
      if portStatus & !USB_PORT_STAT_POWER == 0 {
        repeat := 1;
      }
      ghost var n := RepeatCount(k, portStatus, optRepeat);
      while repeat > 0
        invariant repeat <= n
        invariant sent == sent0 + Copies(PortTransfer(i, k, port), n - (if repeat > 0 then repeat else 0))
      {
        sent := sent + [Transfer(i, PORT_REQUEST_TYPE, request, USB_PORT_FEAT_POWER, port)];
        repeat := repeat - 1;
      }
    } else {
      assert sent == sent0 + [];
    }
  }

  /**
   * `main` after option parsing: build the catalog; with no smart hub found
   * (or only permission errors) exit with status 1 and send nothing;
   * otherwise warn when appropriate, run the hub loop and exit with 0.
   */
  method RunMain(table: HubTable, devs: seq<Device>, f: Filter, canOpen: nat -> bool, action: Action,
                 optPorts: Mask, optRepeat: int, status: (nat, nat, nat) -> bv16)
    returns (exitCode: int, sent: seq<Transfer>, warned: bool)
    requires table.Valid() && table.hubCount == 0
    requires forall j :: 0 <= j < |devs| ==> Classify(devs[j], f) < 31
    modifies table, table.hubs
    ensures table.Valid()
    ensures var st := Scan(devs, f, ScanState([], true));
      PortCountsFit(st.kept) && table.hubs[..table.hubCount] == st.kept
    ensures var st := Scan(devs, f, ScanState([], true));
      ReturnCode(st) <= 0 ==> exitCode == 1 && sent == [] && !warned
    ensures var st := Scan(devs, f, ScanState([], true));
      ReturnCode(st) > 0 ==>
        exitCode == 0 && warned == MultiHubWarning(|st.kept|, action) &&
        sent == Plan(st.kept, |st.kept|, canOpen, action, optPorts, status, optRepeat)
  {
    assert table.hubs[..table.hubCount] == [];
    ScanInvariant(devs, f, ScanState([], true));
    var rc := table.FindHubs(devs, f);
    if rc <= 0 {
      return 1, [], false;
    }
    sent, warned := PowerHubs(table, canOpen, action, optPorts, optRepeat, status);
    exitCode := 0;
  }
}
