/**
 * Decoding of the `-p` (port list) and `-a` (action) options of uhubctl 1.5.
 * Port masks are C `int`s, modelled as the sets of their set bits; bit `i`
 * stands for port `i + 1`.
 */
module HubOptions {
  import opened CStrings

  /**
   * A port bitmask, a C `int`, as the set of its set bit positions: bit `b`
   * stands for port `b + 1`, `|` is union, `&` is intersection and `1 << b`
   * is `{b}`. Only bits 0..30 are ever set (`1 << 31` would overflow).
   */
  type Mask = s: set<nat> | forall b :: b in s ==> b < 31

  /** `(1 << n) - 1`: the low `n` bits. */
  function LowMask(n: nat): (m: Mask)
    requires n <= 31
    ensures forall b: nat :: b in m <==> b < n
  {
    if n == 0 then {} else LowMask(n - 1) + {n - 1}
  }

  const MAX_HUB_PORTS := 9
  /** (1 << MAX_HUB_PORTS) - 1: the default `opt_ports`, ports 1..9. */
  const ALL_HUB_PORTS: Mask := LowMask(MAX_HUB_PORTS)

  /** `opt_action`: one of POWER_KEEP, POWER_OFF, POWER_ON, POWER_CYCLE. */
  type Action = a: int | -1 <= a <= 2

  const POWER_KEEP: Action := -1
  const POWER_OFF: Action := 0
  const POWER_ON: Action := 1
  const POWER_CYCLE: Action := 2

  // ---------------------------------------------------------------- -p

  /** A character the port-list loop can shift by without undefined
      behaviour: `c - '1'` lies in 0..30. The digits '1'..'9' are the ones
      the usage text allows; the others only draw a warning. */
  predicate Shiftable(c: char) {
    '1' <= c && c as int - '1' as int < 31
  }

  /** The bit `c - '1'` the loop sets for port character `c`. */
  function PortBit(c: char): (b: nat)
    requires Shiftable(c)
    ensures b < 31
  {
    c as int - '1' as int
  }

  /** The mask the loop ORs together from a port list. */
  function PortMask(arg: string): Mask
    requires forall i :: 0 <= i < |arg| ==> Shiftable(arg[i])
  {
    if arg == [] then {} else PortMask(arg[..|arg| - 1]) + {PortBit(arg[|arg| - 1])}
  }

  /** Port `b + 1` is selected exactly when the list names it: the mask has
      bit `b` set iff some character of the list is `'1' + b`. */
  lemma {:induction false} PortMaskBits(arg: string, b: nat)
    requires forall i :: 0 <= i < |arg| ==> Shiftable(arg[i])
    ensures b in PortMask(arg) <==> exists i :: 0 <= i < |arg| && PortBit(arg[i]) == b
  {
    if arg != [] {
      var init := arg[..|arg| - 1];
      PortMaskBits(init, b);
      if exists i :: 0 <= i < |init| && PortBit(init[i]) == b {
        var i :| 0 <= i < |init| && PortBit(init[i]) == b;
        assert arg[i] == init[i];
      }
      if exists i :: 0 <= i < |arg| && PortBit(arg[i]) == b {
        var i :| 0 <= i < |arg| && PortBit(arg[i]) == b;
        if i < |init| {
          assert init[i] == arg[i];
        }
      }
    }
  }

  /** A list of the digits '1'..'9' selects only ports within ALL_HUB_PORTS. */
  lemma {:induction false} DigitListWithinAllPorts(arg: string)
    requires forall i :: 0 <= i < |arg| ==> '1' <= arg[i] <= '9'
    ensures PortMask(arg) <= ALL_HUB_PORTS
  {
    if arg != [] {
      DigitListWithinAllPorts(arg[..|arg| - 1]);
    }
  }

  /**
   * The `-p` case: "all" in any case leaves `opt_ports` as it was, and so
   * does an empty argument; otherwise `opt_ports` is cleared and bit
   * `c - '1'` is set for every character `c` of the list.
   */
  method ParsePorts(current: Mask, arg: string) returns (ports: Mask)
    requires EqualIgnoreCase(arg, "all") || forall i :: 0 <= i < |arg| ==> Shiftable(arg[i])
    ensures EqualIgnoreCase(arg, "all") || arg == [] ==> ports == current
    ensures !EqualIgnoreCase(arg, "all") && arg != [] ==> ports == PortMask(arg)
  {
    if EqualIgnoreCase(arg, "all") {
      return current;
    }
    ports := current;
    if |arg| > 0 {
      ports := {};
      var i := 0;
      while i < |arg|
        invariant 0 <= i <= |arg|
        invariant ports == PortMask(arg[..i])
      {
        var d := arg[i] as int - '1' as int;
        ports := ports + {d};
        assert arg[..i + 1][..i] == arg[..i];
        i := i + 1;
      }
      assert arg[..i] == arg;
    }
  }

  // ---------------------------------------------------------------- -a

  /** `!strcasecmp(optarg, word) || !strcasecmp(optarg, digit)`. */
  predicate Names(arg: string, word: string, digit: string) {
    EqualIgnoreCase(arg, word) || EqualIgnoreCase(arg, digit)
  }

  /** At most one of the three tests of the `-a` case succeeds, so their
      order in the source does not matter. */
  lemma NamesExclusive(arg: string)
    ensures !(Names(arg, "off", "0") && Names(arg, "on", "1"))
    ensures !(Names(arg, "off", "0") && Names(arg, "cycle", "2"))
    ensures !(Names(arg, "on", "1") && Names(arg, "cycle", "2"))
  {
    assert ToLower("0"[0]) == '0' && ToLower("1"[0]) == '1' && ToLower("2"[0]) == '2';
  }

  /** A digit matches only itself: `strcasecmp` with "0", "1" or "2" is plain equality. */
  lemma DigitNamesExact(arg: string, d: char)
    requires '0' <= d <= '9'
    ensures EqualIgnoreCase(arg, [d]) <==> arg == [d]
  {
    if EqualIgnoreCase(arg, [d]) {
      assert ToLower(arg[0]) == d;
    }
  }

  /**
   * The `-a` case: "off"/"0", "on"/"1" and "cycle"/"2" (the words in any
   * case) select POWER_OFF, POWER_ON and POWER_CYCLE; any other argument
   * leaves `opt_action` unchanged.
   */
  function DecodeAction(arg: string, current: Action): (a: Action)
    ensures Names(arg, "off", "0") ==> a == POWER_OFF
    ensures Names(arg, "on", "1") ==> a == POWER_ON
    ensures Names(arg, "cycle", "2") ==> a == POWER_CYCLE
    ensures a != current ==> Names(arg, "off", "0") || Names(arg, "on", "1") || Names(arg, "cycle", "2")
  {
    NamesExclusive(arg);
    if Names(arg, "cycle", "2") then POWER_CYCLE
    else if Names(arg, "on", "1") then POWER_ON
    else if Names(arg, "off", "0") then POWER_OFF
    else current
  }

  /** The name of an action in the usage text. */
  function ActionName(a: Action): string
    requires a != POWER_KEEP
  {
    if a == POWER_OFF then "off" else if a == POWER_ON then "on" else "cycle"
  }

  /** Decoding an action's name, or its number, gives the action whatever
      was set before. */
  lemma DecodeActionName(a: Action, current: Action)
    requires a != POWER_KEEP
    ensures DecodeAction(ActionName(a), current) == a
    ensures DecodeAction([('0' as int + a) as char], current) == a
  {
  }

  /** Case does not matter: arguments equal up to case decode alike. */
  lemma DecodeActionIgnoresCase(x: string, y: string, current: Action)
    requires EqualIgnoreCase(x, y)
    ensures DecodeAction(x, current) == DecodeAction(y, current)
  {
    EqualIgnoreCaseIsLowerEquality(x, y);
    forall w | true
      ensures EqualIgnoreCase(x, w) <==> EqualIgnoreCase(y, w)
    {
      EqualIgnoreCaseIsLowerEquality(x, w);
      EqualIgnoreCaseIsLowerEquality(y, w);
    }
  }
}
