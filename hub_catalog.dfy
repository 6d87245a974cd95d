/**
 * Hub catalog construction (`usb_find_hubs` in uhubctl 1.5): walk the device
 * list, keep the hubs `IsSmartHub` classifies as smart, name each by a
 * "vvvv:pppp" vendor string and a "bus-p1.p2..." location string, apply the
 * `-l` (exact, case-insensitive) and `-n` (prefix, case-insensitive)
 * filters, and fill the global `hubs[MAX_HUBS]` array.
 */
module HubCatalog {
  import opened CStrings
  import opened UsbHub

  const MAX_HUBS := 64

  /** One filled slot of `hubs[]`; `dev` is the device's identity. */
  datatype HubInfo = HubInfo(dev: nat, nports: int, vendor: string, location: string)

  /** The selection options `usb_find_hubs` reads: `opt_location`,
      `opt_vendor` (empty means no filter) and `opt_internal`. */
  datatype Filter = Filter(location: string, vendor: string, internal: bool)

  // ---------------------------------------------------------------- vendor

  /** `snprintf(vendor, 16, "%04x:%04x", idVendor, idProduct)`. */
  function VendorString(vid: Word, pid: Word): string {
    Hex4(vid) + ":" + Hex4(pid)
  }

  /** The vendor string has nine characters, a colon in the middle, lowercase
      hex digits elsewhere, and reads back as the two identifiers. */
  lemma VendorStringFormat(vid: Word, pid: Word)
    ensures var v := VendorString(vid, pid);
      |v| == 9 && v[4] == ':' && v[..4] == Hex4(vid) && v[5..] == Hex4(pid) &&
      (forall i :: 0 <= i < 9 && i != 4 ==> IsHexDigit(v[i])) &&
      Hex4Value(v[..4]) == vid && Hex4Value(v[5..]) == pid
  {
    var v := VendorString(vid, pid);
    assert v[..4] == Hex4(vid);
    assert v[5..] == Hex4(pid);
    Hex4RoundTrip(vid);
    Hex4RoundTrip(pid);
  }

  /** Distinct identifier pairs get distinct vendor strings. */
  lemma VendorStringInjective(v1: Word, p1: Word, v2: Word, p2: Word)
    requires VendorString(v1, p1) == VendorString(v2, p2)
    ensures v1 == v2 && p1 == p2
  {
    VendorStringFormat(v1, p1);
    VendorStringFormat(v2, p2);
  }

  // ---------------------------------------------------------------- location

  /** The piece the location loop appends for port `k` of the chain. */
  function Segment(path: seq<nat>, k: nat): string
    requires k < |path|
  {
    (if k == 0 then "-" else ".") + NatToDecimal(path[k])
  }

  /** The pieces for the first `n` ports of the chain. */
  function Segments(path: seq<nat>, n: nat): string
    requires n <= |path|
  {
    if n == 0 then "" else Segments(path, n - 1) + Segment(path, n - 1)
  }

  /** The location string: the decimal bus number, then "-" and the first
      port, then "." and each later port. */
  function LocationString(bus: nat, path: seq<nat>): string {
    NatToDecimal(bus) + Segments(path, |path|)
  }

  /** `sprintf(location, "%d", bus)` followed by the `strcat` loop over the
      port chain. */
  method BuildLocation(bus: nat, path: seq<nat>) returns (location: string)
    ensures location == LocationString(bus, path)
  {
    location := NatToDecimal(bus);
    var k := 0;
    while k < |path|
      invariant 0 <= k <= |path|
      invariant location == NatToDecimal(bus) + Segments(path, k)
    {
      var s := (if k == 0 then "-" else ".") + NatToDecimal(path[k]);
      location := location + s;
      k := k + 1;
    }
  }

  /** Length of the run of digits that ends `s`. */
  function TrailingDigits(s: string): (n: nat)
    ensures n <= |s|
    ensures AllDigits(s[|s| - n..])
    ensures n < |s| ==> !IsDigit(s[|s| - n - 1])
  {
    if s == [] || !IsDigit(s[|s| - 1]) then 0
    else
      var init := s[..|s| - 1];
      var n := TrailingDigits(init);
      assert s[|s| - (n + 1)..] == init[|init| - n..] + [s[|s| - 1]];
      n + 1
  }

  /** Splits off the number that ends `s`: what precedes it and its value. */
  function LastNumber(s: string): (r: Option<(string, nat)>)
    ensures r.Some? ==> |r.value.0| < |s|
  {
    var n := TrailingDigits(s);
    if n == 0 then None else Some((s[..|s| - n], DecimalValue(s[|s| - n..])))
  }

  /** Reading a location string back into a bus number and a port chain,
      from its end: the last number, the separator before it, the rest. */
  function ParseLocation(s: string): Option<(nat, seq<nat>)>
    decreases |s|
  {
    match LastNumber(s)
    case None => None
    case Some((rest, last)) =>
      if rest == [] then Some((last, []))
      else
        var front := rest[..|rest| - 1];
        if rest[|rest| - 1] == '-' then
          if |front| > 0 && AllDigits(front) then Some((DecimalValue(front), [last])) else None
        else if rest[|rest| - 1] == '.' then
          match ParseLocation(front)
          case Some((bus, chain)) => if chain == [] then None else Some((bus, chain + [last]))
          case None => None
        else None
  }

  lemma TrailingDigitsAfterSeparator(head: string, sep: char, digits: string)
    requires !IsDigit(sep) && |digits| > 0 && AllDigits(digits)
    ensures TrailingDigits(head + [sep] + digits) == |digits|
    decreases |digits|
  {
    var s := head + [sep] + digits;
    if |digits| == 1 {
      assert s[..|s| - 1] == head + [sep];
    } else {
      assert s[..|s| - 1] == head + [sep] + digits[..|digits| - 1];
      TrailingDigitsAfterSeparator(head, sep, digits[..|digits| - 1]);
    }
  }

  lemma LastNumberAfterSeparator(front: string, sep: char, d: string)
    requires !IsDigit(sep) && |d| > 0 && AllDigits(d)
    ensures LastNumber(front + [sep] + d) == Some((front + [sep], DecimalValue(d)))
  {
    var s := front + [sep] + d;
    TrailingDigitsAfterSeparator(front, sep, d);
    assert s[|s| - |d|..] == d;
    assert s[..|s| - |d|] == front + [sep];
  }

  /** Parsing a string that ends in "-" and a number. */
  lemma ParseAfterDash(front: string, d: string)
    requires |d| > 0 && AllDigits(d)
    requires |front| > 0 && AllDigits(front)
    ensures ParseLocation(front + ['-'] + d) == Some((DecimalValue(front), [DecimalValue(d)]))
  {
    LastNumberAfterSeparator(front, '-', d);
    assert (front + ['-'])[..|front|] == front;
  }

  /** Parsing a string that ends in "." and a number. */
  lemma ParseAfterDot(front: string, d: string, bus: nat, chain: seq<nat>)
    requires |d| > 0 && AllDigits(d)
    requires ParseLocation(front) == Some((bus, chain)) && chain != []
    ensures ParseLocation(front + ['.'] + d) == Some((bus, chain + [DecimalValue(d)]))
  {
    LastNumberAfterSeparator(front, '.', d);
    assert (front + ['.'])[..|front|] == front;
  }

  /** The location of a hub one port further down is its parent's location,
      a separator and the port number. */
  lemma LocationSnoc(bus: nat, path: seq<nat>)
    requires path != []
    ensures LocationString(bus, path) ==
      LocationString(bus, path[..|path| - 1]) + [if |path| == 1 then '-' else '.'] + NatToDecimal(path[|path| - 1])
  {
    SegmentsPrefix(path, |path| - 1);
  }

  /** The location string determines the bus and the chain: parsing it back
      gives them, so two devices at different positions never share a location. */
  lemma {:induction false} LocationRoundTrip(bus: nat, path: seq<nat>)
    ensures ParseLocation(LocationString(bus, path)) == Some((bus, path))
    decreases |path|
  {
    if path == [] {
      RoundTripBusOnly(bus);
    } else if |path| == 1 {
      RoundTripSingle(bus, path);
    } else {
      var init := path[..|path| - 1];
      LocationRoundTrip(bus, init);
      RoundTripStep(bus, path);
    }
  }

  lemma RoundTripBusOnly(bus: nat)
    ensures ParseLocation(LocationString(bus, [])) == Some((bus, []))
  {
    var s := NatToDecimal(bus);
    DecimalRoundTrip(bus);
    LongestDigitsRun(s);
    assert s[|s| - |s|..] == s && s[..0] == [];
    assert LocationString(bus, []) == s;
  }

  lemma RoundTripSingle(bus: nat, path: seq<nat>)
    requires |path| == 1
    ensures ParseLocation(LocationString(bus, path)) == Some((bus, path))
  {
    var d := NatToDecimal(path[0]);
    LocationSnoc(bus, path);
    assert path[..0] == [];
    assert LocationString(bus, path) == NatToDecimal(bus) + ['-'] + d;
    DecimalRoundTrip(bus);
    DecimalRoundTrip(path[0]);
    ParseAfterDash(NatToDecimal(bus), d);
    assert [DecimalValue(d)] == path;
  }

  lemma RoundTripStep(bus: nat, path: seq<nat>)
    requires |path| >= 2
    requires ParseLocation(LocationString(bus, path[..|path| - 1])) == Some((bus, path[..|path| - 1]))
    ensures ParseLocation(LocationString(bus, path)) == Some((bus, path))
  {
    var init, last := path[..|path| - 1], path[|path| - 1];
    assert init + [last] == path;
    LocationSnoc(bus, path);
    ParseChainStep(LocationString(bus, init), bus, init, last);
  }

  lemma ParseChainStep(front: string, bus: nat, init: seq<nat>, last: nat)
    requires ParseLocation(front) == Some((bus, init)) && init != []
    ensures ParseLocation(front + ['.'] + NatToDecimal(last)) == Some((bus, init + [last]))
  {
    DecimalRoundTrip(last);
    ParseAfterDot(front, NatToDecimal(last), bus, init);
  }

  lemma LongestDigitsRun(s: string)
    requires AllDigits(s)
    ensures TrailingDigits(s) == |s|
  {
    if s != [] {
      LongestDigitsRun(s[..|s| - 1]);
    }
  }

  /** The segments of a chain's first `n` ports depend only on those ports. */
  lemma {:induction false} SegmentsPrefix(path: seq<nat>, n: nat)
    requires n <= |path|
    ensures Segments(path, n) == Segments(path[..n], n)
    decreases n
  {
    if n > 0 {
      SegmentsPrefix(path, n - 1);
      SegmentsPrefixOf(path, n, n - 1);
    }
  }

  lemma {:induction false} SegmentsPrefixOf(path: seq<nat>, m: nat, n: nat)
    requires n <= m <= |path|
    ensures Segments(path, n) == Segments(path[..m], n)
    decreases n
  {
    if n > 0 {
      SegmentsPrefixOf(path, m, n - 1);
    }
  }

  /** Two devices have the same location exactly when they have the same bus
      and the same port chain. */
  lemma LocationInjective(b1: nat, p1: seq<nat>, b2: nat, p2: seq<nat>)
    ensures LocationString(b1, p1) == LocationString(b2, p2) <==> b1 == b2 && p1 == p2
  {
    LocationRoundTrip(b1, p1);
    LocationRoundTrip(b2, p2);
  }

  lemma LocationExamples()
    ensures LocationString(3, [1, 4]) == "3-1.4"
    ensures LocationString(2, []) == "2"
  {
    assert NatToDecimal(1) == "1" && NatToDecimal(2) == "2" && NatToDecimal(3) == "3" && NatToDecimal(4) == "4";
    assert Segments([1, 4], 2) == "-1.4" by {
      assert Segments([1, 4], 1) == "-1";
    }
  }

  /** A port number of two digits takes two characters of the location. */
  lemma LocationMultiDigitExample()
    ensures LocationString(1, [2, 10, 3]) == "1-2.10.3"
  {
    assert NatToDecimal(1) == "1" && NatToDecimal(2) == "2" && NatToDecimal(3) == "3";
    assert NatToDecimal(10) == "10";
    assert Segments([2, 10, 3], 3) == "-2.10.3" by {
      assert Segments([2, 10, 3], 1) == "-2";
      assert Segments([2, 10, 3], 2) == "-2.10";
    }
  }

  function ByteChain(path: PortPath): seq<nat> {
    seq(|path|, i requires 0 <= i < |path| => path[i] as nat)
  }

  /** With at most 7 one-byte ports the location needs at most 31 characters,
      so it fits `location[32]` with its terminator. */
  lemma LocationFits(bus: Byte, path: PortPath)
    ensures |LocationString(bus, ByteChain(path))| <= 31
  {
    DecimalWidth(bus);
    SegmentsWidth(ByteChain(path), |path|);
  }

  lemma DecimalWidth(n: nat)
    requires n < 256
    ensures |NatToDecimal(n)| <= 3
  {
    if n >= 10 {
      assert n / 10 < 26;
      if n / 10 >= 10 {
        assert |NatToDecimal(n / 10 / 10)| == 1;
      }
    }
  }

  lemma {:induction false} SegmentsWidth(path: seq<nat>, n: nat)
    requires n <= |path|
    requires forall i :: 0 <= i < |path| ==> path[i] < 256
    ensures |Segments(path, n)| <= 4 * n
    decreases n
  {
    if n > 0 {
      SegmentsWidth(path, n - 1);
      DecimalWidth(path[n - 1]);
    }
  }

  // ---------------------------------------------------------------- the scan

  /** `is_smart_hub(dev, opt_internal ? 0 : 1)`. */
  function Classify(d: Device, f: Filter): int {
    IsSmartHub(d, if f.internal then 0 else 1)
  }

  /** The slot contents `usb_find_hubs` writes for a smart hub. */
  function Entry(d: Device, nports: int): HubInfo {
    HubInfo(d.id, nports, VendorString(d.idVendor, d.idProduct), LocationString(d.bus, ByteChain(d.portPath)))
  }

  /** The two filter tests; an empty option string does not filter. */
  predicate Matches(h: HubInfo, f: Filter) {
    (|f.location| == 0 || EqualIgnoreCase(f.location, h.location)) &&
    (|f.vendor| == 0 || StartsWithIgnoreCase(h.vendor, f.vendor))
  }

  /** `hubs[0..hub_count)` and `perm_ok` during the scan. */
  datatype ScanState = ScanState(kept: seq<HubInfo>, permOk: bool)

  /** One turn of the device loop. */
  function Step(st: ScanState, d: Device, f: Filter): ScanState {
    var n := Classify(d, f);
    var permOk := st.permOk && n >= 0;
    if n > 0 && |st.kept| < MAX_HUBS && Matches(Entry(d, n), f) then
      ScanState(st.kept + [Entry(d, n)], permOk)
    else
      ScanState(st.kept, permOk)
  }

  /** The state after the device loop has seen all of `devs`. */
  function Scan(devs: seq<Device>, f: Filter, start: ScanState): ScanState {
    if devs == [] then start else Step(Scan(devs[..|devs| - 1], f, start), devs[|devs| - 1], f)
  }

  /** `usb_find_hubs`' return value. */
  function ReturnCode(st: ScanState): int {
    if !st.permOk && |st.kept| == 0 then LIBUSB_ERROR_ACCESS else |st.kept|
  }

  /** Reference definition: every device that is a smart hub and passes the
      filters, in list order, without the capacity limit. */
  function Qualifying(devs: seq<Device>, f: Filter): seq<HubInfo> {
    if devs == [] then []
    else
      var d := devs[|devs| - 1];
      var n := Classify(d, f);
      Qualifying(devs[..|devs| - 1], f) + (if n > 0 && Matches(Entry(d, n), f) then [Entry(d, n)] else [])
  }

  function Take<T>(s: seq<T>, n: nat): seq<T> {
    if |s| <= n then s else s[..n]
  }

  /** Starting from an empty table, the scan keeps exactly the first 64
      qualifying hubs in list order; later ones are dropped. */
  lemma {:induction false} ScanKeepsFirstQualifying(devs: seq<Device>, f: Filter)
    ensures Scan(devs, f, ScanState([], true)).kept == Take(Qualifying(devs, f), MAX_HUBS)
  {
    if devs != [] {
      var init := devs[..|devs| - 1];
      ScanKeepsFirstQualifying(init, f);
    }
  }

  /** `perm_ok` stays set exactly when no classification was negative. */
  lemma {:induction false} ScanPermission(devs: seq<Device>, f: Filter, start: ScanState)
    ensures Scan(devs, f, start).permOk <==>
      start.permOk && forall i :: 0 <= i < |devs| ==> Classify(devs[i], f) >= 0
    decreases |devs|
  {
    if devs != [] {
      var init := devs[..|devs| - 1];
      assert Scan(devs, f, start) == Step(Scan(init, f, start), devs[|devs| - 1], f);
      ScanPermission(init, f, start);
      AllClassifiedSnoc(devs, init, f);
    }
  }

  /** No device of the list classified negative: none of the ones before
      the last, and not the last. */
  lemma AllClassifiedSnoc(devs: seq<Device>, init: seq<Device>, f: Filter)
    requires devs != [] && init == devs[..|devs| - 1]
    ensures (forall i :: 0 <= i < |devs| ==> Classify(devs[i], f) >= 0) <==>
      (forall i :: 0 <= i < |init| ==> Classify(init[i], f) >= 0) && Classify(devs[|devs| - 1], f) >= 0
  {
    assert forall i :: 0 <= i < |init| ==> init[i] == devs[i];
  }

  /** The table never exceeds MAX_HUBS, it only grows, and every entry added
      is a smart hub (nports > 0) that matches both filters and comes from
      the scanned list. */
  lemma {:induction false} ScanInvariant(devs: seq<Device>, f: Filter, start: ScanState)
    requires |start.kept| <= MAX_HUBS
    ensures var st := Scan(devs, f, start);
      |st.kept| <= MAX_HUBS && start.kept <= st.kept &&
      forall j :: |start.kept| <= j < |st.kept| ==>
        st.kept[j].nports > 0 && Matches(st.kept[j], f) &&
        exists i :: 0 <= i < |devs| && st.kept[j] == Entry(devs[i], Classify(devs[i], f))
    decreases |devs|
  {
    if devs != [] {
      var init, last := devs[..|devs| - 1], devs[|devs| - 1];
      var st0 := Scan(init, f, start);
      var st := Scan(devs, f, start);
      assert st == Step(st0, last, f);
      ScanInvariant(init, f, start);
      StepKeeps(st0, last, f);
      forall j | |start.kept| <= j < |st.kept|
        ensures st.kept[j].nports > 0 && Matches(st.kept[j], f)
        ensures exists i :: 0 <= i < |devs| && st.kept[j] == Entry(devs[i], Classify(devs[i], f))
      {
        if j < |st0.kept| {
          assert st.kept[j] == st0.kept[j];
          var i :| 0 <= i < |init| && st0.kept[j] == Entry(init[i], Classify(init[i], f));
          assert devs[i] == init[i];
        } else {
          assert st.kept[j] == Entry(devs[|devs| - 1], Classify(last, f));
        }
      }
    }
  }

  /** A turn of the device loop keeps the table, or appends the entry of a
      smart hub that matches the filters while there is room. */
  lemma StepKeeps(st: ScanState, d: Device, f: Filter)
    ensures var next := Step(st, d, f);
      next.kept == st.kept ||
      (|st.kept| < MAX_HUBS && Classify(d, f) > 0 && Matches(Entry(d, Classify(d, f)), f) &&
       next.kept == st.kept + [Entry(d, Classify(d, f))])
  {
  }

  lemma ScanSnoc(devs: seq<Device>, f: Filter, start: ScanState, i: nat)
    requires i < |devs|
    ensures Scan(devs[..i + 1], f, start) == Step(Scan(devs[..i], f, start), devs[i], f)
  {
    assert devs[..i + 1][..i] == devs[..i];
  }

  /** `usb_find_hubs` reports LIBUSB_ERROR_ACCESS exactly when some device
      classified negative and no hub was kept; otherwise it reports the
      number of hubs kept. */
  lemma ReturnCodeMeaning(devs: seq<Device>, f: Filter)
    ensures var st := Scan(devs, f, ScanState([], true));
      (ReturnCode(st) == LIBUSB_ERROR_ACCESS <==>
        (exists i :: 0 <= i < |devs| && Classify(devs[i], f) < 0) && st.kept == []) &&
      (ReturnCode(st) != LIBUSB_ERROR_ACCESS ==> ReturnCode(st) == |st.kept| >= 0)
  {
    ScanPermission(devs, f, ScanState([], true));
  }

  // ---------------------------------------------------------------- hubs[]

  /** The global `hubs[MAX_HUBS]` array and its fill counter `hub_count`. */
  class HubTable {
    const hubs: array<HubInfo>
    var hubCount: nat

    ghost predicate Valid()
      reads this
    {
      hubs.Length == MAX_HUBS && hubCount <= MAX_HUBS
    }

    /** The table as the program starts: empty. */
    constructor ()
      ensures Valid() && hubCount == 0 && fresh(hubs)
    {
      hubs := new HubInfo[MAX_HUBS];
      hubCount := 0;
    }

    /** The device loop of `usb_find_hubs`. A smart hub's slot
        `hubs[hub_count]` is filled before the filters run; a filtered-out hub
        leaves `hub_count` where it was, so the next hub reuses the slot. */
    method FindHubs(devs: seq<Device>, f: Filter) returns (rc: int)
      requires Valid()
      modifies this, hubs
      ensures Valid()
      ensures var st := Scan(devs, f, ScanState(old(hubs[..hubCount]), true));
        hubs[..hubCount] == st.kept && rc == ReturnCode(st)
    {
      ghost var start := ScanState(hubs[..hubCount], true);
      var permOk := true;
      var i := 0;
      while i < |devs|
        invariant 0 <= i <= |devs| && Valid()
        invariant Scan(devs[..i], f, start) == ScanState(hubs[..hubCount], permOk)
      {
        ScanSnoc(devs, f, start, i);
        permOk := VisitDevice(devs[i], f, permOk);
        i := i + 1;
      }
      assert devs[..i] == devs;
      if !permOk && hubCount == 0 {
        rc := LIBUSB_ERROR_ACCESS;
      } else {
        rc := hubCount;
      }
    }

    /** One turn of the device loop: classify the device, clear `perm_ok`
        on a negative answer, and consider a smart hub while there is room. */
    method VisitDevice(dev: Device, f: Filter, permOk0: bool) returns (permOk: bool)
      requires Valid()
      modifies this, hubs
      ensures Valid()
      ensures ScanState(hubs[..hubCount], permOk) == Step(ScanState(old(hubs[..hubCount]), permOk0), dev, f)
    {
      permOk := permOk0;
      var nports := IsSmartHub(dev, if f.internal then 0 else 1);
      if nports < 0 {
        permOk := false;
      }
      if nports > 0 && hubCount < MAX_HUBS {
        Consider(dev, f, nports);
      }
    }

    /** A smart hub while there is room: its slot `hubs[hub_count]` is
        filled, and `hub_count` advances only when it passes both filters. */
    method Consider(dev: Device, f: Filter, nports: int)
      requires Valid() && nports > 0 && hubCount < MAX_HUBS
      modifies this, hubs
      ensures Valid()
      ensures hubs[..hubCount] == old(hubs[..hubCount]) + (if Matches(Entry(dev, nports), f) then [Entry(dev, nports)] else [])
    {
      ghost var before := hubs[..hubCount];
      var vendor := VendorString(dev.idVendor, dev.idProduct);
      var location := BuildLocation(dev.bus, ByteChain(dev.portPath));
      hubs[hubCount] := HubInfo(dev.id, nports, vendor, location);
      assert hubs[..hubCount] == before;
      if (|f.location| == 0 || EqualIgnoreCase(f.location, location)) &&
         (|f.vendor| == 0 || StartsWithIgnoreCase(vendor, f.vendor)) {
        hubCount := hubCount + 1;
        assert hubs[..hubCount] == before + [Entry(dev, nports)];
      } else {
        assert before + [] == before;
      }
    }
  }
}
