/**
 * Hub classification (`is_smart_hub` in uhubctl 1.5).
 *
 * The libusb calls are replaced by what they return: a `Device` carries its
 * device-descriptor fields, its bus number and port path, and the outcome of
 * opening it and of the GET_DESCRIPTOR(hub) control transfer. The hub class
 * descriptor layout is that of USB 2.0 section 11.23.2.1, Table 11-13:
 * byte 2 is bNbrPorts, byte 3 the low byte of wHubCharacteristics, byte 6
 * bHubContrCurrent.
 */
module UsbHub {

  type Byte = x: int | 0 <= x < 0x100
  type Word = x: int | 0 <= x < 0x1_0000

  /** A libusb error code (always negative). */
  type ErrorCode = x: int | x < 0 witness -1

  /** What a control transfer into the 256-byte buffer `buf` can deliver. */
  type DescriptorBytes = s: seq<Byte> | |s| <= 256

  /** A port-number chain as `libusb_get_port_path` reports it; USB allows at
      most 7 hubs in a chain (MAX_HUB_CHAIN is 8 for that reason). */
  type PortPath = s: seq<Byte> | |s| <= 7

  const LIBUSB_CLASS_HUB: Byte := 9
  const LIBUSB_ERROR_ACCESS: ErrorCode := -3

  /** sizeof(struct usb_hub_descriptor) - 1: the fixed fields up to bHubContrCurrent. */
  const HUB_DESCRIPTOR_MIN_LENGTH := 7

  const HUB_CHAR_LPSM: bv8 := 0x03
  const HUB_CHAR_INDV_PORT_LPSM: bv8 := 0x01
  const HUB_CHAR_OCPM: bv8 := 0x18
  const HUB_CHAR_INDV_PORT_OCPM: bv8 := 0x08

  datatype TransferOutcome =
    | TransferFailed(error: ErrorCode)
    | Received(data: DescriptorBytes)

  datatype OpenOutcome =
    | OpenFailed(error: ErrorCode)
    | Opened(descriptor: TransferOutcome)

  /** One entry of libusb's device list; `id` stands for the device pointer. */
  datatype Device = Device(
    id: nat,
    deviceClass: Byte,
    idVendor: Word,
    idProduct: Word,
    bus: Byte,
    portPath: PortPath,
    open: OpenOutcome)

  /** LPSM (D1..D0) says per-port power switching and OCPM (D4..D3) says
      per-port over-current protection. */
  predicate PerPortSwitching(characteristics: Byte) {
    var c := characteristics as bv8;
    c & HUB_CHAR_LPSM == HUB_CHAR_INDV_PORT_LPSM && c & HUB_CHAR_OCPM == HUB_CHAR_INDV_PORT_OCPM
  }

  /**
   * The number of ports of a smart hub, 0 for a device that is not one, a
   * negative value for a failed open or transfer and -1 for a smart hub whose
   * bHubContrCurrent is below `minCurrent`. A transfer that delivers fewer
   * than 7 bytes yields its own length.
   */
  function IsSmartHub(dev: Device, minCurrent: int): (rc: int)
    ensures dev.deviceClass != LIBUSB_CLASS_HUB ==> rc == 0
    ensures dev.open.OpenFailed? && dev.deviceClass == LIBUSB_CLASS_HUB ==> rc == dev.open.error
    ensures dev.deviceClass == LIBUSB_CLASS_HUB && dev.open.Opened? && dev.open.descriptor.TransferFailed? ==>
      rc == dev.open.descriptor.error
    ensures (dev.deviceClass == LIBUSB_CLASS_HUB && dev.open.Opened? && dev.open.descriptor.Received? &&
             |dev.open.descriptor.data| >= HUB_DESCRIPTOR_MIN_LENGTH && PerPortSwitching(dev.open.descriptor.data[3]) &&
             minCurrent > 0 && dev.open.descriptor.data[6] < minCurrent) ==> rc == -1
    ensures rc < 0 <==>
      dev.deviceClass == LIBUSB_CLASS_HUB &&
      (dev.open.OpenFailed? || dev.open.descriptor.TransferFailed? ||
       (|dev.open.descriptor.data| >= HUB_DESCRIPTOR_MIN_LENGTH &&
        PerPortSwitching(dev.open.descriptor.data[3]) &&
        minCurrent > 0 && dev.open.descriptor.data[6] < minCurrent))
    ensures rc > 0 <==>
      dev.deviceClass == LIBUSB_CLASS_HUB && dev.open.Opened? && dev.open.descriptor.Received? &&
      var data := dev.open.descriptor.data;
      if |data| >= HUB_DESCRIPTOR_MIN_LENGTH then
        PerPortSwitching(data[3]) && !(minCurrent > 0 && data[6] < minCurrent) && data[2] > 0
      else
        |data| > 0
    ensures rc > 0 && |dev.open.descriptor.data| >= HUB_DESCRIPTOR_MIN_LENGTH ==>
      rc == dev.open.descriptor.data[2]
    ensures rc > 0 && |dev.open.descriptor.data| < HUB_DESCRIPTOR_MIN_LENGTH ==>
      rc == |dev.open.descriptor.data|
  {
    if dev.deviceClass != LIBUSB_CLASS_HUB then 0
    else match dev.open
      case OpenFailed(e) => e
      case Opened(TransferFailed(e)) => e
      case Opened(Received(data)) =>
        if |data| >= HUB_DESCRIPTOR_MIN_LENGTH then
          if PerPortSwitching(data[3]) then
            if minCurrent > 0 && data[6] < minCurrent then -1 else data[2]
          else 0
        else |data|
  }

  /** The two bit fields decide alone: any other LPSM or OCPM value, whatever
      the other bytes say, leaves the hub unclassified (result 0). */
  lemma GangedOrUnprotectedIsNotSmart(dev: Device, minCurrent: int)
    requires dev.deviceClass == LIBUSB_CLASS_HUB
    requires dev.open.Opened? && dev.open.descriptor.Received?
    requires |dev.open.descriptor.data| >= HUB_DESCRIPTOR_MIN_LENGTH
    requires var c := dev.open.descriptor.data[3] as bv8;
      c & HUB_CHAR_LPSM != HUB_CHAR_INDV_PORT_LPSM || c & HUB_CHAR_OCPM != HUB_CHAR_INDV_PORT_OCPM
    ensures IsSmartHub(dev, minCurrent) == 0
  {
  }

  /** With `minCurrent` 0 (internal hubs allowed) a per-port hub's result is
      its port count, and never an error. */
  lemma InternalAllowedGivesPortCount(dev: Device)
    requires dev.deviceClass == LIBUSB_CLASS_HUB
    requires dev.open.Opened? && dev.open.descriptor.Received?
    requires |dev.open.descriptor.data| >= HUB_DESCRIPTOR_MIN_LENGTH
    requires PerPortSwitching(dev.open.descriptor.data[3])
    ensures IsSmartHub(dev, 0) == dev.open.descriptor.data[2]
  {
  }

  /** The classification only depends on the characteristics bits masked by
      LPSM and OCPM: flipping any other bit of byte 3 changes nothing. */
  lemma OnlyMaskedBitsMatter(c: Byte, d: Byte)
    requires (c as bv8) & (HUB_CHAR_LPSM | HUB_CHAR_OCPM) == (d as bv8) & (HUB_CHAR_LPSM | HUB_CHAR_OCPM)
    ensures PerPortSwitching(c) <==> PerPortSwitching(d)
  {
  }

  /** Bytes 3 equal to 0x09 (per-port LPSM and OCPM) or with extra TT-think-time
      and indicator bits set are per-port; 0x00 (ganged) and 0x02 (no switching) are not. */
  lemma PerPortExamples()
    ensures PerPortSwitching(0x09) && PerPortSwitching(0xE9) && PerPortSwitching(0x0D)
    ensures !PerPortSwitching(0x00) && !PerPortSwitching(0x02) && !PerPortSwitching(0x11) && !PerPortSwitching(0x01)
  {
  }
}
