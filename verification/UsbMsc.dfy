/** The enumeration run of the USB mass-storage host: the callbacks of the
    driver, which store what the device answers and submit further transfers. */
module UsbMsc {

  type byte = x: int | 0 <= x < 256

  // ---------- the wire formats ----------

  const CMD_MAX_LUN: int := 0x01
  const CMD_INQUIRY: int := 0x12
  const CMD_READ_CAPACITY: int := 0x25

  /** A command the driver issues during enumeration. */
  datatype Command = ReadCapacity(lun: byte) | Inquiry

  /** MSC_SCSI_INIT_CBW: signature, tag, length, direction, LUN, and the block
      with the operation code; an inquiry also names its allocation length. */
  function Wrapper(c: Command): (w: seq<byte>)
    ensures |w| == 31
  {
    var lun: byte := if c.Inquiry? then 0 else c.lun;
    var length: byte := if c.Inquiry? then 36 else 8;
    var opcode: byte := if c.Inquiry? then 0x12 else 0x25;
    var allocation: byte := if c.Inquiry? then 36 else 0;
    [0x55, 0x53, 0x42, 0x43, 0x34, 0x12, 0, 0, length, 0, 0, 0, 0x80, lun, 10,
     opcode, 0, 0, 0, allocation, 0, 0, 0, 0, 0, 0, 0, 0, 0, 0, 0]
  }

  datatype Option<T> = None | Some(value: T)

  /** Least significant byte first, as Bulk-Only Transport writes numbers. */
  function LittleEndian(data: seq<byte>, i: nat): nat
    requires i + 4 <= |data|
  {
    var a: int, b: int, c: int, d: int := data[i], data[i + 1], data[i + 2], data[i + 3];
    a + 0x100 * (b + 0x100 * (c + 0x100 * d))
  }

  /** How a device reads a wrapper, by section 5.1 of USB Mass Storage Class
      Bulk-Only Transport 1.0: the signature, data towards the host, and a
      transfer length and a command that agree. */
  function Understood(w: seq<byte>): Option<Command> {
    if |w| != 31 || w[..4] != [0x55, 0x53, 0x42, 0x43] || w[12] / 0x80 != 1 || !(1 <= w[14] <= 16) then None
    else if w[15] == 0x25 && LittleEndian(w, 8) == 8 then Some(ReadCapacity(w[13]))
    else if w[15] == 0x12 && LittleEndian(w, 8) == 36 && w[19] == 36 then Some(Inquiry)
    else None
  }

  /** Most significant byte first, as SCSI writes numbers. */
  function BigEndian(data: seq<byte>, i: nat): nat
    requires i + 4 <= |data|
  {
    var a: int, b: int, c: int, d: int := data[i], data[i + 1], data[i + 2], data[i + 3];
    a * 0x1000000 + b * 0x10000 + c * 0x100 + d
  }

  /** How the completion callback tells transfers apart. */
  datatype Reading = MaxLun | CommandWrapper | StatusWrapper | Data

  function Classify(data: seq<byte>): Reading {
    if |data| == 9 && data[0] == 0xA1 && data[1] == 0xFE then MaxLun
    else if |data| == 31 && data[..4] == [0x55, 0x53, 0x42, 0x43] then CommandWrapper
    else if |data| == 13 && data[..4] == [0x55, 0x53, 0x42, 0x53] then StatusWrapper
    else Data
  }

  /** The same tests on the numbers that the code compares with. */
  lemma ClassifyIs(data: seq<byte>)
    ensures Classify(data) == MaxLun <==> |data| == 9 && (data[0] as int) + 0x100 * (data[1] as int) == 0xfea1
    ensures Classify(data) == CommandWrapper <==> |data| == 31 && LittleEndian(data, 0) == 0x43425355
    ensures Classify(data) == StatusWrapper <==> |data| == 13 && LittleEndian(data, 0) == 0x53425355
  {
    if |data| >= 4 {
      FirstFour(data, [0x55, 0x53, 0x42, 0x43]);
      FirstFour(data, [0x55, 0x53, 0x42, 0x53]);
    }
  }

  /** Four bytes and their number determine each other. */
  lemma FirstFour(data: seq<byte>, w: seq<byte>)
    requires |data| >= 4 && |w| == 4
    ensures data[..4] == w <==> LittleEndian(data, 0) == LittleEndian(w, 0)
  {
    if LittleEndian(data, 0) == LittleEndian(w, 0) {
      var d := data[..4];
      assert d[0] == w[0] && d[1] == w[1] && d[2] == w[2] && d[3] == w[3];
      assert d == w;
    }
  }

  // ---------- the driver as functions of its fields ----------

  /** The fields of the device object, and the transfers that were submitted
      and have not completed: the control one, the wrappers going out, and the
      room of those waiting for input. */
  datatype Host = Host(event: int, lun: byte, luns: byte, count: seq<nat>, size: seq<nat>,
                       control: bool, out: seq<seq<byte>>, input: seq<nat>, submitted: nat, freed: nat)

  predicate Shaped(h: Host) { |h.count| == 4 && |h.size| == 4 }

  function Csw(h: Host): Host
    requires Shaped(h)
  {
    h.(input := h.input + [h.size[0]], submitted := h.submitted + 1)
  }

  function Send(h: Host, c: Command): Host
    requires Shaped(h)
  {
    Csw(h.(out := h.out + [Wrapper(c)], submitted := h.submitted + 1))
  }

  function GetCapacity(h: Host, lun: byte): Host
    requires Shaped(h)
  {
    Send(h.(lun := lun, event := CMD_READ_CAPACITY), ReadCapacity(lun))
  }

  function AskInquiry(h: Host): Host
    requires Shaped(h)
  {
    Send(h.(event := CMD_INQUIRY), Inquiry)
  }

  function EmitEvent(h: Host, data: seq<byte>): Host
    requires Shaped(h) && (h.event == CMD_MAX_LUN ==> |data| > 8)
  {
    if h.event == CMD_MAX_LUN then GetCapacity(h.(luns := data[8], lun := 0), 0)
    else if h.event == CMD_READ_CAPACITY then
      if h.lun < h.luns then GetCapacity(h, h.lun + 1) else AskInquiry(h)
    else h
  }

  function OnData(h: Host, data: seq<byte>): Host
    requires Shaped(h) && (h.event == CMD_READ_CAPACITY ==> h.lun < 4 && |data| >= 8)
  {
    if h.event == CMD_INQUIRY then Csw(h)
    else if h.event == CMD_READ_CAPACITY then
      Csw(h.(count := h.count[h.lun := BigEndian(data, 0)], size := h.size[h.lun := BigEndian(data, 4)]))
    else h
  }

  /** The callback stays inside its arrays: a capacity has eight bytes and is
      that of one of the first four units. */
  predicate InBounds(h: Host, data: seq<byte>) {
    match Classify(data)
    case MaxLun => true
    case CommandWrapper => true
    case StatusWrapper => true
    case Data => h.event == CMD_READ_CAPACITY ==> h.lun < 4 && |data| >= 8
  }

  /** usb_transfer_cb */
  function TransferCallback(h: Host, data: seq<byte>): Host
    requires Shaped(h) && InBounds(h, data)
  {
    var h' := match Classify(data)
      case MaxLun => EmitEvent(h, data)
      case CommandWrapper => h
      case StatusWrapper => EmitEvent(h, data)
      case Data => OnData(h, data);
    h'.(freed := h'.freed + 1)
  }

  /** init, up to the submission of the first request. */
  const STARTED := Host(CMD_MAX_LUN, 0, 0, [0, 0, 0, 0], [4096, 0, 0, 0], true, [], [], 1, 0)

  // ---------- the driver updating its fields ----------

  class MscDevice {
    var event: int
    var lun: byte
    var luns: byte
    var blockCount: array<nat>
    var blockSize: array<nat>
    var control: bool
    var out: seq<seq<byte>>
    var input: seq<nat>
    var submitted: nat
    var freed: nat

    ghost function Fields(): Host
      reads this, blockCount, blockSize
    {
      Host(event, lun, luns, blockCount[..], blockSize[..], control, out, input, submitted, freed)
    }

    ghost predicate Valid()
      reads this, blockCount, blockSize
    {
      blockCount.Length == 4 && blockSize.Length == 4 && blockCount != blockSize
    }

    constructor ()
      ensures Valid() && fresh(blockCount) && fresh(blockSize) && Fields() == STARTED
    {
      blockCount := new nat[4](_ => 0);
      blockSize := new nat[4](i => if i == 0 then 4096 else 0);
      lun, luns, out, input := 0, 0, [], [];
      event, control, submitted, freed := CMD_MAX_LUN, true, 1, 0;
    }

    /** _csw */
    method SubmitInput()
      requires Valid()
      modifies this`input, this`submitted
      ensures Valid() && Fields() == Csw(old(Fields()))
    {
      input := input + [blockSize[0]];
      submitted := submitted + 1;
    }

    /** _getCapacity */
    method RequestCapacity(n: byte)
      requires Valid()
      modifies this`lun, this`event, this`out, this`input, this`submitted
      ensures Valid() && Fields() == GetCapacity(old(Fields()), n)
    {
      lun := n;
      event := CMD_READ_CAPACITY;
      out := out + [Wrapper(ReadCapacity(n))];
      submitted := submitted + 1;
      SubmitInput();
    }

    /** _inquiry */
    method RequestInquiry()
      requires Valid()
      modifies this`event, this`out, this`input, this`submitted
      ensures Valid() && Fields() == AskInquiry(old(Fields()))
    {
      event := CMD_INQUIRY;
      out := out + [Wrapper(Inquiry)];
      submitted := submitted + 1;
      SubmitInput();
    }

    /** _setCapacity */
    method StoreCapacity(count: nat, size: nat)
      requires Valid() && lun < 4
      modifies blockCount, blockSize, this`input, this`submitted
      ensures Valid()
      ensures Fields() == Csw(old(Fields()).(count := old(blockCount[..])[lun := count], size := old(blockSize[..])[lun := size]))
    {
      blockCount[lun] := count;
      blockSize[lun] := size;
      SubmitInput();
    }

    /** _emitEvent, as onCSW calls it */
    method OnCsw(data: seq<byte>)
      requires Valid() && (event == CMD_MAX_LUN ==> |data| > 8)
      modifies this`lun, this`luns, this`event, this`out, this`input, this`submitted
      ensures Valid() && Fields() == EmitEvent(old(Fields()), data)
    {
      if event == CMD_MAX_LUN {
        luns := data[8];
        lun := 0;
        RequestCapacity(lun);
      } else if event == CMD_READ_CAPACITY {
        if lun < luns {
          lun := lun + 1;
          RequestCapacity(lun);
        } else {
          RequestInquiry();
        }
      }
    }

    /** onData */
    method OnInput(data: seq<byte>)
      requires Valid() && (event == CMD_READ_CAPACITY ==> lun < 4 && |data| >= 8)
      modifies blockCount, blockSize, this`input, this`submitted
      ensures Valid() && Fields() == OnData(old(Fields()), data)
    {
      if event == CMD_INQUIRY {
        SubmitInput();
      } else if event == CMD_READ_CAPACITY {
        StoreCapacity(BigEndian(data, 0), BigEndian(data, 4));
      }
    }

    /** usb_transfer_cb */
    method OnTransfer(data: seq<byte>)
      requires Valid() && InBounds(Fields(), data)
      modifies this, blockCount, blockSize
      ensures Valid() && Fields() == TransferCallback(old(Fields()), data)
      ensures blockCount == old(blockCount) && blockSize == old(blockSize)
    {
      if |data| == 9 && data[0] == 0xA1 && data[1] == 0xFE {
        OnCsw(data);
      } else if |data| == 31 && data[..4] == [0x55, 0x53, 0x42, 0x43] {
      } else if |data| == 13 && data[..4] == [0x55, 0x53, 0x42, 0x53] {
        OnCsw(data);
      } else {
        OnInput(data);
      }
      freed := freed + 1;
    }
  }
}
