/** The driver against a device that keeps to the Bulk-Only Transport, with
    completions in any order: which devices it enumerates, and how far it gets
    with the others. */
module UsbEnumeration {
  import opened UsbMsc

  // ---------- the device ----------

  /** What a unit says of its capacity: two numbers. */
  datatype Medium = Medium(blocks: nat, size: nat)

  /** A device: the highest LUN, the medium of each unit, the inquiry data, and
      the rest of its status wrappers. */
  datatype Device = Device(maxLun: byte, media: seq<Medium>, inquiry: seq<byte>, tail: seq<byte>, setup: seq<byte>)

  /** A number of 32 bits on the wire, most significant byte first. */
  function MsbFirst(n: nat): (w: seq<byte>)
    ensures |w| == 4
  {
    [n / 0x1000000 % 0x100, n / 0x10000 % 0x100, n / 0x100 % 0x100, n % 0x100]
  }

  /** The answer to READ CAPACITY. */
  function CapacityAnswer(m: Medium): (w: seq<byte>)
    ensures |w| == 8
  {
    MsbFirst(m.blocks) + MsbFirst(m.size)
  }

  lemma BytesMakeNumber(n: nat)
    requires n < 0x1_0000_0000
    ensures n / 0x1000000 % 0x100 * 0x1000000 + n / 0x10000 % 0x100 * 0x10000 + n / 0x100 % 0x100 * 0x100 + n % 0x100 == n
  {
  }

  lemma NumberIsRead(n: nat, before: seq<byte>, after: seq<byte>)
    requires n < 0x1_0000_0000
    ensures BigEndian(before + MsbFirst(n) + after, |before|) == n
  {
    BytesMakeNumber(n);
    var w := before + MsbFirst(n) + after;
    var i := |before|;
    assert w[i] == n / 0x1000000 % 0x100 && w[i + 1] == n / 0x10000 % 0x100;
    assert w[i + 2] == n / 0x100 % 0x100 && w[i + 3] == n % 0x100;
  }

  /** The driver reads the numbers that the unit has. */
  lemma CapacityIsRead(m: Medium)
    requires m.blocks < 0x1_0000_0000 && m.size < 0x1_0000_0000
    ensures BigEndian(CapacityAnswer(m), 0) == m.blocks && BigEndian(CapacityAnswer(m), 4) == m.size
  {
    var a, b := MsbFirst(m.blocks), MsbFirst(m.size);
    NumberIsRead(m.blocks, [], b);
    NumberIsRead(m.size, a, []);
    assert [] + a + b == a + b && a + b + [] == a + b;
  }

  /** A device with any number of units and blocks of any size. */
  ghost predicate Conforming(d: Device) {
    && |d.media| == d.maxLun as int + 1
    && (forall i :: 0 <= i < |d.media| ==> d.media[i].blocks < 0x1_0000_0000 && d.media[i].size < 0x1_0000_0000)
    && |d.inquiry| == 36 && |d.tail| == 9 && |d.setup| == 6
  }

  /** The block size of the first unit, which the driver also takes for the
      size of all its later input transfers. */
  ghost function BlockSize(d: Device): nat
    requires Conforming(d)
  {
    d.media[0].size
  }

  /** Between commands, with data to send, or with a status to send. */
  datatype Phase = Waiting | Sending(command: Command) | Reporting(command: Command)

  /** The whole system: the driver, the device, the wrappers received by the
      device whose completion the driver has not been told, and the commands
      the device has received. */
  datatype System = System(host: Host, phase: Phase, unreported: seq<seq<byte>>, received: seq<Command>)

  const INITIAL := System(STARTED, Waiting, [], [])

  /** Something that can happen next, in any order the transfers allow. */
  datatype Action = Answer | Receive | Report | SendData | SendStatus

  ghost predicate Enabled(d: Device, s: System, a: Action) {
    match a
    case Answer => s.host.control
    case Receive => s.phase == Waiting && s.host.out != [] && Understood(s.host.out[0]).Some?
    case Report => s.unreported != []
    case SendData => s.phase.Sending? && s.host.input != [] && |DataFor(d, s.phase.command)| <= s.host.input[0]
    case SendStatus => s.phase.Reporting? && s.host.input != [] && 13 <= s.host.input[0]
  }

  function DataFor(d: Device, c: Command): seq<byte> {
    match c
    case Inquiry => d.inquiry
    case ReadCapacity(lun) => if lun as int < |d.media| then CapacityAnswer(d.media[lun]) else []
  }

  /** The answer to the first request, behind the echo of its setup packet. */
  function MaxLunAnswer(d: Device): seq<byte> { [0xA1, 0xFE] + d.setup + [d.maxLun] }

  function StatusAnswer(d: Device): seq<byte> { [0x55, 0x53, 0x42, 0x53] + d.tail }

  /** The transfer that completes with this action, and what is in its buffer. */
  ghost function Taken(d: Device, s: System, a: Action): (r: (Host, seq<byte>))
    requires Enabled(d, s, a) && a != Receive
  {
    match a
    case Answer => (s.host.(control := false), MaxLunAnswer(d))
    case Report => (s.host, s.unreported[0])
    case SendData => (s.host.(input := s.host.input[1..]), DataFor(d, s.phase.command))
    case SendStatus => (s.host.(input := s.host.input[1..]), StatusAnswer(d))
  }

  /** The driver can take this completion. */
  ghost predicate Safe(d: Device, s: System, a: Action) {
    Enabled(d, s, a) && (a != Receive ==> var (h, data) := Taken(d, s, a); Shaped(h) && InBounds(h, data))
  }

  ghost function Step(d: Device, s: System, a: Action): System
    requires Safe(d, s, a)
  {
    if a == Receive then
      var c := Understood(s.host.out[0]).value;
      System(s.host.(out := s.host.out[1..]), Sending(c), s.unreported + [s.host.out[0]], s.received + [c])
    else
      var (h, data) := Taken(d, s, a);
      System(TransferCallback(h, data),
             (match a case SendData => Reporting(s.phase.command) case SendStatus => Waiting case _ => s.phase),
             (if a == Report then s.unreported[1..] else s.unreported),
             s.received)
  }

  // ---------- where the run is ----------

  /** The first request, unit n in its three phases, the inquiry in its three
      phases, or the end. */
  datatype Stage = First | Unit(n: nat, part: nat) | Asking(part: nat) | Finished

  function CapacitiesUpTo(n: nat): seq<Command>
    requires n <= 256
  {
    if n == 0 then [] else CapacitiesUpTo(n - 1) + [ReadCapacity(n - 1)]
  }

  /** The commands received when unit n or the inquiry is in a given part: the
      wrapper is on its way in part 0, data is due in 1, the status in 2. */
  ghost function Commands(d: Device, g: Stage): seq<Command>
    requires g.Unit? ==> g.n <= d.maxLun as int
  {
    match g
    case First => []
    case Unit(n, part) => CapacitiesUpTo(if part == 0 then n else n + 1)
    case Asking(part) => CapacitiesUpTo(d.maxLun as int + 1) + if part == 0 then [] else [Inquiry]
    case Finished => CapacitiesUpTo(d.maxLun as int + 1) + [Inquiry]
  }

  /** How many units have had their capacity stored. */
  ghost function StoredUnits(d: Device, g: Stage): nat {
    match g
    case First => 0
    case Unit(n, part) => if part == 2 then n + 1 else n
    case _ => d.maxLun as int + 1
  }

  ghost predicate Stored(d: Device, h: Host, n: nat)
    requires Shaped(h)
  {
    n <= |d.media| && n <= 4 && forall i :: 0 <= i < n ==> h.count[i] == d.media[i].blocks && h.size[i] == d.media[i].size
  }

  /** One exchange: the wrapper is out, or the device is at work on it; the
      transfer that waits for its answer has the given room. */
  ghost predicate Exchange(s: System, c: Command, part: nat, room: nat) {
    && part <= 2
    && s.host.out == (if part == 0 then [Wrapper(c)] else [])
    && s.phase == (if part == 0 then Waiting else if part == 1 then Sending(c) else Reporting(c))
    && s.host.input == [room]
  }

  /** The room of the waiting transfer: 4096 bytes until the first capacity is
      stored, and from then on the block size of the first unit. */
  ghost function RoomAt(d: Device, g: Stage): nat
    requires Conforming(d)
  {
    if StoredUnits(d, g) == 0 then 4096 else BlockSize(d)
  }

  ghost predicate At(d: Device, s: System, g: Stage)
    requires Conforming(d)
  {
    match g
    case First => s.host.control && s.host.event == CMD_MAX_LUN && s.host.out == [] && s.host.input == [] && s.phase == Waiting
    case Unit(n, part) =>
      && !s.host.control && n <= d.maxLun as int && s.host.lun as int == n && s.host.luns == d.maxLun
      && s.host.event == CMD_READ_CAPACITY && Exchange(s, ReadCapacity(n), part, RoomAt(d, g))
    case Asking(part) => !s.host.control && s.host.event == CMD_INQUIRY && Exchange(s, Inquiry, part, RoomAt(d, g))
    case Finished => !s.host.control && s.host.event == CMD_INQUIRY && s.host.out == [] && s.host.input == [] && s.phase == Waiting
  }

  /** Transfers submitted and not freed are exactly those not completed yet or
      completed and not reported. */
  ghost predicate Balanced(s: System) {
    s.host.submitted == s.host.freed + (if s.host.control then 1 else 0) + |s.host.out| + |s.host.input| + |s.unreported|
  }

  ghost predicate Inv(d: Device, s: System, g: Stage)
    requires Conforming(d)
  {
    && Shaped(s.host) && s.host.size[0] == RoomAt(d, g)
    && At(d, s, g) && Stored(d, s.host, StoredUnits(d, g)) && s.received == Commands(d, g) && Balanced(s)
    && forall i :: 0 <= i < |s.unreported| ==> Classify(s.unreported[i]) == CommandWrapper
  }

  /** The stage after an action. */
  ghost function NextStage(d: Device, g: Stage, a: Action): Stage {
    if a == Report then g
    else
      match g
      case First => Unit(0, 0)
      case Unit(n, part) =>
        if part < 2 then Unit(n, part + 1) else if n < d.maxLun as int then Unit(n + 1, 0) else Asking(0)
      case Asking(part) => if part < 2 then Asking(part + 1) else Finished
      case Finished => Finished
  }

  lemma WrapperIsUnderstood(c: Command)
    ensures Understood(Wrapper(c)) == Some(c) && Classify(Wrapper(c)) == CommandWrapper
  {
    assert Wrapper(c)[..4] == [0x55, 0x53, 0x42, 0x43];
  }

  lemma AnswersAreTold(d: Device, c: Command)
    requires Conforming(d) && (c.ReadCapacity? ==> c.lun <= d.maxLun)
    ensures Classify(MaxLunAnswer(d)) == MaxLun && MaxLunAnswer(d)[8] == d.maxLun
    ensures Classify(StatusAnswer(d)) == StatusWrapper
    ensures Classify(DataFor(d, c)) == Data
  {
    assert StatusAnswer(d)[..4] == [0x55, 0x53, 0x42, 0x53];
  }

  // ---------- one action ----------

  lemma AnswerKeeps(d: Device, s: System, g: Stage)
    requires Conforming(d) && Inv(d, s, g) && Safe(d, s, Answer)
    ensures Inv(d, Step(d, s, Answer), NextStage(d, g, Answer))
  {
    AnswersAreTold(d, Inquiry);
  }

  lemma ReceiveKeeps(d: Device, s: System, g: Stage)
    requires Conforming(d) && Inv(d, s, g) && Safe(d, s, Receive)
    ensures Inv(d, Step(d, s, Receive), NextStage(d, g, Receive))
  {
    var c := if g.Unit? then ReadCapacity(g.n) else Inquiry;
    WrapperIsUnderstood(c);
  }

  lemma ReportKeeps(d: Device, s: System, g: Stage)
    requires Conforming(d) && Inv(d, s, g) && Safe(d, s, Report)
    ensures Inv(d, Step(d, s, Report), g)
  {
    assert Classify(s.unreported[0]) == CommandWrapper;
  }

  lemma StoredSame(d: Device, h: Host, h': Host, n: nat)
    requires Shaped(h) && h'.count == h.count && h'.size == h.size && Stored(d, h, n)
    ensures Stored(d, h', n)
  {
  }

  lemma OneMoreStored(d: Device, h: Host, h': Host, n: nat)
    requires Conforming(d) && Shaped(h) && Stored(d, h, n) && n <= d.maxLun as int && n < 4
    requires h'.count == h.count[n := d.media[n].blocks] && h'.size == h.size[n := d.media[n].size]
    ensures Stored(d, h', n + 1)
    ensures h'.size[0] == if n == 0 then BlockSize(d) else h.size[0]
  {
  }

  lemma SendDataKeeps(d: Device, s: System, g: Stage)
    requires Conforming(d) && Inv(d, s, g) && Safe(d, s, SendData)
    ensures Inv(d, Step(d, s, SendData), NextStage(d, g, SendData))
  {
    hide Classify, StatusAnswer, MaxLunAnswer, BigEndian, Wrapper, Understood, Stored, CapacitiesUpTo, BlockSize, CapacityAnswer;
    AnswersAreTold(d, s.phase.command);
    var next := Step(d, s, SendData).host;
    if g.Unit? {
      CapacityIsRead(d.media[g.n]);
      OneMoreStored(d, s.host, next, g.n);
    } else {
      StoredSame(d, s.host, next, StoredUnits(d, g));
    }
  }

  lemma SendStatusKeeps(d: Device, s: System, g: Stage)
    requires Conforming(d) && Inv(d, s, g) && Safe(d, s, SendStatus)
    ensures Inv(d, Step(d, s, SendStatus), NextStage(d, g, SendStatus))
  {
    hide Classify, StatusAnswer, DataFor, MaxLunAnswer, BigEndian, Wrapper, Understood, Stored, CapacitiesUpTo;
    AnswersAreTold(d, s.phase.command);
    StoredSame(d, s.host, Step(d, s, SendStatus).host, StoredUnits(d, g));
  }

  lemma StepKeeps(d: Device, s: System, g: Stage, a: Action)
    requires Conforming(d) && Inv(d, s, g) && Safe(d, s, a)
    ensures Inv(d, Step(d, s, a), NextStage(d, g, a))
  {
    hide Inv, Safe, Step;
    match a
    case Answer => AnswerKeeps(d, s, g);
    case Receive => ReceiveKeeps(d, s, g);
    case Report => ReportKeeps(d, s, g);
    case SendData => SendDataKeeps(d, s, g);
    case SendStatus => SendStatusKeeps(d, s, g);
  }

  // ---------- how far a run gets ----------

  /** Actions left: four for every command, one of them the report, and one
      for the first answer. */
  ghost function Left(d: Device, g: Stage): nat {
    match g
    case First => 4 * (d.maxLun as int + 2) + 1
    case Unit(n, part) => if n <= d.maxLun as int && part <= 2 then 4 * (d.maxLun as int + 2 - n) - (if part == 0 then 0 else part + 1) else 0
    case Asking(part) => if part == 0 then 4 else if part == 1 then 2 else 1
    case Finished => 0
  }

  ghost function Measure(d: Device, s: System, g: Stage): nat { Left(d, g) + |s.unreported| }

  lemma StepUsesOne(d: Device, s: System, g: Stage, a: Action)
    requires Conforming(d) && Inv(d, s, g) && Safe(d, s, a)
    ensures Measure(d, Step(d, s, a), NextStage(d, g, a)) + 1 == Measure(d, s, g)
  {
  }

  /** Status wrappers take 13 bytes and inquiry data 36.  A transfer with less
      room cannot take them; it is taken to stay pending, and the run ends. */
  ghost function EndOf(d: Device): Stage
    requires Conforming(d)
  {
    if BlockSize(d) < 13 then Unit(0, 2) else if BlockSize(d) < 36 then Asking(1) else Finished
  }

  ghost predicate NotBeyondEnd(d: Device, g: Stage)
    requires Conforming(d)
  {
    Left(d, EndOf(d)) <= Left(d, g)
  }

  lemma EndIsNotPassed(d: Device, s: System, g: Stage, a: Action)
    requires Conforming(d) && Inv(d, s, g) && Safe(d, s, a) && NotBeyondEnd(d, g)
    ensures NotBeyondEnd(d, NextStage(d, g, a))
  {
    hide Classify, BigEndian, Understood, Stored;
  }

  /** Before the end there is something that can happen. */
  lemma NeverStuck(d: Device, s: System, g: Stage) returns (a: Action)
    requires Conforming(d) && Inv(d, s, g) && NotBeyondEnd(d, g)
    requires s.unreported != [] || g != EndOf(d)
    ensures Enabled(d, s, a) && (a == Report || s.unreported == [])
  {
    if s.unreported != [] {
      a := Report;
    } else {
      var part := match g case Unit(_, p) => p case Asking(p) => p case _ => 0;
      WrapperIsUnderstood(if g.Unit? then ReadCapacity(g.n) else Inquiry);
      a := if g == First then Answer else if part == 0 then Receive else if part == 1 then SendData else SendStatus;
    }
  }

  lemma StuckAtEnd(d: Device, s: System, g: Stage, a: Action)
    requires Conforming(d) && Inv(d, s, g) && g == EndOf(d) && s.unreported == []
    ensures !Enabled(d, s, a)
  {
    hide Classify, BigEndian, Understood, Stored;
  }

  lemma OnlyEndIsLeft(d: Device, s: System, g: Stage)
    requires Conforming(d) && Inv(d, s, g) && Left(d, g) == Left(d, EndOf(d))
    ensures g == EndOf(d)
  {
    hide Classify, BigEndian, Understood, Stored;
  }

  /** Only the data of a fifth unit would go past the end of the arrays. */
  lemma UnsafeOnlyAtFifth(d: Device, s: System, g: Stage, a: Action)
    requires Conforming(d) && Inv(d, s, g) && Enabled(d, s, a)
    ensures Safe(d, s, a) <==> !(a == SendData && g == Unit(4, 1))
  {
    hide BigEndian, Understood, Wrapper;
    if a == SendData || a == SendStatus {
      AnswersAreTold(d, s.phase.command);
    }
    if a == Answer {
      AnswersAreTold(d, Inquiry);
    }
    if a == Report {
      assert Classify(s.unreported[0]) == CommandWrapper;
    }
  }

  // ---------- whole runs ----------

  /** A run in which every action was possible when it happened. */
  ghost predicate Possible(d: Device, s: System, actions: seq<Action>)
    decreases |actions|
  {
    actions == [] ||
    (Safe(d, s, actions[0]) && Possible(d, Step(d, s, actions[0]), actions[1..]))
  }

  ghost function Run(d: Device, s: System, actions: seq<Action>): System
    requires Possible(d, s, actions)
    decreases |actions|
  {
    if actions == [] then s else Run(d, Step(d, s, actions[0]), actions[1..])
  }

  ghost function StageAfter(d: Device, g: Stage, actions: seq<Action>): Stage
    decreases |actions|
  {
    if actions == [] then g else StageAfter(d, NextStage(d, g, actions[0]), actions[1..])
  }

  lemma {:induction false} RunKeeps(d: Device, s: System, g: Stage, actions: seq<Action>)
    requires Conforming(d) && Inv(d, s, g) && NotBeyondEnd(d, g) && Possible(d, s, actions)
    ensures Inv(d, Run(d, s, actions), StageAfter(d, g, actions)) && NotBeyondEnd(d, StageAfter(d, g, actions))
    ensures Measure(d, Run(d, s, actions), StageAfter(d, g, actions)) + |actions| == Measure(d, s, g)
    decreases |actions|
  {
    hide Inv, Step, Measure, NextStage, Safe, NotBeyondEnd;
    if actions == [] {
    } else {
      StepKeeps(d, s, g, actions[0]);
      StepUsesOne(d, s, g, actions[0]);
      EndIsNotPassed(d, s, g, actions[0]);
      RunKeeps(d, Step(d, s, actions[0]), NextStage(d, g, actions[0]), actions[1..]);
    }
  }

  lemma StartsRight(d: Device)
    requires Conforming(d)
    ensures Inv(d, INITIAL, First) && NotBeyondEnd(d, First)
    ensures Measure(d, INITIAL, First) == 4 * (d.maxLun as int + 2) + 1
  {
    hide BigEndian;
  }

  /** What holds at every moment of every run: at most one transfer waits for
      input, capacities arrive under their own LUN, and no transfer is lost or
      freed twice. */
  lemma EveryMoment(d: Device, actions: seq<Action>)
    requires Conforming(d) && Possible(d, INITIAL, actions)
    ensures var s, g := Run(d, INITIAL, actions), StageAfter(d, First, actions);
            && |s.host.input| <= 1 && |s.host.out| <= 1 && Balanced(s)
            && Shaped(s.host) && Stored(d, s.host, StoredUnits(d, g))
            && |actions| <= 4 * (d.maxLun as int + 2) + 1
  {
    StartsRight(d);
    RunKeeps(d, INITIAL, First, actions);
  }

  // ---------- which devices are safe ----------

  /** At most four units, or so small a block that a run does not get beyond
      the first unit. */
  ghost predicate FitsArrays(d: Device)
    requires Conforming(d)
  {
    d.maxLun <= 3 || BlockSize(d) < 13
  }

  lemma NoFifthUnit(d: Device, s: System, g: Stage)
    requires Conforming(d) && Inv(d, s, g) && NotBeyondEnd(d, g) && FitsArrays(d)
    ensures g != Unit(4, 1)
  {
    hide Classify, BigEndian, Understood, Stored;
  }

  /** A run on to the moment when the capacity of the fifth unit is due. */
  lemma {:induction false} ToFifthUnit(d: Device, s: System, g: Stage) returns (actions: seq<Action>)
    requires Conforming(d) && Inv(d, s, g) && !FitsArrays(d) && Left(d, Unit(4, 1)) <= Left(d, g)
    ensures Possible(d, s, actions) && StageAfter(d, g, actions) == Unit(4, 1)
    decreases Measure(d, s, g)
  {
    hide Step, NextStage, Safe, Enabled;
    if g == Unit(4, 1) {
      actions := [];
    } else {
      NotYetFifth(d, s, g);
      var a := NeverStuck(d, s, g);
      UnsafeOnlyAtFifth(d, s, g, a);
      StepKeeps(d, s, g, a);
      StepUsesOne(d, s, g, a);
      StillNotBeyondFifth(d, s, g, a);
      var rest := ToFifthUnit(d, Step(d, s, a), NextStage(d, g, a));
      actions := [a] + rest;
      assert actions[1..] == rest;
    }
  }

  lemma NotYetFifth(d: Device, s: System, g: Stage)
    requires Conforming(d) && Inv(d, s, g) && !FitsArrays(d) && Left(d, Unit(4, 1)) <= Left(d, g)
    ensures NotBeyondEnd(d, g) && g != EndOf(d)
  {
    hide Classify, BigEndian, Understood, Stored;
  }

  lemma StillNotBeyondFifth(d: Device, s: System, g: Stage, a: Action)
    requires Conforming(d) && Inv(d, s, g) && !FitsArrays(d) && Left(d, Unit(4, 1)) <= Left(d, g) && g != Unit(4, 1)
    ensures Left(d, Unit(4, 1)) <= Left(d, NextStage(d, g, a))
  {
    hide Classify, BigEndian, Understood, Stored;
  }

  /** The callbacks stay inside their arrays, in every run, exactly when the
      device has at most four units, or blocks of its first unit that end the
      run before a second one. */
  lemma CallbacksStayInside(d: Device)
    requires Conforming(d)
    ensures (forall actions, a ::
               Possible(d, INITIAL, actions) && Enabled(d, Run(d, INITIAL, actions), a) ==> Safe(d, Run(d, INITIAL, actions), a)) <==>
            FitsArrays(d)
  {
    hide Possible, Run, Enabled, Safe, Inv, Left, FitsArrays;
    StartsRight(d);
    if FitsArrays(d) {
      forall actions, a | Possible(d, INITIAL, actions) && Enabled(d, Run(d, INITIAL, actions), a)
        ensures Safe(d, Run(d, INITIAL, actions), a)
      {
        AlwaysSafe(d, actions, a);
      }
    } else {
      FirstIsBeforeFifth(d);
      var actions := ToFifthUnit(d, INITIAL, First);
      RunKeeps(d, INITIAL, First, actions);
      FifthIsDue(d, Run(d, INITIAL, actions));
      UnsafeOnlyAtFifth(d, Run(d, INITIAL, actions), Unit(4, 1), SendData);
    }
  }

  lemma FirstIsBeforeFifth(d: Device)
    requires Conforming(d) && !FitsArrays(d)
    ensures Left(d, Unit(4, 1)) <= Left(d, First)
  {
  }

  lemma FifthIsDue(d: Device, s: System)
    requires Conforming(d) && Inv(d, s, Unit(4, 1)) && !FitsArrays(d)
    ensures Enabled(d, s, SendData)
  {
  }

  lemma AlwaysSafe(d: Device, actions: seq<Action>, a: Action)
    requires Conforming(d) && FitsArrays(d)
    requires Possible(d, INITIAL, actions) && Enabled(d, Run(d, INITIAL, actions), a)
    ensures Safe(d, Run(d, INITIAL, actions), a)
  {
    hide Possible, Run, Enabled, Safe, Inv, Left, FitsArrays;
    var s, g := Run(d, INITIAL, actions), StageAfter(d, First, actions);
    StartsRight(d);
    RunKeeps(d, INITIAL, First, actions);
    NoFifthUnit(d, s, g);
    UnsafeOnlyAtFifth(d, s, g, a);
  }

  // ---------- where runs end ----------

  /** READ CAPACITY was issued for every unit once, in order, then one INQUIRY;
      every capacity is stored, and every transfer submitted is freed. */
  ghost predicate Complete(d: Device, s: System)
    requires Conforming(d)
  {
    && s.received == CapacitiesUpTo(d.maxLun as int + 1) + [Inquiry]
    && Shaped(s.host) && Stored(d, s.host, d.maxLun as int + 1)
    && s.host.freed == s.host.submitted && s.host.input == [] && s.host.out == [] && !s.host.control
  }

  /** Every run stops after the same number of actions, whatever their order.
      It is complete then if and only if the blocks of the first unit have at
      least 36 bytes; with smaller ones a transfer stays pending, under 13
      bytes in the first exchange and else in the inquiry. */
  lemma EveryEnd(d: Device, actions: seq<Action>)
    requires Conforming(d) && FitsArrays(d) && Possible(d, INITIAL, actions)
    ensures var s := Run(d, INITIAL, actions);
            && ((forall a :: !Enabled(d, s, a)) <==> |actions| + Left(d, EndOf(d)) == 4 * (d.maxLun as int + 2) + 1)
            && ((forall a :: !Enabled(d, s, a)) ==>
                  (Complete(d, s) <==> 36 <= BlockSize(d)) && s.received == Commands(d, EndOf(d)))
  {
    hide Possible, Run, Enabled, Inv, Left, FitsArrays, Complete, NotBeyondEnd, BlockSize, EndOf;
    var s, g := Run(d, INITIAL, actions), StageAfter(d, First, actions);
    StartsRight(d);
    RunKeeps(d, INITIAL, First, actions);
    if g == EndOf(d) && s.unreported == [] {
      forall a ensures !Enabled(d, s, a) {
        StuckAtEnd(d, s, g, a);
      }
      EndIsComplete(d, s);
    } else {
      var a := NeverStuck(d, s, g);
      NotTheEnd(d, s, g);
    }
  }

  lemma NotTheEnd(d: Device, s: System, g: Stage)
    requires Conforming(d) && Inv(d, s, g) && NotBeyondEnd(d, g) && (g != EndOf(d) || s.unreported != [])
    ensures Left(d, EndOf(d)) < Measure(d, s, g)
  {
    hide Inv, EndOf, Left;
    if Left(d, g) == Left(d, EndOf(d)) {
      OnlyEndIsLeft(d, s, g);
    }
  }

  lemma EndIsComplete(d: Device, s: System)
    requires Conforming(d) && Inv(d, s, EndOf(d)) && s.unreported == []
    ensures (Complete(d, s) <==> 36 <= BlockSize(d)) && s.received == Commands(d, EndOf(d))
  {
    hide Classify, BigEndian, Understood, Stored;
  }
}
