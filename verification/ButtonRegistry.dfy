/** The list of buttons, spliced in place, with its timer and the ADC table. */
module ButtonRegistry {
  import opened Button
  import opened ButtonAdc
  import opened ButtonAdcMap

  datatype ButtonType = Gpio | Adc

  /** iot_button_create's argument; the result of the foreign GPIO set-up and
      the number of a pin come with it. */
  datatype ButtonConfig =
    | GpioConfig(pin: nat, activeLevel: bool, setUp: bool)
    | AdcConfig(request: Request)
    | OtherConfig

  const NUMBER_MOD := 65536  // number is 16 bits wide

  /** ADC_BUTTON_COMBINE */
  function Combine(channel: nat, index: nat): nat
    requires index < 256
  {
    channel * 256 + index
  }

  /** ADC_BUTTON_SPLIT_CHANNEL and ADC_BUTTON_SPLIT_INDEX */
  function Split(data: nat): (nat, nat) { (data / 256 % 256, data % 256) }

  lemma SplitCombine(channel: nat, index: nat)
    requires channel < 256 && index < 256
    ensures Split(Combine(channel, index)) == (channel, index)
  {
  }

  class Node {
    var next: Node?
    var device: Device
    var cb: set<Event>
    ghost var heard: seq<Event>
    const usrData: nat
    const kind: ButtonType

    constructor (active: bool, usrData: nat, kind: ButtonType)
      ensures next == null && device == Created(active) && this.usrData == usrData && this.kind == kind
      ensures cb == {} && heard == []
    {
      next, device, cb, heard := null, Created(active), {}, [];
      this.usrData, this.kind := usrData, kind;
    }
  }

  /** The node at an index, or null behind the last one. */
  ghost function NodeAt(nodes: seq<Node>, i: nat): Node? { if i < |nodes| then nodes[i] else null }

  /** The nodes are distinct and each points at the one after it. */
  ghost predicate Chained(head: Node?, nodes: seq<Node>)
    reads nodes
  {
    && head == NodeAt(nodes, 0)
    && (forall i, j :: 0 <= i < j < |nodes| ==> nodes[i] != nodes[j])
    && forall i {:trigger nodes[i].next} :: 0 <= i < |nodes| ==> nodes[i].next == NodeAt(nodes, i + 1)
  }

  lemma ChainedCons(n: Node, head: Node?, nodes: seq<Node>)
    requires Chained(head, nodes) && n.next == head && n !in nodes
    ensures Chained(n, [n] + nodes)
  {
    var all := [n] + nodes;
    forall i | 0 <= i < |all| ensures all[i].next == NodeAt(all, i + 1) {
      if i > 0 {
        assert nodes[i - 1].next == NodeAt(nodes, i);
      }
    }
  }

  /** The ADC nodes and the buttons of the table are in bijection. */
  ghost predicate Matched(nodes: seq<Node>, m: map<(nat, nat), ButtonData>) {
    && (forall i :: 0 <= i < |nodes| && nodes[i].kind == Adc ==> Split(nodes[i].usrData) in m)
    && (forall i, j :: 0 <= i < j < |nodes| && nodes[i].kind == Adc && nodes[j].kind == Adc ==>
          Split(nodes[i].usrData) != Split(nodes[j].usrData))
    && forall k :: k in m ==> exists i :: 0 <= i < |nodes| && nodes[i].kind == Adc && Split(nodes[i].usrData) == k
  }

  function Without(nodes: seq<Node>, n: Node): seq<Node> {
    if nodes == [] then []
    else Without(nodes[..|nodes| - 1], n) + if nodes[|nodes| - 1] == n then [] else [nodes[|nodes| - 1]]
  }

  lemma {:induction false} WithoutAbsent(nodes: seq<Node>, n: Node)
    requires n !in nodes
    ensures Without(nodes, n) == nodes
  {
    if nodes == [] {
    } else {
      WithoutAbsent(nodes[..|nodes| - 1], n);
    }
  }

  lemma {:induction false} WithoutAt(nodes: seq<Node>, k: nat)
    requires k < |nodes| && forall i, j :: 0 <= i < j < |nodes| ==> nodes[i] != nodes[j]
    ensures Without(nodes, nodes[k]) == nodes[..k] + nodes[k + 1..]
  {
    var last := |nodes| - 1;
    if k == last {
      WithoutAbsent(nodes[..last], nodes[k]);
    } else {
      WithoutAt(nodes[..last], k);
      assert nodes[..last][..k] == nodes[..k];
      assert nodes[..last][k + 1..] + [nodes[last]] == nodes[k + 1..];
    }
  }

  class Registry {
    var head: Node?
    var timerRunning: bool
    const adc: AdcTable
    ghost var nodes: seq<Node>

    ghost predicate Valid()
      reads this, nodes, adc, adc.ch
    {
      && Chained(head, nodes)
      && adc.Valid() && adc.limits.channels <= 256 && Good(adc.limits, adc.Contents())
      && Matched(nodes, View(adc.limits, adc.Contents()))
    }

    /** The timer runs exactly while there are buttons. */
    ghost predicate TimerFollows()
      reads this
    {
      timerRunning <==> nodes != []
    }

    constructor (limits: Limits)
      requires InMenu(limits) && limits.channels <= 256
      ensures Valid() && nodes == [] && !timerRunning && TimerFollows()
    {
      head, timerRunning, nodes := null, false, [];
      adc := new AdcTable(limits);
      new;
      ZeroedIsGood(limits);
      ZeroedIsEmpty(limits);
    }

    /** button_create_com */
    method CreateCommon(active: bool, usrData: nat, kind: ButtonType) returns (n: Node)
      requires Chained(head, nodes)
      modifies this
      ensures fresh(n) && n.device == Created(active) && n.usrData == usrData && n.kind == kind
      ensures Chained(head, nodes) && nodes == [n] + old(nodes) && timerRunning
    {
      n := new Node(active, usrData, kind);
      n.next := head;
      assert Chained(head, nodes);
      ChainedCons(n, head, nodes);
      head := n;
      nodes := [n] + nodes;
      if !timerRunning {
        timerRunning := true;
      }
    }

    /** iot_button_create: null when a check fails. */
    method Create(config: ButtonConfig) returns (n: Node?)
      requires Valid()
      modifies this, adc, adc.ch
      ensures Valid()
      ensures n == null ==> nodes == old(nodes) && timerRunning == old(timerRunning) && adc.Contents() == old(adc.Contents())
      ensures n != null ==> fresh(n) && nodes == [n] + old(nodes) && timerRunning
      ensures n != null <==>
                match config
                case GpioConfig(_, _, setUp) => setUp
                case AdcConfig(r) => Allowed(adc.limits, old(View(adc.limits, adc.Contents())), r)
                case OtherConfig => false
      ensures old(TimerFollows()) ==> TimerFollows()
      ensures n != null && config.GpioConfig? ==>
                && n.kind == Gpio && n.usrData == config.pin && n.device == Created(config.activeLevel)
      ensures n != null && config.AdcConfig? ==>
                && n.kind == Adc && n.usrData == config.request.channel * 256 + config.request.index
                && Split(n.usrData) == (config.request.channel, config.request.index)
                && n.device == Created(true)
      ensures config.AdcConfig? || adc.Contents() == old(adc.Contents())
    {
      match config
      case GpioConfig(pin, active, setUp) =>
        if !setUp {
          return null;
        }
        n := CreateCommon(active, pin, Gpio);
        GpioMatched(n, old(nodes), View(adc.limits, adc.Contents()));
      case AdcConfig(r) =>
        InitIsMapInsert(adc.limits, adc.Contents(), r);
        InitKeepsGood(adc.limits, adc.Contents(), r);
        var status := adc.InitButton(r);
        if status != Ok {
          return null;
        }
        SplitCombine(r.channel, r.index);
        n := CreateCommon(true, Combine(r.channel, r.index), Adc);
        AdcMatched(n, old(nodes), old(View(adc.limits, adc.Contents())), ButtonData(r.min, r.max));
      case OtherConfig =>
        return null;
    }

    /** button_delete_com */
    method DeleteCommon(n: Node)
      requires Chained(head, nodes)
      modifies this`head, this`nodes, this`timerRunning, nodes`next
      ensures nodes == Without(old(nodes), n) && Chained(head, nodes)
      ensures timerRunning == (old(timerRunning) && |nodes| % 65536 != 0)
    {
      Unlink(n);
      var number := CountNodes();
      if number == 0 && timerRunning {
        timerRunning := false;
      }
    }

    /** The first loop of button_delete_com.  curr is the address of a link: of
        the head when prev is null, else of prev's next. */
    method Unlink(n: Node)
      requires Chained(head, nodes)
      modifies this`head, this`nodes, nodes`next
      ensures nodes == Without(old(nodes), n) && Chained(head, nodes)
    {
      var prev: Node? := null;
      var entry := head;
      ghost var pos := 0;
      ghost var gone := false;
      while entry != null
        invariant 0 <= pos <= |nodes| && Chained(head, nodes)
        invariant forall x :: x in nodes ==> x in old(nodes)
        invariant entry == NodeAt(nodes, pos)
        invariant prev == if pos == 0 then null else nodes[pos - 1]
        invariant !gone ==> nodes == old(nodes) && n !in nodes[..pos]
        invariant gone ==> n !in nodes && nodes == Without(old(nodes), n)
        decreases |nodes| - pos
      {
        if entry == n {
          WithoutAt(nodes, pos);
          TakeOut(prev, entry, pos);
          gone := true;
          assert prev != null ==> prev == nodes[pos - 1] && nodes[pos - 1].next == NodeAt(nodes, pos);
          entry := if prev == null then head else prev.next;
        } else {
          assert nodes[pos].next == NodeAt(nodes, pos + 1);
          prev := entry;
          entry := entry.next;
          pos := pos + 1;
        }
      }
      if !gone {
        WithoutAbsent(nodes, n);
      }
    }

    /** The assignment to the link that points at the entry to remove. */
    method TakeOut(prev: Node?, entry: Node, ghost pos: nat)
      requires Chained(head, nodes) && pos < |nodes| && entry == nodes[pos]
      requires prev == if pos == 0 then null else nodes[pos - 1]
      modifies this`head, this`nodes, nodes`next
      ensures nodes == old(nodes)[..pos] + old(nodes)[pos + 1..] && Chained(head, nodes)
    {
      ghost var all := nodes;
      assert entry.next == NodeAt(all, pos + 1);
      nodes := all[..pos] + all[pos + 1..];
      if prev == null {
        head := entry.next;
      } else {
        prev.next := entry.next;
      }
      assert forall i :: 0 <= i < |nodes| ==> nodes[i] == all[if i < pos then i else i + 1];
      forall i | 0 <= i < |nodes| ensures nodes[i].next == NodeAt(nodes, i + 1) {
        var k := if i < pos then i else i + 1;
        assert nodes[i] == all[k];
        if i + 1 != pos {
          assert old(all[k].next) == NodeAt(all, k + 1);
        }
      }
    }

    /** The second loop of button_delete_com. */
    method CountNodes() returns (number: nat)
      requires Chained(head, nodes)
      ensures number == |nodes| % NUMBER_MOD
    {
      number := 0;
      var target := head;
      ghost var pos := 0;
      while target != null
        invariant 0 <= pos <= |nodes| && number == pos % NUMBER_MOD
        invariant target == NodeAt(nodes, pos)
        decreases |nodes| - pos
      {
        target := target.next;
        number := (number + 1) % NUMBER_MOD;
        pos := pos + 1;
      }
    }

    /** The switch of iot_button_delete: release the hardware behind a button. */
    method Release(n: Node, cleanedUp: bool) returns (ok: bool)
      requires Valid() && n in nodes
      modifies adc`configured, adc`chNum, adc.ch
      ensures ok <==> n.kind == Adc || cleanedUp
      ensures adc.Valid() && Good(adc.limits, adc.Contents())
      ensures View(adc.limits, adc.Contents()) ==
              if n.kind == Adc then old(View(adc.limits, adc.Contents())) - {Split(n.usrData)}
              else old(View(adc.limits, adc.Contents()))
    {
      hide View, Deinit, Good, Matched;
      match n.kind
      case Gpio =>
        return cleanedUp;
      case Adc =>
        ghost var t := adc.Contents();
        var (channel, index) := Split(n.usrData);
        AdcDeinitWorks(adc.limits, t, nodes, n);
        DeinitKeepsGood(adc.limits, t, channel, index);
        DeinitIsMapRemove(adc.limits, t, channel, index);
        var status := adc.DeinitButton(channel, index);
        return status == Ok;
    }

    /** iot_button_delete, with the result of the foreign GPIO clean-up. */
    method Delete(n: Node, cleanedUp: bool) returns (ok: bool)
      requires Valid() && n in nodes
      modifies this`head, this`nodes, this`timerRunning, nodes`next
      modifies adc`configured, adc`chNum, adc.ch
      ensures Valid()
      ensures ok <==> n.kind == Adc || cleanedUp
      ensures nodes == if ok then Without(old(nodes), n) else old(nodes)
      ensures timerRunning == (old(timerRunning) && (ok ==> |nodes| % 65536 != 0))
      ensures old(TimerFollows()) ==> (TimerFollows() <==> !ok || nodes == [] || |nodes| % 65536 != 0)
      ensures View(adc.limits, adc.Contents()) ==
              if n.kind == Adc then old(View(adc.limits, adc.Contents())) - {Split(n.usrData)}
              else old(View(adc.limits, adc.Contents()))
    {
      hide View, Good, Matched, Without;
      ghost var m := View(adc.limits, adc.Contents());
      ok := Release(n, cleanedUp);
      if !ok {
        return;
      }
      ghost var k :| 0 <= k < |nodes| && nodes[k] == n;
      WithoutAt(nodes, k);
      RemovedMatched(nodes, k, m);
      DeleteCommon(n);
    }

    /** button_cb: every button of the list is handled once, with its own level,
        and its own callbacks are made. */
    method TimerCallback(cfg: Config, levels: map<Node, bool>)
      requires Chained(head, nodes) && forall x :: x in nodes ==> x in levels
      modifies nodes`device, nodes`heard
      ensures Chained(head, nodes)
      ensures forall x :: x in nodes ==> x.device == Handle(cfg, old(x.device), levels[x]).device
      ensures forall x :: x in nodes ==> x.heard == old(x.heard) + Heard(Handle(cfg, old(x.device), levels[x]).events, x.cb)
    {
      hide Handle, Heard;
      var target := head;
      ghost var pos := 0;
      while target != null
        invariant 0 <= pos <= |nodes| && Chained(head, nodes)
        invariant target == NodeAt(nodes, pos)
        invariant forall i :: 0 <= i < pos ==> nodes[i].device == Handle(cfg, old(nodes[i].device), levels[nodes[i]]).device
        invariant forall i :: 0 <= i < pos ==>
          nodes[i].heard == old(nodes[i].heard) + Heard(Handle(cfg, old(nodes[i].device), levels[nodes[i]]).events, nodes[i].cb)
        invariant forall i :: pos <= i < |nodes| ==> nodes[i].device == old(nodes[i].device) && nodes[i].heard == old(nodes[i].heard)
        decreases |nodes| - pos
      {
        target.heard := target.heard + Heard(Handle(cfg, target.device, levels[target]).events, target.cb);
        target.device := Handle(cfg, target.device, levels[target]).device;
        target := target.next;
        pos := pos + 1;
      }
    }
  }

  // ---------- the bijection ----------

  lemma GpioMatched(n: Node, nodes: seq<Node>, m: map<(nat, nat), ButtonData>)
    requires n.kind == Gpio && Matched(nodes, m)
    ensures Matched([n] + nodes, m)
  {
    hide Split;
    var all := [n] + nodes;
    assert forall i :: 0 <= i < |all| ==> all[i] == if i == 0 then n else nodes[i - 1];
    forall k | k in m ensures exists i :: 0 <= i < |all| && all[i].kind == Adc && Split(all[i].usrData) == k {
      var i :| 0 <= i < |nodes| && nodes[i].kind == Adc && Split(nodes[i].usrData) == k;
      assert all[i + 1] == nodes[i];
    }
  }

  lemma AdcMatched(n: Node, nodes: seq<Node>, m: map<(nat, nat), ButtonData>, data: ButtonData)
    requires n.kind == Adc && Matched(nodes, m) && Split(n.usrData) !in m
    ensures Matched([n] + nodes, m[Split(n.usrData) := data])
  {
    var all := [n] + nodes;
    var m' := m[Split(n.usrData) := data];
    forall k | k in m' ensures exists i :: 0 <= i < |all| && all[i].kind == Adc && Split(all[i].usrData) == k {
      if k == Split(n.usrData) {
        assert all[0] == n;
      } else {
        var i :| 0 <= i < |nodes| && nodes[i].kind == Adc && Split(nodes[i].usrData) == k;
        assert all[i + 1] == nodes[i];
      }
    }
  }

  lemma RemovedMatched(nodes: seq<Node>, k: nat, m: map<(nat, nat), ButtonData>)
    requires k < |nodes| && Matched(nodes, m)
    ensures Matched(nodes[..k] + nodes[k + 1..], if nodes[k].kind == Adc then m - {Split(nodes[k].usrData)} else m)
  {
    var rest := nodes[..k] + nodes[k + 1..];
    var m' := if nodes[k].kind == Adc then m - {Split(nodes[k].usrData)} else m;
    assert forall i :: 0 <= i < |rest| ==> rest[i] == nodes[if i < k then i else i + 1];
    forall key | key in m' ensures exists i :: 0 <= i < |rest| && rest[i].kind == Adc && Split(rest[i].usrData) == key {
      var i :| 0 <= i < |nodes| && nodes[i].kind == Adc && Split(nodes[i].usrData) == key;
      assert rest[if i < k then i else i - 1] == nodes[i];
    }
  }

  lemma AdcDeinitWorks(l: Limits, t: Table, nodes: seq<Node>, n: Node)
    requires InMenu(l) && Good(l, t) && Matched(nodes, View(l, t)) && n in nodes && n.kind == Adc
    ensures Deinit(l, t, Split(n.usrData).0, Split(n.usrData).1).status == Ok
  {
    var key := Split(n.usrData);
    DeinitSucceeds(l, t, key.0, key.1);
    assert key in View(l, t);
    assert key.0 in ChannelsOf(View(l, t));
  }
}
