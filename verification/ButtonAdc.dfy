/** The ADC slot table: buttons of a few channels kept in a fixed number of
    slots, searched by a lookup that does not ask whether a slot is in use. */
module ButtonAdc {

  /** ADC_BUTTON_MAX_CHANNEL, ADC_BUTTON_MAX_BUTTON and ADC1_CHANNEL_MAX. */
  datatype Limits = Limits(slots: nat, buttons: nat, channels: nat)

  predicate InMenu(l: Limits) { 1 <= l.slots <= 5 && 1 <= l.buttons <= 10 && 1 <= l.channels }

  datatype ButtonData = ButtonData(min: nat, max: nat)

  datatype Slot = Slot(channel: nat, init: bool, btns: seq<ButtonData>, lastTime: nat)

  datatype Table = Table(configured: bool, slots: seq<Slot>, chNum: nat)

  datatype Status = Ok | InvalidArg | NotSupported | InvalidState

  /** A pending request for a button. */
  datatype Request = Request(channel: nat, index: nat, min: nat, max: nat)

  const FREE := ButtonData(0, 0)

  function EmptySlot(l: Limits): Slot { Slot(0, false, seq(l.buttons, _ => FREE), 0) }

  /** The table after the memset, which is also how the program starts. */
  function Zeroed(l: Limits): Table { Table(false, seq(l.slots, _ => EmptySlot(l)), 0) }

  // ---------- the code as functions of the table ----------

  /** find_channel: the first slot that carries the channel, or -1. */
  function FindChannel(slots: seq<Slot>, channel: nat, from: nat): (r: int)
    requires from <= |slots|
    ensures r == -1 || (from <= r < |slots| && slots[r].channel == channel)
    ensures forall i :: from <= i < (if r == -1 then |slots| else r) ==> slots[i].channel != channel
    decreases |slots| - from
  {
    if from == |slots| then -1 else if slots[from].channel == channel then from else FindChannel(slots, channel, from + 1)
  }

  /** find_unused_channel: the first slot that is not initialised, or -1. */
  function FindUnused(slots: seq<Slot>, from: nat): (r: int)
    requires from <= |slots|
    ensures r == -1 || (from <= r < |slots| && !slots[r].init)
    ensures forall i :: from <= i < (if r == -1 then |slots| else r) ==> slots[i].init
    decreases |slots| - from
  {
    if from == |slots| then -1 else if !slots[from].init then from else FindUnused(slots, from + 1)
  }

  predicate Shaped(l: Limits, t: Table) {
    |t.slots| == l.slots && forall i :: 0 <= i < |t.slots| ==> |t.slots[i].btns| == l.buttons
  }

  function Place(t: Table, channel: nat): int {
    var i := FindChannel(t.slots, channel, 0);
    if i >= 0 then i else FindUnused(t.slots, 0)
  }

  datatype Answer = Answer(status: Status, table: Table)

  /** button_adc_init */
  function Init(l: Limits, t: Table, r: Request): (a: Answer)
    requires Shaped(l, t)
    ensures Shaped(l, a.table)
  {
    if r.channel >= l.channels || r.index >= l.buttons then Answer(NotSupported, t)
    else if r.max == 0 then Answer(InvalidArg, t)
    else
      var i := Place(t, r.channel);
      if i == -1 || (FindChannel(t.slots, r.channel, 0) >= 0 && t.slots[i].btns[r.index].max != 0)
      then Answer(InvalidState, t)
      else
        var s := if t.slots[i].init then t.slots[i] else t.slots[i].(channel := r.channel, init := true, lastTime := 0);
        var s' := s.(btns := s.btns[r.index := ButtonData(r.min, r.max)]);
        Answer(Ok, Table(true, t.slots[i := s'], (t.chNum + 1) % 256))
  }

  predicate AllUnused(s: Slot) { forall i :: 0 <= i < |s.btns| ==> s.btns[i].max == 0 }

  predicate NoneInit(slots: seq<Slot>) { forall i :: 0 <= i < |slots| ==> !slots[i].init }

  /** button_adc_deinit */
  function Deinit(l: Limits, t: Table, channel: nat, index: nat): (a: Answer)
    requires Shaped(l, t)
    ensures Shaped(l, a.table)
  {
    if channel >= l.channels || index >= l.buttons then Answer(InvalidArg, t)
    else
      var i := FindChannel(t.slots, channel, 0);
      if i < 0 then Answer(InvalidArg, t)
      else
        var s := t.slots[i].(btns := t.slots[i].btns[index := FREE]);
        var s' := if AllUnused(s) && s.init then s.(init := false, channel := l.channels) else s;
        var slots := t.slots[i := s'];
        Answer(Ok, if NoneInit(slots) && t.configured then Zeroed(l) else t.(slots := slots))
  }

  // ---------- the table updated in place ----------

  class AdcTable {
    const limits: Limits
    var configured: bool
    var ch: array<Slot>
    var chNum: nat

    ghost function Contents(): Table
      reads this, ch
    {
      Table(configured, ch[..], chNum)
    }

    ghost predicate Valid()
      reads this, ch
    {
      InMenu(limits) && Shaped(limits, Contents())
    }

    constructor (limits: Limits)
      requires InMenu(limits)
      ensures Valid() && fresh(ch) && this.limits == limits && Contents() == Zeroed(limits)
    {
      this.limits := limits;
      configured, chNum := false, 0;
      ch := new Slot[limits.slots](_ => EmptySlot(limits));
    }

    method FindChannelIndex(channel: nat) returns (r: int)
      ensures r == FindChannel(ch[..], channel, 0)
    {
      for i := 0 to ch.Length
        invariant FindChannel(ch[..], channel, 0) == FindChannel(ch[..], channel, i)
      {
        if channel == ch[i].channel {
          return i;
        }
      }
      return -1;
    }

    method FindUnusedIndex() returns (r: int)
      ensures r == FindUnused(ch[..], 0)
    {
      for i := 0 to ch.Length
        invariant FindUnused(ch[..], 0) == FindUnused(ch[..], i)
      {
        if !ch[i].init {
          return i;
        }
      }
      return -1;
    }

    /** button_adc_init */
    method InitButton(r: Request) returns (status: Status)
      requires Valid()
      modifies this`configured, this`chNum, ch
      ensures Valid() && Answer(status, Contents()) == Init(limits, old(Contents()), r)
    {
      if r.channel >= limits.channels || r.index >= limits.buttons {
        return NotSupported;
      }
      if r.max == 0 {
        return InvalidArg;
      }
      var i := FindChannelIndex(r.channel);
      if i >= 0 {
        if ch[i].btns[r.index].max != 0 {
          return InvalidState;
        }
      } else {
        i := FindUnusedIndex();
        if i < 0 {
          return InvalidState;
        }
      }
      if !configured {
        configured := true;
      }
      ghost var s := if ch[i].init then ch[i] else ch[i].(channel := r.channel, init := true, lastTime := 0);
      if !ch[i].init {
        ch[i] := ch[i].(channel := r.channel, init := true, lastTime := 0);
      }
      assert ch[..] == old(ch[..])[i := s];
      StoreRange(i, r);
      chNum := (chNum + 1) % 256;
      return Ok;
    }

    /** The part of button_adc_init that stores the range. */
    method StoreRange(i: nat, r: Request)
      requires i < ch.Length && r.index < |ch[i].btns|
      modifies ch
      ensures ch[..] == old(ch[..])[i := old(ch[i]).(btns := old(ch[i].btns)[r.index := ButtonData(r.min, r.max)])]
    {
      ch[i] := ch[i].(btns := ch[i].btns[r.index := ButtonData(ch[i].btns[r.index].min, r.max)]);
      ch[i] := ch[i].(btns := ch[i].btns[r.index := ButtonData(r.min, ch[i].btns[r.index].max)]);
      assert ch[i].btns == old(ch[i].btns)[r.index := ButtonData(r.min, r.max)];
    }

    /** button_adc_deinit */
    method DeinitButton(channel: nat, index: nat) returns (status: Status)
      requires Valid()
      modifies this`configured, this`chNum, ch
      ensures Valid() && Answer(status, Contents()) == Deinit(limits, old(Contents()), channel, index)
    {
      if channel >= limits.channels || index >= limits.buttons {
        return InvalidArg;
      }
      var i := FindChannelIndex(channel);
      if i < 0 {
        return InvalidArg;
      }
      ch[i] := ch[i].(btns := ch[i].btns[index := FREE]);
      var unusedButtons := CountUnusedButtons(i);
      if unusedButtons == limits.buttons && ch[i].init {
        ch[i] := ch[i].(init := false, channel := limits.channels);
      }
      assert ch[..] == old(ch[..])[i := ch[i]];
      var unusedSlots := CountUnusedSlots();
      if unusedSlots == limits.slots && configured {
        configured := false;
        forall k | 0 <= k < ch.Length {
          ch[k] := EmptySlot(limits);
        }
        chNum := 0;
        assert ch[..] == Zeroed(limits).slots;
      }
      return Ok;
    }

    /** The loop over the buttons of a slot. */
    method CountUnusedButtons(i: nat) returns (unused: nat)
      requires i < ch.Length
      ensures unused == |ch[i].btns| <==> AllUnused(ch[i])
    {
      unused := 0;
      var k := 0;
      while k < |ch[i].btns|
        invariant unused <= k <= |ch[i].btns|
        invariant unused == k <==> forall j :: 0 <= j < k ==> ch[i].btns[j].max == 0
      {
        if ch[i].btns[k].max == 0 {
          unused := unused + 1;
        }
        k := k + 1;
      }
    }

    /** The loop over the slots. */
    method CountUnusedSlots() returns (unused: nat)
      ensures unused == ch.Length <==> NoneInit(ch[..])
    {
      unused := 0;
      for k := 0 to ch.Length
        invariant unused <= k
        invariant unused == k <==> forall j :: 0 <= j < k ==> !ch[j].init
      {
        if !ch[k].init {
          unused := unused + 1;
        }
      }
    }
  }
}
