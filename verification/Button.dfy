/** The button driver: one handler call as a function, and the handler as a
    method that updates the fields of the device structure in place. */
module Button {

  datatype Event = PressDown | PressUp | PressRepeat | SingleClick | DoubleClick | LongPressStart | LongPressHold | NonePress

  /** The tick limits of the configuration. */
  datatype Config = Config(debounce: nat, short: nat, long: nat)

  const TICKS_MOD := 65536  // ticks is 16 bits wide
  const REPEAT_MOD := 256   // repeat is 8 bits wide
  const COUNT_MOD := 8      // debounce_cnt is 3 bits wide

  /** The fields of the device that the handler uses. */
  datatype Device = Device(ticks: nat, repeat: nat, event: Event, state: nat, count: nat, active: bool, level: bool)

  /** A device as button_create_com leaves it. */
  function Created(active: bool): Device { Device(0, 0, NonePress, 0, 0, active, !active) }

  // ---------- one call of the handler ----------

  function Debounce(cfg: Config, d: Device, sample: bool): Device {
    if sample == d.level then d.(count := 0)
    else
      var count := (d.count + 1) % COUNT_MOD;
      if count >= cfg.debounce then d.(level := sample, count := 0) else d.(count := count)
  }

  /** The new device and the callback slots that are called, in order. */
  datatype Outcome = Outcome(device: Device, events: seq<Event>)

  function Gesture(cfg: Config, d: Device): Outcome {
    var pressed := d.level == d.active;
    match d.state
    case 0 =>
      if pressed then Outcome(d.(event := PressDown, ticks := 0, repeat := 1, state := 1), [PressDown])
      else Outcome(d.(event := NonePress), [])
    case 1 =>
      if !pressed then Outcome(d.(event := PressUp, ticks := 0, state := 2), [PressUp])
      else if d.ticks > cfg.long then Outcome(d.(event := LongPressStart, state := 5), [LongPressStart])
      else Outcome(d, [])
    case 2 =>
      if pressed then
        Outcome(d.(event := PressDown, repeat := (d.repeat + 1) % REPEAT_MOD, ticks := 0, state := 3), [PressDown, PressRepeat])
      else if d.ticks > cfg.short then
        if d.repeat == 1 then Outcome(d.(event := SingleClick, state := 0), [SingleClick])
        else if d.repeat == 2 then Outcome(d.(event := DoubleClick, state := 0), [DoubleClick])
        else Outcome(d.(state := 0), [])
      else Outcome(d, [])
    case 3 =>
      if !pressed then
        if d.ticks < cfg.short then Outcome(d.(event := PressUp, ticks := 0, state := 2), [PressUp])
        else Outcome(d.(event := PressUp, state := 0), [PressUp])
      else Outcome(d, [])
    case 5 =>
      if pressed then Outcome(d.(event := LongPressHold), [LongPressHold])
      else Outcome(d.(event := PressUp, state := 0), [PressUp])
    case _ => Outcome(d, [])
  }

  function Tick(d: Device): Device { if d.state > 0 then d.(ticks := (d.ticks + 1) % TICKS_MOD) else d }

  function Handle(cfg: Config, d: Device, sample: bool): Outcome { Gesture(cfg, Debounce(cfg, Tick(d), sample)) }

  // ---------- whole runs ----------

  /** The device after a sequence of samples. */
  function After(cfg: Config, d: Device, samples: seq<bool>): Device {
    if samples == [] then d
    else Handle(cfg, After(cfg, d, samples[..|samples| - 1]), samples[|samples| - 1]).device
  }

  /** The callback slots called over a sequence of samples. */
  function Trace(cfg: Config, d: Device, samples: seq<bool>): seq<Event> {
    if samples == [] then []
    else
      var before := samples[..|samples| - 1];
      Trace(cfg, d, before) + Handle(cfg, After(cfg, d, before), samples[|samples| - 1]).events
  }

  // ---------- the handler ----------

  /** What reaches the application: only slots that hold a callback. */
  function Heard(events: seq<Event>, registered: set<Event>): seq<Event> {
    if events == [] then []
    else Heard(events[..|events| - 1], registered) +
         if events[|events| - 1] in registered then [events[|events| - 1]] else []
  }

  lemma HeardFew(registered: set<Event>, first: Event, second: Event)
    ensures Heard([first, second], registered) == Heard([first], registered) + Heard([second], registered)
  {
    assert [first, second][..1] == [first];
    assert [second][..0] == [];
  }

  lemma HeardNothing(registered: set<Event>)
    ensures Heard([], registered) == []
  {
  }

  /** A constant set of callbacks hears a run piece by piece. */
  lemma {:induction false} HeardConcat(s: seq<Event>, t: seq<Event>, registered: set<Event>)
    ensures Heard(s + t, registered) == Heard(s, registered) + Heard(t, registered)
  {
    if t == [] {
      assert s + t == s;
    } else {
      assert (s + t)[..|s + t| - 1] == s + t[..|t| - 1];
      HeardConcat(s, t[..|t| - 1], registered);
    }
  }

  lemma HeardOne(event: Event, registered: set<Event>)
    ensures Heard([event], registered) == if event in registered then [event] else []
  {
    assert [event][..0] == [];
  }

  /** heard is what stands in events at the places at, which rise, and those are
      the places of registered events. */
  ghost predicate Picked(events: seq<Event>, registered: set<Event>, heard: seq<Event>, at: seq<nat>) {
    && |at| == |heard| && (forall k :: 0 <= k < |at| ==> at[k] < |events| && heard[k] == events[at[k]])
    && (forall j, k :: 0 <= j < k < |at| ==> at[j] < at[k])
    && forall i :: 0 <= i < |events| ==> (events[i] in registered <==> i in at)
  }

  lemma PickedLast(before: seq<Event>, event: Event, registered: set<Event>, heard: seq<Event>, at: seq<nat>)
    requires Picked(before, registered, heard, at)
    ensures if event in registered then Picked(before + [event], registered, heard + [event], at + [|before|])
            else Picked(before + [event], registered, heard, at)
  {
    if event in registered {
      var at' := at + [|before|];
      assert at'[|at|] == |before|;
      assert forall k :: 0 <= k < |at| ==> at'[k] == at[k];
      forall i | 0 <= i < |before| ensures i in at' <==> i in at {
        assert i in at ==> exists k :: 0 <= k < |at| && at'[k] == i;
      }
    } else {
      assert |before| !in at;
    }
  }

  /** Of a run every call is made that has a callback, in order, and no other. */
  lemma {:induction false} HeardPicks(events: seq<Event>, registered: set<Event>) returns (at: seq<nat>)
    ensures Picked(events, registered, Heard(events, registered), at)
  {
    if events == [] {
      at := [];
    } else {
      hide Picked;
      var n := |events| - 1;
      at := HeardPicks(events[..n], registered);
      PickedLast(events[..n], events[n], registered, Heard(events[..n], registered), at);
      assert events[..n] + [events[n]] == events;
      if events[n] in registered {
        at := at + [n];
      } else {
        assert Heard(events, registered) == Heard(events[..n], registered);
      }
    }
  }

  /** So a callback is made as often as its event occurs, or never. */
  lemma {:induction false} HeardCounts(events: seq<Event>, registered: set<Event>, event: Event)
    ensures multiset(Heard(events, registered))[event] == if event in registered then multiset(events)[event] else 0
  {
    if events == [] {
    } else {
      var n := |events| - 1;
      HeardCounts(events[..n], registered, event);
      assert events == events[..n] + [events[n]];
    }
  }

  class ButtonDev {
    const cfg: Config
    var ticks: nat
    var repeat: nat
    var event: Event
    var state: nat
    var debounceCnt: nat
    var activeLevel: bool
    var buttonLevel: bool
    var cb: set<Event>
    ghost var heard: seq<Event>

    ghost function Fields(): Device
      reads this
    {
      Device(ticks, repeat, event, state, debounceCnt, activeLevel, buttonLevel)
    }

    /** The fields as button_create_com sets them. */
    constructor (cfg: Config, active: bool)
      ensures this.cfg == cfg && Fields() == Created(active) && cb == {} && heard == []
    {
      this.cfg := cfg;
      ticks, repeat, event, state, debounceCnt := 0, 0, NonePress, 0, 0;
      activeLevel, buttonLevel, cb, heard := active, !active, {}, [];
    }

    /** iot_button_register_cb; the function given may be null. */
    method RegisterCallback(ev: Event, given: bool) returns (ok: bool)
      modifies this`cb
      ensures ok <==> ev != NonePress
      ensures cb == if !ok then old(cb) else if given then old(cb) + {ev} else old(cb) - {ev}
    {
      if ev == NonePress {
        return false;
      }
      cb := if given then cb + {ev} else cb - {ev};
      return true;
    }

    /** iot_button_unregister_cb */
    method UnregisterCallback(ev: Event) returns (ok: bool)
      modifies this`cb
      ensures ok <==> ev != NonePress
      ensures cb == if ok then old(cb) - {ev} else old(cb)
    {
      if ev == NonePress {
        return false;
      }
      cb := cb - {ev};
      return true;
    }

    /** iot_button_get_event */
    method GetEvent() returns (e: Event)
      ensures e == Fields().event
    {
      return event;
    }

    /** iot_button_get_repeat */
    method GetRepeat() returns (n: nat)
      ensures n == Fields().repeat
    {
      return repeat;
    }

    /** CALL_EVENT_CB */
    method Call(ev: Event)
      modifies this`heard
      ensures heard == old(heard) + Heard([ev], cb)
    {
      assert Heard([ev][..0], cb) == [];
      if ev in cb {
        heard := heard + [ev];
      }
    }

    /** button_handler, with the level read from the hardware as argument. */
    method Handler(sample: bool)
      modifies this`ticks, this`repeat, this`event, this`state, this`debounceCnt, this`buttonLevel, this`heard
      ensures Fields() == Handle(cfg, old(Fields()), sample).device
      ensures heard == old(heard) + Heard(Handle(cfg, old(Fields()), sample).events, cb)
    {
      if state > 0 {
        ticks := (ticks + 1) % TICKS_MOD;
      }
      Sense(sample);
      Advance();
    }

    /** The handler called by the timer, once for every sample. */
    method Feed(samples: seq<bool>)
      modifies this`ticks, this`repeat, this`event, this`state, this`debounceCnt, this`buttonLevel, this`heard
      ensures Fields() == After(cfg, old(Fields()), samples)
      ensures heard == old(heard) + Heard(Trace(cfg, old(Fields()), samples), cb)
    {
      hide Handle, Heard;
      ghost var d := Fields();
      HeardNothing(cb);
      for i := 0 to |samples|
        invariant Fields() == After(cfg, d, samples[..i])
        invariant heard == old(heard) + Heard(Trace(cfg, d, samples[..i]), cb)
      {
        assert samples[..i + 1][..i] == samples[..i];
        HeardConcat(Trace(cfg, d, samples[..i]), Handle(cfg, Fields(), samples[i]).events, cb);
        Handler(samples[i]);
      }
      assert samples[..|samples|] == samples;
    }

    /** The debouncing part of the handler. */
    method Sense(sample: bool)
      modifies this`debounceCnt, this`buttonLevel
      ensures Fields() == Debounce(cfg, old(Fields()), sample)
    {
      if sample != buttonLevel {
        debounceCnt := (debounceCnt + 1) % COUNT_MOD;
        if debounceCnt >= cfg.debounce {
          buttonLevel := sample;
          debounceCnt := 0;
        }
      } else {
        debounceCnt := 0;
      }
    }

    /** The state machine part of the handler. */
    method Advance()
      modifies this`ticks, this`repeat, this`event, this`state, this`heard
      ensures Fields() == Gesture(cfg, old(Fields())).device
      ensures heard == old(heard) + Heard(Gesture(cfg, old(Fields())).events, cb)
    {
      HeardNothing(cb);
      HeardFew(cb, PressDown, PressRepeat);
      hide Heard;
      match state
      case 0 =>
        if buttonLevel == activeLevel {
          event := PressDown;
          Call(PressDown);
          ticks := 0;
          repeat := 1;
          state := 1;
        } else {
          event := NonePress;
        }
      case 1 =>
        if buttonLevel != activeLevel {
          event := PressUp;
          Call(PressUp);
          ticks := 0;
          state := 2;
        } else if ticks > cfg.long {
          event := LongPressStart;
          Call(LongPressStart);
          state := 5;
        }
      case 2 =>
        if buttonLevel == activeLevel {
          event := PressDown;
          Call(PressDown);
          repeat := (repeat + 1) % REPEAT_MOD;
          Call(PressRepeat);
          ticks := 0;
          state := 3;
        } else if ticks > cfg.short {
          if repeat == 1 {
            event := SingleClick;
            Call(SingleClick);
          } else if repeat == 2 {
            event := DoubleClick;
            Call(DoubleClick);
          }
          state := 0;
        }
      case 3 =>
        if buttonLevel != activeLevel {
          event := PressUp;
          Call(PressUp);
          if ticks < cfg.short {
            ticks := 0;
            state := 2;
          } else {
            state := 0;
          }
        }
      case 5 =>
        if buttonLevel == activeLevel {
          event := LongPressHold;
          Call(LongPressHold);
        } else {
          event := PressUp;
          Call(PressUp);
          state := 0;
        }
      case _ =>
    }
  }
}
