/** The slot table is a finite map from (channel, index) to a voltage range. */
module ButtonAdcMap {
  import opened ButtonAdc

  // ---------- the invariant ----------

  ghost predicate CleanSlot(l: Limits, s: Slot) {
    && |s.btns| == l.buttons && s.lastTime == 0
    && (forall i :: 0 <= i < |s.btns| ==> s.btns[i].max == 0 ==> s.btns[i] == FREE)
    && (s.init <==> !AllUnused(s))
    && (if s.init then s.channel < l.channels else s.channel == 0 || s.channel == l.channels)
  }

  /** Two slots in their order: no channel has two initialised slots, and an
      unused slot with channel 0 never stands before one in use for channel 0. */
  ghost predicate Apart(s: Slot, t: Slot) {
    && (s.init && t.init ==> s.channel != t.channel)
    && !(!s.init && s.channel == 0 && t.init && t.channel == 0)
  }

  ghost predicate Good(l: Limits, t: Table) {
    && Shaped(l, t)
    && (forall i :: 0 <= i < |t.slots| ==> CleanSlot(l, t.slots[i]))
    && (forall i, j :: 0 <= i < j < |t.slots| ==> Apart(t.slots[i], t.slots[j]))
    && (t.configured <==> !NoneInit(t.slots))
  }

  lemma ZeroedIsGood(l: Limits)
    requires InMenu(l)
    ensures Good(l, Zeroed(l))
  {
  }

  /** A slot in use is the first one that carries its channel. */
  lemma FirstOfChannel(l: Limits, t: Table, i: nat, k: nat)
    requires Good(l, t) && i <= k < |t.slots|
    ensures t.slots[i].channel == t.slots[k].channel && t.slots[k].init ==> i == k
  {
    if i < k {
      assert Apart(t.slots[i], t.slots[k]);
      assert CleanSlot(l, t.slots[i]) && CleanSlot(l, t.slots[k]);
    }
  }

  /** So the lookup, which ignores the flag, finds the slot in use. */
  lemma SlotOf(l: Limits, t: Table, channel: nat)
    requires Good(l, t) && channel < l.channels
    ensures var i := FindChannel(t.slots, channel, 0);
            forall k :: 0 <= k < |t.slots| && t.slots[k].init && t.slots[k].channel == channel ==> k == i
  {
    var i := FindChannel(t.slots, channel, 0);
    forall k | 0 <= k < |t.slots| && t.slots[k].init && t.slots[k].channel == channel ensures k == i {
      FirstOfChannel(l, t, i, k);
    }
  }

  lemma InitKeepsGood(l: Limits, t: Table, r: Request)
    requires InMenu(l) && Good(l, t)
    ensures Good(l, Init(l, t, r).table)
  {
    var t' := Init(l, t, r).table;
    if Init(l, t, r).status == Ok {
      var i := Place(t, r.channel);
      var s := t'.slots[i];
      assert CleanSlot(l, t.slots[i]);
      assert s.btns[r.index].max != 0;
      forall k | 0 <= k < |t'.slots| ensures CleanSlot(l, t'.slots[k]) {
        assert CleanSlot(l, t.slots[k]);
      }
      forall j, k | 0 <= j < k < |t'.slots| ensures Apart(t'.slots[j], t'.slots[k]) {
        assert Apart(t.slots[j], t.slots[k]);
        assert CleanSlot(l, t.slots[j]) && CleanSlot(l, t.slots[k]);
      }
      assert t'.slots[i].init;
    }
  }

  lemma DeinitKeepsGood(l: Limits, t: Table, channel: nat, index: nat)
    requires InMenu(l) && Good(l, t)
    ensures Good(l, Deinit(l, t, channel, index).table)
  {
    var t' := Deinit(l, t, channel, index).table;
    ZeroedIsGood(l);
    if Deinit(l, t, channel, index).status == Ok && t' != Zeroed(l) {
      forall k | 0 <= k < |t'.slots| ensures CleanSlot(l, t'.slots[k]) {
        assert CleanSlot(l, t.slots[k]);
      }
      forall j, k | 0 <= j < k < |t'.slots| ensures Apart(t'.slots[j], t'.slots[k]) {
        assert Apart(t.slots[j], t.slots[k]);
        assert CleanSlot(l, t.slots[j]) && CleanSlot(l, t.slots[k]);
      }
    }
  }

  // ---------- the map ----------

  /** Some initialised slot of the channel has this button in use. */
  ghost predicate InUse(t: Table, s: nat, channel: nat, index: nat) {
    s < |t.slots| && t.slots[s].init && t.slots[s].channel == channel &&
    index < |t.slots[s].btns| && t.slots[s].btns[index].max != 0
  }

  ghost predicate Has(l: Limits, t: Table, channel: nat, index: nat) {
    exists s: nat :: InUse(t, s, channel, index)
  }

  ghost function Range(l: Limits, t: Table, channel: nat, index: nat): ButtonData
    requires Has(l, t, channel, index)
  {
    var s: nat :| InUse(t, s, channel, index);
    t.slots[s].btns[index]
  }

  /** The buttons of the table and their voltage ranges. */
  ghost function View(l: Limits, t: Table): map<(nat, nat), ButtonData> {
    map c: nat, i: nat | c < l.channels && i < l.buttons && Has(l, t, c, i) :: (c, i) := Range(l, t, c, i)
  }

  /** At most one slot has a given button in use. */
  lemma UseIsUnique(l: Limits, t: Table, s: nat, s': nat, channel: nat, index: nat)
    requires Good(l, t) && InUse(t, s, channel, index) && InUse(t, s', channel, index)
    ensures s == s'
  {
    if s < s' {
      FirstOfChannel(l, t, s, s');
    } else {
      FirstOfChannel(l, t, s', s);
    }
  }

  lemma RangeIsThere(l: Limits, t: Table, s: nat, channel: nat, index: nat)
    requires Good(l, t) && InUse(t, s, channel, index)
    ensures Has(l, t, channel, index) && Range(l, t, channel, index) == t.slots[s].btns[index]
    ensures (channel, index) in View(l, t) && View(l, t)[(channel, index)] == t.slots[s].btns[index]
  {
    var s': nat :| InUse(t, s', channel, index) && Range(l, t, channel, index) == t.slots[s'].btns[index];
    UseIsUnique(l, t, s, s', channel, index);
    assert CleanSlot(l, t.slots[s]);
  }

  lemma KeyInUse(l: Limits, t: Table, k: (nat, nat)) returns (s: nat)
    requires k in View(l, t)
    ensures InUse(t, s, k.0, k.1)
  {
    s :| InUse(t, s, k.0, k.1);
  }

  /** A good table with exactly the buttons of m in use holds the map m. */
  lemma SameView(l: Limits, t: Table, m: map<(nat, nat), ButtonData>)
    requires Good(l, t)
    requires forall s: nat, c: nat, i: nat :: InUse(t, s, c, i) ==> (c, i) in m && m[(c, i)] == t.slots[s].btns[i]
    requires forall k :: k in m ==> exists s: nat :: InUse(t, s, k.0, k.1)
    ensures View(l, t) == m
  {
    hide Good, View, InUse;
    var v := View(l, t);
    forall k: (nat, nat) | k in v ensures k in m && v[k] == m[k] {
      var s := KeyInUse(l, t, k);
      RangeIsThere(l, t, s, k.0, k.1);
    }
    forall k: (nat, nat) | k in m ensures k in v {
      var s: nat :| InUse(t, s, k.0, k.1);
      RangeIsThere(l, t, s, k.0, k.1);
    }
  }

  // ---------- what init and deinit do to the map ----------

  ghost function ChannelsOf(m: map<(nat, nat), ButtonData>): set<nat> { set k | k in m :: k.0 }

  /** A slot is initialised exactly when its channel has a button in the map. */
  lemma ChannelInView(l: Limits, t: Table, channel: nat)
    requires Good(l, t)
    ensures channel in ChannelsOf(View(l, t)) <==> exists s :: 0 <= s < |t.slots| && t.slots[s].init && t.slots[s].channel == channel
  {
    if exists s :: 0 <= s < |t.slots| && t.slots[s].init && t.slots[s].channel == channel {
      var s :| 0 <= s < |t.slots| && t.slots[s].init && t.slots[s].channel == channel;
      assert CleanSlot(l, t.slots[s]);
      var i :| 0 <= i < |t.slots[s].btns| && t.slots[s].btns[i].max != 0;
      assert InUse(t, s, channel, i);
      RangeIsThere(l, t, s, channel, i);
      assert (channel, i).0 in ChannelsOf(View(l, t));
    }
  }

  function InitSlots(slots: seq<Slot>): nat {
    if slots == [] then 0 else InitSlots(slots[..|slots| - 1]) + if slots[|slots| - 1].init then 1 else 0
  }

  ghost function InitChannels(slots: seq<Slot>): set<nat> {
    set s | 0 <= s < |slots| && slots[s].init :: slots[s].channel
  }

  lemma OneMoreChannel(slots: seq<Slot>)
    requires slots != []
    ensures var n := |slots| - 1;
            InitChannels(slots) == InitChannels(slots[..n]) + if slots[n].init then {slots[n].channel} else {}
  {
    var n := |slots| - 1;
    var before := slots[..n];
    var added: set<nat> := if slots[n].init then {slots[n].channel} else {};
    forall c | c in InitChannels(slots) ensures c in InitChannels(before) + added {
      var i :| 0 <= i < |slots| && slots[i].init && slots[i].channel == c;
      assert i < n ==> before[i] == slots[i];
    }
    forall c | c in InitChannels(before) ensures c in InitChannels(slots) {
      var i :| 0 <= i < n && before[i].init && before[i].channel == c;
      assert before[i] == slots[i];
    }
  }

  ghost predicate DistinctChannels(slots: seq<Slot>) {
    forall i, j :: 0 <= i < j < |slots| && slots[i].init && slots[j].init ==> slots[i].channel != slots[j].channel
  }

  lemma NewChannel(slots: seq<Slot>)
    requires slots != [] && DistinctChannels(slots)
    ensures DistinctChannels(slots[..|slots| - 1])
    ensures slots[|slots| - 1].init ==> slots[|slots| - 1].channel !in InitChannels(slots[..|slots| - 1])
  {
  }

  lemma {:induction false} AllInit(slots: seq<Slot>)
    ensures InitSlots(slots) <= |slots|
    ensures InitSlots(slots) == |slots| <==> forall i :: 0 <= i < |slots| ==> slots[i].init
  {
    if slots == [] {
    } else {
      var n := |slots| - 1;
      AllInit(slots[..n]);
      assert forall i :: 0 <= i < n ==> slots[..n][i] == slots[i];
    }
  }

  lemma {:induction false} CountChannels(slots: seq<Slot>)
    requires DistinctChannels(slots)
    ensures |InitChannels(slots)| == InitSlots(slots)
  {
    if slots == [] {
      assert InitChannels(slots) == {};
    } else {
      hide InitChannels, DistinctChannels;
      OneMoreChannel(slots);
      NewChannel(slots);
      CountChannels(slots[..|slots| - 1]);
    }
  }

  /** The channels of the map fill all slots exactly when no slot is unused. */
  lemma FullMeansNoUnused(l: Limits, t: Table)
    requires Good(l, t)
    ensures |ChannelsOf(View(l, t))| <= l.slots
    ensures |ChannelsOf(View(l, t))| == l.slots <==> FindUnused(t.slots, 0) == -1
  {
    forall i, j | 0 <= i < j < |t.slots| && t.slots[i].init && t.slots[j].init ensures t.slots[i].channel != t.slots[j].channel {
      assert Apart(t.slots[i], t.slots[j]);
    }
    CountChannels(t.slots);
    AllInit(t.slots);
    ChannelsAreInit(l, t);
    hide View, ChannelsOf, InitChannels, InitSlots, Good;
  }

  lemma ChannelsAreInit(l: Limits, t: Table)
    requires Good(l, t)
    ensures ChannelsOf(View(l, t)) == InitChannels(t.slots)
  {
    hide View, Good, ChannelsOf;
    forall c ensures c in ChannelsOf(View(l, t)) <==> c in InitChannels(t.slots) {
      ChannelInView(l, t, c);
    }
  }

  /** What the map and the number of slots allow. */
  ghost predicate Allowed(l: Limits, m: map<(nat, nat), ButtonData>, r: Request) {
    && r.channel < l.channels && r.index < l.buttons && r.max > 0
    && (r.channel, r.index) !in m
    && (r.channel in ChannelsOf(m) || |ChannelsOf(m)| < l.slots)
  }

  /** Init adds the requested button, exactly when that is allowed, and changes
      nothing otherwise. */
  lemma InitIsMapInsert(l: Limits, t: Table, r: Request)
    requires InMenu(l) && Good(l, t)
    ensures var a := Init(l, t, r);
            && (a.status == Ok <==> Allowed(l, View(l, t), r))
            && (a.status == Ok ==> View(l, a.table) == View(l, t)[(r.channel, r.index) := ButtonData(r.min, r.max)])
            && (a.status != Ok ==> a.table == t)
            && (a.status == NotSupported <==> r.channel >= l.channels || r.index >= l.buttons)
            && (a.status == InvalidArg <==> r.channel < l.channels && r.index < l.buttons && r.max == 0)
  {
    if r.channel < l.channels && r.index < l.buttons && r.max > 0 {
      InitStatus(l, t, r);
      if Init(l, t, r).status == Ok {
        InitView(l, t, r);
      }
    }
  }

  lemma InitStatus(l: Limits, t: Table, r: Request)
    requires InMenu(l) && Good(l, t)
    requires r.channel < l.channels && r.index < l.buttons && r.max > 0
    ensures Init(l, t, r).status == Ok <==> Allowed(l, View(l, t), r)
  {
    var i := FindChannel(t.slots, r.channel, 0);
    SlotOf(l, t, r.channel);
    ChannelInView(l, t, r.channel);
    FullMeansNoUnused(l, t);
    if i >= 0 {
      assert CleanSlot(l, t.slots[i]);
      if t.slots[i].btns[r.index].max != 0 {
        assert InUse(t, i, r.channel, r.index);
        RangeIsThere(l, t, i, r.channel, r.index);
      }
    }
  }

  /** Init puts one more button in use, and leaves the others as they are. */
  lemma InitUses(l: Limits, t: Table, r: Request, s: nat, c: nat, k: nat)
    requires InMenu(l) && Good(l, t) && Init(l, t, r).status == Ok
    ensures var t' := Init(l, t, r).table;
            if s == Place(t, r.channel) && (c, k) == (r.channel, r.index)
            then InUse(t', s, c, k) && t'.slots[s].btns[k] == ButtonData(r.min, r.max)
            else (InUse(t', s, c, k) <==> InUse(t, s, c, k)) && (InUse(t, s, c, k) ==> t'.slots[s].btns[k] == t.slots[s].btns[k])
  {
    assert CleanSlot(l, t.slots[Place(t, r.channel)]);
  }

  lemma NotInUseYet(l: Limits, t: Table, r: Request, s: nat)
    requires Good(l, t) && Init(l, t, r).status == Ok
    ensures !InUse(t, s, r.channel, r.index)
  {
    SlotOf(l, t, r.channel);
  }

  lemma InitView(l: Limits, t: Table, r: Request)
    requires InMenu(l) && Good(l, t) && Init(l, t, r).status == Ok
    ensures View(l, Init(l, t, r).table) == View(l, t)[(r.channel, r.index) := ButtonData(r.min, r.max)]
  {
    hide View, Init;
    var t' := Init(l, t, r).table;
    var i := Place(t, r.channel);
    var m := View(l, t)[(r.channel, r.index) := ButtonData(r.min, r.max)];
    InitKeepsGood(l, t, r);
    forall s: nat, c: nat, k: nat | InUse(t', s, c, k) ensures (c, k) in m && m[(c, k)] == t'.slots[s].btns[k] {
      InitUses(l, t, r, s, c, k);
      if InUse(t, s, c, k) {
        NotInUseYet(l, t, r, s);
        RangeIsThere(l, t, s, c, k);
      }
    }
    forall k: (nat, nat) | k in m ensures exists s: nat :: InUse(t', s, k.0, k.1) {
      if k == (r.channel, r.index) {
        PlaceIsSlot(l, t, r);
        InitUses(l, t, r, i, k.0, k.1);
      } else {
        var s := KeyInUse(l, t, k);
        InitUses(l, t, r, s, k.0, k.1);
      }
    }
    SameView(l, t', m);
  }

  lemma PlaceIsSlot(l: Limits, t: Table, r: Request)
    requires Shaped(l, t) && Init(l, t, r).status == Ok
    ensures 0 <= Place(t, r.channel) < |t.slots|
  {
  }

  /** Deinit removes the button, if it is there, and touches no other. */
  lemma DeinitIsMapRemove(l: Limits, t: Table, channel: nat, index: nat)
    requires InMenu(l) && Good(l, t)
    ensures View(l, Deinit(l, t, channel, index).table) == View(l, t) - {(channel, index)}
  {
    hide View, Deinit;
    var t' := Deinit(l, t, channel, index).table;
    var m := View(l, t) - {(channel, index)};
    DeinitKeepsGood(l, t, channel, index);
    forall s: nat, c: nat, k: nat | InUse(t', s, c, k) ensures (c, k) in m && m[(c, k)] == t'.slots[s].btns[k] {
      WasInUse(l, t, channel, index, s, c, k);
      RangeIsThere(l, t, s, c, k);
    }
    forall k: (nat, nat) | k in m ensures exists s: nat :: InUse(t', s, k.0, k.1) {
      var s := KeyInUse(l, t, k);
      StillInUse(l, t, channel, index, s, k.0, k.1);
    }
    SameView(l, t', m);
  }

  lemma WasInUse(l: Limits, t: Table, channel: nat, index: nat, s: nat, c: nat, k: nat)
    requires InMenu(l) && Good(l, t)
    requires InUse(Deinit(l, t, channel, index).table, s, c, k)
    ensures InUse(t, s, c, k) && (c, k) != (channel, index)
    ensures Deinit(l, t, channel, index).table.slots[s].btns[k] == t.slots[s].btns[k]
  {
    assert InUse(t, s, c, k);
    if channel < l.channels {
      SlotOf(l, t, channel);
    }
    assert CleanSlot(l, t.slots[s]);
  }

  lemma StillInUse(l: Limits, t: Table, channel: nat, index: nat, s: nat, c: nat, k: nat)
    requires InMenu(l) && Good(l, t) && InUse(t, s, c, k) && (c, k) != (channel, index)
    ensures InUse(Deinit(l, t, channel, index).table, s, c, k)
  {
    if channel < l.channels && index < l.buttons {
      var i := FindChannel(t.slots, channel, 0);
      if i >= 0 {
        var b := t.slots[i].btns[index := FREE];
        var changed := t.slots[i].(btns := b);
        if s == i {
          assert b[k].max != 0;
          assert !AllUnused(changed);
        }
        var slots := t.slots[i := if AllUnused(changed) && changed.init then changed.(init := false, channel := l.channels) else changed];
        assert slots[s].init;
      }
    }
  }

  /** Deinit reports success also when there was nothing to remove: exactly for
      a channel in use, and for channel 0 while a slot was never used. */
  lemma DeinitSucceeds(l: Limits, t: Table, channel: nat, index: nat)
    requires InMenu(l) && Good(l, t)
    ensures Deinit(l, t, channel, index).status == Ok <==>
              && channel < l.channels && index < l.buttons
              && (channel in ChannelsOf(View(l, t)) ||
                  (channel == 0 && exists s :: 0 <= s < |t.slots| && !t.slots[s].init && t.slots[s].channel == 0))
  {
    ChannelInView(l, t, channel);
    var i := FindChannel(t.slots, channel, 0);
    if channel < l.channels && i >= 0 {
      assert CleanSlot(l, t.slots[i]);
    }
  }

  // ---------- every sequence of calls ----------

  datatype Op = Add(request: Request) | Remove(channel: nat, index: nat)

  function Do(l: Limits, t: Table, op: Op): (a: Answer)
    requires Shaped(l, t)
    ensures Shaped(l, a.table)
  {
    match op
    case Add(r) => Init(l, t, r)
    case Remove(c, i) => Deinit(l, t, c, i)
  }

  function DoAll(l: Limits, ops: seq<Op>): (t: Table)
    ensures Shaped(l, t)
  {
    if ops == [] then Zeroed(l) else Do(l, DoAll(l, ops[..|ops| - 1]), ops[|ops| - 1]).table
  }

  /** The same calls on a finite map. */
  ghost function MapDo(l: Limits, m: map<(nat, nat), ButtonData>, op: Op): map<(nat, nat), ButtonData> {
    match op
    case Add(r) => if Allowed(l, m, r) then m[(r.channel, r.index) := ButtonData(r.min, r.max)] else m
    case Remove(c, i) => m - {(c, i)}
  }

  ghost function MapDoAll(l: Limits, ops: seq<Op>): map<(nat, nat), ButtonData> {
    if ops == [] then map[] else MapDo(l, MapDoAll(l, ops[..|ops| - 1]), ops[|ops| - 1])
  }

  lemma ZeroedIsEmpty(l: Limits)
    requires InMenu(l)
    ensures View(l, Zeroed(l)) == map[]
  {
    ZeroedIsGood(l);
    SameView(l, Zeroed(l), map[]);
  }

  /** Over any sequence of calls the table keeps its invariant and holds the
      map that the calls build. */
  lemma {:induction false} TableIsMap(l: Limits, ops: seq<Op>)
    requires InMenu(l)
    ensures Good(l, DoAll(l, ops)) && View(l, DoAll(l, ops)) == MapDoAll(l, ops)
  {
    if ops == [] {
      ZeroedIsGood(l);
      ZeroedIsEmpty(l);
    } else {
      var t := DoAll(l, ops[..|ops| - 1]);
      TableIsMap(l, ops[..|ops| - 1]);
      match ops[|ops| - 1]
      case Add(r) =>
        InitKeepsGood(l, t, r);
        InitIsMapInsert(l, t, r);
      case Remove(c, i) =>
        DeinitKeepsGood(l, t, c, i);
        DeinitIsMapRemove(l, t, c, i);
    }
  }

  // ---------- when there is nothing to remove ----------

  /** The first h slots have been used since the table was last zeroed, and the
      others have not. */
  ghost predicate Marked(l: Limits, t: Table, h: nat) {
    && h <= |t.slots| && (!t.configured ==> h == 0)
    && (forall k :: 0 <= k < h ==> t.slots[k].init || t.slots[k].channel == l.channels)
    && (forall k :: h <= k < |t.slots| ==> !t.slots[k].init && t.slots[k].channel == 0)
  }

  lemma {:induction false} UnusedTail(slots: seq<Slot>, h: nat)
    requires h <= |slots| && forall k :: h <= k < |slots| ==> !slots[k].init
    ensures InitSlots(slots) == InitSlots(slots[..h])
    decreases |slots|
  {
    if h == |slots| {
      assert slots[..h] == slots;
    } else {
      assert slots[..|slots| - 1][..h] == slots[..h];
      UnusedTail(slots[..|slots| - 1], h);
    }
  }

  /** As many channels as used slots mean that none of those is free again. */
  lemma NoFreeSlot(l: Limits, t: Table, h: nat)
    requires Good(l, t) && Marked(l, t, h)
    ensures |ChannelsOf(View(l, t))| <= h
    ensures |ChannelsOf(View(l, t))| == h <==> forall k :: 0 <= k < h ==> t.slots[k].init
  {
    forall i, j | 0 <= i < j < |t.slots| && t.slots[i].init && t.slots[j].init ensures t.slots[i].channel != t.slots[j].channel {
      assert Apart(t.slots[i], t.slots[j]);
    }
    CountChannels(t.slots);
    ChannelsAreInit(l, t);
    UnusedTail(t.slots, h);
    AllInit(t.slots[..h]);
    hide View, ChannelsOf, InitChannels, InitSlots, Good;
    assert forall k :: 0 <= k < h ==> t.slots[..h][k] == t.slots[k];
  }

  /** The mark after a button is added, as the map has it. */
  ghost function MarkAfter(l: Limits, m: map<(nat, nat), ButtonData>, h: nat, channel: nat): nat {
    if channel in ChannelsOf(m) then h
    else if channel == 0 then if h < l.slots then h + 1 else h
    else if |ChannelsOf(m)| < h then h else h + 1
  }

  lemma PlaceOfNew(l: Limits, t: Table, h: nat, channel: nat)
    requires Good(l, t) && Marked(l, t, h) && channel < l.channels
    requires forall k :: 0 <= k < |t.slots| && t.slots[k].init ==> t.slots[k].channel != channel
    ensures var i := Place(t, channel);
            if channel == 0 && h < |t.slots| then i == h
            else if forall k :: 0 <= k < h ==> t.slots[k].init then i == (if h < |t.slots| then h else -1)
            else 0 <= i < h && !t.slots[i].init
  {
    if h < |t.slots| {
      assert !t.slots[h].init && t.slots[h].channel == 0;
    }
  }

  lemma InitMarks(l: Limits, t: Table, h: nat, r: Request)
    requires InMenu(l) && Good(l, t) && Marked(l, t, h) && Init(l, t, r).status == Ok
    ensures Marked(l, Init(l, t, r).table, MarkAfter(l, View(l, t), h, r.channel))
  {
    hide View, ChannelsOf;
    ChannelInView(l, t, r.channel);
    SlotOf(l, t, r.channel);
    NoFreeSlot(l, t, h);
    if r.channel !in ChannelsOf(View(l, t)) {
      PlaceOfNew(l, t, h, r.channel);
    }
  }

  lemma EmptyView(l: Limits, t: Table)
    requires Good(l, t)
    ensures View(l, t) == map[] <==> NoneInit(t.slots)
  {
    if NoneInit(t.slots) {
      SameView(l, t, map[]);
    } else {
      var k :| 0 <= k < |t.slots| && t.slots[k].init;
      ChannelInView(l, t, t.slots[k].channel);
    }
  }

  lemma DeinitMarks(l: Limits, t: Table, h: nat, channel: nat, index: nat)
    requires InMenu(l) && Good(l, t) && Marked(l, t, h)
    ensures var t' := Deinit(l, t, channel, index).table;
            Marked(l, t', if View(l, t') == map[] then 0 else h)
  {
    hide View;
    var t' := Deinit(l, t, channel, index).table;
    DeinitKeepsGood(l, t, channel, index);
    EmptyView(l, t');
    if channel < l.channels {
      SlotOf(l, t, channel);
    }
  }

  /** How many slots have been used since the last time no button was left: a
      number that the calls and the map they build determine. */
  ghost function Mark(l: Limits, ops: seq<Op>): nat {
    if ops == [] then 0
    else
      var before := ops[..|ops| - 1];
      var m := MapDoAll(l, before);
      match ops[|ops| - 1]
      case Add(r) => if Allowed(l, m, r) then MarkAfter(l, m, Mark(l, before), r.channel) else Mark(l, before)
      case Remove(c, i) => if m - {(c, i)} == map[] then 0 else Mark(l, before)
  }

  lemma {:induction false} MarkIsRight(l: Limits, ops: seq<Op>)
    requires InMenu(l)
    ensures Marked(l, DoAll(l, ops), Mark(l, ops))
  {
    hide View, Marked, Init, Deinit, Good, MarkAfter;
    if ops == [] {
      ZeroedIsMarked(l);
    } else {
      var before := ops[..|ops| - 1];
      var t := DoAll(l, before);
      MarkIsRight(l, before);
      TableIsMap(l, before);
      match ops[|ops| - 1]
      case Add(r) =>
        InitIsMapInsert(l, t, r);
        if Init(l, t, r).status == Ok {
          InitMarks(l, t, Mark(l, before), r);
        }
      case Remove(c, i) =>
        DeinitIsMapRemove(l, t, c, i);
        DeinitMarks(l, t, Mark(l, before), c, i);
    }
  }

  lemma ZeroedIsMarked(l: Limits)
    ensures Marked(l, Zeroed(l), 0)
  {
  }

  /** After any calls, deinit reports success exactly for a channel with a
      button, and for channel 0 as long as a slot was never used since the last
      time no button was left. */
  lemma DeinitSucceedsAfter(l: Limits, ops: seq<Op>, channel: nat, index: nat)
    requires InMenu(l)
    ensures Do(l, DoAll(l, ops), Remove(channel, index)).status in {Ok, InvalidArg}
    ensures Do(l, DoAll(l, ops), Remove(channel, index)).status == Ok <==>
              && channel < l.channels && index < l.buttons
              && (channel in ChannelsOf(MapDoAll(l, ops)) || (channel == 0 && Mark(l, ops) < l.slots))
  {
    hide View, Deinit, Good, ChannelsOf;
    var t := DoAll(l, ops);
    DeinitCodes(l, t, channel, index);
    TableIsMap(l, ops);
    MarkIsRight(l, ops);
    DeinitSucceeds(l, t, channel, index);
    if Mark(l, ops) < l.slots {
      assert !t.slots[Mark(l, ops)].init;
    }
  }

  /** The success can be about nothing: no button was ever added. */
  lemma DeinitOfNothing(l: Limits)
    requires InMenu(l)
    ensures Do(l, DoAll(l, []), Remove(0, 0)).status == Ok && (0, 0) !in MapDoAll(l, [])
  {
    hide Deinit;
    DeinitSucceedsAfter(l, [], 0, 0);
  }

  lemma DeinitCodes(l: Limits, t: Table, channel: nat, index: nat)
    requires Shaped(l, t)
    ensures Deinit(l, t, channel, index).status in {Ok, InvalidArg}
  {
  }

  // ---------- the number that is kept beside the slots ----------

  /** Buttons added since the last time no button was left; removing one does
      not count. */
  ghost function Adds(l: Limits, ops: seq<Op>): nat {
    if ops == [] then 0
    else
      var before := ops[..|ops| - 1];
      var m := MapDoAll(l, before);
      match ops[|ops| - 1]
      case Add(r) => if Allowed(l, m, r) then Adds(l, before) + 1 else Adds(l, before)
      case Remove(c, i) => if m - {(c, i)} == map[] then 0 else Adds(l, before)
  }

  ghost predicate Numbered(t: Table, n: nat) { t.chNum == n % 256 && (!t.configured ==> n == 0) }

  lemma InitNumbers(l: Limits, t: Table, n: nat, r: Request)
    requires Shaped(l, t) && Numbered(t, n) && Init(l, t, r).status == Ok
    ensures Numbered(Init(l, t, r).table, n + 1)
  {
  }

  lemma DeinitNumbers(l: Limits, t: Table, n: nat, channel: nat, index: nat)
    requires InMenu(l) && Good(l, t) && Numbered(t, n)
    ensures var t' := Deinit(l, t, channel, index).table;
            Numbered(t', if View(l, t') == map[] then 0 else n)
  {
    hide View;
    DeinitKeepsGood(l, t, channel, index);
    EmptyView(l, Deinit(l, t, channel, index).table);
  }

  /** ch_num counts them in eight bits. */
  lemma {:induction false} ChNumIsAdds(l: Limits, ops: seq<Op>)
    requires InMenu(l)
    ensures Numbered(DoAll(l, ops), Adds(l, ops))
  {
    hide View, Init, Deinit, Good, Numbered;
    if ops == [] {
      NumberedAtStart(l);
    } else {
      var before := ops[..|ops| - 1];
      var t := DoAll(l, before);
      ChNumIsAdds(l, before);
      TableIsMap(l, before);
      match ops[|ops| - 1]
      case Add(r) =>
        InitIsMapInsert(l, t, r);
        if Init(l, t, r).status == Ok {
          InitNumbers(l, t, Adds(l, before), r);
        }
      case Remove(c, i) =>
        DeinitIsMapRemove(l, t, c, i);
        DeinitNumbers(l, t, Adds(l, before), c, i);
    }
  }

  lemma NumberedAtStart(l: Limits)
    ensures Numbered(Zeroed(l), 0)
  {
  }
}
