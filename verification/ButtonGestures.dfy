/** The language of callbacks: what an application can hear, for every stream
    of samples, and when. */
module ButtonGestures {
  import opened Button

  // ---------- the grammar ----------

  /** A finished gesture. */
  datatype Episode =
    | Clicks(presses: nat)     // released long enough after the last press
    | Swallowed(presses: nat)  // the last of several presses was held too long
    | Held(holds: nat)         // a long press

  /** DOWN UP, then DOWN REPEAT UP for every further press. */
  function Presses(n: nat): seq<Event> {
    if n <= 1 then [PressDown, PressUp] else Presses(n - 1) + [PressDown, PressRepeat, PressUp]
  }

  /** The press count wraps at 256; 1 and 2 have callbacks of their own. */
  function ClickEvents(presses: nat): seq<Event> {
    if presses % 256 == 1 then [SingleClick] else if presses % 256 == 2 then [DoubleClick] else []
  }

  function Holds(n: nat): seq<Event> { seq(n, _ => LongPressHold) }

  function Sentence(e: Episode): seq<Event> {
    match e
    case Clicks(n) => Presses(n) + ClickEvents(n)
    case Swallowed(n) => Presses(n)
    case Held(h) => [PressDown, LongPressStart] + Holds(h) + [PressUp]
  }

  ghost predicate Proper(e: Episode) {
    match e
    case Clicks(n) => 1 <= n
    case Swallowed(n) => 2 <= n
    case Held(_) => true
  }

  /** The gesture in progress, with the calls spent in the current phase. */
  datatype Pending =
    | Idle
    | Pressed(calls: nat)
    | Released(presses: nat, calls: nat)
    | Repeating(presses: nat, calls: nat)
    | Holding(holds: nat)

  /** What has been heard of the gesture in progress. */
  function Prefix(p: Pending): seq<Event> {
    match p
    case Idle => []
    case Pressed(_) => [PressDown]
    case Released(n, _) => Presses(n)
    case Repeating(n, _) => Presses(if n == 0 then 0 else n - 1) + [PressDown, PressRepeat]
    case Holding(h) => [PressDown, LongPressStart] + Holds(h)
  }

  function Sentences(es: seq<Episode>): seq<Event> {
    if es == [] then [] else Sentences(es[..|es| - 1]) + Sentence(es[|es| - 1])
  }

  // ---------- gestures by unbounded counters ----------

  /** How a gesture goes on with one more debounced level. */
  function Next(cfg: Config, p: Pending, pressed: bool): Pending {
    match p
    case Idle => if pressed then Pressed(0) else Idle
    case Pressed(c) => if !pressed then Released(1, 0) else if c + 1 > cfg.long then Holding(0) else Pressed(c + 1)
    case Released(n, c) => if pressed then Repeating(n + 1, 0) else if c + 1 > cfg.short then Idle else Released(n, c + 1)
    case Repeating(n, c) =>
      if pressed then Repeating(n, c + 1) else if (c + 1) % 65536 < cfg.short then Released(n, 0) else Idle
    case Holding(h) => if pressed then Holding(h + 1) else Idle
  }

  /** The gesture that this level finishes, if any. */
  function Finished(cfg: Config, p: Pending, pressed: bool): seq<Episode> {
    if p == Idle || Next(cfg, p, pressed) != Idle then []
    else
      match p
      case Released(n, _) => [Clicks(n)]
      case Repeating(n, _) => [Swallowed(n)]
      case Holding(h) => [Held(h)]
      case _ => []
  }

  datatype History = History(done: seq<Episode>, now: Pending)

  /** All finished gestures and the one in progress, over a run of samples. */
  function Told(cfg: Config, d: Device, samples: seq<bool>): History {
    if samples == [] then History([], Idle)
    else
      var h := Told(cfg, d, samples[..|samples| - 1]);
      var pressed := After(cfg, d, samples).level == d.active;
      History(h.done + Finished(cfg, h.now, pressed), Next(cfg, h.now, pressed))
  }

  // ---------- the narrow counters hold the gesture ----------

  /** The device fields that stand for a gesture in progress. */
  ghost predicate Holds16(cfg: Config, d: Device, p: Pending) {
    match p
    case Idle => d.state == 0
    case Pressed(c) => d.state == 1 && d.repeat == 1 && d.ticks == c <= cfg.long
    case Released(n, c) => d.state == 2 && 1 <= n && d.repeat == n % 256 && d.ticks == c <= cfg.short
    case Repeating(n, c) => d.state == 3 && 2 <= n && d.repeat == n % 256 && d.ticks == c % 65536
    case Holding(_) => d.state == 5
  }

  /** The events of one call extend what was heard of the gesture, or finish it. */
  ghost predicate Heeds(cfg: Config, p: Pending, pressed: bool, events: seq<Event>) {
    var done := Finished(cfg, p, pressed);
    var next := Next(cfg, p, pressed);
    if done == [] then Prefix(p) + events == Prefix(next)
    else |done| == 1 && Proper(done[0]) && next == Idle && Prefix(p) + events == Sentence(done[0])
  }

  lemma TickFollows(cfg: Config, d: Device, p: Pending, sample: bool)
    requires cfg.short < 65535 && cfg.long < 65535 && Holds16(cfg, d, p)
    ensures var e := Debounce(cfg, Tick(d), sample); Ticked(cfg, e, p) && e.active == d.active
  {
  }

  lemma HandleFollows(cfg: Config, d: Device, p: Pending, sample: bool)
    requires cfg.short < 65535 && cfg.long < 65535 && Holds16(cfg, d, p)
    ensures var r := Handle(cfg, d, sample);
            var pressed := r.device.level == d.active;
            && r.device.active == d.active
            && Holds16(cfg, r.device, Next(cfg, p, pressed)) && Heeds(cfg, p, pressed, r.events)
  {
    hide Holds16, Heeds, Next, Ticked, Debounce, Tick, Gesture;
    var e := Debounce(cfg, Tick(d), sample);
    TickFollows(cfg, d, p, sample);
    GestureFollows(cfg, e, p, e.level == e.active);
    GestureHeeds(cfg, e, p, e.level == e.active);
  }

  /** The device after ticking and debouncing: its ticks count this call too. */
  ghost predicate Ticked(cfg: Config, d: Device, p: Pending) {
    match p
    case Idle => d.state == 0
    case Pressed(c) => d.state == 1 && d.repeat == 1 && d.ticks == c + 1 && c <= cfg.long
    case Released(n, c) => d.state == 2 && 1 <= n && d.repeat == n % 256 && d.ticks == c + 1 && c <= cfg.short
    case Repeating(n, c) => d.state == 3 && 2 <= n && d.repeat == n % 256 && d.ticks == (c + 1) % 65536
    case Holding(_) => d.state == 5
  }

  lemma OneMorePress(n: nat)
    ensures (n % 256 + 1) % 256 == (n + 1) % 256
  {
  }

  lemma GestureFollows(cfg: Config, d: Device, p: Pending, pressed: bool)
    requires Ticked(cfg, d, p) && pressed == (d.level == d.active)
    ensures var r := Gesture(cfg, d);
            && r.device.active == d.active && r.device.level == d.level
            && Holds16(cfg, r.device, Next(cfg, p, pressed))
  {
    if p.Released? {
      OneMorePress(p.presses);
    }
  }

  lemma GestureHeeds(cfg: Config, d: Device, p: Pending, pressed: bool)
    requires Ticked(cfg, d, p) && pressed == (d.level == d.active)
    ensures Heeds(cfg, p, pressed, Gesture(cfg, d).events)
  {
    hide Presses, Holds;
    match p
    case Idle =>
    case Pressed(_) => FirstPressGoesOn();
    case Released(n, _) =>
    case Repeating(n, _) => PressEnds(n);
    case Holding(h) => HoldGoesOn(h);
  }

  lemma FirstPressGoesOn()
    ensures [PressDown] + [PressUp] == Presses(1)
    ensures [PressDown] + [LongPressStart] == [PressDown, LongPressStart] + Holds(0)
  {
  }

  lemma PressEnds(n: nat)
    requires 2 <= n
    ensures (Presses(n - 1) + [PressDown, PressRepeat]) + [PressUp] == Presses(n)
  {
  }

  lemma HoldGoesOn(h: nat)
    ensures ([PressDown, LongPressStart] + Holds(h)) + [LongPressHold] == [PressDown, LongPressStart] + Holds(h + 1)
  {
  }

  /** The language theorem.  From any moment of rest, whatever the samples, the
      callbacks heard are the sentences of the finished gestures followed by the
      beginning of the one in progress, and the narrow counters agree with the
      unbounded counts of that gesture. */
  lemma {:induction false} TraceIsSentences(cfg: Config, d: Device, samples: seq<bool>)
    requires cfg.short < 65535 && cfg.long < 65535 && d.state == 0
    ensures var h, r := Told(cfg, d, samples), After(cfg, d, samples);
            && Trace(cfg, d, samples) == Sentences(h.done) + Prefix(h.now)
            && (forall e :: e in h.done ==> Proper(e))
            && Holds16(cfg, r, h.now) && r.active == d.active
  {
    hide Handle, Next, Finished, Prefix, Sentences, Heeds, Holds16;
    if samples == [] {
      NothingHeard(cfg, d);
    } else {
      var before := samples[..|samples| - 1];
      TraceIsSentences(cfg, d, before);
      var h := Told(cfg, d, before);
      var r := Handle(cfg, After(cfg, d, before), samples[|samples| - 1]);
      HandleFollows(cfg, After(cfg, d, before), h.now, samples[|samples| - 1]);
      HistoryExtends(cfg, h, r.device.level == d.active, r.events);
    }
  }

  lemma NothingHeard(cfg: Config, d: Device)
    requires d.state == 0
    ensures Trace(cfg, d, []) == Sentences([]) + Prefix(Idle) && Holds16(cfg, d, Idle)
  {
  }

  lemma HistoryExtends(cfg: Config, h: History, pressed: bool, events: seq<Event>)
    requires Heeds(cfg, h.now, pressed, events) && forall e :: e in h.done ==> Proper(e)
    ensures var done := h.done + Finished(cfg, h.now, pressed);
            && Sentences(h.done) + Prefix(h.now) + events == Sentences(done) + Prefix(Next(cfg, h.now, pressed))
            && forall e :: e in done ==> Proper(e)
  {
    hide Sentences, Sentence, Prefix, Next, Finished, Proper;
    var closed := Finished(cfg, h.now, pressed);
    assert Sentences(h.done) + Prefix(h.now) + events == Sentences(h.done) + (Prefix(h.now) + events);
    if closed == [] {
      assert h.done + closed == h.done;
    } else {
      assert closed == [closed[0]];
      OneMoreSentence(h.done, closed[0]);
    }
  }

  lemma OneMoreSentence(es: seq<Episode>, e: Episode)
    ensures Sentences(es + [e]) + Prefix(Idle) == Sentences(es) + Sentence(e)
  {
    hide Sentence;
    assert (es + [e])[..|es|] == es;
  }

  // ---------- the event that is kept ----------

  /** The event that a gesture in progress shows. */
  function Shown(p: Pending): Event {
    match p
    case Idle => NonePress
    case Pressed(_) => PressDown
    case Released(_, _) => PressUp
    case Repeating(_, _) => PressDown
    case Holding(h) => if h == 0 then LongPressStart else LongPressHold
  }

  /** The event that a gesture leaves behind. */
  function LeftBehind(e: Episode): Event {
    match e
    case Clicks(n) => if n % 256 == 1 then SingleClick else if n % 256 == 2 then DoubleClick else PressUp
    case _ => PressUp
  }

  lemma EventKept(cfg: Config, d: Device, sample: bool)
    ensures Debounce(cfg, Tick(d), sample).event == d.event
  {
  }

  lemma GestureEvent(cfg: Config, d: Device, p: Pending, pressed: bool)
    requires Ticked(cfg, d, p) && pressed == (d.level == d.active) && (p != Idle ==> d.event == Shown(p))
    ensures var r := Gesture(cfg, d).device;
            var done := Finished(cfg, p, pressed);
            r.level == d.level && r.event == if done == [] then Shown(Next(cfg, p, pressed)) else LeftBehind(done[0])
  {
  }

  lemma EventFollows(cfg: Config, d: Device, p: Pending, sample: bool)
    requires cfg.short < 65535 && cfg.long < 65535 && Holds16(cfg, d, p) && (p != Idle ==> d.event == Shown(p))
    ensures var r := Handle(cfg, d, sample).device;
            var pressed := r.level == d.active;
            var done := Finished(cfg, p, pressed);
            r.event == if done == [] then Shown(Next(cfg, p, pressed)) else LeftBehind(done[0])
  {
    hide Holds16, Next, Finished, Ticked, Debounce, Tick, Gesture, Shown, LeftBehind;
    var e := Debounce(cfg, Tick(d), sample);
    TickFollows(cfg, d, p, sample);
    EventKept(cfg, d, sample);
    GestureEvent(cfg, e, p, e.level == e.active);
  }

  /** The event that iot_button_get_event returns after any run: the one of the
      gesture in progress; right after a gesture, the click or else the release;
      and none when the call before found the device at rest already. */
  lemma {:induction false} EventIsLatest(cfg: Config, d: Device, samples: seq<bool>)
    requires cfg.short < 65535 && cfg.long < 65535 && d.state == 0 && samples != []
    ensures var h := Told(cfg, d, samples);
            var before := Told(cfg, d, samples[..|samples| - 1]);
            After(cfg, d, samples).event == if |h.done| == |before.done| then Shown(h.now) else LeftBehind(h.done[|before.done|])
  {
    hide Handle, Holds16, Next, Finished;
    var init := samples[..|samples| - 1];
    var r := After(cfg, d, init);
    var p := Told(cfg, d, init).now;
    TraceIsSentences(cfg, d, init);
    if p != Idle {
      NotIdle(cfg, d, init);
      EventIsLatest(cfg, d, init);
      NoEnd(cfg, d, init);
    }
    EventFollows(cfg, r, p, samples[|samples| - 1]);
  }

  lemma NotIdle(cfg: Config, d: Device, samples: seq<bool>)
    requires Told(cfg, d, samples).now != Idle
    ensures samples != []
  {
  }

  /** A gesture in progress has not just ended. */
  lemma NoEnd(cfg: Config, d: Device, samples: seq<bool>)
    requires samples != [] && Told(cfg, d, samples).now != Idle
    ensures Told(cfg, d, samples).done == Told(cfg, d, samples[..|samples| - 1]).done
  {
  }

  // ---------- states and levels ----------

  /** After every call the state is one of five, and is a pressed one exactly
      when the debounced level is the active one. */
  lemma {:induction false} StateFollowsLevel(cfg: Config, active: bool, samples: seq<bool>)
    ensures var d := After(cfg, Created(active), samples);
            && d.state in {0, 1, 2, 3, 5} && d.active == active
            && (d.state in {1, 3, 5} <==> d.level == active)
  {
    hide Handle;
    if samples == [] {
    } else {
      StateFollowsLevel(cfg, active, samples[..|samples| - 1]);
      StateFollowsOnce(cfg, After(cfg, Created(active), samples[..|samples| - 1]), samples[|samples| - 1]);
    }
  }

  lemma StateFollowsOnce(cfg: Config, d: Device, sample: bool)
    requires d.state in {0, 1, 2, 3, 5} && (d.state in {1, 3, 5} <==> d.level == d.active)
    ensures var r := Handle(cfg, d, sample).device;
            r.state in {0, 1, 2, 3, 5} && r.active == d.active && (r.state in {1, 3, 5} <==> r.level == r.active)
  {
  }

  // ---------- how long it takes ----------

  /** A device at rest or on its way there: the level is inactive, and at most
      short + 1 more calls are needed. */
  ghost predicate Settling(cfg: Config, d: Device, calls: nat) {
    && d.level != d.active && d.count == 0
    && (d.state == 0 || (d.state == 2 && cfg.short + 1 <= d.ticks + calls && d.ticks <= cfg.short))
  }

  lemma SettlingGoesOn(cfg: Config, d: Device, calls: nat)
    requires cfg.short < 65535 && Settling(cfg, d, calls) && (calls == 0 ==> d.state == 0)
    ensures Settling(cfg, Handle(cfg, d, !d.active).device, if calls == 0 then 0 else calls - 1)
    ensures calls <= 1 ==> Handle(cfg, d, !d.active).device.state == 0
    ensures Handle(cfg, d, !d.active).device.active == d.active
  {
  }

  /** Samples that read inactive, n times. */
  function Quiet(active: bool, n: nat): seq<bool> { seq(n, _ => !active) }

  lemma QuietStep(cfg: Config, d: Device, active: bool, n: nat)
    requires n > 0
    ensures After(cfg, d, Quiet(active, n)) == Handle(cfg, After(cfg, d, Quiet(active, n - 1)), !active).device
  {
    assert Quiet(active, n)[..n - 1] == Quiet(active, n - 1);
  }

  /** A device during the debouncing of a release, n calls into it. */
  ghost predicate Releasing(cfg: Config, d: Device, n: nat) {
    && d.state in {0, 1, 2, 3, 5} && (d.state in {1, 3, 5} <==> d.level == d.active)
    && (d.level == d.active ==> n <= d.count < cfg.debounce)
    && (d.level != d.active ==> n > 0 ==> d.count == 0)
    && (d.state == 2 ==> d.ticks <= cfg.short)
  }

  lemma ReleasingGoesOn(cfg: Config, d: Device, n: nat)
    requires 1 <= cfg.debounce <= 7 && cfg.short < 65535 && Releasing(cfg, d, n)
    ensures Releasing(cfg, Handle(cfg, d, !d.active).device, n + 1)
    ensures Handle(cfg, d, !d.active).device.active == d.active
  {
  }

  lemma {:induction false} QuietReleases(cfg: Config, d: Device, n: nat)
    requires 1 <= cfg.debounce <= 7 && cfg.short < 65535 && Releasing(cfg, d, 0)
    ensures Releasing(cfg, After(cfg, d, Quiet(d.active, n)), n) && After(cfg, d, Quiet(d.active, n)).active == d.active
  {
    hide Handle;
    if n == 0 {
    } else {
      QuietStep(cfg, d, d.active, n);
      QuietReleases(cfg, d, n - 1);
      ReleasingGoesOn(cfg, After(cfg, d, Quiet(d.active, n - 1)), n - 1);
    }
  }

  /** The calls a device still needs to rest, k calls after the release. */
  function Left(cfg: Config, k: nat): nat { if k <= cfg.short then cfg.short + 1 - k else 0 }

  lemma {:induction false} QuietSettles(cfg: Config, d: Device, k: nat)
    requires 1 <= cfg.debounce <= 7 && cfg.short < 65535 && Releasing(cfg, d, 0)
    ensures var r := After(cfg, d, Quiet(d.active, cfg.debounce + k));
            r.active == d.active && Settling(cfg, r, Left(cfg, k)) && (cfg.short + 1 <= k ==> r.state == 0)
  {
    hide Handle, After, Quiet;
    if k == 0 {
      QuietReleases(cfg, d, cfg.debounce);
    } else {
      QuietStep(cfg, d, d.active, cfg.debounce + k);
      QuietSettles(cfg, d, k - 1);
      SettlingGoesOn(cfg, After(cfg, d, Quiet(d.active, cfg.debounce + k - 1)), Left(cfg, k - 1));
    }
  }

  lemma ReachableReleases(cfg: Config, active: bool, samples: seq<bool>)
    requires 1 <= cfg.debounce <= 7 && cfg.short < 65535 && cfg.long < 65535
    ensures Releasing(cfg, After(cfg, Created(active), samples), 0)
  {
    StateFollowsLevel(cfg, active, samples);
    TraceIsSentences(cfg, Created(active), samples);
    CountBelowLimit(cfg, Created(active), samples);
  }

  lemma {:induction false} CountBelowLimit(cfg: Config, d: Device, samples: seq<bool>)
    requires 1 <= cfg.debounce <= 7 && d.count == 0
    ensures After(cfg, d, samples).count < cfg.debounce
  {
    if samples == [] {
    } else {
      CountBelowLimit(cfg, d, samples[..|samples| - 1]);
    }
  }

  /** No gesture in progress, and nothing about to change. */
  ghost predicate Resting(d: Device) { d.state == 0 && d.count == 0 && d.level != d.active }

  /** Whatever happened before, debounce + short + 1 inactive samples bring the
      device to rest, and further ones keep it there. */
  lemma SilenceBringsRest(cfg: Config, active: bool, samples: seq<bool>, n: nat)
    requires 1 <= cfg.debounce <= 7 && cfg.short < 65535 && cfg.long < 65535
    requires cfg.debounce + cfg.short + 1 <= n
    ensures Resting(After(cfg, Created(active), samples + Quiet(active, n)))
  {
    hide After, Quiet, Releasing, Handle;
    ReachableReleases(cfg, active, samples);
    StateFollowsLevel(cfg, active, samples);
    QuietSettles(cfg, After(cfg, Created(active), samples), n - cfg.debounce);
    AfterConcat(cfg, Created(active), samples, Quiet(active, n));
  }

  lemma {:induction false} AfterConcat(cfg: Config, d: Device, s: seq<bool>, t: seq<bool>)
    ensures After(cfg, d, s + t) == After(cfg, After(cfg, d, s), t)
  {
    hide Handle;
    if t == [] {
      assert s + t == s;
    } else {
      assert (s + t)[..|s + t| - 1] == s + t[..|t| - 1];
      AfterConcat(cfg, d, s, t[..|t| - 1]);
    }
  }

  /** What is heard after a moment comes behind what was heard before it. */
  lemma {:induction false} TraceConcat(cfg: Config, d: Device, s: seq<bool>, t: seq<bool>)
    ensures Trace(cfg, d, s + t) == Trace(cfg, d, s) + Trace(cfg, After(cfg, d, s), t)
  {
    hide Handle, After;
    if t == [] {
      assert s + t == s;
    } else {
      var init := t[..|t| - 1];
      assert (s + t)[..|s + t| - 1] == s + init;
      TraceConcat(cfg, d, s, init);
      AfterConcat(cfg, d, s, init);
    }
  }
}
