/** What the application hears of presses and pauses, from any moment of rest:
    first by debounced levels, then by the samples themselves. */
module ButtonHeard {
  import opened Button
  import opened ButtonDebounce
  import opened ButtonGestures
  import opened ButtonTiming

  /** The limits that the 16-bit counter can reach. */
  predicate Countable(cfg: Config) { cfg.short < 65535 && cfg.long < 65535 }

  // ---------- by levels ----------

  lemma HeardFromRest(cfg: Config, d: Device, samples: seq<bool>, k: nat, word: seq<bool>)
    requires Countable(cfg) && d.state == 0 && Levels(cfg, d, samples) == Repeated(false, k) + word
    ensures var p := Play(cfg, History([], Idle), word); Trace(cfg, d, samples) == Sentences(p.done) + Prefix(p.now)
  {
    hide Trace, Levels, Play, Repeated, Holds16, Sentences, Prefix;
    ToldIsPlayed(cfg, d, samples);
    IdlePlays(cfg, [], k);
    PlayConcat(cfg, History([], Idle), Repeated(false, k), word);
    TraceIsSentences(cfg, d, samples);
  }

  lemma OneSentence(e: Episode)
    ensures Sentences([e]) + Prefix(Idle) == Sentence(e)
  {
    assert [e][..0] == [];
    assert Sentences([]) + Sentence(e) == Sentence(e);
  }

  lemma OnlyPrefix(p: Pending)
    ensures Sentences([]) + Prefix(p) == Prefix(p)
  {
  }

  /** A first press that is held: behind the press nothing is heard for long
      calls, then the long press starts, and goes on with every call. */
  lemma LongPressHeard(cfg: Config, d: Device, samples: seq<bool>, k: nat, n: nat)
    requires Countable(cfg) && d.state == 0 && 1 <= n
    requires Levels(cfg, d, samples) == Repeated(false, k) + Repeated(true, n)
    ensures Trace(cfg, d, samples) ==
            if n <= cfg.long + 1 then [PressDown] else [PressDown, LongPressStart] + Holds(n - cfg.long - 2)
  {
    hide Trace, Levels, Play, Repeated, Holds, Sentences;
    HeardFromRest(cfg, d, samples, k, Repeated(true, n));
    LongPressTiming(cfg, [], n);
    OnlyPrefix(if n <= cfg.long + 1 then Pressed(n - 1) else Holding(n - cfg.long - 2));
  }

  /** When it is let go the release is heard, and no click however long the
      pause. */
  lemma LongPressEnds(cfg: Config, d: Device, samples: seq<bool>, k: nat, n: nat, q: nat)
    requires Countable(cfg) && d.state == 0 && cfg.long + 2 <= n && 1 <= q
    requires Levels(cfg, d, samples) == Repeated(false, k) + (Repeated(true, n) + Repeated(false, q))
    ensures Trace(cfg, d, samples) == [PressDown, LongPressStart] + Holds(n - cfg.long - 2) + [PressUp]
  {
    hide Trace, Levels, Play, Repeated, Holds, Sentences;
    HeardFromRest(cfg, d, samples, k, Repeated(true, n) + Repeated(false, q));
    LongPressPlays(cfg, n, q);
    OneSentence(Held(n - cfg.long - 2));
  }

  /** Joined presses and a pause: the presses are heard, then the click that
      their number selects. */
  lemma {:induction false} JoinedPressesHeard(cfg: Config, d: Device, samples: seq<bool>, k: nat, strokes: seq<Stroke>, pause: nat)
    requires Countable(cfg) && d.state == 0 && strokes != [] && Joined(cfg, strokes)
    requires cfg.short + 2 <= strokes[|strokes| - 1].rest + pause
    requires Levels(cfg, d, samples) == Repeated(false, k) + (Word(strokes) + Repeated(false, pause))
    ensures Trace(cfg, d, samples) == Presses(|strokes|) + ClickEvents(|strokes|)
  {
    hide Trace, Levels, Word, Presses, Play, Repeated, Sentences, Joined;
    HeardFromRest(cfg, d, samples, k, Word(strokes) + Repeated(false, pause));
    JoinedPressesClick(cfg, strokes, pause);
    OneSentence(Clicks(|strokes|));
  }

  /** Joined presses, then one more that is held for short calls or longer, as
      a 16-bit counter sees it: all presses are heard, and no click, however
      long the pause. */
  lemma {:induction false} HeldRepeatHeard(cfg: Config, d: Device, samples: seq<bool>, k: nat, strokes: seq<Stroke>, p: nat, q: nat)
    requires Countable(cfg) && d.state == 0 && strokes != [] && Joined(cfg, strokes)
    requires 1 <= p && cfg.short <= p % 65536 && 1 <= q
    requires Levels(cfg, d, samples) == Repeated(false, k) + (Word(strokes) + (Repeated(true, p) + Repeated(false, q)))
    ensures Trace(cfg, d, samples) == Presses(|strokes| + 1)
  {
    hide Trace, Levels, Word, Presses, Play, Repeated, Sentences, Joined;
    HeardFromRest(cfg, d, samples, k, Word(strokes) + (Repeated(true, p) + Repeated(false, q)));
    HeldRepeatEnds(cfg, strokes, p, q);
    OneSentence(Swallowed(|strokes| + 1));
  }

  lemma {:induction false} HeldRepeatEnds(cfg: Config, strokes: seq<Stroke>, p: nat, q: nat)
    requires cfg.short < 65536 && strokes != [] && Joined(cfg, strokes)
    requires 1 <= p && cfg.short <= p % 65536 && 1 <= q
    ensures Play(cfg, History([], Idle), Word(strokes) + (Repeated(true, p) + Repeated(false, q))) ==
            History([Swallowed(|strokes| + 1)], Idle)
  {
    hide Word, Play, Repeated;
    JoinedPlays(cfg, strokes);
    PlayConcat(cfg, History([], Idle), Word(strokes), Repeated(true, p) + Repeated(false, q));
    HeldRepeatPlays(cfg, |strokes|, strokes[|strokes| - 1].rest - 1, p, q);
  }

  // ---------- from samples to levels ----------

  /** The samples that read active where word is true. */
  function Raw(active: bool, word: seq<bool>): (r: seq<bool>)
    ensures |r| == |word|
  {
    seq(|word|, i requires 0 <= i < |word| => word[i] == active)
  }

  /** What word holds at i, and false before it begins. */
  function Early(word: seq<bool>, i: int): bool
    requires i < |word|
  {
    0 <= i && word[i]
  }

  /** Every press and every pause lasts for n samples, but the last one may be
      going on. */
  ghost predicate Firm(n: nat, word: seq<bool>) {
    forall i, k :: 0 <= i <= k < |word| && k < i + n && word[i] != Early(word, i - 1) ==> word[k] == word[i]
  }

  function Delayed(m: nat, word: seq<bool>): seq<bool> {
    seq(|word|, i requires 0 <= i < |word| => Early(word, i - m))
  }

  lemma EdgeMakesRun(n: nat, active: bool, word: seq<bool>, len: nat)
    requires 1 <= n <= len <= |word| && Firm(n, word) && word[len - n] != Early(word, len - n - 1)
    ensures EndsWithRun(n, Raw(active, word)[..len])
  {
    forall k | len - n <= k < len ensures word[k] == word[len - n] {
    }
  }

  lemma LastRunNow(n: nat, init: bool, samples: seq<bool>)
    requires 0 < n
    ensures LastRun(n, init, samples) ==
            if |samples| < n then init
            else if EndsWithRun(n, samples) then samples[|samples| - 1]
            else LastRun(n, init, samples[..|samples| - 1])
  {
  }

  lemma RunIsEarlier(n: nat, active: bool, word: seq<bool>, len: nat)
    requires 1 <= n <= len <= |word| && EndsWithRun(n, Raw(active, word)[..len])
    ensures Raw(active, word)[..len][len - 1] == (word[len - n] == active)
  {
    assert Raw(active, word)[..len][len - n] == Raw(active, word)[..len][len - 1];
  }

  lemma NoRunNoEdge(n: nat, active: bool, word: seq<bool>, len: nat)
    requires 1 <= n <= len <= |word| && Firm(n, word) && !EndsWithRun(n, Raw(active, word)[..len])
    ensures word[len - n] == Early(word, len - n - 1)
  {
    hide Firm, EndsWithRun;
    if word[len - n] != Early(word, len - n - 1) {
      EdgeMakesRun(n, active, word, len);
      assert false;
    }
  }

  lemma {:induction false} LastRunIsEarlier(n: nat, active: bool, word: seq<bool>, len: nat)
    requires 1 <= n && Firm(n, word) && len <= |word|
    ensures LastRun(n, !active, Raw(active, word)[..len]) == (Early(word, len - n) == active)
    decreases len
  {
    hide Firm, LastRun, EndsWithRun, Raw;
    var samples := Raw(active, word)[..len];
    LastRunNow(n, !active, samples);
    if len < n {
      assert Early(word, len - n) == false;
    } else if EndsWithRun(n, samples) {
      RunIsEarlier(n, active, word, len);
      assert Early(word, len - n) == word[len - n];
    } else {
      NoRunNoEdge(n, active, word, len);
      LastRunIsEarlier(n, active, word, len - 1);
      assert samples[..len - 1] == Raw(active, word)[..len - 1];
    }
  }

  lemma DelayedIs(m: nat, word: seq<bool>)
    ensures |word| <= m ==> Delayed(m, word) == Repeated(false, |word|)
    ensures m <= |word| ==> Delayed(m, word) == Repeated(false, m) + word[..|word| - m]
  {
    var k := if |word| <= m then |word| else m;
    var late := Repeated(false, k) + word[..|word| - k];
    forall i | 0 <= i < |word| ensures Delayed(m, word)[i] == late[i] {
      assert Delayed(m, word)[i] == Early(word, i - m);
    }
    assert Delayed(m, word) == late;
  }

  /** From rest, levels follow firm samples with a delay of debounce - 1. */
  lemma LevelsAreDelayed(cfg: Config, d: Device, word: seq<bool>)
    requires 1 <= cfg.debounce <= 7 && Resting(d) && Firm(cfg.debounce, word)
    ensures Levels(cfg, d, Raw(d.active, word)) == Delayed(cfg.debounce - 1, word)
  {
    hide After, LastRun, Firm;
    var samples := Raw(d.active, word);
    forall i | 0 <= i < |word| ensures Levels(cfg, d, samples)[i] == Delayed(cfg.debounce - 1, word)[i] {
      DebounceIsLastRun(cfg, d, samples[..i + 1]);
      LastRunIsEarlier(cfg.debounce, d.active, word, i + 1);
      assert samples[..i + 1] == Raw(d.active, word)[..i + 1];
    }
  }

  // ---------- by samples ----------

  lemma SamplesHeard(cfg: Config, d: Device, word: seq<bool>, tail: seq<bool>)
    requires 1 <= cfg.debounce <= 7 && Countable(cfg) && Resting(d)
    requires |tail| == cfg.debounce - 1 && Firm(cfg.debounce, word + tail)
    ensures var p := Play(cfg, History([], Idle), word);
            Trace(cfg, d, Raw(d.active, word + tail)) == Sentences(p.done) + Prefix(p.now)
  {
    hide Firm, Levels, Trace, Play, Sentences, Prefix;
    LevelsAreDelayed(cfg, d, word + tail);
    DelayedIs(cfg.debounce - 1, word + tail);
    assert (word + tail)[..|word|] == word;
    HeardFromRest(cfg, d, Raw(d.active, word + tail), cfg.debounce - 1, word);
  }

  /** A held button gives such levels as the lemmas above ask for. */
  lemma HeldLevels(cfg: Config, d: Device, n: nat)
    requires 1 <= cfg.debounce <= 7 && Resting(d)
    ensures Levels(cfg, d, Repeated(d.active, n)) ==
            if n < cfg.debounce then Repeated(false, n)
            else Repeated(false, cfg.debounce - 1) + Repeated(true, n - cfg.debounce + 1)
  {
    hide Levels;
    assert Raw(d.active, Repeated(true, n)) == Repeated(d.active, n);
    LevelsAreDelayed(cfg, d, Repeated(true, n));
    DelayedIs(cfg.debounce - 1, Repeated(true, n));
    if cfg.debounce <= n {
      assert Repeated(true, n)[..n - cfg.debounce + 1] == Repeated(true, n - cfg.debounce + 1);
    }
  }

  /** A button held from rest on: the press is heard with sample number
      debounce, the long press long + 1 samples later, then one hold each. */
  lemma HeldButtonHeard(cfg: Config, d: Device, n: nat)
    requires 1 <= cfg.debounce <= 7 && Countable(cfg) && Resting(d)
    ensures Trace(cfg, d, Repeated(d.active, n)) ==
            if n < cfg.debounce then []
            else if n <= cfg.debounce + cfg.long then [PressDown]
            else [PressDown, LongPressStart] + Holds(n - cfg.debounce - cfg.long - 1)
  {
    hide Trace, Levels, Play, Sentences, Holds;
    HeldLevels(cfg, d, n);
    if n < cfg.debounce {
      assert Repeated(false, n) + [] == Repeated(false, n);
      HeardFromRest(cfg, d, Repeated(d.active, n), n, []);
      PlayNothing(cfg);
      OnlyPrefix(Idle);
    } else {
      LongPressHeard(cfg, d, Repeated(d.active, n), cfg.debounce - 1, n - cfg.debounce + 1);
    }
  }

  lemma PlayNothing(cfg: Config)
    ensures Play(cfg, History([], Idle), []) == History([], Idle)
  {
  }

  /** Presses and pauses that outlast the debouncer. */
  ghost predicate Sampled(cfg: Config, strokes: seq<Stroke>) {
    forall i :: 0 <= i < |strokes| ==> cfg.debounce <= strokes[i].press && cfg.debounce <= strokes[i].rest
  }

  /** Firm, and quiet for n samples at the end. */
  ghost predicate FirmAndQuiet(n: nat, word: seq<bool>) {
    && Firm(n, word)
    && (word == [] || (n <= |word| && forall k :: |word| - n <= k < |word| ==> !word[k]))
  }

  lemma OneMoreStroke(n: nat, word: seq<bool>, press: nat, rest: nat)
    requires 1 <= n <= press && FirmAndQuiet(n, word)
    ensures Firm(n, word + (Repeated(true, press) + Repeated(false, rest)))
    ensures n <= rest ==> FirmAndQuiet(n, word + (Repeated(true, press) + Repeated(false, rest)))
  {
    var all := word + (Repeated(true, press) + Repeated(false, rest));
    forall i, k | 0 <= i <= k < |all| && k < i + n && all[i] != Early(all, i - 1) ensures all[k] == all[i] {
      if i < |word| {
        assert word[i] != Early(word, i - 1);
        assert k < |word| ==> word[k] == word[i];
      } else if i < |word| + press {
        assert i == |word|;
      }
    }
  }

  lemma MoreQuiet(n: nat, word: seq<bool>, rest: nat)
    requires 1 <= n && FirmAndQuiet(n, word)
    ensures Firm(n, word + Repeated(false, rest))
  {
    var all := word + Repeated(false, rest);
    forall i, k | 0 <= i <= k < |all| && k < i + n && all[i] != Early(all, i - 1) ensures all[k] == all[i] {
      if i < |word| {
        assert word[i] != Early(word, i - 1);
        assert k < |word| ==> word[k] == word[i];
      }
    }
  }

  lemma {:induction false} WordIsFirm(cfg: Config, strokes: seq<Stroke>)
    requires 1 <= cfg.debounce && Sampled(cfg, strokes)
    ensures FirmAndQuiet(cfg.debounce, Word(strokes))
  {
    if strokes == [] {
    } else {
      hide FirmAndQuiet, Repeated;
      var n := |strokes| - 1;
      WordIsFirm(cfg, strokes[..n]);
      OneMoreStroke(cfg.debounce, Word(strokes[..n]), strokes[n].press, strokes[n].rest);
    }
  }

  /** Any number of presses in quick succession, each firm for the debouncer:
      every press is heard, and after the pause one click, selected by their
      number modulo 256. */
  lemma {:induction false} ClickedButtonHeard(cfg: Config, d: Device, strokes: seq<Stroke>, pause: nat)
    requires 1 <= cfg.debounce <= 7 && Countable(cfg) && Resting(d)
    requires strokes != [] && Joined(cfg, strokes) && Sampled(cfg, strokes)
    requires cfg.short + 2 <= strokes[|strokes| - 1].rest + pause
    ensures Trace(cfg, d, Raw(d.active, Word(strokes) + Repeated(false, pause + cfg.debounce - 1))) ==
            Presses(|strokes|) + ClickEvents(|strokes|)
  {
    hide Trace, Word, Presses, Play, Sentences, Joined, Firm, FirmAndQuiet, Raw;
    var word, tail := Word(strokes) + Repeated(false, pause), Repeated(false, cfg.debounce - 1);
    assert word + tail == Word(strokes) + Repeated(false, pause + cfg.debounce - 1);
    WordIsFirm(cfg, strokes);
    MoreQuiet(cfg.debounce, Word(strokes), pause + cfg.debounce - 1);
    SamplesHeard(cfg, d, word, tail);
    JoinedPressesClick(cfg, strokes, pause);
    OneSentence(Clicks(|strokes|));
  }

  /** The same with a last press held for short calls or longer: no click. */
  lemma {:induction false} HeldRepeatButtonHeard(cfg: Config, d: Device, strokes: seq<Stroke>, p: nat, q: nat)
    requires 1 <= cfg.debounce <= 7 && Countable(cfg) && Resting(d)
    requires strokes != [] && Joined(cfg, strokes) && Sampled(cfg, strokes)
    requires cfg.debounce <= p && cfg.short <= p % 65536 && 1 <= q
    ensures Trace(cfg, d, Raw(d.active, Word(strokes) + (Repeated(true, p) + Repeated(false, q + cfg.debounce - 1)))) ==
            Presses(|strokes| + 1)
  {
    hide Trace, Word, Presses, Play, Sentences, Joined, Firm, FirmAndQuiet, Raw;
    var word, tail := Word(strokes) + (Repeated(true, p) + Repeated(false, q)), Repeated(false, cfg.debounce - 1);
    assert word + tail == Word(strokes) + (Repeated(true, p) + Repeated(false, q + cfg.debounce - 1));
    WordIsFirm(cfg, strokes);
    OneMoreStroke(cfg.debounce, Word(strokes), p, q + cfg.debounce - 1);
    SamplesHeard(cfg, d, word, tail);
    HeldRepeatEnds(cfg, strokes, p, q);
    OneSentence(Swallowed(|strokes| + 1));
  }

  /** A button just created is at rest, and so is one that has been quiet for
      debounce + short + 1 samples, whatever happened before.  What is heard
      then is heard as from rest: so the lemmas above are about every gesture,
      and not only the first. */
  lemma EveryGestureHeard(cfg: Config, active: bool, before: seq<bool>, pause: nat, samples: seq<bool>)
    requires 1 <= cfg.debounce <= 7 && Countable(cfg) && cfg.debounce + cfg.short + 1 <= pause
    ensures Resting(Created(active)) && Created(active).event == NonePress && Created(active).repeat == 0
    ensures var past := before + Quiet(active, pause);
            var d := After(cfg, Created(active), past);
            && Resting(d) && d.active == active
            && Trace(cfg, Created(active), past + samples) == Trace(cfg, Created(active), past) + Trace(cfg, d, samples)
  {
    hide Trace, After, Quiet;
    var past := before + Quiet(active, pause);
    SilenceBringsRest(cfg, active, before, pause);
    StateFollowsLevel(cfg, active, past);
    TraceConcat(cfg, Created(active), past, samples);
  }

  /** A long press at any time: holding the button adds exactly this. */
  lemma EveryLongPressHeard(cfg: Config, active: bool, before: seq<bool>, pause: nat, n: nat)
    requires 1 <= cfg.debounce <= 7 && Countable(cfg) && cfg.debounce + cfg.short + 1 <= pause
    requires cfg.debounce + cfg.long < n
    ensures var past := before + Quiet(active, pause);
            Trace(cfg, Created(active), past + Repeated(active, n)) ==
            Trace(cfg, Created(active), past) + ([PressDown, LongPressStart] + Holds(n - cfg.debounce - cfg.long - 1))
  {
    hide Trace, After, Holds, Quiet, Repeated, Resting;
    EveryGestureHeard(cfg, active, before, pause, Repeated(active, n));
    HeldButtonHeard(cfg, After(cfg, Created(active), before + Quiet(active, pause)), n);
  }

  // ---------- the callbacks of a device ----------

  /** The call of one event, if it has a callback. */
  function Own(event: Event, registered: set<Event>): seq<Event> { if event in registered then [event] else [] }

  lemma ClickIsHeard(registered: set<Event>)
    ensures Heard([PressDown, PressUp, SingleClick], registered) ==
            Own(PressDown, registered) + Own(PressUp, registered) + Own(SingleClick, registered)
  {
    hide Heard;
    HeardConcat([PressDown, PressUp], [SingleClick], registered);
    HeardConcat([PressDown], [PressUp], registered);
    HeardOne(PressDown, registered);
    HeardOne(PressUp, registered);
    HeardOne(SingleClick, registered);
    assert [PressDown] + [PressUp] == [PressDown, PressUp];
    assert [PressDown, PressUp] + [SingleClick] == [PressDown, PressUp, SingleClick];
  }

  lemma {:induction false} HoldsAreHeard(n: nat, registered: set<Event>)
    ensures Heard(Holds(n), registered) == if LongPressHold in registered then Holds(n) else []
  {
    if n == 0 {
    } else {
      assert Holds(n)[..n - 1] == Holds(n - 1);
      HoldsAreHeard(n - 1, registered);
    }
  }

  lemma LongPressIsHeard(n: nat, registered: set<Event>)
    ensures Heard([PressDown, LongPressStart] + Holds(n), registered) ==
            Own(PressDown, registered) + Own(LongPressStart, registered) + if LongPressHold in registered then Holds(n) else []
  {
    hide Heard, Holds;
    HeardConcat([PressDown, LongPressStart], Holds(n), registered);
    HeardConcat([PressDown], [LongPressStart], registered);
    HeardOne(PressDown, registered);
    HeardOne(LongPressStart, registered);
    HoldsAreHeard(n, registered);
    assert [PressDown] + [LongPressStart] == [PressDown, LongPressStart];
  }

  lemma ClickTrace(cfg: Config, d: Device, press: nat, pause: nat)
    requires 1 <= cfg.debounce <= 7 && Countable(cfg) && Resting(d)
    requires cfg.debounce <= press <= cfg.long + 1 && cfg.debounce <= cfg.short + 1 && cfg.debounce + cfg.short + 1 <= pause
    ensures Trace(cfg, d, Raw(d.active, Repeated(true, press) + Repeated(false, pause))) == [PressDown, PressUp, SingleClick]
  {
    hide Trace, Raw, Resting, Presses, ClickEvents;
    var n := cfg.debounce;
    var strokes := [Stroke(press, n)];
    OneStroke(press, n);
    hide Word;
    assert Repeated(true, press) + Repeated(false, pause) == Word(strokes) + Repeated(false, pause - n);
    ClickedButtonHeard(cfg, d, strokes, pause - 2 * n + 1);
    OneClick();
  }

  /** A click on a device at rest makes, of the three callbacks for the press,
      the release and the single click, exactly those that are registered. */
  method ClickOnce(dev: ButtonDev, press: nat, pause: nat)
    requires 1 <= dev.cfg.debounce <= 7 && Countable(dev.cfg) && Resting(dev.Fields())
    requires dev.cfg.debounce <= press <= dev.cfg.long + 1 && dev.cfg.debounce <= dev.cfg.short + 1
    requires dev.cfg.debounce + dev.cfg.short + 1 <= pause
    modifies dev
    ensures dev.cb == old(dev.cb)
    ensures dev.heard == old(dev.heard) + (Own(PressDown, dev.cb) + Own(PressUp, dev.cb) + Own(SingleClick, dev.cb))
  {
    ClickTrace(dev.cfg, dev.Fields(), press, pause);
    ClickIsHeard(dev.cb);
    hide Trace, Heard, After, Raw, Own, Repeated;
    dev.Feed(Raw(dev.activeLevel, Repeated(true, press) + Repeated(false, pause)));
  }

  lemma OneStroke(press: nat, rest: nat)
    ensures Word([Stroke(press, rest)]) == Repeated(true, press) + Repeated(false, rest)
  {
    assert [Stroke(press, rest)][..0] == [];
  }

  lemma OneClick()
    ensures Presses(1) + ClickEvents(1) == [PressDown, PressUp, SingleClick]
  {
  }

  /** Holding the button makes, of the callbacks for the press, the long press
      and its hold, exactly those that are registered. */
  method HoldDown(dev: ButtonDev, n: nat)
    requires 1 <= dev.cfg.debounce <= 7 && Countable(dev.cfg) && Resting(dev.Fields())
    requires dev.cfg.debounce + dev.cfg.long < n
    modifies dev
    ensures dev.cb == old(dev.cb)
    ensures dev.heard == old(dev.heard) +
              (Own(PressDown, dev.cb) + Own(LongPressStart, dev.cb) +
               if LongPressHold in dev.cb then Holds(n - dev.cfg.debounce - dev.cfg.long - 1) else [])
  {
    HeldButtonHeard(dev.cfg, dev.Fields(), n);
    LongPressIsHeard(n - dev.cfg.debounce - dev.cfg.long - 1, dev.cb);
    hide Trace, Heard, After, Repeated, Own, Holds;
    dev.Feed(Repeated(dev.activeLevel, n));
  }
}
