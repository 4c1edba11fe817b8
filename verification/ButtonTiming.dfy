/** How long presses and pauses must last to become clicks and long presses. */
module ButtonTiming {
  import opened Button
  import opened ButtonGestures

  /** For every call: is the debounced level the active one? */
  function Levels(cfg: Config, d: Device, samples: seq<bool>): seq<bool> {
    seq(|samples|, i requires 0 <= i < |samples| => After(cfg, d, samples[..i + 1]).level == d.active)
  }

  /** The gestures made of a sequence of levels. */
  function Play(cfg: Config, h: History, levels: seq<bool>): History
    decreases |levels|
  {
    if levels == [] then h
    else Play(cfg, History(h.done + Finished(cfg, h.now, levels[0]), Next(cfg, h.now, levels[0])), levels[1..])
  }

  lemma {:induction false} PlayConcat(cfg: Config, h: History, s: seq<bool>, t: seq<bool>)
    ensures Play(cfg, h, s + t) == Play(cfg, Play(cfg, h, s), t)
    decreases |s|
  {
    if s == [] {
      assert s + t == t;
    } else {
      assert (s + t)[1..] == s[1..] + t;
      PlayConcat(cfg, History(h.done + Finished(cfg, h.now, s[0]), Next(cfg, h.now, s[0])), s[1..], t);
    }
  }

  /** The gestures told by a run are those played by its levels. */
  lemma {:induction false} ToldIsPlayed(cfg: Config, d: Device, samples: seq<bool>)
    ensures Told(cfg, d, samples) == Play(cfg, History([], Idle), Levels(cfg, d, samples))
  {
    hide After, Next, Finished;
    if samples == [] {
    } else {
      var before := samples[..|samples| - 1];
      ToldIsPlayed(cfg, d, before);
      forall i | 0 <= i < |before| ensures Levels(cfg, d, before)[i] == Levels(cfg, d, samples)[i] {
        assert before[..i + 1] == samples[..i + 1];
      }
      assert samples[..|samples|] == samples;
      var last := Levels(cfg, d, samples)[|samples| - 1];
      assert Levels(cfg, d, samples) == Levels(cfg, d, before) + [last];
      PlayConcat(cfg, History([], Idle), Levels(cfg, d, before), [last]);
    }
  }

  // ---------- strokes ----------

  function Repeated(level: bool, n: nat): seq<bool> { seq(n, _ => level) }

  lemma RepeatedFirst(cfg: Config, h: History, level: bool, n: nat)
    requires n > 0
    ensures Play(cfg, h, Repeated(level, n)) ==
            Play(cfg, History(h.done + Finished(cfg, h.now, level), Next(cfg, h.now, level)), Repeated(level, n - 1))
  {
    assert Repeated(level, n)[1..] == Repeated(level, n - 1);
  }

  /** A pause after a press, counted from the release. */
  lemma {:induction false} RestPlays(cfg: Config, es: seq<Episode>, presses: nat, calls: nat, n: nat)
    requires calls + n <= cfg.short + 1
    ensures Play(cfg, History(es, Released(presses, calls)), Repeated(false, n)) ==
            if calls + n <= cfg.short then History(es, Released(presses, calls + n))
            else if n == 0 then History(es, Released(presses, calls)) else History(es + [Clicks(presses)], Idle)
    decreases n
  {
    hide Play;
    if n == 0 {
      PlayNone(cfg, History(es, Released(presses, calls)));
    } else {
      RepeatedFirst(cfg, History(es, Released(presses, calls)), false, n);
      assert es + [] == es;
      if calls + 1 <= cfg.short {
        RestPlays(cfg, es, presses, calls + 1, n - 1);
      } else {
        PlayNone(cfg, History(es + [Clicks(presses)], Idle));
      }
    }
  }

  lemma PlayNone(cfg: Config, h: History)
    ensures forall level :: Play(cfg, h, Repeated(level, 0)) == h
  {
  }

  lemma {:induction false} FirstPressPlays(cfg: Config, es: seq<Episode>, calls: nat, n: nat)
    requires calls + n <= cfg.long
    ensures Play(cfg, History(es, Pressed(calls)), Repeated(true, n)) == History(es, Pressed(calls + n))
    decreases n
  {
    hide Play;
    PlayNone(cfg, History(es, Pressed(calls)));
    if n == 0 {
    } else {
      RepeatedFirst(cfg, History(es, Pressed(calls)), true, n);
      assert es + [] == es;
      FirstPressPlays(cfg, es, calls + 1, n - 1);
    }
  }

  lemma {:induction false} RepeatPressPlays(cfg: Config, es: seq<Episode>, presses: nat, calls: nat, n: nat)
    ensures Play(cfg, History(es, Repeating(presses, calls)), Repeated(true, n)) == History(es, Repeating(presses, calls + n))
    decreases n
  {
    hide Play;
    PlayNone(cfg, History(es, Repeating(presses, calls)));
    if n == 0 {
    } else {
      RepeatedFirst(cfg, History(es, Repeating(presses, calls)), true, n);
      assert es + [] == es;
      RepeatPressPlays(cfg, es, presses, calls + 1, n - 1);
    }
  }

  lemma {:induction false} HoldPlays(cfg: Config, es: seq<Episode>, holds: nat, n: nat)
    ensures Play(cfg, History(es, Holding(holds)), Repeated(true, n)) == History(es, Holding(holds + n))
    decreases n
  {
    hide Play;
    PlayNone(cfg, History(es, Holding(holds)));
    if n == 0 {
    } else {
      RepeatedFirst(cfg, History(es, Holding(holds)), true, n);
      assert es + [] == es;
      HoldPlays(cfg, es, holds + 1, n - 1);
    }
  }

  // ---------- long presses ----------

  /** The first press of a gesture, still held: the long press starts with the
      call that comes long + 1 calls after the press, not before. */
  lemma LongPressTiming(cfg: Config, es: seq<Episode>, n: nat)
    requires 1 <= n
    ensures Play(cfg, History(es, Idle), Repeated(true, n)) ==
            History(es, if n <= cfg.long + 1 then Pressed(n - 1) else Holding(n - cfg.long - 2))
  {
    hide Play;
    assert es + [] == es;
    RepeatedFirst(cfg, History(es, Idle), true, n);
    if n <= cfg.long + 1 {
      FirstPressPlays(cfg, es, 0, n - 1);
    } else {
      var rest := n - cfg.long - 1;
      FirstPressPlays(cfg, es, 0, cfg.long);
      assert Repeated(true, n - 1) == Repeated(true, cfg.long) + Repeated(true, rest);
      PlayConcat(cfg, History(es, Pressed(0)), Repeated(true, cfg.long), Repeated(true, rest));
      RepeatedFirst(cfg, History(es, Pressed(cfg.long)), true, rest);
      HoldPlays(cfg, es, 0, rest - 1);
    }
  }

  // ---------- repeat presses ----------

  /** A repeat press of p calls and its release: the gesture goes on when p is
      short, as a 16-bit counter sees it, and else ends without a click. */
  lemma RepeatPressTiming(cfg: Config, es: seq<Episode>, presses: nat, calls: nat, p: nat)
    requires 1 <= p
    ensures Play(cfg, History(es, Released(presses, calls)), Repeated(true, p) + [false]) ==
            if p % 65536 < cfg.short then History(es, Released(presses + 1, 0))
            else History(es + [Swallowed(presses + 1)], Idle)
  {
    var h := History(es, Released(presses, calls));
    var held := History(es, Repeating(presses + 1, p - 1));
    assert es + [] == es;
    PlayConcat(cfg, h, Repeated(true, p), [false]);
    assert Play(cfg, h, Repeated(true, p)) == held by {
      hide Play;
      RepeatedFirst(cfg, h, true, p);
      RepeatPressPlays(cfg, es, presses + 1, 0, p - 1);
    }
    assert [false][1..] == [];
  }

  // ---------- clicks ----------

  /** A press and the pause after it, in calls. */
  datatype Stroke = Stroke(press: nat, rest: nat)

  function Word(strokes: seq<Stroke>): seq<bool> {
    if strokes == [] then []
    else Word(strokes[..|strokes| - 1]) + (Repeated(true, strokes[|strokes| - 1].press) + Repeated(false, strokes[|strokes| - 1].rest))
  }

  /** Presses short enough to be clicks, as a 16-bit counter sees them, and
      pauses short enough to join them. */
  ghost predicate Joined(cfg: Config, strokes: seq<Stroke>) {
    forall i :: 0 <= i < |strokes| ==>
      && 1 <= strokes[i].rest <= cfg.short + 1
      && 1 <= strokes[i].press
      && (if i == 0 then strokes[i].press <= cfg.long + 1 else strokes[i].press % 65536 < cfg.short)
  }

  lemma StrokePlays(cfg: Config, es: seq<Episode>, before: Pending, presses: nat, s: Stroke)
    requires cfg.short < 65536 && 1 <= s.rest <= cfg.short + 1 && 1 <= s.press
    requires (before == Idle && presses == 1 && s.press <= cfg.long + 1) ||
             (before.Released? && before.presses + 1 == presses && s.press % 65536 < cfg.short)
    ensures Play(cfg, History(es, before), Repeated(true, s.press) + Repeated(false, s.rest)) ==
            History(es, Released(presses, s.rest - 1))
  {
    hide Play;
    assert es + [] == es;
    PlayConcat(cfg, History(es, before), Repeated(true, s.press), Repeated(false, s.rest));
    if before == Idle {
      LongPressTiming(cfg, es, s.press);
    } else {
      RepeatedFirst(cfg, History(es, before), true, s.press);
      RepeatPressPlays(cfg, es, presses, 0, s.press - 1);
    }
    var held := if before == Idle then Pressed(s.press - 1) else Repeating(presses, s.press - 1);
    RepeatedFirst(cfg, History(es, held), false, s.rest);
    RestPlays(cfg, es, presses, 0, s.rest - 1);
  }

  lemma {:induction false} JoinedPlays(cfg: Config, strokes: seq<Stroke>)
    requires cfg.short < 65536 && strokes != [] && Joined(cfg, strokes)
    ensures Play(cfg, History([], Idle), Word(strokes)) ==
            History([], Released(|strokes|, strokes[|strokes| - 1].rest - 1))
  {
    var n := |strokes| - 1;
    var last := strokes[n];
    var stroke := Repeated(true, last.press) + Repeated(false, last.rest);
    hide Play, Repeated;
    PlayConcat(cfg, History([], Idle), Word(strokes[..n]), stroke);
    if n == 0 {
      WordNone(cfg);
      StrokePlays(cfg, [], Idle, 1, last);
    } else {
      JoinedPlays(cfg, strokes[..n]);
      StrokePlays(cfg, [], Released(n, strokes[n - 1].rest - 1), n + 1, last);
    }
  }

  lemma WordNone(cfg: Config)
    ensures Play(cfg, History([], Idle), Word([])) == History([], Idle)
  {
  }

  /** Any number of joined presses, then a pause of short + 2 calls in all or
      more: exactly one click gesture with that number of presses, and rest. */
  lemma {:induction false} JoinedPressesClick(cfg: Config, strokes: seq<Stroke>, pause: nat)
    requires cfg.short < 65536 && strokes != [] && Joined(cfg, strokes)
    requires cfg.short + 2 <= strokes[|strokes| - 1].rest + pause
    ensures Play(cfg, History([], Idle), Word(strokes) + Repeated(false, pause)) == History([Clicks(|strokes|)], Idle)
  {
    var rest := strokes[|strokes| - 1].rest;
    var wait := cfg.short + 2 - rest;
    hide Play, Word;
    JoinedPlays(cfg, strokes);
    PlayConcat(cfg, History([], Idle), Word(strokes), Repeated(false, pause));
    assert Repeated(false, pause) == Repeated(false, wait) + Repeated(false, pause - wait);
    PlayConcat(cfg, History([], Released(|strokes|, rest - 1)), Repeated(false, wait), Repeated(false, pause - wait));
    RestPlays(cfg, [], |strokes|, rest - 1, wait);
    assert [] + [Clicks(|strokes|)] == [Clicks(|strokes|)];
    IdlePlays(cfg, [Clicks(|strokes|)], pause - wait);
  }

  // ---------- held presses ----------

  lemma LongPressPlays(cfg: Config, n: nat, q: nat)
    requires cfg.long + 2 <= n && 1 <= q
    ensures Play(cfg, History([], Idle), Repeated(true, n) + Repeated(false, q)) == History([Held(n - cfg.long - 2)], Idle)
  {
    hide Play, Repeated;
    var held := Held(n - cfg.long - 2);
    PlayConcat(cfg, History([], Idle), Repeated(true, n), Repeated(false, q));
    LongPressTiming(cfg, [], n);
    RepeatedFirst(cfg, History([], Holding(held.holds)), false, q);
    assert [] + [held] == [held];
    IdlePlays(cfg, [held], q - 1);
  }

  lemma {:induction false} IdlePlays(cfg: Config, es: seq<Episode>, n: nat)
    ensures Play(cfg, History(es, Idle), Repeated(false, n)) == History(es, Idle)
  {
    hide Play;
    PlayNone(cfg, History(es, Idle));
    if n == 0 {
    } else {
      RepeatedFirst(cfg, History(es, Idle), false, n);
      assert es + [] == es;
      IdlePlays(cfg, es, n - 1);
    }
  }

  /** The bound on the limit is exact: with a larger one the 16-bit counter
      never gets beyond it, and no long press ever starts. */
  lemma {:induction false} LongLimitOutOfReach(cfg: Config, active: bool, samples: seq<bool>)
    requires cfg.long >= 65535
    ensures var d := After(cfg, Created(active), samples); d.ticks < 65536 && d.state != 5
  {
    hide Handle;
    if samples == [] {
    } else {
      LongLimitOutOfReach(cfg, active, samples[..|samples| - 1]);
      LimitStaysOutOfReach(cfg, After(cfg, Created(active), samples[..|samples| - 1]), samples[|samples| - 1]);
    }
  }

  lemma LimitStaysOutOfReach(cfg: Config, d: Device, sample: bool)
    requires cfg.long >= 65535 && d.ticks < 65536 && d.state != 5
    ensures var r := Handle(cfg, d, sample).device; r.ticks < 65536 && r.state != 5
  {
  }

  lemma HeldRepeatPlays(cfg: Config, n: nat, calls: nat, p: nat, q: nat)
    requires 1 <= p && cfg.short <= p % 65536 && 1 <= q
    ensures Play(cfg, History([], Released(n, calls)), Repeated(true, p) + Repeated(false, q)) == History([Swallowed(n + 1)], Idle)
  {
    hide Play;
    var swallowed := Swallowed(n + 1);
    assert Repeated(true, p) + Repeated(false, q) == (Repeated(true, p) + [false]) + Repeated(false, q - 1);
    PlayConcat(cfg, History([], Released(n, calls)), Repeated(true, p) + [false], Repeated(false, q - 1));
    RepeatPressTiming(cfg, [], n, calls, p);
    assert [] + [swallowed] == [swallowed];
    IdlePlays(cfg, [swallowed], q - 1);
  }
}
