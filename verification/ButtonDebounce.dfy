/** What the debouncer computes from a stream of samples. */
module ButtonDebounce {
  import opened Button

  /** The value of the most recent run of n equal samples, or init. */
  function LastRun(n: nat, init: bool, samples: seq<bool>): bool
    requires n > 0
  {
    if |samples| < n then init
    else if EndsWithRun(n, samples) then samples[|samples| - 1]
    else LastRun(n, init, samples[..|samples| - 1])
  }

  predicate EndsWithRun(n: nat, samples: seq<bool>)
    requires 0 < n <= |samples|
  {
    forall i :: |samples| - n <= i < |samples| ==> samples[i] == samples[|samples| - 1]
  }

  /** The length of the longest suffix of samples that differ from level. */
  function Differing(level: bool, samples: seq<bool>): nat {
    if samples == [] || samples[|samples| - 1] == level then 0
    else 1 + Differing(level, samples[..|samples| - 1])
  }

  lemma {:induction false} DifferingIsSuffix(level: bool, samples: seq<bool>, n: nat)
    requires n <= |samples|
    ensures n <= Differing(level, samples) <==> forall i :: |samples| - n <= i < |samples| ==> samples[i] != level
    ensures Differing(level, samples) <= |samples|
  {
    if samples == [] {
    } else {
      var before := samples[..|samples| - 1];
      DifferingIsSuffix(level, before, if n == 0 then 0 else n - 1);
      if n > 0 && samples[|samples| - 1] != level && n <= Differing(level, samples) {
        forall i | |samples| - n <= i < |samples| ensures samples[i] != level {
          assert i < |before| ==> samples[i] == before[i];
        }
      }
      if n > 0 && forall i :: |samples| - n <= i < |samples| ==> samples[i] != level {
        assert forall i :: |before| - (n - 1) <= i < |before| ==> before[i] == samples[i];
      }
    }
  }

  /** The gesture machine does not touch the debouncer. */
  lemma HandleDebounces(cfg: Config, d: Device, sample: bool)
    ensures var r, e := Handle(cfg, d, sample).device, Debounce(cfg, d, sample);
            r.level == e.level && r.count == e.count && r.active == d.active
  {
  }

  lemma LastRunStep(n: nat, init: bool, samples: seq<bool>, level: bool)
    requires n > 0 && samples != []
    requires var before := samples[..|samples| - 1]; level == LastRun(n, init, before) && Differing(level, before) < n
    ensures var before, x := samples[..|samples| - 1], samples[|samples| - 1];
            LastRun(n, init, samples) == if x != level && Differing(level, before) + 1 == n then x else level
  {
    if |samples| >= n {
      DifferingIsSuffix(level, samples, n);
    } else {
      DifferingIsSuffix(level, samples, |samples|);
    }
  }

  /** For limits 1 to 7, after any samples the level is the value of the most
      recent run as long as the limit, and the count is the length of the run
      that currently disagrees with it. */
  lemma {:induction false} DebounceIsLastRun(cfg: Config, d: Device, samples: seq<bool>)
    requires 1 <= cfg.debounce <= 7 && d.count == 0
    ensures var r := After(cfg, d, samples);
            && r.level == LastRun(cfg.debounce, d.level, samples)
            && r.count == Differing(r.level, samples) < cfg.debounce
  {
    hide Handle;
    if samples == [] {
    } else {
      var before := samples[..|samples| - 1];
      var p := After(cfg, d, before);
      DebounceIsLastRun(cfg, d, before);
      HandleDebounces(cfg, p, samples[|samples| - 1]);
      LastRunStep(cfg.debounce, d.level, samples, p.level);
      hide LastRun;
    }
  }

  /** The limit 8, which the menu also offers, is out of reach of the three-bit
      counter: no samples ever change the level. */
  lemma {:induction false} LimitEightIsDeaf(cfg: Config, d: Device, samples: seq<bool>)
    requires cfg.debounce == 8
    ensures After(cfg, d, samples).level == d.level
  {
    if samples == [] {
    } else {
      LimitEightIsDeaf(cfg, d, samples[..|samples| - 1]);
      HandleDebounces(cfg, After(cfg, d, samples[..|samples| - 1]), samples[|samples| - 1]);
    }
  }

  /** So among the limits of the menu, debouncing works exactly up to 7. */
  lemma DebounceWorksUpToSeven(cfg: Config, active: bool)
    requires 1 <= cfg.debounce <= 8
    ensures (forall samples: seq<bool> ::
               After(cfg, Created(active), samples).level == LastRun(cfg.debounce, !active, samples)) <==> cfg.debounce <= 7
  {
    if cfg.debounce <= 7 {
      forall samples: seq<bool>
        ensures After(cfg, Created(active), samples).level == LastRun(cfg.debounce, !active, samples)
      {
        DebounceIsLastRun(cfg, Created(active), samples);
      }
    } else {
      var held := seq(8, _ => active);
      LimitEightIsDeaf(cfg, Created(active), held);
      assert LastRun(8, !active, held) == active;
    }
  }
}
