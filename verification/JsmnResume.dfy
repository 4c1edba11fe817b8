/** Calling the parser again: with more text, with more tokens, or with both. */
module JsmnResume {
  import opened JsmnTypes
  import opened JsmnLexer
  import opened JsmnSpec
  import opened JsmnInvariants

  // ---------- scanning a prefix and the longer text ----------

  lemma {:induction false} HexEndLonger(js: string, js': string, i: nat, n: nat)
    requires js <= js' && i <= |js|
    ensures HexEnd(js, i, n) == HexEnd(js', i, n) || HexEnd(js, i, n) == Found(|js|)
    decreases n
  {
    if n > 0 && More(js, i) && IsHex(js[i]) {
      HexEndLonger(js, js', i + 1, n - 1);
    }
  }

  /** A string that ends or fails in the prefix does so in the longer text. */
  lemma {:induction false} StringEndLonger(js: string, js': string, i: nat)
    requires js <= js' && i <= |js|
    ensures StringEnd(js, i) == StringEnd(js', i) || StringEnd(js, i) == Cut
    decreases |js| - i
  {
    if More(js, i) && js[i] != '\"' {
      if js[i] == '\\' && i + 1 < |js| {
        if IsShortEscape(js[i + 1]) {
          StringEndLonger(js, js', i + 2);
        } else if js[i + 1] == 'u' {
          HexEndLonger(js, js', i + 2, 4);
          if HexEnd(js, i + 2, 4).Found? {
            StringEndLonger(js, js', HexEnd(js, i + 2, 4).at);
          }
        }
      } else {
        StringEndLonger(js, js', i + 1);
      }
    }
  }

  /** A primitive that reaches the end of the prefix ends there in the longer
      text exactly when the byte that follows ends it. */
  lemma {:induction false} PrimitiveEndLonger(strict: bool, js: string, js': string, i: nat)
    requires js <= js' && i <= |js|
    ensures var p, q := PrimitiveEnd(strict, js, i), PrimitiveEnd(strict, js', i);
            if p == Found(|js|) then
              !strict && (q == p <==> !More(js', |js|) || EndsPrimitive(strict, js'[|js|])) && (q.Found? ==> |js| <= q.at)
            else p == q || p == Cut
    decreases |js| - i
  {
    if More(js, i) && !EndsPrimitive(strict, js[i]) && Printable(js[i]) {
      PrimitiveEndLonger(strict, js, js', i + 1);
    }
  }

  // ---------- one step ----------

  /** The primitive that ends with the text js goes on in the longer text. */
  ghost predicate GoesOn(b: Build, js: string, js': string, t: Token) {
    js <= js' && t.kind == Primitive && t.end == |js| && More(js', |js|) && !EndsPrimitive(b.strict, js'[|js|])
  }

  /** A step that succeeds is the same step on a longer text and with more
      room, unless it stored a primitive that goes on. */
  lemma StepLonger(b: Build, js: string, js': string, cap: int, cap': int, s: State)
    requires WellFormed(s) && More(js, s.pos) && js <= js' && cap <= cap'
    requires Step(b, js, cap, s).Go?
    ensures var next := Step(b, js, cap, s).next;
            var n := |s.toks|;
            if |next.toks| > n && GoesOn(b, js, js', next.toks[n]) then
              next.pos == |js| &&
              match Step(b, js', cap', s)
              case Fail(e) => e == Inval
              case Go(other) => |other.toks| == n + 1 && other.toks[n].kind == Primitive && |js| < other.toks[n].end
            else Step(b, js', cap', s) == Go(next)
  {
    var c := js[s.pos];
    if c == '\"' {
      StringEndLonger(js, js', s.pos + 1);
    } else if StartsPrimitive(c) {
      PrimitiveEndLonger(b.strict, js, js', s.pos);
    }
  }

  lemma InvalidLonger(b: Build, js: string, js': string, cap: int, cap': int, s: State)
    requires WellFormed(s) && More(js, s.pos) && js <= js'
    requires Step(b, js, cap, s) == Fail(Inval)
    ensures Step(b, js', cap', s) == Fail(Inval)
  {
    var c := js[s.pos];
    if c == '\"' {
      StringEndLonger(js, js', s.pos + 1);
    } else if StartsPrimitive(c) {
      PrimitiveEndLonger(b.strict, js, js', s.pos);
    }
  }

  // ---------- a whole call ----------

  /** The call on js, which started in s and left s1 behind, consumed text and
      ended with a primitive that goes on in js'. */
  ghost predicate CutsPrimitive(b: Build, js: string, js': string, s: State, s1: State) {
    s.pos < |js| && |s1.toks| > 0 && GoesOn(b, js, js', s1.toks[|s1.toks| - 1])
  }

  /** The run on a longer text and with more room passes through the state in
      which the shorter run stopped. */
  lemma {:induction false} RunPassesThrough(b: Build, js: string, js': string, cap: int, cap': int, s: State)
    requires WellFormed(s) && js <= js' && cap <= cap'
    requires !CutsPrimitive(b, js, js', s, RunFrom(b, js, cap, s).state)
    ensures RunFrom(b, js', cap', RunFrom(b, js, cap, s).state) == RunFrom(b, js', cap', s)
    decreases |js| - s.pos
  {
    hide Step, GoesOn;
    if More(js, s.pos) && Step(b, js, cap, s).Go? {
      var next := Step(b, js, cap, s).next;
      StepLonger(b, js, js', cap, cap', s);
      if More(js, next.pos) {
        RunPassesThrough(b, js, js', cap, cap', next);
      }
    }
  }

  lemma ClosedTokenKept(b: Build, js: string, cap: int, s: State, i: nat)
    requires WellFormed(s) && i < |s.toks| && s.toks[i].end != -1 && More(js, s.pos) && Step(b, js, cap, s).Go?
    ensures var t := Step(b, js, cap, s).next.toks; t[i].kind == s.toks[i].kind && t[i].end == s.toks[i].end
  {
    hide StringEnd, PrimitiveEnd, CommaSuper, IsKeyPlace, NearestOpen, LastOpen, StartsStrictPrimitive;
  }

  /** Tokens that are closed keep their type and their span. */
  lemma {:induction false} ClosedTokensStay(b: Build, js: string, cap: int, s: State, i: nat)
    requires WellFormed(s) && i < |s.toks| && s.toks[i].end != -1
    ensures var t := RunFrom(b, js, cap, s).state.toks;
            t[i].kind == s.toks[i].kind && t[i].end == s.toks[i].end
    decreases |js| - s.pos
  {
    hide Step;
    if More(js, s.pos) && Step(b, js, cap, s).Go? {
      ClosedTokenKept(b, js, cap, s, i);
      ClosedTokensStay(b, js, cap, Step(b, js, cap, s).next, i);
    }
  }

  /** A cut primitive shows in the final state: in its end, or in the position. */
  lemma {:induction false} CutShows(b: Build, js: string, js': string, cap: int, cap': int, s: State)
    requires Sound(b, js, s) && js <= js' && cap <= cap'
    requires CutsPrimitive(b, js, js', s, RunFrom(b, js, cap, s).state)
    ensures RunFrom(b, js', cap', RunFrom(b, js, cap, s).state).state != RunFrom(b, js', cap', s).state
    decreases |js| - s.pos
  {
    hide Step;
    var s1 := RunFrom(b, js, cap, s).state;
    var n := |s.toks|;
    assert More(js, s.pos) && Step(b, js, cap, s).Go? by {
      assert n > 0 ==> Delimited(b, js, s.pos, s.toks[n - 1]);
    }
    var next := Step(b, js, cap, s).next;
    assert RunFrom(b, js, cap, s) == RunFrom(b, js, cap, next);
    StepLonger(b, js, js', cap, cap', s);
    if |next.toks| > n && GoesOn(b, js, js', next.toks[n]) {
      assert s1 == next;
      ClosedTokensStay(b, js', cap', s1, n);
      if Step(b, js', cap', s).Go? {
        ClosedTokensStay(b, js', cap', Step(b, js', cap', s).next, n);
      }
    } else {
      StepKeeps(b, js, cap, s);
      if next.pos == |js| {
        if |next.toks| == n {
          LastTokenEndsBefore(b, js, cap, s);
        }
      } else {
        CutShows(b, js, js', cap, cap', next);
      }
    }
  }

  /** A step that stores no token leaves a last primitive that ended before it. */
  lemma LastTokenEndsBefore(b: Build, js: string, cap: int, s: State)
    requires Sound(b, js, s) && More(js, s.pos) && Step(b, js, cap, s).Go?
    requires var next := Step(b, js, cap, s).next; |next.toks| == |s.toks| > 0
    ensures var t := Step(b, js, cap, s).next.toks[|s.toks| - 1]; t.kind == Primitive ==> t.end <= s.pos
  {
    assert Delimited(b, js, s.pos, s.toks[|s.toks| - 1]);
    OnlyContainersAreOpen(b, js, s);
  }

  /** Resumption.  Whatever the first call returned, calling again from the
      state it left, with the longer text and at least as much room, gives the
      result, the parser state and the tokens of the one call on the longer
      text, if and only if the first call did not cut a primitive. */
  lemma ResumeIsOneCall(b: Build, js: string, js': string, cap: int, cap': int, s: State)
    requires Sound(b, js, s) && js <= js' && cap <= cap'
    ensures var first := Parse(b, js, cap, s);
            Parse(b, js', cap', first.state) == Parse(b, js', cap', s) <==> !CutsPrimitive(b, js, js', s, first.state)
  {
    if CutsPrimitive(b, js, js', s, Parse(b, js, cap, s).state) {
      CutShows(b, js, js', cap, cap', s);
    } else {
      RunPassesThrough(b, js, js', cap, cap', s);
    }
  }

  /** The difference is real: a number that comes in two pieces is stored as
      two tokens, and as one when the text is parsed at once. */
  lemma CutSplitsNumber()
    ensures var first := Parse(DEFAULT_BUILD, "1", 9, FRESH);
            && CutsPrimitive(DEFAULT_BUILD, "1", "12", FRESH, first.state)
            && first.verdict == Done(1)
            && Parse(DEFAULT_BUILD, "12", 9, first.state).verdict == Done(2)
            && Parse(DEFAULT_BUILD, "12", 9, FRESH).verdict == Done(1)
  {
    hide StringEnd, CloseStep, CommaSuper, RunFrom, Step, LastOpen, PrimitiveEnd;
    Digits();
    var s := State(1, [Token(Primitive, 0, 1, 0, -1)], -1);
    LastPrimitive("1", FRESH);
    LastPrimitive("12", s);
    LastPrimitive("12", FRESH);
    assert FRESH.toks + [Token(Primitive, 0, 1, 0, -1)] == s.toks;
  }

  lemma Digits()
    ensures PrimitiveEnd(false, "1", 0) == Found(1)
    ensures PrimitiveEnd(false, "12", 0) == PrimitiveEnd(false, "12", 1) == Found(2)
  {
    assert PrimitiveEnd(false, "1", 1) == Found(1);
    assert PrimitiveEnd(false, "12", 2) == Found(2);
  }

  lemma LastPrimitive(js: string, s: State)
    requires WellFormed(s) && s.super == -1 && |s.toks| < 9 && More(js, s.pos)
    requires StartsPrimitive(js[s.pos]) && PrimitiveEnd(false, js, s.pos) == Found(|js|)
    requires forall i :: 0 <= i < |s.toks| ==> !IsOpen(s.toks[i])
    ensures Parse(DEFAULT_BUILD, js, 9, s) ==
            Call(State(|js|, s.toks + [Token(Primitive, s.pos, |js|, 0, -1)], -1), Done(|s.toks| + 1))
  {
    hide StringEnd, CloseStep, CommaSuper, OpenStep, PrimitiveEnd;
    var next := State(|js|, s.toks + [Token(Primitive, s.pos, |js|, 0, -1)], -1);
    assert Step(DEFAULT_BUILD, js, 9, s) == Go(next);
    hide Step;
    assert RunFrom(DEFAULT_BUILD, js, 9, next) == Run(next, AtEnd);
    assert LastOpen(next.toks, |next.toks|) == -1;
  }

  /** In strict mode no call cuts a primitive, so every cut is harmless. */
  lemma {:induction false} StrictNeverCuts(b: Build, js: string, js': string, cap: int, s: State)
    requires Sound(b, js, s) && js <= js' && b.strict
    ensures !CutsPrimitive(b, js, js', s, Parse(b, js, cap, s).state)
    decreases |js| - s.pos
  {
    hide Step;
    if More(js, s.pos) && Step(b, js, cap, s).Go? {
      var next := Step(b, js, cap, s).next;
      StepKeeps(b, js, cap, s);
      if next.pos < |js| {
        StrictNeverCuts(b, js, js', cap, next);
      } else if |next.toks| == |s.toks| > 0 {
        LastTokenEndsBefore(b, js, cap, s);
      } else if |next.toks| > |s.toks| {
        StrictTokenEndsBefore(b, js, cap, s);
      }
    } else if |s.toks| > 0 {
      assert Delimited(b, js, s.pos, s.toks[|s.toks| - 1]);
    }
  }

  lemma StrictTokenEndsBefore(b: Build, js: string, cap: int, s: State)
    requires WellFormed(s) && b.strict && More(js, s.pos) && Step(b, js, cap, s).Go?
    requires |Step(b, js, cap, s).next.toks| > |s.toks|
    ensures var t := Step(b, js, cap, s).next.toks[|s.toks|]; t.kind == Primitive ==> t.end < |js|
  {
  }

  /** Invalid data stays invalid, and is reported in the same state. */
  lemma {:induction false} InvalidIsFinal(b: Build, js: string, js': string, cap: int, cap': int, s: State)
    requires WellFormed(s) && js <= js' && cap <= cap'
    requires Parse(b, js, cap, s).verdict == Error(Inval)
    ensures Parse(b, js', cap', s) == Parse(b, js, cap, s)
    decreases |js| - s.pos
  {
    match Step(b, js, cap, s)
    case Fail(_) => InvalidLonger(b, js, js', cap, cap', s);
    case Go(next) =>
      StepLonger(b, js, js', cap, cap', s);
      InvalidIsFinal(b, js, js', cap, cap', next);
  }

  /** Out of tokens: the array is exactly full, and the state is the one in
      which the lexeme that found no room begins. */
  lemma {:induction false} NoMemIsFull(b: Build, js: string, cap: nat, s: State)
    requires WellFormed(s) && |s.toks| <= cap
    requires Parse(b, js, cap, s).verdict == Error(NoMem)
    ensures var r := Parse(b, js, cap, s).state;
            |r.toks| == cap && More(js, r.pos) && Step(b, js, cap, r) == Fail(NoMem)
    decreases |js| - s.pos
  {
    match Step(b, js, cap, s)
    case Fail(_) =>
    case Go(next) => NoMemIsFull(b, js, cap, next);
  }

  // ---------- whole sessions ----------

  /** No call but the last ends inside a primitive of the text js. */
  ghost predicate NeverCuts(b: Build, calls: seq<Request>, js: string, s: State)
    requires WellFormed(s)
    decreases |calls|
  {
    |calls| > 1 ==>
      var s1 := Parse(b, calls[0].js, calls[0].cap, s).state;
      !CutsPrimitive(b, calls[0].js, js, s, s1) && NeverCuts(b, calls[1..], js, s1)
  }

  ghost predicate GrowingRoom(calls: seq<Request>) {
    forall i, j :: 0 <= i < j < |calls| ==> calls[i].cap <= calls[j].cap
  }

  /** However text and room arrive, the last call of a session that cuts no
      primitive does what one call with the final text and room does. */
  lemma {:induction false} SessionIsOneCall(b: Build, calls: seq<Request>, s: State)
    requires |calls| > 0 && Growing(calls) && GrowingRoom(calls)
    requires Sound(b, calls[0].js, s)
    requires NeverCuts(b, calls, calls[|calls| - 1].js, s)
    ensures var last := calls[|calls| - 1];
            Parse(b, last.js, last.cap, Session(b, calls[..|calls| - 1], s)) == Parse(b, last.js, last.cap, s)
    decreases |calls|
  {
    var last := calls[|calls| - 1];
    if |calls| > 1 {
      var s1 := Parse(b, calls[0].js, calls[0].cap, s).state;
      var rest := calls[1..];
      RunKeeps(b, calls[0].js, calls[0].cap, s);
      SoundOnLongerText(b, calls[0].js, rest[0].js, s1);
      SessionIsOneCall(b, rest, s1);
      ResumeIsOneCall(b, calls[0].js, last.js, calls[0].cap, last.cap, s);
      assert calls[..|calls| - 1][1..] == rest[..|rest| - 1];
    }
  }
}
