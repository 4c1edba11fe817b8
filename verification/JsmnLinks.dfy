/** The build with parent links against the default build, on any text. */
module JsmnLinks {
  import opened JsmnTypes
  import opened JsmnLexer
  import opened JsmnSpec
  import opened JsmnInvariants
  import opened JsmnStack

  /** Same position and same tokens up to sizes and parents. */
  ghost predicate SameShape(s: State, t: State) {
    && s.pos == t.pos && |s.toks| == |t.toks|
    && forall i :: 0 <= i < |s.toks| ==>
         s.toks[i].kind == t.toks[i].kind && s.toks[i].start == t.toks[i].start && s.toks[i].end == t.toks[i].end
  }

  /** A closing bracket that closes nothing, after at least one token. */
  ghost predicate StrayClose(js: string, s: State) {
    More(js, s.pos) && IsClosing(js[s.pos]) && s.toks != [] && LastOpen(s.toks, |s.toks|) == -1
  }

  lemma AddSameShape(s: State, t: State, kind: Kind, start: int, end: int, pos: nat, super: int, super': int)
    requires WellFormed(s) && WellFormed(t) && SameShape(s, t)
    ensures SameShape(State(pos, Add(DEFAULT_BUILD, s, kind, start, end), super),
                      State(pos, Add(LINKS_BUILD, t, kind, start, end), super'))
  {
  }

  lemma CloseSameShape(js: string, s: State, t: State, kind: Kind)
    requires WellFormed(s) && Sound(LINKS_BUILD, js, t) && SameShape(s, t) && s.pos < |js|
    requires s.toks == [] || LastOpen(s.toks, |s.toks|) != -1
    ensures var d, l := CloseStep(DEFAULT_BUILD, s, kind), CloseStep(LINKS_BUILD, t, kind);
            if d.Go? then l.Go? && SameShape(d.next, l.next) else l == d
  {
    LastOpenAgrees(s.toks, t.toks, |s.toks|);
  }

  /** A step that is not a closing bracket stores the same token in both
      builds, and moves the same way. */
  lemma LexemeSameShape(js: string, cap: int, s: State, t: State)
    requires WellFormed(s) && WellFormed(t) && More(js, s.pos) && js[s.pos] != '}' && js[s.pos] != ']'
    requires s.pos == t.pos && |s.toks| == |t.toks|
    ensures var d, l := Step(DEFAULT_BUILD, js, cap, s), Step(LINKS_BUILD, js, cap, t);
            match d
            case Fail(e) => l == d
            case Go(next) =>
              && l.Go? && l.next.pos == next.pos && |l.next.toks| == |next.toks|
              && if |next.toks| == |s.toks| then next.toks == s.toks && l.next.toks == t.toks
                 else
                   var k := LexemeToken(js[s.pos], s.pos, next.pos);
                   && next.toks == Add(DEFAULT_BUILD, s, k.kind, k.start, k.end)
                   && l.next.toks == Add(LINKS_BUILD, t, k.kind, k.start, k.end)
  {
    hide CommaSuper, Bump, StringEnd;
  }

  lemma StepSameShape(js: string, cap: int, s: State, t: State)
    requires WellFormed(s) && Sound(LINKS_BUILD, js, t) && SameShape(s, t) && More(js, s.pos)
    requires !StrayClose(js, s)
    ensures var d, l := Step(DEFAULT_BUILD, js, cap, s), Step(LINKS_BUILD, js, cap, t);
            if d.Go? then l.Go? && SameShape(d.next, l.next) else l == d
  {
    var c := js[s.pos];
    if c == '}' || c == ']' {
      CloseSameShape(js, s, t, if c == '}' then Object else Array);
    } else {
      hide Step, Add;
      LexemeSameShape(js, cap, s, t);
      var d, l := Step(DEFAULT_BUILD, js, cap, s), Step(LINKS_BUILD, js, cap, t);
      if d.Go? && |d.next.toks| > |s.toks| {
        var k := LexemeToken(c, s.pos, d.next.pos);
        AddSameShape(s, t, k.kind, k.start, k.end, d.next.pos, d.next.super, l.next.super);
      }
    }
  }

  /** The type and span of the token stored for a lexeme that begins with c. */
  function LexemeToken(c: char, start: nat, next: nat): Token {
    if c == '{' then Token(Object, start, -1, 0, -1)
    else if c == '[' then Token(Array, start, -1, 0, -1)
    else if c == '\"' then Token(Str, start + 1, next - 1, 0, -1)
    else Token(Primitive, start, next, 0, -1)
  }

  lemma StrayCloseSkipped(js: string, cap: int, s: State, t: State)
    requires WellFormed(s) && Sound(LINKS_BUILD, js, t) && SameShape(s, t) && StrayClose(js, s)
    ensures Step(DEFAULT_BUILD, js, cap, s) == Fail(Inval)
    ensures Step(LINKS_BUILD, js, cap, t) == Go(t.(pos := t.pos + 1))
  {
    LastOpenAgrees(s.toks, t.toks, |s.toks|);
  }

  /** Until a stray closing bracket the two builds store the same tokens; there
      the default build stops, and the build with links goes on. */
  lemma {:induction false} RunsSameShape(js: string, cap: int, s: State, t: State)
    requires WellFormed(s) && WellFormed(t) && Sound(LINKS_BUILD, js, t) && SameShape(s, t)
    ensures var d, l := RunFrom(DEFAULT_BUILD, js, cap, s), RunFrom(LINKS_BUILD, js, cap, t);
            if StrayClose(js, d.state) then d.stop == Failed(Inval) && d.state.pos < l.state.pos
            else d.stop == l.stop && SameShape(d.state, l.state)
    decreases |js| - s.pos
  {
    hide Step, SameShape, Sound, StrayClose;
    SamePosition(s, t);
    if More(js, s.pos) {
      if StrayClose(js, s) {
        StrayCloseSkipped(js, cap, s, t);
      } else {
        StepSameShape(js, cap, s, t);
        if Step(DEFAULT_BUILD, js, cap, s).Go? {
          StepKeeps(LINKS_BUILD, js, cap, t);
          RunsSameShape(js, cap, Step(DEFAULT_BUILD, js, cap, s).next, Step(LINKS_BUILD, js, cap, t).next);
        }
      }
    } else {
      NoStrayCloseAtEnd(js, s);
    }
  }

  lemma SamePosition(s: State, t: State)
    requires SameShape(s, t)
    ensures s.pos == t.pos && |s.toks| == |t.toks|
  {
  }

  lemma NoStrayCloseAtEnd(js: string, s: State)
    requires !More(js, s.pos)
    ensures !StrayClose(js, s)
  {
  }

  /** A reference parser without links stopped at a bracket that closes
      nothing, after at least one token. */
  ghost predicate ClosesNothing(js: string, r: Ref) {
    More(js, r.pos) && IsClosing(js[r.pos]) && r.stack == [] && r.count > 0
  }

  lemma StrayIsOnText(js: string, s: State)
    ensures StrayClose(js, s) <==> ClosesNothing(js, Abstract(s))
  {
    LastOpenIsTop(s.toks);
  }

  /** On a fresh parser both builds return the same and store tokens of the
      same types and spans, unless the text has a closing bracket that closes
      nothing and there is room for the tokens before it: a test on the text,
      made by the parser with the stack. */
  lemma BuildsAgree(js: string, cap: int)
    ensures var d, l := Parse(DEFAULT_BUILD, js, cap, FRESH), Parse(LINKS_BUILD, js, cap, FRESH);
            var stop := RefStop(DEFAULT_BUILD, js, REF_FRESH);
            d.verdict == l.verdict && SameShape(d.state, l.state) <==> !(ClosesNothing(js, stop) && stop.count <= cap)
  {
    hide RefHeads, RefVerdict, Sound, RefStop, StrayClose, SameShape, ClosesNothing;
    FreshIsSound(js);
    RunsSameShape(js, cap, FRESH, FRESH);
    StrayOnText(js, cap);
    var d, l := RunFrom(DEFAULT_BUILD, js, cap, FRESH), RunFrom(LINKS_BUILD, js, cap, FRESH);
    if !StrayClose(js, d.state) {
      SameJudgement(d, l);
    } else if SameShape(d.state, l.state) {
      SamePosition(d.state, l.state);
    }
  }

  lemma FreshIsSound(js: string)
    ensures Sound(LINKS_BUILD, js, FRESH) && SameShape(FRESH, FRESH) && Abstract(FRESH) == REF_FRESH
  {
  }

  lemma SameJudgement(d: Run, l: Run)
    requires d.stop == l.stop && SameShape(d.state, l.state)
    ensures Judge(d) == Judge(l)
  {
    LastOpenAgrees(d.state.toks, l.state.toks, |d.state.toks|);
  }

  lemma StrayOnText(js: string, cap: int)
    ensures var stop := RefStop(DEFAULT_BUILD, js, REF_FRESH);
            StrayClose(js, RunFrom(DEFAULT_BUILD, js, cap, FRESH).state) <==> ClosesNothing(js, stop) && stop.count <= cap
  {
    hide RefHeads, RefVerdict, Sound, RefStop, RunFrom, StrayClose;
    var d := RunFrom(DEFAULT_BUILD, js, cap, FRESH);
    FreshIsSound(js);
    RefinesStack(DEFAULT_BUILD, js, cap, FRESH);
    StrayIsOnText(js, d.state);
    if RunsOut(DEFAULT_BUILD, js, cap, REF_FRESH) {
      RunsSameShape(js, cap, FRESH, FRESH);
    } else {
      StopsWithStack(DEFAULT_BUILD, js, cap, FRESH);
    }
  }

  /** The difference is real: a stray bracket after a value. */
  lemma StrayCloseAccepted()
    ensures Parse(DEFAULT_BUILD, "\"\"]", 1, FRESH).verdict == Error(Inval)
    ensures Parse(LINKS_BUILD, "\"\"]", 1, FRESH).verdict == Done(1)
  {
    var js := "\"\"]";
    assert StringEnd(js, 1) == Found(1);
    var s := State(2, [Token(Str, 1, 1, 0, -1)], -1);
    assert Step(DEFAULT_BUILD, js, 1, FRESH) == Go(s);
    assert Step(LINKS_BUILD, js, 1, FRESH) == Go(s);
    assert Step(DEFAULT_BUILD, js, 1, s) == Fail(Inval);
    assert Step(LINKS_BUILD, js, 1, s) == Go(s.(pos := 3));
  }

  // ---------- what a stray bracket does with links ----------

  predicate IsClosing(c: char) { c == '}' || c == ']' }

  /** The text js with some closing brackets, all from a position on, replaced
      by spaces. */
  ghost predicate Blanked(js: string, js': string, from: nat) {
    |js| == |js'| &&
    forall k :: 0 <= k < |js| ==> js'[k] == js[k] || (from <= k && IsClosing(js[k]) && js'[k] == ' ')
  }

  lemma {:induction false} PrimitiveEndBlanked(js: string, js': string, i: nat, e: nat)
    requires PrimitiveEnd(false, js, i) == Found(e) && Blanked(js, js', e)
    ensures PrimitiveEnd(false, js', i) == Found(e)
    decreases |js| - i
  {
    if More(js, i) && !EndsPrimitive(false, js[i]) {
      PrimitiveEndBlanked(js, js', i + 1, e);
    }
  }

  lemma {:induction false} HexEndBlanked(js: string, js': string, i: nat, n: nat, e: nat)
    requires HexEnd(js, i, n) == Found(e) && Blanked(js, js', e)
    ensures HexEnd(js', i, n) == Found(e)
    decreases n
  {
    if n > 0 && More(js, i) {
      HexEndBlanked(js, js', i + 1, n - 1, e);
    }
  }

  lemma {:induction false} StringEndBlanked(js: string, js': string, i: nat, e: nat)
    requires StringEnd(js, i) == Found(e) && Blanked(js, js', e + 1)
    ensures StringEnd(js', i) == Found(e)
    decreases |js| - i
  {
    if js[i] == '\"' {
    } else if js[i] == '\\' && i + 1 < |js| {
      if IsShortEscape(js[i + 1]) {
        StringEndBlanked(js, js', i + 2, e);
      } else {
        var j := HexEnd(js, i + 2, 4).at;
        HexEndBlanked(js, js', i + 2, 4, j);
        StringEndBlanked(js, js', j, e);
      }
    } else {
      StringEndBlanked(js, js', i + 1, e);
    }
  }

  /** A lexeme, and what the parser does with it, does not change when brackets
      behind it are blanked. */
  lemma StepBlanked(b: Build, js: string, js': string, cap: int, s: State)
    requires !b.strict && WellFormed(s) && More(js, s.pos) && LexemeAt(false, js, s.pos).Lexeme?
    requires Blanked(js, js', LexemeAt(false, js, s.pos).end)
    ensures More(js', s.pos) && Step(b, js', cap, s) == Step(b, js, cap, s)
  {
    hide StringEnd, PrimitiveEnd, CloseStep, CommaSuper, Add;
    var e := LexemeAt(false, js, s.pos).end;
    assert js'[s.pos] == js[s.pos];
    if js[s.pos] == '\"' {
      StringEndBlanked(js, js', s.pos + 1, e - 1);
    } else if StartsPrimitive(js[s.pos]) {
      PrimitiveEndBlanked(js, js', s.pos, e);
    }
  }

  /** Two texts that agree from a position on. */
  ghost predicate SameAhead(js: string, js': string, i: nat) {
    |js| == |js'| && forall k :: i <= k < |js| ==> js[k] == js'[k]
  }

  lemma {:induction false} PrimitiveEndAhead(strict: bool, js: string, js': string, i: nat)
    requires SameAhead(js, js', i)
    ensures PrimitiveEnd(strict, js, i) == PrimitiveEnd(strict, js', i)
    decreases |js| - i
  {
    if More(js, i) {
      PrimitiveEndAhead(strict, js, js', i + 1);
    }
  }

  lemma {:induction false} HexEndAhead(js: string, js': string, i: nat, n: nat)
    requires SameAhead(js, js', i)
    ensures HexEnd(js, i, n) == HexEnd(js', i, n)
    decreases n
  {
    if n > 0 && More(js, i) {
      HexEndAhead(js, js', i + 1, n - 1);
    }
  }

  lemma {:induction false} StringEndAhead(js: string, js': string, i: nat)
    requires SameAhead(js, js', i)
    ensures StringEnd(js, i) == StringEnd(js', i)
    decreases |js| - i
  {
    if More(js, i) && js[i] != '\"' {
      if js[i] == '\\' && i + 1 < |js| {
        if IsShortEscape(js[i + 1]) {
          StringEndAhead(js, js', i + 2);
        } else {
          HexEndAhead(js, js', i + 2, 4);
          if HexEnd(js, i + 2, 4).Found? {
            StringEndAhead(js, js', HexEnd(js, i + 2, 4).at);
          }
        }
      } else {
        StringEndAhead(js, js', i + 1);
      }
    }
  }

  lemma StepAhead(b: Build, js: string, js': string, cap: int, s: State)
    requires WellFormed(s) && More(js, s.pos) && SameAhead(js, js', s.pos)
    ensures More(js', s.pos) && Step(b, js', cap, s) == Step(b, js, cap, s)
  {
    hide StringEnd, PrimitiveEnd, CloseStep, CommaSuper, Add;
    assert js'[s.pos] == js[s.pos];
    StringEndAhead(js, js', s.pos + 1);
    PrimitiveEndAhead(b.strict, js, js', s.pos);
  }

  /** The parser does not look back at the text. */
  lemma {:induction false} RunAhead(b: Build, js: string, js': string, cap: int, s: State)
    requires WellFormed(s) && SameAhead(js, js', s.pos)
    ensures RunFrom(b, js', cap, s) == RunFrom(b, js, cap, s)
    decreases |js| - s.pos
  {
    hide Step;
    if More(js, s.pos) {
      StepAhead(b, js, js', cap, s);
      if Step(b, js, cap, s).Go? {
        RunAhead(b, js, js', cap, Step(b, js, cap, s).next);
      }
    }
  }

  lemma BlankSkipped(b: Build, js: string, cap: int, s: State)
    requires WellFormed(s) && s.pos < |js| && js[s.pos] == ' '
    ensures RunFrom(b, js, cap, s) == RunFrom(b, js, cap, s.(pos := s.pos + 1))
  {
  }

  lemma NextSameShape(s: State, t: State)
    requires WellFormed(s) && WellFormed(t) && SameShape(s, t)
    ensures var s1, t1 := s.(pos := s.pos + 1), t.(pos := t.pos + 1);
            WellFormed(s1) && WellFormed(t1) && SameShape(s1, t1)
  {
  }

  /** The text with every bracket that closes nothing, from the state r of the
      reference parser on, replaced by a space. */
  ghost function Cleared(js: string, r: Ref): (js': string)
    ensures |js'| == |js|
    decreases |js| - r.pos
  {
    if More(js, r.pos) && RefStep(LINKS_BUILD, js, r).Ahead? then
      var rest := Cleared(js, RefStep(LINKS_BUILD, js, r).next);
      if ClosesNothing(js, r) then rest[r.pos := ' '] else rest
    else js
  }

  /** From r on, the reference parser stands at position k at a bracket that
      closes nothing. */
  ghost predicate StrayAt(js: string, r: Ref, k: nat) {
    var heads := RefHeads(LINKS_BUILD, js, r);
    exists i :: 0 <= i < |heads| && heads[i].pos == k && ClosesNothing(js, heads[i])
  }

  lemma StrayIsPassed(js: string, r: Ref)
    requires ClosesNothing(js, r)
    ensures RefStep(LINKS_BUILD, js, r) == Ahead(r.(pos := r.pos + 1))
  {
  }

  lemma StrayLater(js: string, r: Ref, k: nat)
    ensures StrayAt(js, r, k) <==>
              || (r.pos == k && ClosesNothing(js, r))
              || (More(js, r.pos) && RefStep(LINKS_BUILD, js, r).Ahead? && StrayAt(js, RefStep(LINKS_BUILD, js, r).next, k))
  {
    hide RefStep, ClosesNothing;
    var heads := RefHeads(LINKS_BUILD, js, r);
    assert heads[0] == r;
    if More(js, r.pos) && RefStep(LINKS_BUILD, js, r).Ahead? {
      var rest := RefHeads(LINKS_BUILD, js, RefStep(LINKS_BUILD, js, r).next);
      assert heads == [r] + rest;
      assert forall i :: 0 <= i < |rest| ==> heads[i + 1] == rest[i];
      assert forall i :: 1 <= i < |heads| ==> heads[i] == rest[i - 1];
    }
  }

  /** The cleared text differs from the text exactly at those brackets. */
  lemma {:induction false} ClearedIs(js: string, r: Ref, k: nat)
    requires k < |js|
    ensures Cleared(js, r)[k] == if StrayAt(js, r, k) then ' ' else js[k]
    ensures StrayAt(js, r, k) ==> r.pos <= k && IsClosing(js[k])
    decreases |js| - r.pos
  {
    hide RefStep, StrayAt;
    StrayLater(js, r, k);
    if ClosesNothing(js, r) {
      StrayIsPassed(js, r);
    }
    if More(js, r.pos) && RefStep(LINKS_BUILD, js, r).Ahead? {
      ClearedIs(js, RefStep(LINKS_BUILD, js, r).next, k);
    }
  }

  lemma ClearedIsBlanked(js: string, r: Ref)
    ensures Blanked(js, Cleared(js, r), r.pos)
  {
    hide Cleared, StrayAt;
    forall k | 0 <= k < |js| ensures Cleared(js, r)[k] == js[k] || (r.pos <= k && IsClosing(js[k]) && Cleared(js, r)[k] == ' ') {
      ClearedIs(js, r, k);
    }
  }

  lemma SameAbstract(s: State, t: State)
    requires SameShape(s, t)
    ensures Abstract(s) == Abstract(t)
  {
    OpensSame(s.toks, t.toks);
  }

  lemma BlankAgain(ahead: string, pos: nat)
    requires pos < |ahead|
    ensures SameAhead(ahead, ahead[pos := ' '], pos + 1)
  {
  }

  lemma AheadIsLexeme(js: string, r: Ref)
    requires More(js, r.pos) && RefStep(LINKS_BUILD, js, r).Ahead?
    ensures var l := LexemeAt(false, js, r.pos); l.Lexeme? && l.end == RefStep(LINKS_BUILD, js, r).next.pos
  {
  }

  lemma ClearedNow(js: string, r: Ref)
    ensures Cleared(js, r) ==
            if More(js, r.pos) && RefStep(LINKS_BUILD, js, r).Ahead? then
              var rest := Cleared(js, RefStep(LINKS_BUILD, js, r).next);
              if ClosesNothing(js, r) then rest[r.pos := ' '] else rest
            else js
  {
  }

  lemma AbstractMoves(s: State)
    ensures Abstract(s.(pos := s.pos + 1)) == Abstract(s).(pos := s.pos + 1)
  {
  }

  lemma StrayCleared(js: string, cap: int, s: State, t: State)
    requires WellFormed(s) && WellFormed(t) && Sound(LINKS_BUILD, js, t) && SameShape(s, t) && StrayClose(js, s)
    ensures Step(LINKS_BUILD, js, cap, t) == Go(t.(pos := t.pos + 1))
    ensures var s1, t1 := s.(pos := s.pos + 1), t.(pos := t.pos + 1);
            && WellFormed(s1) && WellFormed(t1) && SameShape(s1, t1)
            && var ahead, js' := Cleared(js, Abstract(t1)), Cleared(js, Abstract(t));
            && RunFrom(DEFAULT_BUILD, js', cap, s) == RunFrom(DEFAULT_BUILD, ahead, cap, s1)
            && RunFrom(LINKS_BUILD, js', cap, t) == RunFrom(LINKS_BUILD, ahead, cap, t1)
  {
    hide Step, SameShape, Sound, WellFormed, Cleared, RunFrom, Abstract, RefStep, ClosesNothing;
    var s1, t1 := s.(pos := s.pos + 1), t.(pos := t.pos + 1);
    SamePosition(s, t);
    StrayCloseSkipped(js, cap, s, t);
    NextSameShape(s, t);
    StrayIsOnText(js, s);
    SameAbstract(s, t);
    AbstractHas(t);
    AbstractMoves(t);
    StrayIsPassed(js, Abstract(t));
    ClearedNow(js, Abstract(t));
    var ahead := Cleared(js, Abstract(t1));
    var js' := ahead[s.pos := ' '];
    BlankAgain(ahead, s.pos);
    BlankSkipped(DEFAULT_BUILD, js', cap, s);
    BlankSkipped(LINKS_BUILD, js', cap, t);
    RunAhead(DEFAULT_BUILD, ahead, js', cap, s1);
    RunAhead(LINKS_BUILD, ahead, js', cap, t1);
  }

  lemma NoStrayCleared(js: string, cap: int, s: State, t: State)
    requires WellFormed(s) && WellFormed(t) && SameShape(s, t) && More(js, s.pos) && !StrayClose(js, s)
    requires RefStep(LINKS_BUILD, js, Abstract(t)).Ahead?
    ensures var js' := Cleared(js, Abstract(t));
            && js' == Cleared(js, RefStep(LINKS_BUILD, js, Abstract(t)).next)
            && More(js', s.pos) && s.pos == t.pos
            && Step(DEFAULT_BUILD, js', cap, s) == Step(DEFAULT_BUILD, js, cap, s)
            && Step(LINKS_BUILD, js', cap, t) == Step(LINKS_BUILD, js, cap, t)
  {
    hide Step, SameShape, WellFormed, Cleared, Abstract, RefStep, ClosesNothing, StrayClose, Blanked;
    var r := Abstract(t);
    SamePosition(s, t);
    StrayIsOnText(js, s);
    SameAbstract(s, t);
    AbstractHas(t);
    ClearedNow(js, r);
    AheadIsLexeme(js, r);
    ClearedIsBlanked(js, RefStep(LINKS_BUILD, js, r).next);
    StepBlanked(DEFAULT_BUILD, js, Cleared(js, r), cap, s);
    StepBlanked(LINKS_BUILD, js, Cleared(js, r), cap, t);
  }

  lemma {:induction false} StraysCleared(js: string, cap: int, s: State, t: State)
    requires WellFormed(s) && WellFormed(t) && Sound(LINKS_BUILD, js, t) && SameShape(s, t)
    ensures var js' := Cleared(js, Abstract(t));
            var d, l := RunFrom(DEFAULT_BUILD, js', cap, s), RunFrom(LINKS_BUILD, js, cap, t);
            RunFrom(LINKS_BUILD, js', cap, t) == l && d.stop == l.stop && SameShape(d.state, l.state)
    decreases |js| - s.pos
  {
    hide Step, SameShape, Sound, StrayClose, WellFormed, Cleared, Abstract, RefStep, LinksFindOpen;
    SamePosition(s, t);
    AbstractHas(t);
    ClearedNow(js, Abstract(t));
    if More(js, s.pos) {
      SoundLinks(LINKS_BUILD, js, t);
      StepRefines(LINKS_BUILD, js, cap, t);
      if StrayClose(js, s) {
        StrayCleared(js, cap, s, t);
        StepKeeps(LINKS_BUILD, js, cap, t);
        StraysCleared(js, cap, s.(pos := s.pos + 1), t.(pos := t.pos + 1));
      } else {
        StepSameShape(js, cap, s, t);
        if RefStep(LINKS_BUILD, js, Abstract(t)).Ahead? {
          NoStrayCleared(js, cap, s, t);
        }
        if Step(DEFAULT_BUILD, js, cap, s).Go? {
          StepKeeps(LINKS_BUILD, js, cap, t);
          StraysCleared(js, cap, Step(DEFAULT_BUILD, js, cap, s).next, Step(LINKS_BUILD, js, cap, t).next);
        }
      }
    }
  }

  /** With parent links a closing bracket that closes nothing is a blank: the
      build with links does to a text what both builds do to the text in which
      exactly those brackets are replaced by spaces.  So nothing else sets the
      builds apart. */
  lemma StrayIsBlank(js: string, cap: int) returns (js': string)
    ensures |js'| == |js| && forall k :: 0 <= k < |js| ==> js'[k] == if StrayAt(js, REF_FRESH, k) then ' ' else js[k]
    ensures Parse(LINKS_BUILD, js', cap, FRESH) == Parse(LINKS_BUILD, js, cap, FRESH)
    ensures var d, l := Parse(DEFAULT_BUILD, js', cap, FRESH), Parse(LINKS_BUILD, js, cap, FRESH);
            d.verdict == l.verdict && SameShape(d.state, l.state)
  {
    hide Sound, SameShape, RunFrom, Judge, Cleared, StrayAt;
    FreshIsSound(js);
    js' := Cleared(js, REF_FRESH);
    forall k | 0 <= k < |js| ensures js'[k] == if StrayAt(js, REF_FRESH, k) then ' ' else js[k] {
      ClearedIs(js, REF_FRESH, k);
    }
    StraysCleared(js, cap, FRESH, FRESH);
    SameJudgement(RunFrom(DEFAULT_BUILD, js', cap, FRESH), RunFrom(LINKS_BUILD, js, cap, FRESH));
  }
}
