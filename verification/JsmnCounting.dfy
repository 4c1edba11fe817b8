/** The call without a token array tells how many tokens the other call needs. */
module JsmnCounting {
  import opened JsmnBytes
  import opened JsmnTypes
  import opened JsmnLexer
  import opened JsmnSpec
  import opened JsmnStack

  /** The counting run from the start of a text. */
  function Count(strict: bool, js: string): Verdict { CountFrom(strict, js, 0, 0, -1, -1).verdict }

  /** A step that succeeds moves over the lexeme that the counting run sees. */
  lemma StepIsLexeme(b: Build, js: string, cap: int, s: State)
    requires WellFormed(s) && More(js, s.pos)
    ensures match Step(b, js, cap, s)
            case Go(next) => LexemeAt(b.strict, js, s.pos) == Lexeme(next.pos, |next.toks| > |s.toks|)
            case Fail(NoMem) => |s.toks| >= cap && LexemeAt(b.strict, js, s.pos).Lexeme? && LexemeAt(b.strict, js, s.pos).counts
            case Fail(_) => true
  {
  }

  lemma {:induction false} CountNeverShrinks(strict: bool, js: string, i: nat, count: nat, super: int, last: int)
    ensures var v := CountFrom(strict, js, i, count, super, last).verdict; v.Done? ==> count <= v.count
    decreases |js| - i
  {
    if More(js, i) && LexemeAt(strict, js, i).Lexeme? {
      var l := LexemeAt(strict, js, i);
      CountNeverShrinks(strict, js, l.end, if l.counts then count + 1 else count,
                        if js[i] == ':' then last else super, last);
    }
  }

  lemma {:induction false} StoredIsCounted(b: Build, js: string, cap: int, s: State, super: int, last: int)
    requires WellFormed(s) && Parse(b, js, cap, s).verdict.Done?
    ensures CountFrom(b.strict, js, s.pos, |s.toks|, super, last).verdict == Parse(b, js, cap, s).verdict
    decreases |js| - s.pos
  {
    hide Step;
    hide LexemeAt;
    if More(js, s.pos) {
      StepIsLexeme(b, js, cap, s);
      StoredIsCounted(b, js, cap, Step(b, js, cap, s).next, if js[s.pos] == ':' then last else super, last);
    }
  }

  lemma {:induction false} CountedHasRoom(b: Build, js: string, cap: int, s: State, super: int, last: int)
    requires WellFormed(s)
    requires var v := CountFrom(b.strict, js, s.pos, |s.toks|, super, last).verdict; v.Done? && v.count <= cap
    ensures Parse(b, js, cap, s).verdict != Error(NoMem)
    decreases |js| - s.pos
  {
    hide Step;
    hide LexemeAt;
    if More(js, s.pos) {
      StepIsLexeme(b, js, cap, s);
      var l := LexemeAt(b.strict, js, s.pos);
      var super' := if js[s.pos] == ':' then last else super;
      if Step(b, js, cap, s).Go? {
        CountedHasRoom(b, js, cap, Step(b, js, cap, s).next, super', last);
      } else {
        CountNeverShrinks(b.strict, js, l.end, if l.counts then |s.toks| + 1 else |s.toks|, super', last);
      }
    }
  }

  /** Room for fewer tokens than a successful call uses is reported as such. */
  lemma {:induction false} TooLittleRoom(b: Build, js: string, cap: int, cap': nat, s: State)
    requires WellFormed(s) && Parse(b, js, cap, s).verdict.Done?
    requires |s.toks| <= cap' < Parse(b, js, cap, s).verdict.count
    ensures Parse(b, js, cap', s).verdict == Error(NoMem)
    decreases |js| - s.pos
  {
    SameWithRoom(b, js, cap, cap', s);
    hide Step;
    if More(js, s.pos) && Step(b, js, cap', s).Go? {
      TooLittleRoom(b, js, cap, cap', Step(b, js, cap, s).next);
    }
  }

  lemma SameWithRoom(b: Build, js: string, cap: int, cap': int, s: State)
    requires WellFormed(s) && More(js, s.pos) && Step(b, js, cap, s).Go?
    ensures var next := Step(b, js, cap, s).next;
            Step(b, js, cap', s) == if |next.toks| > |s.toks| && |s.toks| >= cap' then Fail(NoMem) else Go(next)
  {
  }

  /** The counting call returns the number of tokens needed: a fresh call on a
      text that parses at all succeeds with that room or more, and runs out of
      tokens with less. */
  lemma CountIsTheRoomNeeded(b: Build, js: string, cap: nat, cap': nat)
    requires Parse(b, js, cap, FRESH).verdict.Done?
    ensures var n := Parse(b, js, cap, FRESH).verdict.count;
            && Count(b.strict, js) == Done(n)
            && Parse(b, js, cap', FRESH).verdict == if n <= cap' then Done(n) else Error(NoMem)
  {
    StoredIsCounted(b, js, cap, FRESH, -1, -1);
    if cap' < Parse(b, js, cap, FRESH).verdict.count {
      TooLittleRoom(b, js, cap, cap', FRESH);
    } else {
      EnoughRoom(b, js, cap, cap', FRESH);
    }
  }

  lemma {:induction false} EnoughRoom(b: Build, js: string, cap: int, cap': int, s: State)
    requires WellFormed(s) && Parse(b, js, cap, s).verdict.Done?
    requires Parse(b, js, cap, s).verdict.count <= cap'
    ensures Parse(b, js, cap', s) == Parse(b, js, cap, s)
    decreases |js| - s.pos
  {
    if More(js, s.pos) {
      SameWithRoom(b, js, cap, cap', s);
      hide Step;
      EnoughRoom(b, js, cap, cap', Step(b, js, cap, s).next);
    }
  }

  /** A text the counting call accepts never runs out of the tokens counted,
      whatever else may be wrong with it. */
  lemma CountedNeverRunsOut(b: Build, js: string, cap: nat)
    requires Count(b.strict, js).Done? && Count(b.strict, js).count <= cap
    ensures Parse(b, js, cap, FRESH).verdict != Error(NoMem)
  {
    CountedHasRoom(b, js, cap, FRESH, -1, -1);
  }

  // ---------- what the call without tokens leaves behind ----------

  lemma {:induction false} CountSuperStays(strict: bool, js: string, i: nat, count: nat, super: int, last: int)
    requires super == last || forall k :: i <= k < |js| ==> js[k] as int != 0x3A
    ensures CountFrom(strict, js, i, count, super, last).super == super
    decreases |js| - i
  {
    hide LexemeAt;
    if More(js, i) && LexemeAt(strict, js, i).Lexeme? {
      var l := LexemeAt(strict, js, i);
      CountSuperStays(strict, js, l.end, if l.counts then count + 1 else count, if js[i] == ':' then last else super, last);
    }
  }

  /** It moves the superior token of the parser with the first colon it meets,
      to the last token of the calls before, and never again. */
  lemma CountMovesSuper(strict: bool, js: string, i: nat, count: nat, super: int, last: int)
    requires i < |js| && js[i] as int == 0x3A
    ensures CountFrom(strict, js, i, count, super, last).super == last
  {
    CountSuperStays(strict, js, i + 1, count, last, last);
  }

  // ---------- how many tokens a text can have ----------

  /** The text before pos ends with a primitive, which ends there for good. */
  ghost predicate AfterPrimitive(b: Build, js: string, pos: nat) {
    0 < pos <= |js| && WordByte(b.strict, js[pos - 1]) && (More(js, pos) ==> EndsWord(b.strict, js[pos]))
  }

  /** Two thirds of a byte for every token: closed containers and strings have
      paid, an open container owes a byte, and so does a primitive whose
      delimiter is still to come. */
  ghost predicate Paid(b: Build, js: string, s: State, owing: nat) {
    && 3 * |s.toks| <= 2 * s.pos + |Opens(s.toks)| + owing
    && owing <= 1
    && (owing == 1 ==> AfterPrimitive(b, js, s.pos))
  }

  lemma {:induction false} OpensUpdate(s: seq<Token>, i: nat, t: Token)
    requires i < |s|
    ensures |Opens(s[i := t])| == |Opens(s)| - (if IsOpen(s[i]) then 1 else 0) + (if IsOpen(t) then 1 else 0)
  {
    var n := |s| - 1;
    var u := s[i := t];
    if i == n {
      assert u[..n] == s[..n];
    } else {
      assert u[..n] == s[..n][i := t];
      OpensUpdate(s[..n], i, t);
    }
  }

  lemma ClosePays(b: Build, js: string, s: State, kind: Kind, owing: nat)
    requires WellFormed(s) && CloseStep(b, s, kind).Go? && Paid(b, js, s, owing)
    ensures Paid(b, js, CloseStep(b, s, kind).next, 0)
  {
    hide Opens, NearestOpen, LastOpen, AfterPrimitive;
    var next := CloseStep(b, s, kind).next;
    if next.toks != s.toks {
      var i := if b.links then NearestOpen(s.toks, |s.toks| - 1) else LastOpen(s.toks, |s.toks|);
      OpensUpdate(s.toks, i, s.toks[i].(end := s.pos + 1));
    }
  }

  lemma PrimitivePays(b: Build, js: string, cap: int, s: State)
    requires WellFormed(s) && More(js, s.pos) && PrimitiveStep(b, js, cap, s).Go?
    requires PrimitiveEnd(b.strict, js, s.pos) != Found(s.pos) && Paid(b, js, s, 0)
    ensures Paid(b, js, PrimitiveStep(b, js, cap, s).next, 1)
  {
    PrimitiveEndIs(b.strict, js, s.pos, PrimitiveStep(b, js, cap, s).next.pos);
    AddedOpens(b, s, Primitive, s.pos, PrimitiveStep(b, js, cap, s).next.pos);
  }

  lemma StepPays(b: Build, js: string, cap: int, s: State, owing: nat) returns (owing': nat)
    requires WellFormed(s) && More(js, s.pos) && Step(b, js, cap, s).Go?
    requires Paid(b, js, s, owing)
    ensures Paid(b, js, Step(b, js, cap, s).next, owing')
  {
    hide CloseStep, PrimitiveStep, Opens, StringEnd;
    var c := js[s.pos];
    owing' := 0;
    if c == '{' || c == '[' {
      AddedOpens(b, s, if c == '{' then Object else Array, s.pos, -1);
    } else if c == '}' || c == ']' {
      ClosePays(b, js, s, if c == '}' then Object else Array, owing);
    } else if c == '\"' {
      AddedOpens(b, s, Str, s.pos + 1, Step(b, js, cap, s).next.pos - 1);
    } else if StartsPrimitive(c) {
      PrimitivePays(b, js, cap, s);
      owing' := 1;
    }
  }

  lemma {:induction false} RunPays(b: Build, js: string, cap: int, s: State, owing: nat) returns (owing': nat)
    requires WellFormed(s) && Paid(b, js, s, owing)
    ensures Paid(b, js, RunFrom(b, js, cap, s).state, owing')
    decreases |js| - s.pos
  {
    owing' := owing;
    hide Step;
    if More(js, s.pos) && Step(b, js, cap, s).Go? {
      owing' := StepPays(b, js, cap, s, owing);
      owing' := RunPays(b, js, cap, Step(b, js, cap, s).next, owing');
    }
  }

  lemma {:induction false} RunStaysInside(b: Build, js: string, cap: int, s: State)
    requires WellFormed(s) && s.pos <= |js|
    ensures RunFrom(b, js, cap, s).state.pos <= |js|
    decreases |js| - s.pos
  {
    hide Step;
    if More(js, s.pos) && Step(b, js, cap, s).Go? {
      RunStaysInside(b, js, cap, Step(b, js, cap, s).next);
    }
  }

  /** A successful call on a fresh parser uses at most two tokens for every
      three bytes, and one byte more. */
  lemma TokenBound(b: Build, js: string, cap: int)
    requires Parse(b, js, cap, FRESH).verdict.Done?
    ensures 3 * Parse(b, js, cap, FRESH).verdict.count <= 2 * |js| + 1
  {
    var owing := RunPays(b, js, cap, FRESH, 0);
    RunStaysInside(b, js, cap, FRESH);
    LastOpenIsTop(RunFrom(b, js, cap, FRESH).state.toks);
  }
}
