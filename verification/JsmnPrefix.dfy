/** What the parser says to a JSON text of which only the beginning has come. */
module JsmnPrefix {
  import opened JsmnTypes
  import opened JsmnLexer
  import opened JsmnSpec
  import opened JsmnInvariants
  import opened JsmnLexemes
  import opened JsmnResume
  import opened JsmnJson
  import opened JsmnRoundTrip

  lemma NoMemLonger(b: Build, js: string, js': string, cap: int, s: State)
    requires WellFormed(s) && More(js, s.pos) && js <= js'
    requires Step(b, js, cap, s) == Fail(NoMem)
    ensures Step(b, js', cap, s).Fail?
  {
    var c := js[s.pos];
    if c == '\"' {
      StringEndLonger(js, js', s.pos + 1);
    } else if StartsPrimitive(c) {
      PrimitiveEndLonger(b.strict, js, js', s.pos);
    }
  }

  ghost predicate SameEnd(s: Token, t: Token) { s.kind == t.kind && s.end == t.end }

  /** If the whole text parses, a call on its beginning is not refused, and a
      first token it closes is the first token of the whole text. */
  lemma {:induction false} BeginningOfGood(b: Build, js: string, js': string, cap: int, s: State)
    requires WellFormed(s) && js <= js' && Parse(b, js', cap, s).verdict.Done?
    ensures var r, whole := RunFrom(b, js, cap, s), RunFrom(b, js', cap, s).state;
            && (r.stop == AtEnd || r.stop == Failed(Part))
            && |r.state.toks| <= |whole.toks|
            && (r.state.toks != [] && r.state.toks[0].end != -1 ==>
                  SameEnd(r.state.toks[0], whole.toks[0]) || whole.toks[0].kind == Primitive)
    decreases |js| - s.pos
  {
    hide Step;
    if s.toks != [] && s.toks[0].end != -1 {
      ClosedTokensStay(b, js', cap, s, 0);
    }
    if More(js, s.pos) {
      match Step(b, js, cap, s)
      case Fail(Inval) => InvalidLonger(b, js, js', cap, cap, s);
      case Fail(NoMem) => NoMemLonger(b, js, js', cap, s);
      case Fail(Part) =>
      case Go(next) =>
        StepLonger(b, js, js', cap, cap, s);
        if |next.toks| > |s.toks| && GoesOn(b, js, js', next.toks[|s.toks|]) {
          CutAtTheEnd(b, js, js', cap, s);
        } else {
          BeginningOfGood(b, js, js', cap, next);
        }
    }
  }

  /** The last step of the beginning cuts a primitive. */
  lemma CutAtTheEnd(b: Build, js: string, js': string, cap: int, s: State)
    requires WellFormed(s) && js <= js' && More(js, s.pos) && Parse(b, js', cap, s).verdict.Done?
    requires Step(b, js, cap, s).Go?
    requires var next := Step(b, js, cap, s).next; |next.toks| > |s.toks| && GoesOn(b, js, js', next.toks[|s.toks|])
    ensures var r, whole := RunFrom(b, js, cap, s), RunFrom(b, js', cap, s).state;
            && r.stop == AtEnd && r.state == Step(b, js, cap, s).next
            && |r.state.toks| <= |whole.toks|
            && (r.state.toks[0].end != -1 ==>
                  SameEnd(r.state.toks[0], whole.toks[0]) || whole.toks[0].kind == Primitive)
  {
    var next := Step(b, js, cap, s).next;
    if s.toks != [] {
      FirstTokenSame(b, js, cap, s);
    }
    StepLonger(b, js, js', cap, cap, s);
    hide Step;
    assert !More(js, next.pos);
    if s.toks == [] {
      ClosedTokensStay(b, js', cap, Step(b, js', cap, s).next, 0);
    } else if s.toks[0].end != -1 {
      ClosedTokensStay(b, js', cap, s, 0);
    }
  }

  lemma FirstTokenSame(b: Build, js: string, cap: int, s: State)
    requires WellFormed(s) && More(js, s.pos) && Step(b, js, cap, s).Go? && s.toks != []
    requires |Step(b, js, cap, s).next.toks| > |s.toks|
    ensures SameEnd(s.toks[0], Step(b, js, cap, s).next.toks[0])
  {
  }

  /** The first lexeme of a string or a container is stored, or asks for more. */
  lemma FirstLexeme(b: Build, js: string, cap: int, s: State)
    requires WellFormed(s) && s.toks == [] && 0 < cap && More(js, s.pos)
    requires js[s.pos] == '{' || js[s.pos] == '[' || js[s.pos] == '\"'
    ensures var r := RunFrom(b, js, cap, s); r.stop == AtEnd ==> r.state.toks != []
  {
    assert Step(b, js, cap, s).Go? ==> |Step(b, js, cap, s).next.toks| == 1;
    hide Step;
  }

  /** A beginning that reaches into the root: strings and containers. */
  lemma RootUnfinished(b: Build, lead: string, j: Json, trail: string, k: nat, cap: int)
    requires Legal(b.strict, j) && !j.Bare? && Blank(lead) && Blank(trail) && Nodes(j) <= cap
    requires |lead| < k < |lead| + |Text(j)|
    ensures Parse(b, Document(lead, j, trail)[..k], cap, FRESH).verdict == Error(Part)
  {
    hide RunFrom, Text, Tokens, Document, At, Sound, Step, Legal, Delimited, LastOpen;
    DocumentLength(lead, j, trail);
    var js := Document(lead, j, trail);
    var head := js[..k];
    RoundTrip(b, lead, j, trail, cap);
    BeginningOfGood(b, head, js, cap, FRESH);
    var r := RunFrom(b, head, cap, FRESH);
    if r.stop == AtEnd {
      RootBegins(b.strict, lead, j, trail, k);
      SoundAtStart(b, head);
      BlankRuns(b, head, cap, FRESH, lead);
      FirstLexeme(b, head, cap, State(|lead|, [], -1));
      JsmnInvariants.RunKeeps(b, head, cap, FRESH);
      RootToken(b, j, |lead|);
      RootStaysOpen(b, head, r.state, Tokens(b, j, |lead|, 0, -1)[0]);
    }
  }

  lemma DocumentLength(lead: string, j: Json, trail: string)
    ensures |Document(lead, j, trail)| == |lead| + |Text(j)| + |trail|
    ensures Nodes(j) > 0
  {
  }

  /** The root is open in a text that ends before it. */
  lemma RootStaysOpen(b: Build, head: string, s: State, root: Token)
    requires WellFormed(s) && Sound(b, head, s) && s.toks != []
    requires s.toks[0].end != -1 ==> SameEnd(s.toks[0], root) || root.kind == Primitive
    requires root.kind != Primitive && if root.kind == Str then |head| <= root.end else |head| < root.end
    ensures LastOpen(s.toks, |s.toks|) != -1
  {
    assert Delimited(b, head, s.pos, s.toks[0]);
  }

  lemma RootBegins(strict: bool, lead: string, j: Json, trail: string, k: nat)
    requires Legal(strict, j) && !j.Bare? && |lead| < k < |lead| + |Text(j)|
    ensures var head := Document(lead, j, trail)[..k];
            At(head, 0, lead) && More(head, |lead|) &&
            (head[|lead|] == '{' || head[|lead|] == '[' || head[|lead|] == '\"')
  {
    assert Document(lead, j, trail)[..k][..|lead|] == lead;
  }

  lemma RootToken(b: Build, j: Json, at: nat)
    requires Legal(b.strict, j) && !j.Bare?
    ensures var t := Tokens(b, j, at, 0, -1)[0];
            if j.Quoted? then t.kind == Str && t.end == at + |Text(j)| - 1 else IsContainer(t) && t.end == at + |Text(j)|
  {
  }

  /** Cut anywhere inside its value, a JSON text makes the parser ask for more
      data, exactly when strict mode is on or the value is no bare primitive:
      the default build takes the beginning of a number for a number. */
  lemma BeginningAsksForMore(b: Build, lead: string, j: Json, trail: string, k: nat, cap: int)
    requires Legal(b.strict, j) && Blank(lead) && Blank(trail) && Nodes(j) <= cap
    requires |lead| < k < |lead| + |Text(j)|
    ensures Parse(b, Document(lead, j, trail)[..k], cap, FRESH).verdict == Error(Part) <==> b.strict || !j.Bare?
  {
    if j.Bare? {
      var text := j.text[..k - |lead|];
      assert Document(lead, j, trail)[..k] == Document(lead, Bare(text), []);
      if b.strict {
        StrictNeedsDelimiter(b, lead, text, cap);
      } else {
        RoundTrip(b, lead, Bare(text), [], cap);
      }
    } else {
      RootUnfinished(b, lead, j, trail, k, cap);
    }
  }
}
