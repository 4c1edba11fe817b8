/** The parser keeps no stack, yet decides like one that does. */
module JsmnStack {
  import opened JsmnTypes
  import opened JsmnLexer
  import opened JsmnSpec
  import opened JsmnInvariants

  // ---------- the parser with an explicit stack ----------

  /** An open bracket and the number of the value it begins. */
  datatype Frame = Frame(kind: Kind, index: nat)

  datatype Ref = Ref(pos: nat, stack: seq<Frame>, count: nat)

  datatype RefOutcome = Ahead(next: Ref) | Rejected(error: Error)

  const REF_FRESH := Ref(0, [], 0)

  function RefStep(b: Build, js: string, r: Ref): (o: RefOutcome)
    requires More(js, r.pos)
    ensures o.Ahead? ==> r.pos < o.next.pos && r.count <= o.next.count <= r.count + 1
  {
    match LexemeAt(b.strict, js, r.pos)
    case Broken(e) => Rejected(e)
    case Lexeme(end, counts) =>
      match js[r.pos]
      case '{' => Ahead(Ref(end, r.stack + [Frame(Object, r.count)], r.count + 1))
      case '[' => Ahead(Ref(end, r.stack + [Frame(Array, r.count)], r.count + 1))
      case '}' => Pop(b.links, r, end, Object)
      case ']' => Pop(b.links, r, end, Array)
      case _ => Ahead(Ref(end, r.stack, if counts then r.count + 1 else r.count))
  }

  /** A bracket that closes nothing is an error; with parent links it is passed
      over once there is a token. */
  function Pop(links: bool, r: Ref, end: nat, kind: Kind): RefOutcome {
    if r.stack == [] then if links && r.count > 0 then Ahead(r.(pos := end)) else Rejected(Inval)
    else if r.stack[|r.stack| - 1].kind != kind then Rejected(Inval)
    else Ahead(Ref(end, r.stack[..|r.stack| - 1], r.count))
  }

  /** The states of the reference parser, from r to the one it stops in. */
  function RefHeads(b: Build, js: string, r: Ref): (heads: seq<Ref>)
    ensures heads != [] && r.count <= heads[|heads| - 1].count
    decreases |js| - r.pos
  {
    if More(js, r.pos) && RefStep(b, js, r).Ahead? then [r] + RefHeads(b, js, RefStep(b, js, r).next) else [r]
  }

  /** The state the reference parser stops in. */
  function RefStop(b: Build, js: string, r: Ref): Ref {
    var heads := RefHeads(b, js, r);
    heads[|heads| - 1]
  }

  function RefVerdict(b: Build, js: string, r: Ref): Verdict
    decreases |js| - r.pos
  {
    if !More(js, r.pos) then if r.stack == [] then Done(r.count) else Error(Part)
    else
      match RefStep(b, js, r)
      case Rejected(e) => Error(e)
      case Ahead(next) => RefVerdict(b, js, next)
  }

  // ---------- the stack hidden in the token array ----------

  /** The open tokens in index order. */
  function Opens(toks: seq<Token>): seq<Frame> {
    if toks == [] then []
    else
      var n := |toks| - 1;
      Opens(toks[..n]) + if IsOpen(toks[n]) then [Frame(toks[n].kind, n)] else []
  }

  function Abstract(s: State): Ref { Ref(s.pos, Opens(s.toks), |s.toks|) }

  lemma {:induction false} OpensSame(s: seq<Token>, t: seq<Token>)
    requires |s| == |t|
    requires forall i :: 0 <= i < |s| ==> IsOpen(s[i]) == IsOpen(t[i]) && s[i].kind == t[i].kind
    ensures Opens(s) == Opens(t)
  {
    if s == [] {
    } else {
      OpensSame(s[..|s| - 1], t[..|t| - 1]);
    }
  }

  /** The scan for an open token finds the top of the stack. */
  lemma {:induction false} LastOpenIsTop(toks: seq<Token>)
    ensures var i := LastOpen(toks, |toks|);
            if i == -1 then Opens(toks) == []
            else Opens(toks) != [] && Opens(toks)[|Opens(toks)| - 1] == Frame(toks[i].kind, i)
  {
    if toks == [] {
    } else {
      var n := |toks| - 1;
      LastOpenIsTop(toks[..n]);
      LastOpenAgrees(toks[..n], toks, n);
    }
  }

  /** Closing the token that the scan finds pops the stack. */
  lemma {:induction false} ClosingPops(toks: seq<Token>, end: nat)
    requires LastOpen(toks, |toks|) != -1
    ensures var i := LastOpen(toks, |toks|);
            Opens(toks) != [] && Opens(toks[i := toks[i].(end := end)]) == Opens(toks)[..|Opens(toks)| - 1]
  {
    LastOpenIsTop(toks);
    var i := LastOpen(toks, |toks|);
    var t := toks[i := toks[i].(end := end)];
    var n := |toks| - 1;
    if i == n {
      assert t[..n] == toks[..n];
    } else {
      assert t[..n] == toks[..n][i := toks[i].(end := end)];
      LastOpenAgrees(toks[..n], toks, n);
      ClosingPops(toks[..n], end);
    }
  }

  lemma AddedOpens(b: Build, s: State, kind: Kind, start: nat, end: int)
    requires WellFormed(s)
    ensures Opens(Add(b, s, kind, start, end)) == Opens(s.toks) + if end == -1 then [Frame(kind, |s.toks|)] else []
  {
    var toks := Add(b, s, kind, start, end);
    assert toks[..|s.toks|] == Bump(s.toks, s.super);
    OpensSame(s.toks, Bump(s.toks, s.super));
  }

  // ---------- refinement ----------

  lemma CloseRefines(b: Build, s: State, kind: Kind)
    requires WellFormed(s) && (b.links ==> LinksFindOpen(s))
    ensures match CloseStep(b, s, kind)
            case Go(next) => Pop(b.links, Abstract(s), s.pos + 1, kind) == Ahead(Abstract(next))
            case Fail(e) => e == Inval && Pop(b.links, Abstract(s), s.pos + 1, kind) == Rejected(e)
  {
    hide LastOpen, NearestOpen, Opens;
    LastOpenIsTop(s.toks);
    if LastOpen(s.toks, |s.toks|) != -1 {
      ClosingPops(s.toks, s.pos + 1);
    }
  }

  /** Strict mode refuses a primitive where a key is due.  Whether one is due
      shows in the size of the superior token and not in any stack. */
  predicate KeyRefused(b: Build, js: string, s: State)
    requires WellFormed(s)
  {
    b.strict && More(js, s.pos) && StartsPrimitive(js[s.pos]) && IsKeyPlace(s)
  }

  lemma StepRefines(b: Build, js: string, cap: int, s: State)
    requires WellFormed(s) && (b.links ==> LinksFindOpen(s)) && More(js, s.pos)
    ensures KeyRefused(b, js, s) ==> Step(b, js, cap, s) == Fail(Inval)
    ensures !KeyRefused(b, js, s) ==>
            match Step(b, js, cap, s)
            case Go(next) => RefStep(b, js, Abstract(s)) == Ahead(Abstract(next))
            case Fail(NoMem) =>
              var o := RefStep(b, js, Abstract(s));
              cap <= |s.toks| && o.Ahead? && o.next.count == |s.toks| + 1
            case Fail(e) => RefStep(b, js, Abstract(s)) == Rejected(e)
  {
    hide Opens, CloseStep, Pop, LinksFindOpen, StringEnd, PrimitiveEnd, CommaSuper, IsKeyPlace;
    var c := js[s.pos];
    if c == '}' || c == ']' {
      CloseRefines(b, s, if c == '}' then Object else Array);
    } else if Step(b, js, cap, s).Go? {
      var next := Step(b, js, cap, s).next;
      if |next.toks| > |s.toks| {
        var t := next.toks[|s.toks|];
        AddedOpens(b, s, t.kind, t.start, t.end);
      }
    }
  }

  /** The states at the head of the parser loop, from s to the last one. */
  function Heads(b: Build, js: string, cap: int, s: State): (heads: seq<State>)
    requires WellFormed(s)
    ensures heads != [] && forall i :: 0 <= i < |heads| ==> WellFormed(heads[i])
    decreases |js| - s.pos
  {
    if More(js, s.pos) && Step(b, js, cap, s).Go? then [s] + Heads(b, js, cap, Step(b, js, cap, s).next) else [s]
  }

  lemma {:induction false} HeadsEndWhereTheRunStops(b: Build, js: string, cap: int, s: State)
    requires WellFormed(s)
    ensures var heads := Heads(b, js, cap, s); heads[|heads| - 1] == RunFrom(b, js, cap, s).state
    decreases |js| - s.pos
  {
    hide Step;
    if More(js, s.pos) && Step(b, js, cap, s).Go? {
      HeadsEndWhereTheRunStops(b, js, cap, Step(b, js, cap, s).next);
    }
  }

  /** The reference parser, which needs no room, stops after more tokens than
      a call can store. */
  ghost predicate RunsOut(b: Build, js: string, cap: int, r: Ref) {
    var n := RefStop(b, js, r).count;
    r.count < n && cap < n
  }

  lemma RunsOutLater(b: Build, js: string, cap: int, r: Ref)
    requires More(js, r.pos) && RefStep(b, js, r).Ahead?
    ensures var next := RefStep(b, js, r).next;
            && (next.count == r.count || next.count <= cap ==> RunsOut(b, js, cap, r) == RunsOut(b, js, cap, next))
            && (next.count == r.count + 1 && cap <= r.count ==> RunsOut(b, js, cap, r))
  {
    hide RefStep;
  }

  /** The loop heads show the states of the reference parser, one by one. */
  ghost predicate Shows(heads: seq<State>, refs: seq<Ref>) {
    |heads| <= |refs| && forall i :: 0 <= i < |heads| ==> Abstract(heads[i]) == refs[i]
  }

  lemma ShowsOneMore(s: State, heads: seq<State>, refs: seq<Ref>)
    requires Shows(heads, refs)
    ensures Shows([s] + heads, [Abstract(s)] + refs)
  {
    hide Abstract;
  }

  /** Refinement, in every build.  On every text and with any room the two
      parsers go through the same states: at every loop head the open tokens
      are the stack.  The call stops where the reference parser does, with its
      verdict, if there is room for the tokens up to there, and before that,
      out of tokens, if there is not; but strict mode also stops, with INVAL,
      at a primitive where a key is due. */
  lemma {:induction false} RefinesStack(b: Build, js: string, cap: int, s: State)
    requires WellFormed(s) && (b.links ==> Sound(b, js, s))
    ensures var heads, refs := Heads(b, js, cap, s), RefHeads(b, js, Abstract(s));
            && Shows(heads, refs)
            && (!KeyRefused(b, js, RunFrom(b, js, cap, s).state) ==>
                  (|heads| == |refs| <==> !RunsOut(b, js, cap, Abstract(s))))
    ensures Parse(b, js, cap, s).verdict ==
            if KeyRefused(b, js, RunFrom(b, js, cap, s).state) then Error(Inval)
            else if RunsOut(b, js, cap, Abstract(s)) then Error(NoMem)
            else RefVerdict(b, js, Abstract(s))
    decreases |js| - s.pos
  {
    hide Step, RefStep, Opens, Sound, LastOpen, LinksFindOpen, RunsOut, Shows, WellFormed, Abstract, KeyRefused;
    if More(js, s.pos) {
      if b.links {
        SoundLinks(b, js, s);
      }
      AbstractHas(s);
      StepRefines(b, js, cap, s);
      if Step(b, js, cap, s).Go? {
        if b.links {
          StepKeeps(b, js, cap, s);
        }
        var next := Step(b, js, cap, s).next;
        AbstractHas(next);
        RunsOutLater(b, js, cap, Abstract(s));
        RefinesStack(b, js, cap, next);
        ShowsOneMore(s, Heads(b, js, cap, next), RefHeads(b, js, Abstract(next)));
      } else if KeyRefused(b, js, s) {
        RefusedHere(b, js, cap, s);
      } else {
        StopsHere(b, js, cap, s);
      }
    } else {
      AtTheEnd(b, js, cap, s);
    }
  }

  lemma AbstractHas(s: State)
    ensures Abstract(s).pos == s.pos && Abstract(s).count == |s.toks|
  {
  }

  lemma RefusedHere(b: Build, js: string, cap: int, s: State)
    requires WellFormed(s) && More(js, s.pos) && Step(b, js, cap, s) == Fail(Inval)
    ensures Shows(Heads(b, js, cap, s), RefHeads(b, js, Abstract(s)))
    ensures RunFrom(b, js, cap, s).state == s && Parse(b, js, cap, s).verdict == Error(Inval)
  {
    hide Step, RefStep, Opens;
  }

  lemma StopsHere(b: Build, js: string, cap: int, s: State)
    requires WellFormed(s) && (b.links ==> LinksFindOpen(s)) && More(js, s.pos) && Step(b, js, cap, s).Fail?
    requires !KeyRefused(b, js, s)
    ensures var heads, refs := Heads(b, js, cap, s), RefHeads(b, js, Abstract(s));
            Shows(heads, refs) && (|heads| == |refs| <==> !RunsOut(b, js, cap, Abstract(s)))
    ensures Parse(b, js, cap, s).verdict ==
            if RunsOut(b, js, cap, Abstract(s)) then Error(NoMem) else RefVerdict(b, js, Abstract(s))
  {
    hide Step, RefStep, LinksFindOpen, Opens;
    StepRefines(b, js, cap, s);
  }

  lemma AtTheEnd(b: Build, js: string, cap: int, s: State)
    requires WellFormed(s) && !More(js, s.pos)
    ensures RunFrom(b, js, cap, s).state == s && !KeyRefused(b, js, s)
    ensures var heads, refs := Heads(b, js, cap, s), RefHeads(b, js, Abstract(s));
            Shows(heads, refs) && |heads| == |refs| && !RunsOut(b, js, cap, Abstract(s))
    ensures Parse(b, js, cap, s).verdict == RefVerdict(b, js, Abstract(s))
  {
    LastOpenIsTop(s.toks);
  }

  lemma SoundLinks(b: Build, js: string, s: State)
    requires Sound(b, js, s) && b.links
    ensures LinksFindOpen(s)
  {
  }

  /** So the call stops in the state of the reference parser. */
  lemma StopsWithStack(b: Build, js: string, cap: int, s: State)
    requires WellFormed(s) && (b.links ==> Sound(b, js, s)) && !KeyRefused(b, js, RunFrom(b, js, cap, s).state)
    requires !RunsOut(b, js, cap, Abstract(s))
    ensures Abstract(RunFrom(b, js, cap, s).state) == RefStop(b, js, Abstract(s))
  {
    hide Heads, RefHeads, RunFrom, Opens, Sound, WellFormed, RefVerdict, Parse, Abstract, KeyRefused;
    RefinesStack(b, js, cap, s);
    HeadsEndWhereTheRunStops(b, js, cap, s);
  }
}
