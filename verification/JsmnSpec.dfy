/** One iteration of the parser loop, a whole call, and the counting call, as
    functions of the parser state.  JsmnParser proves that the in-place code
    computes exactly these. */
module JsmnSpec {
  import opened JsmnTypes
  import opened JsmnLexer

  // ---------- scans of the token array ----------

  /** The largest index below n of an open token, or -1. */
  function LastOpen(toks: seq<Token>, n: nat): (r: int)
    requires n <= |toks|
    ensures -1 <= r < n
    ensures r >= 0 ==> IsOpen(toks[r])
    ensures forall i :: r < i < n ==> !IsOpen(toks[i])
  {
    if n == 0 then -1 else if IsOpen(toks[n - 1]) then n - 1 else LastOpen(toks, n - 1)
  }

  /** The scan looks at nothing but which tokens are open. */
  lemma {:induction false} LastOpenAgrees(s: seq<Token>, t: seq<Token>, n: nat)
    requires n <= |s| && n <= |t|
    requires forall i :: 0 <= i < n ==> IsOpen(s[i]) == IsOpen(t[i])
    ensures LastOpen(s, n) == LastOpen(t, n)
  {
    if n == 0 {
    } else {
      LastOpenAgrees(s, t, n - 1);
    }
  }

  /** As LastOpen, but looking at containers only. */
  function LastOpenContainer(toks: seq<Token>, n: nat): (r: int)
    requires n <= |toks|
    ensures -1 <= r < n
    ensures r >= 0 ==> IsOpen(toks[r]) && IsContainer(toks[r])
    ensures forall i :: r < i < n ==> !(IsOpen(toks[i]) && IsContainer(toks[i]))
  {
    if n == 0 then -1
    else if IsContainer(toks[n - 1]) && IsOpen(toks[n - 1]) then n - 1
    else LastOpenContainer(toks, n - 1)
  }

  /** The first open token on the way from i to its root, or -1. */
  function NearestOpen(toks: seq<Token>, i: int): (r: int)
    requires -1 <= i < |toks|
    requires forall k :: 0 <= k < |toks| ==> -1 <= toks[k].parent < k
    ensures -1 <= r <= i
    ensures r >= 0 ==> IsOpen(toks[r])
    decreases i + 1
  {
    if i == -1 then -1 else if IsOpen(toks[i]) then i else NearestOpen(toks, toks[i].parent)
  }

  // ---------- one iteration ----------

  datatype Outcome = Go(next: State) | Fail(error: Error)

  function Bump(toks: seq<Token>, i: int): (r: seq<Token>)
    requires -1 <= i < |toks|
    ensures |r| == |toks|
  {
    if i == -1 then toks else toks[i := toks[i].(size := toks[i].size + 1)]
  }

  function ParentOf(b: Build, s: State): int { if b.links then s.super else -1 }

  function Add(b: Build, s: State, kind: Kind, start: int, end: int): (r: seq<Token>)
    requires WellFormed(s)
    ensures |r| == |s.toks| + 1
  {
    Bump(s.toks, s.super) + [Token(kind, start, end, 0, ParentOf(b, s))]
  }

  function OpenStep(b: Build, cap: int, s: State, kind: Kind): Outcome
    requires WellFormed(s)
  {
    if |s.toks| >= cap then Fail(NoMem)
    else Go(State(s.pos + 1, Add(b, s, kind, s.pos, -1), |s.toks|))
  }

  function CloseAt(s: State, i: nat, kind: Kind, super: int): Outcome
    requires i < |s.toks|
  {
    if s.toks[i].kind != kind then Fail(Inval)
    else Go(State(s.pos + 1, s.toks[i := s.toks[i].(end := s.pos + 1)], super))
  }

  function CloseStep(b: Build, s: State, kind: Kind): Outcome
    requires WellFormed(s)
  {
    if b.links then
      if s.toks == [] then Fail(Inval)
      else
        var i := NearestOpen(s.toks, |s.toks| - 1);
        if i == -1 then Go(s.(pos := s.pos + 1)) else CloseAt(s, i, kind, s.toks[i].parent)
    else
      var i := LastOpen(s.toks, |s.toks|);
      if i == -1 then Fail(Inval) else CloseAt(s, i, kind, LastOpen(s.toks, i))
  }

  function CommaSuper(b: Build, s: State): int
    requires WellFormed(s)
  {
    if s.super != -1 && !IsContainer(s.toks[s.super]) then
      if b.links then s.toks[s.super].parent
      else
        var i := LastOpenContainer(s.toks, |s.toks|);
        if i == -1 then s.super else i
    else s.super
  }

  function StringStep(b: Build, js: string, cap: int, s: State): Outcome
    requires WellFormed(s)
  {
    match StringEnd(js, s.pos + 1)
    case Bad => Fail(Inval)
    case Cut => Fail(Part)
    case Found(e) =>
      if |s.toks| >= cap then Fail(NoMem)
      else Go(State(e + 1, Add(b, s, Str, s.pos + 1, e), s.super))
  }

  /** The first bytes a primitive may have in strict mode. */
  predicate StartsStrictPrimitive(c: char) {
    c == '-' || '0' <= c <= '9' || c == 't' || c == 'f' || c == 'n'
  }

  /** In strict mode a primitive must not stand where a key is expected. */
  predicate IsKeyPlace(s: State)
    requires WellFormed(s)
  {
    s.super != -1 && (s.toks[s.super].kind == Object || (s.toks[s.super].kind == Str && s.toks[s.super].size != 0))
  }

  function PrimitiveStep(b: Build, js: string, cap: int, s: State): Outcome
    requires WellFormed(s) && More(js, s.pos)
  {
    if b.strict && (!StartsStrictPrimitive(js[s.pos]) || IsKeyPlace(s)) then Fail(Inval)
    else
      match PrimitiveEnd(b.strict, js, s.pos)
      case Bad => Fail(Inval)
      case Cut => Fail(Part)
      case Found(e) =>
        if |s.toks| >= cap then Fail(NoMem)
        else Go(State(e, Add(b, s, Primitive, s.pos, e), s.super))
  }

  predicate IsBlank(c: char) { c == '\t' || c == '\r' || c == '\n' || c == ' ' }

  predicate StartsPrimitive(c: char) {
    !(c == '{' || c == '[' || c == '}' || c == ']' || c == '\"' || IsBlank(c) || c == ':' || c == ',')
  }

  /** What the loop body followed by its pos++ does at a byte that is not the
      end of the data. */
  function Step(b: Build, js: string, cap: int, s: State): (r: Outcome)
    requires WellFormed(s) && More(js, s.pos)
    ensures r.Go? ==> s.pos < r.next.pos <= |js| && WellFormed(r.next)
    ensures r.Go? ==> |s.toks| <= |r.next.toks| <= |s.toks| + 1
    ensures r.Go? && |r.next.toks| > |s.toks| ==> |r.next.toks| <= cap
  {
    var c := js[s.pos];
    if c == '{' then OpenStep(b, cap, s, Object)
    else if c == '[' then OpenStep(b, cap, s, Array)
    else if c == '}' then CloseStep(b, s, Object)
    else if c == ']' then CloseStep(b, s, Array)
    else if c == '\"' then StringStep(b, js, cap, s)
    else if IsBlank(c) then Go(s.(pos := s.pos + 1))
    else if c == ':' then Go(s.(pos := s.pos + 1, super := |s.toks| - 1))
    else if c == ',' then Go(s.(pos := s.pos + 1, super := CommaSuper(b, s)))
    else
      assert b.strict || PrimitiveEnd(b.strict, js, s.pos) != Found(s.pos);
      PrimitiveStep(b, js, cap, s)
  }

  // ---------- a whole call ----------

  datatype Stop = AtEnd | Failed(error: Error)

  datatype Run = Run(state: State, stop: Stop)

  /** The parser loop: it stops at the end of the data or at the first lexeme
      that fails, in the state it had before that lexeme. */
  function RunFrom(b: Build, js: string, cap: int, s: State): (r: Run)
    requires WellFormed(s)
    ensures WellFormed(r.state)
    ensures s.pos <= r.state.pos && |s.toks| <= |r.state.toks|
    decreases |js| - s.pos
  {
    if !More(js, s.pos) then Run(s, AtEnd)
    else
      match Step(b, js, cap, s)
      case Fail(e) => Run(s, Failed(e))
      case Go(next) => RunFrom(b, js, cap, next)
  }

  datatype Verdict = Done(count: nat) | Error(error: Error)

  datatype Call = Call(state: State, verdict: Verdict)

  function Judge(r: Run): Verdict {
    match r.stop
    case Failed(e) => Error(e)
    case AtEnd =>
      if LastOpen(r.state.toks, |r.state.toks|) != -1 then Error(Part) else Done(|r.state.toks|)
  }

  /** jsmn_parse with a token array that has room for cap tokens. */
  function Parse(b: Build, js: string, cap: int, s: State): (r: Call)
    requires WellFormed(s)
    ensures WellFormed(r.state)
  {
    var run := RunFrom(b, js, cap, s);
    Call(run.state, Judge(run))
  }

  function Result(v: Verdict): int {
    match v
    case Done(n) => n
    case Error(e) => Code(e)
  }

  // ---------- jsmn_parse without a token array ----------

  /** A lexeme of the counting call: where it ends, whether it counts. */
  datatype Lexeme = Lexeme(end: nat, counts: bool) | Broken(error: Error)

  function LexemeAt(strict: bool, js: string, i: nat): (r: Lexeme)
    requires More(js, i)
    ensures r.Lexeme? ==> i < r.end <= |js|
  {
    var c := js[i];
    if c == '{' || c == '[' then Lexeme(i + 1, true)
    else if c == '}' || c == ']' || IsBlank(c) || c == ':' || c == ',' then Lexeme(i + 1, false)
    else if c == '\"' then
      match StringEnd(js, i + 1)
      case Found(e) => Lexeme(e + 1, true)
      case Bad => Broken(Inval)
      case Cut => Broken(Part)
    else if strict && !StartsStrictPrimitive(c) then Broken(Inval)
    else
      assert strict || PrimitiveEnd(strict, js, i) != Found(i);
      match PrimitiveEnd(strict, js, i)
      case Found(e) => Lexeme(e, true)
      case Bad => Broken(Inval)
      case Cut => Broken(Part)
  }

  datatype Tally = Tally(pos: nat, super: int, verdict: Verdict)

  /** The loop of a call without tokens: nothing is stored, and only a colon
      touches the parser beyond its position. */
  function CountFrom(strict: bool, js: string, i: nat, count: nat, super: int, last: int): Tally
    decreases |js| - i
  {
    if !More(js, i) then Tally(i, super, Done(count))
    else
      match LexemeAt(strict, js, i)
      case Broken(e) => Tally(i, super, Error(e))
      case Lexeme(end, counts) =>
        CountFrom(strict, js, end, if counts then count + 1 else count, if js[i] == ':' then last else super, last)
  }
}
