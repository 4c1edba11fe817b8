/** What holds of the token array in every state the tokenizer can reach,
    after errors and over resumed calls included. */
module JsmnInvariants {
  import opened JsmnBytes
  import opened JsmnTypes
  import opened JsmnLexer
  import opened JsmnSpec

  // ---------- the invariant ----------

  ghost predicate IsPrimitiveText(strict: bool, js: string, start: nat, end: nat) {
    start < end <= |js| && forall k :: start <= k < end ==> WordByte(strict, js[k])
  }

  /** The bytes of the text that a token claims to delimit. */
  ghost predicate Delimited(b: Build, js: string, pos: nat, t: Token) {
    && 0 <= t.start < pos <= |js|
    && (t.end != -1 ==> t.start <= t.end <= pos)
    && match t.kind
       case Object => js[t.start] == '{' && (t.end != -1 ==> t.start + 1 < t.end && js[t.end - 1] == '}')
       case Array => js[t.start] == '[' && (t.end != -1 ==> t.start + 1 < t.end && js[t.end - 1] == ']')
       case Str => 0 < t.start <= t.end < pos && js[t.start - 1] == '\"' && js[t.end] == '\"'
       case Primitive => t.end != -1 && IsPrimitiveText(b.strict, js, t.start, t.end)
       case Undefined => false
  }

  /** Token i comes first; when it is closed, token j is behind it or closed
      inside it. */
  ghost predicate Nested(ti: Token, tj: Token) {
    && ti.start < tj.start
    && (ti.end != -1 ==> ti.end <= tj.start || -1 != tj.end <= ti.end)
  }

  ghost predicate Laminar(toks: seq<Token>) {
    forall i, j :: 0 <= i < j < |toks| ==> Nested(toks[i], toks[j])
  }

  ghost predicate AllDelimited(b: Build, js: string, s: State) {
    && s.pos <= |js|
    && forall i :: 0 <= i < |s.toks| ==> Delimited(b, js, s.pos, s.toks[i])
  }

  ghost predicate ParentFindsOpen(toks: seq<Token>, i: nat)
    requires i < |toks|
    requires forall k :: 0 <= k < |toks| ==> -1 <= toks[k].parent < k
  {
    IsOpen(toks[i]) ==> NearestOpen(toks, toks[i].parent) == LastOpen(toks, i)
  }

  /** With parent links, walking up from the superior token, from the last
      token or from the parent of an open token meets the same open token as
      scanning the array downwards does. */
  ghost predicate LinksFindOpen(s: State)
    requires WellFormed(s)
  {
    && NearestOpen(s.toks, s.super) == LastOpen(s.toks, |s.toks|)
    && NearestOpen(s.toks, |s.toks| - 1) == LastOpen(s.toks, |s.toks|)
    && forall i :: 0 <= i < |s.toks| ==> ParentFindsOpen(s.toks, i)
  }

  ghost predicate Sound(b: Build, js: string, s: State) {
    && WellFormed(s)
    && AllDelimited(b, js, s)
    && Laminar(s.toks)
    && (b.links ==> LinksFindOpen(s))
  }

  // ---------- scans only look at the skeleton of the array ----------

  ghost predicate SameSkeleton(s: seq<Token>, t: seq<Token>, n: nat) {
    && n <= |s| && n <= |t|
    && forall i :: 0 <= i < n ==> IsOpen(s[i]) == IsOpen(t[i]) && s[i].parent == t[i].parent
  }

  lemma {:induction false} NearestOpenSame(s: seq<Token>, t: seq<Token>, i: int)
    requires -1 <= i < |s| && i < |t|
    requires forall k :: 0 <= k < |s| ==> -1 <= s[k].parent < k
    requires forall k :: 0 <= k < |t| ==> -1 <= t[k].parent < k
    requires SameSkeleton(s, t, i + 1)
    ensures NearestOpen(s, i) == NearestOpen(t, i)
    decreases i + 1
  {
    if i != -1 && !IsOpen(s[i]) {
      NearestOpenSame(s, t, s[i].parent);
    }
  }

  /** Closing the token a walk stops at sends the walk on to its parent. */
  lemma {:induction false} NearestOpenAfterClose(s: seq<Token>, t: seq<Token>, i: int, at: nat)
    requires -1 <= i < |s| == |t|
    requires forall k :: 0 <= k < |s| ==> -1 <= s[k].parent < k
    requires NearestOpen(s, i) == at
    requires !IsOpen(t[at]) && t[at].parent == s[at].parent
    requires forall k :: 0 <= k < |s| && k != at ==> t[k] == s[k]
    ensures NearestOpen(t, i) == NearestOpen(s, s[at].parent)
    decreases i + 1
  {
    if i == at {
      NearestOpenSame(s, t, s[at].parent);
    } else {
      NearestOpenAfterClose(s, t, s[i].parent, at);
    }
  }

  // ---------- each step keeps it ----------

  lemma BumpSpans(b: Build, js: string, s: State)
    requires WellFormed(s) && AllDelimited(b, js, s) && Laminar(s.toks)
    ensures WellFormed(s.(toks := Bump(s.toks, s.super)))
    ensures AllDelimited(b, js, s.(toks := Bump(s.toks, s.super))) && Laminar(Bump(s.toks, s.super))
  {
    var t := Bump(s.toks, s.super);
    forall i, j | 0 <= i < j < |t| ensures Nested(t[i], t[j]) {
      assert Nested(s.toks[i], s.toks[j]);
    }
    forall i | 0 <= i < |t| ensures Delimited(b, js, s.pos, t[i]) {
      assert Delimited(b, js, s.pos, s.toks[i]);
    }
  }

  lemma ParentFindsOpenSame(s: State, t: seq<Token>, i: nat)
    requires WellFormed(s) && WellFormed(s.(toks := t)) && |t| == |s.toks| && SameSkeleton(s.toks, t, |t|)
    requires i < |t| && ParentFindsOpen(s.toks, i)
    ensures ParentFindsOpen(t, i)
  {
    hide NearestOpen, LastOpen;
    NearestOpenSame(s.toks, t, t[i].parent);
    LastOpenAgrees(s.toks, t, i);
  }

  /** Sizes and spans do not matter to the links. */
  lemma LinksSame(s: State, t: seq<Token>)
    requires WellFormed(s) && WellFormed(s.(toks := t)) && |t| == |s.toks| && SameSkeleton(s.toks, t, |t|)
    requires LinksFindOpen(s)
    ensures LinksFindOpen(s.(toks := t))
  {
    hide NearestOpen, LastOpen, ParentFindsOpen;
    LastOpenAgrees(s.toks, t, |t|);
    NearestOpenSame(s.toks, t, s.super);
    NearestOpenSame(s.toks, t, |t| - 1);
    forall i | 0 <= i < |t| ensures ParentFindsOpen(t, i) {
      ParentFindsOpenSame(s, t, i);
    }
  }

  lemma BumpLinks(s: State)
    requires WellFormed(s) && LinksFindOpen(s)
    ensures WellFormed(s.(toks := Bump(s.toks, s.super)))
    ensures LinksFindOpen(s.(toks := Bump(s.toks, s.super)))
  {
    hide NearestOpen, LastOpen, LinksFindOpen;
    LinksSame(s, Bump(s.toks, s.super));
  }

  lemma AppendSpans(b: Build, js: string, s: State, t: Token, pos: nat, super: int)
    requires AllDelimited(b, js, s) && Laminar(s.toks) && s.pos <= t.start && s.pos <= pos <= |js|
    requires Delimited(b, js, pos, t)
    ensures AllDelimited(b, js, State(pos, s.toks + [t], super)) && Laminar(s.toks + [t])
  {
    var toks := s.toks + [t];
    forall i, j | 0 <= i < j < |toks| ensures Nested(toks[i], toks[j]) {
      assert Delimited(b, js, s.pos, s.toks[i]);
      if j < |s.toks| {
        assert Nested(s.toks[i], s.toks[j]);
      }
    }
    forall i | 0 <= i < |toks| ensures Delimited(b, js, pos, toks[i]) {
      if i < |s.toks| {
        assert Delimited(b, js, s.pos, s.toks[i]);
      }
    }
  }

  /** An appended token that is open also becomes the superior token. */
  lemma AppendLinks(s: State, t: Token, pos: nat)
    requires WellFormed(s) && LinksFindOpen(s) && t.parent == s.super
    ensures WellFormed(State(pos, s.toks + [t], if IsOpen(t) then |s.toks| else s.super))
    ensures LinksFindOpen(State(pos, s.toks + [t], if IsOpen(t) then |s.toks| else s.super))
  {
    hide NearestOpen, LastOpen, ParentFindsOpen;
    AppendWalks(s, t);
    var toks := s.toks + [t];
    forall i | 0 <= i < |toks| ensures ParentFindsOpen(toks, i) {
      AppendParents(s, t, i);
    }
  }

  lemma AppendWalks(s: State, t: Token)
    requires WellFormed(s) && LinksFindOpen(s) && t.parent == s.super
    ensures var toks, n := s.toks + [t], |s.toks|;
            && (forall k :: 0 <= k < |toks| ==> -1 <= toks[k].parent < k)
            && NearestOpen(toks, s.super) == LastOpen(toks, n) == LastOpen(s.toks, n)
            && NearestOpen(toks, n) == LastOpen(toks, n + 1) == if IsOpen(t) then n else LastOpen(s.toks, n)
  {
    hide ParentFindsOpen;
    NearestOpenSame(s.toks, s.toks + [t], s.super);
    LastOpenAgrees(s.toks, s.toks + [t], |s.toks|);
  }

  lemma AppendParents(s: State, t: Token, i: nat)
    requires WellFormed(s) && LinksFindOpen(s) && t.parent == s.super && i <= |s.toks|
    ensures var toks := s.toks + [t];
            && (forall k :: 0 <= k < |toks| ==> -1 <= toks[k].parent < k)
            && ParentFindsOpen(toks, i)
  {
    hide NearestOpen, LastOpen;
    var toks := s.toks + [t];
    AppendWalks(s, t);
    if i < |s.toks| {
      assert ParentFindsOpen(s.toks, i);
      NearestOpenSame(s.toks, toks, toks[i].parent);
      LastOpenAgrees(s.toks, toks, i);
    }
  }

  lemma AddKeeps(b: Build, js: string, s: State, kind: Kind, start: nat, end: int, pos: nat, super: int)
    requires Sound(b, js, s) && s.pos <= start && s.pos <= pos <= |js|
    requires Delimited(b, js, pos, Token(kind, start, end, 0, ParentOf(b, s)))
    requires super == if end == -1 then |s.toks| else s.super
    ensures Sound(b, js, State(pos, Add(b, s, kind, start, end), super))
  {
    BumpSpans(b, js, s);
    if b.links {
      BumpLinks(s);
    }
    var bumped := s.(toks := Bump(s.toks, s.super));
    AppendSpans(b, js, bumped, Token(kind, start, end, 0, ParentOf(b, s)), pos, super);
    if b.links {
      AppendLinks(bumped, Token(kind, start, end, 0, s.super), pos);
    }
  }

  function Closed(s: State, i: nat, super: int): State
    requires i < |s.toks|
  {
    State(s.pos + 1, s.toks[i := s.toks[i].(end := s.pos + 1)], super)
  }

  lemma CloseSpans(b: Build, js: string, s: State, i: nat, super: int)
    requires WellFormed(s) && AllDelimited(b, js, s) && Laminar(s.toks) && s.pos < |js|
    requires i < |s.toks| && i == LastOpen(s.toks, |s.toks|)
    requires (js[s.pos] == '}' && s.toks[i].kind == Object) || (js[s.pos] == ']' && s.toks[i].kind == Array)
    ensures AllDelimited(b, js, Closed(s, i, super)) && Laminar(Closed(s, i, super).toks)
  {
    var t := Closed(s, i, super).toks;
    forall k | 0 <= k < |t| ensures Delimited(b, js, s.pos + 1, t[k]) {
      assert Delimited(b, js, s.pos, s.toks[k]);
    }
    forall j, k | 0 <= j < k < |t| ensures Nested(t[j], t[k]) {
      assert Nested(s.toks[j], s.toks[k]);
      assert Delimited(b, js, s.pos, s.toks[k]);
    }
  }

  lemma CloseLinks(s: State, i: nat)
    requires WellFormed(s) && LinksFindOpen(s)
    requires i < |s.toks| && i == LastOpen(s.toks, |s.toks|)
    ensures WellFormed(Closed(s, i, s.toks[i].parent))
    ensures LinksFindOpen(Closed(s, i, s.toks[i].parent))
  {
    hide NearestOpen, LastOpen;
    var t := Closed(s, i, s.toks[i].parent).toks;
    assert WellFormed(Closed(s, i, s.toks[i].parent));
    assert LastOpen(t, |t|) == NearestOpen(t, |t| - 1) == NearestOpen(t, t[i].parent) by {
      assert ParentFindsOpen(s.toks, i);
      CloseWalks(s.toks, t, i);
    }
    forall k | 0 <= k < |t| ensures ParentFindsOpen(t, k) {
      if IsOpen(t[k]) {
        OpenBelowClosed(s, t, i, k);
      }
    }
  }

  lemma CloseWalks(s: seq<Token>, t: seq<Token>, i: nat)
    requires i < |s| == |t|
    requires forall k :: 0 <= k < |s| ==> -1 <= s[k].parent == t[k].parent < k
    requires i == LastOpen(s, |s|) == NearestOpen(s, |s| - 1)
    requires NearestOpen(s, s[i].parent) == LastOpen(s, i)
    requires !IsOpen(t[i]) && forall k :: 0 <= k < |s| && k != i ==> t[k] == s[k]
    ensures LastOpen(t, |t|) == NearestOpen(t, |t| - 1) == NearestOpen(t, t[i].parent)
  {
    hide NearestOpen, LastOpen;
    NoneOpenAbove(t, i, |t|);
    LastOpenAgrees(s, t, i);
    NearestOpenAfterClose(s, t, |t| - 1, i);
    NearestOpenSame(s, t, t[i].parent);
  }

  lemma OpenBelowClosed(s: State, t: seq<Token>, i: nat, k: nat)
    requires WellFormed(s) && LinksFindOpen(s)
    requires i < |s.toks| && i == LastOpen(s.toks, |s.toks|)
    requires t == s.toks[i := s.toks[i].(end := s.pos + 1)]
    requires k < |t| && IsOpen(t[k])
    ensures NearestOpen(t, t[k].parent) == LastOpen(t, k)
  {
    assert k < i && t[k] == s.toks[k];
    assert ParentFindsOpen(s.toks, k);
    NearestOpenSame(s.toks, t, t[k].parent);
    LastOpenAgrees(s.toks, t, k);
  }

  lemma NoneOpenAbove(t: seq<Token>, i: nat, n: nat)
    requires i <= n <= |t|
    requires forall k :: i <= k < n ==> !IsOpen(t[k])
    ensures LastOpen(t, n) == LastOpen(t, i)
  {
  }

  lemma OnlyContainersAreOpen(b: Build, js: string, s: State)
    requires Sound(b, js, s)
    ensures forall i :: 0 <= i < |s.toks| && IsOpen(s.toks[i]) ==> IsContainer(s.toks[i])
    ensures LastOpenContainer(s.toks, |s.toks|) == LastOpen(s.toks, |s.toks|)
  {
    forall i | 0 <= i < |s.toks| && IsOpen(s.toks[i]) ensures IsContainer(s.toks[i]) {
      assert Delimited(b, js, s.pos, s.toks[i]);
    }
  }

  /** A colon or a comma moves the superior token along the links only. */
  lemma MoveKeeps(b: Build, js: string, s: State, super: int)
    requires Sound(b, js, s) && s.pos < |js|
    requires super == |s.toks| - 1 || super == CommaSuper(b, s)
    ensures Sound(b, js, s.(pos := s.pos + 1, super := super))
  {
    forall k | 0 <= k < |s.toks| ensures Delimited(b, js, s.pos + 1, s.toks[k]) {
      assert Delimited(b, js, s.pos, s.toks[k]);
    }
    if b.links && s.super != -1 {
      assert Delimited(b, js, s.pos, s.toks[s.super]);
    }
  }

  lemma OpenKeeps(b: Build, js: string, cap: int, s: State, kind: Kind)
    requires Sound(b, js, s) && s.pos < |js| && OpenStep(b, cap, s, kind).Go?
    requires (kind == Object && js[s.pos] == '{') || (kind == Array && js[s.pos] == '[')
    ensures Sound(b, js, OpenStep(b, cap, s, kind).next)
  {
    AddKeeps(b, js, s, kind, s.pos, -1, s.pos + 1, |s.toks|);
  }

  lemma CloseKeeps(b: Build, js: string, s: State, kind: Kind)
    requires Sound(b, js, s) && s.pos < |js| && CloseStep(b, s, kind).Go?
    requires (kind == Object && js[s.pos] == '}') || (kind == Array && js[s.pos] == ']')
    ensures Sound(b, js, CloseStep(b, s, kind).next)
  {
    var i := LastOpen(s.toks, |s.toks|);
    if i == -1 {
      MoveSame(b, js, s);
    } else {
      CloseSpans(b, js, s, i, CloseStep(b, s, kind).next.super);
      if b.links {
        CloseLinks(s, i);
      }
    }
  }

  lemma StringKeeps(b: Build, js: string, cap: int, s: State)
    requires Sound(b, js, s) && s.pos < |js| && js[s.pos] == '\"' && StringStep(b, js, cap, s).Go?
    ensures Sound(b, js, StringStep(b, js, cap, s).next)
  {
    var next := StringStep(b, js, cap, s).next;
    AddKeeps(b, js, s, Str, s.pos + 1, next.pos - 1, next.pos, s.super);
  }

  lemma PrimitiveKeeps(b: Build, js: string, cap: int, s: State)
    requires Sound(b, js, s) && More(js, s.pos) && PrimitiveStep(b, js, cap, s).Go?
    requires PrimitiveEnd(b.strict, js, s.pos) != Found(s.pos)
    ensures Sound(b, js, PrimitiveStep(b, js, cap, s).next)
  {
    var next := PrimitiveStep(b, js, cap, s).next;
    PrimitiveEndIs(b.strict, js, s.pos, next.pos);
    AddKeeps(b, js, s, Primitive, s.pos, next.pos, next.pos, s.super);
  }

  lemma PrimitiveNotEmpty(strict: bool, js: string, i: nat)
    requires More(js, i) && (strict || !EndsPrimitive(strict, js[i]))
    requires js[i] != ' ' && js[i] != '\t' && js[i] != '\r' && js[i] != '\n' && js[i] != ',' && js[i] != ']' && js[i] != '}'
    ensures PrimitiveEnd(strict, js, i) != Found(i)
  {
  }

  lemma StepKeeps(b: Build, js: string, cap: int, s: State)
    requires Sound(b, js, s) && More(js, s.pos)
    requires Step(b, js, cap, s).Go?
    ensures Sound(b, js, Step(b, js, cap, s).next)
  {
    SoundIsWellFormed(b, js, s);
    hide Sound, WellFormed, OpenStep, CloseStep, StringStep, PrimitiveStep, CommaSuper, PrimitiveEnd;
    var c := js[s.pos];
    if c == '{' || c == '[' {
      OpenKeeps(b, js, cap, s, if c == '{' then Object else Array);
    } else if c == '}' || c == ']' {
      CloseKeeps(b, js, s, if c == '}' then Object else Array);
    } else if c == '\"' {
      StringKeeps(b, js, cap, s);
    } else if IsBlank(c) {
      MoveSame(b, js, s);
    } else if c == ':' || c == ',' {
      MoveKeeps(b, js, s, Step(b, js, cap, s).next.super);
    } else {
      PrimitiveNotEmpty(b.strict, js, s.pos);
      PrimitiveKeeps(b, js, cap, s);
    }
  }

  lemma SoundIsWellFormed(b: Build, js: string, s: State)
    requires Sound(b, js, s)
    ensures WellFormed(s)
  {
  }

  lemma MoveSame(b: Build, js: string, s: State)
    requires Sound(b, js, s) && s.pos < |js|
    ensures Sound(b, js, s.(pos := s.pos + 1))
  {
    forall k | 0 <= k < |s.toks| ensures Delimited(b, js, s.pos + 1, s.toks[k]) {
      assert Delimited(b, js, s.pos, s.toks[k]);
    }
  }

  /** Whatever a call returns, it leaves a sound state behind. */
  lemma {:induction false} RunKeeps(b: Build, js: string, cap: int, s: State)
    requires Sound(b, js, s)
    ensures Sound(b, js, RunFrom(b, js, cap, s).state)
    decreases |js| - s.pos
  {
    if More(js, s.pos) && Step(b, js, cap, s).Go? {
      StepKeeps(b, js, cap, s);
      RunKeeps(b, js, cap, Step(b, js, cap, s).next);
    }
  }

  // ---------- whole sessions ----------

  /** One call of a session: the data available so far and the room for tokens. */
  datatype Request = Request(js: string, cap: int)

  /** The state after a sequence of calls, none of which resets the parser. */
  function Session(b: Build, calls: seq<Request>, s: State): (r: State)
    requires WellFormed(s)
    ensures WellFormed(r)
    decreases |calls|
  {
    if calls == [] then s else Session(b, calls[1..], Parse(b, calls[0].js, calls[0].cap, s).state)
  }

  /** Each call sees the text of the call before it, possibly longer. */
  ghost predicate Growing(calls: seq<Request>) {
    forall i, j :: 0 <= i < j < |calls| ==> calls[i].js <= calls[j].js
  }

  lemma SoundOnLongerText(b: Build, js: string, js': string, s: State)
    requires Sound(b, js, s) && js <= js'
    ensures Sound(b, js', s)
  {
    forall k | 0 <= k < |s.toks| ensures Delimited(b, js', s.pos, s.toks[k]) {
      assert Delimited(b, js, s.pos, s.toks[k]);
    }
  }

  lemma {:induction false} SessionKeeps(b: Build, calls: seq<Request>, js: string, s: State)
    requires Growing(calls) && (forall i :: 0 <= i < |calls| ==> js <= calls[i].js)
    requires Sound(b, js, s)
    ensures Sound(b, if calls == [] then js else calls[|calls| - 1].js, Session(b, calls, s))
    decreases |calls|
  {
    hide Sound, RunFrom, Judge;
    if calls == [] {
    } else {
      SoundOnLongerText(b, js, calls[0].js, s);
      RunKeeps(b, calls[0].js, calls[0].cap, s);
      SessionKeeps(b, calls[1..], calls[0].js, Parse(b, calls[0].js, calls[0].cap, s).state);
    }
  }

  /** Every state reachable from a fresh parser is sound for the text seen. */
  lemma ReachableIsSound(b: Build, calls: seq<Request>)
    requires Growing(calls)
    ensures Sound(b, if calls == [] then "" else calls[|calls| - 1].js, Session(b, calls, FRESH))
  {
    SessionKeeps(b, calls, "", FRESH);
  }

  // ---------- no number leaves its width ----------

  const INT_MAX: int := 0x7fff_ffff

  /** Every token takes a byte of its own, and adds at most one to one size. */
  ghost predicate Narrow(js: string, s: State) {
    |s.toks| <= s.pos <= |js| && forall i :: 0 <= i < |s.toks| ==> 0 <= s.toks[i].size <= |s.toks|
  }

  lemma AddStaysNarrow(b: Build, js: string, s: State, t: Token, next: State)
    requires WellFormed(s) && Narrow(js, s) && s.pos < next.pos <= |js|
    requires next.toks == Add(b, s, t.kind, t.start, t.end)
    ensures Narrow(js, next)
  {
  }

  lemma StepStaysNarrow(b: Build, js: string, cap: int, s: State)
    requires WellFormed(s) && Narrow(js, s) && More(js, s.pos) && Step(b, js, cap, s).Go?
    ensures Narrow(js, Step(b, js, cap, s).next)
  {
    hide StringEnd, PrimitiveEnd, NearestOpen, LastOpen, CommaSuper, IsKeyPlace, WellFormed, Bump;
    var next := Step(b, js, cap, s).next;
    if |next.toks| > |s.toks| {
      AddStaysNarrow(b, js, s, next.toks[|s.toks|], next);
    }
  }

  lemma {:induction false} RunStaysNarrow(b: Build, js: string, cap: int, s: State)
    requires WellFormed(s) && Narrow(js, s)
    ensures Narrow(js, RunFrom(b, js, cap, s).state)
    decreases |js| - s.pos
  {
    hide Step, Narrow;
    if More(js, s.pos) && Step(b, js, cap, s).Go? {
      StepStaysNarrow(b, js, cap, s);
      RunStaysNarrow(b, js, cap, Step(b, js, cap, s).next);
    }
  }

  lemma {:induction false} SessionStaysNarrow(b: Build, calls: seq<Request>, js: string, s: State)
    requires Growing(calls) && (forall i :: 0 <= i < |calls| ==> js <= calls[i].js)
    requires WellFormed(s) && Narrow(js, s)
    ensures Narrow(if calls == [] then js else calls[|calls| - 1].js, Session(b, calls, s))
    decreases |calls|
  {
    hide RunFrom, Judge;
    if calls == [] {
    } else {
      RunStaysNarrow(b, calls[0].js, calls[0].cap, s);
      SessionStaysNarrow(b, calls[1..], calls[0].js, Parse(b, calls[0].js, calls[0].cap, s).state);
    }
  }

  /** While texts are shorter than 2^31 bytes, everything the parser and its
      tokens hold fits the 32-bit integers of the code. */
  lemma ValuesFit(b: Build, calls: seq<Request>)
    requires Growing(calls) && calls != [] && |calls[|calls| - 1].js| <= INT_MAX
    ensures var s := Session(b, calls, FRESH);
            && s.pos <= INT_MAX && |s.toks| <= INT_MAX && -1 <= s.super < INT_MAX
            && forall i :: 0 <= i < |s.toks| ==>
                 && 0 <= s.toks[i].start <= INT_MAX && -1 <= s.toks[i].end <= INT_MAX
                 && 0 <= s.toks[i].size <= INT_MAX && -1 <= s.toks[i].parent < INT_MAX
  {
    hide Session, LinksFindOpen, Laminar;
    var js := calls[|calls| - 1].js;
    var s := Session(b, calls, FRESH);
    SessionStaysNarrow(b, calls, "", FRESH);
    ReachableIsSound(b, calls);
    forall i | 0 <= i < |s.toks| ensures 0 <= s.toks[i].start <= INT_MAX && -1 <= s.toks[i].end <= INT_MAX {
      assert Delimited(b, js, s.pos, s.toks[i]);
    }
  }
}
