/** Sizes and parent links of the token array account for every token. */
module JsmnAccounting {
  import opened JsmnTypes
  import opened JsmnLexer
  import opened JsmnSpec
  import opened JsmnInvariants

  /** The number of tokens whose parent is p. */
  function Children(toks: seq<Token>, p: int): nat {
    if toks == [] then 0
    else Children(toks[..|toks| - 1], p) + if toks[|toks| - 1].parent == p then 1 else 0
  }

  function TotalSize(toks: seq<Token>): int {
    if toks == [] then 0 else TotalSize(toks[..|toks| - 1]) + toks[|toks| - 1].size
  }

  /** Every size is a count of children, and every token is either a root or
      counted in exactly one size. */
  ghost predicate Accounted(toks: seq<Token>) {
    && (forall i :: 0 <= i < |toks| ==> toks[i].size == Children(toks, i))
    && TotalSize(toks) + Children(toks, -1) == |toks|
  }

  lemma {:induction false} ChildrenSame(s: seq<Token>, t: seq<Token>, p: int)
    requires |s| == |t| && forall i :: 0 <= i < |s| ==> s[i].parent == t[i].parent
    ensures Children(s, p) == Children(t, p)
  {
    if s == [] {
    } else {
      ChildrenSame(s[..|s| - 1], t[..|t| - 1], p);
    }
  }

  lemma {:induction false} TotalSizeUpdate(s: seq<Token>, i: nat, t: Token)
    requires i < |s|
    ensures TotalSize(s[i := t]) == TotalSize(s) - s[i].size + t.size
  {
    var n := |s| - 1;
    var u := s[i := t];
    if i == n {
      assert u[..n] == s[..n];
    } else {
      assert u[..n] == s[..n][i := t];
      TotalSizeUpdate(s[..n], i, t);
    }
  }

  /** Nothing is attached to an index that is not in the array yet. */
  lemma {:induction false} NoChildrenAhead(toks: seq<Token>, p: nat)
    requires |toks| <= p && forall i :: 0 <= i < |toks| ==> toks[i].parent < i
    ensures Children(toks, p) == 0
  {
    if toks == [] {
    } else {
      NoChildrenAhead(toks[..|toks| - 1], p);
    }
  }

  lemma AddAccounts(b: Build, s: State, kind: Kind, start: int, end: int)
    requires WellFormed(s) && b.links && Accounted(s.toks)
    ensures Accounted(Add(b, s, kind, start, end))
  {
    var bumped := Bump(s.toks, s.super);
    var toks := Add(b, s, kind, start, end);
    var n := |s.toks|;
    assert toks[..n] == bumped;
    forall i | -1 <= i <= n ensures Children(toks, i) == Children(s.toks, i) + if s.super == i then 1 else 0 {
      ChildrenSame(s.toks, bumped, i);
    }
    NoChildrenAhead(s.toks, n);
    if s.super != -1 {
      TotalSizeUpdate(s.toks, s.super, bumped[s.super]);
    }
  }

  lemma CloseAccounts(s: State, i: nat)
    requires i < |s.toks| && Accounted(s.toks)
    ensures Accounted(s.toks[i := s.toks[i].(end := s.pos + 1)])
  {
    var t := s.toks[i := s.toks[i].(end := s.pos + 1)];
    forall k | -1 <= k < |t| ensures Children(t, k) == Children(s.toks, k) {
      ChildrenSame(s.toks, t, k);
    }
    TotalSizeUpdate(s.toks, i, t[i]);
  }

  lemma StepAccounts(b: Build, js: string, cap: int, s: State)
    requires WellFormed(s) && b.links && Accounted(s.toks) && More(js, s.pos)
    requires Step(b, js, cap, s).Go?
    ensures Accounted(Step(b, js, cap, s).next.toks)
  {
    hide StringEnd, PrimitiveEnd, NearestOpen, CommaSuper, IsKeyPlace, Accounted;
    var next := Step(b, js, cap, s).next;
    if |next.toks| > |s.toks| {
      var t := next.toks[|s.toks|];
      AddAccounts(b, s, t.kind, t.start, t.end);
    } else if next.toks != s.toks {
      CloseAccounts(s, NearestOpen(s.toks, |s.toks| - 1));
    }
  }

  lemma {:induction false} RunAccounts(b: Build, js: string, cap: int, s: State)
    requires WellFormed(s) && b.links && Accounted(s.toks)
    ensures Accounted(RunFrom(b, js, cap, s).state.toks)
    decreases |js| - s.pos
  {
    if More(js, s.pos) && Step(b, js, cap, s).Go? {
      StepAccounts(b, js, cap, s);
      RunAccounts(b, js, cap, Step(b, js, cap, s).next);
    }
  }

  lemma {:induction false} SessionAccounts(b: Build, calls: seq<Request>, s: State)
    requires WellFormed(s) && b.links && Accounted(s.toks)
    ensures Accounted(Session(b, calls, s).toks)
    decreases |calls|
  {
    if calls == [] {
    } else {
      RunAccounts(b, calls[0].js, calls[0].cap, s);
      SessionAccounts(b, calls[1..], Parse(b, calls[0].js, calls[0].cap, s).state);
    }
  }

  /** With parent links, in every state any sequence of calls can reach, on
      any texts: each size is the number of tokens pointing at it, parents
      come before their children, and sizes and roots add up to toknext. */
  lemma ReachableIsAccounted(calls: seq<Request>, strict: bool)
    ensures var toks := Session(Build(true, strict), calls, FRESH).toks;
            Accounted(toks) && forall i :: 0 <= i < |toks| ==> -1 <= toks[i].parent < i
  {
    SessionAccounts(Build(true, strict), calls, FRESH);
  }
}
