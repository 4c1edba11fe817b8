/** Parsing the text of a tree stores the preorder of the tree. */
module JsmnRoundTrip {
  import opened JsmnBytes
  import opened JsmnTypes
  import opened JsmnLexer
  import opened JsmnLexemes
  import opened JsmnSpec
  import opened JsmnInvariants
  import opened JsmnJson

  // ---------- single steps of the run ----------

  /** The run from s goes through t. */
  ghost predicate Reaches(b: Build, js: string, cap: int, s: State, t: State) {
    && WellFormed(s) && Sound(b, js, s) && WellFormed(t) && Sound(b, js, t)
    && RunFrom(b, js, cap, s) == RunFrom(b, js, cap, t)
  }

  lemma OneStep(b: Build, js: string, cap: int, s: State, t: State)
    requires WellFormed(s) && Sound(b, js, s) && More(js, s.pos) && Step(b, js, cap, s) == Go(t)
    ensures Reaches(b, js, cap, s, t)
  {
    StepKeeps(b, js, cap, s);
    hide Step;
  }

  lemma BlankByte(b: Build, js: string, cap: int, s: State, blank: string)
    requires WellFormed(s) && Blank(blank) && blank != [] && At(js, s.pos, blank)
    ensures More(js, s.pos) && Step(b, js, cap, s) == Go(s.(pos := s.pos + 1))
    ensures Blank(blank[1..]) && At(js, s.pos + 1, blank[1..])
  {
    hide WellFormed, OpenStep, CloseStep, StringStep, PrimitiveStep, CommaSuper;
    AtByte(js, s.pos, blank, 0);
    assert blank == blank[..1] + blank[1..];
    AtSplit(js, s.pos, blank[..1], blank[1..]);
  }

  lemma {:induction false} BlankRuns(b: Build, js: string, cap: int, s: State, blank: string)
    requires WellFormed(s) && Sound(b, js, s) && Blank(blank) && At(js, s.pos, blank)
    ensures Reaches(b, js, cap, s, s.(pos := s.pos + |blank|))
    decreases |blank|
  {
    hide WellFormed, Sound, RunFrom, Step, At, Blank;
    if blank == [] {
      assert s.(pos := s.pos + |blank|) == s;
    } else {
      BlankByte(b, js, cap, s, blank);
      var next := s.(pos := s.pos + 1);
      OneStep(b, js, cap, s, next);
      BlankRuns(b, js, cap, next, blank[1..]);
      assert next.(pos := next.pos + |blank[1..]|) == s.(pos := s.pos + |blank|);
    }
  }

  lemma QuotedStep(b: Build, js: string, cap: int, s: State, body: seq<Piece>)
    requires WellFormed(s) && |s.toks| < cap
    requires LegalBody(body) && At(js, s.pos, ['\"'] + BodyText(body) + ['\"'])
    ensures More(js, s.pos)
    ensures Step(b, js, cap, s) == Go(State(s.pos + |BodyText(body)| + 2,
                    Add(b, s, Str, s.pos + 1, s.pos + 1 + |BodyText(body)|), s.super))
  {
    hide WellFormed, OpenStep, CloseStep, PrimitiveStep, CommaSuper, BodyText, LegalBody, StringEnd, Add;
    var text := ['\"'] + BodyText(body) + ['\"'];
    AtByte(js, s.pos, text, 0);
    assert text == ['\"'] + (BodyText(body) + ['\"']);
    AtSplit(js, s.pos, ['\"'], BodyText(body) + ['\"']);
    BodyRuns(js, s.pos + 1, body);
  }

  lemma QuotedRuns(b: Build, js: string, cap: int, s: State, body: seq<Piece>)
    requires WellFormed(s) && Sound(b, js, s) && |s.toks| < cap
    requires LegalBody(body) && At(js, s.pos, ['\"'] + BodyText(body) + ['\"'])
    ensures Reaches(b, js, cap, s, State(s.pos + |BodyText(body)| + 2,
                    Add(b, s, Str, s.pos + 1, s.pos + 1 + |BodyText(body)|), s.super))
  {
    hide WellFormed, Sound, RunFrom, Step, At, BodyText, LegalBody, Add, Reaches;
    QuotedStep(b, js, cap, s, body);
    OneStep(b, js, cap, s, State(s.pos + |BodyText(body)| + 2,
                                 Add(b, s, Str, s.pos + 1, s.pos + 1 + |BodyText(body)|), s.super));
  }

  lemma WordStep(b: Build, js: string, cap: int, s: State, text: string)
    requires WellFormed(s) && |s.toks| < cap && (b.strict ==> !IsKeyPlace(s))
    requires LegalWord(b.strict, text) && At(js, s.pos, text) && Delimits(b.strict, js, s.pos + |text|)
    ensures More(js, s.pos)
    ensures Step(b, js, cap, s) == Go(State(s.pos + |text|, Add(b, s, Primitive, s.pos, s.pos + |text|), s.super))
  {
    hide WellFormed, OpenStep, CloseStep, StringStep, CommaSuper, Add, IsKeyPlace, Delimits, PrimitiveEnd;
    AtByte(js, s.pos, text, 0);
    JsmnLexemes.WordRuns(b.strict, js, s.pos, text);
  }

  lemma WordStepRuns(b: Build, js: string, cap: int, s: State, text: string)
    requires WellFormed(s) && Sound(b, js, s) && |s.toks| < cap && (b.strict ==> !IsKeyPlace(s))
    requires LegalWord(b.strict, text) && At(js, s.pos, text) && Delimits(b.strict, js, s.pos + |text|)
    ensures Reaches(b, js, cap, s, State(s.pos + |text|, Add(b, s, Primitive, s.pos, s.pos + |text|), s.super))
  {
    hide WellFormed, Sound, RunFrom, Step, At, LegalWord, Add, IsKeyPlace, Delimits, Reaches;
    WordStep(b, js, cap, s, text);
    OneStep(b, js, cap, s, State(s.pos + |text|, Add(b, s, Primitive, s.pos, s.pos + |text|), s.super));
  }

  // ---------- the array while items are added ----------

  /** The size of token p grows by k. */
  function Grow(toks: seq<Token>, p: nat, k: nat): (r: seq<Token>)
    requires p < |toks|
    ensures |r| == |toks|
  {
    toks[p := toks[p].(size := toks[p].size + k)]
  }

  /** Tokens appended closed do not change which container is innermost. */
  lemma {:induction false} LastOpenOfAppended(s: seq<Token>, t: seq<Token>, n: nat)
    requires |s| <= n <= |s + t| && forall i :: 0 <= i < |t| ==> t[i].end >= 0
    ensures LastOpen(s + t, n) == LastOpen(s, |s|)
  {
    if n == |s| {
      LastOpenAgrees(s, s + t, n);
    } else {
      assert (s + t)[n - 1] == t[n - 1 - |s|];
      LastOpenOfAppended(s, t, n - 1);
    }
  }

  // ---------- keys, members, containers ----------

  /** Container p is the innermost open one and the superior token. */
  ghost predicate Inner(b: Build, js: string, s: State, p: nat, kind: Kind) {
    && WellFormed(s) && Sound(b, js, s)
    && p == LastOpen(s.toks, |s.toks|) && s.super == p
    && s.toks[p].kind == kind && (kind == Object || kind == Array)
  }

  lemma InnerIndex(b: Build, js: string, s: State, p: nat, kind: Kind)
    requires Inner(b, js, s, p, kind)
    ensures p < |s.toks|
  {
  }

  lemma NoBlank()
    ensures Blank([])
  {
  }

  lemma MarkStep(b: Build, js: string, cap: int, s: State, c: char)
    requires WellFormed(s) && At(js, s.pos, [c]) && (c == ':' || c == ',')
    ensures More(js, s.pos)
    ensures Step(b, js, cap, s) == Go(State(s.pos + 1, s.toks, if c == ':' then |s.toks| - 1 else CommaSuper(b, s)))
  {
    hide WellFormed, OpenStep, CloseStep, StringStep, PrimitiveStep, CommaSuper;
    AtByte(js, s.pos, [c], 0);
  }

  lemma MarkRuns(b: Build, js: string, cap: int, s: State, c: char)
    requires WellFormed(s) && Sound(b, js, s) && At(js, s.pos, [c]) && (c == ':' || c == ',')
    ensures Reaches(b, js, cap, s, State(s.pos + 1, s.toks, if c == ':' then |s.toks| - 1 else CommaSuper(b, s)))
  {
    hide WellFormed, Sound, RunFrom, Step, At, CommaSuper, Reaches;
    MarkStep(b, js, cap, s, c);
    OneStep(b, js, cap, s, State(s.pos + 1, s.toks, if c == ':' then |s.toks| - 1 else CommaSuper(b, s)));
  }

  /** The state after a name: its token is added, as a child of the superior
      token. */
  function Named(b: Build, s: State, name: Name): State
    requires WellFormed(s)
  {
    State(s.pos + |NameText(name)|, Bump(s.toks, s.super) + [NameToken(name, s.pos, 0, ParentOf(b, s))], s.super)
  }

  lemma NameRuns(b: Build, js: string, cap: int, s: State, name: Name)
    requires WellFormed(s) && Sound(b, js, s) && |s.toks| < cap && LegalName(b.strict, name)
    requires At(js, s.pos, NameText(name)) && (name.WordName? ==> Delimits(b.strict, js, s.pos + |NameText(name)|))
    ensures Reaches(b, js, cap, s, Named(b, s, name))
  {
    hide WellFormed, Sound, RunFrom, At, BodyText, LegalBody, LegalWord, Reaches, IsKeyPlace, Delimits, Bump;
    match name
    case QuotedName(body) => QuotedRuns(b, js, cap, s, body);
    case WordName(word) => WordStepRuns(b, js, cap, s, word);
  }

  lemma NameAdded(b: Build, s: State, p: nat, key: Key, pos: nat)
    requires WellFormed(s) && s.super == p && key.Key? && s.pos == pos + |key.before|
    ensures Named(b, s, key.name).toks == Grow(s.toks, p, 1) + [KeyToken(b, key, pos, 0, p)]
  {
    hide NameToken, NameText;
  }

  lemma KeyParts(js: string, at: nat, key: Key)
    requires key.Key? && At(js, at, KeyText(key)) && Blank(key.after)
    ensures var i := at + |key.before|;
            var k := i + |NameText(key.name)|;
            && At(js, at, key.before) && At(js, i, NameText(key.name)) && At(js, k, key.after)
            && At(js, k + |key.after|, [':']) && Delimits(false, js, k)
            && |KeyText(key)| == |key.before| + |NameText(key.name)| + |key.after| + 1
  {
    hide NameText;
    var Key(before, name, after) := key;
    var text := NameText(name);
    assert KeyText(key) == before + (text + (after + [':']));
    AtSplit(js, at, before, text + (after + [':']));
    AtSplit(js, at + |before|, text, after + [':']);
    AtByte(js, at + |before| + |text|, after + [':'], 0);
    AtSplit(js, at + |before| + |text|, after, [':']);
  }

  lemma Chain(b: Build, js: string, cap: int, s: State, t: State, u: State)
    requires Reaches(b, js, cap, s, t) && Reaches(b, js, cap, t, u)
    ensures Reaches(b, js, cap, s, u)
  {
    hide WellFormed, Sound, RunFrom;
  }

  lemma ReachesSound(b: Build, js: string, cap: int, s: State, t: State)
    requires Reaches(b, js, cap, s, t)
    ensures WellFormed(t) && Sound(b, js, t)
  {
    hide WellFormed, Sound, RunFrom;
  }

  /** After a key and its colon the key is the superior token. */
  lemma KeyRuns(b: Build, js: string, cap: int, s: State, p: nat, key: Key)
    requires Inner(b, js, s, p, Object) && |s.toks| < cap
    requires key.Key? && LegalKey(b.strict, Object, key) && At(js, s.pos, KeyText(key))
    ensures Reaches(b, js, cap, s, State(s.pos + |KeyText(key)|,
                    Grow(s.toks, p, 1) + [KeyToken(b, key, s.pos, 0, p)], |s.toks|))
  {
    hide WellFormed, Sound, RunFrom, At, NameText, LegalName, Blank, Grow, KeyToken, KeyText, Reaches, CommaSuper, Named, Delimits;
    KeyParts(js, s.pos, key);
    var s1 := s.(pos := s.pos + |key.before|);
    BlankRuns(b, js, cap, s, key.before);
    ReachesSound(b, js, cap, s, s1);
    KeyEnds(b, js, cap, s1, key);
    NameAdded(b, s1, p, key, s.pos);
    Chain(b, js, cap, s, s1, State(s.pos + |KeyText(key)|, Grow(s.toks, p, 1) + [KeyToken(b, key, s.pos, 0, p)], |s.toks|));
  }

  /** The name, what is behind it, and the colon. */
  lemma KeyEnds(b: Build, js: string, cap: int, s: State, key: Key)
    requires WellFormed(s) && Sound(b, js, s) && |s.toks| < cap && key.Key? && LegalName(b.strict, key.name) && Blank(key.after)
    requires At(js, s.pos, NameText(key.name))
    requires var k := s.pos + |NameText(key.name)|; At(js, k, key.after) && At(js, k + |key.after|, [':']) && Delimits(false, js, k)
    ensures |Named(b, s, key.name).toks| == |s.toks| + 1
    ensures Reaches(b, js, cap, s, State(s.pos + |NameText(key.name)| + |key.after| + 1, Named(b, s, key.name).toks, |s.toks|))
  {
    hide WellFormed, Sound, RunFrom, At, NameText, LegalName, Blank, Reaches, CommaSuper, Named, Delimits;
    NamedShape(b, s, key.name);
    Loose(b.strict, key.name);
    var s2 := Named(b, s, key.name);
    NameRuns(b, js, cap, s, key.name);
    ReachesSound(b, js, cap, s, s2);
    var s3 := s2.(pos := s2.pos + |key.after|);
    BlankRuns(b, js, cap, s2, key.after);
    ReachesSound(b, js, cap, s2, s3);
    Chain(b, js, cap, s, s2, s3);
    MarkRuns(b, js, cap, s3, ':');
    Chain(b, js, cap, s, s3, State(s3.pos + 1, s3.toks, |s3.toks| - 1));
  }

  /** Names without quotes occur outside strict mode only. */
  lemma Loose(strict: bool, name: Name)
    requires LegalName(strict, name)
    ensures name.WordName? ==> !strict
  {
  }

  lemma NamedShape(b: Build, s: State, name: Name)
    requires WellFormed(s)
    ensures var t := Named(b, s, name);
            t.pos == s.pos + |NameText(name)| && |t.toks| == |s.toks| + 1 && t.super == s.super
  {
    hide NameText, NameToken;
  }

  /** A value inside a container is followed by something that delimits it. */
  lemma TailDelimits(strict: bool, js: string, i: nat, after: string, tail: string)
    requires Blank(after) && At(js, i, after + tail) && tail != [] && EndsWord(true, tail[0])
    ensures Delimits(strict, js, i)
  {
    AtByte(js, i, after + tail, 0);
  }

  /** The array after one more element or member of container p, and where the
      superior token can be then. */
  ghost predicate ItemStored(b: Build, s: State, t: State, p: nat, own: seq<Token>)
    requires p < |s.toks|
  {
    && t.toks == Grow(s.toks, p, 1) + own
    && (t.super == p || (t.super == |s.toks| && own != [] && (own[0].kind == Str || own[0].kind == Primitive) && own[0].parent == Up(b, p)))
  }

  lemma ItemKeepsInner(b: Build, js: string, s: State, t: State, p: nat, kind: Kind, own: seq<Token>)
    requires Inner(b, js, s, p, kind) && WellFormed(t) && Sound(b, js, t) && ItemStored(b, s, t, p, own)
    requires forall i :: 0 <= i < |own| ==> own[i].end >= 0
    ensures LastOpen(t.toks, |t.toks|) == p && CommaSuper(b, t) == p
  {
    LastOpenOfAppended(Grow(s.toks, p, 1), own, |t.toks|);
    LastOpenAgrees(s.toks, Grow(s.toks, p, 1), |s.toks|);
    OnlyContainersAreOpen(b, js, t);
  }

  /** After a comma the container is the superior token again. */
  lemma CommaRuns(b: Build, js: string, cap: int, s: State, t: State, p: nat, kind: Kind, own: seq<Token>, text: string)
    returns (next: State)
    requires Inner(b, js, s, p, kind) && WellFormed(t) && Sound(b, js, t) && ItemStored(b, s, t, p, own)
    requires forall i :: 0 <= i < |own| ==> own[i].end >= 0
    requires At(js, t.pos, [','] + text)
    ensures Reaches(b, js, cap, t, next) && Inner(b, js, next, p, kind)
    ensures next == State(t.pos + 1, t.toks, p) && At(js, next.pos, text)
  {
    hide Sound, RunFrom, At, CommaSuper;
    ItemKeepsInner(b, js, s, t, p, kind, own);
    AtSplit(js, t.pos, [','], text);
    MarkRuns(b, js, cap, t, ',');
    next := State(t.pos + 1, t.toks, p);
  }

  /** One element or member, with the white space behind it. */
  lemma {:induction false} MemberRuns(b: Build, js: string, cap: int, s: State, p: nat, kind: Kind,
                                      key: Key, before: string, value: Json, after: string, tail: string) returns (t: State)
    requires Inner(b, js, s, p, kind)
    requires |s.toks| + (if key.NoKey? then 0 else 1) + Nodes(value) <= cap
    requires LegalKey(b.strict, kind, key) && Blank(before) && Legal(b.strict, value) && Blank(after)
    requires At(js, s.pos, KeyText(key) + (before + (Text(value) + (after + tail))))
    requires tail != [] && EndsWord(true, tail[0])
    ensures Reaches(b, js, cap, s, t)
    ensures t.pos == s.pos + |KeyText(key)| + |before| + |Text(value)| + |after| && At(js, t.pos, tail)
    ensures ItemStored(b, s, t, p, OwnTokens(b, key, before, value, s.pos, |s.toks|, p))
    decreases value, 2
  {
    hide WellFormed, Sound, RunFrom, At, BodyText, KeyText, Text, Tokens, Blank, Legal, Delimits, Grow, ItemStored,
         Reaches, LegalKey, IsKeyPlace, Bump, KeyToken, EndsWord;
    var s2 := MemberStarts(b, js, cap, s, p, kind, key, before, Text(value) + (after + tail));
    ReachesSound(b, js, cap, s, s2);
    AtSplit(js, s2.pos, Text(value), after + tail);
    TailDelimits(b.strict, js, s2.pos + |Text(value)|, after, tail);
    var s3 := ValueRuns(b, js, cap, s2, value);
    Chain(b, js, cap, s, s2, s3);
    ReachesSound(b, js, cap, s, s3);
    AtSplit(js, s3.pos, after, tail);
    BlankRuns(b, js, cap, s3, after);
    t := s3.(pos := s3.pos + |after|);
    Chain(b, js, cap, s, s3, t);
    if key.NoKey? {
      ElementStored(b, s, t, p, Tokens(b, value, s2.pos, |s2.toks|, s2.super));
    } else {
      KeyTokenIs(b, key, s.pos, p);
      MemberStored(b, s, t, p, KeyToken(b, key, s.pos, 0, p), Tokens(b, value, s2.pos, |s2.toks|, s2.super));
    }
  }

  /** The key of a member, if any, and the white space before the value. */
  lemma MemberStarts(b: Build, js: string, cap: int, s: State, p: nat, kind: Kind, key: Key, before: string, text: string)
    returns (t: State)
    requires Inner(b, js, s, p, kind) && |s.toks| + (if key.NoKey? then 0 else 1) <= cap
    requires LegalKey(b.strict, kind, key) && Blank(before) && At(js, s.pos, KeyText(key) + (before + text))
    ensures Reaches(b, js, cap, s, t)
    ensures t.pos == s.pos + |KeyText(key)| + |before| && At(js, t.pos, text)
    ensures if key.NoKey? then t.toks == s.toks && t.super == p
            else t.toks == Grow(s.toks, p, 1) + [KeyToken(b, key, s.pos, 0, p)] && t.super == |s.toks|
    ensures LastOpen(t.toks, |t.toks|) == p && !IsKeyPlace(t)
  {
    hide WellFormed, Sound, RunFrom, At, KeyText, Blank, Reaches, Inner, Grow, KeyToken, LegalKey;
    AtSplit(js, s.pos, KeyText(key), before + text);
    var t1 := KeyIfAny(b, js, cap, s, p, kind, key);
    ReachesSound(b, js, cap, s, t1);
    AtSplit(js, t1.pos, before, text);
    BlankRuns(b, js, cap, t1, before);
    t := t1.(pos := t1.pos + |before|);
    Chain(b, js, cap, s, t1, t);
    ReachesSound(b, js, cap, s, t);
  }

  lemma KeyIfAny(b: Build, js: string, cap: int, s: State, p: nat, kind: Kind, key: Key) returns (t: State)
    requires Inner(b, js, s, p, kind) && |s.toks| + (if key.NoKey? then 0 else 1) <= cap
    requires LegalKey(b.strict, kind, key) && At(js, s.pos, KeyText(key))
    ensures Reaches(b, js, cap, s, t) && t.pos == s.pos + |KeyText(key)|
    ensures if key.NoKey? then t.toks == s.toks && t.super == p
            else t.toks == Grow(s.toks, p, 1) + [KeyToken(b, key, s.pos, 0, p)] && t.super == |s.toks|
    ensures LastOpen(t.toks, |t.toks|) == p && !IsKeyPlace(t)
  {
    hide WellFormed, Sound, RunFrom, At, BodyText, Blank, LegalBody, LegalWord;
    if key.Key? {
      KeyRuns(b, js, cap, s, p, key);
      t := State(s.pos + |KeyText(key)|, Grow(s.toks, p, 1) + [KeyToken(b, key, s.pos, 0, p)], |s.toks|);
      AfterKey(s.toks, p, KeyToken(b, key, s.pos, 0, p));
    } else {
      t := s;
    }
  }

  lemma KeyTokenIs(b: Build, key: Key, pos: nat, p: int)
    requires key.Key?
    ensures var k := KeyToken(b, key, pos, 0, p);
            (k.kind == Str || k.kind == Primitive) && k.parent == Up(b, p) && k.(size := k.size + 1) == KeyToken(b, key, pos, 1, p)
  {
  }

  lemma AfterKey(toks: seq<Token>, p: nat, k: Token)
    requires p < |toks| && k.end >= 0
    ensures var t := Grow(toks, p, 1) + [k]; LastOpen(t, |t|) == LastOpen(toks, |toks|)
  {
    LastOpenAgrees(toks, Grow(toks, p, 1) + [k], |toks|);
  }

  lemma ElementStored(b: Build, s: State, t: State, p: nat, own: seq<Token>)
    requires WellFormed(s) && s.super == p && t.toks == Bump(s.toks, p) + own && t.super == p
    ensures ItemStored(b, s, t, p, own)
  {
  }

  lemma MemberStored(b: Build, s: State, t: State, p: nat, k: Token, own: seq<Token>)
    requires WellFormed(s) && p < |s.toks|
    requires (k.kind == Str || k.kind == Primitive) && k.parent == Up(b, p)
    requires t.toks == Bump(Grow(s.toks, p, 1) + [k], |s.toks|) + own
    requires t.super == p || t.super == |s.toks|
    ensures ItemStored(b, s, t, p, [k.(size := k.size + 1)] + own)
  {
    hide Grow;
    BumpLast(Grow(s.toks, p, 1), k);
    ConcatIsAssociative(Grow(s.toks, p, 1), [k.(size := k.size + 1)], own);
  }

  lemma BumpLast(toks: seq<Token>, k: Token)
    ensures Bump(toks + [k], |toks|) == toks + [k.(size := k.size + 1)]
  {
  }

  lemma ConcatIsAssociative(s: seq<Token>, t: seq<Token>, u: seq<Token>)
    ensures (s + t) + u == s + (t + u)
  {
  }

  /** The items of container p, and what follows them. */
  lemma {:induction false} ItemsRun(b: Build, js: string, cap: int, s: State, p: nat, kind: Kind,
                                    blank: string, items: Items, tail: string) returns (t: State)
    requires Inner(b, js, s, p, kind) && |s.toks| + ItemNodes(items) <= cap
    requires Blank(blank) && LegalItems(b.strict, kind, items)
    requires At(js, s.pos, Inside(blank, items) + tail) && (items.Item? ==> tail != [] && EndsWord(true, tail[0]))
    ensures Reaches(b, js, cap, s, t)
    ensures t.pos == s.pos + |Inside(blank, items)| && At(js, t.pos, tail)
    ensures t.toks == Grow(s.toks, p, Count(items)) + ItemTokens(b, items, s.pos, |s.toks|, p)
    ensures CommaSuper(b, t) == p && (b.strict && kind == Object ==> IsKeyPlace(t))
    decreases items, 1
  {
    hide Sound, RunFrom, At, KeyText, Text, OwnTokens, LegalKey, Legal, Blank, WellFormed;
    InnerIndex(b, js, s, p, kind);
    match items
    case Nil =>
      AtSplit(js, s.pos, blank, tail);
      BlankRuns(b, js, cap, s, blank);
      t := s.(pos := s.pos + |blank|);
    case Item(key, before, value, after, rest) =>
      hide CommaSuper;
      InsideSplit(blank, items, tail);
      hide Inside, ItemStored, Grow, ItemTokens, Count, Inner, Tail, IsKeyPlace;
      var t1 := MemberRuns(b, js, cap, s, p, kind, key, before, value, after, Tail(rest, tail));
      t := t1;
      TailEnds(rest, tail);
      if rest.Item? {
        t := RestRuns(b, js, cap, s, t1, p, kind, items, tail);
      } else {
        EndStored(b, s, t1, p, items);
        ReachesSound(b, js, cap, s, t);
        AfterItem(b, js, s, t, p, kind, items, s.pos);
      }
  }

  lemma TailEnds(rest: Items, tail: string)
    ensures rest.Nil? ==> Tail(rest, tail) == tail
    ensures tail != [] && EndsWord(true, tail[0]) ==> Tail(rest, tail) != [] && EndsWord(true, Tail(rest, tail)[0])
  {
  }

  /** Behind an item a comma leads back to the container, and in an object a
      key is due. */
  lemma AfterItem(b: Build, js: string, s: State, t: State, p: nat, kind: Kind, items: Items, at: nat)
    requires Inner(b, js, s, p, kind) && WellFormed(t) && Sound(b, js, t) && items.Item? && LegalKey(b.strict, kind, items.key)
    requires ItemStored(b, s, t, p, OwnTokens(b, items.key, items.before, items.value, at, |s.toks|, p))
    ensures CommaSuper(b, t) == p && (b.strict && kind == Object ==> IsKeyPlace(t))
  {
    hide CommaSuper, Sound, KeyText, LegalBody, Tokens, Bump;
    var own := OwnTokens(b, items.key, items.before, items.value, at, |s.toks|, p);
    ItemKeepsInner(b, js, s, t, p, kind, own);
    assert t.super == |s.toks| && own != [] ==> t.toks[t.super] == own[0];
    assert t.toks[p].kind == kind;
  }

  lemma EndStored(b: Build, s: State, t1: State, p: nat, items: Items)
    requires p < |s.toks| && items.Item? && items.rest.Nil?
    requires ItemStored(b, s, t1, p, OwnTokens(b, items.key, items.before, items.value, s.pos, |s.toks|, p))
    ensures t1.toks == Grow(s.toks, p, Count(items)) + ItemTokens(b, items, s.pos, |s.toks|, p)
  {
    hide OwnTokens, Grow;
    RestStored(b, s.toks, p, items, s.pos, t1.toks);
  }

  /** The items behind the first one. */
  lemma {:induction false} RestRuns(b: Build, js: string, cap: int, s: State, t1: State, p: nat, kind: Kind, items: Items, tail: string)
    returns (t: State)
    requires items.Item? && items.rest.Item? && LegalItems(b.strict, kind, items.rest)
    requires Inner(b, js, s, p, kind) && |s.toks| + ItemNodes(items) <= cap && tail != [] && EndsWord(true, tail[0])
    requires WellFormed(t1) && Sound(b, js, t1) && At(js, t1.pos, Tail(items.rest, tail))
    requires t1.pos == s.pos + |KeyText(items.key)| + |items.before| + |Text(items.value)| + |items.after|
    requires ItemStored(b, s, t1, p, OwnTokens(b, items.key, items.before, items.value, s.pos, |s.toks|, p))
    ensures Reaches(b, js, cap, t1, t)
    ensures t.pos == t1.pos + 1 + |Inside([], items.rest)| && At(js, t.pos, tail)
    ensures t.toks == Grow(s.toks, p, Count(items)) + ItemTokens(b, items, s.pos, |s.toks|, p)
    ensures CommaSuper(b, t) == p && (b.strict && kind == Object ==> IsKeyPlace(t))
    decreases items, 0
  {
    hide Sound, RunFrom, At, KeyText, Text, OwnTokens, LegalItems, Blank, WellFormed, Inner, Inside, ItemTokens, Grow, Count,
         CommaSuper, IsKeyPlace, EndsWord;
    NoBlank();
    InnerIndex(b, js, s, p, kind);
    var own := OwnTokens(b, items.key, items.before, items.value, s.pos, |s.toks|, p);
    var next := CommaRuns(b, js, cap, s, t1, p, kind, own, Inside([], items.rest) + tail);
    t := ItemsRun(b, js, cap, next, p, kind, [], items.rest, tail);
    RestStored(b, s.toks, p, items, s.pos, t.toks);
  }

  /** The tokens of one item and of those behind it are the tokens of all. */
  lemma RestStored(b: Build, toks: seq<Token>, p: nat, items: Items, at: nat, all: seq<Token>)
    requires p < |toks| && items.Item?
    requires var own := OwnTokens(b, items.key, items.before, items.value, at, |toks|, p);
             var next := at + |KeyText(items.key)| + |items.before| + |Text(items.value)| + |items.after| + 1;
             var first := Grow(toks, p, 1) + own;
             if items.rest.Nil? then all == first
             else all == Grow(first, p, Count(items.rest)) + ItemTokens(b, items.rest, next, |first|, p)
    ensures all == Grow(toks, p, Count(items)) + ItemTokens(b, items, at, |toks|, p)
  {
    hide KeyText, Text, OwnTokens;
    var own := OwnTokens(b, items.key, items.before, items.value, at, |toks|, p);
    var next := at + |KeyText(items.key)| + |items.before| + |Text(items.value)| + |items.after| + 1;
    var rest := ItemTokens(b, items.rest, next, |toks| + |own|, p);
    assert ItemTokens(b, items, at, |toks|, p) == own + rest;
    GrowTwice(toks, p, own, Count(items.rest));
    hide Grow, ItemTokens;
    ConcatIsAssociative(Grow(toks, p, 1 + Count(items.rest)), own, rest);
  }

  /** What follows the white space behind an item. */
  function Tail(rest: Items, tail: string): string {
    if rest.Nil? then tail else [','] + (Inside([], rest) + tail)
  }

  /** What follows the white space behind an item, inside the brackets. */
  function Behind(rest: Items): string { if rest.Nil? then [] else [','] + Inside([], rest) }

  lemma TailSplit(rest: Items, tail: string)
    ensures Tail(rest, tail) == Behind(rest) + tail && |Behind(rest)| == if rest.Nil? then 0 else 1 + |Inside([], rest)|
  {
    hide Inside;
    if rest.Nil? {
      assert [] + tail == tail;
    } else {
      assert ([','] + Inside([], rest)) + tail == [','] + (Inside([], rest) + tail);
    }
  }

  lemma InsideParts(blank: string, items: Items)
    requires items.Item?
    ensures Inside(blank, items) == KeyText(items.key) + items.before + Text(items.value) + items.after + Behind(items.rest)
  {
    hide KeyText, Text;
  }

  lemma InsideSplit(blank: string, items: Items, tail: string)
    requires items.Item?
    ensures var Item(key, before, value, after, rest) := items;
            && Inside(blank, items) + tail == KeyText(key) + (before + (Text(value) + (after + Tail(rest, tail))))
            && |Inside(blank, items)| == |KeyText(key)| + |before| + |Text(value)| + |after| +
                                         if rest.Nil? then 0 else 1 + |Inside([], rest)|
  {
    hide KeyText, Text, Inside, Tail, Behind;
    InsideParts(blank, items);
    TailSplit(items.rest, tail);
    ItemTextIsAssociative(KeyText(items.key), items.before, Text(items.value), items.after, Behind(items.rest), tail);
  }

  lemma ItemTextIsAssociative(k: string, before: string, v: string, after: string, r: string, close: string)
    ensures (((k + before) + v) + after + r) + close == k + (before + (v + (after + (r + close))))
  {
  }

  lemma GrowTwice(toks: seq<Token>, p: nat, own: seq<Token>, k: nat)
    requires p < |toks|
    ensures Grow(Grow(toks, p, 1) + own, p, k) == Grow(toks, p, 1 + k) + own
  {
  }

  lemma OpenRuns(b: Build, js: string, cap: int, s: State, kind: Kind)
    requires WellFormed(s) && Sound(b, js, s) && |s.toks| < cap
    requires (kind == Object || kind == Array) && At(js, s.pos, [OpenByte(kind)])
    ensures Reaches(b, js, cap, s, State(s.pos + 1, Add(b, s, kind, s.pos, -1), |s.toks|))
    ensures Inner(b, js, State(s.pos + 1, Add(b, s, kind, s.pos, -1), |s.toks|), |s.toks|, kind)
  {
    AtByte(js, s.pos, [OpenByte(kind)], 0);
    OneStep(b, js, cap, s, Step(b, js, cap, s).next);
  }

  lemma CloseRuns(b: Build, js: string, cap: int, s: State, p: nat, kind: Kind) returns (t: State)
    requires WellFormed(s) && Sound(b, js, s) && p == LastOpen(s.toks, |s.toks|) && s.toks[p].kind == kind
    requires (kind == Object || kind == Array) && At(js, s.pos, [CloseByte(kind)])
    ensures Reaches(b, js, cap, s, t)
    ensures t.pos == s.pos + 1 && t.toks == s.toks[p := s.toks[p].(end := s.pos + 1)]
    ensures t.super == if b.links then s.toks[p].parent else LastOpen(s.toks, p)
  {
    AtByte(js, s.pos, [CloseByte(kind)], 0);
    t := Step(b, js, cap, s).next;
    OneStep(b, js, cap, s, t);
  }

  /** The run over the text of a value stores its preorder, counts it as one
      child of the superior token, and leaves that token or the innermost open
      container as the superior one. */
  lemma {:induction false} ValueRuns(b: Build, js: string, cap: int, s: State, j: Json) returns (t: State)
    requires WellFormed(s) && Sound(b, js, s) && |s.toks| + Nodes(j) <= cap
    requires Legal(b.strict, j) && At(js, s.pos, Text(j))
    requires j.Bare? ==> Delimits(b.strict, js, s.pos + |Text(j)|) && (b.strict ==> !IsKeyPlace(s))
    ensures Reaches(b, js, cap, s, t)
    ensures t.pos == s.pos + |Text(j)|
    ensures t.toks == Bump(s.toks, s.super) + Tokens(b, j, s.pos, |s.toks|, s.super)
    ensures t.super == s.super || t.super == LastOpen(s.toks, |s.toks|)
    decreases j, 1
  {
    hide Sound, RunFrom, At, BodyText, Inside, ItemTokens, Delimits, IsKeyPlace, LegalItems, LegalWord, Blank;
    match j
    case Bare(text) =>
      WordStepRuns(b, js, cap, s, text);
      t := State(s.pos + |text|, Add(b, s, Primitive, s.pos, s.pos + |text|), s.super);
    case Quoted(body) =>
      QuotedRuns(b, js, cap, s, body);
      t := State(s.pos + |BodyText(body)| + 2, Add(b, s, Str, s.pos + 1, s.pos + 1 + |BodyText(body)|), s.super);
    case Node(_, _, _) =>
      t := NodeRuns(b, js, cap, s, j);
  }

  lemma {:induction false} NodeRuns(b: Build, js: string, cap: int, s: State, j: Json) returns (t: State)
    requires WellFormed(s) && Sound(b, js, s) && |s.toks| + Nodes(j) <= cap
    requires j.Node? && Legal(b.strict, j) && At(js, s.pos, Text(j))
    ensures Reaches(b, js, cap, s, t)
    ensures t.pos == s.pos + |Text(j)|
    ensures t.toks == Bump(s.toks, s.super) + Tokens(b, j, s.pos, |s.toks|, s.super)
    ensures t.super == s.super || t.super == LastOpen(s.toks, |s.toks|)
    decreases j, 0
  {
    hide Sound, RunFrom, At, Inside, ItemTokens, LegalItems, Blank, WellFormed, Reaches, Inner, Grow, Add, Text, CloseByte, EndsWord, CommaSuper, IsKeyPlace;
    var Node(kind, blank, items) := j;
    var n := |s.toks|;
    var inside := Inside(blank, items);
    NodeText(kind, blank, items);
    AtSplit(js, s.pos, [OpenByte(kind)], inside + [CloseByte(kind)]);
    OpenRuns(b, js, cap, s, kind);
    var begun := State(s.pos + 1, Add(b, s, kind, s.pos, -1), n);
    CloseEnds(kind);
    var filled := ItemsRun(b, js, cap, begun, n, kind, blank, items, [CloseByte(kind)]);
    Chain(b, js, cap, s, begun, filled);
    ReachesSound(b, js, cap, s, filled);
    AtSplit(js, begun.pos, inside, [CloseByte(kind)]);
    FilledInner(b, s, begun.toks, filled.toks, kind, items);
    t := CloseRuns(b, js, cap, filled, n, kind);
    Chain(b, js, cap, s, filled, t);
  }

  lemma CloseEnds(kind: Kind)
    ensures EndsWord(true, CloseByte(kind))
  {
  }

  lemma NodeText(kind: Kind, blank: string, items: Items)
    ensures Text(Node(kind, blank, items)) == [OpenByte(kind)] + (Inside(blank, items) + [CloseByte(kind)])
  {
    hide Inside;
  }

  /** The container just filled is still the innermost open one. */
  lemma {:induction false} FilledInner(b: Build, s: State, begun: seq<Token>, filled: seq<Token>, kind: Kind, items: Items)
    requires WellFormed(s) && begun == Add(b, s, kind, s.pos, -1)
    requires filled == Grow(begun, |s.toks|, Count(items)) + ItemTokens(b, items, s.pos + 1, |s.toks| + 1, |s.toks|)
    ensures LastOpen(filled, |filled|) == |s.toks|
    ensures filled[|s.toks|] == Token(kind, s.pos, -1, Count(items), ParentOf(b, s))
    ensures LastOpen(filled, |s.toks|) == LastOpen(s.toks, |s.toks|)
    ensures forall end :: filled[|s.toks| := filled[|s.toks|].(end := end)] ==
              Bump(s.toks, s.super) + [Token(kind, s.pos, end, Count(items), ParentOf(b, s))] +
              ItemTokens(b, items, s.pos + 1, |s.toks| + 1, |s.toks|)
  {
    var root := Token(kind, s.pos, -1, Count(items), ParentOf(b, s));
    assert Grow(begun, |s.toks|, Count(items)) == Bump(s.toks, s.super) + [root];
    hide ItemTokens, Grow, Add, Bump, Count;
    ClosingRoot(Bump(s.toks, s.super), root, ItemTokens(b, items, s.pos + 1, |s.toks| + 1, |s.toks|));
    BumpScans(s);
  }

  lemma BumpScans(s: State)
    requires WellFormed(s)
    ensures LastOpen(Bump(s.toks, s.super), |s.toks|) == LastOpen(s.toks, |s.toks|)
  {
    LastOpenAgrees(s.toks, Bump(s.toks, s.super), |s.toks|);
  }

  lemma ClosingRoot(before: seq<Token>, root: Token, own: seq<Token>)
    requires IsOpen(root) && forall i :: 0 <= i < |own| ==> own[i].end >= 0
    ensures var all := before + [root] + own;
            && all[|before|] == root
            && LastOpen(all, |all|) == |before| && LastOpen(all, |before|) == LastOpen(before, |before|)
            && forall end :: all[|before| := root.(end := end)] == before + [root.(end := end)] + own
  {
    var all := before + [root] + own;
    LastOpenOfAppended(before + [root], own, |all|);
    LastOpenAgrees(before, all, |before|);
  }

  // ---------- the whole text ----------

  /** A text is a tree with white space before and after it. */
  function Document(lead: string, j: Json, trail: string): string { lead + (Text(j) + trail) }

  /** Round trip, in every build: parsing the text of a tree with enough room
      consumes all of it, returns the number of nodes, and leaves the preorder
      of the tree in the token array. */
  lemma RoundTrip(b: Build, lead: string, j: Json, trail: string, cap: int)
    requires Legal(b.strict, j) && Blank(lead) && Blank(trail) && Nodes(j) <= cap
    requires b.strict && j.Bare? ==> trail != []
    ensures var js := Document(lead, j, trail);
            Parse(b, js, cap, FRESH) == Call(State(|js|, Tokens(b, j, |lead|, 0, -1), -1), Done(Nodes(j)))
  {
    hide RunFrom, At, Text, Tokens, Sound, Delimits, Document, Reaches, WellFormed, Parse, Legal, Blank;
    var js := Document(lead, j, trail);
    DocumentParts(b.strict, lead, j, trail);
    SoundAtStart(b, js);
    BlankRuns(b, js, cap, FRESH, lead);
    var begun := State(|lead|, [], -1);
    ReachesSound(b, js, cap, FRESH, begun);
    var t := ValueRuns(b, js, cap, begun, j);
    Chain(b, js, cap, FRESH, begun, t);
    ReachesSound(b, js, cap, FRESH, t);
    BlankRuns(b, js, cap, t, trail);
    Chain(b, js, cap, FRESH, t, t.(pos := t.pos + |trail|));
    AllRead(b, js, cap, State(|js|, t.toks, -1));
  }

  lemma DocumentParts(strict: bool, lead: string, j: Json, trail: string)
    requires Blank(trail) && (strict && j.Bare? ==> trail != [])
    ensures var js, i := Document(lead, j, trail), |lead| + |Text(j)|;
            && At(js, 0, lead) && At(js, |lead|, Text(j)) && At(js, i, trail) && |js| == i + |trail|
            && (j.Bare? ==> Delimits(strict, js, i))
  {
    var js := Document(lead, j, trail);
    hide Text;
    assert At(js, 0, js);
    AtSplit(js, 0, lead, Text(j) + trail);
    AtSplit(js, |lead|, Text(j), trail);
    if trail != [] {
      AtByte(js, |lead| + |Text(j)|, trail, 0);
    }
  }

  lemma SoundAtStart(b: Build, js: string)
    ensures WellFormed(FRESH) && Sound(b, js, FRESH)
  {
  }

  lemma AllRead(b: Build, js: string, cap: int, s: State)
    requires s.pos == |js| && forall i :: 0 <= i < |s.toks| ==> s.toks[i].end >= 0
    requires Reaches(b, js, cap, FRESH, s)
    ensures Parse(b, js, cap, FRESH) == Call(s, Done(|s.toks|))
  {
    hide Step, Sound;
    NothingOpen(s.toks);
  }

  lemma NothingOpen(toks: seq<Token>)
    requires forall i :: 0 <= i < |toks| ==> toks[i].end >= 0
    ensures LastOpen(toks, |toks|) == -1
  {
    LastOpenOfAppended([], toks, |toks|);
    assert [] + toks == toks;
  }

  /** The one text of a tree that strict mode does not accept: a number, true,
      false or null that nothing follows. */
  lemma StrictNeedsDelimiter(b: Build, lead: string, text: string, cap: int)
    requires b.strict && LegalWord(b.strict, text) && Blank(lead) && 1 <= cap
    ensures Parse(b, Document(lead, Bare(text), []), cap, FRESH).verdict == Error(Part)
  {
    var js := Document(lead, Bare(text), []);
    assert At(js, 0, js);
    AtSplit(js, 0, lead, text + []);
    assert At(js, |lead|, text) by {
      AtSplit(js, |lead|, text, []);
    }
    SoundAtStart(b, js);
    BlankRuns(b, js, cap, FRESH, lead);
    AtByte(js, |lead|, text, 0);
    forall k | |lead| <= k < |js| ensures WordByte(true, js[k]) {
      AtByte(js, |lead|, text, k - |lead|);
    }
    PrimitiveEndIs(true, js, |lead|, |js|);
    assert Step(b, js, cap, State(|lead|, [], -1)) == Fail(Part);
  }

  // ---------- what the round trip gives ----------

  /** The same tokens, but for their parent links. */
  ghost predicate SameButLinks(s: seq<Token>, t: seq<Token>) {
    |s| == |t| && forall i :: 0 <= i < |s| ==> s[i] == t[i].(parent := s[i].parent)
  }

  lemma SameButLinksConcat(s: seq<Token>, s': seq<Token>, t: seq<Token>, t': seq<Token>)
    requires SameButLinks(s, s') && SameButLinks(t, t')
    ensures SameButLinks(s + t, s' + t')
  {
  }

  lemma {:induction false} TokensSameButLinks(b: Build, c: Build, j: Json, at: nat, n: nat, parent: int)
    ensures SameButLinks(Tokens(b, j, at, n, parent), Tokens(c, j, at, n, parent))
    decreases j, 0
  {
    hide ItemTokens, Text, BodyText;
    if j.Node? {
      ItemTokensSameButLinks(b, c, j.items, at + 1, n + 1, n);
      var root, root' := Tokens(b, j, at, n, parent)[0], Tokens(c, j, at, n, parent)[0];
      SameButLinksConcat([root], [root'], ItemTokens(b, j.items, at + 1, n + 1, n), ItemTokens(c, j.items, at + 1, n + 1, n));
    }
  }

  lemma {:induction false} OwnTokensSameButLinks(b: Build, c: Build, key: Key, before: string, value: Json,
                                                 at: nat, n: nat, p: int)
    ensures SameButLinks(OwnTokens(b, key, before, value, at, n, p), OwnTokens(c, key, before, value, at, n, p))
    decreases value, 1
  {
    hide Tokens, KeyText, BodyText;
    var from := at + |KeyText(key)| + |before|;
    if key.NoKey? {
      TokensSameButLinks(b, c, value, from, n, p);
    } else {
      TokensSameButLinks(b, c, value, from, n + 1, n);
      SameButLinksConcat([KeyToken(b, key, at, 1, p)], [KeyToken(c, key, at, 1, p)],
                         Tokens(b, value, from, n + 1, n), Tokens(c, value, from, n + 1, n));
    }
  }

  lemma {:induction false} ItemTokensSameButLinks(b: Build, c: Build, items: Items, at: nat, n: nat, p: int)
    ensures SameButLinks(ItemTokens(b, items, at, n, p), ItemTokens(c, items, at, n, p))
    decreases items, 0
  {
    hide OwnTokens, Text, KeyText, SameButLinks;
    match items
    case Nil =>
      NoTokensSame();
    case Item(key, before, value, after, rest) =>
      var own, own' := OwnTokens(b, key, before, value, at, n, p), OwnTokens(c, key, before, value, at, n, p);
      var next := at + |KeyText(key)| + |before| + |Text(value)| + |after| + 1;
      OwnTokensSameButLinks(b, c, key, before, value, at, n, p);
      ItemTokensSameButLinks(b, c, rest, next, n + |own|, p);
      SameButLinksConcat(own, own', ItemTokens(b, rest, next, n + |own|, p), ItemTokens(c, rest, next, n + |own|, p));
  }

  lemma NoTokensSame()
    ensures SameButLinks([], [])
  {
  }

  /** On JSON all builds return the same and store the same tokens, but for
      the links. */
  lemma BuildsAgreeOnJson(b: Build, c: Build, lead: string, j: Json, trail: string, cap: int)
    requires Legal(b.strict, j) && Legal(c.strict, j) && Blank(lead) && Blank(trail) && Nodes(j) <= cap
    requires (b.strict || c.strict) && j.Bare? ==> trail != []
    ensures var js := Document(lead, j, trail);
            var x, y := Parse(b, js, cap, FRESH), Parse(c, js, cap, FRESH);
            x.verdict == y.verdict && x.state.pos == y.state.pos && SameButLinks(x.state.toks, y.state.toks)
  {
    RoundTrip(b, lead, j, trail, cap);
    RoundTrip(c, lead, j, trail, cap);
    TokensSameButLinks(b, c, j, |lead|, 0, -1);
  }

  /** The literals and numbers of JSON parse to one token in every build. */
  lemma LiteralsParse(b: Build, lead: string, text: string, trail: string, cap: int)
    requires text == "true" || text == "false" || text == "null" || IsNumber(text)
    requires Blank(lead) && Blank(trail) && 1 <= cap && (b.strict ==> trail != [])
    ensures var js := lead + text + trail;
            Parse(b, js, cap, FRESH) ==
            Call(State(|js|, [Token(Primitive, |lead|, |lead| + |text|, 0, -1)], -1), Done(1))
  {
    hide Parse, Blank;
    LiteralsAreWords(b.strict, text);
    assert lead + text + trail == Document(lead, Bare(text), trail);
    RoundTrip(b, lead, Bare(text), trail, cap);
  }

  // ---------- as many tokens as a text can have ----------

  /** The text "[1]", k times. */
  function Units(k: nat): string { if k == 0 then [] else "[1]" + Units(k - 1) }

  const UNIT: Json := Node(Array, [], Item(NoKey, [], Bare("1"), [], Nil))

  lemma OneIsLegal(strict: bool)
    ensures Legal(strict, Bare("1")) && Nodes(Bare("1")) == 1 && Text(Bare("1")) == "1"
  {
    LiteralsAreWords(strict, "1");
    hide LegalWord;
  }

  lemma UnitIsLegal(strict: bool)
    ensures Legal(strict, UNIT) && Nodes(UNIT) == 2
  {
    OneIsLegal(strict);
    hide LegalWord;
    assert LegalItems(strict, Array, Nil);
  }

  lemma UnitText()
    ensures Text(UNIT) == "[1]"
  {
    assert Inside([], UNIT.items) == "1";
  }

  lemma {:induction false} UnitsRun(b: Build, js: string, cap: int, s: State, k: nat) returns (t: State)
    requires !b.strict && WellFormed(s) && Sound(b, js, s) && |s.toks| + 2 * k + 1 <= cap
    requires s.super == -1 && forall i :: 0 <= i < |s.toks| ==> s.toks[i].end >= 0
    requires At(js, s.pos, Units(k) + "1") && s.pos + |Units(k)| + 1 == |js|
    ensures Reaches(b, js, cap, s, t) && t.pos == |js| && |t.toks| == |s.toks| + 2 * k + 1
    ensures forall i :: 0 <= i < |t.toks| ==> t.toks[i].end >= 0
    decreases k
  {
    hide Sound, RunFrom, At, Text, Tokens, Legal, Nodes, WellFormed, Reaches;
    OneIsLegal(b.strict);
    UnitIsLegal(b.strict);
    UnitText();
    NothingOpen(s.toks);
    if k == 0 {
      assert Units(0) + "1" == "1";
      t := ValueRuns(b, js, cap, s, Bare("1"));
    } else {
      assert Units(k) + "1" == "[1]" + (Units(k - 1) + "1");
      AtSplit(js, s.pos, "[1]", Units(k - 1) + "1");
      var next := ValueRuns(b, js, cap, s, UNIT);
      ReachesSound(b, js, cap, s, next);
      t := UnitsRun(b, js, cap, next, k - 1);
      Chain(b, js, cap, s, next, t);
    }
  }

  /** The bound on the tokens of a text is reached at every third length. */
  lemma TokenBoundIsTight(b: Build, k: nat, cap: int)
    requires !b.strict && 2 * k + 1 <= cap
    ensures var js := Units(k) + "1";
            |js| == 3 * k + 1 && Parse(b, js, cap, FRESH).verdict == Done(2 * k + 1) && 3 * (2 * k + 1) == 2 * |js| + 1
  {
    hide Sound, Parse, RunFrom;
    var js := Units(k) + "1";
    UnitsLength(k);
    SoundAtStart(b, js);
    var t := UnitsRun(b, js, cap, FRESH, k);
    AllRead(b, js, cap, t);
  }

  lemma {:induction false} UnitsLength(k: nat)
    ensures |Units(k)| == 3 * k
  {
    if k == 0 {
    } else {
      UnitsLength(k - 1);
    }
  }
}
