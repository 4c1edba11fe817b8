/** What the parser refuses, where data end early, and what colons and commas do
    in places where JSON has none. */
module JsmnEdges {
  import opened JsmnTypes
  import opened JsmnBytes
  import opened JsmnLexer
  import opened JsmnSpec
  import opened JsmnInvariants
  import opened JsmnJson
  import opened JsmnLexemes
  import opened JsmnRoundTrip

  // ---------- result codes ----------

  /** A count is never negative, and the codes of the three errors are those
      of the header. */
  lemma ResultCodes(v: Verdict)
    ensures v.Done? <==> Result(v) >= 0
    ensures Result(Error(NoMem)) == -1 && Result(Error(Inval)) == -2 && Result(Error(Part)) == -3
  {
  }

  // ---------- bytes that are refused ----------

  /** Bytes that have a meaning of their own: brackets, quote, colon, comma. */
  predicate Structural(c: char) { c as int in {0x7B, 0x7D, 0x5B, 0x5D, 0x22, 0x3A, 0x2C} }

  /** A byte that begins nothing is invalid: outside visible ASCII in every
      build, and in strict mode one that begins no literal and no number. */
  lemma StrayByte(b: Build, lead: string, c: char, rest: string, cap: int)
    requires Blank(lead) && !Structural(c) && !White(c) && c as int != 0
    requires !(0x21 <= c as int <= 0x7E) || (b.strict && c as int !in {0x2D, 0x66, 0x6E, 0x74} && !(0x30 <= c as int <= 0x39))
    ensures Parse(b, lead + ([c] + rest), cap, FRESH).verdict == Error(Inval)
  {
    hide Blank;
    var js := lead + ([c] + rest);
    assert At(js, 0, lead) && js[|lead|] == c;
    SoundAtStart(b, js);
    BlankRuns(b, js, cap, FRESH, lead);
    PrimitiveEndIs(b.strict, js, |lead|, |lead|);
    assert Step(b, js, cap, State(|lead|, [], -1)) == Fail(Inval);
  }

  /** Strict mode refuses a primitive in an object wherever a key is due: behind
      the opening bracket, behind a comma, and behind a member. */
  lemma StrictRefusesWord(b: Build, lead: string, blank: string, items: Items, comma: bool, gap: string, c: char, rest: string, cap: int)
    requires b.strict && Blank(lead) && Blank(blank) && LegalItems(true, Object, items) && Blank(gap)
    requires comma || gap != [] || items.Nil?
    requires !Structural(c) && !White(c) && c as int != 0 && 1 + ItemNodes(items) <= cap
    ensures var tail := (if comma then [','] else []) + (gap + ([c] + rest));
            Parse(b, lead + (['{'] + (Inside(blank, items) + tail)), cap, FRESH).verdict == Error(Inval)
  {
    hide Blank, LegalItems, Inside, RunFrom, Sound, WellFormed, Reaches, Step, At, IsKeyPlace, Structural, White, EndsWord;
    var word := gap + ([c] + rest);
    var tail := (if comma then [','] else []) + word;
    var js := lead + (['{'] + (Inside(blank, items) + tail));
    WordPlaces(js, lead, Inside(blank, items), comma, gap, c, rest);
    var s2 := ObjectBegun(b, js, cap, lead, blank, items, tail);
    var s3 := KeyPlaceBehind(b, js, cap, s2, comma, word, tail);
    AtSplit(js, s3.pos, gap, [c] + rest);
    BlankRuns(b, js, cap, s3, gap);
    var s4 := s3.(pos := s3.pos + |gap|);
    Chain(b, js, cap, FRESH, s3, s4);
    ReachesSound(b, js, cap, FRESH, s4);
    AtByte(js, s4.pos, [c] + rest, 0);
    KeyPlaceStays(s3, s4);
    AtLength(js, s4.pos, [c] + rest);
    WordRefused(b, js, cap, s4);
  }

  /** The run to the end of the members: a key is due. */
  lemma ObjectBegun(b: Build, js: string, cap: int, lead: string, blank: string, items: Items, tail: string) returns (t: State)
    requires b.strict && Blank(lead) && Blank(blank) && LegalItems(true, Object, items) && 1 + ItemNodes(items) <= cap
    requires At(js, 0, lead) && At(js, |lead|, ['{']) && At(js, |lead| + 1, Inside(blank, items) + tail)
    requires items.Item? ==> tail != [] && EndsWord(true, tail[0])
    ensures Reaches(b, js, cap, FRESH, t) && WellFormed(t) && Sound(b, js, t) && At(js, t.pos, tail)
    ensures IsKeyPlace(t) && CommaSuper(b, t) == 0 && t.toks != [] && t.toks[0].kind == Object
  {
    hide Blank, LegalItems, Inside, RunFrom, Sound, WellFormed, Reaches, Step, At, Inner, ItemTokens, IsKeyPlace, CommaSuper,
         Count, Structural, White, EndsWord;
    SoundAtStart(b, js);
    BlankRuns(b, js, cap, FRESH, lead);
    var s0 := State(|lead|, [], -1);
    ReachesSound(b, js, cap, FRESH, s0);
    OpenRuns(b, js, cap, s0, Object);
    var s1 := State(|lead| + 1, Add(b, s0, Object, |lead|, -1), 0);
    Chain(b, js, cap, FRESH, s0, s1);
    t := ItemsRun(b, js, cap, s1, 0, Object, blank, items, tail);
    Chain(b, js, cap, FRESH, s1, t);
    ReachesSound(b, js, cap, FRESH, t);
  }

  /** A comma does not change that. */
  lemma KeyPlaceBehind(b: Build, js: string, cap: int, s: State, comma: bool, word: string, tail: string) returns (t: State)
    requires b.strict && Reaches(b, js, cap, FRESH, s) && WellFormed(s) && Sound(b, js, s) && At(js, s.pos, tail)
    requires tail == if comma then [','] + word else word
    requires IsKeyPlace(s) && CommaSuper(b, s) == 0 && s.toks != [] && s.toks[0].kind == Object
    ensures Reaches(b, js, cap, FRESH, t) && WellFormed(t) && Sound(b, js, t) && IsKeyPlace(t) && At(js, t.pos, word)
  {
    t := s;
    if comma {
      t := State(s.pos + 1, s.toks, 0);
      assert s.toks[0].kind == Object;
      hide RunFrom, Sound, Reaches, Step, At, CommaSuper;
      AtSplit(js, s.pos, [','], word);
      MarkRuns(b, js, cap, s, ',');
      Chain(b, js, cap, FRESH, s, t);
      ReachesSound(b, js, cap, FRESH, t);
    }
  }

  lemma WordPlaces(js: string, lead: string, inside: string, comma: bool, gap: string, c: char, rest: string)
    requires Blank(gap) && js == lead + (['{'] + (inside + ((if comma then [','] else []) + (gap + ([c] + rest)))))
    ensures var tail := (if comma then [','] else []) + (gap + ([c] + rest));
            && At(js, 0, lead) && At(js, |lead|, ['{']) && At(js, |lead| + 1, inside + tail)
            && tail != [] && (comma || gap != [] ==> EndsWord(true, tail[0]))
            && (comma ==> tail == [','] + (gap + ([c] + rest))) && (!comma ==> tail == gap + ([c] + rest))
  {
    hide White;
    var tail := (if comma then [','] else []) + (gap + ([c] + rest));
    assert At(js, 0, js);
    AtSplit(js, 0, lead, ['{'] + (inside + tail));
    AtSplit(js, |lead|, ['{'], inside + tail);
    assert [] + (gap + ([c] + rest)) == gap + ([c] + rest);
  }

  lemma KeyPlaceStays(s: State, t: State)
    requires WellFormed(s) && WellFormed(t) && t.toks == s.toks && t.super == s.super && IsKeyPlace(s)
    ensures IsKeyPlace(t)
  {
  }

  lemma WordRefused(b: Build, js: string, cap: int, s: State)
    requires WellFormed(s) && b.strict && s.pos < |js| && IsKeyPlace(s) && Reaches(b, js, cap, FRESH, s)
    requires !Structural(js[s.pos]) && !White(js[s.pos]) && js[s.pos] as int != 0
    ensures Parse(b, js, cap, FRESH).verdict == Error(Inval)
  {
    hide Sound, IsKeyPlace, WellFormed, OpenStep, CloseStep, StringStep, CommaSuper, PrimitiveEnd;
    assert Step(b, js, cap, s) == Fail(Inval);
  }

  // ---------- words without quotes ----------

  /** Outside strict mode a word is a key like any other: it has a token of its
      own and owns the value, and the object counts one member. */
  lemma WordKey(b: Build, key: string, value: string, cap: int)
    requires !b.strict && LegalWord(false, key) && LegalWord(false, value) && 3 <= cap
    ensures var js := "{" + key + ":" + value + "}";
            var k := |key|;
            Parse(b, js, cap, FRESH) ==
            Call(State(|js|, [Token(Object, 0, |js|, 1, -1),
                              Token(Primitive, 1, 1 + k, 1, if b.links then 0 else -1),
                              Token(Primitive, k + 2, k + 2 + |value|, 0, if b.links then 1 else -1)], -1), Done(3))
  {
    hide Parse, LegalWord;
    var items := Item(Key([], WordName(key), []), [], Bare(value), [], Nil);
    var j := Node(Object, [], items);
    WordKeyText(key, value);
    assert LegalItems(false, Object, Nil);
    assert LegalItems(false, Object, items);
    WordKeyTokens(b, key, value);
    RoundTrip(b, [], j, [], cap);
  }

  lemma WordKeyText(key: string, value: string)
    ensures var items := Item(Key([], WordName(key), []), [], Bare(value), [], Nil);
            && Inside([], items) == key + ":" + value
            && Document([], Node(Object, [], items), []) == "{" + key + ":" + value + "}"
  {
    var items := Item(Key([], WordName(key), []), [], Bare(value), [], Nil);
    assert KeyText(items.key) == key + [':'];
    assert Text(Bare(value)) == value;
    assert Inside([], items) == key + ":" + value;
    hide Inside;
    assert Text(Node(Object, [], items)) == ['{'] + Inside([], items) + ['}'];
  }

  lemma WordKeyTokens(b: Build, key: string, value: string)
    ensures var items := Item(Key([], WordName(key), []), [], Bare(value), [], Nil);
            var k := |key|;
            && Nodes(Node(Object, [], items)) == 3
            && Tokens(b, Node(Object, [], items), 0, 0, -1) ==
               [Token(Object, 0, k + |value| + 3, 1, -1),
                Token(Primitive, 1, 1 + k, 1, if b.links then 0 else -1),
                Token(Primitive, k + 2, k + 2 + |value|, 0, if b.links then 1 else -1)]
  {
    WordKeyText(key, value);
    var items := Item(Key([], WordName(key), []), [], Bare(value), [], Nil);
    var own := OwnTokens(b, items.key, [], Bare(value), 1, 1, 0);
    assert KeyText(items.key) == key + [':'];
    assert KeyToken(b, items.key, 1, 1, 0) == Token(Primitive, 1, 1 + |key|, 1, Up(b, 0));
    assert Tokens(b, Bare(value), |key| + 2, 2, 1) == [Token(Primitive, |key| + 2, |key| + 2 + |value|, 0, Up(b, 1))];
    assert 1 + |KeyText(items.key)| + 0 == |key| + 2;
    assert own == [Token(Primitive, 1, 1 + |key|, 1, Up(b, 0))] + [Token(Primitive, |key| + 2, |key| + 2 + |value|, 0, Up(b, 1))];
    assert ItemTokens(b, items, 1, 1, 0) == own + [];
    assert Document([], Node(Object, [], items), []) == Text(Node(Object, [], items));
    assert Count(items) == 1 + Count(Nil) == 1;
    assert Nodes(Node(Object, [], items)) == 1 + ItemNodes(items) && ItemNodes(items) == 1 + Nodes(Bare(value)) + ItemNodes(Nil);
  }

  /** In strict mode a colon does not end a primitive: what stands on both sides
      of it is one token. */
  lemma StrictColonIsInside(b: Build, lead: string, left: string, right: string, trail: string, cap: int)
    requires b.strict && LegalWord(true, left) && (forall i :: 0 <= i < |right| ==> WordByte(true, right[i]))
    requires Blank(lead) && Blank(trail) && trail != [] && 1 <= cap
    ensures var word := left + ":" + right;
            var js := lead + word + trail;
            Parse(b, js, cap, FRESH) ==
            Call(State(|js|, [Token(Primitive, |lead|, |lead| + |word|, 0, -1)], -1), Done(1))
  {
    hide Parse, Blank;
    var word := left + ":" + right;
    assert LegalWord(true, word);
    hide LegalWord;
    assert lead + word + trail == Document(lead, Bare(word), trail);
    RoundTrip(b, lead, Bare(word), trail, cap);
  }

  // ---------- a NUL ends the data ----------

  /** The text js with a NUL behind it, and anything behind that. */
  function WithNul(js: string, rest: string): string { js + (['\0'] + rest) }

  /** The one text for which the NUL is seen: a backslash in front of it. */
  predicate NoBackslashAtEnd(js: string) { js == [] || js[|js| - 1] as int != 0x5C }

  lemma {:induction false} PrimitiveEndNul(strict: bool, js: string, rest: string, i: nat)
    requires i <= |js|
    ensures PrimitiveEnd(strict, WithNul(js, rest), i) == PrimitiveEnd(strict, js, i)
    decreases |js| - i
  {
    if i == |js| {
    } else {
      PrimitiveEndNul(strict, js, rest, i + 1);
    }
  }

  lemma {:induction false} HexEndNul(js: string, rest: string, i: nat, n: nat)
    requires i <= |js|
    ensures HexEnd(WithNul(js, rest), i, n) == HexEnd(js, i, n)
    decreases n
  {
    if n == 0 || i == |js| {
    } else {
      HexEndNul(js, rest, i + 1, n - 1);
    }
  }

  lemma {:induction false} StringEndNul(js: string, rest: string, i: nat)
    requires i <= |js| && NoBackslashAtEnd(js)
    ensures StringEnd(WithNul(js, rest), i) == StringEnd(js, i)
    decreases |js| - i
  {
    if i == |js| {
    } else if js[i] == '\\' {
      if i + 2 <= |js| {
        StringEndNul(js, rest, i + 2);
        HexEndNul(js, rest, i + 2, 4);
        if HexEnd(js, i + 2, 4).Found? {
          StringEndNul(js, rest, HexEnd(js, i + 2, 4).at);
        }
      }
    } else {
      StringEndNul(js, rest, i + 1);
    }
  }

  lemma StepNul(b: Build, js: string, rest: string, cap: int, s: State)
    requires WellFormed(s) && s.pos < |js| && js[s.pos] as int != 0 && NoBackslashAtEnd(js)
    ensures Step(b, WithNul(js, rest), cap, s) == Step(b, js, cap, s)
  {
    hide StringEnd, PrimitiveEnd, CloseStep, CommaSuper, Add, IsKeyPlace;
    assert WithNul(js, rest)[s.pos] == js[s.pos];
    StringEndNul(js, rest, s.pos + 1);
    PrimitiveEndNul(b.strict, js, rest, s.pos);
  }

  /** Data end at a NUL, whatever stands behind it: the call is the same as on
      the text before the NUL, if that text does not end with a backslash. */
  lemma {:induction false} NulEndsData(b: Build, js: string, rest: string, cap: int, s: State)
    requires WellFormed(s) && s.pos <= |js| && NoBackslashAtEnd(js)
    ensures Parse(b, WithNul(js, rest), cap, s) == Parse(b, js, cap, s)
    decreases |js| - s.pos
  {
    hide Step, LastOpen;
    assert s.pos < |js| ==> WithNul(js, rest)[s.pos] == js[s.pos];
    assert WithNul(js, rest)[|js|] == '\0';
    if s.pos < |js| && js[s.pos] as int != 0 {
      StepNul(b, js, rest, cap, s);
      if Step(b, js, cap, s).Go? {
        StepStaysInside(b, js, cap, s);
        NulEndsData(b, js, rest, cap, Step(b, js, cap, s).next);
      }
    }
  }

  lemma StepStaysInside(b: Build, js: string, cap: int, s: State)
    requires WellFormed(s) && More(js, s.pos) && Step(b, js, cap, s).Go?
    ensures s.pos < Step(b, js, cap, s).next.pos <= |js|
  {
  }

  /** With the backslash it is not: what would be cut is invalid. */
  lemma NulBehindBackslash(b: Build, cap: int)
    ensures Parse(b, "\"\\", cap, FRESH).verdict == Error(Part)
    ensures Parse(b, WithNul("\"\\", []), cap, FRESH).verdict == Error(Inval)
  {
    var js := WithNul("\"\\", []);
    assert js[0] == '\"' && js[1] == '\\' && js[2] == '\0' && |js| == 3;
    assert StringEnd("\"\\", 2) == Cut;
    assert Step(b, "\"\\", cap, FRESH) == Fail(Part);
    assert Step(b, js, cap, FRESH) == Fail(Inval);
  }

  // ---------- colons ----------

  /** Two values with a colon between them, and blanks around. */
  function ColonText(lead: string, j: Json, v: Json, trail: string): string {
    lead + (Text(j) + ([':'] + (Text(v) + trail)))
  }

  /** The tokens of the two values, if the second counts in the last token of
      the first. */
  function ColonTokens(b: Build, j: Json, at: nat, v: Json, at': nat): seq<Token> {
    var n := Nodes(j);
    SomeNodes(j);
    Bump(Tokens(b, j, at, 0, -1), n - 1) + Tokens(b, v, at', n, n - 1)
  }

  /** A colon makes the last token the superior one, whatever it is, even a
      container that is closed: a value behind it counts in that token. */
  lemma ColonTakesLast(b: Build, lead: string, j: Json, v: Json, trail: string, cap: int)
    requires !b.strict && Legal(false, j) && Legal(false, v) && Blank(lead) && Blank(trail) && Nodes(j) + Nodes(v) <= cap
    ensures var c := Parse(b, ColonText(lead, j, v, trail), cap, FRESH);
            && c.verdict == Done(Nodes(j) + Nodes(v))
            && c.state.toks == ColonTokens(b, j, |lead|, v, |lead| + |Text(j)| + 1)
  {
    hide Blank, Legal, RunFrom, Sound, WellFormed, Reaches, Step, At, Text, Delimits, Tokens, CommaSuper, Nodes, Parse,
         ColonTokens, ColonText;
    var js := ColonText(lead, j, v, trail);
    ColonPlaces(js, lead, j, v, trail);
    var s1 := FirstValue(b, js, cap, lead, j);
    var s2 := State(s1.pos + 1, s1.toks, |s1.toks| - 1);
    MarkRuns(b, js, cap, s1, ':');
    Chain(b, js, cap, FRESH, s1, s2);
    ReachesSound(b, js, cap, FRESH, s2);
    var s3 := SecondValue(b, js, cap, j, |lead|, s2, v);
    Chain(b, js, cap, FRESH, s2, s3);
    ReachesSound(b, js, cap, FRESH, s3);
    BlankRuns(b, js, cap, s3, trail);
    Chain(b, js, cap, FRESH, s3, s3.(pos := s3.pos + |trail|));
    AllRead(b, js, cap, s3.(pos := s3.pos + |trail|));
  }

  lemma FirstValue(b: Build, js: string, cap: int, lead: string, j: Json) returns (s: State)
    requires !b.strict && Legal(false, j) && Blank(lead) && Nodes(j) <= cap
    requires At(js, 0, lead) && At(js, |lead|, Text(j)) && Delimits(false, js, |lead| + |Text(j)|)
    ensures Reaches(b, js, cap, FRESH, s) && WellFormed(s) && Sound(b, js, s)
    ensures s.pos == |lead| + |Text(j)| && s.toks == Tokens(b, j, |lead|, 0, -1)
  {
    hide Blank, Legal, RunFrom, Sound, WellFormed, Reaches, Step, At, Text, Delimits, Tokens, CommaSuper, Nodes;
    SoundAtStart(b, js);
    BlankRuns(b, js, cap, FRESH, lead);
    var s0 := State(|lead|, [], -1);
    ReachesSound(b, js, cap, FRESH, s0);
    s := ValueRuns(b, js, cap, s0, j);
    Chain(b, js, cap, FRESH, s0, s);
    ReachesSound(b, js, cap, FRESH, s);
    NothingBefore(s.toks, Tokens(b, j, |lead|, 0, -1));
  }

  lemma SecondValue(b: Build, js: string, cap: int, j: Json, at: nat, s: State, v: Json) returns (t: State)
    requires !b.strict && Legal(false, v) && WellFormed(s) && Sound(b, js, s)
    requires s.toks == Tokens(b, j, at, 0, -1) && s.super == |s.toks| - 1 && |s.toks| + Nodes(v) <= cap
    requires At(js, s.pos, Text(v)) && Delimits(false, js, s.pos + |Text(v)|)
    ensures Reaches(b, js, cap, s, t) && t.pos == s.pos + |Text(v)| && |t.toks| == Nodes(j) + Nodes(v)
    ensures t.toks == ColonTokens(b, j, at, v, s.pos) && forall i :: 0 <= i < |t.toks| ==> t.toks[i].end >= 0
  {
    hide Legal, RunFrom, Sound, WellFormed, Reaches, Step, At, Text, Delimits, Tokens, Nodes;
    SomeNodes(j);
    t := ValueRuns(b, js, cap, s, v);
    AllClosed(s.toks, Tokens(b, v, s.pos, |s.toks|, s.super), s.super);
  }

  lemma NothingBefore(toks: seq<Token>, own: seq<Token>)
    requires toks == Bump([], -1) + own
    ensures toks == own
  {
  }

  lemma SomeNodes(j: Json)
    ensures Nodes(j) > 0
  {
  }

  /** The parts of a text, two values with a mark between them. */
  lemma MarkPlaces(js: string, lead: string, first: string, mark: char, second: string, trail: string)
    requires js == lead + (first + ([mark] + (second + trail))) && EndsWord(false, mark) && Blank(trail)
    ensures var i := |lead| + |first|;
            && At(js, 0, lead) && At(js, |lead|, first) && At(js, i, [mark]) && At(js, i + 1, second) && At(js, i + 1 + |second|, trail)
            && |js| == i + 1 + |second| + |trail| && Delimits(false, js, i) && Delimits(false, js, i + 1 + |second|)
  {
    hide At, Blank, Delimits, EndsWord;
    var i := |lead| + |first|;
    AtWhole(js);
    AtSplit(js, 0, lead, first + ([mark] + (second + trail)));
    AtSplit(js, |lead|, first, [mark] + (second + trail));
    AtSplit(js, i, [mark], second + trail);
    AtSplit(js, i + 1, second, trail);
    MarkDelimits(js, i, mark);
    TrailDelimits(js, i + 1 + |second|, trail);
  }

  lemma MarkDelimits(js: string, i: nat, mark: char)
    requires At(js, i, [mark]) && EndsWord(false, mark)
    ensures Delimits(false, js, i)
  {
    AtByte(js, i, [mark], 0);
  }

  lemma TrailDelimits(js: string, i: nat, trail: string)
    requires Blank(trail) && At(js, i, trail) && |js| == i + |trail|
    ensures Delimits(false, js, i)
  {
    if trail != [] {
      AtByte(js, i, trail, 0);
    }
  }

  lemma ColonPlaces(js: string, lead: string, j: Json, v: Json, trail: string)
    requires js == ColonText(lead, j, v, trail) && Blank(trail)
    ensures var i := |lead| + |Text(j)|;
            && At(js, 0, lead) && At(js, |lead|, Text(j)) && At(js, i, [':']) && At(js, i + 1, Text(v)) && At(js, i + 1 + |Text(v)|, trail)
            && |js| == i + 1 + |Text(v)| + |trail| && Delimits(false, js, i) && Delimits(false, js, i + 1 + |Text(v)|)
  {
    var first, second := Text(j), Text(v);
    assert js == lead + (first + ([':'] + (second + trail)));
    hide Text, At, ColonText, Blank, Delimits;
    MarkPlaces(js, lead, first, ':', second, trail);
  }

  lemma AllClosed(toks: seq<Token>, more: seq<Token>, super: int)
    requires -1 <= super < |toks| && (forall i :: 0 <= i < |toks| ==> toks[i].end >= 0)
    requires forall i :: 0 <= i < |more| ==> more[i].end >= 0
    ensures forall i :: 0 <= i < |Bump(toks, super) + more| ==> (Bump(toks, super) + more)[i].end >= 0
  {
  }

  // ---------- commas ----------

  /** A comma outside all containers: with links it leads from a key back to no
      token, and in the default build it leads nowhere, so that the key counts
      the next value too. */
  lemma CommaAtTop(b: Build, body: seq<Piece>, v: string, w: string, cap: int)
    requires !b.strict && LegalBody(body) && LegalWord(false, v) && LegalWord(false, w) && 3 <= cap
    ensures var n := |BodyText(body)|;
            var i := n + 3;
            var c := Parse(b, (['\"'] + BodyText(body) + ['\"']) + ([':'] + (v + ([','] + w))), cap, FRESH);
            && c.verdict == Done(3)
            && c.state.toks == [Token(Str, 1, 1 + n, if b.links then 1 else 2, -1),
                                Token(Primitive, i, i + |v|, 0, if b.links then 0 else -1),
                                Token(Primitive, i + |v| + 1, i + |v| + 1 + |w|, 0, -1)]
  {
    hide BodyText, LegalBody, LegalWord, RunFrom, Sound, Reaches, Step, At, Delimits;
    var n := |BodyText(body)|;
    var quoted := ['\"'] + BodyText(body) + ['\"'];
    var js := quoted + ([':'] + (v + ([','] + w)));
    CommaPlaces(js, quoted, v, w);
    var s3 := KeyAndValue(b, js, cap, body, v);
    MarkRuns(b, js, cap, s3, ',');
    var s4 := State(s3.pos + 1, s3.toks, if b.links then -1 else 0);
    assert CommaSuper(b, s3) == s4.super;
    hide CommaSuper;
    Chain(b, js, cap, FRESH, s3, s4);
    ReachesSound(b, js, cap, FRESH, s4);
    WordStepRuns(b, js, cap, s4, w);
    var s5 := State(s4.pos + |w|, Add(b, s4, Primitive, s4.pos, s4.pos + |w|), s4.super);
    Chain(b, js, cap, FRESH, s4, s5);
    AllRead(b, js, cap, s5);
  }

  lemma KeyAndValue(b: Build, js: string, cap: int, body: seq<Piece>, v: string) returns (t: State)
    requires !b.strict && LegalBody(body) && LegalWord(false, v) && 3 <= cap
    requires var i := |BodyText(body)| + 3;
             && At(js, 0, ['\"'] + BodyText(body) + ['\"']) && At(js, i - 1, [':']) && At(js, i, v) && Delimits(false, js, i + |v|)
    ensures var i := |BodyText(body)| + 3;
            && Reaches(b, js, cap, FRESH, t) && WellFormed(t) && Sound(b, js, t)
            && t == State(i + |v|, [Token(Str, 1, i - 2, 1, -1), Token(Primitive, i, i + |v|, 0, if b.links then 0 else -1)], 0)
  {
    hide BodyText, LegalBody, LegalWord, RunFrom, Sound, Reaches, Step, At, Delimits, CommaSuper;
    var n := |BodyText(body)|;
    SoundAtStart(b, js);
    QuotedRuns(b, js, cap, FRESH, body);
    var s1 := State(n + 2, [Token(Str, 1, 1 + n, 0, -1)], -1);
    assert Add(b, FRESH, Str, 1, 1 + n) == s1.toks;
    ReachesSound(b, js, cap, FRESH, s1);
    MarkRuns(b, js, cap, s1, ':');
    var s2 := State(n + 3, s1.toks, 0);
    Chain(b, js, cap, FRESH, s1, s2);
    ReachesSound(b, js, cap, FRESH, s2);
    WordStepRuns(b, js, cap, s2, v);
    t := State(n + 3 + |v|, Add(b, s2, Primitive, s2.pos, s2.pos + |v|), 0);
    Chain(b, js, cap, FRESH, s2, t);
    ReachesSound(b, js, cap, FRESH, t);
  }

  lemma CommaPlaces(js: string, quoted: string, v: string, w: string)
    requires js == quoted + ([':'] + (v + ([','] + w)))
    ensures var i := |quoted| + 1;
            && At(js, 0, quoted) && At(js, |quoted|, [':']) && At(js, i, v) && At(js, i + |v|, [',']) && At(js, i + |v| + 1, w)
            && |js| == i + |v| + 1 + |w| && Delimits(false, js, i + |v|) && Delimits(false, js, i + |v| + 1 + |w|)
  {
    assert js == (quoted + [':']) + (v + ([','] + (w + [])));
    MarkPlaces(js, quoted + [':'], v, ',', w, []);
    AtSplit(js, 0, quoted, [':']);
  }
}
