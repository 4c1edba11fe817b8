/** JSON texts as trees: how a tree is written, and the tokens it stands for.
    Outside strict mode the parser also takes words without quotes, which then
    stand for keys and values. */
module JsmnJson {
  import opened JsmnBytes
  import opened JsmnTypes
  import opened JsmnSpec

  // ---------- trees ----------

  /** A character of a string: itself, a short escape, or \uXXXX. */
  datatype Piece = Plain(c: char) | Escape(c: char) | Unicode(digits: string)

  /** A tree keeps the white space of its text, so that every way of writing a
      value is the writing of some tree. */
  datatype Json =
    | Bare(text: string)
    | Quoted(body: seq<Piece>)
    | Node(kind: Kind, blank: string, items: Items)

  datatype Items = Nil | Item(key: Key, before: string, value: Json, after: string, rest: Items)

  datatype Name = QuotedName(body: seq<Piece>) | WordName(word: string)

  datatype Key = NoKey | Key(before: string, name: Name, after: string)

  // ---------- which trees are JSON ----------

  predicate LegalPiece(p: Piece) {
    match p
    case Plain(c) => c as int !in {0x22, 0x5C, 0x00}
    case Escape(c) => EscapeLetter(c)
    case Unicode(d) => |d| == 4 && HexDigit(d[0]) && HexDigit(d[1]) && HexDigit(d[2]) && HexDigit(d[3])
  }

  predicate LegalBody(ps: seq<Piece>) { forall i :: 0 <= i < |ps| ==> LegalPiece(ps[i]) }

  predicate Blank(s: string) { forall i :: 0 <= i < |s| ==> White(s[i]) }

  predicate LegalWord(strict: bool, s: string) {
    s != [] && StartsWord(strict, s[0]) && forall i :: 0 <= i < |s| ==> WordByte(strict, s[i])
  }

  predicate Legal(strict: bool, j: Json)
    decreases j
  {
    match j
    case Bare(text) => LegalWord(strict, text)
    case Quoted(body) => LegalBody(body)
    case Node(kind, blank, items) => (kind == Object || kind == Array) && Blank(blank) && LegalItems(strict, kind, items)
  }

  /** The members of an object have keys, the elements of an array do not. */
  predicate LegalItems(strict: bool, kind: Kind, items: Items)
    decreases items
  {
    match items
    case Nil => true
    case Item(key, before, value, after, rest) =>
      && LegalKey(strict, kind, key) && Blank(before) && Legal(strict, value) && Blank(after) && LegalItems(strict, kind, rest)
  }

  predicate LegalKey(strict: bool, kind: Kind, key: Key) {
    match key
    case NoKey => kind == Array
    case Key(before, name, after) => kind == Object && Blank(before) && LegalName(strict, name) && Blank(after)
  }

  predicate LegalName(strict: bool, name: Name) {
    match name
    case QuotedName(body) => LegalBody(body)
    case WordName(word) => !strict && LegalWord(false, word)
  }

  /** The literals and the numbers of RFC 8259, sections 3 and 6. */
  lemma LiteralsAreWords(strict: bool, s: string)
    requires s == "true" || s == "false" || s == "null" || IsNumber(s)
    ensures LegalWord(strict, s)
  {
  }

  predicate IsNumber(s: string) {
    s != [] && (s[0] == '-' || '0' <= s[0] <= '9') &&
    forall i :: 0 <= i < |s| ==> '0' <= s[i] <= '9' || s[i] == '-' || s[i] == '+' || s[i] == '.' || s[i] == 'e' || s[i] == 'E'
  }

  // ---------- how a tree is written ----------

  function PieceText(p: Piece): string {
    match p
    case Plain(c) => [c]
    case Escape(c) => ['\\', c]
    case Unicode(d) => ['\\', 'u'] + d
  }

  function BodyText(ps: seq<Piece>): string {
    if ps == [] then [] else PieceText(ps[0]) + BodyText(ps[1..])
  }

  function Text(j: Json): (s: string)
    decreases j
  {
    match j
    case Bare(text) => text
    case Quoted(body) => ['\"'] + BodyText(body) + ['\"']
    case Node(kind, blank, items) => [OpenByte(kind)] + Inside(blank, items) + [CloseByte(kind)]
  }

  function OpenByte(kind: Kind): char { if kind == Object then '{' else '[' }

  function CloseByte(kind: Kind): char { if kind == Object then '}' else ']' }

  function Inside(blank: string, items: Items): string
    decreases items
  {
    match items
    case Nil => blank
    case Item(key, before, value, after, rest) =>
      KeyText(key) + before + Text(value) + after + if rest.Nil? then [] else [','] + Inside([], rest)
  }

  function KeyText(key: Key): string {
    match key
    case NoKey => []
    case Key(before, name, after) => before + NameText(name) + after + [':']
  }

  function NameText(name: Name): string {
    match name
    case QuotedName(body) => ['\"'] + BodyText(body) + ['\"']
    case WordName(word) => word
  }

  // ---------- the tokens of a tree ----------

  /** The number of values and keys. */
  function Nodes(j: Json): nat {
    match j
    case Node(_, _, items) => 1 + ItemNodes(items)
    case _ => 1
  }

  function ItemNodes(items: Items): nat {
    match items
    case Nil => 0
    case Item(key, _, value, _, rest) => (if key.NoKey? then 0 else 1) + Nodes(value) + ItemNodes(rest)
  }

  /** The number of elements or of members. */
  function Count(items: Items): nat {
    match items
    case Nil => 0
    case Item(_, _, _, _, rest) => 1 + Count(rest)
  }

  function Up(b: Build, parent: int): int { if b.links then parent else -1 }

  /** The preorder of a tree whose text begins at at: its root is token n. */
  function Tokens(b: Build, j: Json, at: nat, n: nat, parent: int): (toks: seq<Token>)
    ensures |toks| == Nodes(j) && forall i :: 0 <= i < |toks| ==> toks[i].end >= 0
    decreases j, 0
  {
    match j
    case Bare(text) => [Token(Primitive, at, at + |text|, 0, Up(b, parent))]
    case Quoted(body) => [Token(Str, at + 1, at + 1 + |BodyText(body)|, 0, Up(b, parent))]
    case Node(kind, _, items) =>
      [Token(kind, at, at + |Text(j)|, Count(items), Up(b, parent))] + ItemTokens(b, items, at + 1, n + 1, n)
  }

  /** The token of a name whose text begins at at. */
  function NameToken(name: Name, at: nat, size: int, parent: int): Token {
    match name
    case QuotedName(body) => Token(Str, at + 1, at + 1 + |BodyText(body)|, size, parent)
    case WordName(word) => Token(Primitive, at, at + |word|, size, parent)
  }

  /** The token of a key whose text begins at at.  It owns the value. */
  function KeyToken(b: Build, key: Key, at: nat, size: int, p: int): Token
    requires key.Key?
  {
    NameToken(key.name, at + |key.before|, size, Up(b, p))
  }

  /** One element or member of the container with index p. */
  function OwnTokens(b: Build, key: Key, before: string, value: Json, at: nat, n: nat, p: int): (toks: seq<Token>)
    ensures |toks| == (if key.NoKey? then 0 else 1) + Nodes(value)
    ensures forall i :: 0 <= i < |toks| ==> toks[i].end >= 0
    decreases value, 1
  {
    var from := at + |KeyText(key)| + |before|;
    if key.NoKey? then Tokens(b, value, from, n, p)
    else [KeyToken(b, key, at, 1, p)] + Tokens(b, value, from, n + 1, n)
  }

  function ItemTokens(b: Build, items: Items, at: nat, n: nat, p: int): (toks: seq<Token>)
    ensures |toks| == ItemNodes(items) && forall i :: 0 <= i < |toks| ==> toks[i].end >= 0
    decreases items
  {
    match items
    case Nil => []
    case Item(key, before, value, after, rest) =>
      var own := OwnTokens(b, key, before, value, at, n, p);
      var next := at + |KeyText(key)| + |before| + |Text(value)| + |after| + 1;
      own + ItemTokens(b, rest, next, n + |own|, p)
  }
}
