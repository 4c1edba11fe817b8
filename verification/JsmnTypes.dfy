/** Tokens, parser states and result codes of the jsmn tokenizer. */
module JsmnTypes {

  /** jsmntype_t; UNDEFINED is the type of a token that was never filled. */
  datatype Kind = Undefined | Object | Array | Str | Primitive

  /** jsmntok_t.  The parent field exists only when parent links are compiled
      in; in the other builds it keeps the value -1 here. */
  datatype Token = Token(kind: Kind, start: int, end: int, size: int, parent: int)

  /** The two compile-time switches of the library. */
  datatype Build = Build(links: bool, strict: bool)

  const DEFAULT_BUILD := Build(false, false)
  const LINKS_BUILD := Build(true, false)

  /** The negative result codes. */
  datatype Error = NoMem | Inval | Part

  const ERROR_NOMEM: int := -1
  const ERROR_INVAL: int := -2
  const ERROR_PART: int := -3

  function Code(e: Error): int {
    match e
    case NoMem => ERROR_NOMEM
    case Inval => ERROR_INVAL
    case Part => ERROR_PART
  }

  /** A parser together with the part of the token array it has filled:
      toknext is the length of toks. */
  datatype State = State(pos: nat, toks: seq<Token>, super: int)

  const FRESH := State(0, [], -1)

  predicate IsContainer(t: Token) { t.kind == Object || t.kind == Array }

  /** The test by which the code recognises a container that is still open. */
  predicate IsOpen(t: Token) { t.start != -1 && t.end == -1 }

  /** Indices stored in the parser and in the tokens point backwards into
      the filled part of the array. */
  predicate WellFormed(s: State) {
    && -1 <= s.super < |s.toks|
    && forall i :: 0 <= i < |s.toks| ==> -1 <= s.toks[i].parent < i
  }
}
