/** The tokenizer as the library has it: a parser object and a token array
    that are both updated in place. */
module JsmnParser {
  import opened JsmnTypes
  import opened JsmnLexer
  import opened JsmnSpec

  const EMPTY_TOKEN := Token(Undefined, -1, -1, 0, -1)

  class Parser {
    const build: Build
    var pos: nat
    var toknext: nat
    var toksuper: int

    /** jsmn_init */
    constructor (build: Build)
      ensures this.build == build
      ensures pos == 0 && toknext == 0 && toksuper == -1
    {
      this.build := build;
      pos, toknext, toksuper := 0, 0, -1;
    }

    /** The abstract state held by this parser and the array it fills. */
    ghost function Snapshot(tokens: array<Token>): State
      reads this, tokens
      requires toknext <= tokens.Length
    {
      State(pos, tokens[..toknext], toksuper)
    }

    ghost predicate Valid(tokens: array<Token>)
      reads this, tokens
    {
      toknext <= tokens.Length && WellFormed(Snapshot(tokens))
    }

    /** jsmn_alloc_token: the index of the fresh token, or -1. */
    method AllocToken(tokens: array<Token>, numTokens: nat) returns (i: int)
      requires numTokens <= tokens.Length && toknext <= tokens.Length
      modifies this`toknext, tokens
      ensures old(toknext) >= numTokens ==> i == -1 && toknext == old(toknext) && tokens[..] == old(tokens[..])
      ensures old(toknext) < numTokens ==> i == old(toknext) && toknext == i + 1
      ensures old(toknext) < numTokens ==> tokens[..] == old(tokens[..])[old(toknext) := EMPTY_TOKEN.(kind := old(tokens[toknext]).kind)]
    {
      if toknext >= numTokens {
        return -1;
      }
      i := toknext;
      toknext := toknext + 1;
      tokens[i] := tokens[i].(start := -1, end := -1, size := 0, parent := -1);
    }

    /** jsmn_parse_primitive; the result is 0 or a negative code. */
    method ParsePrimitive(js: string, tokens: array?<Token>, numTokens: nat) returns (r: int)
      requires More(js, pos) && PrimitiveEnd(build.strict, js, pos) != Found(pos)
      requires tokens != null ==> numTokens <= tokens.Length && toknext <= tokens.Length
      modifies this`pos, this`toknext, tokens
      ensures PrimitiveEnd(build.strict, js, old(pos)).Bad? ==> r == ERROR_INVAL
      ensures PrimitiveEnd(build.strict, js, old(pos)).Cut? ==> r == ERROR_PART
      ensures PrimitiveEnd(build.strict, js, old(pos)).Found? ==>
                r == if tokens != null && old(toknext) >= numTokens then ERROR_NOMEM else 0
      ensures r == 0 ==> Found(pos + 1) == PrimitiveEnd(build.strict, js, old(pos))
      ensures r != 0 ==> pos == old(pos)
      ensures toknext == if r == 0 && tokens != null then old(toknext) + 1 else old(toknext)
      ensures tokens != null && r != 0 ==> tokens[..] == old(tokens[..])
      ensures tokens != null && r == 0 ==> tokens[..] == old(tokens[..])[old(toknext) :=
                  Token(Primitive, old(pos), pos + 1, 0, if build.links then toksuper else -1)]
    {
      var start := pos;
      while pos < |js| && js[pos] != '\0'
        invariant start <= pos <= |js|
        invariant PrimitiveEnd(build.strict, js, start) == PrimitiveEnd(build.strict, js, pos)
        invariant toknext == old(toknext)
        invariant tokens != null ==> tokens[..] == old(tokens[..])
      {
        if EndsPrimitive(build.strict, js[pos]) {
          break;
        }
        if js[pos] < ' ' || js[pos] >= '\U{7f}' {
          pos := start;
          return ERROR_INVAL;
        }
        pos := pos + 1;
      }
      if build.strict && !More(js, pos) {
        pos := start;
        return ERROR_PART;
      }
      if tokens == null {
        pos := pos - 1;
        return 0;
      }
      var i := AllocToken(tokens, numTokens);
      if i == -1 {
        pos := start;
        return ERROR_NOMEM;
      }
      tokens[i] := tokens[i].(kind := Primitive, start := start, end := pos, size := 0);
      if build.links {
        tokens[i] := tokens[i].(parent := toksuper);
      }
      pos := pos - 1;
      return 0;
    }

    /** jsmn_parse_string; the result is 0 or a negative code. */
    method ParseString(js: string, tokens: array?<Token>, numTokens: nat) returns (r: int)
      requires More(js, pos)
      requires tokens != null ==> numTokens <= tokens.Length && toknext <= tokens.Length
      modifies this`pos, this`toknext, tokens
      ensures StringEnd(js, old(pos) + 1).Bad? ==> r == ERROR_INVAL
      ensures StringEnd(js, old(pos) + 1).Cut? ==> r == ERROR_PART
      ensures StringEnd(js, old(pos) + 1).Found? ==>
                r == if tokens != null && old(toknext) >= numTokens then ERROR_NOMEM else 0
      ensures r == 0 ==> Found(pos) == StringEnd(js, old(pos) + 1)
      ensures r != 0 ==> pos == old(pos)
      ensures toknext == if r == 0 && tokens != null then old(toknext) + 1 else old(toknext)
      ensures tokens != null && r != 0 ==> tokens[..] == old(tokens[..])
      ensures tokens != null && r == 0 ==> tokens[..] == old(tokens[..])[old(toknext) :=
                  Token(Str, old(pos) + 1, pos, 0, if build.links then toksuper else -1)]
    {
      var start := pos;
      pos := pos + 1;
      while pos < |js| && js[pos] != '\0'
        invariant start < pos
        invariant StringEnd(js, start + 1) == StringEnd(js, pos)
        invariant toknext == old(toknext)
        invariant tokens != null ==> tokens[..] == old(tokens[..])
        decreases |js| - pos
      {
        var c := js[pos];
        if c == '\"' {
          if tokens == null {
            return 0;
          }
          var i := AllocToken(tokens, numTokens);
          if i == -1 {
            pos := start;
            return ERROR_NOMEM;
          }
          tokens[i] := tokens[i].(kind := Str, start := start + 1, end := pos, size := 0);
          if build.links {
            tokens[i] := tokens[i].(parent := toksuper);
          }
          return 0;
        }
        if c == '\\' && pos + 1 < |js| {
          pos := pos + 1;
          if js[pos] == 'u' {
            pos := pos + 1;
            var bad := SkipHex(js);
            if bad {
              pos := start;
              return ERROR_INVAL;
            }
            pos := pos - 1;
          } else if !IsShortEscape(js[pos]) {
            pos := start;
            return ERROR_INVAL;
          }
        }
        pos := pos + 1;
      }
      pos := start;
      return ERROR_PART;
    }

    /** The inner loop of jsmn_parse_string over the four digits of \u. */
    method SkipHex(js: string) returns (bad: bool)
      modifies this`pos
      ensures bad <==> HexEnd(js, old(pos), 4).Bad?
      ensures !bad ==> HexEnd(js, old(pos), 4) == Found(pos)
    {
      var i := 0;
      while i < 4 && pos < |js| && js[pos] != '\0'
        invariant 0 <= i <= 4
        invariant HexEnd(js, old(pos), 4) == HexEnd(js, pos, 4 - i)
        decreases 4 - i
      {
        if !('0' <= js[pos] <= '9' || 'A' <= js[pos] <= 'F' || 'a' <= js[pos] <= 'f') {
          return true;
        }
        pos := pos + 1;
        i := i + 1;
      }
      return false;
    }

    /** The size++ of the superior token. */
    method BumpSuper(tokens: array<Token>)
      requires -1 <= toksuper < toknext <= tokens.Length
      modifies tokens
      ensures tokens[..] == if toksuper == -1 then old(tokens[..])
                            else old(tokens[..])[toksuper := old(tokens[toksuper]).(size := old(tokens[toksuper]).size + 1)]
    {
      if toksuper != -1 {
        tokens[toksuper] := tokens[toksuper].(size := tokens[toksuper].size + 1);
      }
    }

    /** The case of an opening bracket, tokens stored. */
    method OpenBracket(tokens: array<Token>, numTokens: nat, kind: Kind) returns (ok: bool)
      requires Valid(tokens) && numTokens <= tokens.Length
      modifies this`toknext, this`toksuper, tokens
      ensures toknext <= tokens.Length
      ensures ok <==> OpenStep(build, numTokens, old(Snapshot(tokens)), kind).Go?
      ensures ok ==> Go(Snapshot(tokens).(pos := pos + 1)) == OpenStep(build, numTokens, old(Snapshot(tokens)), kind)
      ensures !ok ==> Snapshot(tokens) == old(Snapshot(tokens))
    {
      ghost var before := Snapshot(tokens);
      var i := AllocToken(tokens, numTokens);
      if i == -1 {
        return false;
      }
      assert tokens[..i] == before.toks;
      if toksuper != -1 {
        tokens[toksuper] := tokens[toksuper].(size := tokens[toksuper].size + 1);
        if build.links {
          tokens[i] := tokens[i].(parent := toksuper);
        }
      }
      tokens[i] := tokens[i].(kind := kind, start := pos);
      toksuper := toknext - 1;
      assert tokens[..i] == Bump(before.toks, before.super);
      assert tokens[..toknext] == tokens[..i] + [tokens[i]];
      return true;
    }

    /** The case of a closing bracket, tokens stored. */
    method CloseBracket(tokens: array<Token>, kind: Kind) returns (ok: bool)
      requires Valid(tokens)
      modifies this`toksuper, tokens
      ensures ok <==> CloseStep(build, old(Snapshot(tokens)), kind).Go?
      ensures ok ==> Go(Snapshot(tokens).(pos := pos + 1)) == CloseStep(build, old(Snapshot(tokens)), kind)
      ensures !ok ==> Snapshot(tokens) == old(Snapshot(tokens))
    {
      if build.links {
        ok := CloseByLinks(tokens, kind);
      } else {
        ok := CloseByScan(tokens, kind);
      }
    }

    /** The walk along the parent links. */
    method CloseByLinks(tokens: array<Token>, kind: Kind) returns (ok: bool)
      requires Valid(tokens) && build.links
      modifies this`toksuper, tokens
      ensures ok <==> CloseStep(build, old(Snapshot(tokens)), kind).Go?
      ensures ok ==> Go(Snapshot(tokens).(pos := pos + 1)) == CloseStep(build, old(Snapshot(tokens)), kind)
      ensures !ok ==> Snapshot(tokens) == old(Snapshot(tokens))
    {
      if toknext < 1 {
        return false;
      }
      ghost var toks := tokens[..toknext];
      var i: int := toknext - 1;
      while true
        invariant 0 <= i < toknext
        invariant tokens[..toknext] == toks && toksuper == old(toksuper)
        invariant NearestOpen(toks, toknext - 1) == NearestOpen(toks, i)
        decreases i
      {
        assert toks[i] == tokens[i];
        if tokens[i].start != -1 && tokens[i].end == -1 {
          if tokens[i].kind != kind {
            return false;
          }
          tokens[i] := tokens[i].(end := pos + 1);
          toksuper := tokens[i].parent;
          assert tokens[..toknext] == toks[i := toks[i].(end := pos + 1)];
          break;
        }
        if tokens[i].parent == -1 {
          break;
        }
        i := tokens[i].parent;
      }
      return true;
    }

    /** The two scans down the token array. */
    method CloseByScan(tokens: array<Token>, kind: Kind) returns (ok: bool)
      requires Valid(tokens) && !build.links
      modifies this`toksuper, tokens
      ensures ok <==> CloseStep(build, old(Snapshot(tokens)), kind).Go?
      ensures ok ==> Go(Snapshot(tokens).(pos := pos + 1)) == CloseStep(build, old(Snapshot(tokens)), kind)
      ensures !ok ==> Snapshot(tokens) == old(Snapshot(tokens))
    {
      ghost var toks := tokens[..toknext];
      var i: int := toknext - 1;
      while i >= 0
        invariant -1 <= i < toknext
        invariant tokens[..toknext] == toks && toksuper == old(toksuper)
        invariant LastOpen(toks, toknext) == LastOpen(toks, i + 1)
      {
        assert toks[i] == tokens[i];
        if tokens[i].start != -1 && tokens[i].end == -1 {
          if tokens[i].kind != kind {
            return false;
          }
          toksuper := -1;
          tokens[i] := tokens[i].(end := pos + 1);
          break;
        }
        i := i - 1;
      }
      if i == -1 {
        return false;
      }
      ghost var closed := toks[i := toks[i].(end := pos + 1)];
      assert tokens[..toknext] == closed;
      ghost var top: nat := i;
      while i >= 0
        invariant -1 <= i <= top
        invariant tokens[..toknext] == closed && toksuper == -1
        invariant LastOpen(closed, top + 1) == LastOpen(closed, i + 1)
      {
        assert closed[i] == tokens[i];
        if tokens[i].start != -1 && tokens[i].end == -1 {
          toksuper := i;
          break;
        }
        i := i - 1;
      }
      LastOpenAgrees(toks, closed, top);
      return true;
    }

    /** The case of a comma, tokens stored. */
    method Comma(tokens: array<Token>)
      requires Valid(tokens)
      modifies this`toksuper
      ensures toksuper == CommaSuper(build, old(Snapshot(tokens)))
    {
      if toksuper != -1 && tokens[toksuper].kind != Array && tokens[toksuper].kind != Object {
        if build.links {
          toksuper := tokens[toksuper].parent;
        } else {
          var i: int := toknext - 1;
          ghost var toks := tokens[..toknext];
          while i >= 0
            invariant -1 <= i < toknext && toksuper == old(toksuper)
            invariant LastOpenContainer(toks, toknext) == LastOpenContainer(toks, i + 1)
          {
            assert toks[i] == tokens[i];
            if tokens[i].kind == Array || tokens[i].kind == Object {
              if tokens[i].start != -1 && tokens[i].end == -1 {
                toksuper := i;
                break;
              }
            }
            i := i - 1;
          }
        }
      }
    }

    /** The last loop of jsmn_parse: is some container still open? */
    method SomeOpen(tokens: array<Token>) returns (open: bool)
      requires toknext <= tokens.Length
      ensures open <==> LastOpen(tokens[..toknext], toknext) != -1
    {
      var i: int := toknext - 1;
      while i >= 0
        invariant -1 <= i < toknext
        invariant LastOpen(tokens[..toknext], toknext) == LastOpen(tokens[..toknext], i + 1)
      {
        assert tokens[..toknext][i] == tokens[i];
        if tokens[i].start != -1 && tokens[i].end == -1 {
          return true;
        }
        i := i - 1;
      }
      return false;
    }

    /** The case of a quote, tokens stored. */
    method StoreString(js: string, tokens: array<Token>, numTokens: nat) returns (r: int)
      requires Valid(tokens) && numTokens <= tokens.Length && More(js, pos)
      modifies this`pos, this`toknext, tokens
      ensures toknext <= tokens.Length
      ensures Stored(StringStep(build, js, numTokens, old(Snapshot(tokens))), r, old(Snapshot(tokens)), Snapshot(tokens))
    {
      ghost var before := Snapshot(tokens);
      r := ParseString(js, tokens, numTokens);
      if r < 0 {
        return;
      }
      BumpSuper(tokens);
      AddedToken(before, tokens[..toknext], Token(Str, before.pos + 1, pos, 0, ParentOf(build, before)));
    }

    /** The case of an unquoted value, tokens stored. */
    method StorePrimitive(js: string, tokens: array<Token>, numTokens: nat) returns (r: int)
      requires Valid(tokens) && numTokens <= tokens.Length && More(js, pos)
      requires PrimitiveEnd(build.strict, js, pos) != Found(pos)
      requires build.strict ==> StartsStrictPrimitive(js[pos])
      modifies this`pos, this`toknext, tokens
      ensures toknext <= tokens.Length
      ensures Stored(PrimitiveStep(build, js, numTokens, old(Snapshot(tokens))), r, old(Snapshot(tokens)), Snapshot(tokens))
    {
      ghost var before := Snapshot(tokens);
      if build.strict && toksuper != -1 {
        if tokens[toksuper].kind == Object || (tokens[toksuper].kind == Str && tokens[toksuper].size != 0) {
          return ERROR_INVAL;
        }
      }
      r := ParsePrimitive(js, tokens, numTokens);
      if r < 0 {
        return;
      }
      BumpSuper(tokens);
      AddedToken(before, tokens[..toknext], Token(Primitive, before.pos, pos + 1, 0, ParentOf(build, before)));
    }

    /** A case of the switch has done what the step says, short of pos++. */
    static ghost predicate Stored(step: Outcome, r: int, before: State, after: State) {
      match step
      case Fail(e) => r == Code(e) && after == before
      case Go(next) => r >= 0 && after.(pos := after.pos + 1) == next
    }

    static lemma {:induction false} AddedToken(s: State, toks: seq<Token>, t: Token)
      requires WellFormed(s)
      requires |toks| == |s.toks| + 1
      requires forall i :: 0 <= i < |s.toks| && i != s.super ==> toks[i] == s.toks[i]
      requires toks[|s.toks|] == t
      requires s.super != -1 ==> toks[s.super] == s.toks[s.super].(size := s.toks[s.super].size + 1)
      ensures toks == Bump(s.toks, s.super) + [t]
    {
    }

    /** The switch over the byte at pos. */
    method StoreLexeme(js: string, tokens: array<Token>, numTokens: nat) returns (r: int, counted: bool)
      requires Valid(tokens) && numTokens <= tokens.Length && More(js, pos)
      modifies this`pos, this`toknext, this`toksuper, tokens
      ensures toknext <= tokens.Length
      ensures Stored(Step(build, js, numTokens, old(Snapshot(tokens))), r, old(Snapshot(tokens)), Snapshot(tokens))
      ensures r >= 0 ==> toknext == if counted then old(toknext) + 1 else old(toknext)
    {
      var c := js[pos];
      r, counted := 0, false;
      if c == '{' || c == '[' {
        counted := true;
        var ok := OpenBracket(tokens, numTokens, if c == '{' then Object else Array);
        if !ok {
          r := ERROR_NOMEM;
        }
      } else if c == '}' || c == ']' {
        var ok := CloseBracket(tokens, if c == '}' then Object else Array);
        if !ok {
          r := ERROR_INVAL;
        }
      } else if c == '\"' {
        counted := true;
        r := StoreString(js, tokens, numTokens);
      } else if IsBlank(c) {
      } else if c == ':' {
        toksuper := toknext - 1;
      } else if c == ',' {
        Comma(tokens);
      } else if build.strict && !StartsStrictPrimitive(c) {
        r := ERROR_INVAL;
      } else {
        counted := true;
        r := StorePrimitive(js, tokens, numTokens);
      }
    }

    /** The same switch when there are no tokens to store. */
    method CountLexeme(js: string) returns (r: int, counted: bool)
      requires More(js, pos)
      modifies this`pos, this`toknext, this`toksuper
      ensures toknext == old(toknext)
      ensures match LexemeAt(build.strict, js, old(pos))
              case Broken(e) => r == Code(e) && pos == old(pos) && toksuper == old(toksuper)
              case Lexeme(end, counts) =>
                r >= 0 && pos + 1 == end && counted == counts &&
                toksuper == if js[old(pos)] == ':' then toknext - 1 else old(toksuper)
    {
      var c := js[pos];
      r, counted := 0, false;
      if c == '{' || c == '[' {
        counted := true;
      } else if c == '}' || c == ']' || IsBlank(c) || c == ',' {
      } else if c == '\"' {
        counted := true;
        r := ParseString(js, null, 0);
      } else if c == ':' {
        toksuper := toknext - 1;
      } else if build.strict && !StartsStrictPrimitive(c) {
        r := ERROR_INVAL;
      } else {
        counted := true;
        r := ParsePrimitive(js, null, 0);
      }
    }

    /** jsmn_parse */
    method Parse(js: string, tokens: array?<Token>, numTokens: nat) returns (r: int)
      requires tokens != null ==> Valid(tokens) && numTokens <= tokens.Length
      modifies this`pos, this`toknext, this`toksuper, tokens
      ensures tokens != null ==> Valid(tokens)
      ensures tokens != null ==>
                var call := JsmnSpec.Parse(build, js, numTokens, old(Snapshot(tokens)));
                Snapshot(tokens) == call.state && r == Result(call.verdict)
      ensures tokens == null ==>
                var tally := CountFrom(build.strict, js, old(pos), old(toknext), old(toksuper), old(toknext) - 1);
                toknext == old(toknext) && pos == tally.pos && toksuper == tally.super && r == Result(tally.verdict)
    {
      hide Step;
      var count := toknext;
      while pos < |js| && js[pos] != '\0'
        invariant tokens != null ==> Valid(tokens) && count == toknext
        invariant tokens != null ==>
                    RunFrom(build, js, numTokens, old(Snapshot(tokens))) == RunFrom(build, js, numTokens, Snapshot(tokens))
        invariant tokens == null ==> toknext == old(toknext)
        invariant tokens == null ==>
                    CountFrom(build.strict, js, old(pos), old(toknext), old(toksuper), toknext - 1) ==
                    CountFrom(build.strict, js, pos, count, toksuper, toknext - 1)
        decreases |js| - pos
      {
        var counted;
        if tokens != null {
          r, counted := StoreLexeme(js, tokens, numTokens);
        } else {
          r, counted := CountLexeme(js);
        }
        if r < 0 {
          return;
        }
        if counted {
          count := count + 1;
        }
        pos := pos + 1;
      }
      if tokens != null {
        var open := SomeOpen(tokens);
        if open {
          return ERROR_PART;
        }
      }
      return count;
    }
  }
}
