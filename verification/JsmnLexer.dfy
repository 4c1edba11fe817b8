/** Where a quoted string or an unquoted primitive ends. */
module JsmnLexer {
  import opened JsmnBytes

  /** The guard shared by every loop of the tokenizer: data ends at the given
      length or at the first NUL. */
  predicate More(js: string, i: nat) { i < |js| && js[i] != '\0' }

  /** A NUL ends the data; so do these bytes end a primitive. */
  predicate EndsPrimitive(strict: bool, c: char) {
    c == '\t' || c == '\r' || c == '\n' || c == ' ' || c == ',' || c == ']' || c == '}' || (!strict && c == ':')
  }

  predicate Printable(c: char) { ' ' <= c < '\U{7f}' }

  predicate IsHex(c: char) { '0' <= c <= '9' || 'A' <= c <= 'F' || 'a' <= c <= 'f' }

  predicate IsShortEscape(c: char) {
    c == '\"' || c == '/' || c == '\\' || c == 'b' || c == 'f' || c == 'r' || c == 'n' || c == 't'
  }

  datatype Scan = Found(at: nat) | Bad | Cut

  /** The end of the primitive whose bytes before i are already accepted. */
  function PrimitiveEnd(strict: bool, js: string, i: nat): (r: Scan)
    ensures r.Found? ==> i <= r.at && (i <= |js| ==> r.at <= |js|)
    ensures if strict then r.Found? ==> r.at < |js| else r != Cut
    decreases |js| - i
  {
    if !More(js, i) then if strict then Cut else Found(i)
    else if EndsPrimitive(strict, js[i]) then Found(i)
    else if !Printable(js[i]) then Bad
    else PrimitiveEnd(strict, js, i + 1)
  }

  /** The result in full: a primitive is a word.  It is found with what delimits
      it, cut by the end of the data in strict mode, and bad before any other
      byte. */
  lemma {:induction false} PrimitiveEndIs(strict: bool, js: string, i: nat, e: nat)
    requires i <= |js|
    ensures var whole := i <= e <= |js| && forall k :: i <= k < e ==> WordByte(strict, js[k]);
            var more := e < |js| && js[e] as int != 0;
            && (PrimitiveEnd(strict, js, i) == Found(e) <==> whole && Delimits(strict, js, e))
            && (whole && strict && !more ==> PrimitiveEnd(strict, js, i) == Cut)
            && (whole && more && !EndsWord(strict, js[e]) && !WordByte(strict, js[e]) ==> PrimitiveEnd(strict, js, i) == Bad)
    decreases |js| - i
  {
    if More(js, i) && !EndsPrimitive(strict, js[i]) && Printable(js[i]) {
      PrimitiveEndIs(strict, js, i + 1, e);
    }
  }

  /** Steps over up to n hexadecimal digits; data may end before n are seen. */
  function HexEnd(js: string, i: nat, n: nat): (r: Scan)
    ensures r.Found? ==> i <= r.at <= i + n && (i <= |js| ==> r.at <= |js|)
    decreases n
  {
    if n == 0 || !More(js, i) then Found(i)
    else if !IsHex(js[i]) then Bad
    else HexEnd(js, i + 1, n - 1)
  }

  /** The closing quote of the string whose bytes before i are already accepted. */
  function StringEnd(js: string, i: nat): (r: Scan)
    ensures r.Found? ==> i <= r.at < |js| && js[r.at] == '\"'
    decreases |js| - i
  {
    if !More(js, i) then Cut
    else if js[i] == '\"' then Found(i)
    else if js[i] == '\\' && i + 1 < |js| then
      if IsShortEscape(js[i + 1]) then StringEnd(js, i + 2)
      else if js[i + 1] == 'u' then
        match HexEnd(js, i + 2, 4)
        case Found(j) => StringEnd(js, j)
        case _ => Bad
      else Bad
    else StringEnd(js, i + 1)
  }
}
