/** What ends a string, what a string may hold, and what cuts it. */
module JsmnLexemes {
  import opened JsmnBytes
  import opened JsmnLexer
  import opened JsmnJson

  // ---------- a piece of text at a place ----------

  ghost predicate At(js: string, at: nat, s: string) {
    at + |s| <= |js| && js[at..at + |s|] == s
  }

  lemma AtSplit(js: string, at: nat, s: string, t: string)
    requires At(js, at, s + t)
    ensures At(js, at, s) && At(js, at + |s|, t)
  {
    assert (s + t)[..|s|] == s;
    assert (s + t)[|s|..] == t;
  }

  lemma AtWhole(s: string)
    ensures At(s, 0, s)
  {
  }

  lemma AtLength(js: string, at: nat, s: string)
    requires At(js, at, s)
    ensures at + |s| <= |js|
  {
  }

  lemma AtByte(js: string, at: nat, s: string, i: nat)
    requires At(js, at, s) && i < |s|
    ensures js[at + i] == s[i]
  {
    assert js[at..at + |s|][i] == s[i];
  }

  // ---------- lexemes ----------

  lemma PieceRuns(js: string, i: nat, p: Piece)
    requires LegalPiece(p) && At(js, i, PieceText(p))
    requires i + |PieceText(p)| < |js|
    ensures StringEnd(js, i) == StringEnd(js, i + |PieceText(p)|)
  {
    AtByte(js, i, PieceText(p), 0);
    match p
    case Plain(c) =>
    case Escape(c) =>
      AtByte(js, i, PieceText(p), 1);
    case Unicode(d) =>
      AtByte(js, i, PieceText(p), 1);
      AtByte(js, i, PieceText(p), 2);
      AtByte(js, i, PieceText(p), 3);
      AtByte(js, i, PieceText(p), 4);
      AtByte(js, i, PieceText(p), 5);
      assert HexEnd(js, i + 2, 4) == HexEnd(js, i + 3, 3) == HexEnd(js, i + 4, 2) == HexEnd(js, i + 5, 1) == Found(i + 6);
  }

  lemma {:induction false} PiecesRun(js: string, i: nat, ps: seq<Piece>, tail: string)
    requires LegalBody(ps) && tail != [] && At(js, i, BodyText(ps) + tail)
    ensures StringEnd(js, i) == StringEnd(js, i + |BodyText(ps)|)
    decreases |ps|
  {
    hide StringEnd, At, PieceText, LegalPiece;
    if ps == [] {
    } else {
      var rest := BodyText(ps[1..]) + tail;
      assert BodyText(ps) + tail == PieceText(ps[0]) + rest;
      AtSplit(js, i, PieceText(ps[0]), rest);
      PieceRuns(js, i, ps[0]);
      PiecesRun(js, i + |PieceText(ps[0])|, ps[1..], tail);
    }
  }

  lemma BodyRuns(js: string, i: nat, ps: seq<Piece>)
    requires LegalBody(ps) && At(js, i, BodyText(ps) + ['\"'])
    ensures StringEnd(js, i) == Found(i + |BodyText(ps)|)
  {
    PiecesRun(js, i, ps, ['\"']);
    AtSplit(js, i, BodyText(ps), ['\"']);
    AtByte(js, i + |BodyText(ps)|, ['\"'], 0);
  }

  lemma WordRuns(strict: bool, js: string, i: nat, s: string)
    requires At(js, i, s) && Delimits(strict, js, i + |s|)
    requires forall k :: 0 <= k < |s| ==> WordByte(strict, s[k])
    ensures PrimitiveEnd(strict, js, i) == Found(i + |s|)
  {
    forall k | i <= k < i + |s| ensures WordByte(strict, js[k]) {
      AtByte(js, i, s, k - i);
    }
    PrimitiveEndIs(strict, js, i, i + |s|);
  }

  // ---------- which strings end ----------

  lemma AtJoin(js: string, at: nat, s: string, t: string)
    requires At(js, at, s) && At(js, at + |s|, t)
    ensures At(js, at, s + t)
  {
    assert js[at..at + |s + t|] == js[at..at + |s|] + js[at + |s|..at + |s| + |t|];
  }

  /** Either n digits are there, or the data end first. */
  lemma {:induction false} HexEndIs(js: string, i: nat, n: nat)
    requires HexEnd(js, i, n).Found?
    ensures var e := HexEnd(js, i, n).at;
            && i <= e <= i + n && (e < i + n ==> !More(js, e))
            && forall k :: i <= k < e ==> k < |js| && HexDigit(js[k])
    decreases n
  {
    if n > 0 && More(js, i) {
      HexEndIs(js, i + 1, n - 1);
    }
  }

  lemma {:induction false} HexRuns(js: string, i: nat, n: nat)
    requires i + n <= |js| && forall k :: i <= k < i + n ==> HexDigit(js[k])
    ensures HexEnd(js, i, n) == Found(i + n)
    decreases n
  {
    if n == 0 {
    } else {
      HexRuns(js, i + 1, n - 1);
    }
  }

  /** The first character of a string that goes on behind it. */
  lemma FirstPiece(js: string, i: nat) returns (p: Piece)
    requires StringEnd(js, i).Found? && js[i] != '\"'
    ensures LegalPiece(p) && At(js, i, PieceText(p)) && StringEnd(js, i) == StringEnd(js, i + |PieceText(p)|)
  {
    if js[i] != '\\' {
      p := Plain(js[i]);
    } else if IsShortEscape(js[i + 1]) {
      p := Escape(js[i + 1]);
    } else {
      p := FirstUnicode(js, i);
    }
  }

  lemma UnicodeGoesOn(js: string, i: nat)
    requires StringEnd(js, i).Found? && js[i] == '\\' && !IsShortEscape(js[i + 1])
    ensures i + 6 <= |js| && js[i + 1] == 'u' && (forall k :: i + 2 <= k < i + 6 ==> HexDigit(js[k]))
    ensures StringEnd(js, i) == StringEnd(js, i + 6)
  {
    hide IsShortEscape, HexDigit;
    HexEndIs(js, i + 2, 4);
  }

  lemma FirstUnicode(js: string, i: nat) returns (p: Piece)
    requires StringEnd(js, i).Found? && js[i] == '\\' && !IsShortEscape(js[i + 1])
    ensures LegalPiece(p) && At(js, i, PieceText(p)) && StringEnd(js, i) == StringEnd(js, i + |PieceText(p)|)
  {
    hide StringEnd, IsShortEscape, HexDigit;
    UnicodeGoesOn(js, i);
    var d := js[i + 2..i + 6];
    p := Unicode(d);
    assert d[0] == js[i + 2] && d[1] == js[i + 3] && d[2] == js[i + 4] && d[3] == js[i + 5];
    assert js[i..i + 6] == PieceText(p);
  }

  lemma EmptyBody(js: string, i: nat)
    requires i < |js| && js[i] == '\"'
    ensures At(js, i, BodyText([]) + ['\"']) && StringEnd(js, i) == Found(i)
  {
    var none: seq<Piece> := [];
    assert BodyText(none) == [];
    assert BodyText(none) + ['\"'] == ['\"'];
    assert js[i..i + 1] == ['\"'];
  }

  lemma PieceIsSomething(p: Piece)
    ensures PieceText(p) != []
  {
  }

  lemma {:induction false} BodyOf(js: string, i: nat) returns (ps: seq<Piece>)
    requires StringEnd(js, i).Found?
    ensures LegalBody(ps) && At(js, i, BodyText(ps) + ['\"']) && StringEnd(js, i).at == i + |BodyText(ps)|
    decreases |js| - i
  {
    hide StringEnd, At, PieceText, LegalPiece;
    if js[i] == '\"' {
      ps := [];
      EmptyBody(js, i);
    } else {
      var p := FirstPiece(js, i);
      PieceIsSomething(p);
      var rest := BodyOf(js, i + |PieceText(p)|);
      ps := [p] + rest;
      assert ps[1..] == rest;
      AtJoin(js, i, PieceText(p), BodyText(rest) + ['\"']);
      assert BodyText(ps) + ['\"'] == PieceText(p) + (BodyText(rest) + ['\"']);
    }
  }

  /** The scanner accepts exactly the strings of JSON: an end is found if and
      only if legal characters and escapes lead to a quote there. */
  lemma StringEndIsBody(js: string, i: nat, e: nat)
    ensures StringEnd(js, i) == Found(e) <==>
              exists ps: seq<Piece> :: LegalBody(ps) && At(js, i, BodyText(ps) + ['\"']) && e == i + |BodyText(ps)|
  {
    if StringEnd(js, i).Found? {
      var ps := BodyOf(js, i);
    }
    forall ps: seq<Piece> | LegalBody(ps) && At(js, i, BodyText(ps) + ['\"']) ensures StringEnd(js, i) == Found(i + |BodyText(ps)|) {
      BodyRuns(js, i, ps);
    }
  }

  /** A string reported as cut can be completed, unless a NUL ended the data. */
  lemma {:induction false} CutCanEnd(js: string, i: nat) returns (more: string)
    requires i <= |js| && StringEnd(js, i) == Cut && forall k :: i <= k < |js| ==> js[k] != '\0'
    ensures StringEnd(js + more, i).Found?
    decreases |js| - i
  {
    if i == |js| {
      more := "\"";
    } else if js[i] == '\\' && i + 1 == |js| {
      more := "\"\"";
      assert (js + more)[i + 1] == '\"' && StringEnd(js + more, i + 2) == Found(i + 2);
    } else if js[i] == '\\' && js[i + 1] == 'u' {
      var j := HexEnd(js, i + 2, 4).at;
      HexEndIs(js, i + 2, 4);
      if j < i + 6 {
        more := seq(i + 6 - j, _ => '0') + "\"";
        assert j == |js|;
        assert StringEnd(js + more, i + 6) == Found(i + 6);
      } else {
        more := CutCanEnd(js, j);
      }
      HexRuns(js + more, i + 2, 4);
    } else {
      more := CutCanEnd(js, if js[i] == '\\' then i + 2 else i + 1);
    }
  }
}
