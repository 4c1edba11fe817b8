/** What strings mean: a writer and a reader of RFC 8259, section 7, and the
    parser between them. */
module JsmnStrings {
  import opened JsmnTypes
  import opened JsmnBytes
  import opened JsmnLexer
  import opened JsmnSpec
  import opened JsmnInvariants
  import opened JsmnJson
  import opened JsmnLexemes
  import opened JsmnRoundTrip

  /** A UTF-16 code unit; below 0x100 also a byte of the text. */
  type unit = u: int | 0 <= u < 0x10000

  // ---------- writing ----------

  /** A character can stand for itself, have a short escape, or be written by
      its four hexadecimal digits, each in either case. */
  datatype Form = Itself | Short | Digits(upper: seq<bool>)

  predicate CanWrite(u: unit, form: Form) {
    match form
    case Itself => 0x20 <= u < 0x100 && u != 0x22 && u != 0x5C
    case Short => u in {0x22, 0x5C, 0x2F, 0x08, 0x0C, 0x0A, 0x0D, 0x09}
    case Digits(upper) => |upper| == 4
  }

  function ShortLetter(u: unit): char
    requires CanWrite(u, Short)
  {
    if u == 0x08 then 'b'
    else if u == 0x0C then 'f'
    else if u == 0x0A then 'n'
    else if u == 0x0D then 'r'
    else if u == 0x09 then 't'
    else u as char
  }

  function Digit(d: int, upper: bool): char
    requires 0 <= d < 16
  {
    if d < 10 then (0x30 + d) as char else if upper then (0x37 + d) as char else (0x57 + d) as char
  }

  function Written(u: unit, form: Form): string
    requires CanWrite(u, form)
  {
    match form
    case Itself => [u as char]
    case Short => ['\\', ShortLetter(u)]
    case Digits(upper) =>
      ['\\', 'u', Digit(u / 0x1000, upper[0]), Digit(u / 0x100 % 0x10, upper[1]), Digit(u / 0x10 % 0x10, upper[2]), Digit(u % 0x10, upper[3])]
  }

  predicate CanWriteAll(us: seq<unit>, forms: seq<Form>) {
    |us| == |forms| && forall i :: 0 <= i < |us| ==> CanWrite(us[i], forms[i])
  }

  function Encode(us: seq<unit>, forms: seq<Form>): string
    requires CanWriteAll(us, forms)
  {
    if us == [] then [] else Written(us[0], forms[0]) + Encode(us[1..], forms[1..])
  }

  // ---------- reading ----------

  datatype Option<T> = None | Some(value: T)

  function DigitValue(c: char): int {
    if '0' <= c <= '9' then c as int - '0' as int
    else if 'a' <= c <= 'f' then c as int - 'a' as int + 10
    else if 'A' <= c <= 'F' then c as int - 'A' as int + 10
    else -1
  }

  /** The first character of a text, and how many bytes it takes. */
  function First(s: string): Option<(int, nat)>
    requires s != []
    ensures First(s).Some? ==> 0 < First(s).value.1 <= |s|
  {
    if s[0] == '\"' then None
    else if s[0] != '\\' then Some((s[0] as int, 1))
    else if |s| < 2 then None
    else
      match s[1]
      case '\"' => Some((0x22, 2))
      case '\\' => Some((0x5C, 2))
      case '/' => Some((0x2F, 2))
      case 'b' => Some((0x08, 2))
      case 'f' => Some((0x0C, 2))
      case 'n' => Some((0x0A, 2))
      case 'r' => Some((0x0D, 2))
      case 't' => Some((0x09, 2))
      case 'u' =>
        if |s| < 6 then None
        else
          var a, b, c, d := DigitValue(s[2]), DigitValue(s[3]), DigitValue(s[4]), DigitValue(s[5]);
          if a < 0 || b < 0 || c < 0 || d < 0 then None else Some((((a * 16 + b) * 16 + c) * 16 + d, 6))
      case _ => None
  }

  function Decode(s: string): Option<seq<int>> {
    if s == [] then Some([])
    else
      match First(s)
      case None => None
      case Some((u, n)) =>
        match Decode(s[n..])
        case None => None
        case Some(us) => Some([u] + us)
  }

  lemma DigitIsRead(d: int, upper: bool)
    requires 0 <= d < 16
    ensures DigitValue(Digit(d, upper)) == d && HexDigit(Digit(d, upper))
  {
  }

  lemma DigitsMakeUnit(u: unit)
    ensures ((u / 0x1000 * 16 + u / 0x100 % 0x10) * 16 + u / 0x10 % 0x10) * 16 + u % 0x10 == u
  {
  }

  lemma DigitsAreRead(u: unit, form: Form, rest: string)
    requires CanWrite(u, form) && form.Digits?
    ensures First(Written(u, form) + rest) == Some((u as int, 6))
  {
    var s := Written(u, form) + rest;
    DigitIsRead(u / 0x1000, form.upper[0]);
    DigitIsRead(u / 0x100 % 0x10, form.upper[1]);
    DigitIsRead(u / 0x10 % 0x10, form.upper[2]);
    DigitIsRead(u % 0x10, form.upper[3]);
    DigitsMakeUnit(u);
    hide Digit, DigitValue, HexDigit;
    assert s[0] == '\\' && s[1] == 'u';
    assert s[2] == Digit(u / 0x1000, form.upper[0]) && s[3] == Digit(u / 0x100 % 0x10, form.upper[1]);
    assert s[4] == Digit(u / 0x10 % 0x10, form.upper[2]) && s[5] == Digit(u % 0x10, form.upper[3]);
  }

  lemma ShortIsRead(u: unit, rest: string)
    requires CanWrite(u, Short)
    ensures First(Written(u, Short) + rest) == Some((u as int, 2))
  {
    hide DigitValue;
    var s := Written(u, Short) + rest;
    assert s[0] == '\\' && s[1] == ShortLetter(u);
  }

  lemma FirstIsRead(u: unit, form: Form, rest: string)
    requires CanWrite(u, form)
    ensures First(Written(u, form) + rest) == Some((u as int, |Written(u, form)|))
  {
    match form
    case Itself =>
      assert (Written(u, form) + rest)[0] == u as char;
      hide DigitValue;
    case Short => ShortIsRead(u, rest);
    case Digits(_) => DigitsAreRead(u, form, rest);
  }

  /** Reading gives back what was written, in whatever form. */
  lemma {:induction false} DecodeEncode(us: seq<unit>, forms: seq<Form>)
    requires CanWriteAll(us, forms)
    ensures Decode(Encode(us, forms)) == Some(us)
    decreases |us|
  {
    if us == [] {
    } else {
      var s := Encode(us, forms);
      var first := Written(us[0], forms[0]);
      FirstIsRead(us[0], forms[0], Encode(us[1..], forms[1..]));
      DecodeEncode(us[1..], forms[1..]);
      hide Written, First;
      assert s[|first|..] == Encode(us[1..], forms[1..]);
      assert us == [us[0]] + us[1..];
    }
  }

  // ---------- the parser in between ----------

  function PieceOf(u: unit, form: Form): Piece
    requires CanWrite(u, form)
  {
    match form
    case Itself => Plain(u as char)
    case Short => Escape(ShortLetter(u))
    case Digits(_) => Unicode(Written(u, form)[2..])
  }

  lemma PieceOfIsLegal(u: unit, form: Form)
    requires CanWrite(u, form)
    ensures LegalPiece(PieceOf(u, form)) && PieceText(PieceOf(u, form)) == Written(u, form)
  {
    if form.Digits? {
      DigitIsRead(u / 0x1000, form.upper[0]);
      DigitIsRead(u / 0x100 % 0x10, form.upper[1]);
      DigitIsRead(u / 0x10 % 0x10, form.upper[2]);
      DigitIsRead(u % 0x10, form.upper[3]);
      hide Digit, DigitValue, HexDigit;
    }
  }

  lemma {:induction false} PiecesOf(us: seq<unit>, forms: seq<Form>) returns (ps: seq<Piece>)
    requires CanWriteAll(us, forms)
    ensures LegalBody(ps) && BodyText(ps) == Encode(us, forms)
    decreases |us|
  {
    if us == [] {
      ps := [];
    } else {
      PieceOfIsLegal(us[0], forms[0]);
      var rest := PiecesOf(us[1..], forms[1..]);
      hide Written, PieceText, LegalPiece, PieceOf;
      ps := [PieceOf(us[0], forms[0])] + rest;
      assert ps[1..] == rest;
    }
  }

  /** The text of a string, and of what is around it. */
  function StringText(lead: string, body: string, trail: string): string {
    lead + (['\"'] + body + ['\"']) + trail
  }

  /** Any characters, written in any form, parse in every build to one token
      whose span reads back as the characters. */
  lemma StringRoundTrip(b: Build, lead: string, us: seq<unit>, forms: seq<Form>, trail: string, cap: int)
    requires CanWriteAll(us, forms) && Blank(lead) && Blank(trail) && 1 <= cap
    ensures var body := Encode(us, forms);
            var js := StringText(lead, body, trail);
            var t := Token(Str, |lead| + 1, |lead| + 1 + |body|, 0, -1);
            && Parse(b, js, cap, FRESH) == Call(State(|js|, [t], -1), Done(1))
            && Decode(js[t.start..t.end]) == Some(us)
  {
    hide Parse, Blank, Decode, Encode, BodyText, LegalBody;
    var body := Encode(us, forms);
    var js := StringText(lead, body, trail);
    var ps := PiecesOf(us, forms);
    assert js == Document(lead, Quoted(ps), trail);
    RoundTrip(b, lead, Quoted(ps), trail, cap);
    DecodeEncode(us, forms);
    assert js[|lead| + 1..|lead| + 1 + |body|] == body;
  }

  /** A backslash before any byte but the eight letters of short escapes and u
      is invalid, in every build and with any room. */
  lemma BadEscape(b: Build, lead: string, us: seq<unit>, forms: seq<Form>, c: char, rest: string, cap: int)
    requires CanWriteAll(us, forms) && Blank(lead)
    requires c as int !in {0x22, 0x5C, 0x2F, 0x62, 0x66, 0x6E, 0x72, 0x74, 0x75}
    ensures Parse(b, lead + (['\"'] + (Encode(us, forms) + (['\\', c] + rest))), cap, FRESH).verdict == Error(Inval)
  {
    hide Encode, BodyText, LegalBody;
    var ps := PiecesOf(us, forms);
    var tail := ['\\', c] + rest;
    var js := lead + (['\"'] + (BodyText(ps) + tail));
    var i := |lead| + 1 + |BodyText(ps)|;
    StringBegins(lead, ps, tail);
    assert js[i] == '\\' && js[i + 1] == c;
    assert StringEnd(js, i) == Bad;
    StringRefused(b, lead, ps, tail, cap);
  }

  /** So are fewer than four hexadecimal digits behind the u and another byte. */
  lemma BadDigits(b: Build, lead: string, us: seq<unit>, forms: seq<Form>, digits: string, c: char, rest: string, cap: int)
    requires CanWriteAll(us, forms) && Blank(lead)
    requires |digits| < 4 && (forall k :: 0 <= k < |digits| ==> HexDigit(digits[k])) && !HexDigit(c) && c as int != 0
    ensures Parse(b, lead + (['\"'] + (Encode(us, forms) + (['\\', 'u'] + digits + [c] + rest))), cap, FRESH).verdict == Error(Inval)
  {
    hide Encode, BodyText, LegalBody;
    var ps := PiecesOf(us, forms);
    var tail := ['\\', 'u'] + digits + [c] + rest;
    var js := lead + (['\"'] + (BodyText(ps) + tail));
    var i := |lead| + 1 + |BodyText(ps)|;
    StringBegins(lead, ps, tail);
    assert js[i] == '\\' && js[i + 1] == 'u' && js[i + 2 + |digits|] == c;
    assert forall k :: 0 <= k < |digits| ==> js[i + 2 + k] == digits[k];
    HexEndBad(js, i + 2, 4, |digits|);
    assert StringEnd(js, i) == Bad;
    StringRefused(b, lead, ps, tail, cap);
  }

  lemma {:induction false} HexEndBad(js: string, i: nat, n: nat, k: nat)
    requires k < n && i + k < |js| && (forall j :: i <= j < i + k ==> HexDigit(js[j])) && !HexDigit(js[i + k]) && js[i + k] as int != 0
    ensures HexEnd(js, i, n) == Bad
    decreases n
  {
    if k == 0 {
    } else {
      HexEndBad(js, i + 1, n - 1, k - 1);
    }
  }

  /** The characters of a string that begins at the quote behind lead. */
  lemma StringBegins(lead: string, ps: seq<Piece>, tail: string)
    requires LegalBody(ps) && tail != []
    ensures var js := lead + (['\"'] + (BodyText(ps) + tail));
            StringEnd(js, |lead| + 1) == StringEnd(js, |lead| + 1 + |BodyText(ps)|)
  {
    hide BodyText, LegalBody;
    var js := lead + (['\"'] + (BodyText(ps) + tail));
    assert js[|lead| + 1..|lead| + 1 + |BodyText(ps) + tail|] == BodyText(ps) + tail;
    PiecesRun(js, |lead| + 1, ps, tail);
  }

  lemma BadStringStep(b: Build, js: string, cap: int, s: State)
    requires WellFormed(s) && s.pos < |js| && js[s.pos] == '\"' && StringEnd(js, s.pos + 1) == Bad
    ensures Step(b, js, cap, s) == Fail(Inval)
  {
    hide StringEnd, WellFormed, OpenStep, CloseStep, PrimitiveStep, CommaSuper;
  }

  lemma StringRefused(b: Build, lead: string, ps: seq<Piece>, tail: string, cap: int)
    requires Blank(lead)
    requires var js := lead + (['\"'] + (BodyText(ps) + tail)); StringEnd(js, |lead| + 1) == Bad
    ensures Parse(b, lead + (['\"'] + (BodyText(ps) + tail)), cap, FRESH).verdict == Error(Inval)
  {
    hide BodyText, StringEnd, Blank, At, Sound, Step;
    var js := lead + (['\"'] + (BodyText(ps) + tail));
    AtWhole(js);
    AtSplit(js, 0, lead, ['\"'] + (BodyText(ps) + tail));
    SoundAtStart(b, js);
    BlankRuns(b, js, cap, FRESH, lead);
    assert js[|lead|] == '\"';
    BadStringStep(b, js, cap, State(|lead|, [], -1));
  }
}
