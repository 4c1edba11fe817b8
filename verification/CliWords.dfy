/** The two word scanners of the command interpreter, which were written
    independently and must agree. */
module CliWords {

  /** A string as C has it: the NUL that ends it is not part of it. */
  type CString = s: string | '\0' !in s witness ""

  /** A parameter begins at i: a byte that is no space, after a space. */
  predicate IsStart(s: CString, i: nat) { 0 < i < |s| && s[i - 1] == ' ' && s[i] != ' ' }

  /** The parameters that begin before n, by their first positions. */
  function Starts(s: CString, n: nat): seq<nat> {
    if n == 0 then [] else Starts(s, n - 1) + if IsStart(s, n - 1) then [n - 1] else []
  }

  function Parameters(s: CString): seq<nat> { Starts(s, |s|) }

  /** The position behind the word that i is in. */
  function WordEnd(s: CString, i: nat): (r: nat)
    requires i <= |s|
    ensures i <= r <= |s| && (r < |s| ==> s[r] == ' ')
    ensures forall k :: i <= k < r ==> s[k] != ' '
    decreases |s| - i
  {
    if i == |s| || s[i] == ' ' then i else WordEnd(s, i + 1)
  }

  lemma {:induction false} StartsSkip(s: CString, a: nat, b: nat)
    requires a <= b && forall i :: a <= i < b ==> !IsStart(s, i)
    ensures Starts(s, b) == Starts(s, a)
    decreases b
  {
    if a < b {
      StartsSkip(s, a, b - 1);
    }
  }

  lemma {:induction false} StartsGrow(s: CString, a: nat, b: nat)
    requires a <= b
    ensures Starts(s, a) <= Starts(s, b)
    decreases b
  {
    if a < b {
      StartsGrow(s, a, b - 1);
    }
  }

  // ---------- the scanners ----------

  /** The value of an int8_t after a computation that exceeds its range. */
  function WrapInt8(n: int): (r: int)
    ensures -128 <= r <= 127 && (n - r) % 256 == 0
  {
    (n + 128) % 256 - 128
  }

  lemma WrapAgain(n: int, k: int)
    ensures WrapInt8(WrapInt8(n) + k) == WrapInt8(n + k)
  {
  }

  lemma OneMoreByte(s: CString, i: nat)
    requires i < |s|
    ensures |Starts(s, i + 1)| == |Starts(s, i)| + if IsStart(s, i) then 1 else 0
  {
  }

  /** prvGetNumberOfParameters */
  method GetNumberOfParameters(s: CString) returns (count: int)
    ensures count == WrapInt8(|Parameters(s)|)
  {
    assert WrapInt8(|Starts(s, 0)|) == 0;
    hide WrapInt8, Starts;
    count := 0;
    var lastCharacterWasSpace := false;
    var i := 0;
    while i < |s|
      invariant 0 <= i <= |s|
      invariant lastCharacterWasSpace <==> i > 0 && s[i - 1] == ' '
      invariant count == WrapInt8(|Starts(s, i)| + if lastCharacterWasSpace then 1 else 0)
    {
      OneMoreByte(s, i);
      if s[i] == ' ' {
        if !lastCharacterWasSpace {
          WrapAgain(|Starts(s, i)|, 1);
          count := WrapInt8(count + 1);
          lastCharacterWasSpace := true;
        }
      } else {
        lastCharacterWasSpace := false;
      }
      i := i + 1;
    }
    if lastCharacterWasSpace {
      WrapAgain(|Parameters(s)| + 1, -1);
      count := WrapInt8(count - 1);
    }
  }

  /** What FreeRTOS_CLIGetParameter returns: a position or null, and a length. */
  datatype Parameter = Found(at: nat, length: nat) | Missing

  function ParameterAt(s: CString, wanted: nat): Parameter {
    if 1 <= wanted <= |Parameters(s)| then
      var i := Parameters(s)[wanted - 1];
      Inside(s, |s|, wanted - 1);
      Found(i, WordEnd(s, i) - i)
    else Missing
  }

  lemma {:induction false} Inside(s: CString, n: nat, k: nat)
    requires n <= |s| && k < |Starts(s, n)|
    ensures IsStart(s, Starts(s, n)[k]) && Starts(s, n)[k] < n
  {
    if k < |Starts(s, n - 1)| {
      Inside(s, n - 1, k);
    }
  }

  /** FreeRTOS_CLIGetParameter */
  method GetParameter(s: CString, wanted: nat) returns (r: Parameter)
    ensures r == ParameterAt(s, wanted)
  {
    var found := 0;
    var p := 0;
    while found < wanted
      invariant 0 <= p <= |s| && found == |Starts(s, p + 1)|
      invariant found <= wanted && (found == wanted ==> wanted == 0)
      decreases |s| - p, wanted - found
    {
      var next := NextWord(s, p);
      if next == |s| {
        NoStartAtEnd(s);
        return Missing;
      }
      found := found + 1;
      p := next;
      if found == wanted {
        var length := WordLength(s, p);
        WantedIsHere(s, p);
        return if length == 0 then Missing else Found(p, length);
      }
    }
    return Missing;
  }

  /** The two inner loops: past the current word, then to the next one. */
  method NextWord(s: CString, from: nat) returns (p: nat)
    requires from <= |s|
    ensures from <= p <= |s|
    ensures p < |s| ==> from < p && IsStart(s, p) && |Starts(s, p + 1)| == |Starts(s, from + 1)| + 1
    ensures p == |s| ==> |Starts(s, |s| + 1)| == |Starts(s, from + 1)|
  {
    p := from;
    while p < |s| && s[p] != ' '
      invariant from <= p <= |s|
      invariant forall i :: from <= i < p ==> s[i] != ' '
    {
      p := p + 1;
    }
    ghost var gap := p;
    while p < |s| && s[p] == ' '
      invariant gap <= p <= |s|
      invariant forall i :: gap <= i < p ==> s[i] == ' '
    {
      p := p + 1;
    }
    if from < p {
      forall i | from + 1 <= i < p ensures !IsStart(s, i) {
        assert i < gap || s[i] == ' ';
      }
      StartsSkip(s, from + 1, p);
    }
  }

  /** The loop that measures a parameter. */
  method WordLength(s: CString, at: nat) returns (length: nat)
    requires at <= |s|
    ensures length == WordEnd(s, at) - at
  {
    length := 0;
    var p := at;
    while p < |s| && s[p] != ' '
      invariant at <= p <= |s| && length == p - at
      invariant WordEnd(s, at) == WordEnd(s, p)
    {
      length := length + 1;
      p := p + 1;
    }
  }

  lemma NoStartAtEnd(s: CString)
    ensures Starts(s, |s| + 1) == Parameters(s)
  {
  }

  lemma WantedIsHere(s: CString, p: nat)
    requires p < |s| && IsStart(s, p)
    ensures var n := |Starts(s, p + 1)|; 1 <= n <= |Parameters(s)| && Parameters(s)[n - 1] == p
    ensures WordEnd(s, p) > p
  {
    StartsGrow(s, p + 1, |s|);
  }

  // ---------- what the scanners mean ----------

  /** The parameter with a given number is a maximal word: spaces or the ends
      of the string bound it, and it holds none. */
  lemma ParameterIsWord(s: CString, wanted: nat)
    requires ParameterAt(s, wanted).Found?
    ensures var Found(at, length) := ParameterAt(s, wanted);
            && 0 < at && 0 < length && at + length <= |s| && s[at - 1] == ' '
            && (at + length < |s| ==> s[at + length] == ' ')
            && forall i :: at <= i < at + length ==> s[i] != ' '
  {
    Inside(s, |s|, wanted - 1);
  }

  /** Every byte behind the command that is no space is in a parameter. */
  lemma EveryWordIsParameter(s: CString, i: nat, space: nat) returns (wanted: nat)
    requires space < i < |s| && s[space] == ' ' && s[i] != ' '
    ensures var p := ParameterAt(s, wanted); p.Found? && p.at <= i < p.at + p.length
  {
    var at := i;
    while s[at - 1] != ' '
      invariant space < at <= i && forall k :: at <= k <= i ==> s[k] != ' '
      decreases at
    {
      at := at - 1;
    }
    assert Starts(s, at + 1) == Starts(s, at) + [at];
    StartsGrow(s, at + 1, |s|);
    wanted := |Starts(s, at + 1)|;
    assert Parameters(s)[wanted - 1] == at;
  }

  lemma {:induction false} StartsInOrder(s: CString, n: nat, j: nat, k: nat)
    requires n <= |s| && j < k < |Starts(s, n)|
    ensures Starts(s, n)[j] < Starts(s, n)[k]
  {
    if k < |Starts(s, n - 1)| {
      StartsInOrder(s, n - 1, j, k);
    } else {
      Inside(s, n - 1, j);
    }
  }

  /** Parameters come in the order of their numbers, with a space between any
      two; so the words of the input are numbered from left to right. */
  lemma ParametersInOrder(s: CString, j: nat, k: nat)
    requires 1 <= j < k && ParameterAt(s, k).Found?
    ensures ParameterAt(s, j).Found? && ParameterAt(s, j).at + ParameterAt(s, j).length < ParameterAt(s, k).at
  {
    StartsInOrder(s, |s|, j - 1, k - 1);
    Inside(s, |s|, j - 1);
    Inside(s, |s|, k - 1);
    var p, q := ParameterAt(s, j), ParameterAt(s, k);
    assert s[q.at - 1] == ' ' && forall i :: p.at <= i < p.at + p.length ==> s[i] != ' ';
  }

  /** The scanners agree, for every number, exactly while the count fits the
      eight bits that the counting scanner has for it. */
  lemma ScannersAgree(s: CString)
    ensures (forall wanted: nat :: ParameterAt(s, wanted).Found? <==> 1 <= wanted <= WrapInt8(|Parameters(s)|)) <==>
            |Parameters(s)| <= 127
  {
    var n := |Parameters(s)|;
    if n > 127 {
      assert ParameterAt(s, n).Found?;
      assert WrapInt8(n) < n;
    }
  }
}
