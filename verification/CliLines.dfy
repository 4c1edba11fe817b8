/** Command lines as they are typed: a name, arguments behind spaces, and spaces
    at the end. */
module CliLines {
  import opened CliWords
  import opened CliInterpreter

  /** An argument and the number of spaces in front of it. */
  datatype Argument = Argument(gap: nat, word: CString)

  predicate IsWord(w: CString) { w != "" && ' ' !in w }

  predicate Typed(args: seq<Argument>) { forall i :: 0 <= i < |args| ==> args[i].gap >= 1 && IsWord(args[i].word) }

  function Spaces(n: nat): (s: CString)
    ensures |s| == n && forall i :: 0 <= i < n ==> s[i] == ' '
  {
    seq(n, _ => ' ')
  }

  function Join(name: CString, args: seq<Argument>): CString {
    if args == [] then name
    else
      var last := args[|args| - 1];
      Join(name, args[..|args| - 1]) + Spaces(last.gap) + last.word
  }

  function Line(name: CString, args: seq<Argument>, trail: nat): CString { Join(name, args) + Spaces(trail) }

  // ---------- the scanners read the arguments back ----------

  lemma {:induction false} StartsOfPrefix(s: CString, t: CString, n: nat)
    requires s <= t && n <= |s|
    ensures Starts(t, n) == Starts(s, n)
    decreases n
  {
    if n == 0 {
    } else {
      StartsOfPrefix(s, t, n - 1);
    }
  }

  /** A word does not grow when a space follows. */
  lemma {:induction false} WordEndOfPrefix(s: CString, t: CString, i: nat)
    requires s <= t && i <= |s| && (|s| < |t| ==> t[|s|] == ' ')
    ensures WordEnd(t, i) == WordEnd(s, i)
    decreases |s| - i
  {
    if i == |s| || s[i] == ' ' {
    } else {
      WordEndOfPrefix(s, t, i + 1);
    }
  }

  lemma {:induction false} WordEndInside(s: CString, i: nat)
    requires i <= |s| && forall k :: i <= k < |s| ==> s[k] != ' '
    ensures WordEnd(s, i) == |s|
    decreases |s| - i
  {
    if i == |s| {
    } else {
      WordEndInside(s, i + 1);
    }
  }

  /** One more argument is one more parameter. */
  lemma OneMoreArgument(s: CString, gap: nat, w: CString)
    requires gap >= 1 && IsWord(w)
    ensures var t := s + Spaces(gap) + w;
            '\0' !in t && Parameters(t) == Parameters(s) + [|s| + gap] && WordEnd(t, |s| + gap) == |t|
  {
    var t: CString := s + Spaces(gap) + w;
    var i := |s| + gap;
    StartsOfPrefix(s, t, |s|);
    assert forall k :: |s| <= k < i ==> t[k] == ' ';
    assert forall k :: i <= k < |t| ==> t[k] == w[k - i];
    StartsSkip(t, |s|, i);
    assert IsStart(t, i);
    assert Starts(t, i + 1) == Starts(t, i) + [i];
    StartsSkip(t, i + 1, |t|);
    WordEndInside(t, i);
  }

  /** The parameters that are read are the arguments that were typed: as many,
      and each with its own text, however many spaces there are. */
  lemma {:induction false} ArgumentsAreRead(name: CString, args: seq<Argument>)
    requires ' ' !in name && Typed(args)
    ensures var s := Join(name, args);
            && |Parameters(s)| == |args|
            && forall k :: 1 <= k <= |args| ==>
                 var p := ParameterAt(s, k);
                 p.Found? && p.at + p.length <= |s| && s[p.at..p.at + p.length] == args[k - 1].word
  {
    var s := Join(name, args);
    if args == [] {
      StartsSkip(name, 0, |name|);
    } else {
      var n := |args| - 1;
      var last := args[n];
      var before := Join(name, args[..n]);
      ArgumentsAreRead(name, args[..n]);
      OneMoreArgument(before, last.gap, last.word);
      forall k | 1 <= k <= |args| ensures
          var p := ParameterAt(s, k);
          p.Found? && p.at + p.length <= |s| && s[p.at..p.at + p.length] == args[k - 1].word
      {
        if k <= n {
          SameParameter(before, s, k);
        } else {
          assert Parameters(s)[n] == |before| + last.gap;
          assert s[|before| + last.gap..] == last.word;
        }
      }
    }
  }

  lemma SameParameter(s: CString, t: CString, k: nat)
    requires s <= t && Parameters(s) <= Parameters(t) && 1 <= k <= |Parameters(s)| && (|s| < |t| ==> t[|s|] == ' ')
    ensures ParameterAt(t, k) == ParameterAt(s, k)
    ensures var p := ParameterAt(s, k); p.Found? && p.at + p.length <= |s| && t[p.at..p.at + p.length] == s[p.at..p.at + p.length]
  {
    Inside(s, |s|, k - 1);
    WordEndOfPrefix(s, t, Parameters(s)[k - 1]);
  }

  /** Spaces at the end change nothing. */
  lemma LineIsRead(name: CString, args: seq<Argument>, trail: nat)
    requires ' ' !in name && Typed(args)
    ensures var s := Line(name, args, trail);
            && |Parameters(s)| == |args|
            && forall k :: 1 <= k <= |args| ==>
                 var p := ParameterAt(s, k);
                 p.Found? && p.at + p.length <= |s| && s[p.at..p.at + p.length] == args[k - 1].word
  {
    var s := Join(name, args);
    ArgumentsAreRead(name, args);
    SpacesAreNoParameters(s, trail);
    hide Join, Parameters, ParameterAt;
    forall k | 1 <= k <= |args| ensures
        var p := ParameterAt(Line(name, args, trail), k);
        p.Found? && p.at + p.length <= |Line(name, args, trail)| && Line(name, args, trail)[p.at..p.at + p.length] == args[k - 1].word
    {
      SameParameter(s, Line(name, args, trail), k);
    }
  }

  lemma SpacesAreNoParameters(s: CString, trail: nat)
    ensures var t := s + Spaces(trail); '\0' !in t && Parameters(t) == Parameters(s) && (|s| < |t| ==> t[|s|] == ' ')
  {
    var t: CString := s + Spaces(trail);
    StartsOfPrefix(s, t, |s|);
    assert forall i :: |s| <= i < |t| ==> t[i] == ' ';
    StartsSkip(t, |s|, |t|);
  }

  // ---------- which command a line names ----------

  lemma {:induction false} LineBegins(name: CString, args: seq<Argument>, trail: nat)
    requires Typed(args)
    ensures var s := Line(name, args, trail); name <= s && (|s| == |name| || s[|name|] == ' ')
  {
    if args == [] {
    } else {
      LineBegins(name, args[..|args| - 1], 0);
      assert Join(name, args[..|args| - 1]) + Spaces(0) == Join(name, args[..|args| - 1]);
    }
  }

  /** A line names the command with its own name, and no other. */
  lemma OnlyOwnName(name: CString, args: seq<Argument>, trail: nat, other: CString)
    requires ' ' !in name && ' ' !in other && Typed(args)
    ensures Matches(Line(name, args, trail), other) <==> other == name
  {
    var s := Line(name, args, trail);
    LineBegins(name, args, trail);
    if other <= s && |other| < |name| {
      assert s[|other|] == name[|other|];
    }
  }

  /** Names are registered without spaces. */
  predicate Named(c: Cli) { forall i :: 0 <= i < |c.commands| ==> ' ' !in c.commands[i].name }

  /** A command that expects this number is served with n parameters: up to 127
      they are as many as expected, and beyond that they count modulo 256. */
  predicate Takes(expected: int, n: nat) { expected < 0 || (expected <= 127 && n % 256 == expected) }

  /** An idle dispatcher and a line: the first command with the name is served
      if it takes any number of parameters or the number typed, which is counted
      in eight bits; other numbers and other names are turned away. */
  lemma LineIsServed(c: Cli, name: CString, args: seq<Argument>, trail: nat, reply: Reply, room: nat, i: nat)
    requires Steady(c) && c.pinned == -1 && Named(c) && ' ' !in name && Typed(args)
    requires i <= |c.commands| && (i < |c.commands| ==> c.commands[i].name == name)
    requires forall k :: 0 <= k < i ==> c.commands[k].name != name
    ensures Process(c, Line(name, args, trail), reply, room) ==
            if i == |c.commands| then Answer(c, Reply(Fit(UNRECOGNISED, room), false))
            else if Takes(c.commands[i].expected, |args|) then Invoke(c, i, reply, room)
            else Answer(c, Reply(Fit(INCORRECT, room), false))
  {
    var s := Line(name, args, trail);
    LineIsRead(name, args, trail);
    forall k | 0 <= k < |c.commands| ensures Matches(s, c.commands[k].name) <==> c.commands[k].name == name {
      OnlyOwnName(name, args, trail, c.commands[k].name);
    }
    hide Line, Matches, Parameters;
    IdlePicksFirstMatch(c, s, reply, room, i);
  }

  /** So "help" is served with no argument, or with a multiple of 256, which
      the count takes for none, and a longer name is not help. */
  lemma HelpTakesNothing(c: Cli, args: seq<Argument>, trail: nat, reply: Reply, room: nat)
    requires Steady(c) && c.pinned == -1 && Typed(args)
    ensures Process(c, Line("help", args, trail), reply, room) ==
            if |args| % 256 == 0 then Invoke(c, 0, reply, room)
            else Answer(c, Reply(Fit(INCORRECT, room), false))
  {
    LineIsRead("help", args, trail);
    OnlyOwnName("help", args, trail, "help");
    hide Line, Matches, Parameters;
    IdlePicksFirstMatch(c, Line("help", args, trail), reply, room, 0);
  }

  lemma LongerIsNotHelp(name: CString, args: seq<Argument>, trail: nat)
    requires ' ' !in name && Typed(args) && "help" < name
    ensures !Matches(Line(name, args, trail), INITIAL.commands[0].name)
  {
    OnlyOwnName(name, args, trail, "help");
  }
}
