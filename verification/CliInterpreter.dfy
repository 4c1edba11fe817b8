/** The command interpreter: an append-only list, a dispatcher that stays with
    one command over several calls, and a second cursor inside help. */
module CliInterpreter {
  import opened CliWords

  /** A command definition.  The functions of other commands are foreign; only
      help is defined here. */
  datatype Command = Command(name: CString, help: string, expected: int)

  const HELP := Command("help", "help:\r\n Lists all the registered commands\r\n\r\n", 0)

  const INCORRECT := "Incorrect command parameter(s).  Enter \"help\" to view a list of available commands.\r\n"
  const UNRECOGNISED := "Command not recognised.  Enter 'help' to view a list of available commands.\r\n"

  /** What strncpy puts into an output buffer with that much room; the padding
      behind it is not part of the text. */
  function Fit(text: string, room: nat): (r: string)
    ensures r <= text && |r| == if |text| < room then |text| else room
  {
    if |text| <= room then text else text[..room]
  }

  /** What a call writes, and whether more output is to come (pdTRUE). */
  datatype Reply = Reply(output: string, more: bool)

  /** The list in order, the command the dispatcher stays with and the command
      whose help text comes next; -1 stands for NULL. */
  datatype Cli = Cli(commands: seq<Command>, pinned: int, cursor: int)

  const INITIAL := Cli([HELP], -1, -1)

  predicate Proper(c: Cli) {
    c.commands != [] && c.commands[0] == HELP && -1 <= c.pinned < |c.commands| && -1 <= c.cursor < |c.commands|
  }

  /** The input begins with the name, and a space or the end follows. */
  predicate Matches(input: CString, name: CString) {
    name <= input && (|input| == |name| || input[|name|] == ' ')
  }

  /** The first command from index from on that the input names, or -1. */
  function FindCommand(commands: seq<Command>, input: CString, from: nat): (r: int)
    requires from <= |commands|
    ensures r == -1 || (from <= r < |commands| && Matches(input, commands[r].name))
    ensures forall i :: from <= i < (if r == -1 then |commands| else r) ==> !Matches(input, commands[i].name)
    decreases |commands| - from
  {
    if from == |commands| then -1
    else if Matches(input, commands[from].name) then from
    else FindCommand(commands, input, from + 1)
  }

  predicate RightCount(input: CString, d: Command) {
    d.expected >= 0 ==> WrapInt8(|Parameters(input)|) == d.expected
  }

  datatype Answer = Answer(cli: Cli, reply: Reply)

  /** Calling the function of the command with index i; reply is what a foreign
      function would return. */
  function Invoke(c: Cli, i: nat, reply: Reply, room: nat): Answer
    requires Proper(c) && i < |c.commands|
  {
    if i == 0 then
      var h := if c.cursor == -1 then 0 else c.cursor;
      var next := if h + 1 < |c.commands| then h + 1 else -1;
      Answer(c.(pinned := if next == -1 then -1 else 0, cursor := next), Reply(Fit(c.commands[h].help, room), next != -1))
    else Answer(c.(pinned := if reply.more then i else -1), reply)
  }

  /** FreeRTOS_CLIProcessCommand */
  function Process(c: Cli, input: CString, reply: Reply, room: nat): Answer
    requires Proper(c)
  {
    if c.pinned != -1 then Invoke(c, c.pinned, reply, room)
    else
      var i := FindCommand(c.commands, input, 0);
      if i == -1 then Answer(c, Reply(Fit(UNRECOGNISED, room), false))
      else if !RightCount(input, c.commands[i]) then Answer(c, Reply(Fit(INCORRECT, room), false))
      else Invoke(c, i, reply, room)
  }

  /** FreeRTOS_CLIRegisterCommand */
  function Register(c: Cli, d: Command): Cli { c.(commands := c.commands + [d]) }

  // ---------- the interpreter with its pointers ----------

  class Item {
    const definition: Command
    var next: Item?

    constructor (definition: Command)
      ensures this.definition == definition && next == null
    {
      this.definition := definition;
      next := null;
    }
  }

  class Interpreter {
    const first: Item
    var last: Item
    var command: Item?
    var helpCommand: Item?
    ghost var items: seq<Item>
    ghost var commandAt: int
    ghost var helpAt: int

    static ghost function ItemAt(items: seq<Item>, i: int): Item? {
      if 0 <= i < |items| then items[i] else null
    }

    ghost predicate Chained()
      reads this, items
    {
      && items != [] && items[0] == first && last == items[|items| - 1]
      && (forall i, j :: 0 <= i < j < |items| ==> items[i] != items[j])
      && forall i {:trigger items[i].next} :: 0 <= i < |items| ==> items[i].next == ItemAt(items, i + 1)
    }

    ghost predicate Valid()
      reads this, items
    {
      && Chained() && first.definition == HELP
      && -1 <= commandAt < |items| && command == ItemAt(items, commandAt)
      && -1 <= helpAt < |items| && helpCommand == ItemAt(items, helpAt)
    }

    ghost function State(): (c: Cli)
      requires Valid()
      reads this, items
      ensures Proper(c)
    {
      Cli(seq(|items|, i requires 0 <= i < |items| reads this, items => items[i].definition), commandAt, helpAt)
    }

    constructor ()
      ensures Valid() && fresh(first) && State() == INITIAL
    {
      var item := new Item(HELP);
      first := item;
      last, command, helpCommand := item, null, null;
      items, commandAt, helpAt := [item], -1, -1;
    }

    /** FreeRTOS_CLIRegisterCommand */
    method RegisterCommand(d: Command)
      requires Valid()
      modifies this`last, this`items, last`next
      ensures Valid() && State() == Register(old(State()), d)
      ensures fresh(items[|items| - 1]) && items[..|items| - 1] == old(items)
    {
      var item := new Item(d);
      item.next := null;
      last.next := item;
      last := item;
      ghost var before := items;
      items := items + [item];
      forall i | 0 <= i < |items| ensures items[i].next == ItemAt(items, i + 1) {
        if i + 1 < |before| {
          assert items[i] == before[i] && old(before[i].next) == ItemAt(before, i + 1);
        }
      }
    }

    /** The search loop of FreeRTOS_CLIProcessCommand. */
    method Search(input: CString)
      requires Valid()
      modifies this`command, this`commandAt
      ensures Valid()
      ensures State() == old(State()).(pinned := FindCommand(old(State()).commands, input, 0))
    {
      hide Matches;
      ghost var commands := State().commands;
      command, commandAt := first, 0;
      while command != null
        invariant Valid() && helpAt == old(helpAt) && State().commands == commands
        invariant FindCommand(commands, input, 0) == FindCommand(commands, input, if commandAt == -1 then |items| else commandAt)
        decreases if commandAt == -1 then 0 else |items| - commandAt
      {
        if Matches(input, command.definition.name) {
          return;
        }
        assert items[commandAt].next == ItemAt(items, commandAt + 1);
        command := command.next;
        commandAt := if commandAt + 1 < |items| then commandAt + 1 else -1;
      }
    }

    /** prvHelpCommand */
    method HelpCommand(room: nat) returns (reply: Reply)
      requires Valid()
      modifies this`helpCommand, this`helpAt
      ensures Valid()
      ensures var h := if old(helpAt) == -1 then 0 else old(helpAt);
              && helpAt == (if h + 1 < |items| then h + 1 else -1)
              && reply == Reply(Fit(old(State()).commands[h].help, room), helpAt != -1)
    {
      if helpCommand == null {
        helpCommand, helpAt := first, 0;
      }
      var output := helpCommand.definition.help;
      assert items[helpAt].next == ItemAt(items, helpAt + 1);
      helpCommand := helpCommand.next;
      helpAt := if helpAt + 1 < |items| then helpAt + 1 else -1;
      reply := Reply(Fit(output, room), helpCommand != null);
    }

    /** The call of the found command's function. */
    method CallFunction(reply: Reply, room: nat) returns (r: Reply)
      requires Valid() && command != null
      modifies this`command, this`commandAt, this`helpCommand, this`helpAt
      ensures Valid() && Answer(State(), r) == Invoke(old(State()), old(commandAt), reply, room)
    {
      assert command == first <==> commandAt == 0;
      if command == first {
        r := HelpCommand(room);
      } else {
        r := reply;
      }
      if !r.more {
        command, commandAt := null, -1;
      }
    }

    /** FreeRTOS_CLIProcessCommand; reply is what the function of a registered
        command returns if it is called. */
    method ProcessCommand(input: CString, reply: Reply, room: nat) returns (r: Reply)
      requires Valid()
      modifies this`command, this`commandAt, this`helpCommand, this`helpAt
      ensures Valid() && Answer(State(), r) == Process(old(State()), input, reply, room)
    {
      hide Invoke;
      var ok := true;
      if command == null {
        Search(input);
        if command != null && command.definition.expected >= 0 {
          var count := GetNumberOfParameters(input);
          ok := count == command.definition.expected;
        }
      }
      if command != null && !ok {
        r := Reply(Fit(INCORRECT, room), false);
        command, commandAt := null, -1;
      } else if command != null {
        InvokeIgnoresPin(old(State()), commandAt, reply, room);
        r := CallFunction(reply, room);
      } else {
        r := Reply(Fit(UNRECOGNISED, room), false);
      }
    }
  }

  lemma InvokeIgnoresPin(c: Cli, i: nat, reply: Reply, room: nat)
    requires Proper(c) && i < |c.commands|
    ensures Invoke(c.(pinned := i), i, reply, room) == Invoke(c, i, reply, room)
  {
  }

  // ---------- sessions ----------

  /** The help cursor is in use exactly while the dispatcher stays with help. */
  ghost predicate Steady(c: Cli) { Proper(c) && (c.cursor != -1 <==> c.pinned == 0) }

  datatype Event = Registered(command: Command) | Called(input: CString, reply: Reply, room: nat)

  function Next(c: Cli, e: Event): Cli
    requires Proper(c)
  {
    match e
    case Registered(d) => Register(c, d)
    case Called(input, reply, room) => Process(c, input, reply, room).cli
  }

  /** What the calls write. */
  function Written(c: Cli, e: Event): seq<string>
    requires Proper(c)
  {
    match e
    case Registered(_) => []
    case Called(input, reply, room) => [Process(c, input, reply, room).reply.output]
  }

  lemma StaysSteady(c: Cli, e: Event)
    requires Steady(c)
    ensures Steady(Next(c, e)) && Next(c, e).commands == c.commands + RegisteredIn([e])
  {
  }

  function Run(c: Cli, events: seq<Event>): (r: Cli)
    requires Proper(c)
    ensures Proper(r)
    decreases |events|
  {
    if events == [] then c else Run(Next(c, events[0]), events[1..])
  }

  function Output(c: Cli, events: seq<Event>): seq<string>
    requires Proper(c)
    decreases |events|
  {
    if events == [] then [] else Written(c, events[0]) + Output(Next(c, events[0]), events[1..])
  }

  function RegisteredIn(events: seq<Event>): seq<Command> {
    if events == [] then []
    else (if events[0].Registered? then [events[0].command] else []) + RegisteredIn(events[1..])
  }

  /** Over any interleaving of registrations and calls, help stays first, the
      list is in the order of registration, and the cursors stay in step. */
  lemma {:induction false} RunIsSteady(c: Cli, events: seq<Event>)
    requires Steady(c)
    ensures Steady(Run(c, events)) && Run(c, events).commands == c.commands + RegisteredIn(events)
    decreases |events|
  {
    SteadyIsProper(c);
    hide Next, Steady, Proper;
    if events == [] {
    } else {
      StaysSteady(c, events[0]);
      RunIsSteady(Next(c, events[0]), events[1..]);
    }
  }

  lemma SteadyIsProper(c: Cli)
    requires Steady(c)
    ensures Proper(c)
  {
  }

  /** The events keep the dispatcher with help until the last one releases it. */
  ghost predicate HelpSession(c: Cli, events: seq<Event>)
    requires Proper(c)
    decreases |events|
  {
    events != [] &&
    var next := Next(c, events[0]);
    if |events| == 1 then next.pinned == -1 else next.pinned == 0 && HelpSession(next, events[1..])
  }

  /** The room that each call offers for its output. */
  function Rooms(events: seq<Event>): seq<nat> {
    if events == [] then []
    else (if events[0].Called? then [events[0].room] else []) + Rooms(events[1..])
  }

  /** The help texts of commands, each cut to the room there is for it. */
  function HelpTexts(commands: seq<Command>, rooms: seq<nat>): seq<string>
    requires |rooms| == |commands|
  {
    seq(|commands|, i requires 0 <= i < |commands| => Fit(commands[i].help, rooms[i]))
  }

  /** A help session needs one call per command: while fewer texts are out, the
      dispatcher stays with help, whatever is entered meanwhile. */
  lemma HelpGoesOn(c: Cli, input: CString, reply: Reply, room: nat)
    requires Steady(c) && c.pinned == 0
    ensures var a := Process(c, input, reply, room);
            && a.cli.commands == c.commands
            && a.reply.output == Fit(c.commands[c.cursor].help, room)
            && (a.reply.more <==> c.cursor + 1 < |c.commands|)
            && (a.reply.more <==> a.cli.pinned == 0 && a.cli.cursor == c.cursor + 1)
            && (!a.reply.more <==> a.cli.pinned == -1 && a.cli.cursor == -1)
  {
  }

  /** From the moment help goes on with command k, it lists k and all commands
      behind it that are registered before it ends. */
  lemma {:induction false} HelpListsTheRest(c: Cli, events: seq<Event>)
    requires Steady(c) && c.pinned == 0 && HelpSession(c, events)
    ensures c.commands <= Run(c, events).commands
    ensures var listed := Run(c, events).commands[c.cursor..];
            |Rooms(events)| == |listed| && Output(c, events) == HelpTexts(listed, Rooms(events))
    ensures Run(c, events).pinned == -1 && Run(c, events).cursor == -1
    decreases |events|
  {
    hide Process, HelpTexts;
    var next := Next(c, events[0]);
    StaysSteady(c, events[0]);
    RunIsSteady(next, events[1..]);
    if events[0].Called? {
      HelpGoesOn(c, events[0].input, events[0].reply, events[0].room);
    }
    var listed := Run(c, events).commands[c.cursor..];
    if |events| == 1 {
      assert events[1..] == [] && events[0].Called?;
      NoHelpTexts();
      HelpTextsCons(listed, events[0].room, []);
    } else {
      HelpListsTheRest(next, events[1..]);
      if events[0].Called? {
        assert listed[1..] == Run(next, events[1..]).commands[next.cursor..];
        assert listed[0] == c.commands[c.cursor];
        HelpTextsCons(listed, events[0].room, Rooms(events[1..]));
      } else {
        assert [] + Output(next, events[1..]) == Output(next, events[1..]);
        assert [] + Rooms(events[1..]) == Rooms(events[1..]);
      }
    }
  }

  lemma NoHelpTexts()
    ensures HelpTexts([], []) == []
  {
  }

  lemma HelpTextsCons(commands: seq<Command>, room: nat, rooms: seq<nat>)
    requires |commands| == 1 + |rooms|
    ensures HelpTexts(commands, [room] + rooms) == [Fit(commands[0].help, room)] + HelpTexts(commands[1..], rooms)
  {
  }

  /** The input that starts help: its name, and no parameter. */
  ghost predicate AsksForHelp(input: CString) { Matches(input, "help") && WrapInt8(|Parameters(input)|) == 0 }

  /** A help session that begins in an idle dispatcher writes the help text of
      every command registered before its last call, once each, in order, as
      far as there is room for it, and leaves both cursors at NULL. */
  lemma HelpListsEverything(c: Cli, events: seq<Event>)
    requires Steady(c) && c.pinned == -1 && HelpSession(c, events)
    requires events[0].Called? && AsksForHelp(events[0].input)
    ensures var all := Run(c, events).commands;
            |Rooms(events)| == |all| && Output(c, events) == HelpTexts(all, Rooms(events))
    ensures Run(c, events).pinned == -1 && Run(c, events).cursor == -1
  {
    var next := Next(c, events[0]);
    assert FindCommand(c.commands, events[0].input, 0) == 0;
    StaysSteady(c, events[0]);
    RunIsSteady(next, events[1..]);
    if |events| == 1 {
      assert Output(next, events[1..]) == [] && Rooms(events[1..]) == [];
    } else {
      HelpListsTheRest(next, events[1..]);
      var all := Run(c, events).commands;
      assert all == c.commands + RegisteredIn(events[1..]);
      HelpTextsCons(all, events[0].room, Rooms(events[1..]));
    }
  }

  // ---------- sessions of other commands ----------

  /** The replies that the functions of other commands give. */
  function Replies(events: seq<Event>): seq<string> {
    if events == [] then []
    else (if events[0].Called? then [events[0].reply.output] else []) + Replies(events[1..])
  }

  /** The function of the command first replies that there is no more in the
      last of these events. */
  predicate LastReplyAtEnd(events: seq<Event>) {
    events != [] && events[|events| - 1].Called? && !events[|events| - 1].reply.more &&
    forall k :: 0 <= k < |events| - 1 && events[k].Called? ==> events[k].reply.more
  }

  /** What one call of a pinned command that is not help does. */
  lemma PinnedServes(c: Cli, input: CString, reply: Reply, room: nat)
    requires Steady(c) && c.pinned > 0
    ensures var a := Process(c, input, reply, room);
            a.reply == reply && a.cli == Cli(c.commands, if reply.more then c.pinned else -1, -1)
  {
  }

  /** While its function has more to say, the dispatcher stays with a command,
      whatever is entered and registered: each call writes the next reply, and
      with the last reply, and not before, the dispatcher is idle again. */
  lemma {:induction false} PinnedSession(c: Cli, events: seq<Event>)
    requires Steady(c) && c.pinned > 0 && LastReplyAtEnd(events)
    ensures Output(c, events) == Replies(events)
    ensures Run(c, events).pinned == -1 && Run(c, events).cursor == -1
    ensures forall k :: 0 <= k < |events| ==> Run(c, events[..k]).pinned == c.pinned && Run(c, events[..k]).cursor == -1
    decreases |events|
  {
    hide Process;
    var e := events[0];
    var next := Next(c, e);
    StaysSteady(c, e);
    if e.Called? {
      PinnedServes(c, e.input, e.reply, e.room);
    }
    if |events| == 1 {
      assert events[1..] == [] && events[..0] == [];
    } else {
      PinnedSession(next, events[1..]);
      assert Output(c, events) == Written(c, e) + Output(next, events[1..]);
      forall k | 0 <= k < |events| ensures Run(c, events[..k]).pinned == c.pinned && Run(c, events[..k]).cursor == -1 {
        if k > 0 {
          assert events[..k][1..] == events[1..][..k - 1];
        } else {
          assert events[..0] == [];
        }
      }
    }
  }

  /** A whole session of a registered command, from the call of an idle
      dispatcher that finds it to the last reply of its function. */
  lemma {:induction false} CommandSession(c: Cli, events: seq<Event>, i: nat)
    requires Steady(c) && c.pinned == -1 && 0 < i < |c.commands| && LastReplyAtEnd(events) && events[0].Called?
    requires Matches(events[0].input, c.commands[i].name) && RightCount(events[0].input, c.commands[i])
    requires forall k :: 0 <= k < i ==> !Matches(events[0].input, c.commands[k].name)
    ensures Output(c, events) == Replies(events)
    ensures Run(c, events).pinned == -1 && Run(c, events).cursor == -1
    ensures forall k :: 0 < k < |events| ==> Run(c, events[..k]).pinned == i && Run(c, events[..k]).cursor == -1
  {
    var e := events[0];
    var next := Next(c, e);
    IdlePicksFirstMatch(c, e.input, e.reply, e.room, i);
    StaysSteady(c, e);
    assert Process(c, e.input, e.reply, e.room) == Answer(Cli(c.commands, if e.reply.more then i else -1, -1), e.reply);
    hide Process, Invoke;
    if |events| == 1 {
      assert events[1..] == [];
      assert Output(next, events[1..]) == [];
    } else {
      PinnedSession(next, events[1..]);
      assert Output(c, events) == Written(c, e) + Output(next, events[1..]);
      forall k | 0 < k < |events| ensures Run(c, events[..k]).pinned == i && Run(c, events[..k]).cursor == -1 {
        assert events[..k][1..] == events[1..][..k - 1];
      }
    }
  }

  /** An idle dispatcher serves the first command whose whole name the input
      begins with, if the number of parameters is right; every other input is
      turned away and changes nothing. */
  lemma IdlePicksFirstMatch(c: Cli, input: CString, reply: Reply, room: nat, i: nat)
    requires Steady(c) && c.pinned == -1 && i <= |c.commands|
    requires i < |c.commands| ==> Matches(input, c.commands[i].name)
    requires forall k :: 0 <= k < i ==> !Matches(input, c.commands[k].name)
    ensures Process(c, input, reply, room) ==
            if i == |c.commands| then Answer(c, Reply(Fit(UNRECOGNISED, room), false))
            else if RightCount(input, c.commands[i]) then Invoke(c, i, reply, room)
            else Answer(c, Reply(Fit(INCORRECT, room), false))
  {
    var r := FindCommand(c.commands, input, 0);
    assert r == if i == |c.commands| then -1 else i;
  }
}
