# Verified models of the embedded core

This project models five pieces of the repository that keep state in place and
proves what they promise over every input, every run or every reachable state:

- the jsmn JSON tokenizer, in all its builds (`JSMN_PARENT_LINKS`, `JSMN_STRICT`);
- the button driver: debouncer, gesture machine, list of buttons, and the ADC slot table;
- the FreeRTOS+CLI command interpreter;
- the enumeration run of the USB mass-storage host.

For each piece one module holds the code as it is: a class whose methods update
its fields and arrays, every method proved equal to a function of the old state.
The other modules prove properties of those functions.

| modules | subject |
|---|---|
| `JsmnTypes`, `JsmnLexer`, `JsmnLexemes`, `JsmnSpec`, `JsmnParser` | tokens, lexemes, the parser loop as a function, the parser object |
| `JsmnInvariants`, `JsmnAccounting` | what holds of the token array in every reachable state |
| `JsmnResume`, `JsmnCounting`, `JsmnPrefix` | calling again with more text or tokens; how many tokens a text needs; beginnings of JSON texts |
| `JsmnStack`, `JsmnLinks` | the stackless parser against an explicit stack; the builds against each other |
| `JsmnBytes`, `JsmnJson`, `JsmnRoundTrip` | the bytes of JSON, trees, their texts and their tokens |
| `JsmnStrings`, `JsmnEdges` | what strings mean; what is refused, and colons, commas and NULs in odd places |
| `Button`, `ButtonDebounce`, `ButtonGestures`, `ButtonTiming`, `ButtonHeard` | the handler; what the debouncer computes; the language of callbacks; durations; what is heard of presses and pauses |
| `ButtonAdc`, `ButtonAdcMap`, `ButtonRegistry` | the slot table, the map it holds, the linked list and its timer |
| `CliWords`, `CliInterpreter`, `CliLines` | the word scanners; the dispatcher and its sessions; command lines as they are typed |
| `UsbMsc`, `UsbEnumeration` | the transfer callbacks; every schedule against a conforming device |

Outside inputs are parameters: the level a button reads, the result of the GPIO
set-up, what a foreign command function returns, the room of its output buffer,
what the device answers.

Lemmas that recurse carry `{:induction false}`: their bodies are the induction. So
do a few about sequences of strokes, where the hypothesis that Dafny 4.11 adds by
default is in the way (in `ButtonTiming.JoinedPressesClick` it implies false).

## Where the code and its documentation differ

The model follows the code.

- The jsmn documentation says that a stream gets `JSMN_ERROR_PART` until the
  JSON data ends. That holds for strings and containers. Outside strict mode the
  beginning of a number is taken for a number (`JsmnPrefix.BeginningAsksForMore`),
  and a cut inside an unquoted primitive splits it in two, as in
  `JsmnResume.CutSplitsNumber`; `JsmnResume.ResumeIsOneCall` gives the exact
  condition, which a caller can test on the last token.
- With parent links, a closing bracket that closes nothing is accepted once a
  token exists; the default build refuses it. `JsmnLinks.StrayIsBlank` shows that
  this is the only difference in results, types and spans: such a bracket means a
  blank. `JsmnLinks.BuildsAgree` says for which texts the builds differ.
- In strict mode, a comment says, a primitive is followed by a comma or a bracket.
  White space may follow too, and a colon does not end it
  (`JsmnEdges.StrictColonIsInside`).
- The button menu offers debounce limits up to 8. The counter has three bits, so
  with 8 the level never changes; `ButtonDebounce.DebounceWorksUpToSeven` shows
  that 1 to 7 are exactly the limits that work.
- `button_adc_deinit` also reports success when nothing was there to remove, as
  in `ButtonAdcMap.DeinitOfNothing`; `ButtonAdcMap.DeinitSucceedsAfter` says when.
- The driver takes the block size of the first unit for the size of all later
  input transfers, and has room for the capacities of four units.
  `UsbEnumeration.EveryEnd` and `UsbEnumeration.CallbacksStayInside` say exactly
  which devices that serves.
- The two CLI scanners agree exactly for up to 127 parameters (`CliWords.ScannersAgree`).
  The count takes a multiple of 256 for none (`CliLines.HelpTakesNothing`).

## Model

| member | source | states |
|---|---|---|
| JsmnLexer.PrimitiveEndIs | components/jsmn/src/jsmn.c:72-91 | an unquoted primitive is found exactly as a stretch of the bytes 0x21 to 0x7E but comma, closing brackets and, outside strict mode, colon, with one of those, a blank or, outside strict mode, the end of data behind it; strict mode reports it cut at the end; any other byte is invalid |
| JsmnLexemes.StringEndIsBody | components/jsmn/src/jsmn.c:123-173 | an end is found if and only if legal characters and escapes lead to a quote there |
| JsmnLexemes.CutCanEnd | components/jsmn/src/jsmn.c:123-175 | a string reported as cut can be completed by more data, unless a NUL ended them |
| JsmnParser.Parser.AllocToken | components/jsmn/src/jsmn.c:36-49 | takes the next free token and clears it, or changes nothing when the array is full |
| JsmnParser.Parser.ParsePrimitive | components/jsmn/src/jsmn.c:65-109 | each result and each state change, with and without an array; an error leaves parser and tokens alone |
| JsmnParser.Parser.ParseString | components/jsmn/src/jsmn.c:114-176 | each result and each state change, with and without an array; an error leaves parser and tokens alone |
| JsmnParser.Parser.OpenBracket | components/jsmn/src/jsmn.c:194-211 | stores an open container under the superior token and makes it the superior one |
| JsmnParser.Parser.CloseByScan | components/jsmn/src/jsmn.c:235-255 | the two downward scans close the innermost open token and step to the next one, or refuse |
| JsmnParser.Parser.CloseByLinks | components/jsmn/src/jsmn.c:216-234 | the walk along the links ends, closes the first open token it meets and steps to its parent, or refuses |
| JsmnParser.Parser.Comma | components/jsmn/src/jsmn.c:270-287 | the superior token after a comma, in both builds |
| JsmnParser.Parser.SomeOpen | components/jsmn/src/jsmn.c:320-327 | true exactly when some token is still open |
| JsmnParser.Parser.Parse | components/jsmn/src/jsmn.c:181-330 | result, parser fields and tokens of a call equal the specification of the call, storing or counting; a successful storing call returns toknext |
| JsmnInvariants.StepKeeps | components/jsmn/src/jsmn.c:193-317 | every lexeme keeps: indices in range, tokens delimit the bytes they claim, starts increase, spans nest, links find what scans find |
| JsmnInvariants.CloseLinks | components/jsmn/src/jsmn.c:220-234 | closing along the links keeps the walks from the superior token, the last token and every open token's parent in agreement with the downward scan |
| JsmnInvariants.RunKeeps | components/jsmn/src/jsmn.c:188-318 | whatever a call returns, errors included, the state it leaves is sound |
| JsmnInvariants.ReachableIsSound | components/jsmn/src/jsmn.c:36-60 | laminar tokens with matching brackets and quotes in every state reachable by calls on a growing text, in every build |
| JsmnInvariants.ValuesFit | components/jsmn/src/jsmn.c:36-60 | over calls on a growing text shorter than 2^31 bytes, every number in parser and tokens fits its 32-bit integer |
| JsmnAccounting.ReachableIsAccounted | components/jsmn/src/jsmn.c:202-233 | with parent links, each size is the number of children, parents precede children, and sizes plus roots equal toknext, after any calls |
| JsmnResume.StepLonger | components/jsmn/src/jsmn.c:87-91 | a lexeme read from the beginning of a text is the same lexeme of the whole text, but for a primitive cut at the end |
| JsmnResume.ResumeIsOneCall | components/jsmn/src/jsmn.c:188-329 | calling again with more text and room gives the result, state and tokens of one call, if and only if the first call did not cut a primitive |
| JsmnResume.CutSplitsNumber | components/jsmn/src/jsmn.c:72-109 | a text and a cut for which it fails: two tokens when resumed, one token in one call |
| JsmnResume.StrictNeverCuts | components/jsmn/src/jsmn.c:87-91 | in strict mode no call cuts a primitive |
| JsmnResume.InvalidIsFinal | components/jsmn/src/jsmn.c:82-85 | invalid data stays invalid on every longer text, in the same state |
| JsmnResume.NoMemIsFull | components/jsmn/src/jsmn.c:98-102 | out of tokens means the array is exactly full and the state is where the failing lexeme begins |
| JsmnResume.SessionIsOneCall | components/jsmn/src/jsmn.c:181-330 | however text and room arrive, the last call of a session that cuts no primitive equals one call on the final text |
| JsmnCounting.CountIsTheRoomNeeded | components/jsmn/src/jsmn.c:186-329 | the counting call returns the least room with which a text that parses succeeds; less room gives NOMEM, more changes nothing |
| JsmnCounting.CountedNeverRunsOut | components/jsmn/src/jsmn.c:196-197 | a storing call with the counted room never runs out of tokens, whatever else fails |
| JsmnCounting.CountMovesSuper | components/jsmn/src/jsmn.c:267-269 | a call without tokens moves the superior token at its first colon, to the last token of earlier calls |
| JsmnCounting.TokenBound | components/jsmn/src/jsmn.c:72-109 | three times the tokens of a successful call are at most twice the bytes plus one |
| JsmnRoundTrip.TokenBoundIsTight | components/jsmn/src/jsmn.c:72-109 | for every k a text of 3k + 1 bytes yields 2k + 1 tokens, which is the bound, with and without links |
| JsmnPrefix.BeginningAsksForMore | components/jsmn/src/jsmn.c:320-327 | a JSON text cut inside its value gives PART, exactly in strict mode or when the value is no bare primitive |
| JsmnStack.LastOpenIsTop | components/jsmn/src/jsmn.c:236-246 | the downward scan finds the top of the stack hidden in the array |
| JsmnStack.ClosingPops | components/jsmn/src/jsmn.c:243-248 | closing the token found pops that stack |
| JsmnStack.RefinesStack | components/jsmn/src/jsmn.c:193-256 | on every text, with any room, in every build: at every loop head the open tokens are the stack of a reference parser, and the verdict is its verdict, or NOMEM exactly when it stops with more tokens than there is room for; only strict mode also stops at a primitive where a key is due |
| JsmnStack.StopsWithStack | components/jsmn/src/jsmn.c:193-256 | otherwise the call stops at the position, stack and token count of the reference parser |
| JsmnLinks.BuildsAgree | components/jsmn/src/jsmn.c:216-256 | the build with links and the default build return the same and store the same types and spans, exactly when the text has no bracket that closes nothing behind a token that there is room for |
| JsmnLinks.StrayIsBlank | components/jsmn/src/jsmn.c:230-232 | with links a bracket that closes nothing is a blank: result, types and spans are those of both builds on the text with spaces exactly where the reference parser stands at such a bracket |
| JsmnLinks.StrayCloseAccepted | components/jsmn/src/jsmn.c:230-232 | a text that only the build with links accepts |
| JsmnLexemes.BodyRuns | components/jsmn/src/jsmn.c:123-173 | a string of legal characters and escapes ends at its closing quote |
| JsmnRoundTrip.ValueRuns | components/jsmn/src/jsmn.c:193-311 | anywhere in a text, a value stores its preorder and counts once in its superior token |
| JsmnRoundTrip.RoundTrip | components/jsmn/src/jsmn.c:181-330 | in every build, the text of any JSON tree with any white space yields exactly the preorder of the tree: types, spans, sizes, links, and the count; outside strict mode also with words without quotes as keys and values |
| JsmnRoundTrip.StrictNeedsDelimiter | components/jsmn/src/jsmn.c:87-91 | strict mode asks for more after a primitive that nothing follows |
| JsmnRoundTrip.LiteralsParse | components/jsmn/src/jsmn.c:72-109 | true, false, null and every number parse to one token with their span, in every build |
| JsmnStrings.StringRoundTrip | components/jsmn/src/jsmn.c:114-176 | any characters, each written as itself, by a short escape or by four digits of either case, parse to one token whose span decodes to them |
| JsmnStrings.BadEscape | components/jsmn/src/jsmn.c:145-171 | a backslash before any byte but the eight letters and u is invalid |
| JsmnStrings.BadDigits | components/jsmn/src/jsmn.c:152-166 | so are fewer than four hexadecimal digits and another byte |
| JsmnEdges.WordKey | components/jsmn/src/jsmn.c:72-109 | outside strict mode an unquoted key has its own token and owns the value, and the object counts one member |
| JsmnEdges.StrictColonIsInside | components/jsmn/src/jsmn.c:74-78 | in strict mode a primitive, a colon and what follows are one token |
| JsmnEdges.StrictRefusesWord | components/jsmn/src/jsmn.c:294-301 | strict mode refuses a primitive behind the bracket, a comma or a member of an object |
| JsmnEdges.StrayByte | components/jsmn/src/jsmn.c:82-85 | a byte that begins nothing is invalid, in strict mode also one that begins no literal and no number |
| JsmnEdges.NulEndsData | components/jsmn/src/jsmn.c:188-188 | data end at a NUL, whatever follows, unless a backslash stands in front of it |
| JsmnEdges.NulBehindBackslash | components/jsmn/src/jsmn.c:145-146 | there a cut string is invalid instead |
| JsmnEdges.ColonTakesLast | components/jsmn/src/jsmn.c:267-269 | a value behind a colon counts in the last token, whatever that is |
| JsmnEdges.CommaAtTop | components/jsmn/src/jsmn.c:270-287 | a comma outside all containers leads from a key to no token with links, and nowhere in the default build |
| JsmnEdges.ResultCodes | components/jsmn/include/jsmn.h:57-61 | the three errors are -1, -2 and -3, and a count is never negative |
| JsmnRoundTrip.BuildsAgreeOnJson | components/jsmn/src/jsmn.c:202-256 | on JSON all builds return the same and store the same tokens, but for the links |
| Button.ButtonDev.Handler | tests/i2c/managed_components/espressif__button/iot_button.c:64-156 | the new fields and the callbacks made equal the specified call of the handler, with its counter widths |
| Button.ButtonDev.RegisterCallback | tests/i2c/managed_components/espressif__button/iot_button.c:275-282 | a callback slot is set, or emptied by a null callback, unless the event has no slot |
| Button.ButtonDev.UnregisterCallback | tests/i2c/managed_components/espressif__button/iot_button.c:284-291 | a callback slot is emptied, unless the event has no slot |
| Button.ButtonDev.GetEvent | tests/i2c/managed_components/espressif__button/iot_button.c:293-298 | the event the handler kept last |
| Button.ButtonDev.GetRepeat | tests/i2c/managed_components/espressif__button/iot_button.c:300-305 | the press count the handler keeps |
| Button.HeardPicks | tests/i2c/managed_components/espressif__button/iot_button.c:59-59 | the callbacks made stand at exactly the places of registered events, in order |
| Button.HeardCounts | tests/i2c/managed_components/espressif__button/iot_button.c:59-59 | a registered callback is made as often as its event occurs, any other never |
| Button.ButtonDev.Feed | tests/i2c/managed_components/espressif__button/iot_button.c:59-164 | over any run of samples the fields are those of the specified run, and exactly the registered callbacks of its trace are made |
| ButtonDebounce.DebounceIsLastRun | tests/i2c/managed_components/espressif__button/iot_button.c:73-81 | for limits 1 to 7 the level is the value of the latest run of that many equal samples, and the counter the length of the disagreeing run |
| ButtonDebounce.LimitEightIsDeaf | tests/i2c/managed_components/espressif__button/iot_button.c:55-55 | with the limit 8 no samples change the level |
| ButtonDebounce.DebounceWorksUpToSeven | tests/i2c/managed_components/espressif__button/iot_button.c:73-81 | of the limits 1 to 8 exactly those up to 7 debounce |
| ButtonGestures.GestureHeeds | tests/i2c/managed_components/espressif__button/iot_button.c:84-155 | the callbacks of one call extend the sentence of the gesture or finish it properly |
| ButtonGestures.TraceIsSentences | tests/i2c/managed_components/espressif__button/iot_button.c:84-155 | from any moment of rest, for every sample stream, the callbacks are sentences of the gesture grammar and the beginning of one; repeat is the press count modulo 256 and selects the click |
| ButtonGestures.EventIsLatest | tests/i2c/managed_components/espressif__button/iot_button.c:84-155 | the event kept after any run is that of the gesture in progress, right after a gesture its click or release, and else none |
| ButtonGestures.StateFollowsLevel | tests/i2c/managed_components/espressif__button/iot_button.c:84-155 | the state is one of 0, 1, 2, 3, 5, and pressed exactly when the level is active |
| ButtonGestures.SilenceBringsRest | tests/i2c/managed_components/espressif__button/iot_button.c:64-156 | from every reachable state, debounce + short + 1 inactive samples bring state 0 with nothing pending, and more keep it |
| ButtonTiming.ToldIsPlayed | tests/i2c/managed_components/espressif__button/iot_button.c:84-155 | the gestures of a run depend on its debounced levels only |
| ButtonHeard.LongPressHeard | tests/i2c/managed_components/espressif__button/iot_button.c:104-108 | from rest, while a first press is held: the press, then nothing for long calls, then the long press and one hold per call |
| ButtonHeard.LongPressEnds | tests/i2c/managed_components/espressif__button/iot_button.c:144-151 | its release is heard, and no click however long the pause |
| ButtonTiming.LongLimitOutOfReach | tests/i2c/managed_components/espressif__button/iot_button.c:104-108 | with a limit of 65535 or more, which the 16-bit counter cannot exceed, no long press ever starts |
| ButtonHeard.HeldRepeatHeard | tests/i2c/managed_components/espressif__button/iot_button.c:131-142 | from rest, joined presses and one more held for short calls or longer, modulo 65536: all presses are heard and no click, however long the pause |
| ButtonHeard.JoinedPressesHeard | tests/i2c/managed_components/espressif__button/iot_button.c:111-129 | from rest, joined presses and a pause give one gesture, whose click is the one for their number |
| ButtonHeard.LevelsAreDelayed | tests/i2c/managed_components/espressif__button/iot_button.c:73-81 | for limits 1 to 7, samples whose presses and pauses outlast the debouncer give the same levels debounce - 1 calls later |
| ButtonHeard.HeldLevels | tests/i2c/managed_components/espressif__button/iot_button.c:73-81 | a button held from rest turns active at sample number debounce, for limits 1 to 7, and stays so |
| ButtonHeard.HeldButtonHeard | tests/i2c/managed_components/espressif__button/iot_button.c:64-156 | by samples, for limits 1 to 7: holding the button for any number of samples from rest, when the press, the long press and each hold are heard |
| ButtonHeard.ClickedButtonHeard | tests/i2c/managed_components/espressif__button/iot_button.c:64-156 | by samples, for limits 1 to 7: any number of quick presses from rest, every press and the click selected by their number |
| ButtonHeard.HeldRepeatButtonHeard | tests/i2c/managed_components/espressif__button/iot_button.c:64-156 | by samples, for limits 1 to 7: quick presses and a last one held too long, every press and no click |
| ButtonHeard.EveryGestureHeard | tests/i2c/managed_components/espressif__button/iot_button.c:64-156 | after any samples and debounce + short + 1 quiet ones the device is at rest, and what follows is heard as from rest, behind what was heard before |
| ButtonHeard.EveryLongPressHeard | tests/i2c/managed_components/espressif__button/iot_button.c:64-156 | so holding the button adds exactly one long press, at any time |
| ButtonHeard.ClickOnce | tests/i2c/managed_components/espressif__button/iot_button.c:59-156 | for a device at rest with any callbacks, a click makes those registered among press, release and single click |
| ButtonHeard.HoldDown | tests/i2c/managed_components/espressif__button/iot_button.c:59-156 | and holding the button those among press, long press and hold |
| ButtonAdc.AdcTable.InitButton | tests/i2c/managed_components/espressif__button/button_adc.c:81-125 | status and table equal the specified insertion; a failure changes nothing |
| ButtonAdc.AdcTable.DeinitButton | tests/i2c/managed_components/espressif__button/button_adc.c:127-167 | status and table equal the specified removal, with the reset of an unused slot and of an unused table |
| ButtonAdc.FindChannel | tests/i2c/managed_components/espressif__button/button_adc.c:71-79 | the first slot that carries the channel, in use or not, or none |
| ButtonAdcMap.SlotOf | tests/i2c/managed_components/espressif__button/button_adc.c:71-79 | in a good table the lookup finds the slot in use, although it ignores the flag |
| ButtonAdcMap.InitKeepsGood | tests/i2c/managed_components/espressif__button/button_adc.c:113-122 | init keeps the table invariant |
| ButtonAdcMap.DeinitKeepsGood | tests/i2c/managed_components/espressif__button/button_adc.c:135-164 | deinit keeps the table invariant |
| ButtonAdcMap.InitIsMapInsert | tests/i2c/managed_components/espressif__button/button_adc.c:81-125 | init succeeds exactly when the map and the number of slots allow, and then inserts one entry; each failure has its own code |
| ButtonAdcMap.DeinitIsMapRemove | tests/i2c/managed_components/espressif__button/button_adc.c:127-167 | deinit removes one entry and touches no other, in every case |
| ButtonAdcMap.DeinitSucceedsAfter | tests/i2c/managed_components/espressif__button/button_adc.c:127-167 | exactly when deinit reports success, as a condition on the calls so far |
| ButtonAdcMap.DeinitOfNothing | tests/i2c/managed_components/espressif__button/button_adc.c:129-133 | success with no button ever added |
| ButtonAdcMap.TableIsMap | tests/i2c/managed_components/espressif__button/button_adc.c:61-167 | over every sequence of calls the table keeps its invariant and holds the map the calls build |
| ButtonAdcMap.ChNumIsAdds | tests/i2c/managed_components/espressif__button/button_adc.c:122-122 | ch_num counts the buttons added since the last reset in eight bits, whatever was removed |
| ButtonRegistry.Registry.Create | tests/i2c/managed_components/espressif__button/iot_button.c:228-253 | on success one new node in front with its type, pin or channel, and active level, the timer running, and nodes and ADC table still in bijection; on failure nothing changes |
| ButtonRegistry.Registry.Unlink | tests/i2c/managed_components/espressif__button/iot_button.c:200-209 | removes exactly the given node from an acyclic list and keeps the order of the rest |
| ButtonRegistry.Registry.DeleteCommon | tests/i2c/managed_components/espressif__button/iot_button.c:196-226 | the node is gone; the timer stops when the 16-bit count of the rest is 0 |
| ButtonRegistry.Registry.Delete | tests/i2c/managed_components/espressif__button/iot_button.c:255-273 | hardware, list and timer after a deletion; an ADC button always succeeds; that the timer runs exactly while buttons are left is kept, but by a deletion that leaves a positive multiple of 65536 |
| ButtonRegistry.Registry.TimerCallback | tests/i2c/managed_components/espressif__button/iot_button.c:158-164 | every button of the list is handled once, with its own level, and makes its own registered callbacks |
| ButtonRegistry.RemovedMatched | tests/i2c/managed_components/espressif__button/iot_button.c:264-271 | removing a node and its entry keeps the bijection of ADC nodes and table entries |
| CliWords.GetNumberOfParameters | components/FreeRTOS-Plus-CLI/FreeRTOS_CLI.c:324-358 | the number of parameters, wrapped to eight bits |
| CliWords.GetParameter | components/FreeRTOS-Plus-CLI/FreeRTOS_CLI.c:235-288 | start and length of the wanted parameter, or null when there is none |
| CliWords.ParameterIsWord | components/FreeRTOS-Plus-CLI/FreeRTOS_CLI.c:257-279 | a parameter is a maximal word without spaces |
| CliWords.EveryWordIsParameter | components/FreeRTOS-Plus-CLI/FreeRTOS_CLI.c:246-261 | every word behind the command is some parameter |
| CliWords.ParametersInOrder | components/FreeRTOS-Plus-CLI/FreeRTOS_CLI.c:246-279 | parameters with higher numbers stand further right, with a space between |
| CliWords.ScannersAgree | components/FreeRTOS-Plus-CLI/FreeRTOS_CLI.c:235-358 | the two scanners agree on every number exactly up to 127 parameters |
| CliInterpreter.Interpreter.RegisterCommand | components/FreeRTOS-Plus-CLI/FreeRTOS_CLI.c:113-151 | the list stays acyclic and gains the command at its end |
| CliInterpreter.Interpreter.HelpCommand | components/FreeRTOS-Plus-CLI/FreeRTOS_CLI.c:291-321 | writes the help text under the cursor, as far as there is room, and moves it on |
| CliInterpreter.Interpreter.ProcessCommand | components/FreeRTOS-Plus-CLI/FreeRTOS_CLI.c:154-226 | output, result and both cursors equal the specified call |
| CliInterpreter.IdlePicksFirstMatch | components/FreeRTOS-Plus-CLI/FreeRTOS_CLI.c:164-223 | an idle dispatcher serves the first command whose whole name begins the input, if the parameter count is right; any other input is turned away and changes nothing |
| CliInterpreter.RunIsSteady | components/FreeRTOS-Plus-CLI/FreeRTOS_CLI.c:113-321 | over every interleaving help is first, the list is in registration order, and the help cursor is in use exactly while the dispatcher is pinned to help |
| CliInterpreter.HelpListsEverything | components/FreeRTOS-Plus-CLI/FreeRTOS_CLI.c:205-217 | a help session writes every command registered before its last call, once, in order, each cut to the room offered, and leaves both cursors null |
| CliInterpreter.HelpGoesOn | components/FreeRTOS-Plus-CLI/FreeRTOS_CLI.c:298-318 | help stays pinned for one call per command, whatever is entered |
| CliInterpreter.CommandSession | components/FreeRTOS-Plus-CLI/FreeRTOS_CLI.c:154-226 | from the call that finds a registered command to the first reply without more, every call writes the next reply of its function, whatever is entered and registered, and only then is the dispatcher idle |
| CliLines.LineIsRead | components/FreeRTOS-Plus-CLI/FreeRTOS_CLI.c:235-358 | the words typed behind a name are the parameters read, as many and with their texts, however many spaces there are |
| CliLines.LineIsServed | components/FreeRTOS-Plus-CLI/FreeRTOS_CLI.c:164-223 | the first command with the name typed is served if it takes any number of parameters or the number typed modulo 256; all other lines are turned away |
| CliLines.HelpTakesNothing | components/FreeRTOS-Plus-CLI/FreeRTOS_CLI.c:70-76 | whatever is registered, help is served with no parameter and refused with any, but that the count takes a multiple of 256 for none |
| CliLines.LongerIsNotHelp | components/FreeRTOS-Plus-CLI/FreeRTOS_CLI.c:174-180 | a command typed with a longer name that begins with help is not help |
| UsbMsc.MscDevice.OnTransfer | components/usb-host-comp/msc/usb_msc.cpp:13-38 | fields, stored capacities and submitted transfers after a completion equal the specified callback |
| UsbMsc.ClassifyIs | components/usb-host-comp/msc/usb_msc.cpp:20-37 | the tests that tell transfers apart are those on the numbers 0xfea1, 0x43425355 and 0x53425355 |
| UsbMsc.MscDevice.OnCsw | components/usb-host-comp/msc/usb_msc.cpp:321-368 | what each event of the enumeration submits next |
| UsbMsc.MscDevice.StoreCapacity | components/usb-host-comp/msc/usb_msc.cpp:418-424 | the capacity goes under the current LUN, and a status is asked for |
| UsbEnumeration.WrapperIsUnderstood | components/usb-host-comp/include/usb_requests.hpp:60-68 | a device reads from a command wrapper the command that was put in, with the direction and the transfer length it needs |
| UsbEnumeration.AnswersAreTold | components/usb-host-comp/msc/usb_msc.cpp:20-37 | the callback tells the answers of a conforming device apart |
| UsbEnumeration.CapacityIsRead | components/usb-host-comp/msc/usb_msc.cpp:482-485 | the driver reads the block count and size that the unit sent, most significant byte first |
| UsbEnumeration.StepKeeps | components/usb-host-comp/msc/usb_msc.cpp:352-441 | every completion, in any order, keeps the invariant of the enumeration |
| UsbEnumeration.EveryMoment | components/usb-host-comp/msc/usb_msc.cpp:352-441 | against any conforming device, always at most one transfer waits for input, capacities are under their own LUN, transfers are neither lost nor freed twice, and runs are bounded |
| UsbEnumeration.CallbacksStayInside | components/usb-host-comp/msc/usb_msc.cpp:418-424 | in all runs the callbacks stay inside their arrays, exactly when the device has at most four units, or blocks under 13 bytes that stop the run before |
| UsbEnumeration.EveryEnd | components/usb-host-comp/msc/usb_msc.cpp:352-441 | every run stops after a fixed number of completions; it is complete then, with READ CAPACITY issued once per LUN in order, one INQUIRY, all capacities stored and all transfers freed, if and only if the first block size is at least 36 |

## Left out

- JsmnParser.Parser.Parse: positions, sizes and counts are unbounded here; `JsmnInvariants.ValuesFit` shows that this makes no difference below 2^31 bytes, and nothing is said of longer texts.
- JsmnParser.Parser.Parse: says nothing about array entries at or above toknext, which the code does not promise either.
- JsmnStack.RefinesStack: where strict mode expects a key is told by the size of the superior token in the state the call stops in, and not by the reference parser.
- JsmnAccounting.ReachableIsAccounted: is about the builds with parent links; the default build keeps no record of which token a size was counted for.
- Button.ButtonDev.Handler: the level is read by the caller and samples are booleans; callbacks are a ghost trace, so a callback that deletes its own button is not modelled.
- ButtonHeard.HeldButtonHeard: the limits 1 to 7; with 8 the level never changes, and ButtonHeard.LongPressHeard speaks of levels.
- ButtonRegistry.Registry.Create: allocation succeeds; the GPIO driver is a result passed in.
- ButtonRegistry.Registry.TimerCallback: devices are values inside the nodes; the handler that updates fields is Button.ButtonDev.Handler.
- ButtonAdc.AdcTable.InitButton: the ADC calibration calls are foreign and change nothing that the table holds; slots are values in the array.
- ButtonAdc.AdcTable.DeinitButton: the index is not negative. The check in the code lets a negative one through to memory in front of the slot, of which no table could say anything; iot_button_delete, which splits the index off a combined number, never passes one.
- CliInterpreter.Interpreter.HelpCommand: an output is the text that fits the room; the padding that strncpy puts behind it, and the missing NUL when nothing is left over, are not modelled.
- CliLines.LineIsServed: asks for command names without spaces; which command a line serves when names hold spaces is said by `CliInterpreter.IdlePicksFirstMatch` only.
- CliInterpreter.Interpreter.ProcessCommand: the same holds of the padding and the NUL of the two error texts; critical sections and allocation failure are not modelled.
- UsbEnumeration.EveryEnd: a transfer with too little room for an answer is taken to stay pending; a host stack may instead complete it with an error, and usb_transfer_cb, which does not look at the status, would then read what is in the buffer.
- UsbEnumeration.EveryEnd: is about devices whose enumeration stays inside the arrays, which UsbEnumeration.CallbacksStayInside characterises; submits and allocations succeed.
- UsbMsc.MscDevice.OnTransfer: user callbacks, READ(10), WRITE(10), reset and task notification are not modelled.
- UsbMsc.MscDevice.OnCsw: only the events of the enumeration; those that notify a task, and the user callbacks, are not modelled.
- `button_adc_get_key_level` and `get_adc_volatge`: ADC sampling and wall-clock time.
- `tests/ota/managed_components/espressif__button`: a copy of the button component.
- The remaining components: thin wrappers around libraries that the repository does not contain.
