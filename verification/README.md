# tellTello client, modelled in Dafny

tellTello is a console client for the Ryze Tello drone. It talks to the drone over
UDP: commands go out on the command socket, the drone answers each one, and a
stream of status frames (`key:value;key:value;…`) arrives on a second socket. The
program keeps its whole state in module globals shared by four activities:

- the main loop, which reads a line at the `>` prompt or a key in key mode, cuts
  comments, dispatches keywords (`end`, `help`, `state`, `dist`, `ang`, `key`,
  `watch`, `watchperiod`, `sleep`, `debug`, `script`) and forwards everything
  else to the drone;
- the timer task, which schedules watched frames, wakes a sleeping script and
  sends the `wifi?` keepalive;
- the response receiver, which marks the drone ready again;
- the status receiver, which prints frames or stores their values and prints
  them as `;`-separated rows.

This project models that state engine and proves properties of it. It has these modules:

- `Wrappers`: `Option`.
- `PyText`: the Python string operations the client relies on, with their
  properties proved. These are `str.split(sep)`, `str.split()`, `str.replace`,
  the comment cut at `#` and `readlines()`.
- `PyNumber`: `int()`, `float()` and `str()` on the values the client uses.
- `Telemetry`: status frame parsing into the state dictionary, and the header and data rows.
  `BuildHeader` and `BuildRow` are the loops that print them.
- `Keys`: key-mode translation of one key press (one or two bytes) into an action.
- `Protocol`: the globals as one value (`Globals`) and one pure function per
  activity. These are `Send`, `OnResponse`, `Tick`, `OnFrame`, `Process` (one
  pass over the current message) and `Iterate` (one pass of the main loop).
  Uncaught Python exceptions are an `Outcome`: the main loop ends with
  `Raised(ValueError | IndexError | NameError)`.
- `TelloClient`: the running client. The globals are the fields of the class
  `Client`. Each activity is a method that updates them in place. Each method is
  proved to leave `State()` equal to the `Protocol` function applied to the old
  state, so every `Protocol` lemma holds of the object.
- `Properties`: lemmas about the protocol that span several steps or activities.

The model works on these inputs and outputs:

- Datagrams handed to the command socket are appended to the field `Sent`.
- Printed lines are appended to `Printed`.
- The clock is a `now: real` parameter. The time text printed in a data row
  (`str(time.time())`) is a `timeText` parameter.
- The typed line and the polled key are parameters of `Iterate`.
- Script files are a `map` from file name to contents. The contents are the text after the newline translation that `open(FileName, "r")` performs, so every line ending is already `\n`.

Where the code and its description differ, the model follows the code, except for the halving keys (see Findings). A data row
replaces `.` by `,` on the row built so far, just before each value is appended
(`tellTello.py:218`). So the last watched value and `LastCommand` keep their points.
Also, `debug n` never clears the message, so in line mode the same command runs
again on every later pass. The model keeps this behaviour (`Properties.DebugLivelock`).

## Model

| member | source | states |
|---|---|---|
| PyText.Split | tellTello.py:194-200 | `str.split(sep)` gives at least one piece. The pieces joined with `sep` are the input, no piece holds `sep`, and there are two or more exactly when `sep` occurs |
| PyText.SplitPrefix | tellTello.py:194 | a separator-free head followed by the separator splits off as the first piece |
| PyText.SplitNoSeparator | tellTello.py:198-200 | text without the separator splits into itself alone |
| PyText.SplitJoin | tellTello.py:194 | splitting undoes joining for separator-free pieces |
| PyText.Replace | tellTello.py:218 | `replace` keeps the length |
| PyText.ReplaceAt | tellTello.py:218 | each position holds the replacement exactly where the original held the replaced character |
| PyText.ReplaceConcat | tellTello.py:218 | replacing distributes over concatenation |
| PyText.ReplaceTwice | tellTello.py:218 | replacing twice is replacing once |
| PyText.ReplaceAbsent | tellTello.py:218 | replacing cannot introduce a character that was absent and is not the replacement |
| PyText.Remove | tellTello.py:614 | `replace('\n', '')` leaves no newline and leaves newline-free text unchanged |
| PyText.RemoveKeepsOthers | tellTello.py:614 | removal drops exactly the newlines: every other character keeps its count |
| PyText.BeforeHash | tellTello.py:540-543 | the comment cut is a prefix without `#`, and it stops only at a `#` |
| PyText.BeforeHashNoHash | tellTello.py:540-543 | a line without `#` is kept whole |
| PyText.TrimStart | tellTello.py:547 | drops exactly the leading whitespace |
| PyText.Token | tellTello.py:547 | the first word is a whitespace-free prefix ending at whitespace or the end |
| PyText.Words | tellTello.py:547 | `split()` yields non-empty whitespace-free words, and none exactly when the text is all whitespace. Which words they are is stated by `WordsSplitAt` and `WordsOfWord` |
| PyText.WordsSplitAt | tellTello.py:547 | `split()` cuts at every whitespace character: the words of `a + c + b`, with `c` whitespace, are the words of `a` followed by the words of `b` |
| PyText.WordsOfWord | tellTello.py:547 | a single word splits into itself |
| PyText.WordsSpaceThen | tellTello.py:547 | a leading whitespace character does not change the words |
| PyText.WordsWordThen | tellTello.py:547 | a word followed by whitespace or the end is the first word |
| PyText.WordsOfJoined | tellTello.py:547 | `split()` undoes joining words with a space |
| PyText.ReadLines | tellTello.py:268 | `readlines()` yields non-empty lines, and none exactly for an empty file |
| PyText.ReadLinesConcat | tellTello.py:268 | the lines concatenate back to the file |
| PyText.StripAll | tellTello.py:613-614 | newline removal is applied line by line |
| PyText.ReadLinesStripped | tellTello.py:268 | the lines with their newlines removed are the file split at `\n`, less the empty tail after a final newline |
| PyNumber.ParseInt | tellTello.py:559 | `int()` accepts a text exactly when it is a digit run (single `_` between digits allowed) with an optional leading sign (CPython's 4300-digit limit aside, see Left out). What it accepts is made of digits, `_` and signs and ends in a digit |
| PyNumber.ParseIntExamples | tellTello.py:559 | the values of `int()` on `007`, `+5`, `-12` and `1_0` are 7, 5, -12 and 10 |
| PyNumber.ParseIntRefusals | tellTello.py:559 | `int()` refuses `20.0`, `1__0`, `_1` and the empty text |
| PyNumber.NatText | tellTello.py:474-491 | `str()` of a natural is a digit run with that value and no leading zero |
| PyNumber.IntText | tellTello.py:474-491 | `str()` of an int is digits with an optional leading minus |
| PyNumber.ParseIntOfIntText | tellTello.py:474-491 | `int(str(n)) == n` |
| PyNumber.ParseFloat | tellTello.py:578-594 | `float()` reads every text that `int()` accepts as the same number |
| PyNumber.FloatOfPoint | tellTello.py:578-594 | `float()` reads `whole.frac` (digit runs, either one empty but not both) as the whole digits plus the fraction digits over ten to their count |
| PyNumber.FloatOfPlusPoint | tellTello.py:578-594 | `+whole.frac` reads as the same value |
| PyNumber.FloatOfMinusPoint | tellTello.py:578-594 | `-whole.frac` reads as its negation |
| PyNumber.FloatOfExponent | tellTello.py:578-594 | a mantissa (digits with or without a point), `e` or `E`, then an integer text reads as the mantissa's value times ten to that integer |
| PyNumber.FloatOfPlusExponent | tellTello.py:578-594 | the same text after `+` reads as the same value |
| PyNumber.FloatOfMinusExponent | tellTello.py:578-594 | the same text after `-` reads as its negation |
| PyNumber.FloatUnsignedText | tellTello.py:578-594 | a text that starts with a digit or a point reads as its unsigned value |
| PyNumber.FloatPlusText | tellTello.py:578-594 | a leading `+` keeps the value of what follows |
| PyNumber.FloatMinusText | tellTello.py:578-594 | a leading `-` negates the value of what follows |
| PyNumber.PointMantissa | tellTello.py:578-594 | the mantissa `whole.frac` has the value of its whole digits plus its fraction digits scaled down |
| PyNumber.UnsignedWithExponent | tellTello.py:578-594 | a mantissa, an exponent marker and an integer text read unsigned as the scaled mantissa |
| PyNumber.ScaledIsProduct | tellTello.py:578-594 | scaling by an exponent one power of ten at a time is multiplication by ten to the exponent, negative exponents included |
| PyNumber.FloatOfRun | tellTello.py:578-594 | a digit run, underscores included, reads as its value with no point and no exponent |
| PyNumber.ParseFloatOfIntText | tellTello.py:585-594 | `float(str(n))` is `n` |
| PyNumber.FloatText | tellTello.py:498-509 | the model's float text (`str()` of a float of moderate size) always holds a point, and only digits, a point and a minus |
| Telemetry.KeyOf | tellTello.py:197-199 | the keyword is the colon-free text before the first `:` |
| Telemetry.ValueOf | tellTello.py:197-200 | the value is the colon-free text after the keyword's `:`, up to the next `:` or the end |
| Telemetry.LastPairFor | tellTello.py:194-202 | finds the last segment that names a keyword, or none |
| Telemetry.ApplyPairsAt | tellTello.py:194-202 | after the loop, a keyword's value is the one from its last pair in the frame. A keyword the frame does not name keeps its old entry |
| Telemetry.PairCaptured | tellTello.py:194-202 | the last pair naming a keyword sets its dictionary entry |
| Telemetry.KeyNotInFrameKept | tellTello.py:194-202 | a keyword the frame does not name is neither added, removed nor changed |
| Telemetry.NonPairIgnored | tellTello.py:197 | a segment without `:` has no effect |
| Telemetry.ApplyPairs | tellTello.py:194-202 | storing segments never drops a key |
| Telemetry.ApplyFrame | tellTello.py:194-202 | a frame never drops a key. Values stored: `Telemetry.PairCaptured`, `Telemetry.KeyNotInFrameKept` |
| Telemetry.HeaderRow | tellTello.py:204-209 | the header starts with `watch;time;` and ends with `LastCommand;`. All its fields: `Telemetry.HeaderFields` |
| Telemetry.DataRow | tellTello.py:212-220 | the row ends with the last command and `;`. All its fields: `Telemetry.DataRowFields` |
| Telemetry.ApplyFrameIdempotent | tellTello.py:194-202 | storing the same frame twice equals storing it once |
| Telemetry.ApplyFramesCommute | tellTello.py:194-202 | frames naming disjoint keywords can be stored in either order |
| Telemetry.CommasAll | tellTello.py:218 | the row replacement acts item by item |
| Telemetry.Cells | tellTello.py:213-217 | one cell per watched key: its stored value, or `error` when missing |
| Telemetry.HeaderFields | tellTello.py:204-210 | the header's fields are `watch`, `time`, the watched keys, `LastCommand` and a trailing empty field |
| Telemetry.DataRowFields | tellTello.py:212-220 | the row's fields are `watch`, the time and the values with `.` turned into `,`, except the last value, then the last command, then an empty field |
| Telemetry.DataRowColumn | tellTello.py:212-220 | the row has four more fields than keys, and field 2+i shows key i's value, with commas except in the last column |
| Telemetry.DataRowTerminated | tellTello.py:212-220 | the row is its fields each followed by `;` |
| Telemetry.HeaderRowExample | tellTello.py:204-209 | the header for `bat` and `baro` is `watch;time;bat;baro;LastCommand;` |
| Telemetry.BuildHeader | tellTello.py:204-209 | the header loop builds exactly the header row |
| Telemetry.BuildRow | tellTello.py:212-219 | the data-row loop, with its in-loop replacement, builds exactly the data row of the looked-up cells |
| Keys.Translate | tellTello.py:468-535 | `h` and `p` are exactly the keys sent at once. A missing second byte is reported exactly for the 224 and 0 prefixes. Escape is exactly the key that leaves key mode. Halving and doubling happen exactly within their limits: `-` gives the floor half of the distance at 40 or more and is ignored below, `+` doubles it at 250 or less, `/` and `*` do the same for the angle at 30 and 1800. Every move key stages a command |
| Keys.MoveKeyCommands | tellTello.py:474-491 | `8`/`w` stage `up` and `2`/`s` stage `down` by the distance; `4`/`a` stage `ccw` and `6`/`d` stage `cw` by the angle |
| Keys.KeysKeepRanges | tellTello.py:498-513 | starting from distance 20..500 and angle 15..3600, keys keep them there |
| Keys.DoubleUndoesHalve | tellTello.py:498-505 | `+` after `-` restores an even distance |
| Keys.MoveCommandWords | tellTello.py:474-491 | a staged `verb n` splits into the verb and a word that `int()` reads back as `n` |
| Keys.HalvedEchoNotInt | tellTello.py:498-509 | with true division, the echoed argument is a single word that `int()` rejects |
| Protocol.Merge | tellTello.py:270-279 | `i` puts the script before the queue, `a` after it, `r` in its place; any other mode fails |
| Protocol.ScriptRead | tellTello.py:255-283 | succeeds exactly when the file opens and the mode is `i`, `a` or `r` |
| Protocol.Initial | tellTello.py:332-358 | the drone starts ready, in line mode, running, with nothing sent, watching and sleep off, and the keepalive due in ten seconds |
| Protocol.Start | tellTello.py:446-452 | starting fails exactly when the script cannot be read. Otherwise the queue is `command`, `sdk?`, then the script's lines |
| Protocol.Send | tellTello.py:308-328 | sending records the datagram and the last command, clears readiness and re-arms the keepalive |
| Protocol.OnResponse | tellTello.py:105-112 | a response marks the drone ready and changes nothing else |
| Protocol.ClassifyDrone | tellTello.py:548-609 | a word goes to the drone exactly when it is none of the keywords |
| Protocol.FramesStep | tellTello.py:557-562 | `state n` touches neither the queue nor the sent datagrams; what it sets is stated by `Properties.StateCommand` |
| Protocol.DistStep | tellTello.py:563-565 | `dist n` touches neither the queue nor the sent datagrams |
| Protocol.AngleStep | tellTello.py:566-568 | `ang n` touches neither the queue nor the sent datagrams |
| Protocol.WatchPeriodStep | tellTello.py:578-584 | `watchperiod` touches neither the queue nor the sent datagrams; what it sets is stated by `Properties.WatchPeriodCommand` |
| Protocol.SleepStep | tellTello.py:585-594 | `sleep` touches neither the queue nor the sent datagrams; what it sets is stated by `Properties.SleepCommand` |
| Protocol.DebugStep | tellTello.py:595-597 | `debug n` touches neither the queue nor the sent datagrams |
| Protocol.ScriptStep | tellTello.py:598-604 | `script` sends nothing |
| Protocol.DroneStep | tellTello.py:605-609 | forwarding leaves the queue alone |
| Protocol.Command | tellTello.py:548-609 | only `script` changes the queue, and only a drone word sends anything (the message itself). An exception comes only from `state`, `dist`, `ang`, `sleep` or `debug`, and it leaves the queue, the sent datagrams and the message as they were |
| Protocol.Process | tellTello.py:540-615 | an exception needs a non-empty message before `#` and keeps the queue. An empty message sends nothing; otherwise at most the message before `#` is sent. Queue and errors in full: `Properties.QueueDiscipline`, `Properties.ErrorCases` |
| Protocol.KeyStep | tellTello.py:460-537 | a key pass raises exactly for a two-byte key whose second byte is missing. It never changes the queue, and it leaves key mode exactly on Escape |
| Protocol.KeyAct | tellTello.py:460-537 | only a missing second byte raises. Only `h`/`p` send, and what they send is their command. Only Escape leaves key mode; no action touches the queue |
| Protocol.Iterate | tellTello.py:454-615 | a main-loop pass sends at most one datagram and withdraws none. An exception leaves the queue as it was |
| Protocol.Tick | tellTello.py:239-251 | a timer pass leaves the queue, the message and the input mode alone and sends at most the keepalive. Afterwards the keepalive deadline and any pending wake-up are not in the past, and with a positive period neither is the next watch time. Exact effects: `Properties.TickEffect` |
| Protocol.WatchDue | tellTello.py:242-244 | only the frame budget and the watch time change, and only with a positive period. Afterwards the next watch time is not in the past |
| Protocol.WakeUp | tellTello.py:246-248 | only the sleep time changes, and never without a pending sleep. Afterwards no passed sleep time remains |
| Protocol.KeepaliveDue | tellTello.py:250-251 | nothing changes before the deadline. After it only the send fields change, the datagram is `wifi?` and the new deadline is not in the past |
| Protocol.Interpret | tellTello.py:185-221 | only the dictionary, the last headed selection and the printout change, and no key is lost. The printout gains a header exactly when the selection changed, then the data row of the merged dictionary; its fields are given by `Telemetry.DataRowFields` |
| Protocol.OnFrame | tellTello.py:150-158 | with a budget, a frame spends one unit and prints at least one line; without one it changes nothing. The queue, the message and the sent datagrams stay. Over several frames: `Properties.FramesSpendBudget` |
| Properties.QueueDiscipline | tellTello.py:540-615 | a pass keeps the queue, pops its head when no line is pending and no sleep runs, or puts a script in front. The popped head becomes the message without its newlines |
| Properties.QueuePop | tellTello.py:611-615 | with an empty message, a queued command and no sleep, the pass only pops the head into the message |
| Properties.TakeQueued | tellTello.py:611-615 | the same pop, from a literally empty message |
| Properties.CommandQueue | tellTello.py:550-609 | the only keyword that changes the queue is a `script` whose file opens |
| Properties.CommandSends | tellTello.py:550-609 | a dispatched command sends nothing unless it goes to the drone while it is ready. Then it sends the message, clears it and clears readiness |
| Properties.SendDiscipline | tellTello.py:540-609 | a pass sends at most the comment-cut message, and only to a ready drone. A pass never sends while the drone is not ready |
| Properties.DroneCommandWaitsForResponse | tellTello.py:605-609 | while the drone is busy, a drone command stays pending pass after pass. The first pass after a response sends it |
| Properties.DroneCommandGoesOut | tellTello.py:605-609 | to a ready drone, a non-keyword is sent and the message cleared |
| Properties.ErrorCases | tellTello.py:540-609 | a pass raises IndexError exactly for an all-whitespace line or a bare `dist`/`ang`. It raises ValueError exactly for a non-integer argument to `state`/`dist`/`ang`/`debug`. It raises NameError exactly for a `sleep` without a readable period before any sleep was set |
| Properties.CommandErrors | tellTello.py:550-609 | the same three error conditions for a dispatched word list |
| Properties.ProcessWords | tellTello.py:540-548 | a comment-free message with words is dispatched on those words |
| Properties.StateCommand | tellTello.py:557-562 | `state n` sets the frame budget to n and clears the message |
| Properties.FramesSpendBudget | tellTello.py:150-158 | a budget of n is spent by the next n frames, each printing at least one line (the frame itself when nothing is watched). The frame after them changes nothing |
| Properties.StateThenFrames | tellTello.py:557-562 | after `state n`, the next n frames are printed and the one after them is not |
| Properties.KeyCommand | tellTello.py:569-572 | `key` switches to key mode and clears the message |
| Properties.WatchCommand | tellTello.py:573-577 | `watch k1 ... kn` selects exactly those keywords (none for a bare `watch`) and clears the message |
| Properties.WatchPeriodCommand | tellTello.py:578-584 | `watchperiod t` sets the period to `float(t)`, or to -1 when `t` is not a number, and clears the message |
| Properties.SleepCommand | tellTello.py:585-594 | `sleep t` with a number `t` keeps `t` as the sleep length, sets the wake-up time `t` after now and clears the message. With `t` not a number it reuses the last length the same way; with none set yet it raises NameError and leaves the message |
| Properties.SleepFraction | tellTello.py:585-594 | `sleep whole.frac` (such as `sleep 0.5`) continues, keeps that fractional length and wakes up that long after now |
| Properties.NoPeriodNoFrames | tellTello.py:242-244 | after `watchperiod t` with `t` not a positive number, no later tick grants a frame or moves the watch time |
| Properties.PeriodSchedulesFrames | tellTello.py:578-584 | after `watchperiod n` with n > 0, the first tick past the watch time grants one frame and sets the next watch time n seconds later |
| Properties.DebugLivelock | tellTello.py:595-597 | `debug n` sets the level and keeps the message, so in line mode every later pass repeats it and never prompts |
| Properties.DebugCommand | tellTello.py:595-597 | the message `debug n` sets the debug level to n and nothing else |
| Properties.ScriptPreemptsQueue | tellTello.py:598-604 | `script f` puts f's lines before the queue. The next pass runs f's first line |
| Properties.ScriptCommandLoads | tellTello.py:598-604 | `script f` with a readable file inserts its lines and clears the message |
| Properties.StartSendsCommandFirst | tellTello.py:446-457 | the first pass takes `command` from the queue, and the second sends it as the very first datagram |
| Properties.StartState | tellTello.py:446-452 | after start-up nothing is sent or pending, the drone is ready, no sleep runs, and `command` heads the queue |
| Properties.FirstCommandSent | tellTello.py:605-609 | the message `command` goes out to a ready drone |
| Properties.EndStops | tellTello.py:550-553 | `end` stops the loop without an error |
| Properties.LineReadOnlyAtPrompt | tellTello.py:456-457 | when the prompt condition fails, the typed line has no effect |
| Properties.TickSettles | tellTello.py:242-251 | after a timer pass none of its three conditions holds at the same time |
| Properties.TickEffect | tellTello.py:242-251 | the exact effect of a timer pass: a due watch sets the frame budget to 1 and the next watch time to now plus the period; a passed sleep time becomes -1; a due keepalive is sent (datagram, last command, readiness cleared, next deadline). Every other field, the queue and the message included, is unchanged |
| Properties.SleepHoldsQueue | tellTello.py:585-594 | `sleep n` clears the message and sets the wake-up time; while it is set, passes take nothing from the queue; a timer pass after the deadline resets it to -1, and the next pass takes the queue's head |
| Properties.TickIdempotent | tellTello.py:240-251 | a second timer pass at the same time changes nothing |
| Properties.TickSendsOnlyKeepalive | tellTello.py:250-251 | the timer sends nothing but `wifi?`, and it sends it exactly when the keepalive is due |
| Properties.KeepaliveSpacing | tellTello.py:250-251 | after a keepalive, none is sent again within ten seconds |
| Properties.FrameTouchesOnlyTelemetry | tellTello.py:150-158 | a frame changes only the dictionary, the previous watch list, the printed lines and the frame budget |
| Properties.FrameBudget | tellTello.py:150-158 | each frame within the budget prints and uses one unit. Outside the budget a frame changes nothing. Printing only appends |
| Properties.HeaderOnChange | tellTello.py:204-210 | a header is printed exactly when the watch list changed, before the data row. The watch list is then remembered |
| Properties.HeaderOnce | tellTello.py:204-210 | the second of two frames prints only its data row |
| Properties.ApplyFrameClean | tellTello.py:194-202 | values stored from frames never contain `;` |
| Properties.FrameRow | tellTello.py:212-220 | a watched frame's last printed line is the data row of the updated dictionary |
| Properties.RowShowsFrameValue | tellTello.py:194-220 | the printed row's column for a watched key shows the value of that key's last pair in the frame, with commas except in the last column |
| Properties.CellsClean | tellTello.py:213-217 | cells of a clean dictionary hold no `;` |
| Properties.EscapeLeavesKeyMode | tellTello.py:517-520 | Escape drops the pending message and returns to line mode; the same pass sends nothing and stays in line mode, and the prompt returns when the drone is ready and nothing is queued |
| Properties.HaltKeysBypassReadiness | tellTello.py:492-497 | `h` and `p` send `stop` and `emergency` at once, even to a busy drone |
| Properties.HalveKeyRoundTrip | tellTello.py:498-509 | with floor halving, `-` and `/` halve the distance or angle, and the echoed setting command is accepted without an error |
| Properties.HalveDistRoundTrip | tellTello.py:498-501 | `-` leaves exactly the halved distance and an empty message |
| Properties.HalveAngleRoundTrip | tellTello.py:506-509 | `/` leaves exactly the halved angle and an empty message |
| Properties.KeyModePass | tellTello.py:460-615 | in key mode, a pass is the key's action followed by processing of the staged message |
| Properties.AmountSets | tellTello.py:563-568 | `dist n` and `ang n` set the value to n and clear the message |
| Properties.AmountCommand | tellTello.py:540-548 | a staged `verb n` dispatches as the words `verb`, `n` |
| Properties.MoveKeyStages | tellTello.py:474-491 | a move key stages a drone verb with the current distance or angle |
| Properties.MoveKeySends | tellTello.py:474-491 | to a ready drone, a move key's command is sent in the same pass |
| Properties.HalveKeyCrashesAsWritten | tellTello.py:498-509 | with true division, the echoed `dist` and `ang` commands raise ValueError |
| Properties.HalveKeyPressCrashesAsWritten | tellTello.py:498-509 | in key mode, pressing `-` (distance 40 to 500) or `/` (angle 30 to 3600) as written ends the same pass with ValueError, where the floor-halving pass continues |
| Properties.DistEchoRaises | tellTello.py:563-565 | `dist` with an argument `int()` rejects raises ValueError |
| Properties.AngEchoRaises | tellTello.py:566-568 | `ang` with an argument `int()` rejects raises ValueError |
| TelloClient.Client.constructor | tellTello.py:332-358 | the fields start as the initial globals |
| TelloClient.Client.SendCommand | tellTello.py:308-328 | the fields become `Send` of the old ones |
| TelloClient.Client.SendAndClear | tellTello.py:605-609 | a send followed by clearing the message |
| TelloClient.Client.ReceiveResponse | tellTello.py:105-112 | the fields become `OnResponse` of the old ones |
| TelloClient.Client.TimerPass | tellTello.py:240-251 | one timer pass is `Tick` |
| TelloClient.Client.ScheduleFrame | tellTello.py:242-244 | the watch check |
| TelloClient.Client.WakeUpWhenDue | tellTello.py:246-248 | the wake-up check |
| TelloClient.Client.KeepAlive | tellTello.py:250-251 | the keepalive check |
| TelloClient.Client.ScriptRead | tellTello.py:255-283 | reports success exactly as `Protocol.ScriptRead` does, and changes only the queue, only on success |
| TelloClient.Client.InterpreteState | tellTello.py:185-221 | storing the pairs and printing the rows is `Interpret` |
| TelloClient.Client.StorePairs | tellTello.py:194-202 | the pair loop leaves the dictionary equal to `ApplyFrame` and changes nothing else |
| TelloClient.Client.StorePair | tellTello.py:196-202 | one segment updates the dictionary and nothing else |
| TelloClient.Client.PrintRows | tellTello.py:204-220 | prints the header when the watch list changed, then the data row |
| TelloClient.Client.PrintHeader | tellTello.py:204-210 | prints the header and remembers the watch list, only when it changed |
| TelloClient.Client.PrintDataRow | tellTello.py:212-220 | appends the data row and nothing else |
| TelloClient.Client.ReceiveFrame | tellTello.py:150-158 | the fields become `OnFrame` of the old ones |
| TelloClient.Client.PressKey | tellTello.py:460-537 | the key step is `KeyStep` |
| TelloClient.Client.Act | tellTello.py:468-535 | carrying out a translated key is `KeyAct` |
| TelloClient.Client.ChangeDistance | tellTello.py:498-505 | sets the distance and stages its `dist` echo |
| TelloClient.Client.ChangeAngle | tellTello.py:506-513 | sets the angle and stages its `ang` echo |
| TelloClient.Client.RunCommand | tellTello.py:548-609 | dispatching a word list is `Command` |
| TelloClient.Client.End | tellTello.py:550-553 | the `end` branch |
| TelloClient.Client.Help | tellTello.py:554-556 | the `help` branch |
| TelloClient.Client.SetFrames | tellTello.py:557-562 | the `state` branch is `FramesStep` |
| TelloClient.Client.SetDistance | tellTello.py:563-565 | the `dist` branch is `DistStep` |
| TelloClient.Client.SetTurnAngle | tellTello.py:566-568 | the `ang` branch is `AngleStep` |
| TelloClient.Client.EnterKeyMode | tellTello.py:569-572 | the `key` branch |
| TelloClient.Client.Watch | tellTello.py:573-577 | the `watch` branch |
| TelloClient.Client.SetWatchPeriod | tellTello.py:578-584 | the `watchperiod` branch is `WatchPeriodStep` |
| TelloClient.Client.Sleep | tellTello.py:585-594 | the `sleep` branch is `SleepStep` |
| TelloClient.Client.SetDebugLevel | tellTello.py:595-597 | the `debug` branch is `DebugStep` |
| TelloClient.Client.LoadScript | tellTello.py:598-604 | the `script` branch is `ScriptStep` |
| TelloClient.Client.ForwardToDrone | tellTello.py:605-609 | the drone branch is `DroneStep` |
| TelloClient.Client.ProcessMessage | tellTello.py:540-615 | one pass over the message is `Process` |
| TelloClient.Client.CutComment | tellTello.py:540-543 | cuts the comment from the message and changes nothing else |
| TelloClient.Client.TakeNext | tellTello.py:611-615 | pops the queue head into the message exactly when a command is queued and no sleep runs |
| TelloClient.Client.Pass | tellTello.py:454-615 | one pass of the main loop is `Iterate` |

## Left out

- Sockets and UDP: sending is appending to `Sent`, and a response or a frame is a method call. Receive errors, time-outs and the `ping`/`waitForConnection` start-up handshake are not modelled.
- Threads: the main loop, the timer and the two receivers run in parallel in the program. The model has one atomic method per activity pass, so interleavings inside a pass are not modelled.
- Keyboard polling through `msvcrt` and `input()` are outside the model: the key and the typed line are parameters of `Iterate`. End of input and Ctrl-C are not modelled.
- `time.time()` and `time.sleep()`: the clock is a `now` parameter, and the text of the time in a data row is a parameter.
- `help()` and `debug()` output: text printed by them is not recorded. Only printed frames, headers and data rows are.
- Command-line parsing with `argparse`, the offline dummy receivers and shutdown are not modelled. The debug level and the start script are parameters of `Start`.
- UTF-8 decoding of received bytes: frames are text already.
- PyNumber.ParseInt: accepts `_` between digits as `int()` does, but accepts only the ASCII digits `0`-`9`, while `int()` accepts any Unicode decimal digit. Words from `split()` never carry the surrounding whitespace `int()` would also skip. It has no length limit, while CPython's `int()` refuses decimal texts longer than 4300 digits with ValueError (the default of `sys.set_int_max_str_digits`); for such an argument the model accepts what the program refuses.
- Properties.ErrorCases: the ValueError cases are those of `PyNumber.ParseInt`, so an integer argument longer than 4300 digits, which CPython's `int()` refuses, is not among them. Neither is the UnicodeDecodeError (a ValueError) that `script f` raises for a file that opens but does not decode; see `Protocol.ScriptRead`.
- Protocol.ScriptRead: only `open()` is inside the `try` (tellTello.py:259-264); `readlines()` at tellTello.py:268 runs outside it. A file that opens but is not valid text in the locale's encoding raises UnicodeDecodeError, a subclass of ValueError, instead of returning False. From `script f` (tellTello.py:598-604) that ends the main loop; from the start-up script (tellTello.py:448-450) it aborts start-up. In the model the `files` map holds decoded text, so every file it names reads.
- PyNumber.ParseFloat: reads signed decimal literals with an optional exponent as exact reals, with `_` between digits as `float()` allows. It accepts only ASCII digits, while `float()` accepts any Unicode decimal digit; it does not accept `inf` or `nan`, and it has no floating-point rounding.
- PyNumber.FloatText: gives the whole part and up to 17 exact fraction digits, not Python's shortest round-trip digits, and has no exponent form (Python writes `1e+16` for magnitudes of 1e16 and above and below 1e-4). The properties used only need the point and the character set, which hold for the distances and angles the keys produce.
- Properties.MoveKeySends: covers the single-byte move keys (`8`, `2`, `4`, `6`, `w`, `s`, `a`, `d`). The arrow keys stage their commands through `Keys.Translate` too, but the lemma does not cover them.
- Properties.HalveKeyPressCrashesAsWritten: covers distances up to 500 and angles up to 3600, twice the largest values the `+` and `*` keys double. For a value beyond about 3.6e308, set with `dist` or `ang`, `Dist / 2` raises OverflowError rather than the echo raising ValueError.
- Keys.Translate: halves with floor division. The program halves with true division; see Findings.

## Findings

| source | as written | input that shows it | evidently intended | confidence | as-written member | corrected member |
|---|---|---|---|---|---|---|
| tellTello.py:498-509 | `-` and `/` set `Dist = Dist / 2` (`Angle = Angle / 2`), which is true division in Python 3, and stage `dist 20.0`. The same pass cuts and splits that message and reads its argument with `int()` (line 564), and the main loop ends with ValueError | key mode, `Dist == 40`, key `-` | floor division (`//`), so the echo is `dist 20` and is accepted | not executed | Properties.HalveKeyPressCrashesAsWritten | Properties.HalveKeyRoundTrip |
