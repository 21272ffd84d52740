/** The client's shared state and the effect of each of its activities on it:
    the main loop (prompt, key mode, command interpretation, queue), the
    timer task (status frames, sleep, keepalive), the state receiver (frames)
    and the response receiver. Each activity is one function from the state
    before to the state after; a Python exception that ends the main loop is
    reported in the outcome. */
module Protocol {
  import opened Wrappers
  import opened PyText
  import opened PyNumber
  import opened Telemetry
  import opened Keys

  /** The client's globals, plus the main loop's own variables msg (the
      pending message) and SleepTimeDiff, the datagrams sent on the command
      socket and the lines printed by the state receiver. */
  datatype Globals = Globals(
    StateDict: StateMap,
    WhichWatch: seq<string>,
    OldWhichWatch: seq<string>,
    LastCommand: string,
    Commands: seq<string>,
    Msg: string,
    SleepTimeDiff: Option<real>,
    TelloReady: bool,
    InputModeString: bool,
    Dist: int,
    Angle: int,
    NumFrames: int,
    WatchPeriod: real,
    SleepTime: real,
    TimeState: real,
    TimeKeepalive: real,
    Running: bool,
    DebugLevel: int,
    Sent: seq<string>,
    Printed: seq<string>)

  /** The Python exceptions the main loop can raise and not catch. */
  datatype PyError = ValueError | IndexError | NameError

  datatype Outcome = Continue | Raised(error: PyError)

  /** The state after a main-loop step, and whether the loop goes on. When an
      exception is raised, the state is the one at the point of raising. */
  datatype Step = Step(next: Globals, outcome: Outcome)

  const KeepaliveInterval: real := 10.0
  const KeepaliveCommand := "wifi?"
  const StartCommands: seq<string> := ["command", "sdk?"]
  const InitialDist := 40
  const InitialAngle := 90
  const InitialStateDict: StateMap := map[
    "mid" := "-1", "x" := "0", "y" := "0", "z" := "0", "mpry" := "0,0,0",
    "pitch" := "0", "roll" := "0", "yaw" := "0", "vg" + "x" := "0", "vgy" := "0",
    "vgz" := "0", "templ" := "53", "temph" := "55", "tof" := "10", "h" := "0",
    "bat" := "72", "baro" := "-70.56", "time" := "0", "agx" := "-2.00",
    "agy" := "-10.00", "agz" := "-999.00"]

  /** scriptRead: a script's lines merged into the queue: before it ('i'),
      after it ('a') or instead of it ('r'); any other mode fails. */
  function Merge(cmds: seq<string>, lines: seq<string>, where: char): (r: Option<seq<string>>)
    ensures r.Some? <==> where == 'i' || where == 'a' || where == 'r'
    ensures r.Some? && where != 'r' ==> |r.value| == |lines| + |cmds|
    ensures where == 'i' ==> r.value[..|lines|] == lines && r.value[|lines|..] == cmds
    ensures where == 'a' ==> r.value[..|cmds|] == cmds && r.value[|cmds|..] == lines
    ensures where == 'r' ==> r.value == lines
  {
    if where == 'i' then Some(lines + cmds)
    else if where == 'a' then Some(cmds + lines)
    else if where == 'r' then Some(lines)
    else None
  }

  /** scriptRead: a name that is not among the readable files fails to open. */
  function ScriptRead(cmds: seq<string>, files: map<string, string>, name: string, where: char): (r: Option<seq<string>>)
    ensures r.Some? <==> name in files && (where == 'i' || where == 'a' || where == 'r')
  {
    if name in files then Merge(cmds, ReadLines(files[name]), where) else None
  }

  /** The globals' initial values: nothing watched, nothing sent, the drone
      taken as ready, line mode, the default distance and angle, periodic
      frames and sleep off, the keepalive due 10 s after start. */
  function Initial(now: real, debugLevel: int): (g: Globals)
    ensures g.TelloReady && g.InputModeString && g.Running && g.Msg == "" && g.Sent == []
    ensures g.WatchPeriod < 0.0 && g.SleepTime < 0.0 && g.TimeKeepalive == now + KeepaliveInterval
  {
    Globals(
      StateDict := InitialStateDict, WhichWatch := [], OldWhichWatch := [], LastCommand := "",
      Commands := StartCommands, Msg := "", SleepTimeDiff := None,
      TelloReady := true, InputModeString := true, Dist := InitialDist, Angle := InitialAngle,
      NumFrames := 0, WatchPeriod := -1.0, SleepTime := -1.0, TimeState := 0.0,
      TimeKeepalive := now + KeepaliveInterval, Running := true, DebugLevel := debugLevel,
      Sent := [], Printed := [])
  }

  /** The start of main: the initial globals, the two start commands queued
      and the lines of the script given on the command line (if any)
      appended; a script that cannot be read ends the program. */
  function Start(now: real, debugLevel: int, script: string, files: map<string, string>): (r: Option<Globals>)
    ensures r.Some? <==> script == "" || script in files
    ensures r.Some? ==> r.value.(Commands := StartCommands) == Initial(now, debugLevel)
    ensures r.Some? ==> r.value.Commands == StartCommands + (if script == "" then [] else ReadLines(files[script]))
  {
    var g := Initial(now, debugLevel);
    if script == "" then Some(g)
    else match ScriptRead(g.Commands, files, script, 'a')
      case None => None
      case Some(cmds) => Some(g.(Commands := cmds))
  }

  /** sendCommand: the command goes out, becomes the last command, the drone
      is no longer ready and the keepalive deadline moves 10 s ahead. */
  function Send(s: Globals, cmd: string, now: real): (r: Globals)
    ensures r.Sent == s.Sent + [cmd] && r.LastCommand == cmd
    ensures !r.TelloReady && r.TimeKeepalive == now + KeepaliveInterval
  {
    s.(LastCommand := cmd, TelloReady := false, TimeKeepalive := now + KeepaliveInterval,
       Sent := s.Sent + [cmd])
  }

  /** recvBasic: any response makes the drone ready again. */
  function OnResponse(s: Globals): (r: Globals)
    ensures r.TelloReady
    ensures r == s.(TelloReady := true)
  {
    s.(TelloReady := true)
  }

  /** One pass of the timer task at time now: schedule a status frame when
      the watch period is due, wake up when the sleep time has passed, send
      a keepalive when the keepalive deadline has passed. */
  function Tick(s: Globals, now: real): (r: Globals)
    ensures r.Commands == s.Commands && r.Msg == s.Msg && r.InputModeString == s.InputModeString
    ensures now <= r.TimeKeepalive
    ensures r.SleepTime <= 0.0 || now <= r.SleepTime
    ensures s.WatchPeriod > 0.0 ==> now <= r.TimeState
    ensures r.Sent == s.Sent || r.Sent == s.Sent + [KeepaliveCommand]
  {
    KeepaliveDue(WakeUp(WatchDue(s, now), now), now)
  }

  /** A status frame is wanted when the watch period is on and due. */
  function WatchDue(s: Globals, now: real): (r: Globals)
    ensures r.(NumFrames := s.NumFrames, TimeState := s.TimeState) == s
    ensures s.WatchPeriod <= 0.0 ==> r == s
    ensures s.WatchPeriod > 0.0 ==> now <= r.TimeState
    ensures r.NumFrames == s.NumFrames || r.NumFrames == 1
  {
    if now > s.TimeState && s.WatchPeriod > 0.0
    then s.(NumFrames := 1, TimeState := now + s.WatchPeriod) else s
  }

  /** The sleep is over once its time has passed. */
  function WakeUp(s: Globals, now: real): (r: Globals)
    ensures r.(SleepTime := s.SleepTime) == s
    ensures s.SleepTime <= 0.0 ==> r == s
    ensures r.SleepTime <= 0.0 || now <= r.SleepTime
  {
    if s.SleepTime > 0.0 && now > s.SleepTime then s.(SleepTime := -1.0) else s
  }

  /** The keepalive command goes out once its deadline has passed. */
  function KeepaliveDue(s: Globals, now: real): (r: Globals)
    ensures now <= r.TimeKeepalive
    ensures now <= s.TimeKeepalive ==> r == s
    ensures r.Sent == s.Sent || r.Sent == s.Sent + [KeepaliveCommand]
    ensures r.(Sent := s.Sent, LastCommand := s.LastCommand, TelloReady := s.TelloReady,
               TimeKeepalive := s.TimeKeepalive) == s
  {
    if now > s.TimeKeepalive then Send(s, KeepaliveCommand, now) else s
  }

  /** interpreteState: the frame's pairs go into the dictionary; a header
      row is printed when the watch selection differs from the one last
      headed; then the data row. */
  function Interpret(s: Globals, frame: string, timeText: string): (r: Globals)
    ensures r.(StateDict := s.StateDict, OldWhichWatch := s.OldWhichWatch, Printed := s.Printed) == s
    ensures s.StateDict.Keys <= r.StateDict.Keys && r.OldWhichWatch == s.WhichWatch
    ensures |r.Printed| == |s.Printed| + (if s.OldWhichWatch != s.WhichWatch then 2 else 1)
    ensures r.Printed[..|s.Printed|] == s.Printed
    ensures r.Printed[|r.Printed| - 1] == DataRow(timeText, Cells(r.StateDict, s.WhichWatch), s.LastCommand)
  {
    var d := ApplyFrame(s.StateDict, frame);
    var header := if s.OldWhichWatch != s.WhichWatch then [HeaderRow(s.WhichWatch)] else [];
    s.(StateDict := d, OldWhichWatch := s.WhichWatch,
       Printed := s.Printed + header + [DataRow(timeText, Cells(d, s.WhichWatch), s.LastCommand)])
  }

  /** recvState, for one received frame: while frames are wanted, the frame
      is interpreted (some keywords watched) or printed as is, and one fewer
      frame is wanted. */
  function OnFrame(s: Globals, frame: string, timeText: string): (r: Globals)
    ensures s.NumFrames > 0 ==> r.NumFrames == s.NumFrames - 1 && |r.Printed| > |s.Printed|
    ensures s.NumFrames <= 0 ==> r == s
    ensures s.Printed <= r.Printed
    ensures r.Commands == s.Commands && r.Msg == s.Msg && r.Sent == s.Sent
  {
    if s.NumFrames > 0 then
      var s1 := if |s.WhichWatch| > 0 then Interpret(s, frame, timeText)
                else s.(Printed := s.Printed + [frame]);
      s1.(NumFrames := s1.NumFrames - 1)
    else s
  }

  /** The commands of the line interface; anything else goes to the drone. */
  datatype Keyword =
    | EndCmd | HelpCmd | StateCmd | DistCmd | AngCmd | KeyCmd | WatchCmd
    | WatchPeriodCmd | SleepCmd | DebugCmd | ScriptCmd | DroneCmd

  /** The words the client acts on itself; every other first word is sent to
      the drone. */
  const Keywords: set<string> := {"end", "help", "h", "?", "e", "state", "dist", "ang", "key", "watch",
                                  "watchperiod", "sleep", "debug", "script"}

  /** The keyword a message starts with, by the order of the client's
      tests. */
  function Classify(w: string): (k: Keyword)
  {
    if w == "end" then EndCmd
    else if w in {"help", "h", "?", "e"} then HelpCmd
    else if w == "state" then StateCmd
    else if w == "dist" then DistCmd
    else if w == "ang" then AngCmd
    else if w == "key" then KeyCmd
    else if w == "watch" then WatchCmd
    else if w == "watchperiod" then WatchPeriodCmd
    else if w == "sleep" then SleepCmd
    else if w == "debug" then DebugCmd
    else if w == "script" then ScriptCmd
    else DroneCmd
  }

  /** Exactly the words outside the keyword list go to the drone. */
  lemma ClassifyDrone(w: string)
    ensures Classify(w) == DroneCmd <==> w !in Keywords
  {
  }

  /** A non-empty message, split into words, acted on. */
  function Command(s: Globals, words: seq<string>, now: real, files: map<string, string>): (r: Step)
    requires |words| > 0
    ensures Classify(words[0]) != ScriptCmd ==> r.next.Commands == s.Commands
    ensures r.next.Sent == s.Sent || (Classify(words[0]) == DroneCmd && r.next.Sent == s.Sent + [s.Msg])
    ensures r.outcome.Raised? ==> r.next.Commands == s.Commands && r.next.Sent == s.Sent && r.next.Msg == s.Msg
    ensures r.outcome.Raised? ==> Classify(words[0]) in {StateCmd, DistCmd, AngCmd, SleepCmd, DebugCmd}
  {
    match Classify(words[0])
    case EndCmd => Step(s.(Running := false, Msg := ""), Continue)
    case HelpCmd => Step(s.(Msg := ""), Continue)
    case StateCmd => FramesStep(s, words)
    case DistCmd => DistStep(s, words)
    case AngCmd => AngleStep(s, words)
    case KeyCmd => Step(s.(InputModeString := false, Msg := ""), Continue)
    case WatchCmd => Step(s.(WhichWatch := words[1..], Msg := ""), Continue)
    case WatchPeriodCmd => WatchPeriodStep(s, words)
    case SleepCmd => SleepStep(s, words, now)
    case DebugCmd => DebugStep(s, words)
    case ScriptCmd => ScriptStep(s, words, files)
    case DroneCmd => DroneStep(s, now)
  }

  /** "state [n]": the number of frames to print. */
  function FramesStep(s: Globals, words: seq<string>): (r: Step)
    ensures r.next.Commands == s.Commands && r.next.Sent == s.Sent
  {
    if |words| > 1 then
      match ParseInt(words[1])
      case None => Step(s, Raised(ValueError))
      case Some(n) => Step(s.(NumFrames := n, Msg := ""), Continue)
    else Step(s.(Msg := ""), Continue)
  }

  /** "dist n": the distance of the move keys. */
  function DistStep(s: Globals, words: seq<string>): (r: Step)
    ensures r.next.Commands == s.Commands && r.next.Sent == s.Sent
  {
    if |words| < 2 then Step(s, Raised(IndexError))
    else match ParseInt(words[1])
      case None => Step(s, Raised(ValueError))
      case Some(n) => Step(s.(Dist := n, Msg := ""), Continue)
  }

  /** "ang n": the angle of the turn keys. */
  function AngleStep(s: Globals, words: seq<string>): (r: Step)
    ensures r.next.Commands == s.Commands && r.next.Sent == s.Sent
  {
    if |words| < 2 then Step(s, Raised(IndexError))
    else match ParseInt(words[1])
      case None => Step(s, Raised(ValueError))
      case Some(n) => Step(s.(Angle := n, Msg := ""), Continue)
  }

  /** "watchperiod [t]": the period of the watch printout, -1 when absent. */
  function WatchPeriodStep(s: Globals, words: seq<string>): (r: Step)
    ensures r.next.Commands == s.Commands && r.next.Sent == s.Sent
  {
    var p := if |words| > 1 then ParseFloat(words[1]) else None;
    Step(s.(WatchPeriod := if p.Some? then p.value else -1.0, Msg := ""), Continue)
  }

  /** "sleep [t]": a pause of t seconds, or of the last one given. */
  function SleepStep(s: Globals, words: seq<string>, now: real): (r: Step)
    ensures r.next.Commands == s.Commands && r.next.Sent == s.Sent
  {
    var diff := if |words| > 1 then ParseFloat(words[1]) else None;
    if diff.Some? then
      Step(s.(SleepTimeDiff := diff, SleepTime := diff.value + now, Msg := ""), Continue)
    else if s.SleepTimeDiff.None? then
      // the failed parse leaves SleepTimeDiff unbound
      Step(s.(SleepTime := -1.0), Raised(NameError))
    else
      Step(s.(SleepTime := s.SleepTimeDiff.value + now, Msg := ""), Continue)
  }

  /** "debug [n]": the debug level; the message is not cleared. */
  function DebugStep(s: Globals, words: seq<string>): (r: Step)
    ensures r.next.Commands == s.Commands && r.next.Sent == s.Sent
  {
    if |words| > 1 then
      match ParseInt(words[1])
      case None => Step(s, Raised(ValueError))
      case Some(n) => Step(s.(DebugLevel := n), Continue)
    else Step(s, Continue)
  }

  /** "script name": the file's lines go to the front of the queue. */
  function ScriptStep(s: Globals, words: seq<string>, files: map<string, string>): (r: Step)
    ensures r.next.Sent == s.Sent
  {
    if |words| > 1 then
      match ScriptRead(s.Commands, files, words[1], 'i')
      case None => Step(s.(Msg := ""), Continue)
      case Some(cmds) => Step(s.(Commands := cmds, Msg := ""), Continue)
    else Step(s.(Msg := ""), Continue)
  }

  /** Any other word: the message goes to the drone once it is ready. */
  function DroneStep(s: Globals, now: real): (r: Step)
    ensures r.next.Commands == s.Commands
  {
    if s.TelloReady then Step(Send(s, s.Msg, now).(Msg := ""), Continue)
    else Step(s, Continue)
  }

  /** The second half of a main-loop pass: the comment is cut off the
      pending message; a non-empty message is acted on, and with none pending
      the next queued command becomes the message unless the client sleeps. */
  function Process(s: Globals, now: real, files: map<string, string>): (r: Step)
    ensures r.outcome.Raised? ==> |BeforeHash(s.Msg)| > 0 && r.next.Commands == s.Commands
    ensures |BeforeHash(s.Msg)| == 0 ==> r.next.Sent == s.Sent
    ensures r.next.Sent == s.Sent || r.next.Sent == s.Sent + [BeforeHash(s.Msg)]
  {
    var msg := BeforeHash(s.Msg);
    var t := s.(Msg := msg);
    if |msg| > 0 then
      var words := Words(msg);
      if words == [] then Step(t, Raised(IndexError))
      else Command(t, words, now, files)
    else if |t.Commands| > 0 && t.SleepTime < 0.0 then
      Step(t.(Msg := Remove(t.Commands[0], '\n'), Commands := t.Commands[1..]), Continue)
    else Step(t, Continue)
  }

  /** Key mode: the effect of the keypress read in this pass, if any. */
  function KeyStep(s: Globals, key: Option<KeyEvent>, now: real): (r: Step)
    ensures r.outcome.Raised? <==> key.Some? && key.value.second.None?
                                   && (key.value.first == ExtendedPrefix || key.value.first == FunctionPrefix)
    ensures r.next.Commands == s.Commands
    ensures r.next.InputModeString == (s.InputModeString || (key.Some? && key.value.first == Escape))
  {
    match key
    case None => Step(s, Continue)
    case Some(k) => KeyAct(s, Translate(k, s.Dist, s.Angle), now)
  }

  /** The effect of a keypress's action on the globals. */
  function KeyAct(s: Globals, a: KeyAction, now: real): (r: Step)
    ensures r.outcome.Raised? <==> a.MissingSecondByte?
    ensures r.next.Commands == s.Commands
    ensures r.next.Sent == if a.SendNow? then s.Sent + [a.command] else s.Sent
    ensures r.next.InputModeString == (s.InputModeString || a.LeaveKeyMode?)
  {
    match a
    case Stage(cmd) => Step(s.(Msg := cmd), Continue)
    case SendNow(cmd) => Step(Send(s, cmd, now).(Msg := ""), Continue)
    case ShowHelp => Step(s.(Msg := ""), Continue)
    case LeaveKeyMode => Step(s.(Msg := "", InputModeString := true), Continue)
    case SetDist(d) => Step(s.(Dist := d, Msg := WithAmount("dist", d)), Continue)
    case SetAngle(a) => Step(s.(Angle := a, Msg := WithAmount("ang", a)), Continue)
    case Ignore => Step(s, Continue)
    case MissingSecondByte => Step(s, Raised(IndexError))
  }

  /** Whether this pass of the main loop prompts for a line. */
  predicate Prompts(s: Globals)
  {
    s.TelloReady && s.InputModeString && |s.Commands| == 0 && |s.Msg| == 0
  }

  /** One pass of the main loop: the line typed when the loop prompts, the
      key read in key mode, then the message processed. */
  function Iterate(s: Globals, line: string, key: Option<KeyEvent>, now: real, files: map<string, string>): (r: Step)
    ensures s.Sent <= r.next.Sent && |r.next.Sent| <= |s.Sent| + 1
    ensures r.outcome.Raised? ==> r.next.Commands == s.Commands
  {
    var s1 := if Prompts(s) then s.(Msg := line) else s;
    var k := if !s1.InputModeString then KeyStep(s1, key, now) else Step(s1, Continue);
    if k.outcome.Raised? then k else Process(k.next, now, files)
  }
}
