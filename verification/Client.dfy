/** The client as it runs: its globals as the fields of one object, and each
    activity (the main loop's pass, the timer pass, a status frame, a
    response) as a method that updates them in place. Every method is proved
    to leave the object in the state the matching step function of Protocol
    computes from the state before, so the properties proved about those
    functions hold of the running client. */
module TelloClient {
  import opened Wrappers
  import opened PyText
  import opened PyNumber
  import opened Telemetry
  import opened Keys
  import opened Protocol

  class Client {
    var StateDict: StateMap
    var WhichWatch: seq<string>
    var OldWhichWatch: seq<string>
    var LastCommand: string
    var Commands: seq<string>
    var Msg: string
    var SleepTimeDiff: Option<real>
    var TelloReady: bool
    var InputModeString: bool
    var Dist: int
    var Angle: int
    var NumFrames: int
    var WatchPeriod: real
    var SleepTime: real
    var TimeState: real
    var TimeKeepalive: real
    var Running: bool
    var DebugLevel: int
    var Sent: seq<string>
    var Printed: seq<string>

    /** The fields as one value. */
    ghost function State(): Globals
      reads this
    {
      Globals(
        StateDict := StateDict, WhichWatch := WhichWatch, OldWhichWatch := OldWhichWatch,
        LastCommand := LastCommand, Commands := Commands, Msg := Msg, SleepTimeDiff := SleepTimeDiff,
        TelloReady := TelloReady, InputModeString := InputModeString, Dist := Dist, Angle := Angle,
        NumFrames := NumFrames, WatchPeriod := WatchPeriod, SleepTime := SleepTime,
        TimeState := TimeState, TimeKeepalive := TimeKeepalive, Running := Running,
        DebugLevel := DebugLevel, Sent := Sent, Printed := Printed)
    }

    /** The globals as the program starts at time now, with the debug level
        given on the command line and the two start commands queued. */
    constructor (now: real, debugLevel: int)
      ensures State() == Initial(now, debugLevel)
    {
      StateDict := InitialStateDict;
      WhichWatch := [];
      OldWhichWatch := [];
      LastCommand := "";
      Commands := StartCommands;
      Msg := "";
      SleepTimeDiff := None;
      TelloReady := true;
      InputModeString := true;
      Dist := InitialDist;
      Angle := InitialAngle;
      NumFrames := 0;
      WatchPeriod := -1.0;
      SleepTime := -1.0;
      TimeState := 0.0;
      TimeKeepalive := now + KeepaliveInterval;
      Running := true;
      DebugLevel := debugLevel;
      Sent := [];
      Printed := [];
    }

    /** sendCommand: hand the command to the socket. */
    method SendCommand(cmd: string, now: real)
      modifies this
      ensures State() == Send(old(State()), cmd, now)
    {
      ghost var s := State();
      LastCommand := cmd;
      TelloReady := false;
      Sent := Sent + [cmd];
      TimeKeepalive := now + KeepaliveInterval;
      assert State() == s.(LastCommand := cmd, TelloReady := false,
                           TimeKeepalive := now + KeepaliveInterval, Sent := s.Sent + [cmd]);
    }

    /** A command sent and the pending message cleared. */
    method SendAndClear(cmd: string, now: real)
      modifies this
      ensures State() == Send(old(State()), cmd, now).(Msg := "")
    {
      SendCommand(cmd, now);
      Msg := "";
    }

    /** recvBasic: a response arrived. */
    method ReceiveResponse()
      modifies this
      ensures State() == OnResponse(old(State()))
    {
      ghost var s := State();
      TelloReady := true;
      assert State() == s.(TelloReady := true);
    }

    /** One pass of timerFunc's loop at time now. */
    method TimerPass(now: real)
      modifies this
      ensures State() == Tick(old(State()), now)
    {
      ScheduleFrame(now);
      WakeUpWhenDue(now);
      KeepAlive(now);
    }

    /** A status frame wanted when the watch period is due. */
    method ScheduleFrame(now: real)
      modifies this
      ensures State() == WatchDue(old(State()), now)
    {
      if now > TimeState && WatchPeriod > 0.0 {
        NumFrames := 1;
        TimeState := now + WatchPeriod;
      }
    }

    /** The sleep ends when its time has passed. */
    method WakeUpWhenDue(now: real)
      modifies this
      ensures State() == WakeUp(old(State()), now)
    {
      if SleepTime > 0.0 && now > SleepTime {
        SleepTime := -1.0;
      }
    }

    /** The keepalive goes out when its deadline has passed. */
    method KeepAlive(now: real)
      modifies this
      ensures State() == KeepaliveDue(old(State()), now)
    {
      if now > TimeKeepalive {
        SendCommand(KeepaliveCommand, now);
      }
    }

    /** scriptRead: load the lines of a file into the queue; false when the
        file cannot be opened or the mode is not 'i', 'a' or 'r'. */
    method ScriptRead(files: map<string, string>, name: string, where: char) returns (ok: bool)
      modifies this
      ensures var r := Protocol.ScriptRead(old(Commands), files, name, where);
        && ok == r.Some?
        && State() == if ok then old(State()).(Commands := r.value) else old(State())
    {
      if name !in files {
        return false;
      }
      var lines := ReadLines(files[name]);
      if where == 'i' {
        Commands := lines + Commands;
      } else if where == 'a' {
        Commands := Commands + lines;
      } else if where == 'r' {
        Commands := lines;
      } else {
        return false;
      }
      return true;
    }

    /** interpreteState: the frame's pairs stored, then the rows printed. */
    method InterpreteState(frame: string, timeText: string)
      modifies this
      ensures State() == Interpret(old(State()), frame, timeText)
    {
      StorePairs(frame);
      PrintRows(timeText);
    }

    /** interpreteState, first half: pop the frame's ';'-separated segments
        one by one and store each pair in the dictionary. */
    method StorePairs(frame: string)
      modifies this
      ensures State() == old(State()).(StateDict := ApplyFrame(old(StateDict), frame))
    {
      var all := Split(frame, ';');
      var segs := all;
      ghost var done := 0;
      while segs != []
        invariant 0 <= done <= |all| && segs == all[done..]
        invariant StateDict == ApplyPairs(old(StateDict), all[..done])
        invariant State() == old(State()).(StateDict := StateDict)
        decreases |segs|
      {
        var pair := segs[0];
        segs := segs[1..];
        StorePair(pair);
        assert all[..done + 1][..done] == all[..done];
        done := done + 1;
      }
      assert all[..done] == all;
    }

    /** One segment: a pair stores its value under its keyword. */
    method StorePair(pair: string)
      modifies this
      ensures State() == old(State()).(StateDict := Update(old(StateDict), pair))
    {
      if ':' in pair {
        StateDict := StateDict[KeyOf(pair) := ValueOf(pair)];
      }
    }

    /** interpreteState, second half: the header row when the selection
        changed since the last one, then the data row. */
    method PrintRows(timeText: string)
      modifies this
      ensures var header := if old(OldWhichWatch) != old(WhichWatch) then [HeaderRow(old(WhichWatch))] else [];
        State() == old(State()).(OldWhichWatch := old(WhichWatch),
          Printed := old(Printed) + header + [DataRow(timeText, Cells(old(StateDict), old(WhichWatch)), old(LastCommand))])
    {
      PrintHeader();
      PrintDataRow(timeText);
    }

    /** The header row, printed when the selection changed since the last
        one, and the selection remembered. */
    method PrintHeader()
      modifies this
      ensures var header := if old(OldWhichWatch) != old(WhichWatch) then [HeaderRow(old(WhichWatch))] else [];
        State() == old(State()).(OldWhichWatch := old(WhichWatch), Printed := old(Printed) + header)
    {
      if OldWhichWatch != WhichWatch {
        var h := BuildHeader(WhichWatch);
        Printed := Printed + [h];
      }
      OldWhichWatch := WhichWatch;
    }

    /** The data row: the time, the watched values and the last command. */
    method PrintDataRow(timeText: string)
      modifies this
      ensures State() == old(State()).(Printed := old(Printed) + [DataRow(timeText, Cells(StateDict, WhichWatch), LastCommand)])
    {
      var row := BuildRow(timeText, WhichWatch, StateDict, LastCommand);
      Printed := Printed + [row];
    }

    /** recvState: a status frame arrived. */
    method ReceiveFrame(frame: string, timeText: string)
      modifies this
      ensures State() == OnFrame(old(State()), frame, timeText)
    {
      if NumFrames > 0 {
        if |WhichWatch| > 0 {
          InterpreteState(frame, timeText);
        } else {
          Printed := Printed + [frame];
        }
        NumFrames := NumFrames - 1;
      }
    }

    /** Key mode: act on the keypress read in this pass, if any. */
    method PressKey(key: Option<KeyEvent>, now: real) returns (outcome: Outcome)
      modifies this
      ensures Step(State(), outcome) == KeyStep(old(State()), key, now)
    {
      outcome := Continue;
      if key.Some? {
        var action := Translate(key.value, Dist, Angle);
        outcome := Act(action, now);
      }
    }

    /** The action of a keypress carried out. */
    method Act(action: KeyAction, now: real) returns (outcome: Outcome)
      modifies this
      ensures Step(State(), outcome) == KeyAct(old(State()), action, now)
    {
      outcome := Continue;
      match action
      case Stage(cmd) =>
        Msg := cmd;
      case SendNow(cmd) =>
        SendAndClear(cmd, now);
      case ShowHelp =>
        Msg := "";
      case LeaveKeyMode =>
        Msg := "";
        InputModeString := true;
      case SetDist(d) =>
        ChangeDistance(d);
      case SetAngle(a) =>
        ChangeAngle(a);
      case Ignore =>
      case MissingSecondByte =>
        outcome := Raised(IndexError);
    }

    /** A new move distance, echoed as a "dist" message. */
    method ChangeDistance(d: int)
      modifies this
      ensures State() == old(State()).(Dist := d, Msg := WithAmount("dist", d))
    {
      Dist := d;
      Msg := WithAmount("dist", d);
    }

    /** A new turn angle, echoed as an "ang" message. */
    method ChangeAngle(a: int)
      modifies this
      ensures State() == old(State()).(Angle := a, Msg := WithAmount("ang", a))
    {
      Angle := a;
      Msg := WithAmount("ang", a);
    }

    /** Act on a non-empty message split into words: the keyword picks the
        branch. */
    method RunCommand(words: seq<string>, now: real, files: map<string, string>) returns (outcome: Outcome)
      requires |words| > 0
      modifies this
      ensures Step(State(), outcome) == Command(old(State()), words, now, files)
    {
      match Classify(words[0])
      case EndCmd => outcome := End(words, now, files);
      case HelpCmd => outcome := Help(words, now, files);
      case StateCmd => outcome := SetFrames(words);
      case DistCmd => outcome := SetDistance(words);
      case AngCmd => outcome := SetTurnAngle(words);
      case KeyCmd => outcome := EnterKeyMode(words, now, files);
      case WatchCmd => outcome := Watch(words, now, files);
      case WatchPeriodCmd => outcome := SetWatchPeriod(words);
      case SleepCmd => outcome := Sleep(words, now);
      case DebugCmd => outcome := SetDebugLevel(words);
      case ScriptCmd => outcome := LoadScript(words, files);
      case DroneCmd => outcome := ForwardToDrone(now);
    }

    /** "end": stop the loops. */
    method End(words: seq<string>, now: real, files: map<string, string>) returns (outcome: Outcome)
      requires |words| > 0 && Classify(words[0]) == EndCmd
      modifies this
      ensures Step(State(), outcome) == Command(old(State()), words, now, files)
    {
      Running := false;
      Msg := "";
      outcome := Continue;
    }

    /** "help", "h", "?", "e": the help text is printed. */
    method Help(words: seq<string>, now: real, files: map<string, string>) returns (outcome: Outcome)
      requires |words| > 0 && Classify(words[0]) == HelpCmd
      modifies this
      ensures Step(State(), outcome) == Command(old(State()), words, now, files)
    {
      Msg := "";
      outcome := Continue;
    }

    /** "state n": n status frames wanted; n must be an integer literal. */
    method SetFrames(words: seq<string>) returns (outcome: Outcome)
      modifies this
      ensures Step(State(), outcome) == FramesStep(old(State()), words)
    {
      if |words| > 1 {
        var n := ParseInt(words[1]);
        if n.None? {
          return Raised(ValueError);
        }
        NumFrames := n.value;
      }
      Msg := "";
      outcome := Continue;
    }

    /** "dist n": the move distance; the argument is required. */
    method SetDistance(words: seq<string>) returns (outcome: Outcome)
      modifies this
      ensures Step(State(), outcome) == DistStep(old(State()), words)
    {
      if |words| < 2 {
        return Raised(IndexError);
      }
      var n := ParseInt(words[1]);
      if n.None? {
        return Raised(ValueError);
      }
      Dist := n.value;
      Msg := "";
      outcome := Continue;
    }

    /** "ang n": the turn angle; the argument is required. */
    method SetTurnAngle(words: seq<string>) returns (outcome: Outcome)
      modifies this
      ensures Step(State(), outcome) == AngleStep(old(State()), words)
    {
      if |words| < 2 {
        return Raised(IndexError);
      }
      var n := ParseInt(words[1]);
      if n.None? {
        return Raised(ValueError);
      }
      Angle := n.value;
      Msg := "";
      outcome := Continue;
    }

    /** "key": key mode on. */
    method EnterKeyMode(words: seq<string>, now: real, files: map<string, string>) returns (outcome: Outcome)
      requires |words| > 0 && Classify(words[0]) == KeyCmd
      modifies this
      ensures Step(State(), outcome) == Command(old(State()), words, now, files)
    {
      InputModeString := false;
      Msg := "";
      outcome := Continue;
    }

    /** "watch k1 k2 ...": the keywords to watch. */
    method Watch(words: seq<string>, now: real, files: map<string, string>) returns (outcome: Outcome)
      requires |words| > 0 && Classify(words[0]) == WatchCmd
      modifies this
      ensures Step(State(), outcome) == Command(old(State()), words, now, files)
    {
      WhichWatch := words[1..];
      Msg := "";
      outcome := Continue;
    }

    /** "watchperiod p": a frame every p seconds; anything unreadable turns it off. */
    method SetWatchPeriod(words: seq<string>) returns (outcome: Outcome)
      modifies this
      ensures Step(State(), outcome) == WatchPeriodStep(old(State()), words)
    {
      var p := if |words| > 1 then ParseFloat(words[1]) else None;
      WatchPeriod := if p.Some? then p.value else -1.0;
      Msg := "";
      outcome := Continue;
    }

    /** "sleep s": the queue waits s seconds; a bad argument reuses the last good one, or raises NameError when there was none. */
    method Sleep(words: seq<string>, now: real) returns (outcome: Outcome)
      modifies this
      ensures Step(State(), outcome) == SleepStep(old(State()), words, now)
    {
      var diff := if |words| > 1 then ParseFloat(words[1]) else None;
      if diff.Some? {
        SleepTimeDiff := diff;
      } else {
        SleepTime := -1.0;
        if SleepTimeDiff.None? {
          return Raised(NameError);
        }
      }
      SleepTime := SleepTimeDiff.value + now;
      Msg := "";
      outcome := Continue;
    }

    /** "debug n": the debug level; the message stays pending. */
    method SetDebugLevel(words: seq<string>) returns (outcome: Outcome)
      modifies this
      ensures Step(State(), outcome) == DebugStep(old(State()), words)
    {
      if |words| > 1 {
        var n := ParseInt(words[1]);
        if n.None? {
          return Raised(ValueError);
        }
        DebugLevel := n.value;
      }
      outcome := Continue;
    }

    /** "script f": the file's lines go to the front of the queue. */
    method LoadScript(words: seq<string>, files: map<string, string>) returns (outcome: Outcome)
      modifies this
      ensures Step(State(), outcome) == ScriptStep(old(State()), words, files)
    {
      if |words| > 1 {
        var _ := ScriptRead(files, words[1], 'i');
      }
      Msg := "";
      outcome := Continue;
    }

    /** Any other keyword: the message goes to the drone once it is ready. */
    method ForwardToDrone(now: real) returns (outcome: Outcome)
      modifies this
      ensures Step(State(), outcome) == DroneStep(old(State()), now)
    {
      if TelloReady {
        SendAndClear(Msg, now);
      }
      outcome := Continue;
    }

    /** The second half of a main-loop pass: cut the comment, then act on
        the message or take the next queued command. */
    method ProcessMessage(now: real, files: map<string, string>) returns (outcome: Outcome)
      modifies this
      ensures Step(State(), outcome) == Process(old(State()), now, files)
    {
      CutComment();
      if |Msg| > 0 {
        var words := Words(Msg);
        if words == [] {
          return Raised(IndexError);
        }
        outcome := RunCommand(words, now, files);
      } else {
        TakeNext();
        outcome := Continue;
      }
    }

    /** The comment, from the first '#', cut off the pending message. */
    method CutComment()
      modifies this
      ensures State() == old(State()).(Msg := BeforeHash(old(Msg)))
    {
      Msg := BeforeHash(Msg);
    }

    /** Unless asleep, the next queued command, its line end removed,
        becomes the message. */
    method TakeNext()
      modifies this
      ensures State() == if |old(Commands)| > 0 && old(SleepTime) < 0.0
        then old(State()).(Msg := Remove(old(Commands)[0], '\n'), Commands := old(Commands)[1..])
        else old(State())
    {
      if |Commands| > 0 && SleepTime < 0.0 {
        Msg := Remove(Commands[0], '\n');
        Commands := Commands[1..];
      }
    }

    /** One pass of main's loop: prompt for a line when nothing else is
        pending, read a key in key mode, then process the message. */
    method Pass(line: string, key: Option<KeyEvent>, now: real, files: map<string, string>)
      returns (outcome: Outcome)
      modifies this
      ensures Step(State(), outcome) == Iterate(old(State()), line, key, now, files)
    {
      if TelloReady && InputModeString && |Commands| == 0 && |Msg| == 0 {
        Msg := line;
      }
      if !InputModeString {
        outcome := PressKey(key, now);
        if outcome.Raised? {
          return;
        }
      }
      outcome := ProcessMessage(now, files);
    }
  }
}
