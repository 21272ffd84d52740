/** What the client's steps guarantee: how the command queue and the send
    path behave, which messages end the main loop with an exception, what
    the timer pass settles, what a frame changes and prints, and what the
    key-mode shortcuts do. */
module Properties {
  import opened Wrappers
  import opened PyText
  import opened PyNumber
  import opened Telemetry
  import opened Keys
  import opened Protocol

  /* ---------------------------------------------------------------- */
  /* The queue and the send path                                        */
  /* ---------------------------------------------------------------- */

  /** The queue changes in two ways only: the next command is popped into
      the empty message while the client is awake, or a script is put in
      front of it. Popping happens whenever those conditions hold. */
  lemma QueueDiscipline(s: Globals, now: real, files: map<string, string>)
    ensures var r := Process(s, now, files);
      || r.next.Commands == s.Commands
      || (&& BeforeHash(s.Msg) == "" && |s.Commands| > 0 && s.SleepTime < 0.0
          && r.next.Commands == s.Commands[1..] && r.next.Msg == Remove(s.Commands[0], '\n'))
      || (var w := Words(BeforeHash(s.Msg));
          && |w| > 1 && Classify(w[0]) == ScriptCmd && w[1] in files
          && r.next.Commands == ReadLines(files[w[1]]) + s.Commands)
    ensures BeforeHash(s.Msg) == "" && |s.Commands| > 0 && s.SleepTime < 0.0 ==>
      Process(s, now, files)
      == Step(s.(Msg := Remove(s.Commands[0], '\n'), Commands := s.Commands[1..]), Continue)
  {
    var m := BeforeHash(s.Msg);
    if |m| > 0 && Words(m) != [] {
      assert Process(s, now, files) == Command(s.(Msg := m), Words(m), now, files);
      CommandQueue(s.(Msg := m), Words(m), now, files);
    } else if |m| == 0 && |s.Commands| > 0 && s.SleepTime < 0.0 {
      QueuePop(s, now, files);
    }
  }

  lemma QueuePop(s: Globals, now: real, files: map<string, string>)
    requires BeforeHash(s.Msg) == "" && |s.Commands| > 0 && s.SleepTime < 0.0
    ensures Process(s, now, files)
            == Step(s.(Msg := Remove(s.Commands[0], '\n'), Commands := s.Commands[1..]), Continue)
  {
  }

  lemma CommandQueue(t: Globals, w: seq<string>, now: real, files: map<string, string>)
    requires |w| > 0
    ensures var r := Command(t, w, now, files);
      || r.next.Commands == t.Commands
      || (|w| > 1 && Classify(w[0]) == ScriptCmd && w[1] in files && r.next.Commands == ReadLines(files[w[1]]) + t.Commands)
  {
    var r := Command(t, w, now, files);
    match Classify(w[0])
    case EndCmd => assert r.next.Commands == t.Commands;
    case HelpCmd => assert r.next.Commands == t.Commands;
    case StateCmd => assert r.next.Commands == t.Commands;
    case DistCmd => assert r.next.Commands == t.Commands;
    case AngCmd => assert r.next.Commands == t.Commands;
    case KeyCmd => assert r.next.Commands == t.Commands;
    case WatchCmd => assert r.next.Commands == t.Commands;
    case WatchPeriodCmd => assert r.next.Commands == t.Commands;
    case SleepCmd => assert r.next.Commands == t.Commands;
    case DebugCmd => assert r.next.Commands == t.Commands;
    case ScriptCmd => ScriptQueue(t, w, now, files);
    case DroneCmd => assert r.next.Commands == t.Commands;
  }

  lemma ScriptQueue(t: Globals, w: seq<string>, now: real, files: map<string, string>)
    requires |w| > 0 && Classify(w[0]) == ScriptCmd
    ensures var r := Command(t, w, now, files);
      || r.next.Commands == t.Commands
      || (|w| > 1 && w[1] in files && r.next.Commands == ReadLines(files[w[1]]) + t.Commands)
  {
  }

  lemma DroneSends(t: Globals, w: seq<string>, now: real, files: map<string, string>)
    requires |w| > 0 && Classify(w[0]) == DroneCmd
    ensures var r := Command(t, w, now, files);
      || r.next.Sent == t.Sent
      || (t.TelloReady && r.next.Sent == t.Sent + [t.Msg] && r.next.Msg == "" && !r.next.TelloReady)
  {
  }

  lemma CommandSends(t: Globals, w: seq<string>, now: real, files: map<string, string>)
    requires |w| > 0
    ensures var r := Command(t, w, now, files);
      || r.next.Sent == t.Sent
      || (&& t.TelloReady && Classify(w[0]) == DroneCmd
          && r.next.Sent == t.Sent + [t.Msg] && r.next.Msg == "" && !r.next.TelloReady)
  {
    var r := Command(t, w, now, files);
    match Classify(w[0])
    case EndCmd => assert r.next.Sent == t.Sent;
    case HelpCmd => assert r.next.Sent == t.Sent;
    case StateCmd => assert r.next.Sent == t.Sent;
    case DistCmd => assert r.next.Sent == t.Sent;
    case AngCmd => assert r.next.Sent == t.Sent;
    case KeyCmd => assert r.next.Sent == t.Sent;
    case WatchCmd => assert r.next.Sent == t.Sent;
    case WatchPeriodCmd => assert r.next.Sent == t.Sent;
    case SleepCmd => assert r.next.Sent == t.Sent;
    case DebugCmd => assert r.next.Sent == t.Sent;
    case ScriptCmd => assert r.next.Sent == t.Sent;
    case DroneCmd => DroneSends(t, w, now, files);
  }

  /** Commands reach the drone from the line interface only when it is ready,
      and then the message goes out as typed, comment cut off. */
  lemma SendDiscipline(s: Globals, now: real, files: map<string, string>)
    ensures var r := Process(s, now, files);
      || r.next.Sent == s.Sent
      || (var m := BeforeHash(s.Msg);
          && s.TelloReady && |Words(m)| > 0 && Classify(Words(m)[0]) == DroneCmd
          && r.next.Sent == s.Sent + [m] && r.next.Msg == "" && !r.next.TelloReady)
    ensures !s.TelloReady ==> Process(s, now, files).next.Sent == s.Sent
  {
    var m := BeforeHash(s.Msg);
    var t := s.(Msg := m);
    if |m| > 0 && Words(m) != [] {
      assert Process(s, now, files) == Command(t, Words(m), now, files);
      CommandSends(t, Words(m), now, files);
    } else {
      assert Process(s, now, files).next.Sent == s.Sent;
    }
  }

  /** A drone command that finds the drone busy stays pending, unchanged,
      and goes out on the first pass after a response arrives. */
  lemma DroneCommandWaitsForResponse(s: Globals, now: real, later: real, files: map<string, string>, files2: map<string, string>)
    requires !s.TelloReady
    requires |Words(BeforeHash(s.Msg))| > 0 && Classify(Words(BeforeHash(s.Msg))[0]) == DroneCmd
    ensures Process(s, now, files) == Step(s.(Msg := BeforeHash(s.Msg)), Continue)
    ensures Process(Process(s, now, files).next, later, files2) == Process(s, now, files)
    ensures Process(OnResponse(Process(s, now, files).next), later, files2).next.Sent
            == s.Sent + [BeforeHash(s.Msg)]
  {
    var m := BeforeHash(s.Msg);
    var t := s.(Msg := m);
    assert Process(s, now, files) == Command(t, Words(m), now, files);
    BeforeHashNoHash(m);
    assert Process(t, later, files2) == Command(t, Words(m), later, files2);
    assert Process(OnResponse(t), later, files2) == Command(OnResponse(t), Words(m), later, files2);
  }

  /** The message that ends the loop with an exception, for each kind:
      IndexError for a message of blanks only or a missing distance or
      angle; ValueError for an argument of state, dist, ang or debug that is
      not an integer; NameError for a sleep without a valid duration before
      any valid sleep. */
  lemma ErrorCases(s: Globals, now: real, files: map<string, string>)
    ensures var m := BeforeHash(s.Msg);
            var w := Words(m);
            var r := Process(s, now, files);
      && (r.outcome == Raised(IndexError) <==>
           (m != "" && AllSpace(m)) || (|w| == 1 && (Classify(w[0]) == DistCmd || Classify(w[0]) == AngCmd)))
      && (r.outcome == Raised(ValueError) <==>
           |w| > 1 && Classify(w[0]) in {StateCmd, DistCmd, AngCmd, DebugCmd} && ParseInt(w[1]).None?)
      && (r.outcome == Raised(NameError) <==>
           |w| > 0 && Classify(w[0]) == SleepCmd && (|w| == 1 || ParseFloat(w[1]).None?) && s.SleepTimeDiff.None?)
  {
    var m := BeforeHash(s.Msg);
    var t := s.(Msg := m);
    if |m| == 0 {
      assert Process(s, now, files).outcome == Continue;
    } else if Words(m) == [] {
      assert Process(s, now, files) == Step(t, Raised(IndexError));
    } else {
      assert Process(s, now, files) == Command(t, Words(m), now, files);
      CommandErrors(t, Words(m), now, files);
    }
  }

  lemma CommandErrors(t: Globals, w: seq<string>, now: real, files: map<string, string>)
    requires |w| > 0
    ensures var r := Command(t, w, now, files);
      && (r.outcome == Raised(IndexError) <==> |w| == 1 && (Classify(w[0]) == DistCmd || Classify(w[0]) == AngCmd))
      && (r.outcome == Raised(ValueError) <==>
           |w| > 1 && Classify(w[0]) in {StateCmd, DistCmd, AngCmd, DebugCmd} && ParseInt(w[1]).None?)
      && (r.outcome == Raised(NameError) <==>
           Classify(w[0]) == SleepCmd && (|w| == 1 || ParseFloat(w[1]).None?) && t.SleepTimeDiff.None?)
  {
    match Classify(w[0])
    case EndCmd =>
    case HelpCmd =>
    case StateCmd =>
    case DistCmd =>
    case AngCmd =>
    case KeyCmd =>
    case WatchCmd =>
    case WatchPeriodCmd =>
    case SleepCmd =>
    case DebugCmd =>
    case ScriptCmd =>
    case DroneCmd =>
  }

  /** "debug n" is never cleared: the debug level is set, and every later
      pass in line mode finds the same message and does the same, so the
      queue is never popped and no prompt appears again. */
  lemma DebugLivelock(s: Globals, n: int, line: string, key: Option<KeyEvent>, now: real, later: real,
                      files: map<string, string>, files2: map<string, string>)
    requires s.Msg == WithAmount("debug", n) && s.InputModeString
    ensures Process(s, now, files) == Step(s.(DebugLevel := n), Continue)
    ensures Iterate(s.(DebugLevel := n), line, key, later, files2) == Step(s.(DebugLevel := n), Continue)
  {
    DebugCommand(s, n, now, files);
    var s1 := s.(DebugLevel := n);
    assert !Prompts(s1);
    DebugCommand(s1, n, later, files2);
    assert s1.(DebugLevel := n) == s1;
  }

  lemma DebugCommand(s: Globals, n: int, now: real, files: map<string, string>)
    requires s.Msg == WithAmount("debug", n)
    ensures Process(s, now, files) == Step(s.(DebugLevel := n), Continue)
  {
    DebugWord();
    AmountCommand(s, "debug", n, now, files);
    ParseIntOfIntText(n);
    assert Command(s, ["debug", IntText(n)], now, files) == DebugStep(s, ["debug", IntText(n)]);
  }

  lemma StateWord()
    ensures Classify("state") == StateCmd && IsWord("state") && '#' !in "state"
  {
  }

  /** `state n` sets the frame budget to n and clears the message. */
  lemma StateCommand(s: Globals, n: int, now: real, files: map<string, string>)
    requires s.Msg == WithAmount("state", n)
    ensures Process(s, now, files) == Step(s.(NumFrames := n, Msg := ""), Continue)
  {
    StateWord();
    AmountCommand(s, "state", n, now, files);
    ParseIntOfIntText(n);
    assert Command(s, ["state", IntText(n)], now, files) == FramesStep(s, ["state", IntText(n)]);
  }

  /** Frames arriving one after another, all stamped with the same time. */
  function OnFrames(s: Globals, frames: seq<string>, timeText: string): Globals
    decreases |frames|
  {
    if frames == [] then s else OnFrames(OnFrame(s, frames[0], timeText), frames[1..], timeText)
  }

  /** A budget of exactly |frames| is spent by those frames, each printing
      at least one line (the frame itself when nothing is watched); the
      frame after them changes nothing. */
  lemma {:induction false} FramesSpendBudget(s: Globals, frames: seq<string>, timeText: string, late: string)
    requires s.NumFrames == |frames|
    ensures var r := OnFrames(s, frames, timeText);
      && r.NumFrames == 0
      && s.Printed <= r.Printed && |r.Printed| >= |s.Printed| + |frames|
      && (|s.WhichWatch| == 0 ==> r.Printed == s.Printed + frames)
      && OnFrame(r, late, timeText) == r
    decreases |frames|
  {
    if frames != [] {
      var s1 := OnFrame(s, frames[0], timeText);
      FramesSpendBudget(s1, frames[1..], timeText, late);
      if |s.WhichWatch| == 0 {
        assert s1.Printed == s.Printed + [frames[0]];
        Assoc(s.Printed, [frames[0]], frames[1..]);
        HeadTail(frames);
      }
    }
  }

  /** After `state n`, the next n frames are printed and the one after
      them is not. */
  lemma StateThenFrames(s: Globals, n: nat, frames: seq<string>, timeText: string, late: string,
                        now: real, files: map<string, string>)
    requires s.Msg == WithAmount("state", n) && |frames| == n
    ensures var r := OnFrames(Process(s, now, files).next, frames, timeText);
      && r.NumFrames == 0 && |r.Printed| >= |s.Printed| + n
      && (|s.WhichWatch| == 0 ==> r.Printed == s.Printed + frames)
      && OnFrame(r, late, timeText) == r
  {
    StateCommand(s, n, now, files);
    FramesSpendBudget(Process(s, now, files).next, frames, timeText, late);
  }

  lemma KeyWord()
    ensures Classify("key") == KeyCmd && IsWord("key") && '#' !in "key"
  {
  }

  /** `key` switches to key mode and clears the message. */
  lemma KeyCommand(s: Globals, now: real, files: map<string, string>)
    requires s.Msg == "key"
    ensures Process(s, now, files) == Step(s.(InputModeString := false, Msg := ""), Continue)
  {
    KeyWord();
    BeforeHashNoHash(s.Msg);
    WordsOfWord(s.Msg);
    ProcessWords(s, ["key"], now, files);
  }

  lemma WatchWord()
    ensures Classify("watch") == WatchCmd && IsWord("watch") && '#' !in "watch"
  {
  }

  /** `watch k1 k2 ...` selects exactly the keywords after the command word
      (none for a bare `watch`) and clears the message. */
  lemma WatchCommand(s: Globals, keys: seq<string>, now: real, files: map<string, string>)
    requires AllWords(keys) && forall i :: 0 <= i < |keys| ==> '#' !in keys[i]
    requires s.Msg == Join(["watch"] + keys, ' ')
    ensures Process(s, now, files) == Step(s.(WhichWatch := keys, Msg := ""), Continue)
  {
    WatchWord();
    var w := ["watch"] + keys;
    assert AllWords(w) && forall i :: 0 <= i < |w| ==> '#' !in w[i] by {
      forall i | 0 <= i < |w|
        ensures IsWord(w[i]) && '#' !in w[i]
      {
        if i > 0 {
          assert w[i] == keys[i - 1];
        }
      }
    }
    JoinNoHash(w, ' ');
    BeforeHashNoHash(s.Msg);
    WordsOfJoined(w);
    ProcessWords(s, w, now, files);
    assert w[1..] == keys;
  }

  lemma WatchPeriodWord()
    ensures Classify("watchperiod") == WatchPeriodCmd && IsWord("watchperiod") && '#' !in "watchperiod"
  {
  }

  /** `watchperiod t` sets the period to float(t), or to -1 when t is not a
      number, and clears the message. */
  lemma WatchPeriodCommand(s: Globals, arg: string, now: real, files: map<string, string>)
    requires IsWord(arg) && '#' !in arg && s.Msg == "watchperiod " + arg
    ensures var p := ParseFloat(arg);
      Process(s, now, files) == Step(s.(WatchPeriod := if p.Some? then p.value else -1.0, Msg := ""), Continue)
  {
    WatchPeriodWords(s, arg, now, files);
    var w := ["watchperiod", arg];
    assert Command(s, w, now, files) == WatchPeriodStep(s, w) by {
      WatchPeriodWord();
    }
    var p := ParseFloat(arg);
    assert WatchPeriodStep(s, w) == Step(s.(WatchPeriod := if p.Some? then p.value else -1.0, Msg := ""), Continue) by {
      assert |w| > 1 && w[1] == arg;
    }
  }

  lemma WatchPeriodWords(s: Globals, arg: string, now: real, files: map<string, string>)
    requires IsWord(arg) && '#' !in arg && s.Msg == "watchperiod " + arg
    ensures Process(s, now, files) == Command(s, ["watchperiod", arg], now, files)
  {
    WatchPeriodWord();
    assert s.Msg == "watchperiod" + " " + arg;
    WordArgProcess(s, "watchperiod", arg, now, files);
  }

  /** `sleep arg`: a number sets the sleep length and wakes up that long
      after now; otherwise the last length is reused, and with none yet
      the lookup of the unset global raises NameError. */
  lemma SleepCommand(s: Globals, arg: string, now: real, files: map<string, string>)
    requires IsWord(arg) && '#' !in arg && s.Msg == "sleep " + arg
    ensures ParseFloat(arg).Some? ==>
      Process(s, now, files) == Step(s.(SleepTimeDiff := ParseFloat(arg), SleepTime := ParseFloat(arg).value + now, Msg := ""), Continue)
    ensures ParseFloat(arg).None? && s.SleepTimeDiff.Some? ==>
      Process(s, now, files) == Step(s.(SleepTime := s.SleepTimeDiff.value + now, Msg := ""), Continue)
    ensures ParseFloat(arg).None? && s.SleepTimeDiff.None? ==>
      Process(s, now, files) == Step(s.(SleepTime := -1.0), Raised(NameError))
  {
    var w := ["sleep", arg];
    assert Process(s, now, files) == SleepStep(s, w, now) by {
      SleepWords(s, arg, now, files);
      SleepWord();
      SleepDispatch(s, w, now, files);
    }
    assert w[1] == arg;
    SleepArgument(s, w, now);
  }

  /** Words led by `sleep` go to the sleep step. */
  lemma SleepDispatch(s: Globals, w: seq<string>, now: real, files: map<string, string>)
    requires |w| > 0 && Classify(w[0]) == SleepCmd
    ensures Command(s, w, now, files) == SleepStep(s, w, now)
  {
  }

  /** The sleep step on a command word and an argument, case by case. */
  lemma SleepArgument(s: Globals, w: seq<string>, now: real)
    requires |w| > 1
    ensures var p := ParseFloat(w[1]);
      p.Some? ==> SleepStep(s, w, now) == Step(s.(SleepTimeDiff := p, SleepTime := p.value + now, Msg := ""), Continue)
    ensures var p := ParseFloat(w[1]);
      p.None? && s.SleepTimeDiff.Some? ==> SleepStep(s, w, now) == Step(s.(SleepTime := s.SleepTimeDiff.value + now, Msg := ""), Continue)
    ensures var p := ParseFloat(w[1]);
      p.None? && s.SleepTimeDiff.None? ==> SleepStep(s, w, now) == Step(s.(SleepTime := -1.0), Raised(NameError))
  {
  }

  /** `sleep whole.frac` (such as `sleep 0.5`) is a fractional length: the
      client wakes up that many seconds after now and keeps the length. */
  lemma SleepFraction(s: Globals, whole: string, frac: string, now: real, files: map<string, string>)
    requires whole == [] || IsDigitRun(whole)
    requires frac == [] || IsDigitRun(frac)
    requires whole != [] || frac != []
    requires s.Msg == "sleep " + (whole + "." + frac)
    ensures var v := RunValue(whole) as real + RunValue(frac) as real / Pow10(DigitCount(frac));
            var r := Process(s, now, files);
      && r.outcome == Continue && r.next.Msg == ""
      && r.next.SleepTimeDiff == Some(v) && r.next.SleepTime == now + v
  {
    var arg := whole + "." + frac;
    PointMantissa(whole, frac);
    MantissaChars(arg);
    assert IsWord(arg) && '#' !in arg;
    FloatOfPoint(whole, frac);
    SleepCommand(s, arg, now, files);
  }

  lemma SleepWords(s: Globals, arg: string, now: real, files: map<string, string>)
    requires IsWord(arg) && '#' !in arg && s.Msg == "sleep " + arg
    ensures Process(s, now, files) == Command(s, ["sleep", arg], now, files)
  {
    SleepWord();
    assert s.Msg == "sleep" + " " + arg;
    WordArgProcess(s, "sleep", arg, now, files);
  }

  /** A message of a command word and one argument is processed as those
      two words. */
  lemma WordArgProcess(s: Globals, word: string, arg: string, now: real, files: map<string, string>)
    requires IsWord(word) && '#' !in word && IsWord(arg) && '#' !in arg
    requires s.Msg == word + " " + arg
    ensures Process(s, now, files) == Command(s, [word, arg], now, files)
  {
    EchoWords(word, arg);
    ProcessWords(s, [word, arg], now, files);
  }

  /** A period that is not a number, or not positive, schedules no frames:
      no later tick grants one or moves the next watch time. */
  lemma NoPeriodNoFrames(s: Globals, arg: string, now: real, later: real, files: map<string, string>)
    requires IsWord(arg) && '#' !in arg && s.Msg == "watchperiod " + arg
    requires ParseFloat(arg).None? || ParseFloat(arg).value <= 0.0
    ensures var t := Process(s, now, files).next;
      t.WatchPeriod <= 0.0 && Tick(t, later).NumFrames == t.NumFrames && Tick(t, later).TimeState == t.TimeState
  {
    WatchPeriodCommand(s, arg, now, files);
    TickEffect(Process(s, now, files).next, later);
  }

  /** `watchperiod n` with n > 0: the first tick after the next watch time
      grants one frame and sets the next watch time n seconds later. */
  lemma PeriodSchedulesFrames(s: Globals, n: nat, now: real, later: real, files: map<string, string>)
    requires s.Msg == WithAmount("watchperiod", n) && n > 0
    ensures var t := Process(s, now, files).next;
      && t.WatchPeriod == n as real
      && (later > t.TimeState ==> Tick(t, later).NumFrames == 1 && Tick(t, later).TimeState == later + n as real)
  {
    WatchPeriodWord();
    AmountCommand(s, "watchperiod", n, now, files);
    ParseFloatOfIntText(n);
    assert Command(s, ["watchperiod", IntText(n)], now, files) == WatchPeriodStep(s, ["watchperiod", IntText(n)]);
    TickEffect(Process(s, now, files).next, later);
  }

  lemma DebugWord()
    ensures Classify("debug") == DebugCmd && IsWord("debug") && '#' !in "debug"
  {
  }

  lemma NoHashWithAmount(verb: string, n: int)
    requires '#' !in verb
    ensures '#' !in WithAmount(verb, n)
  {
    var t := IntText(n);
    forall i | 0 <= i < |t|
      ensures t[i] != '#'
    {
      assert IsDigit(t[i]) || t[i] == '-';
    }
  }

  /** "script name" puts the file's lines in front of the queue, so the next
      command taken (when awake) is the file's first line. */
  lemma ScriptPreemptsQueue(s: Globals, name: string, now: real, later: real,
                            files: map<string, string>, files2: map<string, string>)
    requires |Words(BeforeHash(s.Msg))| > 1
    requires Words(BeforeHash(s.Msg))[0] == "script" && Words(BeforeHash(s.Msg))[1] == name
    requires name in files
    ensures Process(s, now, files).outcome == Continue
    ensures Process(s, now, files).next.Commands == ReadLines(files[name]) + s.Commands
    ensures Process(s, now, files).next.Msg == ""
    ensures files[name] != "" && s.SleepTime < 0.0 ==>
      Process(Process(s, now, files).next, later, files2).next.Msg == Split(files[name], '\n')[0]
  {
    var m := BeforeHash(s.Msg);
    var w := Words(m);
    var t := s.(Msg := m);
    var text := files[name];
    var s2 := t.(Commands := ReadLines(text) + s.Commands, Msg := "");
    ScriptCommandLoads(t, w, now, files);
    assert Process(s, now, files) == Command(t, w, now, files);
    if text != "" && s.SleepTime < 0.0 {
      var lines := ReadLines(text);
      QueuePop(s2, later, files2);
      ReadLinesStripped(text);
      assert Split(text, '\n')[0] == StripAll(lines)[0];
    }
  }

  lemma ScriptCommandLoads(t: Globals, w: seq<string>, now: real, files: map<string, string>)
    requires |w| > 1 && w[0] == "script" && w[1] in files
    ensures Command(t, w, now, files)
            == Step(t.(Commands := ReadLines(files[w[1]]) + t.Commands, Msg := ""), Continue)
  {
    assert Classify(w[0]) == ScriptCmd;
  }

  /** A fresh start pops "command" and, the drone being ready, sends it on
      the next pass. */
  lemma StartSendsCommandFirst(now: real, debugLevel: int, script: string, files: map<string, string>)
    requires script == "" || script in files
    ensures var g := Start(now, debugLevel, script, files).value;
            var p := Process(g, now, files);
            && p.next.Msg == "command"
            && Process(p.next, now, files).next.Sent == ["command"]
  {
    var g := Start(now, debugLevel, script, files).value;
    StartState(now, debugLevel, script, files);
    CommandWord();
    TakeQueued(g, now, files);
    var g1 := g.(Msg := "command", Commands := g.Commands[1..]);
    FirstCommandSent(g1, now, files);
  }

  /** The "command" message of a ready client goes out as it is. */
  lemma FirstCommandSent(t: Globals, now: real, files: map<string, string>)
    requires t.Msg == "command" && t.TelloReady
    ensures Process(t, now, files).next.Sent == t.Sent + ["command"]
  {
    CommandWord();
    ProcessWords(t, ["command"], now, files);
    DroneCommandGoesOut(t, ["command"], now, files);
  }

  /** At start nothing is pending or sent, the drone is taken as ready and
      "command" heads the queue. */
  lemma StartState(now: real, debugLevel: int, script: string, files: map<string, string>)
    requires script == "" || script in files
    ensures var g := Start(now, debugLevel, script, files).value;
            && g.Msg == "" && g.Sent == [] && g.TelloReady && g.SleepTime < 0.0
            && |g.Commands| > 0 && g.Commands[0] == "command"
  {
    var g := Start(now, debugLevel, script, files).value;
    assert g.(Commands := StartCommands) == Initial(now, debugLevel);
    assert g.Commands[0] == StartCommands[0];
  }

  /** With no message pending and no sleep, the head of the queue, its line
      end removed, becomes the message. */
  lemma TakeQueued(s: Globals, now: real, files: map<string, string>)
    requires s.Msg == "" && |s.Commands| > 0 && s.SleepTime < 0.0
    ensures Process(s, now, files) == Step(s.(Msg := Remove(s.Commands[0], '\n'), Commands := s.Commands[1..]), Continue)
  {
    assert BeforeHash(s.Msg) == "";
  }

  lemma CommandWord()
    ensures Classify("command") == DroneCmd
    ensures Words("command") == ["command"]
    ensures BeforeHash("command") == "command"
    ensures Remove("command", '\n') == "command"
  {
    CommandIsDrone();
    CommandIsOneWord();
    CommandHasNoHash();
    CommandHasNoNewline();
  }

  lemma CommandIsDrone()
    ensures Classify("command") == DroneCmd
  {
    ClassifyDrone("command");
  }

  lemma CommandIsOneWord()
    ensures Words("command") == ["command"]
  {
    assert IsWord("command");
    assert Join(["command"], ' ') == "command";
    WordsOfOneWord("command");
  }

  lemma CommandHasNoHash()
    ensures BeforeHash("command") == "command"
  {
    assert '#' !in "command";
    BeforeHashNoHash("command");
  }

  lemma CommandHasNoNewline()
    ensures Remove("command", '\n') == "command"
  {
    assert '\n' !in "command";
  }

  /** "end" stops the main loop. */
  lemma EndStops(s: Globals, now: real, files: map<string, string>)
    requires |Words(BeforeHash(s.Msg))| > 0 && Words(BeforeHash(s.Msg))[0] == "end"
    ensures !Process(s, now, files).next.Running
    ensures Process(s, now, files).outcome == Continue
  {
  }

  /** The line read at the prompt matters only when the loop prompts. */
  lemma LineReadOnlyAtPrompt(s: Globals, line1: string, line2: string, key: Option<KeyEvent>, now: real,
                             files: map<string, string>)
    requires !Prompts(s)
    ensures Iterate(s, line1, key, now, files) == Iterate(s, line2, key, now, files)
  {
  }

  /* ---------------------------------------------------------------- */
  /* The timer task                                                     */
  /* ---------------------------------------------------------------- */

  /** After a timer pass nothing is overdue at that time: no frame is due,
      no sleep has run out and the keepalive deadline lies ahead. */
  lemma TickSettles(s: Globals, now: real)
    ensures var t := Tick(s, now);
      && !(now > t.TimeState && t.WatchPeriod > 0.0)
      && !(t.SleepTime > 0.0 && now > t.SleepTime)
      && !(now > t.TimeKeepalive)
  {
  }

  /** What a timer pass does, field by field: a due watch asks for one frame
      and schedules the next; a sleep whose time has passed is switched off
      (-1, so the queue may be read again); a due keepalive is sent. Nothing
      else changes: not the queue, the message, the input mode or the
      distance and angle. */
  lemma TickEffect(s: Globals, now: real)
    ensures var t := Tick(s, now);
            var due := now > s.TimeState && s.WatchPeriod > 0.0;
            var wake := s.SleepTime > 0.0 && now > s.SleepTime;
            var keep := now > s.TimeKeepalive;
      && t.NumFrames == (if due then 1 else s.NumFrames)
      && t.TimeState == (if due then now + s.WatchPeriod else s.TimeState)
      && t.SleepTime == (if wake then -1.0 else s.SleepTime)
      && t.Sent == (if keep then s.Sent + [KeepaliveCommand] else s.Sent)
      && t.LastCommand == (if keep then KeepaliveCommand else s.LastCommand)
      && t.TelloReady == (s.TelloReady && !keep)
      && t.TimeKeepalive == (if keep then now + KeepaliveInterval else s.TimeKeepalive)
      && t.(NumFrames := s.NumFrames, TimeState := s.TimeState, SleepTime := s.SleepTime,
            Sent := s.Sent, LastCommand := s.LastCommand, TelloReady := s.TelloReady,
            TimeKeepalive := s.TimeKeepalive) == s
  {
    TickChanges(s, now);
    TickKeepsRest(s, now);
  }

  lemma TickChanges(s: Globals, now: real)
    ensures var t := Tick(s, now);
            var due := now > s.TimeState && s.WatchPeriod > 0.0;
            var wake := s.SleepTime > 0.0 && now > s.SleepTime;
            var keep := now > s.TimeKeepalive;
      && t.NumFrames == (if due then 1 else s.NumFrames)
      && t.TimeState == (if due then now + s.WatchPeriod else s.TimeState)
      && t.SleepTime == (if wake then -1.0 else s.SleepTime)
      && t.Sent == (if keep then s.Sent + [KeepaliveCommand] else s.Sent)
      && t.LastCommand == (if keep then KeepaliveCommand else s.LastCommand)
      && t.TelloReady == (s.TelloReady && !keep)
      && t.TimeKeepalive == (if keep then now + KeepaliveInterval else s.TimeKeepalive)
  {
    var w := WatchDue(s, now);
    var u := WakeUp(w, now);
    assert w.SleepTime == s.SleepTime && w.Sent == s.Sent && w.LastCommand == s.LastCommand;
    assert w.TelloReady == s.TelloReady && w.TimeKeepalive == s.TimeKeepalive;
    assert u.NumFrames == w.NumFrames && u.TimeState == w.TimeState && u.Sent == w.Sent;
    assert u.LastCommand == w.LastCommand && u.TelloReady == w.TelloReady && u.TimeKeepalive == w.TimeKeepalive;
    TickKeepaliveStage(u, now);
  }

  lemma TickKeepaliveStage(u: Globals, now: real)
    ensures var t := KeepaliveDue(u, now);
            var keep := now > u.TimeKeepalive;
      && t.NumFrames == u.NumFrames && t.TimeState == u.TimeState && t.SleepTime == u.SleepTime
      && t.Sent == (if keep then u.Sent + [KeepaliveCommand] else u.Sent)
      && t.LastCommand == (if keep then KeepaliveCommand else u.LastCommand)
      && t.TelloReady == (u.TelloReady && !keep)
      && t.TimeKeepalive == (if keep then now + KeepaliveInterval else u.TimeKeepalive)
  {
  }


  lemma TickKeepsRest(s: Globals, now: real)
    ensures var t := Tick(s, now);
      t.(NumFrames := s.NumFrames, TimeState := s.TimeState, SleepTime := s.SleepTime,
         Sent := s.Sent, LastCommand := s.LastCommand, TelloReady := s.TelloReady,
         TimeKeepalive := s.TimeKeepalive) == s
  {
  }


  /** "sleep n" holds the queue back until a timer pass after the deadline;
      the pass after that takes the next queued command. */
  lemma SleepHoldsQueue(s: Globals, n: nat, now: real, mid: real, later: real,
                        files: map<string, string>, files2: map<string, string>, files3: map<string, string>)
    requires s.Msg == WithAmount("sleep", n) && n > 0 && now >= 0.0 && |s.Commands| > 0
    requires later > now + n as real
    ensures var r := Process(s, now, files);
            var t := r.next;
      && r.outcome == Continue
      && t.Msg == "" && t.Commands == s.Commands && t.SleepTime == now + n as real
      && Process(t, mid, files2) == Step(t, Continue)
      && Tick(t, later).SleepTime == -1.0
      && Process(Tick(t, later), later, files3).next.Msg == Remove(s.Commands[0], '\n')
      && Process(Tick(t, later), later, files3).next.Commands == s.Commands[1..]
  {
    SleepWord();
    AmountCommand(s, "sleep", n, now, files);
    ParseFloatOfIntText(n);
    assert Command(s, ["sleep", IntText(n)], now, files) == SleepStep(s, ["sleep", IntText(n)], now);
    var t := Process(s, now, files).next;
    assert BeforeHash(t.Msg) == "";
    TickEffect(t, later);
    TakeQueued(Tick(t, later), later, files3);
  }

  /** A second timer pass at the same time changes nothing. */
  lemma TickIdempotent(s: Globals, now: real)
    ensures Tick(Tick(s, now), now) == Tick(s, now)
  {
    TickSettles(s, now);
  }

  /** A timer pass sends nothing but the keepalive, and it sends that exactly
      when the deadline has passed. */
  lemma TickSendsOnlyKeepalive(s: Globals, now: real)
    ensures Tick(s, now).Sent == s.Sent || Tick(s, now).Sent == s.Sent + [KeepaliveCommand]
    ensures Tick(s, now).Sent != s.Sent <==> now > s.TimeKeepalive
  {
  }

  /** Keepalives are at least 10 s apart. */
  lemma KeepaliveSpacing(s: Globals, now: real, later: real)
    requires Tick(s, now).Sent != s.Sent
    requires later <= now + KeepaliveInterval
    ensures Tick(Tick(s, now), later).Sent == Tick(s, now).Sent
  {
  }

  /* ---------------------------------------------------------------- */
  /* Frames                                                             */
  /* ---------------------------------------------------------------- */

  /** A frame changes only the dictionary, the headed selection, the printed
      lines and the number of frames wanted; in particular it never makes the
      drone ready. */
  lemma FrameTouchesOnlyTelemetry(s: Globals, frame: string, timeText: string)
    ensures OnFrame(s, frame, timeText).(StateDict := s.StateDict, OldWhichWatch := s.OldWhichWatch,
                                         Printed := s.Printed, NumFrames := s.NumFrames) == s
  {
  }

  /** While frames are wanted each one prints and counts down; once none are
      wanted, frames change nothing. */
  lemma FrameBudget(s: Globals, frame: string, timeText: string)
    ensures var r := OnFrame(s, frame, timeText);
      && (s.NumFrames > 0 ==> r.NumFrames == s.NumFrames - 1 && |r.Printed| > |s.Printed|)
      && (s.NumFrames <= 0 ==> r == s)
      && s.Printed <= r.Printed
  {
  }

  /** With keywords watched, a frame prints a header row exactly when the
      selection changed since the last header, then one data row. */
  lemma HeaderOnChange(s: Globals, frame: string, timeText: string)
    requires s.NumFrames > 0 && |s.WhichWatch| > 0
    ensures var r := OnFrame(s, frame, timeText);
      && |r.Printed| == |s.Printed| + (if s.OldWhichWatch != s.WhichWatch then 2 else 1)
      && (s.OldWhichWatch != s.WhichWatch ==> r.Printed[|s.Printed|] == HeaderRow(s.WhichWatch))
      && r.OldWhichWatch == r.WhichWatch
  {
  }

  /** Two frames in a row under the same selection: only the first can print
      a header. */
  lemma HeaderOnce(s: Globals, f1: string, t1: string, f2: string, t2: string)
    requires s.NumFrames > 1 && |s.WhichWatch| > 0
    ensures var r1 := OnFrame(s, f1, t1);
      |OnFrame(r1, f2, t2).Printed| == |r1.Printed| + 1
  {
    HeaderOnChange(s, f1, t1);
    HeaderOnChange(OnFrame(s, f1, t1), f2, t2);
  }

  /** No value in the dictionary holds ';'. */
  ghost predicate CleanValues(d: StateMap)
  {
    forall k :: k in d ==> ';' !in d[k]
  }

  lemma ValueOfClean(seg: string)
    requires IsPair(seg) && ';' !in seg
    ensures ';' !in ValueOf(seg)
  {
    var v := ValueOf(seg);
    var off := |KeyOf(seg)| + 1;
    forall x | 0 <= x < |v|
      ensures v[x] != ';'
    {
      assert v[x] == (KeyOf(seg) + [':'] + v)[off + x] == seg[off + x];
    }
  }

  /** Frames keep the dictionary free of ';' in values: every value comes
      from a ';'-separated segment. */
  lemma ApplyFrameClean(d: StateMap, frame: string)
    requires CleanValues(d)
    ensures CleanValues(ApplyFrame(d, frame))
  {
    var segs := Split(frame, ';');
    var r := ApplyPairs(d, segs);
    forall k | k in r
      ensures ';' !in r[k]
    {
      ApplyPairsAt(d, segs, k);
      var j := LastPairFor(segs, k);
      if j >= 0 {
        ValueOfClean(segs[j]);
      }
    }
  }

  /** End to end: when a frame carries a pair for watched keyword i, the data
      row printed for it, read back as CSV, shows that pair's value in column
      2 + i, with '.' turned into ',' in every column but the last watched
      one. */
  lemma RowShowsFrameValue(s: Globals, frame: string, timeText: string, i: int, j: int)
    requires s.NumFrames > 0 && 0 <= i < |s.WhichWatch|
    requires 0 <= j < |Split(frame, ';')| && Keyed(Split(frame, ';'), j, s.WhichWatch[i])
    requires forall x :: j < x < |Split(frame, ';')| ==> !Keyed(Split(frame, ';'), x, s.WhichWatch[i])
    requires ';' !in timeText && ';' !in s.LastCommand && CleanValues(s.StateDict)
    ensures var printed := OnFrame(s, frame, timeText).Printed;
            var v := ValueOf(Split(frame, ';')[j]);
      && |printed| > 0
      && |Split(printed[|printed| - 1], ';')| == |s.WhichWatch| + 4
      && Split(printed[|printed| - 1], ';')[2 + i] == (if i == |s.WhichWatch| - 1 then v else Commas(v))
  {
    var segs := Split(frame, ';');
    var d := ApplyFrame(s.StateDict, frame);
    var vals := Cells(d, s.WhichWatch);
    PairCaptured(s.StateDict, segs, j);
    assert vals[i] == ValueOf(segs[j]);
    ApplyFrameClean(s.StateDict, frame);
    CellsClean(d, s.WhichWatch);
    DataRowColumn(timeText, vals, s.LastCommand, i);
    FrameRow(s, frame, timeText);
  }

  /** With keywords watched, the last line a frame prints is the data row of
      the updated dictionary. */
  lemma FrameRow(s: Globals, frame: string, timeText: string)
    requires s.NumFrames > 0 && |s.WhichWatch| > 0
    ensures var printed := OnFrame(s, frame, timeText).Printed;
      && |printed| > 0
      && printed[|printed| - 1]
         == DataRow(timeText, Cells(ApplyFrame(s.StateDict, frame), s.WhichWatch), s.LastCommand)
  {
  }

  /** Cells of a dictionary free of ';' in its values are free of ';'. */
  lemma CellsClean(d: StateMap, keys: seq<string>)
    requires CleanValues(d)
    ensures forall x :: 0 <= x < |keys| ==> ';' !in Cells(d, keys)[x]
  {
    forall x | 0 <= x < |keys|
      ensures ';' !in Cells(d, keys)[x]
    {
      assert Cells(d, keys)[x] == Cell(d, keys[x]);
    }
  }

  /* ---------------------------------------------------------------- */
  /* Key mode                                                           */
  /* ---------------------------------------------------------------- */

  /** 'h' and 'p' reach the drone in the same pass, ready or not, and
      nothing else is sent in that pass. */
  lemma HaltKeysBypassReadiness(s: Globals, line: string, k: KeyEvent, now: real, files: map<string, string>)
    requires !s.InputModeString && (Is(k, 'h') || Is(k, 'p'))
    ensures var r := Iterate(s, line, Some(k), now, files);
      && r.outcome == Continue
      && r.next.Sent == s.Sent + [if Is(k, 'h') then "stop" else "emergency"]
      && !r.next.TelloReady
  {
  }

  /** The halving keys work within one pass: the halved distance or angle
      is staged as "dist n" or "ang n", read back and kept. */
  lemma HalveKeyRoundTrip(s: Globals, line: string, k: KeyEvent, now: real, files: map<string, string>)
    requires !s.InputModeString
    requires (Is(k, '-') && s.Dist >= MinHalveDist) || (Is(k, '/') && s.Angle >= MinHalveAngle)
    ensures var r := Iterate(s, line, Some(k), now, files);
      && r.outcome == Continue
      && r.next.Msg == ""
      && r.next.Sent == s.Sent
      && (Is(k, '-') ==> r.next.Dist == s.Dist / 2 && r.next.Angle == s.Angle)
      && (Is(k, '/') ==> r.next.Angle == s.Angle / 2 && r.next.Dist == s.Dist)
  {
    if Is(k, '-') {
      HalveDistRoundTrip(s, line, k, now, files);
    } else {
      HalveAngleRoundTrip(s, line, k, now, files);
    }
  }

  lemma HalveDistRoundTrip(s: Globals, line: string, k: KeyEvent, now: real, files: map<string, string>)
    requires !s.InputModeString && Is(k, '-') && s.Dist >= MinHalveDist
    ensures Iterate(s, line, Some(k), now, files) == Step(s.(Dist := s.Dist / 2, Msg := ""), Continue)
  {
    var n := s.Dist / 2;
    var s1 := s.(Dist := n, Msg := WithAmount("dist", n));
    assert IsWord("dist") && '#' !in "dist";
    assert Translate(k, s.Dist, s.Angle) == SetDist(n);
    assert KeyStep(s, Some(k), now) == Step(s1, Continue);
    KeyModePass(s, line, k, now, files);
    AmountCommand(s1, "dist", n, now, files);
    AmountSets(s1, n, now, files);
  }

  lemma HalveAngleRoundTrip(s: Globals, line: string, k: KeyEvent, now: real, files: map<string, string>)
    requires !s.InputModeString && Is(k, '/') && s.Angle >= MinHalveAngle
    ensures Iterate(s, line, Some(k), now, files) == Step(s.(Angle := s.Angle / 2, Msg := ""), Continue)
  {
    var n := s.Angle / 2;
    var s1 := s.(Angle := n, Msg := WithAmount("ang", n));
    assert IsWord("ang") && '#' !in "ang";
    assert Translate(k, s.Dist, s.Angle) == SetAngle(n);
    assert KeyStep(s, Some(k), now) == Step(s1, Continue);
    KeyModePass(s, line, k, now, files);
    AmountCommand(s1, "ang", n, now, files);
    AmountSets(s1, n, now, files);
  }

  /** In key mode, a keypress that raises nothing is followed, in the same
      pass, by the processing of the message it leaves. */
  lemma KeyModePass(s: Globals, line: string, k: KeyEvent, now: real, files: map<string, string>)
    requires !s.InputModeString && KeyStep(s, Some(k), now).outcome == Continue
    ensures Iterate(s, line, Some(k), now, files) == Process(KeyStep(s, Some(k), now).next, now, files)
  {
    assert !Prompts(s);
  }

  /** Escape leaves key mode: the pending message is dropped, and the same
      pass sends nothing and keeps line mode, so the prompt returns once the
      drone is ready and nothing is queued. */
  lemma EscapeLeavesKeyMode(s: Globals, line: string, k: KeyEvent, now: real, files: map<string, string>)
    requires !s.InputModeString && k.first == Escape
    ensures KeyStep(s, Some(k), now) == Step(s.(Msg := "", InputModeString := true), Continue)
    ensures var r := Iterate(s, line, Some(k), now, files);
      && r.outcome == Continue
      && r.next.InputModeString
      && r.next.Sent == s.Sent
      && (s.TelloReady && |s.Commands| == 0 ==> Prompts(r.next))
  {
    var t := s.(Msg := "", InputModeString := true);
    KeyModePass(s, line, k, now, files);
    assert BeforeHash(t.Msg) == "";
    assert t.(Msg := BeforeHash(t.Msg)) == t;
  }

  /** "dist n" and "ang n" with n an integer literal set the distance or the
      angle and clear the message. */
  lemma AmountSets(t: Globals, n: int, now: real, files: map<string, string>)
    ensures Command(t, ["dist", IntText(n)], now, files) == Step(t.(Dist := n, Msg := ""), Continue)
    ensures Command(t, ["ang", IntText(n)], now, files) == Step(t.(Angle := n, Msg := ""), Continue)
  {
    assert Classify("dist") == DistCmd;
    assert Classify("ang") == AngCmd;
    ParseIntOfIntText(n);
  }

  /** A message "<verb> <n>" is processed as those two words. */
  lemma AmountCommand(t: Globals, verb: string, n: int, now: real, files: map<string, string>)
    requires t.Msg == WithAmount(verb, n) && IsWord(verb) && '#' !in verb
    ensures Process(t, now, files) == Command(t, [verb, IntText(n)], now, files)
  {
    NoHashWithAmount(verb, n);
    BeforeHashNoHash(t.Msg);
    MoveCommandWords(verb, n);
    assert t.(Msg := BeforeHash(t.Msg)) == t;
  }

  /** As the client is written, the halving key's staged echo ("dist 20.0")
      is read back with int() and raises ValueError in the same pass. */
  lemma HalveKeyCrashesAsWritten(s: Globals, now: real, files: map<string, string>)
    ensures Process(s.(Msg := HalvedEchoAsWritten("dist", s.Dist)), now, files).outcome
            == Raised(ValueError)
    ensures Process(s.(Msg := HalvedEchoAsWritten("ang", s.Angle)), now, files).outcome
            == Raised(ValueError)
  {
    var arg := HalvedEchoNotInt("dist", s.Dist);
    DistEchoRaises(s.(Msg := HalvedEchoAsWritten("dist", s.Dist)), arg, now, files);
    var arg' := HalvedEchoNotInt("ang", s.Angle);
    AngEchoRaises(s.(Msg := HalvedEchoAsWritten("ang", s.Angle)), arg', now, files);
  }

  /** One key-mode pass for a halving key as the program writes it: the key
      stage sets the distance or angle and stages its echo, but the echo is
      written from the true quotient, and the same pass then processes it.
      (The program's new distance or angle is that float quotient; the
      integer field holds the floor, which the pass does not read before it
      fails.) */
  function HalveKeyPassAsWritten(s: Globals, k: KeyEvent, now: real, files: map<string, string>): Step
    requires !s.InputModeString
    requires (Is(k, '-') && s.Dist >= MinHalveDist) || (Is(k, '/') && s.Angle >= MinHalveAngle)
  {
    var t := KeyStep(s, Some(k), now).next;
    var echo := if Is(k, '-') then HalvedEchoAsWritten("dist", s.Dist) else HalvedEchoAsWritten("ang", s.Angle);
    Process(t.(Msg := echo), now, files)
  }

  /** Pressing '-' or '/' within its limit ends the main loop with
      ValueError as written, where the floor-halving model carries on. */
  lemma HalveKeyPressCrashesAsWritten(s: Globals, line: string, k: KeyEvent, now: real, files: map<string, string>)
    requires !s.InputModeString
    requires (Is(k, '-') && s.Dist >= MinHalveDist) || (Is(k, '/') && s.Angle >= MinHalveAngle)
    requires s.Dist <= 2 * MaxDoubleDist && s.Angle <= 2 * MaxDoubleAngle
    ensures HalveKeyPassAsWritten(s, k, now, files).outcome == Raised(ValueError)
    ensures Iterate(s, line, Some(k), now, files).outcome == Continue
  {
    var t := KeyStep(s, Some(k), now).next;
    HalveKeyCrashesAsWritten(t, now, files);
    if Is(k, '-') {
      assert t.Dist == s.Dist / 2;
      var arg := HalvedEchoNotInt("dist", s.Dist);
      DistEchoRaises(t.(Msg := HalvedEchoAsWritten("dist", s.Dist)), arg, now, files);
    } else {
      var arg := HalvedEchoNotInt("ang", s.Angle);
      AngEchoRaises(t.(Msg := HalvedEchoAsWritten("ang", s.Angle)), arg, now, files);
    }
    HalveKeyRoundTrip(s, line, k, now, files);
  }

  /** "dist" with an argument that int() refuses raises ValueError. */
  lemma DistEchoRaises(t: Globals, arg: string, now: real, files: map<string, string>)
    requires t.Msg == "dist" + " " + arg && IsWord(arg) && '#' !in arg && ParseInt(arg) == None
    ensures Process(t, now, files).outcome == Raised(ValueError)
  {
    var w := ["dist", arg];
    DistWord();
    EchoWords("dist", arg);
    ProcessWords(t, w, now, files);
    assert Command(t, w, now, files) == DistStep(t, w);
  }

  /** "ang" with an argument that int() refuses raises ValueError. */
  lemma AngEchoRaises(t: Globals, arg: string, now: real, files: map<string, string>)
    requires t.Msg == "ang" + " " + arg && IsWord(arg) && '#' !in arg && ParseInt(arg) == None
    ensures Process(t, now, files).outcome == Raised(ValueError)
  {
    var w := ["ang", arg];
    AngWord();
    EchoWords("ang", arg);
    ProcessWords(t, w, now, files);
    assert Command(t, w, now, files) == AngleStep(t, w);
  }

  /** A message without a comment is acted on as its words. */
  lemma ProcessWords(t: Globals, w: seq<string>, now: real, files: map<string, string>)
    requires BeforeHash(t.Msg) == t.Msg && Words(t.Msg) == w && |w| > 0
    ensures Process(t, now, files) == Command(t, w, now, files)
  {
    assert t.(Msg := BeforeHash(t.Msg)) == t;
  }

  lemma DistWord()
    ensures Classify("dist") == DistCmd && IsWord("dist") && '#' !in "dist"
  {
  }

  lemma AngWord()
    ensures Classify("ang") == AngCmd && IsWord("ang") && '#' !in "ang"
  {
  }

  lemma SleepWord()
    ensures Classify("sleep") == SleepCmd && IsWord("sleep") && '#' !in "sleep"
  {
  }

  /** Two words joined by a space, neither holding '#': no comment to cut,
      and the two words come back. */
  lemma EchoWords(word: string, arg: string)
    requires IsWord(word) && '#' !in word && IsWord(arg) && '#' !in arg
    ensures BeforeHash(word + " " + arg) == word + " " + arg
    ensures Words(word + " " + arg) == [word, arg]
  {
    BeforeHashNoHash(word + " " + arg);
    assert Join([word, arg], ' ') == word + " " + arg by {
      assert [word, arg][1..] == [arg];
    }
    assert AllWords([word, arg]);
    WordsOfJoined([word, arg]);
  }

  /** A move key stages "<verb> <distance or angle>", which a ready drone
      receives in the same pass. */
  lemma MoveKeySends(s: Globals, line: string, k: KeyEvent, now: real, files: map<string, string>)
    requires !s.InputModeString && s.TelloReady && IsMoveKey(k)
    ensures var r := Iterate(s, line, Some(k), now, files);
      && r.outcome == Continue
      && r.next.Sent == s.Sent + [Translate(k, s.Dist, s.Angle).command]
  {
    var verb, n := MoveKeyStages(k, s.Dist, s.Angle);
    var s1 := s.(Msg := WithAmount(verb, n));
    assert KeyStep(s, Some(k), now) == Step(s1, Continue);
    KeyModePass(s, line, k, now, files);
    AmountCommand(s1, verb, n, now, files);
    DroneCommandGoesOut(s1, [verb, IntText(n)], now, files);
  }

  /** A move key stages a drone command: one of the verbs up, down, ccw, cw
      followed by the distance or the angle. */
  lemma MoveKeyStages(k: KeyEvent, dist: int, angle: int) returns (verb: string, n: int)
    requires IsMoveKey(k)
    ensures Translate(k, dist, angle) == Stage(WithAmount(verb, n))
    ensures IsWord(verb) && '#' !in verb && Classify(verb) == DroneCmd
    ensures n == dist || n == angle
  {
    MoveVerbs();
    MoveKeyCommands(k, dist, angle);
    if Is(k, '8') || Is(k, 'w') {
      verb, n := "up", dist;
    } else if Is(k, '2') || Is(k, 's') {
      verb, n := "down", dist;
    } else if Is(k, '4') || Is(k, 'a') {
      verb, n := "ccw", angle;
    } else {
      verb, n := "cw", angle;
    }
  }

  /** The move verbs are single words, hold no comment and are drone
      commands. */
  lemma MoveVerbs()
    ensures IsWord("up") && '#' !in "up" && Classify("up") == DroneCmd
    ensures IsWord("down") && '#' !in "down" && Classify("down") == DroneCmd
    ensures IsWord("ccw") && '#' !in "ccw" && Classify("ccw") == DroneCmd
    ensures IsWord("cw") && '#' !in "cw" && Classify("cw") == DroneCmd
  {
    assert Classify("up") == DroneCmd;
    assert Classify("down") == DroneCmd;
    assert Classify("ccw") == DroneCmd;
    assert Classify("cw") == DroneCmd;
  }

  /** A drone command with the drone ready is sent and cleared. */
  lemma DroneCommandGoesOut(t: Globals, w: seq<string>, now: real, files: map<string, string>)
    requires |w| > 0 && Classify(w[0]) == DroneCmd && t.TelloReady
    ensures Command(t, w, now, files) == Step(Send(t, t.Msg, now).(Msg := ""), Continue)
  {
  }
}
