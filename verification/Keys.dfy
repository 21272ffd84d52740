/** Key mode: what one keypress does, following the client's chain of key
    tests. A keypress is read as one byte, plus a second byte when the
    keyboard already holds one (arrow and function keys send two). */
module Keys {
  import opened Wrappers
  import opened PyText
  import opened PyNumber

  newtype byte = b: int | 0 <= b < 256

  datatype KeyEvent = KeyEvent(first: byte, second: Option<byte>)

  /** The effect of a keypress on the client. */
  datatype KeyAction =
    | Stage(command: string)    // becomes the pending message
    | SendNow(command: string)  // sent at once, ready or not; pending message cleared
    | ShowHelp                  // help printed; pending message cleared
    | LeaveKeyMode              // back to line input; pending message cleared
    | SetDist(dist: int)        // new move distance, echoed as "dist <n>"
    | SetAngle(angle: int)      // new turn angle, echoed as "ang <n>"
    | Ignore                    // pending message left as it was
    | MissingSecondByte         // a two-byte key arrived with one byte: IndexError

  const Escape: byte := 27
  const ExtendedPrefix: byte := 224
  const FunctionPrefix: byte := 0
  const ArrowUp: byte := 72
  const ArrowDown: byte := 80
  const ArrowLeft: byte := 75
  const ArrowRight: byte := 77
  const F1: byte := 59
  const F2: byte := 60

  /** Distances and angles the halving and doubling keys keep to. */
  const MinHalveDist := 40
  const MaxDoubleDist := 250
  const MinHalveAngle := 30
  const MaxDoubleAngle := 1800

  /** The first byte is the character c. */
  predicate Is(k: KeyEvent, c: char)
  {
    k.first as int == c as int
  }

  /** The keys that stage a move or turn command. */
  predicate IsMoveKey(k: KeyEvent)
  {
    Is(k, '8') || Is(k, '2') || Is(k, '4') || Is(k, '6')
    || Is(k, 'w') || Is(k, 's') || Is(k, 'a') || Is(k, 'd')
  }

  /** The command "<verb> <n>" with n written as Python's str(int). */
  function WithAmount(verb: string, n: int): string
  {
    verb + " " + IntText(n)
  }

  /** The action of one keypress, given the current distance and angle.
      Halving divides with floor, so distance and angle stay integers. */
  function Translate(k: KeyEvent, dist: int, angle: int): (a: KeyAction)
    ensures a.SendNow? <==> Is(k, 'h') || Is(k, 'p')
    ensures a.MissingSecondByte? <==> (k.first == ExtendedPrefix || k.first == FunctionPrefix) && k.second.None?
    ensures a.LeaveKeyMode? <==> k.first == Escape
    ensures a.SetDist? <==> (Is(k, '-') && dist >= MinHalveDist) || (Is(k, '+') && dist <= MaxDoubleDist)
    ensures a.SetAngle? <==> (Is(k, '/') && angle >= MinHalveAngle) || (Is(k, '*') && angle <= MaxDoubleAngle)
    ensures Is(k, '-') ==> a == if dist >= MinHalveDist then SetDist(dist / 2) else Ignore
    ensures Is(k, '+') ==> a == if dist <= MaxDoubleDist then SetDist(dist * 2) else Ignore
    ensures Is(k, '/') ==> a == if angle >= MinHalveAngle then SetAngle(angle / 2) else Ignore
    ensures Is(k, '*') ==> a == if angle <= MaxDoubleAngle then SetAngle(angle * 2) else Ignore
    ensures IsMoveKey(k) ==> a.Stage?
  {
    if Is(k, 'c') then Stage("command")
    else if Is(k, 't') then Stage("takeoff")
    else if Is(k, 'l') then Stage("land")
    else if Is(k, '8') then Stage(WithAmount("up", dist))
    else if Is(k, '2') then Stage(WithAmount("down", dist))
    else if Is(k, '4') then Stage(WithAmount("ccw", angle))
    else if Is(k, '6') then Stage(WithAmount("cw", angle))
    else if Is(k, '5') then Stage("stop")
    else if Is(k, 'w') then Stage(WithAmount("up", dist))
    else if Is(k, 's') then Stage(WithAmount("down", dist))
    else if Is(k, 'a') then Stage(WithAmount("ccw", angle))
    else if Is(k, 'd') then Stage(WithAmount("cw", angle))
    else if Is(k, 'h') then SendNow("stop")
    else if Is(k, 'p') then SendNow("emergency")
    else if Is(k, '-') then (if dist >= MinHalveDist then SetDist(dist / 2) else Ignore)
    else if Is(k, '+') then (if dist <= MaxDoubleDist then SetDist(dist * 2) else Ignore)
    else if Is(k, '/') then (if angle >= MinHalveAngle then SetAngle(angle / 2) else Ignore)
    else if Is(k, '*') then (if angle <= MaxDoubleAngle then SetAngle(angle * 2) else Ignore)
    else if Is(k, '?') then ShowHelp
    else if k.first == Escape then LeaveKeyMode
    else if k.first == ExtendedPrefix then
      match k.second
      case None => MissingSecondByte
      case Some(b) =>
        if b == ArrowUp then Stage(WithAmount("forward", dist))
        else if b == ArrowDown then Stage(WithAmount("back", dist))
        else if b == ArrowLeft then Stage(WithAmount("left", dist))
        else if b == ArrowRight then Stage(WithAmount("right", dist))
        else Ignore
    else if k.first == FunctionPrefix then
      match k.second
      case None => MissingSecondByte
      case Some(b) =>
        if b == F1 then ShowHelp
        else if b == F2 then Stage("state 1")
        else Ignore
    else Ignore
  }

  /** The move keys and the commands they stage: up and down by the
      distance, turns by the angle. */
  lemma MoveKeyCommands(k: KeyEvent, dist: int, angle: int)
    requires IsMoveKey(k)
    ensures Is(k, '8') || Is(k, 'w') ==> Translate(k, dist, angle) == Stage(WithAmount("up", dist))
    ensures Is(k, '2') || Is(k, 's') ==> Translate(k, dist, angle) == Stage(WithAmount("down", dist))
    ensures Is(k, '4') || Is(k, 'a') ==> Translate(k, dist, angle) == Stage(WithAmount("ccw", angle))
    ensures Is(k, '6') || Is(k, 'd') ==> Translate(k, dist, angle) == Stage(WithAmount("cw", angle))
  {
    if Is(k, '8') || Is(k, 'w') {
      assert Translate(k, dist, angle) == Stage(WithAmount("up", dist));
    } else if Is(k, '2') || Is(k, 's') {
      assert Translate(k, dist, angle) == Stage(WithAmount("down", dist));
    } else if Is(k, '4') || Is(k, 'a') {
      assert Translate(k, dist, angle) == Stage(WithAmount("ccw", angle));
    } else {
      assert Translate(k, dist, angle) == Stage(WithAmount("cw", angle));
    }
  }

  /** Halving and doubling keep the distance within 20..500 and the angle
      within 15..3600 once they are there. */
  lemma KeysKeepRanges(k: KeyEvent, dist: int, angle: int)
    requires 20 <= dist <= 500 && 15 <= angle <= 3600
    ensures Translate(k, dist, angle).SetDist? ==> 20 <= Translate(k, dist, angle).dist <= 500
    ensures Translate(k, dist, angle).SetAngle? ==> 15 <= Translate(k, dist, angle).angle <= 3600
  {
  }

  /** Doubling undoes halving for an even distance. */
  lemma DoubleUndoesHalve(half: KeyEvent, double: KeyEvent, dist: int, angle: int)
    requires Is(half, '-') && Is(double, '+')
    requires MinHalveDist <= dist <= 2 * MaxDoubleDist && dist % 2 == 0
    ensures Translate(half, dist, angle) == SetDist(dist / 2)
    ensures Translate(double, dist / 2, angle) == SetDist(dist)
  {
  }

  /** A staged move or turn command reads back, word by word, as its verb and
      the current distance or angle. */
  lemma {:induction false} MoveCommandWords(verb: string, n: int)
    requires IsWord(verb)
    ensures Words(WithAmount(verb, n)) == [verb, IntText(n)]
    ensures ParseInt(Words(WithAmount(verb, n))[1]) == Some(n)
  {
    var t := IntText(n);
    assert IsWord(t) by {
      forall j | 0 <= j < |t|
        ensures !IsSpace(t[j])
      {
        assert IsDigit(t[j]) || t[j] == '-';
      }
    }
    assert [verb, t][1..] == [t];
    assert Join([verb, t], ' ') == verb + [' '] + t;
    WordsOfJoined([verb, t]);
    ParseIntOfIntText(n);
  }

  /** The echo the halving keys produce as the client is written: Python's
      true division turns the distance or angle into a float, so the echo
      reads e.g. "dist 20.0". */
  function HalvedEchoAsWritten(word: string, v: int): string
  {
    word + " " + FloatText(v as real / 2.0)
  }

  /** That echo is the word, a space and an argument that is one word,
      holds no '#', and is not an integer literal: reading it back with int()
      fails. */
  lemma HalvedEchoNotInt(word: string, v: int) returns (arg: string)
    ensures HalvedEchoAsWritten(word, v) == word + " " + arg
    ensures IsWord(arg) && '#' !in arg
    ensures ParseInt(arg) == None
  {
    arg := FloatText(v as real / 2.0);
    var i :| 0 <= i < |arg| && arg[i] == '.';
    assert !IsDigit(arg[i]) && arg[i] !in "_+-";
    forall x | 0 <= x < |arg|
      ensures !IsSpace(arg[x]) && arg[x] != '#'
    {
      assert IsDigit(arg[x]) || arg[x] == '.' || arg[x] == '-';
    }
  }
}
