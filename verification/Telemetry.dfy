/** Telemetry frames and the watch rows built from them: how a frame
    `key:value;key:value;...` updates the state dictionary, and the header
    and data rows printed for the watched keys. */
module Telemetry {
  import opened PyText

  type StateMap = map<string, string>

  /** A frame segment that carries a pair: it holds a ':'. */
  predicate IsPair(seg: string)
  {
    ':' in seg
  }

  /** The keyword of a pair: the text before its first ':'. */
  function KeyOf(seg: string): (k: string)
    requires IsPair(seg)
    ensures k + [':'] <= seg
    ensures ':' !in k
  {
    var parts := Split(seg, ':');
    assert seg == parts[0] + [':'] + Join(parts[1..], ':');
    parts[0]
  }

  /** The value of a pair: the text between its first and second ':' (or the
      end of the segment). */
  function ValueOf(seg: string): (v: string)
    requires IsPair(seg)
    ensures KeyOf(seg) + [':'] + v <= seg
    ensures ':' !in v
    ensures |KeyOf(seg)| + 1 + |v| < |seg| ==> seg[|KeyOf(seg)| + 1 + |v|] == ':'
  {
    var parts := Split(seg, ':');
    var tail := Join(parts[1..], ':');
    assert seg == parts[0] + [':'] + tail;
    assert |parts[1..]| > 1 ==> tail == parts[1] + [':'] + Join(parts[2..], ':') by {
      assert parts[1..][1..] == parts[2..];
    }
    parts[1]
  }

  /** The effect of one segment on the dictionary. */
  function Update(d: StateMap, seg: string): StateMap
  {
    if IsPair(seg) then d[KeyOf(seg) := ValueOf(seg)] else d
  }

  /** The segments applied in order, the last one written last. */
  function ApplyPairs(d: StateMap, segs: seq<string>): (r: StateMap)
    ensures d.Keys <= r.Keys
  {
    if segs == [] then d
    else Update(ApplyPairs(d, segs[..|segs| - 1]), segs[|segs| - 1])
  }

  /** The dictionary after a frame: its ';'-separated segments applied. */
  function ApplyFrame(d: StateMap, frame: string): (r: StateMap)
    ensures d.Keys <= r.Keys
  {
    ApplyPairs(d, Split(frame, ';'))
  }

  /** Segment j of segs is a pair for keyword k. */
  predicate Keyed(segs: seq<string>, j: int, k: string)
    requires 0 <= j < |segs|
  {
    IsPair(segs[j]) && KeyOf(segs[j]) == k
  }

  /** The index of the last pair for keyword k, -1 when there is none. */
  function LastPairFor(segs: seq<string>, k: string): (j: int)
    ensures -1 <= j < |segs|
    ensures j >= 0 ==> Keyed(segs, j, k)
    ensures forall i :: j < i < |segs| ==> !Keyed(segs, i, k)
  {
    if segs == [] then -1
    else if Keyed(segs, |segs| - 1, k) then |segs| - 1
    else
      var j := LastPairFor(segs[..|segs| - 1], k);
      assert forall i :: j < i < |segs| - 1 ==> Keyed(segs, i, k) == Keyed(segs[..|segs| - 1], i, k);
      j
  }

  /** What a keyword maps to after the segments: the value of its last pair,
      or, when no segment names it, whatever it mapped to before. */
  lemma {:induction false} ApplyPairsAt(d: StateMap, segs: seq<string>, k: string)
    ensures var j := LastPairFor(segs, k);
            var r := ApplyPairs(d, segs);
            && (j >= 0 ==> k in r && r[k] == ValueOf(segs[j]))
            && (j < 0 ==> (k in r <==> k in d) && (k in d ==> r[k] == d[k]))
  {
    if segs != [] {
      var front := segs[..|segs| - 1];
      ApplyPairsAt(d, front, k);
      if !Keyed(segs, |segs| - 1, k) {
        assert LastPairFor(segs, k) == LastPairFor(front, k);
        var j := LastPairFor(front, k);
        if j >= 0 {
          assert segs[j] == front[j];
        }
      }
    }
  }

  /** A pair that no later segment overrides is captured in the dictionary. */
  lemma PairCaptured(d: StateMap, segs: seq<string>, j: int)
    requires 0 <= j < |segs| && IsPair(segs[j])
    requires forall i :: j < i < |segs| ==> !Keyed(segs, i, KeyOf(segs[j]))
    ensures KeyOf(segs[j]) in ApplyPairs(d, segs)
    ensures ApplyPairs(d, segs)[KeyOf(segs[j])] == ValueOf(segs[j])
  {
    var k := KeyOf(segs[j]);
    ApplyPairsAt(d, segs, k);
    assert Keyed(segs, j, k);
    assert LastPairFor(segs, k) == j;
  }

  /** A keyword that no segment names keeps its previous value (or stays
      absent). */
  lemma KeyNotInFrameKept(d: StateMap, segs: seq<string>, k: string)
    requires forall i :: 0 <= i < |segs| ==> !Keyed(segs, i, k)
    ensures k in ApplyPairs(d, segs) <==> k in d
    ensures k in d ==> ApplyPairs(d, segs)[k] == d[k]
  {
    ApplyPairsAt(d, segs, k);
  }

  /** A segment without ':' has no effect wherever it stands. */
  lemma {:induction false} NonPairIgnored(d: StateMap, a: seq<string>, x: string, b: seq<string>)
    requires !IsPair(x)
    ensures ApplyPairs(d, a + [x] + b) == ApplyPairs(d, a + b)
  {
    if b == [] {
      assert (a + [x])[..|a|] == a;
      assert a + [x] + b == a + [x];
      assert a + b == a;
    } else {
      var n := |b| - 1;
      assert (a + [x] + b)[..|a| + 1 + n] == a + [x] + b[..n];
      assert (a + b)[..|a| + n] == a + b[..n];
      NonPairIgnored(d, a, x, b[..n]);
    }
  }

  /** Applying the same frame twice leaves the dictionary as applying it once. */
  lemma ApplyFrameIdempotent(d: StateMap, frame: string)
    ensures ApplyFrame(ApplyFrame(d, frame), frame) == ApplyFrame(d, frame)
  {
    var segs := Split(frame, ';');
    var once := ApplyPairs(d, segs);
    var twice := ApplyPairs(once, segs);
    forall k | k in twice || k in once
      ensures k in twice && k in once && twice[k] == once[k]
    {
      ApplyPairsAt(d, segs, k);
      ApplyPairsAt(once, segs, k);
    }
    assert twice.Keys == once.Keys;
  }

  /** The keywords a frame names. */
  ghost predicate Names(frame: string, k: string)
  {
    exists i :: 0 <= i < |Split(frame, ';')| && Keyed(Split(frame, ';'), i, k)
  }

  /** Two frames that name disjoint keywords may arrive in either order. */
  lemma ApplyFramesCommute(d: StateMap, f: string, g: string)
    requires forall k :: !(Names(f, k) && Names(g, k))
    ensures ApplyFrame(ApplyFrame(d, f), g) == ApplyFrame(ApplyFrame(d, g), f)
  {
    var fs, gs := Split(f, ';'), Split(g, ';');
    var df, dg := ApplyPairs(d, fs), ApplyPairs(d, gs);
    var fg, gf := ApplyPairs(df, gs), ApplyPairs(dg, fs);
    forall k | k in fg || k in gf
      ensures k in fg && k in gf && fg[k] == gf[k]
    {
      ApplyPairsAt(d, fs, k);
      ApplyPairsAt(d, gs, k);
      ApplyPairsAt(df, gs, k);
      ApplyPairsAt(dg, fs, k);
      var i, j := LastPairFor(fs, k), LastPairFor(gs, k);
      assert i >= 0 ==> Names(f, k);
      assert j >= 0 ==> Names(g, k);
    }
    assert fg.Keys == gf.Keys;
  }

  /** Each item followed by ';'. */
  function Terminated(items: seq<string>): string
  {
    if items == [] then "" else items[0] + ";" + Terminated(items[1..])
  }

  lemma {:induction false} TerminatedConcat(a: seq<string>, b: seq<string>)
    ensures Terminated(a + b) == Terminated(a) + Terminated(b)
  {
    if a != [] {
      assert (a + b)[1..] == a[1..] + b;
      TerminatedConcat(a[1..], b);
    } else {
      assert a + b == b;
    }
  }

  lemma TerminatedSnoc(a: seq<string>, x: string)
    ensures Terminated(a + [x]) == Terminated(a) + x + ";"
  {
    TerminatedConcat(a, [x]);
    assert Terminated([x]) == x + ";" + Terminated([]);
  }

  /** A terminated list is its items joined with ';' followed by one empty
      field. */
  lemma {:induction false} TerminatedIsJoin(items: seq<string>)
    ensures Join(items + [""], ';') == Terminated(items)
  {
    if items != [] {
      assert (items + [""])[1..] == items[1..] + [""];
      TerminatedIsJoin(items[1..]);
    } else {
      assert items + [""] == [""];
    }
  }

  /** The header row the source prints when the watch selection changes. */
  function HeaderRow(keys: seq<string>): (r: string)
    ensures "watch;time;" <= r
    ensures |r| >= 12 && r[|r| - 12..] == "LastCommand;"
  {
    "watch;time;" + Terminated(keys) + "LastCommand;"
  }

  /** The CSV decimal-comma convention: every '.' becomes ','. */
  function Commas(s: string): string
  {
    Replace(s, '.', ',')
  }

  function CommasAll(items: seq<string>): (r: seq<string>)
    ensures |r| == |items|
    ensures forall i :: 0 <= i < |items| ==> r[i] == Commas(items[i])
  {
    if items == [] then [] else [Commas(items[0])] + CommasAll(items[1..])
  }

  lemma {:induction false} CommasTerminated(items: seq<string>)
    ensures Commas(Terminated(items)) == Terminated(CommasAll(items))
  {
    if items != [] {
      var rest := items[1..];
      assert Terminated(items) == (items[0] + ";") + Terminated(rest);
      ReplaceConcat(items[0] + ";", Terminated(rest), '.', ',');
      ReplaceConcat(items[0], ";", '.', ',');
      assert Commas(";") == ";";
      CommasTerminated(rest);
      assert CommasAll(items) == [Commas(items[0])] + CommasAll(rest);
      assert Terminated(CommasAll(items)) == Commas(items[0]) + ";" + Terminated(CommasAll(rest));
    }
  }

  /** The value shown for a watched keyword: its entry, or "error" when the
      dictionary has none. */
  function Cell(d: StateMap, k: string): string
  {
    if k in d then d[k] else "error"
  }

  function Cells(d: StateMap, keys: seq<string>): (r: seq<string>)
    ensures |r| == |keys|
    ensures forall i :: 0 <= i < |keys| ==> r[i] == Cell(d, keys[i])
  {
    if keys == [] then [] else Cells(d, keys[..|keys| - 1]) + [Cell(d, keys[|keys| - 1])]
  }

  /** The data row as built so far, after the cells vals: the decimal-comma
      replacement runs over the text built so far before each cell is added,
      so every earlier cell (and the time) has its '.' replaced while the
      newest cell keeps them. */
  function RowPrefix(timeText: string, vals: seq<string>): string
  {
    if vals == [] then "watch;" + timeText + ";"
    else Commas("watch;" + timeText + ";" + Terminated(vals[..|vals| - 1])) + vals[|vals| - 1] + ";"
  }

  /** The data row for one frame: the row prefix for all cells, then the last
      command sent. */
  function DataRow(timeText: string, vals: seq<string>, lastCommand: string): (r: string)
    ensures |r| > |lastCommand| && r[|r| - |lastCommand| - 1..] == lastCommand + ";"
  {
    RowPrefix(timeText, vals) + lastCommand + ";"
  }

  /** One step of the row-building loop: replace, then append a cell. */
  lemma RowPrefixStep(timeText: string, vals: seq<string>, v: string)
    ensures Commas(RowPrefix(timeText, vals)) + v + ";" == RowPrefix(timeText, vals + [v])
  {
    var head := "watch;" + timeText + ";";
    if vals == [] {
      assert [v][..0] == [];
      assert Terminated([]) == "";
      assert head + "" == head;
    } else {
      var n := |vals| - 1;
      var p := head + Terminated(vals[..n]);
      CommasAbsorb(p, vals[n] + ";");
      Assoc(Commas(p), vals[n], ";");
      assert Commas(RowPrefix(timeText, vals)) == Commas(p + (vals[n] + ";"));
      TerminatedSnoc(vals[..n], vals[n]);
      FrontLast(vals);
      assert p + (vals[n] + ";") == head + Terminated(vals);
      SnocFront(vals, v);
    }
  }

  /** Replacing again after appending is replacing once. */
  lemma CommasAbsorb(p: string, x: string)
    ensures Commas(Commas(p) + x) == Commas(p + x)
  {
    ReplaceConcat(Commas(p), x, '.', ',');
    ReplaceTwice(p, '.', ',');
    ReplaceConcat(p, x, '.', ',');
  }

  lemma HeaderFields(keys: seq<string>)
    requires forall i :: 0 <= i < |keys| ==> ';' !in keys[i]
    ensures Split(HeaderRow(keys), ';') == ["watch", "time"] + keys + ["LastCommand", ""]
  {
    var items := ["watch", "time"] + keys + ["LastCommand"];
    TerminatedConcat(["watch", "time"] + keys, ["LastCommand"]);
    TerminatedConcat(["watch", "time"], keys);
    assert Terminated(["watch", "time"]) == "watch;time;";
    assert Terminated(["LastCommand"]) == "LastCommand;";
    TerminatedIsJoin(items);
    assert items + [""] == ["watch", "time"] + keys + ["LastCommand", ""];
    SplitJoin(items + [""], ';');
  }

  /** The data row read back as CSV: "watch", the time, one field per cell and
      the last command. Every field before the newest cell has its '.'
      replaced by ','; the newest cell and the last command keep theirs (with
      no cell at all, the time keeps them too). */
  lemma DataRowFields(timeText: string, vals: seq<string>, lastCommand: string)
    requires ';' !in timeText && ';' !in lastCommand
    requires forall i :: 0 <= i < |vals| ==> ';' !in vals[i]
    ensures vals == [] ==>
      Split(DataRow(timeText, vals, lastCommand), ';') == ["watch", timeText, lastCommand, ""]
    ensures vals != [] ==>
      Split(DataRow(timeText, vals, lastCommand), ';')
      == CommasAll(["watch", timeText] + vals[..|vals| - 1]) + [vals[|vals| - 1], lastCommand, ""]
  {
    if vals == [] {
      EmptyRowFields(timeText, lastCommand);
    } else {
      var n := |vals| - 1;
      var front := ["watch", timeText] + vals[..n];
      var fields := CommasAll(front) + [vals[n], lastCommand];
      DataRowTerminated(timeText, vals, lastCommand);
      TerminatedIsJoin(fields);
      FieldsFree(front, vals[n], lastCommand);
      assert fields + [""] == CommasAll(front) + [vals[n], lastCommand, ""];
      SplitJoin(fields + [""], ';');
    }
  }

  lemma EmptyRowFields(timeText: string, lastCommand: string)
    requires ';' !in timeText && ';' !in lastCommand
    ensures Split(DataRow(timeText, [], lastCommand), ';') == ["watch", timeText, lastCommand, ""]
  {
    var items := ["watch", timeText, lastCommand];
    assert items[1..] == [timeText, lastCommand] && items[1..][1..] == [lastCommand];
    assert Terminated([lastCommand]) == lastCommand + ";" + Terminated([]);
    assert Terminated(items) == DataRow(timeText, [], lastCommand) by {
      TerminatedTwo("watch", timeText);
      TerminatedConcat(["watch", timeText], [lastCommand]);
      assert ["watch", timeText] + [lastCommand] == items;
      assert DataRow(timeText, [], lastCommand) == RowPrefix(timeText, []) + lastCommand + ";";
    }
    TerminatedIsJoin(items);
    SplitJoin(items + [""], ';');
  }

  lemma DataRowColumn(timeText: string, vals: seq<string>, lastCommand: string, i: int)
    requires ';' !in timeText && ';' !in lastCommand
    requires forall x :: 0 <= x < |vals| ==> ';' !in vals[x]
    requires 0 <= i < |vals|
    ensures |Split(DataRow(timeText, vals, lastCommand), ';')| == |vals| + 4
    ensures Split(DataRow(timeText, vals, lastCommand), ';')[2 + i]
            == (if i == |vals| - 1 then vals[i] else Commas(vals[i]))
  {
    DataRowFields(timeText, vals, lastCommand);
    ColumnOf(["watch", timeText], vals, lastCommand, i);
  }

  /** Field 2 + i of the fields a data row splits into. */
  lemma ColumnOf(head: seq<string>, vals: seq<string>, lastCommand: string, i: int)
    requires |head| == 2 && 0 <= i < |vals|
    ensures var fields := CommasAll(head + vals[..|vals| - 1]) + [vals[|vals| - 1], lastCommand, ""];
      && |fields| == |vals| + 4
      && fields[2 + i] == (if i == |vals| - 1 then vals[i] else Commas(vals[i]))
  {
    var n := |vals|;
    var front := head + vals[..n - 1];
    if i < n - 1 {
      assert front[2 + i] == vals[i];
      assert CommasAll(front)[2 + i] == Commas(front[2 + i]);
    }
  }

  lemma DataRowTerminated(timeText: string, vals: seq<string>, lastCommand: string)
    requires vals != []
    ensures DataRow(timeText, vals, lastCommand)
      == Terminated(CommasAll(["watch", timeText] + vals[..|vals| - 1]) + [vals[|vals| - 1], lastCommand])
  {
    var n := |vals| - 1;
    var front := ["watch", timeText] + vals[..n];
    TerminatedConcat(["watch", timeText], vals[..n]);
    TerminatedTwo("watch", timeText);
    assert "watch;" + timeText + ";" + Terminated(vals[..n]) == Terminated(front);
    CommasTerminated(front);
    var x := Terminated(CommasAll(front));
    assert DataRow(timeText, vals, lastCommand) == x + vals[n] + ";" + lastCommand + ";";
    Assoc5(x, vals[n], ";", lastCommand, ";");
    TerminatedConcat(CommasAll(front), [vals[n], lastCommand]);
    TerminatedTwo(vals[n], lastCommand);
  }

  lemma TerminatedTwo(a: string, b: string)
    ensures Terminated([a, b]) == a + ";" + b + ";"
  {
    assert [a, b][1..] == [b];
    assert Terminated([b]) == b + ";" + Terminated([]);
  }

  lemma FieldsFree(front: seq<string>, v: string, lastCommand: string)
    requires forall i :: 0 <= i < |front| ==> ';' !in front[i]
    requires ';' !in v && ';' !in lastCommand
    ensures forall i :: 0 <= i < |CommasAll(front) + [v, lastCommand, ""]| ==>
      ';' !in (CommasAll(front) + [v, lastCommand, ""])[i]
  {
    var all := CommasAll(front) + [v, lastCommand, ""];
    forall i | 0 <= i < |all|
      ensures ';' !in all[i]
    {
      if i < |front| {
        assert all[i] == Commas(front[i]);
        ReplaceAbsent(front[i], '.', ',', ';');
      }
    }
  }

  /** The header for two watched keywords. */
  lemma HeaderRowExample()
    ensures HeaderRow(["bat", "baro"]) == "watch;time;bat;baro;LastCommand;"
  {
    TerminatedTwo("bat", "baro");
  }

  /** The header-building loop of the source (a for loop growing the row). */
  method BuildHeader(keys: seq<string>) returns (row: string)
    ensures row == HeaderRow(keys)
  {
    row := "watch;time;";
    for i := 0 to |keys|
      invariant row == "watch;time;" + Terminated(keys[..i])
    {
      row := row + keys[i] + ";";
      TerminatedSnoc(keys[..i], keys[i]);
      assert keys[..i + 1] == keys[..i] + [keys[i]];
    }
    assert keys[..|keys|] == keys;
    row := row + "LastCommand" + ";";
  }

  /** The data-row loop of the source: for each watched keyword, replace '.'
      by ',' in the row so far, then append the keyword's value (or "error")
      and ';'; finally the last command and ';'. */
  method BuildRow(timeText: string, keys: seq<string>, d: StateMap, lastCommand: string)
    returns (row: string)
    ensures row == DataRow(timeText, Cells(d, keys), lastCommand)
  {
    row := "watch;" + timeText + ";";
    for i := 0 to |keys|
      invariant row == RowPrefix(timeText, Cells(d, keys[..i]))
    {
      var value := if keys[i] in d then d[keys[i]] else "error";
      row := Commas(row);
      row := row + value + ";";
      CellsSnoc(d, keys, i);
      RowPrefixStep(timeText, Cells(d, keys[..i]), value);
    }
    assert keys[..|keys|] == keys;
    row := row + lastCommand + ";";
  }

  lemma CellsSnoc(d: StateMap, keys: seq<string>, i: int)
    requires 0 <= i < |keys|
    ensures Cells(d, keys[..i + 1]) == Cells(d, keys[..i]) + [Cell(d, keys[i])]
  {
    assert keys[..i + 1][..i] == keys[..i];
  }
}
