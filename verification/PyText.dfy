/** The Python string operations the client relies on, over strings as
    sequences of characters: str.split(sep), str.split(), str.replace,
    str.find followed by slicing. */
module PyText {

  /** Joins pieces with a one-character separator (Python's sep.join). */
  function Join(parts: seq<string>, sep: char): string
  {
    if |parts| == 0 then ""
    else if |parts| == 1 then parts[0]
    else parts[0] + [sep] + Join(parts[1..], sep)
  }

  /** Position of the first occurrence of c in s (Python's s.index(c)). */
  function IndexOf(s: string, c: char): (i: nat)
    requires c in s
    ensures i < |s| && s[i] == c && c !in s[..i]
  {
    if s[0] == c then 0
    else
      assert s == [s[0]] + s[1..];
      1 + IndexOf(s[1..], c)
  }

  /** Python's s.split(sep) for a one-character separator: the pieces between
      separators, empty pieces included, so that joining them gives s back. */
  function Split(s: string, sep: char): (r: seq<string>)
    ensures |r| >= 1
    ensures Join(r, sep) == s
    ensures forall i :: 0 <= i < |r| ==> sep !in r[i]
    ensures sep in s <==> |r| >= 2
    decreases |s|
  {
    if sep !in s then [s]
    else
      var i := IndexOf(s, sep);
      var rest := Split(s[i + 1..], sep);
      assert s == s[..i] + [sep] + s[i + 1..];
      assert ([s[..i]] + rest)[1..] == rest;
      [s[..i]] + rest
  }

  lemma {:induction false} SplitPrefix(p: string, sep: char, tail: string)
    requires sep !in p
    ensures Split(p + [sep] + tail, sep) == [p] + Split(tail, sep)
  {
    var s := p + [sep] + tail;
    assert s[|p|] == sep;
    assert IndexOf(s, sep) == |p|;
    assert s[..|p|] == p && s[|p| + 1..] == tail;
  }

  lemma {:induction false} SplitNoSeparator(s: string, sep: char)
    requires sep !in s
    ensures Split(s, sep) == [s]
  {
    if s != [] {
      SplitNoSeparator(s[1..], sep);
    }
  }

  /** Split is the only way to cut a string at its separators: pieces free of
      the separator, joined, split back into themselves. */
  lemma {:induction false} SplitJoin(parts: seq<string>, sep: char)
    requires |parts| >= 1
    requires forall i :: 0 <= i < |parts| ==> sep !in parts[i]
    ensures Split(Join(parts, sep), sep) == parts
  {
    if |parts| == 1 {
      SplitNoSeparator(parts[0], sep);
    } else {
      SplitJoin(parts[1..], sep);
      SplitPrefix(parts[0], sep, Join(parts[1..], sep));
    }
  }

  /** Python's s.replace(from, to) for single characters. */
  function Replace(s: string, from: char, to: char): (r: string)
    ensures |r| == |s|
  {
    if s == [] then [] else [if s[0] == from then to else s[0]] + Replace(s[1..], from, to)
  }

  /** Each character of the result is the source character, with from
      turned into to. */
  lemma {:induction false} ReplaceAt(s: string, from: char, to: char)
    ensures forall i :: 0 <= i < |s| ==> Replace(s, from, to)[i] == (if s[i] == from then to else s[i])
  {
    if s != [] {
      ReplaceAt(s[1..], from, to);
      var r := Replace(s, from, to);
      forall i | 1 <= i < |s|
        ensures r[i] == (if s[i] == from then to else s[i])
      {
        assert r[i] == Replace(s[1..], from, to)[i - 1];
        assert s[i] == s[1..][i - 1];
      }
    }
  }

  lemma {:induction false} ReplaceConcat(a: string, b: string, from: char, to: char)
    ensures Replace(a + b, from, to) == Replace(a, from, to) + Replace(b, from, to)
  {
    if a == [] {
      assert a + b == b;
    } else {
      assert (a + b)[1..] == a[1..] + b;
      ReplaceConcat(a[1..], b, from, to);
    }
  }

  lemma {:induction false} ReplaceTwice(s: string, from: char, to: char)
    requires from != to
    ensures Replace(Replace(s, from, to), from, to) == Replace(s, from, to)
  {
    if s != [] {
      ReplaceTwice(s[1..], from, to);
      var r := Replace(s, from, to);
      assert r[0] != from && r[1..] == Replace(s[1..], from, to);
    }
  }

  /** Replacing never brings in a character other than to. */
  lemma ReplaceAbsent(s: string, from: char, to: char, c: char)
    requires c !in s && c != to
    ensures c !in Replace(s, from, to)
  {
    ReplaceAt(s, from, to);
  }

  /** Python's s.replace(c, ''): every occurrence of c deleted, the other
      characters kept in order. */
  function Remove(s: string, c: char): (r: string)
    ensures c !in r
    ensures c !in s ==> r == s
  {
    if s == [] then []
    else if s[0] == c then Remove(s[1..], c) else [s[0]] + Remove(s[1..], c)
  }

  /** Remove deletes every c and keeps every other character. */
  lemma {:induction false} RemoveKeepsOthers(s: string, c: char)
    ensures multiset(Remove(s, c)) == multiset(s)[c := 0]
  {
    if s != [] {
      RemoveKeepsOthers(s[1..], c);
      HeadTail(s);
    }
  }

  /** s[0:s.find('#')] when s contains '#', s otherwise: the text before the
      first comment marker. */
  function BeforeHash(s: string): (r: string)
    ensures r <= s
    ensures '#' !in r
    ensures |r| < |s| ==> s[|r|] == '#'
  {
    if s == [] || s[0] == '#' then []
    else [s[0]] + BeforeHash(s[1..])
  }

  /** Cutting at the comment marker is idempotent: text without '#' is
      left whole. */
  lemma {:induction false} BeforeHashNoHash(s: string)
    requires '#' !in s
    ensures BeforeHash(s) == s
  {
    if s != [] {
      BeforeHashNoHash(s[1..]);
      HeadTail(s);
    }
  }

  /** Python's str.isspace() for one character: the characters str.split()
      with no argument splits on. */
  predicate IsSpace(c: char)
  {
    var n := c as int;
    n == 0x20 || 0x09 <= n <= 0x0D || 0x1C <= n <= 0x1F || n == 0x85 || n == 0xA0
    || n == 0x1680 || 0x2000 <= n <= 0x200A || n == 0x2028 || n == 0x2029
    || n == 0x202F || n == 0x205F || n == 0x3000
  }

  /** A word as str.split() returns it: non-empty, no whitespace in it. */
  predicate IsWord(w: string)
  {
    |w| > 0 && forall j :: 0 <= j < |w| ==> !IsSpace(w[j])
  }

  predicate AllSpace(s: string)
  {
    forall j :: 0 <= j < |s| ==> IsSpace(s[j])
  }

  /** s.lstrip(): s without its leading whitespace. */
  function TrimStart(s: string): (r: string)
    ensures |r| <= |s| && r == s[|s| - |r|..]
    ensures AllSpace(s[..|s| - |r|])
    ensures r == [] || !IsSpace(r[0])
  {
    if s == [] || !IsSpace(s[0]) then s else TrimStart(s[1..])
  }

  /** The longest prefix of s that holds no whitespace. */
  function Token(s: string): (r: string)
    ensures r <= s
    ensures forall j :: 0 <= j < |r| ==> !IsSpace(r[j])
    ensures |r| < |s| ==> IsSpace(s[|r|])
  {
    if s == [] || IsSpace(s[0]) then [] else [s[0]] + Token(s[1..])
  }

  predicate AllWords(ws: seq<string>)
  {
    forall i :: 0 <= i < |ws| ==> IsWord(ws[i])
  }

  lemma WordsCons(w: string, rest: seq<string>)
    requires IsWord(w) && AllWords(rest)
    ensures AllWords([w] + rest)
  {
    forall i | 0 <= i < |[w] + rest|
      ensures IsWord(([w] + rest)[i])
    {
      if i > 0 {
        assert ([w] + rest)[i] == rest[i - 1];
      }
    }
  }

  /** Python's s.split() with no argument: the maximal runs of non-whitespace,
      in order. */
  function Words(s: string): (r: seq<string>)
    ensures AllWords(r)
    ensures |r| == 0 <==> AllSpace(s)
    decreases |s|
  {
    var t := TrimStart(s);
    if t == [] then
      assert s[..|s|] == s;
      []
    else
      var w := Token(t);
      assert !AllSpace(s) by {
        assert s[|s| - |t|] == t[0];
      }
      var rest := Words(t[|w|..]);
      WordsCons(w, rest);
      [w] + rest
  }

  lemma {:induction false} WordsSpaceThen(c: char, s: string)
    requires IsSpace(c)
    ensures Words([c] + s) == Words(s)
  {
    var t := TrimStart(s);
    assert ([c] + s)[1..] == s;
    assert TrimStart([c] + s) == t;
    if t != [] {
      var w := Token(t);
      assert Words([c] + s) == [w] + Words(t[|w|..]);
      assert Words(s) == [w] + Words(t[|w|..]);
    }
  }


  lemma {:induction false} WordsWordThen(w: string, rest: string)
    requires IsWord(w)
    requires rest == [] || IsSpace(rest[0])
    ensures Words(w + rest) == [w] + Words(rest)
  {
    assert TrimStart(w + rest) == w + rest;
    TokenOfWord(w, rest);
    assert (w + rest)[|w|..] == rest;
  }

  lemma {:induction false} TokenOfWord(w: string, rest: string)
    requires IsWord(w)
    requires rest == [] || IsSpace(rest[0])
    ensures Token(w + rest) == w
  {
    if |w| == 1 {
      assert (w + rest)[1..] == rest;
    } else {
      assert (w + rest)[1..] == w[1..] + rest;
      TokenOfWord(w[1..], rest);
    }
  }

  lemma {:induction false} WordsWordSpaceThen(w: string, tail: string)
    requires IsWord(w)
    ensures Words(w + [' '] + tail) == [w] + Words(tail)
  {
    assert w + [' '] + tail == w + ([' '] + tail);
    WordsWordThen(w, [' '] + tail);
    WordsSpaceThen(' ', tail);
  }

  /** A single word splits into itself. */
  lemma {:induction false} WordsOfWord(w: string)
    requires IsWord(w)
    ensures Words(w) == [w]
  {
    WordsWordThen(w, []);
    AppendEmpty(w);
  }

  /** split() cuts at every whitespace character: the words of a + [c] + b
      are the words of a followed by the words of b. */
  lemma {:induction false} WordsSplitAt(a: string, c: char, b: string)
    requires IsSpace(c)
    ensures Words(a + [c] + b) == Words(a) + Words(b)
    decreases |a|
  {
    var m := [c] + b;
    Assoc(a, [c], b);
    if a == [] {
      assert a + m == m;
      WordsSpaceThen(c, b);
    } else if IsSpace(a[0]) {
      WordsSplitAt(a[1..], c, b);
      Assoc(a[1..], [c], b);
      SplitAtLeadingSpace(a, m, Words(b));
    } else {
      var w := Token(a);
      var r := a[|w|..];
      WordsSplitAt(r, c, b);
      Assoc(r, [c], b);
      SplitAtAfterWord(a, m, w, r, Words(b));
    }
  }

  lemma {:induction false} SplitAtLeadingSpace(a: string, m: string, tail: seq<string>)
    requires |a| > 0 && IsSpace(a[0])
    requires Words(a[1..] + m) == Words(a[1..]) + tail
    ensures Words(a + m) == Words(a) + tail
  {
    ConsRest(a, m);
    WordsSpaceThen(a[0], a[1..] + m);
    HeadTail(a);
    WordsSpaceThen(a[0], a[1..]);
  }

  lemma {:induction false} SplitAtAfterWord(a: string, m: string, w: string, r: string, tail: seq<string>)
    requires |a| > 0 && !IsSpace(a[0]) && |m| > 0 && IsSpace(m[0])
    requires w == Token(a) && r == a[|w|..]
    requires Words(r + m) == Words(r) + tail
    ensures Words(a + m) == Words(a) + tail
  {
    PrefixRest(a, w, m);
    assert IsWord(w);
    assert r == [] || IsSpace(r[0]);
    StartOf(r, m);
    WordsWordThen(w, r + m);
    WordsWordThen(w, r);
    ConsAssoc(w, Words(r), tail);
  }

  lemma WordsOfOneWord(w: string)
    requires IsWord(w)
    ensures Words(Join([w], ' ')) == [w]
  {
    assert Join([w], ' ') == w + "";
    WordsWordThen(w, "");
    assert Words("") == [];
  }

  /** Joining with a separator other than '#' adds no '#'. */
  lemma {:induction false} JoinNoHash(parts: seq<string>, sep: char)
    requires sep != '#' && forall i :: 0 <= i < |parts| ==> '#' !in parts[i]
    ensures '#' !in Join(parts, sep)
  {
    if |parts| > 1 {
      JoinNoHash(parts[1..], sep);
    }
  }

  /** str.split() undoes ' '.join(words): the words come back in order. */
  lemma {:induction false} WordsOfJoined(ws: seq<string>)
    requires AllWords(ws)
    ensures Words(Join(ws, ' ')) == ws
  {
    if |ws| == 1 {
      WordsOfOneWord(ws[0]);
    } else if |ws| > 1 {
      var tail := ws[1..];
      assert IsWord(ws[0]);
      assert AllWords(tail) by {
        forall i | 0 <= i < |tail|
          ensures IsWord(tail[i])
        {
          assert tail[i] == ws[i + 1];
        }
      }
      assert Join(ws, ' ') == ws[0] + [' '] + Join(tail, ' ');
      WordsWordSpaceThen(ws[0], Join(tail, ' '));
      WordsOfJoined(tail);
      HeadTail(ws);
    }
  }

  /** file.readlines(): the lines of s in order, each keeping its '\n'
      terminator (the last line lacks it when s does not end with one). */
  function ReadLines(s: string): (r: seq<string>)
    ensures forall i :: 0 <= i < |r| ==> |r[i]| > 0
    ensures |r| == 0 <==> s == []
    decreases |s|
  {
    if '\n' !in s then (if s == [] then [] else [s])
    else
      var i := IndexOf(s, '\n');
      [s[..i + 1]] + ReadLines(s[i + 1..])
  }

  /** The pieces concatenated (Python's "".join). */
  function Concat(parts: seq<string>): string
  {
    if parts == [] then "" else parts[0] + Concat(parts[1..])
  }

  /** Reading the lines loses nothing: they concatenate back to the text. */
  lemma {:induction false} ReadLinesConcat(s: string)
    ensures Concat(ReadLines(s)) == s
    decreases |s|
  {
    if '\n' in s {
      var i := IndexOf(s, '\n');
      ReadLinesConcat(s[i + 1..]);
      assert ([s[..i + 1]] + ReadLines(s[i + 1..]))[1..] == ReadLines(s[i + 1..]);
      assert s == s[..i + 1] + s[i + 1..];
    } else if s != [] {
      assert [s][1..] == [];
      assert s + "" == s;
    }
  }

  /** Every line with its '\n' deleted. */
  function StripAll(lines: seq<string>): (r: seq<string>)
    ensures |r| == |lines|
    ensures forall i :: 0 <= i < |lines| ==> r[i] == Remove(lines[i], '\n')
  {
    if lines == [] then [] else [Remove(lines[0], '\n')] + StripAll(lines[1..])
  }

  lemma {:induction false} RemoveConcat(a: string, b: string, c: char)
    ensures Remove(a + b, c) == Remove(a, c) + Remove(b, c)
  {
    if a != [] {
      assert (a + b)[0] == a[0] && (a + b)[1..] == a[1..] + b;
      RemoveConcat(a[1..], b, c);
      Assoc([a[0]], Remove(a[1..], c), Remove(b, c));
    } else {
      assert a + b == b;
    }
  }

  /** The lines of a text with their terminators deleted are its
      '\n'-separated pieces, except the empty piece that follows a final
      '\n' (or makes up an empty text). */
  lemma {:induction false} ReadLinesStripped(s: string)
    ensures Split(s, '\n') == StripAll(ReadLines(s)) + (if s == [] || s[|s| - 1] == '\n' then [""] else [])
    decreases |s|
  {
    if '\n' !in s {
      SplitNoSeparator(s, '\n');
    } else {
      var i := IndexOf(s, '\n');
      var p, rest := s[..i], s[i + 1..];
      assert s == p + ['\n'] + rest;
      SplitPrefix(p, '\n', rest);
      ReadLinesStripped(rest);
      StripAllFirst(p, rest);
      var last: seq<string> := if rest == [] || rest[|rest| - 1] == '\n' then [""] else [];
      assert rest != [] ==> s[|s| - 1] == rest[|rest| - 1];
      ConsAssoc(p, StripAll(ReadLines(rest)), last);
    }
  }

  lemma StripAllFirst(p: string, rest: string)
    requires '\n' !in p
    ensures StripAll(ReadLines(p + ['\n'] + rest)) == [p] + StripAll(ReadLines(rest))
  {
    var s := p + ['\n'] + rest;
    assert s[|p|] == '\n';
    assert IndexOf(s, '\n') == |p|;
    assert s[..|p| + 1] == p + ['\n'] && s[|p| + 1..] == rest;
    assert ReadLines(s) == [p + ['\n']] + ReadLines(rest);
    RemoveConcat(p, ['\n'], '\n');
    assert Remove(['\n'], '\n') == [];
    assert StripAll(ReadLines(s))[0] == p;
    assert StripAll(ReadLines(s))[1..] == StripAll(ReadLines(rest));
    HeadTail(StripAll(ReadLines(s)));
  }

  lemma AppendEmpty<T>(s: seq<T>)
    ensures s + [] == s
  {
  }

  lemma ConsRest<T>(a: seq<T>, m: seq<T>)
    requires |a| > 0
    ensures a + m == [a[0]] + (a[1..] + m)
  {
    assert a == [a[0]] + a[1..];
  }

  lemma PrefixRest<T>(a: seq<T>, w: seq<T>, m: seq<T>)
    requires w <= a
    ensures a == w + a[|w|..]
    ensures a + m == w + (a[|w|..] + m)
  {
  }

  lemma StartOf<T>(r: seq<T>, m: seq<T>)
    requires |m| > 0
    ensures (r + m)[0] == if r == [] then m[0] else r[0]
  {
  }

  lemma ConsAssoc<T>(x: T, a: seq<T>, b: seq<T>)
    ensures [x] + (a + b) == [x] + a + b
  {
  }

  lemma Assoc<T>(a: seq<T>, b: seq<T>, c: seq<T>)
    ensures a + b + c == a + (b + c)
  {
  }

  lemma Assoc5<T>(a: seq<T>, b: seq<T>, c: seq<T>, d: seq<T>, e: seq<T>)
    ensures a + b + c + d + e == a + (b + c + d + e)
  {
  }

  lemma SnocFront<T>(s: seq<T>, x: T)
    ensures (s + [x])[..|s|] == s
  {
  }

  lemma FrontLast<T>(s: seq<T>)
    requires |s| > 0
    ensures s[..|s| - 1] + [s[|s| - 1]] == s
  {
  }

  lemma HeadTail<T>(s: seq<T>)
    requires |s| > 0
    ensures [s[0]] + s[1..] == s
  {
  }
}
