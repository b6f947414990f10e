/** Text helpers with Python's meaning: `str.split(sep)` and `file.readlines()`. */
module Text {
  import opened Seqs

  /** Position of the first newline of `s`, or `|s|` when there is none. */
  function LineEnd(s: string): (k: nat)
    ensures k <= |s|
    ensures forall i :: 0 <= i < k ==> s[i] != '\n'
    ensures k < |s| ==> s[k] == '\n'
  {
    if s == [] || s[0] == '\n' then 0 else 1 + LineEnd(s[1..])
  }

  /** `readlines()`: the lines of a text, each keeping its newline; a last line without one is kept as it is. */
  function ReadLines(s: string): (r: seq<string>)
    ensures r == [] <==> s == []
    ensures forall i :: 0 <= i < |r| ==> |r[i]| >= 1
    ensures forall i :: 0 <= i < |r| - 1 ==> r[i][|r[i]| - 1] == '\n'
    decreases |s|
  {
    if s == [] then []
    else
      var k := LineEnd(s);
      if k < |s| then [s[..k + 1]] + ReadLines(s[k + 1..]) else [s]
  }

  /** The text made of the given lines, each followed by a newline (what a series of `write(l + "\n")` produces). */
  function Terminated(ls: seq<string>): string {
    if ls == [] then "" else ls[0] + "\n" + Terminated(ls[1..])
  }

  /** Each line of `ls` with its newline appended. */
  function WithNewlines(ls: seq<string>): seq<string> {
    seq(|ls|, i requires 0 <= i < |ls| => ls[i] + "\n")
  }

  predicate NoNewlines(ls: seq<string>) {
    forall i :: 0 <= i < |ls| ==> '\n' !in ls[i]
  }

  /** A line without a newline, followed by one, is read back as one line. */
  lemma ReadLinesCons(l: string, rest: string)
    requires '\n' !in l
    ensures ReadLines(l + "\n" + rest) == [l + "\n"] + ReadLines(rest)
  {
    var s := l + "\n" + rest;
    var k := LineEnd(s);
    assert s[|l|] == '\n';
    assert k == |l|;
    assert s[..k + 1] == l + "\n";
    assert s[k + 1..] == rest;
  }

  /** A non-empty text without newlines is read back as a single line. */
  lemma ReadLinesSingle(l: string)
    requires l != [] && '\n' !in l
    ensures ReadLines(l) == [l]
  {
    assert LineEnd(l) == |l|;
  }

  /** Reading back newline-terminated lines followed by any tail gives those lines, then the tail's lines. */
  lemma {:induction false} ReadLinesTerminated(ls: seq<string>, tail: string)
    requires NoNewlines(ls)
    ensures ReadLines(Terminated(ls) + tail) == WithNewlines(ls) + ReadLines(tail)
  {
    if ls == [] {
      assert Terminated(ls) + tail == tail;
    } else {
      var rest := Terminated(ls[1..]) + tail;
      NoNewlinesTail(ls);
      ReadLinesTerminated(ls[1..], tail);
      Associative(ls[0] + "\n", Terminated(ls[1..]), tail);
      ReadLinesCons(ls[0], rest);
      WithNewlinesCons(ls);
      Associative([ls[0] + "\n"], WithNewlines(ls[1..]), ReadLines(tail));
    }
  }

  lemma NoNewlinesTail(ls: seq<string>)
    requires ls != [] && NoNewlines(ls)
    ensures '\n' !in ls[0] && NoNewlines(ls[1..])
  {
    forall i | 0 <= i < |ls| - 1 ensures '\n' !in ls[1..][i] {
      assert ls[1..][i] == ls[i + 1];
    }
  }

  lemma WithNewlinesCons(ls: seq<string>)
    requires ls != []
    ensures WithNewlines(ls) == [ls[0] + "\n"] + WithNewlines(ls[1..])
  {
  }

  /** Writing more lines after some lines appends their text. */
  lemma {:induction false} TerminatedAppend(ls: seq<string>, l: string)
    ensures Terminated(ls + [l]) == Terminated(ls) + l + "\n"
  {
    if ls != [] {
      TerminatedAppend(ls[1..], l);
      assert (ls + [l])[1..] == ls[1..] + [l];
    }
  }

  /** Two blocks of newline-terminated lines written one after the other read back as one block. */
  lemma ReadLinesTwoBlocks(a: seq<string>, b: seq<string>)
    requires NoNewlines(a) && NoNewlines(b)
    ensures ReadLines(Terminated(a) + Terminated(b)) == WithNewlines(a + b)
  {
    TerminatedConcat(a, b);
    assert NoNewlines(a + b);
    ReadLinesTerminated(a + b, "");
    assert Terminated(a + b) + "" == Terminated(a + b);
  }

  lemma {:induction false} TerminatedConcat(a: seq<string>, b: seq<string>)
    ensures Terminated(a + b) == Terminated(a) + Terminated(b)
  {
    if a != [] {
      TerminatedConcat(a[1..], b);
      assert (a + b)[1..] == a[1..] + b;
    } else {
      assert a + b == b;
    }
  }

  /** Python's `sep.join(parts)`. */
  function Join(parts: seq<string>, sep: char): string {
    if parts == [] then ""
    else if |parts| == 1 then parts[0]
    else parts[0] + [sep] + Join(parts[1..], sep)
  }

  /** Python's `s.split(sep)` for a one-character separator: never empty, `"".split(",") == [""]`. */
  function Split(s: string, sep: char): (parts: seq<string>)
    ensures |parts| >= 1
  {
    if s == [] then [""]
    else
      var tail := Split(s[1..], sep);
      if s[0] == sep then [""] + tail else [[s[0]] + tail[0]] + tail[1..]
  }

  /** `len(s.split(sep))` is the number of separators plus one. */
  lemma {:induction false} SplitCount(s: string, sep: char)
    ensures |Split(s, sep)| == multiset(s)[sep] + 1
  {
    if s != [] {
      SplitCount(s[1..], sep);
      assert s == [s[0]] + s[1..];
      assert multiset(s) == multiset([s[0]]) + multiset(s[1..]);
    }
  }

  /** Splitting loses nothing: joining the pieces with the separator gives the text back. */
  lemma {:induction false} SplitJoin(s: string, sep: char)
    ensures Join(Split(s, sep), sep) == s
  {
    if s != [] {
      SplitJoin(s[1..], sep);
      var tail := Split(s[1..], sep);
      if s[0] == sep {
        assert s == [sep] + s[1..];
      } else {
        var p := [[s[0]] + tail[0]] + tail[1..];
        if |tail| == 1 {
          assert s == [s[0]] + tail[0];
        } else {
          assert p[1..] == tail[1..];
          assert Join(tail, sep) == tail[0] + [sep] + Join(tail[1..], sep);
          assert s == [s[0]] + s[1..];
        }
      }
    }
  }

  /** No piece of a split contains the separator. */
  lemma {:induction false} SplitPiecesFree(s: string, sep: char)
    ensures forall i :: 0 <= i < |Split(s, sep)| ==> sep !in Split(s, sep)[i]
  {
    if s != [] {
      SplitPiecesFree(s[1..], sep);
    }
  }
}
