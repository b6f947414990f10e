/**
 * The line-grid file `malla.grid` that the SIR engine reads at initialisation, and the
 * number of spectral lines a line selection asks for.
 */
module LineGrid {
  import opened Seqs
  import opened Text

  /** One spectral region: the indices of its lines ("1,2,3") and the start, step and end offsets in mA. */
  datatype LineGroup = LineGroup(indices: string, start: real, step: real, end: real)

  /** The two record layouts: pysir/sir.py ends every record with a newline, pySIR.py does not. */
  datatype Layout = Sir | Legacy

  /**
   * The seven header lines, without their newlines; the engine skips everything up to the `---` line.
   * Long lines are spelled as short pieces so that the verifier can look inside them.
   */
  const Header: seq<string> := [Notice0, Notice1, Notice2, "", Columns0, Columns1, Rule]

  const Notice0: string := "IMPORTANT: a) " + "All items must " + "be separated " + "by commas." + Repeat(' ', 17)
  const Notice1: string := Repeat(' ', 11) + "b) The first " + "six characters " + "of the last line" + Repeat(' ', 16)
  const Notice2: string := Repeat(' ', 10) + "in the header " + "(if any) must " + "contain the " + "symbol ---" + Repeat(' ', 7)
  const Columns0: string := "Line and blends " + "indices   :   " + "Initial lambda " + "    Step     " + "Final lambda "
  const Columns1: string := "(in this order)" + Repeat(' ', 20) + "(mA)" + Repeat(' ', 10) + "(mA)" + Repeat(' ', 9) + "(mA)" + Repeat(' ', 5)
  const Rule: string := Repeat('-', 71)

  /** `n` copies of the character `c`: the runs of padding and the dashed rule of the header. */
  function Repeat(c: char, n: nat): (s: string)
    ensures |s| == n && forall i :: 0 <= i < n ==> s[i] == c
  {
    seq(n, _ => c)
  }

  /** The header as written: each of its lines followed by a newline. */
  function HeaderText(): string {
    Terminated(Header)
  }

  /** The three wavelength fields of a group, formatted by `fmt` and separated by ", ". */
  function Fields(g: LineGroup, fmt: real -> string): string {
    fmt(g.start) + ", " + fmt(g.step) + ", " + fmt(g.end)
  }

  /** The line a group occupies in the pysir/sir.py grid file (its newline excluded). */
  function GroupLine(g: LineGroup, fmt: real -> string): string {
    g.indices + "            :  " + Fields(g, fmt)
  }

  /** The text written for one group. */
  function Record(g: LineGroup, layout: Layout, fmt: real -> string): string {
    match layout
    case Sir => GroupLine(g, fmt) + "\n"
    case Legacy => g.indices + "    :  " + Fields(g, fmt)
  }

  /** The records of the groups, in input order. */
  function Records(groups: seq<LineGroup>, layout: Layout, fmt: real -> string): (r: string)
    ensures r == "" <==> groups == []
  {
    if groups == [] then ""
    else Records(groups[..|groups| - 1], layout, fmt) + Record(groups[|groups| - 1], layout, fmt)
  }

  /** The whole content of the grid file. */
  function GridText(groups: seq<LineGroup>, layout: Layout, fmt: real -> string): (r: string)
    ensures HeaderText() <= r
    ensures |r| > |HeaderText()| <==> groups != []
  {
    HeaderText() + Records(groups, layout, fmt)
  }

  /** Group indices and formatted numbers never contain a newline. */
  ghost predicate SingleLine(groups: seq<LineGroup>, fmt: real -> string) {
    (forall i :: 0 <= i < |groups| ==> '\n' !in groups[i].indices) &&
    (forall x: real :: '\n' !in fmt(x))
  }

  /** Writes the grid file: the seven header lines, then one record per group, in order. */
  method WriteGridFile(groups: seq<LineGroup>, layout: Layout, fmt: real -> string) returns (text: string)
    ensures text == GridText(groups, layout, fmt)
  {
    text := AppendRecords(HeaderText(), groups, layout, fmt);
  }

  /** The loop of the writer: appends the record of every group to `prefix`, in input order. */
  method AppendRecords(prefix: string, groups: seq<LineGroup>, layout: Layout, fmt: real -> string) returns (text: string)
    ensures text == prefix + Records(groups, layout, fmt)
  {
    text := prefix;
    for i := 0 to |groups|
      invariant text == prefix + Records(groups[..i], layout, fmt)
    {
      ghost var done := Records(groups[..i], layout, fmt);
      var next := Record(groups[i], layout, fmt);
      RecordsPrefix(groups, i, layout, fmt);
      Associative(prefix, done, next);
      text := text + next;
    }
    assert groups[..|groups|] == groups;
  }

  /** One more group in the prefix appends its record. */
  lemma RecordsPrefix(groups: seq<LineGroup>, i: nat, layout: Layout, fmt: real -> string)
    requires i < |groups|
    ensures Records(groups[..i + 1], layout, fmt) == Records(groups[..i], layout, fmt) + Record(groups[i], layout, fmt)
  {
    assert groups[..i + 1][..i] == groups[..i];
  }

  /** The header has seven lines, the fourth empty, and its last line begins with the `---` marker. */
  lemma HeaderLayout()
    ensures |Header| == 7 && Header[3] == ""
    ensures |Header[6]| >= 6 && Header[6][..6] == "------"
    ensures NoNewlines(Header)
  {
    NoticeSingleLines();
    ColumnsSingleLines();
    assert '\n' !in Rule;
  }

  lemma NoticeSingleLines()
    ensures '\n' !in Notice0 && '\n' !in Notice1 && '\n' !in Notice2
  {
    assert '\n' !in Notice0;
    assert '\n' !in Notice1;
  }

  lemma ColumnsSingleLines()
    ensures '\n' !in Columns0 && '\n' !in Columns1
  {
    assert '\n' !in Columns0;
  }

  /** The lines of the groups in the pysir/sir.py layout, in input order. */
  function GroupLines(groups: seq<LineGroup>, fmt: real -> string): (lines: seq<string>)
    ensures |lines| == |groups|
  {
    seq(|groups|, i requires 0 <= i < |groups| => GroupLine(groups[i], fmt))
  }

  lemma {:induction false} SirRecords(groups: seq<LineGroup>, fmt: real -> string)
    ensures Records(groups, Sir, fmt) == Terminated(GroupLines(groups, fmt))
  {
    if groups != [] {
      var init := groups[..|groups| - 1];
      SirRecords(init, fmt);
      assert GroupLines(groups, fmt) == GroupLines(init, fmt) + [GroupLine(groups[|groups| - 1], fmt)];
      TerminatedAppend(GroupLines(init, fmt), GroupLine(groups[|groups| - 1], fmt));
    }
  }

  lemma GroupLinesSingle(groups: seq<LineGroup>, fmt: real -> string)
    requires SingleLine(groups, fmt)
    ensures NoNewlines(GroupLines(groups, fmt))
  {
    forall i | 0 <= i < |groups| ensures '\n' !in GroupLine(groups[i], fmt) {
      assert '\n' !in groups[i].indices;
      assert '\n' !in fmt(groups[i].start) && '\n' !in fmt(groups[i].step) && '\n' !in fmt(groups[i].end);
    }
  }

  /**
   * Read back line by line, the pysir/sir.py grid file is exactly the seven header lines
   * followed by one line per group, in input order.
   */
  lemma GridFileLines(groups: seq<LineGroup>, fmt: real -> string)
    requires SingleLine(groups, fmt)
    ensures ReadLines(GridText(groups, Sir, fmt)) == WithNewlines(Header + GroupLines(groups, fmt))
  {
    SirRecords(groups, fmt);
    GroupLinesSingle(groups, fmt);
    HeaderLayout();
    ReadLinesTwoBlocks(Header, GroupLines(groups, fmt));
  }

  lemma {:induction false} LegacyRecordsSingleLine(groups: seq<LineGroup>, fmt: real -> string)
    requires SingleLine(groups, fmt)
    ensures '\n' !in Records(groups, Legacy, fmt)
    ensures groups != [] ==> Records(groups, Legacy, fmt) != ""
  {
    if groups != [] {
      var g := groups[|groups| - 1];
      LegacyRecordsSingleLine(groups[..|groups| - 1], fmt);
      assert '\n' !in g.indices;
      assert '\n' !in fmt(g.start) && '\n' !in fmt(g.step) && '\n' !in fmt(g.end);
    }
  }

  /**
   * The pySIR.py grid file has no newline after its records, so all groups, however many,
   * are read back as one single line after the header.
   */
  lemma LegacyGridFileLines(groups: seq<LineGroup>, fmt: real -> string)
    requires SingleLine(groups, fmt)
    ensures ReadLines(GridText(groups, Legacy, fmt))
         == WithNewlines(Header) + (if groups == [] then [] else [Records(groups, Legacy, fmt)])
  {
    HeaderLayout();
    LegacyRecordsSingleLine(groups, fmt);
    ReadLinesTerminated(Header, Records(groups, Legacy, fmt));
    if groups != [] {
      ReadLinesSingle(Records(groups, Legacy, fmt));
    }
  }

  /** `nLines`: the sum over the groups of the number of pieces of their comma-split index string. */
  function CountLines(groups: seq<LineGroup>): (n: nat)
    ensures n >= |groups|
  {
    if groups == [] then 0 else |Split(groups[0].indices, ',')| + CountLines(groups[1..])
  }

  /** Reference count: every group contributes its number of commas plus one. */
  function CommaCount(groups: seq<LineGroup>): nat {
    if groups == [] then 0 else multiset(groups[0].indices)[','] + 1 + CommaCount(groups[1..])
  }

  lemma {:induction false} CountLinesByCommas(groups: seq<LineGroup>)
    ensures CountLines(groups) == CommaCount(groups)
  {
    if groups != [] {
      SplitCount(groups[0].indices, ',');
      CountLinesByCommas(groups[1..]);
    }
  }

  /** `'200,201'` (test/example.py) selects two lines. */
  lemma CountLinesPair()
    ensures CountLines([LineGroup("200,201", -500.0, 10.0, 1500.0)]) == 2
  {
    SplitCount("200,201", ',');
    assert multiset("200,201")[','] == 1;
  }

  /** Groups `'1'` and `'2,3,4'` select four lines. */
  lemma CountLinesTwoGroups()
    ensures CountLines([LineGroup("1", -500.0, 10.0, 1500.0), LineGroup("2,3,4", -750.0, 10.0, 1300.0)]) == 4
  {
    var gs := [LineGroup("1", -500.0, 10.0, 1500.0), LineGroup("2,3,4", -750.0, 10.0, 1300.0)];
    CountLinesByCommas(gs);
    assert gs[1..] == [gs[1]];
  }

  /** An empty index string still counts as one line. */
  lemma CountLinesEmptyIndices()
    ensures CountLines([LineGroup("", -500.0, 10.0, 1500.0)]) == 1
  {
  }
}
