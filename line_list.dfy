/** `list_lines` / `listLinesSIR`: the console listing of the spectral lines in the `LINEAS` database. */
module LineList {
  import opened Text

  /** `l[:-1]`: the line without its last character (its newline); empty stays empty. */
  function DropLast(l: string): string {
    if l == [] then [] else l[..|l| - 1]
  }

  /** What the listing prints for a database whose lines `readlines()` returned: a title, then every line but the last, each without its last character. */
  function Listing(lines: seq<string>): (out: seq<string>)
    ensures |out| == if lines == [] then 1 else |lines|
  {
    ["Available lines:"] + seq(if lines == [] then 0 else |lines| - 1, i requires 0 <= i < |lines| - 1 => DropLast(lines[i]))
  }

  /**
   * For a database written as newline-terminated text lines, the listing shows every database line
   * except the last one, unchanged and in order: k lines give k - 1 entries after the title.
   */
  lemma ListingOfDatabase(entries: seq<string>)
    requires entries != [] && NoNewlines(entries)
    ensures Listing(ReadLines(Terminated(entries))) == ["Available lines:"] + entries[..|entries| - 1]
  {
    assert ReadLines(Terminated(entries)) == WithNewlines(entries) by {
      ReadLinesTerminated(entries, "");
      assert Terminated(entries) + "" == Terminated(entries);
    }
    ListingOfLines(entries);
  }

  /** The listing of lines that each end in a newline shows all but the last, without the newline. */
  lemma ListingOfLines(entries: seq<string>)
    requires entries != []
    ensures Listing(WithNewlines(entries)) == ["Available lines:"] + entries[..|entries| - 1]
  {
    var lines := WithNewlines(entries);
    var shown := seq(|lines| - 1, i requires 0 <= i < |lines| - 1 => DropLast(lines[i]));
    assert Listing(lines) == ["Available lines:"] + shown;
    forall i | 0 <= i < |entries| - 1 ensures shown[i] == entries[i] {
      DropNewline(entries[i]);
    }
    assert shown == entries[..|entries| - 1];
  }

  lemma DropNewline(l: string)
    ensures DropLast(l + "\n") == l
  {
    assert (l + "\n")[..|l|] == l;
  }
}
