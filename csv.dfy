/**
 * CSV text: a line's columns joined by commas, the quoting that section 2
 * of RFC 4180 prescribes for a field that contains a comma, and a reader
 * that splits one line back into its columns.
 */
module CsvText {
  import opened Text

  /** The columns joined by commas: `"\(a),\(b),…"`. */
  function JoinColumns(columns: seq<string>): string
    decreases |columns|
  {
    if columns == [] then ""
    else if |columns| == 1 then columns[0]
    else JoinColumns(columns[..|columns| - 1]) + "," + columns[|columns| - 1]
  }

  /** A CSV line: the columns joined by commas, then a line break. */
  function CsvRow(columns: seq<string>): string {
    JoinColumns(columns) + "\n"
  }

  /** A row without its final line break is the joined columns. */
  lemma RowBody(columns: seq<string>)
    ensures var row := CsvRow(columns); |row| > 0 && row[..|row| - 1] == JoinColumns(columns)
  {
  }

  /** A field holding a comma is enclosed in double quotes; any other field is written as it is. */
  function Quote(c: string): string {
    if ',' in c then "\"" + c + "\"" else c
  }

  /** Every column quoted as it needs. */
  function Quoted(columns: seq<string>): (r: seq<string>)
    ensures |r| == |columns|
  {
    seq(|columns|, i requires 0 <= i < |columns| => Quote(columns[i]))
  }

  /** Column `i` of the quoted columns is column `i` quoted. */
  lemma QuotedAt(columns: seq<string>)
    ensures forall i :: 0 <= i < |columns| ==> Quoted(columns)[i] == Quote(columns[i])
  {
  }

  /** The first position at or after `from` holding `c`, or `|s|` when there is none. */
  function IndexOf(s: string, c: char, from: nat): (k: nat)
    requires from <= |s|
    ensures from <= k <= |s|
    ensures k < |s| ==> s[k] == c
    decreases |s| - from
  {
    if from == |s| || s[from] == c then from else IndexOf(s, c, from + 1)
  }

  /**
   * Reads one line (without its line break) as columns: a column that opens
   * with a double quote runs to the next double quote, any other column to
   * the next comma. Text between a closing quote and the next comma is
   * dropped.
   */
  function ReadColumns(line: string): (columns: seq<string>)
    ensures |columns| >= 1
    decreases |line|
  {
    if |line| > 0 && line[0] == '"' then
      var j := IndexOf(line, '"', 1);
      var field := line[1..j];
      if j + 1 < |line| && line[j + 1] == ',' then [field] + ReadColumns(line[j + 2..]) else [field]
    else
      var k := IndexOf(line, ',', 0);
      if k < |line| then [line[..k]] + ReadColumns(line[k + 1..]) else [line]
  }

  /** `IndexOf` finds the first `c` from `from` on. */
  lemma {:induction false} IndexOfIs(s: string, c: char, from: nat, k: nat)
    requires from <= k <= |s|
    requires k < |s| ==> s[k] == c
    requires forall i :: from <= i < k ==> s[i] != c
    ensures IndexOf(s, c, from) == k
    decreases k - from
  {
    if from < k {
      IndexOfIs(s, c, from + 1, k);
    }
  }

  /** Letters, digits and spaces: nothing CSV treats specially. */
  predicate PlainText(s: string) {
    forall i :: 0 <= i < |s| ==> s[i] == ' ' || '0' <= s[i] <= '9' || 'A' <= s[i] <= 'Z' || 'a' <= s[i] <= 'z'
  }

  lemma PlainTextAvoids(s: string)
    requires PlainText(s)
    ensures ',' !in s && '"' !in s && '\n' !in s
  {
  }

  /** A field without double quotes, written with `Quote`, reads back as itself before the next comma. */
  lemma ReadFirst(c: string, rest: string)
    requires '"' !in c
    ensures ReadColumns(Quote(c) + "," + rest) == [c] + ReadColumns(rest)
  {
    var line := Quote(c) + "," + rest;
    if ',' in c {
      assert line == "\"" + c + "\"" + "," + rest;
      IndexOfIs(line, '"', 1, |c| + 1);
      assert line[1..|c| + 1] == c;
      assert line[|c| + 3..] == rest;
    } else {
      if |c| > 0 {
        assert line[0] == c[0];
      }
      IndexOfIs(line, ',', 0, |c|);
      assert line[..|c|] == c;
      assert line[|c| + 1..] == rest;
    }
  }

  /** A lone field without double quotes, written with `Quote`, reads back as itself. */
  lemma ReadOnly(c: string)
    requires '"' !in c
    ensures ReadColumns(Quote(c)) == [c]
  {
    var line := Quote(c);
    if ',' in c {
      IndexOfIs(line, '"', 1, |c| + 1);
      assert line[1..|c| + 1] == c;
    } else {
      if |c| > 0 {
        assert line[0] == c[0];
      }
      IndexOfIs(line, ',', 0, |c|);
    }
  }

  /** Joining splits off the first column like the last one. */
  lemma {:induction false} JoinFront(c: string, cs: seq<string>)
    requires cs != []
    ensures JoinColumns([c] + cs) == c + "," + JoinColumns(cs)
    decreases |cs|
  {
    var all := [c] + cs;
    if |cs| == 1 {
      assert all[..1] == [c];
    } else {
      var init, last := cs[..|cs| - 1], cs[|cs| - 1];
      assert all[..|all| - 1] == [c] + init;
      JoinFront(c, init);
      assert JoinColumns(all) == c + "," + JoinColumns(init) + "," + last;
      assert JoinColumns(cs) == JoinColumns(init) + "," + last;
    }
  }

  /**
   * Columns without double quotes, quoted as they need and joined, read back
   * as the same columns, commas or not.
   */
  lemma {:induction false} ReadQuotedJoin(columns: seq<string>)
    requires columns != []
    requires forall i :: 0 <= i < |columns| ==> '"' !in columns[i]
    ensures ReadColumns(JoinColumns(Quoted(columns))) == columns
    decreases |columns|
  {
    var q := Quoted(columns);
    if |columns| == 1 {
      ReadOnly(columns[0]);
    } else {
      var rest := columns[1..];
      ReadQuotedJoin(rest);
      JoinQuotedFront(columns);
      ReadFirst(columns[0], JoinColumns(Quoted(rest)));
      HeadTail(columns);
    }
  }

  lemma QuotedFront(columns: seq<string>)
    requires columns != []
    ensures Quoted(columns) == [Quote(columns[0])] + Quoted(columns[1..])
  {
    var q, r := Quoted(columns), [Quote(columns[0])] + Quoted(columns[1..]);
    forall i | 0 <= i < |q|
      ensures q[i] == r[i]
    {
      if i > 0 {
        assert r[i] == Quoted(columns[1..])[i - 1];
      }
    }
  }

  /** The first quoted column, a comma, then the others quoted and joined. */
  lemma JoinQuotedFront(columns: seq<string>)
    requires |columns| > 1
    ensures JoinColumns(Quoted(columns)) == Quote(columns[0]) + "," + JoinColumns(Quoted(columns[1..]))
  {
    QuotedFront(columns);
    JoinFront(Quote(columns[0]), Quoted(columns[1..]));
  }

  lemma HeadTail(columns: seq<string>)
    requires columns != []
    ensures [columns[0]] + columns[1..] == columns
  {
  }

  lemma ConsCons(a: string, b: string, rest: seq<string>)
    ensures [a] + ([b] + rest) == [a, b] + rest
  {
  }

  /** Columns without commas are written as they are. */
  lemma QuotedPlain(columns: seq<string>)
    requires forall i :: 0 <= i < |columns| ==> ',' !in columns[i]
    ensures Quoted(columns) == columns
  {
  }

  /** Columns without commas or double quotes, joined, read back as the same columns. */
  lemma ReadJoin(columns: seq<string>)
    requires columns != []
    requires forall i :: 0 <= i < |columns| ==> ',' !in columns[i] && '"' !in columns[i]
    ensures ReadColumns(JoinColumns(columns)) == columns
  {
    QuotedPlain(columns);
    ReadQuotedJoin(columns);
  }

  /**
   * Unquoted, a first column `a,b` is read as the two columns `a` and `b`:
   * the line gains a column.
   */
  lemma CommaSplitsColumn(a: string, b: string, rest: seq<string>)
    requires ',' !in a && '"' !in a && ',' !in b && '"' !in b
    requires forall i :: 0 <= i < |rest| ==> ',' !in rest[i] && '"' !in rest[i]
    ensures ReadColumns(JoinColumns([a + "," + b] + rest)) == [a, b] + rest
  {
    var tail := [b] + rest;
    ReadTail(b, rest);
    JoinSplitFirst(a, b, rest);
    ReadAfterPlain(a, JoinColumns(tail), tail);
    ConsCons(a, b, rest);
  }

  /** Columns without commas or double quotes, one put in front of the others, read back as they are. */
  lemma ReadTail(b: string, rest: seq<string>)
    requires ',' !in b && '"' !in b
    requires forall i :: 0 <= i < |rest| ==> ',' !in rest[i] && '"' !in rest[i]
    ensures ReadColumns(JoinColumns([b] + rest)) == [b] + rest
  {
    var tail := [b] + rest;
    forall i | 0 <= i < |tail|
      ensures ',' !in tail[i] && '"' !in tail[i]
    {
      if i > 0 {
        assert tail[i] == rest[i - 1];
      }
    }
    ReadJoin(tail);
  }

  /** A column without commas or double quotes, then a comma, is read as itself before the rest. */
  lemma ReadAfterPlain(a: string, j: string, tail: seq<string>)
    requires ',' !in a && '"' !in a
    requires ReadColumns(j) == tail
    ensures ReadColumns(a + "," + j) == [a] + tail
  {
    QuotePlain(a);
    ReadFirst(a, j);
  }

  /** The same, for a line whose first column is `a,b`. */
  lemma CommaSplitsFirst(columns: seq<string>, a: string, b: string)
    requires |columns| >= 1 && columns[0] == a + "," + b
    requires ',' !in a && '"' !in a && ',' !in b && '"' !in b
    requires forall i :: 1 <= i < |columns| ==> ',' !in columns[i] && '"' !in columns[i]
    ensures ReadColumns(JoinColumns(columns)) == [a, b] + columns[1..]
  {
    var rest := columns[1..];
    forall i | 0 <= i < |rest|
      ensures ',' !in rest[i] && '"' !in rest[i]
    {
      assert rest[i] == columns[i + 1];
    }
    HeadTail(columns);
    CommaSplitsColumn(a, b, rest);
  }

  lemma QuotePlain(c: string)
    requires ',' !in c
    ensures Quote(c) == c
  {
  }

  /** The comma inside a first column `a,b` is one more comma of the joined line. */
  lemma JoinSplitFirst(a: string, b: string, rest: seq<string>)
    ensures JoinColumns([a + "," + b] + rest) == a + "," + JoinColumns([b] + rest)
  {
    if rest == [] {
      assert [a + "," + b] + rest == [a + "," + b];
      assert [b] + rest == [b];
    } else {
      JoinFront(a + "," + b, rest);
      JoinFront(b, rest);
      var j := JoinColumns(rest);
      assert a + "," + b + "," + j == a + "," + (b + "," + j);
    }
  }

  /** A character other than `"` that no column holds is absent from the joined, quoted line. */
  lemma {:induction false} JoinQuotedAvoids(columns: seq<string>, c: char)
    requires c != ',' && c != '"'
    requires forall i :: 0 <= i < |columns| ==> c !in columns[i]
    ensures c !in JoinColumns(Quoted(columns))
    decreases |columns|
  {
    var q := Quoted(columns);
    forall i | 0 <= i < |q|
      ensures c !in q[i]
    {
      assert q[i] == Quote(columns[i]);
    }
    JoinAvoids(q, c);
  }

  /** Columns without `c`, joined by commas, do not contain `c` either (for `c` other than the comma). */
  lemma {:induction false} JoinAvoids(columns: seq<string>, c: char)
    requires c != ','
    requires forall i :: 0 <= i < |columns| ==> c !in columns[i]
    ensures c !in JoinColumns(columns)
    decreases |columns|
  {
    if |columns| > 1 {
      JoinAvoids(columns[..|columns| - 1], c);
    }
  }

  /** Columns without line breaks make a row with exactly one. */
  lemma RowHasOneBreak(columns: seq<string>)
    requires forall i :: 0 <= i < |columns| ==> '\n' !in columns[i]
    ensures Count(CsvRow(columns), '\n') == 1
  {
    var body := JoinColumns(columns);
    JoinAvoids(columns, '\n');
    CountAbsent(body, '\n');
    CountAppend(body, "\n", '\n');
  }

  /** Columns without line breaks, quoted as they need, make a row with exactly one. */
  lemma QuotedRowHasOneBreak(columns: seq<string>)
    requires forall i :: 0 <= i < |columns| ==> '\n' !in columns[i]
    ensures Count(CsvRow(Quoted(columns)), '\n') == 1
  {
    var body := JoinColumns(Quoted(columns));
    JoinQuotedAvoids(columns, '\n');
    CountAbsent(body, '\n');
    CountAppend(body, "\n", '\n');
  }

  /** A row ends with the column "Manual" exactly when its last column is "Manual". */
  lemma RowType(columns: seq<string>)
    requires |columns| >= 2
    requires columns[|columns| - 1] == "Manual" || columns[|columns| - 1] == "Automatic"
    ensures EndsWith(CsvRow(columns), ",Manual\n") <==> columns[|columns| - 1] == "Manual"
  {
    var kind := columns[|columns| - 1];
    var front := JoinColumns(columns[..|columns| - 1]);
    var row := CsvRow(columns);
    assert row == front + ("," + kind + "\n");
    if kind == "Manual" {
      assert row[|row| - 8..] == ",Manual\n";
    } else {
      assert row[|row| - 2] == 'c';
    }
  }
}
