/** Comma-separated records as section 2 of RFC 4180 describes them: a
    field that holds a comma, a double quote, a line feed or a carriage
    return is enclosed in double quotes, and each double quote inside it is
    doubled. */
module Csv {
  import opened Seqs
  import opened Text

  predicate NeedsQuotes(f: string)
  {
    ',' in f || '"' in f || '\n' in f || '\r' in f
  }

  /** Doubles every double quote. */
  function Escape(f: string): (r: string)
    ensures forall c :: c != '"' ==> (c in r <==> c in f)
  {
    if f == [] then [] else (if f[0] == '"' then "\"\"" else [f[0]]) + Escape(f[1..])
  }

  function WriteField(f: string): string
  {
    if NeedsQuotes(f) then "\"" + Escape(f) + "\"" else f
  }

  /** One record: the fields joined by commas. */
  function WriteRecord(cells: seq<string>): string
  {
    Join(Map(cells, WriteField), ",")
  }

  /** The content of a quoted field whose opening quote has been read, and
      what follows its closing quote. */
  function ReadQuoted(s: string): (r: (string, string))
    ensures |r.1| <= |s|
  {
    if s == [] then ([], [])
    else if s[0] == '"' then
      if |s| >= 2 && s[1] == '"' then
        var t := ReadQuoted(s[2..]);
        ("\"" + t.0, t.1)
      else ([], s[1..])
    else
      var t := ReadQuoted(s[1..]);
      ([s[0]] + t.0, t.1)
  }

  /** The fields of one record. */
  function ReadRecord(s: string): (r: seq<string>)
    ensures |r| >= 1
    decreases |s|
  {
    if s != [] && s[0] == '"' then
      var t := ReadQuoted(s[1..]);
      if t.1 != [] && t.1[0] == ',' then [t.0] + ReadRecord(t.1[1..]) else [t.0]
    else if ',' in s then
      var i := FirstIndex(s, ',');
      [s[..i]] + ReadRecord(s[i + 1..])
    else [s]
  }

  /** Reading an escaped field back stops at its closing quote. */
  lemma {:induction false} ReadEscaped(f: string, t: string)
    requires t == [] || t[0] == ','
    ensures ReadQuoted(Escape(f) + "\"" + t) == (f, t)
  {
    var s := Escape(f) + "\"" + t;
    if f == [] {
      assert s == "\"" + t;
      assert s[1..] == t;
    } else if f[0] == '"' {
      assert s[2..] == Escape(f[1..]) + "\"" + t;
      ReadEscaped(f[1..], t);
      assert "\"" + f[1..] == f;
    } else {
      assert s[1..] == Escape(f[1..]) + "\"" + t;
      ReadEscaped(f[1..], t);
      assert [f[0]] + f[1..] == f;
    }
  }

  /** A written field followed by the rest of a record reads back as itself. */
  lemma ReadField(f: string, rest: string)
    requires rest == [] || rest[0] == ','
    ensures ReadRecord(WriteField(f) + rest) ==
              if rest == [] then [f] else [f] + ReadRecord(rest[1..])
  {
    if NeedsQuotes(f) {
      assert WriteField(f) + rest == "\"" + Escape(f) + "\"" + rest;
      ReadQuotedField(f, rest);
    } else if rest != [] {
      assert WriteField(f) + rest == f + [','] + rest[1..];
      ReadPlainField(f, rest[1..]);
    } else {
      assert WriteField(f) + rest == f;
    }
  }

  lemma ReadQuotedField(f: string, rest: string)
    requires NeedsQuotes(f) && (rest == [] || rest[0] == ',')
    ensures ReadRecord("\"" + Escape(f) + "\"" + rest) ==
              if rest == [] then [f] else [f] + ReadRecord(rest[1..])
  {
    var body := Escape(f) + "\"" + rest;
    var s := "\"" + Escape(f) + "\"" + rest;
    assert s == "\"" + body;
    assert s != [] && s[0] == '"' && s[1..] == body;
    ReadEscaped(f, rest);
    assert ReadQuoted(body) == (f, rest);
  }

  lemma ReadPlainField(f: string, tail: string)
    requires !NeedsQuotes(f)
    ensures ReadRecord(f + [','] + tail) == [f] + ReadRecord(tail)
  {
    FirstIndexAfter(f, ',', tail);
    assert (f + [','] + tail)[0] != '"';
  }

  /** Writing a record and reading it recovers its fields, whatever they hold. */
  lemma {:induction false} ReadWriteRecord(cells: seq<string>)
    requires cells != []
    ensures ReadRecord(WriteRecord(cells)) == cells
  {
    var fields := Map(cells, WriteField);
    if |cells| == 1 {
      assert WriteRecord(cells) == WriteField(cells[0]) + [];
      ReadField(cells[0], []);
    } else {
      assert fields[1..] == Map(cells[1..], WriteField);
      var rest := "," + WriteRecord(cells[1..]);
      assert WriteRecord(cells) == WriteField(cells[0]) + rest;
      ReadField(cells[0], rest);
      assert rest[1..] == WriteRecord(cells[1..]);
      ReadWriteRecord(cells[1..]);
    }
  }

  /** A record holds a character other than a comma or a quote only where
      one of its fields does. */
  lemma WriteRecordAvoids(cells: seq<string>, c: char)
    requires c != ',' && c != '"'
    requires forall i :: 0 <= i < |cells| ==> c !in cells[i]
    ensures c !in WriteRecord(cells)
  {
    var fields := Map(cells, WriteField);
    forall i | 0 <= i < |fields|
      ensures c !in fields[i]
    {
    }
    JoinAvoids(fields, ",", c);
  }

  /** Fields that need no quotes are written as they are. */
  lemma PlainCells(cells: seq<string>)
    requires forall i :: 0 <= i < |cells| ==> !NeedsQuotes(cells[i])
    ensures WriteRecord(cells) == Join(cells, ",")
  {
    assert Map(cells, WriteField) == cells;
  }

  /** Text without quotes reads as its split at the commas. */
  lemma {:induction false} ReadPlainIsSplit(s: string)
    requires '"' !in s
    ensures ReadRecord(s) == Split(s, ',')
    decreases |s|
  {
    if ',' in s {
      var i := FirstIndex(s, ',');
      ReadPlainIsSplit(s[i + 1..]);
    }
  }

  /** Splitting at `c` gives one piece more than there are `c`s. */
  lemma {:induction false} SplitCount(s: string, c: char)
    ensures |Split(s, c)| == multiset(s)[c] + 1
    decreases |s|
  {
    if c in s {
      var i := FirstIndex(s, c);
      assert s == s[..i] + [c] + s[i + 1..];
      assert c !in s[..i];
      SplitCount(s[i + 1..], c);
    } else {
      assert multiset(s)[c] == 0;
    }
  }

  /** A join by `c` holds a `c` between each two parts, and those of each part. */
  lemma {:induction false} JoinCount(parts: seq<string>, c: char, k: nat)
    requires k < |parts|
    ensures multiset(Join(parts, [c]))[c] >= |parts| - 1 + multiset(parts[k])[c]
  {
    if |parts| > 1 {
      var rest := parts[1..];
      assert Join(parts, [c]) == parts[0] + [c] + Join(rest, [c]);
      if k == 0 {
        JoinCount(rest, c, 0);
      } else {
        JoinCount(rest, c, k - 1);
      }
    }
  }

  /** When one part holds the separator, the split of the join has more
      pieces than there were parts. */
  lemma JoinSplitsMore(parts: seq<string>, k: nat)
    requires k < |parts| && ',' in parts[k]
    ensures |Split(Join(parts, ","), ',')| > |parts|
  {
    JoinCount(parts, ',', k);
    SplitCount(Join(parts, ","), ',');
  }
}
