/** The write-ahead log as text: one encoded entry per line, loaded leniently at its end. */
module Wal {
  import opened Types

  type Line = seq<char>

  /** How one entry is written on a line and read back. */
  datatype Codec<!T> = Codec(enc: T -> Line, dec: Line -> Option<T>)

  /** What JSON gives: entries read back as written, no line breaks inside a line, and no entry readable
      from a strict prefix of its line. */
  ghost predicate Good<T(!new)>(c: Codec<T>) {
    forall e :: c.dec(c.enc(e)) == Some(e) && '\n' !in c.enc(e) && c.enc(e) != []
                && forall k :: 0 <= k < |c.enc(e)| ==> c.dec(c.enc(e)[..k]).None?
  }

  // ----- lines

  /** The complete non-empty lines of a text, and what follows its last line break. */
  function Scan(text: seq<char>): (seq<Line>, Line) {
    if text == [] then ([], [])
    else
      var (lines, tail) := Scan(text[..|text| - 1]);
      var c := text[|text| - 1];
      if c != '\n' then (lines, tail + [c]) else if tail == [] then (lines, []) else (lines + [tail], [])
  }

  function Lines(text: seq<char>): seq<Line> {
    var (lines, tail) := Scan(text);
    if tail == [] then lines else lines + [tail]
  }

  lemma {:induction false} ScanPlain(text: seq<char>, more: Line)
    requires '\n' !in more
    ensures Scan(text + more) == (Scan(text).0, Scan(text).1 + more)
  {
    if more == [] {
      assert text + more == text && Scan(text).1 + more == Scan(text).1;
    } else {
      var n := |more| - 1;
      ScanPlain(text, more[..n]);
      assert (text + more)[..|text + more| - 1] == text + more[..n];
      assert more == more[..n] + [more[n]] && more[n] in more;
      assert Scan(text).1 + more == Scan(text).1 + more[..n] + [more[n]];
    }
  }

  lemma ScanLine(text: seq<char>, line: Line)
    requires '\n' !in line && Scan(text).1 + line != []
    ensures Scan(text + line + ['\n']) == (Scan(text).0 + [Scan(text).1 + line], [])
  {
    ScanPlain(text, line);
    assert (text + line + ['\n'])[..|text + line|] == text + line;
  }

  // ----- loading

  datatype Loaded<T> = Entries(entries: seq<T>) | Corrupt(line: nat)

  /** Lines from `i` on, appended to `done`: only the very last line may be unreadable. */
  function Decode<T>(c: Codec<T>, lines: seq<Line>, i: nat, done: seq<T>): Loaded<T>
    requires i <= |lines|
    decreases |lines| - i
  {
    if i == |lines| then Entries(done)
    else
      var e := c.dec(lines[i]);
      if e.Some? then Decode(c, lines, i + 1, done + [e.value])
      else if i == |lines| - 1 then Entries(done)
      else Corrupt(i)
  }

  ghost predicate Readable<T>(c: Codec<T>, lines: seq<Line>) {
    forall k :: 0 <= k < |lines| ==> c.dec(lines[k]).Some?
  }

  function Values<T>(c: Codec<T>, lines: seq<Line>): seq<T>
    requires Readable(c, lines)
  {
    seq(|lines|, k requires 0 <= k < |lines| => c.dec(lines[k]).value)
  }

  /** All lines but a last one that cannot be read. */
  function Kept<T>(c: Codec<T>, lines: seq<Line>): seq<Line> {
    if lines != [] && c.dec(lines[|lines| - 1]).None? then lines[..|lines| - 1] else lines
  }

  lemma {:induction false} DecodesRest<T>(c: Codec<T>, lines: seq<Line>, i: nat)
    requires i <= |lines| && Readable(c, lines[..i])
    ensures var r := Decode(c, lines, i, Values(c, lines[..i]));
            && (r.Entries? <==> Readable(c, Kept(c, lines)))
            && (r.Entries? ==> r.entries == Values(c, Kept(c, lines)))
            && (r.Corrupt? ==> r.line < |lines| - 1 && c.dec(lines[r.line]).None? && Readable(c, lines[..r.line]))
    decreases |lines| - i
  {
    if i == |lines| {
      assert lines[..i] == lines;
      assert lines != [] ==> c.dec(lines[..i][i - 1]).Some?;
    } else if c.dec(lines[i]).Some? {
      assert Values(c, lines[..i]) + [c.dec(lines[i]).value] == Values(c, lines[..i + 1]);
      DecodesRest(c, lines, i + 1);
    } else if i < |lines| - 1 {
      assert Kept(c, lines)[i] == lines[i];
    }
  }

  /** A text loads if and only if no line but the last is unreadable, and then it gives the readable ones in
      order; otherwise the first unreadable line is reported. */
  lemma DecodesExactly<T>(c: Codec<T>, lines: seq<Line>)
    ensures var r := Decode(c, lines, 0, []);
            && (r.Entries? <==> Readable(c, Kept(c, lines)))
            && (r.Entries? ==> r.entries == Values(c, Kept(c, lines)))
            && (r.Corrupt? ==> r.line < |lines| - 1 && c.dec(lines[r.line]).None? && Readable(c, lines[..r.line]))
  {
    assert lines[..0] == [] && Values(c, []) == [];
    DecodesRest(c, lines, 0);
  }

  method LoadLog<T>(c: Codec<T>, text: seq<char>) returns (r: Loaded<T>)
    ensures r == Decode(c, Lines(text), 0, [])
    ensures r.Entries? <==> Readable(c, Kept(c, Lines(text)))
    ensures r.Entries? ==> r.entries == Values(c, Kept(c, Lines(text)))
  {
    DecodesExactly(c, Lines(text));
    var lines := Lines(text);
    var entries := [];
    for i := 0 to |lines|
      invariant Decode(c, lines, i, entries) == Decode(c, lines, 0, [])
    {
      var e := c.dec(lines[i]);
      if e.Some? {
        entries := entries + [e.value];
      } else if i != |lines| - 1 {
        return Corrupt(i);
      }
    }
    r := Entries(entries);
  }

  // ----- writing

  function Record<T>(c: Codec<T>, e: T): seq<char> { c.enc(e) + ['\n'] }

  /** The text after rewriting or appending these entries one by one. */
  function Written<T>(c: Codec<T>, entries: seq<T>): seq<char> {
    if entries == [] then [] else Written(c, entries[..|entries| - 1]) + Record(c, entries[|entries| - 1])
  }

  lemma AppendWrites<T>(c: Codec<T>, entries: seq<T>, e: T)
    ensures Written(c, entries) + Record(c, e) == Written(c, entries + [e])
  {
    assert (entries + [e])[..|entries|] == entries;
  }

  function Encoded<T>(c: Codec<T>, entries: seq<T>): seq<Line> { seq(|entries|, k requires 0 <= k < |entries| => c.enc(entries[k])) }

  lemma {:induction false} WrittenScans<T(!new)>(c: Codec<T>, entries: seq<T>)
    requires Good(c)
    ensures Scan(Written(c, entries)) == (Encoded(c, entries), [])
  {
    if entries == [] {
      assert Encoded(c, entries) == [];
    } else {
      var n := |entries| - 1;
      WrittenScans(c, entries[..n]);
      ScanLine(Written(c, entries[..n]), c.enc(entries[n]));
      assert [] + c.enc(entries[n]) == c.enc(entries[n]);
      assert Written(c, entries) == Written(c, entries[..n]) + c.enc(entries[n]) + ['\n'];
      assert Encoded(c, entries) == Encoded(c, entries[..n]) + [c.enc(entries[n])];
    }
  }

  lemma {:induction false} DecodesFrom<T(!new)>(c: Codec<T>, entries: seq<T>, rest: seq<Line>, i: nat)
    requires Good(c) && i <= |entries|
    ensures Decode(c, Encoded(c, entries) + rest, i, entries[..i])
            == Decode(c, Encoded(c, entries) + rest, |entries|, entries)
    decreases |entries| - i
  {
    if i < |entries| {
      var lines := Encoded(c, entries) + rest;
      assert lines[i] == c.enc(entries[i]);
      assert entries[..i] + [entries[i]] == entries[..i + 1];
      DecodesFrom(c, entries, rest, i + 1);
    } else {
      assert entries[..i] == entries;
    }
  }

  /** Loading gives back exactly what was written. */
  lemma LoadRoundTrip<T(!new)>(c: Codec<T>, entries: seq<T>)
    requires Good(c)
    ensures Decode(c, Lines(Written(c, entries)), 0, []) == Entries(entries)
  {
    WrittenScans(c, entries);
    DecodesFrom(c, entries, [], 0);
    assert Encoded(c, entries) + [] == Encoded(c, entries);
    assert entries[..0] == [];
  }

  /** A last piece without a line break counts as an entry exactly when it can be read as one. */
  lemma LoadWithTail<T(!new)>(c: Codec<T>, entries: seq<T>, piece: Line)
    requires Good(c) && '\n' !in piece && piece != []
    ensures Decode(c, Lines(Written(c, entries) + piece), 0, [])
            == Entries(if c.dec(piece).Some? then entries + [c.dec(piece).value] else entries)
  {
    WrittenScans(c, entries);
    ScanPlain(Written(c, entries), piece);
    assert [] + piece == piece;
    assert entries[..0] == [];
    DecodesFrom(c, entries, [piece], 0);
    assert (Encoded(c, entries) + [piece])[|entries|] == piece;
  }

  /** A crash that leaves any prefix of the last append loses that entry exactly when its line is not
      complete, and nothing else ever. */
  lemma LoadAfterTornWrite<T(!new)>(c: Codec<T>, entries: seq<T>, e: T, k: nat)
    requires Good(c) && k <= |Record(c, e)|
    ensures Decode(c, Lines(Written(c, entries) + Record(c, e)[..k]), 0, [])
            == Entries(if k < |c.enc(e)| then entries else entries + [e])
  {
    var line := c.enc(e);
    if k == 0 {
      assert Written(c, entries) + Record(c, e)[..k] == Written(c, entries);
      LoadRoundTrip(c, entries);
    } else if k > |line| {
      assert Record(c, e)[..k] == Record(c, e);
      AppendWrites(c, entries, e);
      LoadRoundTrip(c, entries + [e]);
    } else {
      assert Record(c, e)[..k] == line[..k];
      assert line[..|line|] == line;
      LoadWithTail(c, entries, line[..k]);
    }
  }

  lemma TornLine<T(!new)>(c: Codec<T>, entries: seq<T>, torn: Line, f: T)
    requires Good(c) && '\n' !in torn && torn != []
    ensures Scan(Written(c, entries) + torn + Record(c, f)) == (Encoded(c, entries) + [torn + c.enc(f)], [])
  {
    var text := Written(c, entries) + torn;
    WrittenScans(c, entries);
    ScanPlain(Written(c, entries), torn);
    assert Scan(text) == (Encoded(c, entries), torn) by { assert [] + torn == torn; }
    ScanLine(text, c.enc(f));
    assert text + c.enc(f) + ['\n'] == text + Record(c, f);
  }

  /** The promise is for one crash only. Loading drops a torn line from memory but not from the file, so
      the next append lands on the same line: unless the two happen to decode together, a completed
      append of `f` is not there when the log is loaded again, and neither is `e` if only its line break was
      torn off and it had been loaded before. */
  lemma TornLineSwallowsNextAppend<T(!new)>(c: Codec<T>, entries: seq<T>, e: T, k: nat, f: T)
    requires Good(c) && 0 < k <= |c.enc(e)|
    ensures var line := c.dec(c.enc(e)[..k] + c.enc(f));
            Decode(c, Lines(Written(c, entries) + Record(c, e)[..k] + Record(c, f)), 0, [])
            == Entries(if line.Some? then entries + [line.value] else entries)
  {
    var torn := c.enc(e)[..k];
    assert Record(c, e)[..k] == torn;
    TornLine(c, entries, torn, f);
    DecodesFrom(c, entries, [torn + c.enc(f)], 0);
    assert entries[..0] == [];
    assert (Encoded(c, entries) + [torn + c.enc(f)])[|entries|] == torn + c.enc(f);
  }

  lemma TornLines<T(!new)>(c: Codec<T>, entries: seq<T>, torn: Line, f: T, g: T)
    requires Good(c) && '\n' !in torn && torn != []
    ensures Scan(Written(c, entries) + torn + Record(c, f) + Record(c, g))
            == (Encoded(c, entries) + [torn + c.enc(f), c.enc(g)], [])
  {
    var text := Written(c, entries) + torn + Record(c, f);
    TornLine(c, entries, torn, f);
    ScanLine(text, c.enc(g));
    assert [] + c.enc(g) == c.enc(g);
    assert text + c.enc(g) + ['\n'] == text + Record(c, g);
    assert Encoded(c, entries) + [torn + c.enc(f)] + [c.enc(g)] == Encoded(c, entries) + [torn + c.enc(f), c.enc(g)];
  }

  lemma DecodesTwo<T>(c: Codec<T>, lines: seq<Line>, done: seq<T>, g: T)
    requires |lines| == |done| + 2 && c.dec(lines[|done| + 1]) == Some(g)
    ensures var line := c.dec(lines[|done|]);
            Decode(c, lines, |done|, done) == if line.Some? then Entries(done + [line.value] + [g]) else Corrupt(|done|)
  {
    var line := c.dec(lines[|done|]);
    if line.Some? {
      assert Decode(c, lines, |done|, done) == Decode(c, lines, |done| + 1, done + [line.value]);
      assert Decode(c, lines, |done| + 1, done + [line.value]) == Decode(c, lines, |done| + 2, done + [line.value] + [g]);
    }
  }

  /** One append more and the log loads if and only if they do decode together. */
  lemma TornLineCorruptsLaterAppends<T(!new)>(c: Codec<T>, entries: seq<T>, e: T, k: nat, f: T, g: T)
    requires Good(c) && 0 < k <= |c.enc(e)|
    ensures var line := c.dec(c.enc(e)[..k] + c.enc(f));
            Decode(c, Lines(Written(c, entries) + Record(c, e)[..k] + Record(c, f) + Record(c, g)), 0, [])
            == if line.Some? then Entries(entries + [line.value] + [g]) else Corrupt(|entries|)
  {
    var torn := c.enc(e)[..k];
    assert Record(c, e)[..k] == torn && '\n' !in torn && torn != [];
    TornLines(c, entries, torn, f, g);
    var lines := Encoded(c, entries) + [torn + c.enc(f), c.enc(g)];
    DecodesFrom(c, entries, [torn + c.enc(f), c.enc(g)], 0);
    assert entries[..0] == [];
    assert lines[|entries|] == torn + c.enc(f) && lines[|entries| + 1] == c.enc(g);
    DecodesTwo(c, lines, entries, g);
  }

  // ----- such codecs exist

  function Tally(n: nat): Line { if n == 0 then ['.'] else ['x'] + Tally(n - 1) }

  function Untally(line: Line): Option<nat> {
    if line == [] then None
    else if line[0] == '.' then if |line| == 1 then Some(0) else None
    else if line[0] != 'x' then None
    else var rest := Untally(line[1..]); if rest.None? then None else Some(rest.value + 1)
  }

  lemma {:induction false} TallyReads(n: nat)
    ensures Untally(Tally(n)) == Some(n) && '\n' !in Tally(n) && Tally(n) != []
  {
    if n > 0 {
      TallyReads(n - 1);
      var rest := Tally(n - 1);
      assert Tally(n) == ['x'] + rest && (['x'] + rest)[1..] == rest;
    }
  }

  lemma {:induction false} TornTallyUnread(n: nat, k: nat)
    requires k < |Tally(n)|
    ensures Untally(Tally(n)[..k]).None?
  {
    if n > 0 && k > 0 {
      TornTallyUnread(n - 1, k - 1);
      assert Tally(n)[..k][1..] == Tally(n - 1)[..k - 1];
    }
  }

  lemma GoodCodecsExist()
    ensures Good(Codec(Tally, Untally))
  {
    var c := Codec(Tally, Untally);
    forall n: nat
      ensures c.dec(c.enc(n)) == Some(n) && '\n' !in c.enc(n) && c.enc(n) != []
      ensures forall k :: 0 <= k < |c.enc(n)| ==> c.dec(c.enc(n)[..k]).None?
    {
      TallyReads(n);
      forall k | 0 <= k < |c.enc(n)| ensures c.dec(c.enc(n)[..k]).None? {
        TornTallyUnread(n, k);
      }
    }
  }
}
