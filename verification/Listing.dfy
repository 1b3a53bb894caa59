/** The file helper's directory listing and the panel's parser of it
    (internal/fileops/fileops.go, internal/api/files.go). */
module Listing {
  import opened Text
  import Decimal

  // ---- the helper ----

  datatype Info = Info(isDir: bool, size: int, modTime: int)

  /** A directory entry with what Stat and Lstat say of it; either may fail. */
  datatype DirEntry = DirEntry(name: string, stat: Option<Info>, lstat: Option<Info>)

  /** A record: kind, size and time, tabs between, then the name. */
  function Record(kind: string, size: string, time: string, name: string): string {
    kind + "\t" + size + "\t" + time + "\t" + name
  }

  function InfoOf(e: DirEntry): Option<Info> { if e.stat.Some? then e.stat else e.lstat }

  function Printed(e: DirEntry): Option<string> {
    match InfoOf(e)
    case None => None
    case Some(fi) =>
      Some(Record(if fi.isDir then "d" else "f", Decimal.Print(if fi.isDir then 0 else fi.size), Decimal.Print(fi.modTime), e.name))
  }

  function Printout(entries: seq<DirEntry>): string {
    if entries == [] then ""
    else
      var before := Printout(entries[..|entries| - 1]);
      match Printed(entries[|entries| - 1])
      case None => before
      case Some(rec) => before + rec + "\0"
  }

  /** list, once the directory is read. */
  method List(entries: seq<DirEntry>) returns (out: string)
    ensures out == Printout(entries)
  {
    out := "";
    for i := 0 to |entries|
      invariant out == Printout(entries[..i])
    {
      assert entries[..i + 1][..i] == entries[..i];
      var fi := entries[i].stat;
      if fi.None? {
        fi := entries[i].lstat;
      }
      if fi.Some? {
        var kind, size := "f", fi.value.size;
        if fi.value.isDir {
          kind, size := "d", 0;
        }
        out := out + Record(kind, Decimal.Print(size), Decimal.Print(fi.value.modTime), entries[i].name) + "\0";
      }
    }
    assert entries[..|entries|] == entries;
  }

  // ---- the panel ----

  datatype FileEntry = FileEntry(name: string, size: int, modTime: int, dir: bool)

  /** strings.SplitN: at most n parts, the last one the rest. */
  function SplitN(s: string, sep: char, n: nat): (parts: seq<string>)
    requires n > 0
    ensures 0 < |parts| <= n
    decreases n
  {
    var i := IndexOf(s, sep);
    if n == 1 || i == |s| then [s] else [s[..i]] + SplitN(s[i + 1..], sep, n - 1)
  }

  function ParseRecord(rec: string): Option<FileEntry> {
    var parts := SplitN(rec, '\t', 4);
    if |parts| != 4 || parts[3] == "" then None
    else
      var dir := parts[0] == "d";
      var secs := TrimSpace(parts[2]);
      Some(FileEntry(parts[3], if dir then 0 else Decimal.Parse(TrimSpace(parts[1])),
                     Decimal.Parse(secs[..IndexOf(secs, '.')]), dir))
  }

  function Parsed(records: seq<string>): seq<FileEntry> {
    if records == [] then []
    else
      var before := Parsed(records[..|records| - 1]);
      match ParseRecord(records[|records| - 1])
      case None => before
      case Some(e) => before + [e]
  }

  method ParseListing(out: string) returns (entries: seq<FileEntry>)
    ensures entries == Parsed(Split(out, '\0'))
  {
    hide Decimal.Parse, TrimSpace, IndexOf, Split, SplitN;
    entries := [];
    var records := Split(out, '\0');
    for i := 0 to |records|
      invariant entries == Parsed(records[..i])
    {
      assert records[..i + 1][..i] == records[..i];
      var parts := SplitN(records[i], '\t', 4);
      if |parts| != 4 || parts[3] == "" {
        continue;
      }
      var size := Decimal.Parse(TrimSpace(parts[1]));
      var secs := TrimSpace(parts[2]);
      secs := secs[..IndexOf(secs, '.')];
      var modTime := Decimal.Parse(secs);
      var dir := parts[0] == "d";
      if dir {
        size := 0;
      }
      entries := entries + [FileEntry(parts[3], size, modTime, dir)];
    }
    assert records[..|records|] == records;
  }

  // ---- the parser undoes the printer ----

  predicate Free(s: string, c: char) { c !in s }

  lemma SplitNAfter(a: string, sep: char, b: string, n: nat)
    requires n > 1 && sep !in a
    ensures SplitN(a + [sep] + b, sep, n) == [a] + SplitN(b, sep, n - 1)
  {
    IndexOfAfter(a, sep, b);
  }

  lemma SplitNLast(s: string, sep: char)
    ensures SplitN(s, sep, 1) == [s]
  {}

  lemma SplitNRecord(kind: string, size: string, time: string, name: string)
    requires Free(kind, '\t') && Free(size, '\t') && Free(time, '\t')
    ensures SplitN(Record(kind, size, time, name), '\t', 4) == [kind, size, time, name]
  {
    hide SplitN, IndexOf;
    var c := time + "\t" + name;
    var b := size + "\t" + c;
    assert Record(kind, size, time, name) == kind + "\t" + b;
    assert SplitN(name, '\t', 1) == [name] by { SplitNLast(name, '\t'); }
    SplitNAfter(kind, '\t', b, 4);
    SplitNAfter(size, '\t', c, 3);
    SplitNAfter(time, '\t', name, 2);
  }

  lemma NoDot(s: string)
    requires '.' !in s
    ensures s[..IndexOf(s, '.')] == s
  {
    assert forall k | 0 <= k < |s| :: s[k] != '.';
  }

  lemma PrintIsPlain(i: int)
    ensures Trimmed(Decimal.Print(i)) && TrimSpace(Decimal.Print(i)) == Decimal.Print(i)
    ensures '.' !in Decimal.Print(i) && Free(Decimal.Print(i), '\t') && '\0' !in Decimal.Print(i)
  {
    var s := Decimal.Print(i);
    Decimal.PrintHolds(i);
    assert s[0] in s && s[|s| - 1] in s;
    TrimSpaceTrims(s);
  }

  predicate Fits(i: int) { Decimal.MIN64 <= i <= Decimal.MAX64 }

  /** What the panel shows of an entry: a directory without a size, and nothing
      for an entry neither Stat nor Lstat answers for. */
  function Shown(e: DirEntry): Option<FileEntry> {
    match InfoOf(e)
    case None => None
    case Some(fi) => Some(FileEntry(e.name, if fi.isDir then 0 else fi.size, fi.modTime, fi.isDir))
  }

  predicate Listable(e: DirEntry) {
    && e.name != "" && '\0' !in e.name
    && (InfoOf(e).Some? ==> Fits(InfoOf(e).value.size) && Fits(InfoOf(e).value.modTime))
  }

  lemma ParsesRecord(dir: bool, size: int, secs: int, name: string)
    requires name != "" && Fits(size) && Fits(secs)
    ensures ParseRecord(Record(if dir then "d" else "f", Decimal.Print(size), Decimal.Print(secs), name))
         == Some(FileEntry(name, if dir then 0 else size, secs, dir))
  {
    hide TrimSpace, SplitN, Record, Trimmed, Decimal.Print, Decimal.Parse;
    PrintIsPlain(size);
    PrintIsPlain(secs);
    Decimal.ParsePrint(size);
    Decimal.ParsePrint(secs);
    NoDot(Decimal.Print(secs));
    SplitNRecord(if dir then "d" else "f", Decimal.Print(size), Decimal.Print(secs), name);
  }

  lemma RecordHolds(kind: string, size: string, time: string, name: string)
    requires '\0' !in kind && '\0' !in size && '\0' !in time && '\0' !in name
    ensures '\0' !in Record(kind, size, time, name)
  {}

  lemma ParsesPrinted(e: DirEntry)
    requires Listable(e) && Printed(e).Some?
    ensures ParseRecord(Printed(e).value) == Shown(e)
    ensures '\0' !in Printed(e).value
  {
    hide ParseRecord, Record, Decimal.Print;
    var fi := InfoOf(e).value;
    var size := if fi.isDir then 0 else fi.size;
    PrintIsPlain(size);
    PrintIsPlain(fi.modTime);
    ParsesRecord(fi.isDir, size, fi.modTime, e.name);
    RecordHolds(if fi.isDir then "d" else "f", Decimal.Print(size), Decimal.Print(fi.modTime), e.name);
  }

  /** The records as the listing holds them, the empty one after the last NUL
      left out. */
  function Records(entries: seq<DirEntry>): seq<string> {
    if entries == [] then []
    else
      var before := Records(entries[..|entries| - 1]);
      match Printed(entries[|entries| - 1])
      case None => before
      case Some(rec) => before + [rec]
  }

  function AllShown(entries: seq<DirEntry>): seq<FileEntry> {
    if entries == [] then []
    else
      var before := AllShown(entries[..|entries| - 1]);
      match Shown(entries[|entries| - 1])
      case None => before
      case Some(e) => before + [e]
  }

  lemma {:induction false} JoinLast(parts: seq<string>, last: string, sep: char)
    ensures Join(parts + [last, ""], sep) == Join(parts + [last], sep) + [sep]
  {
    if parts == [] {
      assert [last, ""][1..] == [""];
    } else {
      JoinLast(parts[1..], last, sep);
      assert (parts + [last, ""])[1..] == parts[1..] + [last, ""];
      assert (parts + [last])[1..] == parts[1..] + [last];
    }
  }

  lemma {:induction false} JoinMore(parts: seq<string>, last: string, sep: char)
    ensures Join(parts + [last], sep) == Join(parts + [""], sep) + last
  {
    if parts != [] {
      JoinMore(parts[1..], last, sep);
      assert (parts + [last])[1..] == parts[1..] + [last];
      assert (parts + [""])[1..] == parts[1..] + [""];
    }
  }

  lemma {:induction false} PrintoutIsJoined(entries: seq<DirEntry>)
    requires forall e | e in entries :: Listable(e)
    ensures Printout(entries) == Join(Records(entries) + [""], '\0')
    ensures forall rec | rec in Records(entries) :: '\0' !in rec
    ensures Parsed(Records(entries)) == AllShown(entries)
  {
    if entries != [] {
      var rest, last := entries[..|entries| - 1], entries[|entries| - 1];
      PrintoutIsJoined(rest);
      assert last in entries;
      var before := Records(rest);
      if Printed(last).Some? {
        var rec := Printed(last).value;
        ParsesPrinted(last);
        JoinLast(before, rec, '\0');
        JoinMore(before, rec, '\0');
        assert before + [rec] + [""] == before + [rec, ""];
        assert (before + [rec])[..|before|] == before;
      }
    }
  }

  /** For every sequence of entries with NUL-free names, whatever else the names
      hold, the panel shows the directory as the helper read it: every entry
      that could be read, in order, with its name, kind, time and size. */
  lemma ParserUndoesPrinter(entries: seq<DirEntry>)
    requires forall e | e in entries :: Listable(e)
    ensures Parsed(Split(Printout(entries), '\0')) == AllShown(entries)
  {
    var records := Records(entries) + [""];
    PrintoutIsJoined(entries);
    SplitJoin(records, '\0');
    assert records[..|records| - 1] == Records(entries);
    assert ParseRecord("") == None;
  }

  /** A record as find printed it: the time with a fraction, a directory with a
      size of its own, spaces around the numbers. */
  lemma ParsesFindRecord(dir: bool, size: int, secs: int, fraction: string, name: string)
    requires name != "" && Fits(size) && Fits(secs) && Decimal.AllDigits(fraction)
    ensures ParseRecord(Record(if dir then "d" else "f", Decimal.Print(size), Decimal.Print(secs) + "." + fraction, name))
         == Some(FileEntry(name, if dir then 0 else size, secs, dir))
  {
    hide TrimSpace, SplitN, Record, Decimal.Print, Decimal.Parse;
    var time := Decimal.Print(secs) + "." + fraction;
    PrintIsPlain(size);
    PrintIsPlain(secs);
    Decimal.ParsePrint(size);
    Decimal.ParsePrint(secs);
    Decimal.PrintHolds(secs);
    IndexOfAfter(Decimal.Print(secs), '.', fraction);
    forall c | c in time ensures !IsSpace(c) {
      assert c in Decimal.Print(secs) || c == '.' || c in fraction;
    }
    assert time[0] in time && time[|time| - 1] in time;
    TrimSpaceTrims(time);
    SplitNRecord(if dir then "d" else "f", Decimal.Print(size), time, name);
  }

  // ---- entry by entry ----

  /** What an entry stands in the listing for: what Stat says when it answers,
      through symlinks, or else what Lstat says of the entry itself. */
  predicate Answers(e: DirEntry, fi: Info) { e.stat == Some(fi) || (e.stat.None? && e.lstat == Some(fi)) }

  lemma {:induction false} ShownInOrder(entries: seq<DirEntry>, i: nat, j: nat) returns (k: nat, l: nat)
    requires i < j < |entries| && Shown(entries[i]).Some? && Shown(entries[j]).Some?
    ensures k < l < |AllShown(entries)| && AllShown(entries)[k] == Shown(entries[i]).value
    ensures AllShown(entries)[l] == Shown(entries[j]).value
    decreases |entries|
  {
    hide Shown;
    var n := |entries| - 1;
    var before := AllShown(entries[..n]);
    if j < n {
      k, l := ShownInOrder(entries[..n], i, j);
    } else {
      k := ShownAt(entries[..n], i);
      l := |before|;
    }
  }

  lemma {:induction false} ShownAt(entries: seq<DirEntry>, i: nat) returns (k: nat)
    requires i < |entries| && Shown(entries[i]).Some?
    ensures k < |AllShown(entries)| && AllShown(entries)[k] == Shown(entries[i]).value
    decreases |entries|
  {
    hide Shown;
    var n := |entries| - 1;
    if i < n { k := ShownAt(entries[..n], i); } else { k := |AllShown(entries[..n])|; }
  }

  lemma {:induction false} OnlyShown(entries: seq<DirEntry>, k: nat) returns (i: nat)
    requires k < |AllShown(entries)|
    ensures i < |entries| && Shown(entries[i]) == Some(AllShown(entries)[k])
    decreases |entries|
  {
    hide Shown;
    var n := |entries| - 1;
    var before := AllShown(entries[..n]);
    if k < |before| { i := OnlyShown(entries[..n], k); } else { i := n; }
  }

  predicate Answered(e: DirEntry) { e.stat.Some? || e.lstat.Some? }

  /** What the panel shows for an entry, by what answered for it. */
  predicate ShownAs(f: FileEntry, e: DirEntry) {
    && Answered(e)
    && var fi := if e.stat.Some? then e.stat.value else e.lstat.value;
       f == FileEntry(e.name, if fi.isDir then 0 else fi.size, fi.modTime, fi.isDir)
  }

  lemma ShownMeans(e: DirEntry)
    ensures Shown(e).Some? <==> Answered(e)
    ensures Shown(e).Some? ==> ShownAs(Shown(e).value, e)
  {}

  /** Printed and parsed, a directory shows its entries that answered, in order
      and no others: a symlink as what it leads to, one that leads nowhere as
      itself. */
  lemma ListedEntries(entries: seq<DirEntry>)
    requires forall e | e in entries :: Listable(e)
    ensures var shown := Parsed(Split(Printout(entries), '\0'));
      && (forall f | f in shown :: exists e :: e in entries && ShownAs(f, e))
      && (forall i | 0 <= i < |entries| && Answered(entries[i]) ::
            exists k | 0 <= k < |shown| :: ShownAs(shown[k], entries[i]))
      && (forall i, j | 0 <= i < j < |entries| && Answered(entries[i]) && Answered(entries[j]) ::
            exists k, l | 0 <= k < l < |shown| :: ShownAs(shown[k], entries[i]) && ShownAs(shown[l], entries[j]))
  {
    hide Listable, Parsed, Split, Printout, Shown, ShownAs, AllShown;
    ParserUndoesPrinter(entries);
    var shown := AllShown(entries);
    forall f | f in shown ensures exists e :: e in entries && ShownAs(f, e) {
      var k :| 0 <= k < |shown| && shown[k] == f;
      var i := OnlyShown(entries, k);
      ShownMeans(entries[i]);
      assert entries[i] in entries;
    }
    forall i | 0 <= i < |entries| && Answered(entries[i])
      ensures exists k | 0 <= k < |shown| :: ShownAs(shown[k], entries[i])
    {
      ShownMeans(entries[i]);
      var k := ShownAt(entries, i);
    }
    forall i, j | 0 <= i < j < |entries| && Answered(entries[i]) && Answered(entries[j])
      ensures exists k, l | 0 <= k < l < |shown| :: ShownAs(shown[k], entries[i]) && ShownAs(shown[l], entries[j])
    {
      ShownMeans(entries[i]);
      ShownMeans(entries[j]);
      var k, l := ShownInOrder(entries, i, j);
    }
  }

  /** The record of an entry: its kind, a file's size, the time, the name, and a
      NUL after it. */
  lemma RecordText(e: DirEntry, fi: Info)
    requires Answers(e, fi)
    ensures Printout([e]) ==
              (if fi.isDir then "d\t0" else "f\t" + Decimal.Print(fi.size)) + "\t" + Decimal.Print(fi.modTime) + "\t" + e.name + "\0"
  {
    hide Decimal.Print;
    assert [e][..0] == [] && Printout([]) == "";
    assert Decimal.Print(0) == "0" by { PrintZero(); }
  }

  lemma PrintZero()
    ensures Decimal.Print(0) == "0"
  {}
}
