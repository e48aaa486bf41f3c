/** The long-term memory text placed in the system prompt (`load_memories`,
    Python/syconUI.py, lines 83-99). Listing the memory folder and reading
    the JSON files are inputs: the listing is the names `os.listdir` gives,
    in any order, and `records` holds the parsed `(timestamp, summary)` of
    every file that could be opened and parsed; a name missing from
    `records` is a file whose read failed and was skipped. */
module MemoryStore {
  import opened Text

  /** The two fields of a saved memory that the prompt shows. */
  datatype Record = Record(timestamp: string, summary: string)

  const Header: string := "PAST MEMORIES:\n"
  const NoMemories: string := "No previous memories."
  const JsonSuffix: string := ".json"

  /** How many of the newest names are read (`files[-3:]`). */
  const WindowSize: nat := 3

  /** Python's `<=` on strings: code-point lexicographic order. */
  predicate LexLe(a: string, b: string)
    decreases |a|
  {
    a == [] || (b != [] && (a[0] < b[0] || (a[0] == b[0] && LexLe(a[1..], b[1..]))))
  }

  lemma {:induction false} LexLeTotal(a: string, b: string)
    ensures LexLe(a, b) || LexLe(b, a)
    decreases |a|
  {
    if a != [] && b != [] && a[0] == b[0] {
      LexLeTotal(a[1..], b[1..]);
    }
  }

  lemma {:induction false} LexLeAntisymmetric(a: string, b: string)
    requires LexLe(a, b) && LexLe(b, a)
    ensures a == b
    decreases |a|
  {
    if a != [] {
      LexLeAntisymmetric(a[1..], b[1..]);
      assert a == [a[0]] + a[1..] && b == [b[0]] + b[1..];
    }
  }

  lemma {:induction false} LexLeTransitive(a: string, b: string, c: string)
    requires LexLe(a, b) && LexLe(b, c)
    ensures LexLe(a, c)
    decreases |a|
  {
    if a != [] && a[0] == b[0] && b[0] == c[0] {
      LexLeTransitive(a[1..], b[1..], c[1..]);
    }
  }

  /** Ascending order, as `sorted` leaves it. */
  predicate Sorted(s: seq<string>) {
    forall i, j :: 0 <= i < j < |s| ==> LexLe(s[i], s[j])
  }

  /** Put `x` into a sorted list in front of the first name it does not
      follow. */
  function Insert(x: string, s: seq<string>): (r: seq<string>)
    requires Sorted(s)
    ensures Sorted(r)
    ensures |r| == |s| + 1
    ensures multiset(r) == multiset(s) + multiset{x}
    decreases |s|
  {
    if s == [] then [x]
    else if LexLe(x, s[0]) then
      InsertFront(x, s);
      [x] + s
    else
      var t := Insert(x, s[1..]);
      LexLeTotal(x, s[0]);
      InsertBehind(s[0], x, s[1..], t);
      assert s == [s[0]] + s[1..];
      [s[0]] + t
  }

  lemma InsertFront(x: string, s: seq<string>)
    requires Sorted(s) && s != [] && LexLe(x, s[0])
    ensures Sorted([x] + s)
  {
    var r := [x] + s;
    forall i, j | 0 <= i < j < |r| ensures LexLe(r[i], r[j]) {
      if i == 0 && j > 1 {
        LexLeTransitive(x, s[0], s[j - 1]);
      }
    }
  }

  lemma InsertBehind(h: string, x: string, s: seq<string>, t: seq<string>)
    requires Sorted([h] + s) && LexLe(h, x)
    requires Sorted(t) && multiset(t) == multiset(s) + multiset{x}
    ensures Sorted([h] + t)
  {
    var r := [h] + t;
    forall i, j | 0 <= i < j < |r| ensures LexLe(r[i], r[j]) {
      if i > 0 {
        assert r[i] == t[i - 1] && r[j] == t[j - 1];
      } else {
        var y := t[j - 1];
        assert r[i] == h && r[j] == y;
        assert y in multiset(t);
        if y != x {
          assert y in multiset(s);
          var k :| 0 <= k < |s| && s[k] == y;
          assert ([h] + s)[0] == h && ([h] + s)[k + 1] == y;
        }
      }
    }
  }

  /** Python's `sorted(files)`. */
  function Sort(s: seq<string>): (r: seq<string>)
    ensures Sorted(r)
    ensures |r| == |s|
    ensures multiset(r) == multiset(s)
    decreases |s|
  {
    if s == [] then []
    else
      assert s == [s[0]] + s[1..];
      Insert(s[0], Sort(s[1..]))
  }

  /** Two ascending lists of the same names are the same list. */
  lemma {:induction false} SortedUnique(a: seq<string>, b: seq<string>)
    requires Sorted(a) && Sorted(b) && multiset(a) == multiset(b)
    ensures a == b
    decreases |a|
  {
    if a == [] {
      assert |b| == |multiset(b)| == 0;
    } else {
      assert b != [] by {
        assert a[0] in multiset(b);
      }
      SameLeast(a, b);
      SameRest(a, b);
      SortedTail(a);
      SortedTail(b);
      SortedUnique(a[1..], b[1..]);
      assert a == [a[0]] + a[1..] && b == [b[0]] + b[1..];
    }
  }

  /** Two ascending lists of the same names start with the same name. */
  lemma SameLeast(a: seq<string>, b: seq<string>)
    requires Sorted(a) && Sorted(b) && multiset(a) == multiset(b) && a != [] && b != []
    ensures a[0] == b[0]
  {
    assert a[0] in multiset(b);
    var j :| 0 <= j < |b| && b[j] == a[0];
    assert b[0] in multiset(a);
    var i :| 0 <= i < |a| && a[i] == b[0];
    if a[0] != b[0] {
      assert LexLe(b[0], b[j]);
      assert LexLe(a[0], a[i]);
      LexLeAntisymmetric(a[0], b[0]);
    }
  }

  lemma SameRest(a: seq<string>, b: seq<string>)
    requires a != [] && b != [] && a[0] == b[0] && multiset(a) == multiset(b)
    ensures multiset(a[1..]) == multiset(b[1..])
  {
    assert a == [a[0]] + a[1..];
    assert b == [b[0]] + b[1..];
    assert multiset(a[1..]) == multiset(a) - multiset{a[0]};
    assert multiset(b[1..]) == multiset(b) - multiset{b[0]};
  }

  lemma SortedTail(s: seq<string>)
    requires Sorted(s) && s != []
    ensures Sorted(s[1..])
  {
    forall i, j | 0 <= i < j < |s| - 1 ensures LexLe(s[1..][i], s[1..][j]) {
      assert LexLe(s[i + 1], s[j + 1]);
    }
  }

  /** `files[-3:]`: the newest names of a sorted listing, at most three. */
  function Recent(files: seq<string>): (w: seq<string>)
    ensures |w| == if |files| < WindowSize then |files| else WindowSize
    ensures EndsWith(files, w)
  {
    if |files| <= WindowSize then files else files[|files| - WindowSize..]
  }

  /** The line a name contributes: a `.json` name that was read shows its
      record, any other name shows nothing. */
  function Entry(f: string, records: map<string, Record>): (r: string)
    ensures r == [] <==> !(EndsWith(f, JsonSuffix) && f in records)
    ensures r != [] ==> IsPrefix("[" + records[f].timestamp + "] ", r)
    ensures r != [] ==> EndsWith(r, records[f].summary + "\n")
    ensures r != [] ==> |r| == |records[f].timestamp| + |records[f].summary| + 4
  {
    if EndsWith(f, JsonSuffix) && f in records then
      "[" + records[f].timestamp + "] " + records[f].summary + "\n"
    else
      []
  }

  /** The lines of several names, in order. */
  function Entries(fs: seq<string>, records: map<string, Record>): string
    decreases |fs|
  {
    if fs == [] then [] else Entry(fs[0], records) + Entries(fs[1..], records)
  }

  /** `load_memories`. */
  function LoadMemories(listing: seq<string>, records: map<string, Record>): (m: string)
    ensures listing == [] <==> m == NoMemories
    ensures listing != [] ==> m == Header + Entries(Recent(Sort(listing)), records)
  {
    var files := Sort(listing);
    if files == [] then NoMemories
    else
      var m := Header + Entries(Recent(files), records);
      assert m[0] == Header[0] != NoMemories[0];
      m
  }

  /** The order in which the folder lists its files does not matter. */
  lemma OrderIrrelevant(l1: seq<string>, l2: seq<string>, records: map<string, Record>)
    requires multiset(l1) == multiset(l2)
    ensures LoadMemories(l1, records) == LoadMemories(l2, records)
  {
    SortedUnique(Sort(l1), Sort(l2));
  }

  /** Only the three newest names can show a memory: records of any other
      file make no difference. */
  lemma OnlyRecentMatter(listing: seq<string>, r1: map<string, Record>, r2: map<string, Record>)
    requires forall f :: f in Recent(Sort(listing)) ==> Entry(f, r1) == Entry(f, r2)
    ensures LoadMemories(listing, r1) == LoadMemories(listing, r2)
  {
    EntriesAgree(Recent(Sort(listing)), r1, r2);
  }

  lemma {:induction false} EntriesAgree(fs: seq<string>, r1: map<string, Record>, r2: map<string, Record>)
    requires forall f :: f in fs ==> Entry(f, r1) == Entry(f, r2)
    ensures Entries(fs, r1) == Entries(fs, r2)
    decreases |fs|
  {
    if fs != [] {
      assert fs[0] in fs;
      assert forall f :: f in fs[1..] ==> f in fs;
      EntriesAgree(fs[1..], r1, r2);
    }
  }

  /** A newest name that is not a memory file still takes one of the three
      places, so at most the two names before it can show memories. */
  lemma NonMemoryTakesSlot(listing: seq<string>, records: map<string, Record>)
    requires |listing| >= WindowSize
    requires var files := Sort(listing); !EndsWith(files[|files| - 1], JsonSuffix)
    ensures var files := Sort(listing);
      LoadMemories(listing, records) == Header + Entries(files[|files| - 3..|files| - 1], records)
  {
    var files := Sort(listing);
    var e := Entries(Recent(files), records);
    assert LoadMemories(listing, records) == Header + e;
    RecentWithoutLast(files, records);
    assert e == Entries(files[|files| - 3..|files| - 1], records);
  }

  lemma RecentWithoutLast(files: seq<string>, records: map<string, Record>)
    requires |files| >= WindowSize && !EndsWith(files[|files| - 1], JsonSuffix)
    ensures Entries(Recent(files), records) == Entries(files[|files| - 3..|files| - 1], records)
  {
    var n := |files|;
    var x := files[n - 3..n - 1];
    var f := files[n - 1];
    LastOfWindow(files);
    EntriesSnoc(x, f, records);
    assert Entry(f, records) == [];
    assert Entries(x, records) + [] == Entries(x, records);
  }

  lemma LastOfWindow(files: seq<string>)
    requires |files| >= WindowSize
    ensures Recent(files) == files[|files| - 3..|files| - 1] + [files[|files| - 1]]
  {
  }

  lemma {:induction false} EntriesSnoc(fs: seq<string>, f: string, records: map<string, Record>)
    ensures Entries(fs + [f], records) == Entries(fs, records) + Entry(f, records)
    decreases |fs|
  {
    if fs == [] {
      assert [] + [f] == [f];
      assert Entries([f], records) == Entry(f, records) + Entries([], records);
    } else {
      assert (fs + [f])[1..] == fs[1..] + [f];
      EntriesSnoc(fs[1..], f, records);
      AppendAssoc(Entry(fs[0], records), Entries(fs[1..], records), Entry(f, records));
    }
  }
}
