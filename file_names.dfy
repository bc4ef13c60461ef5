/** The rename step's string work: splitting a path into directory and file
    name, and replacing every "\d{4}-\d{2}-\d{2}" substring of the file name
    by today's date, scanning left to right without overlap (Java's
    `String.replaceAll`; `\d` matches the ASCII digits only). */
module FileNames {
  import opened Text
  import opened Wrappers

  /** w matches the pattern \d{4}-\d{2}-\d{2}. */
  predicate DateShaped(w: string) {
    |w| == 10 && forall k :: 0 <= k < 10 ==> if k == 4 || k == 7 then w[k] == '-' else IsDigit(w[k])
  }

  /** A match of the pattern starts at the beginning of s. */
  predicate StartsWithDate(s: string) {
    |s| >= 10 && DateShaped(s[..10])
  }

  /** Some substring of s matches the pattern. */
  predicate ContainsDate(s: string) {
    exists i :: 0 <= i <= |s| - 10 && StartsWithDate(s[i..])
  }

  /** `s.replaceAll("\\d{4}-\\d{2}-\\d{2}", date)`. */
  function ReplaceDates(s: string, date: string): string
    decreases |s|
  {
    if s == [] then []
    else if StartsWithDate(s) then date + ReplaceDates(s[10..], date)
    else [s[0]] + ReplaceDates(s[1..], date)
  }

  /** The character classes the pattern distinguishes. */
  function Shape(c: char): int {
    if IsDigit(c) then -1 else c as int
  }

  /** a and b agree character by character, except that a digit may stand for another digit. */
  predicate SameShape(a: string, b: string) {
    |a| == |b| && forall k :: 0 <= k < |a| ==> Shape(a[k]) == Shape(b[k])
  }

  /** Whether a match starts at the beginning depends only on the shape. */
  lemma ShapeDecidesMatch(a: string, b: string)
    requires SameShape(a, b)
    ensures StartsWithDate(a) <==> StartsWithDate(b)
  {
    if |a| >= 10 {
      forall k | 0 <= k < 10
        ensures Shape(a[..10][k]) == Shape(b[..10][k])
      {
        assert a[..10][k] == a[k] && b[..10][k] == b[k];
      }
    }
  }

  /** A date-shaped replacement keeps the length and the shape of the name:
      only digits are overwritten, by digits. */
  lemma {:induction false} ReplacePreservesShape(s: string, date: string)
    requires DateShaped(date)
    ensures SameShape(ReplaceDates(s, date), s)
    decreases |s|
  {
    if s == [] {
    } else if StartsWithDate(s) {
      ReplacePreservesShape(s[10..], date);
      var r := ReplaceDates(s, date);
      forall k | 0 <= k < |r|
        ensures Shape(r[k]) == Shape(s[k])
      {
        if k < 10 {
          assert r[k] == date[k] && s[..10][k] == s[k];
        } else {
          assert r[k] == ReplaceDates(s[10..], date)[k - 10];
        }
      }
    } else {
      ReplacePreservesShape(s[1..], date);
      var r := ReplaceDates(s, date);
      forall k | 0 <= k < |r|
        ensures Shape(r[k]) == Shape(s[k])
      {
        if k > 0 {
          assert r[k] == ReplaceDates(s[1..], date)[k - 1];
        }
      }
    }
  }

  /** A name with no date-shaped substring is left unchanged. */
  lemma {:induction false} NoDateUnchanged(s: string, date: string)
    requires !ContainsDate(s)
    ensures ReplaceDates(s, date) == s
    decreases |s|
  {
    if s != [] {
      assert !StartsWithDate(s) by { assert s[0..] == s; }
      forall i | 0 <= i <= |s[1..]| - 10
        ensures !StartsWithDate(s[1..][i..])
      {
        assert s[1..][i..] == s[i + 1..];
      }
      NoDateUnchanged(s[1..], date);
    }
  }

  /** date occurs in r at position i. */
  predicate OccursAt(r: string, date: string, i: int) {
    0 <= i && i + |date| <= |r| && r[i..i + |date|] == date
  }

  /** A name that holds a date-shaped substring gets today's date in it. */
  lemma {:induction false} DateIsInserted(s: string, date: string)
    requires ContainsDate(s)
    ensures exists i :: OccursAt(ReplaceDates(s, date), date, i)
    decreases |s|
  {
    var r := ReplaceDates(s, date);
    if StartsWithDate(s) {
      assert r[0..|date|] == date;
      assert OccursAt(r, date, 0);
    } else {
      var i :| 0 <= i <= |s| - 10 && StartsWithDate(s[i..]);
      assert i != 0 by { assert s[0..] == s; }
      assert s[1..][i - 1..] == s[i..];
      assert ContainsDate(s[1..]);
      DateIsInserted(s[1..], date);
      var t := ReplaceDates(s[1..], date);
      var j :| OccursAt(t, date, j);
      assert r == [s[0]] + t;
      assert r[j + 1..j + 1 + |date|] == t[j..j + |date|];
      assert OccursAt(r, date, j + 1);
    }
  }

  /** For each position of s, its offset inside the match that covers it in the
      left-to-right, non-overlapping scan of replaceAll, or -1 outside every match. */
  function MatchOffsets(s: string): (m: seq<int>)
    ensures |m| == |s|
    decreases |s|
  {
    if s == [] then []
    else if StartsWithDate(s) then seq(10, j => j) + MatchOffsets(s[10..])
    else [-1] + MatchOffsets(s[1..])
  }

  /** At each position the scan's offsets describe whole, date-shaped windows
      of s: a match starts at offset 0 on a date-shaped window, and offsets
      run 0, 1, ..., 9 without gaps. */
  lemma {:induction false} MatchOffsetAt(s: string, k: nat)
    requires k < |s|
    ensures var m := MatchOffsets(s);
            && -1 <= m[k] < 10
            && (m[k] == 0 ==> k + 10 <= |s| && StartsWithDate(s[k..]))
            && (m[k] > 0 ==> 0 < k && m[k - 1] == m[k] - 1)
            && (0 <= m[k] < 9 ==> k + 1 < |s| && m[k + 1] == m[k] + 1)
    decreases |s|
  {
    var m := MatchOffsets(s);
    if StartsWithDate(s) {
      var t := s[10..];
      if k < 10 {
        assert m[k] == k;
        if k + 1 < 10 {
          assert m[k + 1] == k + 1;
        }
        if k > 0 {
          assert m[k - 1] == k - 1;
        }
        assert s[0..] == s;
      } else {
        MatchOffsetAt(t, k - 10);
        assert m[k] == MatchOffsets(t)[k - 10];
        assert s[k..] == t[k - 10..];
        if k + 1 < |s| {
          assert m[k + 1] == MatchOffsets(t)[k - 9];
        }
        if k > 10 {
          assert m[k - 1] == MatchOffsets(t)[k - 11];
        }
      }
    } else {
      var t := s[1..];
      if k == 0 {
        assert m[0] == -1;
      } else {
        MatchOffsetAt(t, k - 1);
        assert m[k] == MatchOffsets(t)[k - 1];
        assert s[k..] == t[k - 1..];
        if k + 1 < |s| {
          assert m[k + 1] == MatchOffsets(t)[k];
        }
        if k > 1 {
          assert m[k - 1] == MatchOffsets(t)[k - 2];
        }
      }
    }
  }

  /** No date-shaped window is left out: the scan covers the start of each. */
  lemma {:induction false} EveryDateMatched(s: string, i: nat)
    requires i + 10 <= |s| && StartsWithDate(s[i..])
    ensures MatchOffsets(s)[i] >= 0
    decreases |s|
  {
    if StartsWithDate(s) {
      if i >= 10 {
        assert s[10..][i - 10..] == s[i..];
        EveryDateMatched(s[10..], i - 10);
      }
    } else {
      assert i != 0 by { assert s[0..] == s; }
      assert s[1..][i - 1..] == s[i..];
      EveryDateMatched(s[1..], i - 1);
    }
  }

  /** replaceAll rewrites exactly the matched windows: each position covered by
      a match holds the date's character at its offset, every other position
      keeps the original character. */
  lemma {:induction false} ReplaceDatesAt(s: string, date: string)
    requires |date| == 10
    ensures |ReplaceDates(s, date)| == |s|
    ensures forall k :: 0 <= k < |s| ==>
              var o := MatchOffsets(s)[k];
              ReplaceDates(s, date)[k] == if 0 <= o < 10 then date[o] else s[k]
    decreases |s|
  {
    var r := ReplaceDates(s, date);
    var m := MatchOffsets(s);
    if s == [] {
    } else if StartsWithDate(s) {
      ReplaceDatesAt(s[10..], date);
      forall k | 0 <= k < |s|
        ensures r[k] == if 0 <= m[k] < 10 then date[m[k]] else s[k]
      {
        if k >= 10 {
          assert r[k] == ReplaceDates(s[10..], date)[k - 10];
          assert m[k] == MatchOffsets(s[10..])[k - 10];
        } else {
          assert r[k] == date[k] && m[k] == k;
        }
      }
    } else {
      ReplaceDatesAt(s[1..], date);
      forall k | 0 <= k < |s|
        ensures r[k] == if 0 <= m[k] < 10 then date[m[k]] else s[k]
      {
        if k >= 1 {
          assert r[k] == ReplaceDates(s[1..], date)[k - 1];
          assert m[k] == MatchOffsets(s[1..])[k - 1];
        }
      }
    }
  }

  /** Hence every date-shaped window of the name, not only the first, is
      overwritten in the result (from its first character on, by the match
      that covers it). */
  lemma EveryDateReplaced(s: string, date: string, i: nat)
    requires |date| == 10 && i + 10 <= |s| && StartsWithDate(s[i..])
    ensures |ReplaceDates(s, date)| == |s|
    ensures var o := MatchOffsets(s)[i];
            0 <= o < 10 && ReplaceDates(s, date)[i] == date[o]
  {
    EveryDateMatched(s, i);
    MatchOffsetAt(s, i);
    ReplaceDatesAt(s, date);
  }

  /** Renaming twice on the same day gives the same name as renaming once. */
  lemma {:induction false} ReplaceIdempotent(s: string, date: string)
    requires DateShaped(date)
    ensures ReplaceDates(ReplaceDates(s, date), date) == ReplaceDates(s, date)
    decreases |s|
  {
    var r := ReplaceDates(s, date);
    if s == [] {
    } else if StartsWithDate(s) {
      ReplaceIdempotent(s[10..], date);
      assert r[..10] == date;
      assert r[10..] == ReplaceDates(s[10..], date);
    } else {
      ReplaceIdempotent(s[1..], date);
      ReplacePreservesShape(s, date);
      ShapeDecidesMatch(r, s);
      assert r == [s[0]] + ReplaceDates(s[1..], date);
      assert r[1..] == ReplaceDates(s[1..], date);
    }
  }

  // ---------------------------------------------------------------------
  // Paths (java.io.File getName / getParent / new File(parent, name))
  // ---------------------------------------------------------------------

  /** The position of the last '/' in p, or -1. */
  function LastSlash(p: string): (i: int)
    ensures -1 <= i < |p|
    ensures i >= 0 ==> p[i] == '/'
    ensures forall k :: i < k < |p| ==> p[k] != '/'
    decreases |p|
  {
    if p == [] then -1
    else if p[|p| - 1] == '/' then |p| - 1
    else LastSlash(p[..|p| - 1])
  }

  /** `getName()`: the part after the last separator. */
  function FileName(p: string): string {
    p[LastSlash(p) + 1..]
  }

  /** `getParent()`: the part before the last separator, or null. */
  function Parent(p: string): Option<string> {
    var i := LastSlash(p);
    if i < 0 then None else Some(p[..i])
  }

  /** `new File(parent, name).getPath()`. */
  function Child(parent: Option<string>, name: string): string {
    match parent
    case None => name
    case Some(dir) => dir + "/" + name
  }

  /** Splitting a path and joining it again gives the path back. */
  lemma SplitJoin(p: string)
    ensures Child(Parent(p), FileName(p)) == p
  {
    var i := LastSlash(p);
    if i >= 0 {
      assert p == p[..i] + [p[i]] + p[i + 1..];
    }
  }

  /** A separator-free name placed beside p is found in p's directory under that name. */
  lemma {:induction false} ChildOfParent(p: string, name: string)
    requires forall k :: 0 <= k < |name| ==> name[k] != '/'
    ensures FileName(Child(Parent(p), name)) == name
    ensures Parent(Child(Parent(p), name)) == Parent(p)
  {
    var q := Child(Parent(p), name);
    match Parent(p)
    case None =>
      assert LastSlash(q) == -1;
    case Some(dir) =>
      var j := |dir|;
      assert q[j] == '/';
      assert forall k :: j < k < |q| ==> q[k] == name[k - j - 1];
      assert LastSlash(q) == j;
      assert q[j + 1..] == name;
      assert q[..j] == dir;
  }

  /** The path the verification file is renamed to: same directory, the file
      name with every date-shaped substring replaced by date. */
  function RenamedPath(p: string, date: string): string {
    Child(Parent(p), ReplaceDates(FileName(p), date))
  }

  /** The file stays in its directory and its new name is the rewritten old name;
      a name without date-shaped substring keeps the whole path. */
  lemma RenamedPathMeaning(p: string, date: Date)
    requires date.Valid()
    ensures DateShaped(date.Iso())
    ensures Parent(RenamedPath(p, date.Iso())) == Parent(p)
    ensures FileName(RenamedPath(p, date.Iso())) == ReplaceDates(FileName(p), date.Iso())
    ensures !ContainsDate(FileName(p)) ==> RenamedPath(p, date.Iso()) == p
  {
    var d := date.Iso();
    var name := FileName(p);
    assert forall k :: 0 <= k < |name| ==> name[k] != '/' by {
      forall k | 0 <= k < |name|
        ensures name[k] != '/'
      {
        assert name[k] == p[LastSlash(p) + 1 + k];
      }
    }
    ReplacePreservesShape(name, d);
    var r := ReplaceDates(name, d);
    forall k | 0 <= k < |r|
      ensures r[k] != '/'
    {
      assert Shape(r[k]) == Shape(name[k]);
    }
    ChildOfParent(p, r);
    if !ContainsDate(name) {
      NoDateUnchanged(name, d);
      SplitJoin(p);
    }
  }

  /** A run of non-digits cannot start a match: it is copied as is. */
  lemma {:induction false} KeepNonDigits(p: string, rest: string, date: string)
    requires forall k :: 0 <= k < |p| ==> !IsDigit(p[k])
    ensures ReplaceDates(p + rest, date) == p + ReplaceDates(rest, date)
    decreases |p|
  {
    if p != [] {
      var s := p + rest;
      assert !StartsWithDate(s) by { assert |s| >= 10 ==> s[..10][0] == p[0]; }
      assert s[0] == p[0] && s[1..] == p[1..] + rest;
      assert ReplaceDates(s, date) == [p[0]] + ReplaceDates(p[1..] + rest, date);
      KeepNonDigits(p[1..], rest, date);
      assert p + ReplaceDates(rest, date) == [p[0]] + (p[1..] + ReplaceDates(rest, date));
    } else {
      assert p + rest == rest;
    }
  }

  /** The renaming example: "verif-2024-01-01.xlsx" renamed on 2024-06-15. */
  lemma RenameExample(name: string, today: Date)
    requires name == "verif-2024-01-01.xlsx" && today == Date(2024, 6, 15)
    ensures ReplaceDates(name, today.Iso()) == "verif-2024-06-15.xlsx"
  {
    ExampleIso();
    ExampleSplit(name);
    ExampleName("verif-", "2024-01-01.xlsx", "2024-06-15");
  }

  /** Two dates separated by a non-digit are both rewritten. */
  lemma {:induction false} TwoDatesReplaced(a: string, sep: char, b: string, date: string)
    requires DateShaped(a) && !IsDigit(sep) && DateShaped(b)
    ensures ReplaceDates(a + [sep] + b, date) == date + [sep] + date
  {
    var s := a + [sep] + b;
    assert s[..10] == a;
    assert s[10..] == [sep] + b;
    KeepNonDigits([sep], b, date);
    assert b[..10] == b && b[10..] == [];
    assert ReplaceDates(b, date) == date + ReplaceDates([], date);
  }

  /** The name of the two-date example. */
  lemma TwoDatesExample(name: string, today: Date)
    requires name == "2024-01-01_2023-02-02" && today == Date(2024, 6, 15)
    ensures ReplaceDates(name, today.Iso()) == "2024-06-15_2024-06-15"
  {
    ExampleIso();
    TwoDatesParts(name);
    TwoDatesReplaced("2024-01-01", '_', "2023-02-02", "2024-06-15");
    TwoDatesJoined("2024-06-15");
  }

  lemma TwoDatesParts(name: string)
    requires name == "2024-01-01_2023-02-02"
    ensures DateShaped("2024-01-01") && DateShaped("2023-02-02")
    ensures name == "2024-01-01" + ['_'] + "2023-02-02"
  {
  }

  lemma TwoDatesJoined(d: string)
    requires d == "2024-06-15"
    ensures d + ['_'] + d == "2024-06-15_2024-06-15"
  {
  }

  lemma ExampleSplit(name: string)
    requires name == "verif-2024-01-01.xlsx"
    ensures "verif-" + "2024-01-01.xlsx" == name
    ensures "verif-" + "2024-06-15.xlsx" == "verif-2024-06-15.xlsx"
  {
  }

  lemma ExampleName(p: string, t: string, d: string)
    requires p == "verif-" && t == "2024-01-01.xlsx" && d == "2024-06-15"
    ensures ReplaceDates(p + t, d) == p + "2024-06-15.xlsx"
  {
    ExampleDate(d);
    KeepNonDigits(p, t, d);
  }

  lemma ExampleIso()
    ensures Date(2024, 6, 15).Iso() == "2024-06-15"
  {
    ExamplePadded();
    ExampleJoin("2024", "06", "15");
  }

  lemma ExamplePadded()
    ensures Padded(2024, 4) == "2024" && Padded(6, 2) == "06" && Padded(15, 2) == "15"
  {
    assert Padded(2024, 4) == "2024";
    assert Padded(6, 2) == "06";
  }

  lemma ExampleJoin(y: string, m: string, d: string)
    requires y == "2024" && m == "06" && d == "15"
    ensures y + "-" + m + "-" + d == "2024-06-15"
  {
  }

  lemma ExampleDate(d: string)
    requires d == "2024-06-15"
    ensures ReplaceDates("2024-01-01.xlsx", d) == "2024-06-15.xlsx"
  {
    var t := "2024-01-01.xlsx";
    assert StartsWithDate(t) by { assert t[..10] == "2024-01-01"; }
    assert t[10..] == ".xlsx";
    assert ReplaceDates(".xlsx", d) == ".xlsx" by {
      assert !ContainsDate(".xlsx");
      NoDateUnchanged(".xlsx", d);
    }
  }
}
