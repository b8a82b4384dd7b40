/** The two parsers of host facts: key-value lines into one map, or into one map per group of lines. */
module FactParsers {
  import opened Common

  type Facts = map<string, string>

  /** White space as the standard library trims it. */
  predicate IsSpace(c: char) {
    || c == ' ' || '\t' <= c <= '\r' || c == '\U{0085}' || c == '\U{00A0}' || c == '\U{1680}'
    || '\U{2000}' <= c <= '\U{200A}' || c == '\U{2028}' || c == '\U{2029}' || c == '\U{202F}'
    || c == '\U{205F}' || c == '\U{3000}'
  }

  predicate Blank(s: string) {
    forall k :: 0 <= k < |s| ==> IsSpace(s[k])
  }

  function TrimLeft(s: string): string {
    if s != "" && IsSpace(s[0]) then TrimLeft(s[1..]) else s
  }

  function TrimRight(s: string): string {
    if s != "" && IsSpace(s[|s| - 1]) then TrimRight(s[..|s| - 1]) else s
  }

  function Trim(s: string): string {
    TrimRight(TrimLeft(s))
  }

  predicate OccursAt(s: string, sep: string, i: int) {
    0 <= i <= |s| - |sep| && s[i..i + |sep|] == sep
  }

  /** The first place at or after `from` where the separator occurs, or -1. */
  function IndexFrom(s: string, sep: string, from: nat): (r: int)
    ensures r == -1 || (r >= from && OccursAt(s, sep, r))
    ensures forall i :: from <= i && (r == -1 || i < r) ==> !OccursAt(s, sep, i)
    decreases |s| - from
  {
    if OccursAt(s, sep, from) then from
    else if from >= |s| then -1
    else IndexFrom(s, sep, from + 1)
  }

  /** A line cut in two at its first separator.  An empty separator cuts after the first character. */
  function SplitTwo(line: string, sep: string): Option<(string, string)> {
    if sep == "" then (if |line| >= 2 then Some((line[..1], line[1..])) else None)
    else
      var i := IndexFrom(line, sep, 0);
      if i == -1 then None else Some((line[..i], line[i + |sep|..]))
  }

  /** The key and value of a line. */
  function Entry(line: string, sep: string): Option<(string, string)> {
    var parts := SplitTwo(line, sep);
    if parts.None? then None else Some((Trim(parts.value.0), Trim(parts.value.1)))
  }

  function Put(m: Facts, e: Option<(string, string)>): Facts {
    if e.None? then m else m[e.value.0 := e.value.1]
  }

  function ToMap(lines: seq<string>, sep: string): Facts {
    if lines == [] then map[] else Put(ToMap(lines[..|lines| - 1], sep), Entry(lines[|lines| - 1], sep))
  }

  /** The groups that are complete and the one under way. */
  datatype Groups = Groups(done: seq<Facts>, current: Facts)

  function Feed(g: Groups, line: string, sep: string): Groups {
    var t := Trim(line);
    if t != "" then g.(current := Put(g.current, Entry(t, sep)))
    else if g.current != map[] then Groups(g.done + [g.current], map[])
    else g
  }

  function FeedAll(g: Groups, lines: seq<string>, sep: string): Groups {
    if lines == [] then g else Feed(FeedAll(g, lines[..|lines| - 1], sep), lines[|lines| - 1], sep)
  }

  function Finish(g: Groups): seq<Facts> {
    if g.current != map[] then g.done + [g.current] else g.done
  }

  function ToSlice(lines: seq<string>, sep: string): seq<Facts> {
    Finish(FeedAll(Groups([], map[]), lines, sep))
  }

  /** The groups laid over each other, later ones on top. */
  function Overlay(groups: seq<Facts>): Facts {
    if groups == [] then map[] else Overlay(groups[..|groups| - 1]) + groups[|groups| - 1]
  }

  // ---------------------------------------------------------------------------------------------
  // The code
  // ---------------------------------------------------------------------------------------------

  /** Line `l` says `k`, separator, `v`: the separator is cut out where it first occurs, and both sides are
      trimmed.  An empty separator cuts after the first character. */
  ghost predicate Says(l: string, sep: string, k: string, v: string) {
    if sep == "" then |l| >= 2 && k == Trim(l[..1]) && v == Trim(l[1..])
    else exists i :: CutAt(l, sep, i) && k == Trim(l[..i]) && v == Trim(l[i + |sep|..])
  }

  ghost predicate CutAt(l: string, sep: string, i: int) {
    OccursAt(l, sep, i) && forall j :: 0 <= j < i ==> !OccursAt(l, sep, j)
  }

  lemma EntrySays(l: string, sep: string, k: string, v: string)
    ensures Entry(l, sep) == Some((k, v)) <==> Says(l, sep, k, v)
  {
    if sep != "" {
      var at := IndexFrom(l, sep, 0);
      assert forall i :: CutAt(l, sep, i) <==> at != -1 && i == at;
    }
  }

  /** Line `i` is the last to say something of `k`. */
  ghost predicate LastSays(lines: seq<string>, sep: string, i: int, k: string, v: string) {
    && 0 <= i < |lines| && Says(lines[i], sep, k, v)
    && forall j, w :: i < j < |lines| ==> !Says(lines[j], sep, k, w)
  }

  ghost predicate Maps(m: Facts, k: string, v: string) {
    k in m && m[k] == v
  }

  lemma {:induction false} MapMeans(lines: seq<string>, sep: string, k: string, v: string)
    ensures Maps(ToMap(lines, sep), k, v) <==> exists i :: LastSays(lines, sep, i, k, v)
  {
    if lines != [] {
      var m := |lines| - 1;
      var rest, last := lines[..m], lines[m];
      MapMeans(rest, sep, k, v);
      assert lines == rest + [last];
      forall w ensures Entry(last, sep) == Some((k, w)) <==> Says(last, sep, k, w) {
        EntrySays(last, sep, k, w);
      }
      var e := Entry(last, sep);
      if e.Some? && e.value.0 == k {
        NewLast(rest, last, lines, sep, k, v, e.value.1);
      } else {
        forall i ensures LastSays(lines, sep, i, k, v) <==> LastSays(rest, sep, i, k, v) {
          SameLast(rest, last, lines, sep, i, k, v);
        }
      }
    }
  }

  lemma NewLast(rest: seq<string>, last: string, lines: seq<string>, sep: string, k: string, v: string, w: string)
    requires lines == rest + [last] && forall x :: Says(last, sep, k, x) <==> x == w
    ensures (exists i :: LastSays(lines, sep, i, k, v)) <==> v == w
  {
    assert lines[|rest|] == last && Says(lines[|rest|], sep, k, w);
    if v == w {
      assert LastSays(lines, sep, |rest|, k, v);
    }
  }

  lemma SameLast(rest: seq<string>, last: string, lines: seq<string>, sep: string, i: int, k: string, v: string)
    requires lines == rest + [last] && forall w :: !Says(last, sep, k, w)
    ensures LastSays(lines, sep, i, k, v) <==> LastSays(rest, sep, i, k, v)
  {
    if LastSays(lines, sep, i, k, v) {
      assert i < |rest| && forall j :: 0 <= j < |rest| ==> rest[j] == lines[j];
    }
  }

  /** A key has the value that the last line with this key gives it. */
  method ConvertBytesToMap(lines: seq<string>, sep: string) returns (config: Facts)
    ensures config == ToMap(lines, sep)
    ensures forall k, v :: Maps(config, k, v) <==> exists i :: LastSays(lines, sep, i, k, v)
  {
    config := map[];
    for i := 0 to |lines|
      invariant config == ToMap(lines[..i], sep)
    {
      assert lines[..i + 1][..i] == lines[..i];
      var parts := SplitTwo(lines[i], sep);
      if parts.Some? {
        config := config[Trim(parts.value.0) := Trim(parts.value.1)];
      }
    }
    assert lines[..|lines|] == lines;
    forall k, v ensures Maps(config, k, v) <==> exists i :: LastSays(lines, sep, i, k, v) {
      MapMeans(lines, sep, k, v);
    }
  }

  method ConvertBytesToSlice(lines: seq<string>, sep: string) returns (config: seq<Facts>)
    ensures config == ToSlice(lines, sep)
  {
    config := [];
    var current: Facts := map[];
    for i := 0 to |lines|
      invariant Groups(config, current) == FeedAll(Groups([], map[]), lines[..i], sep)
    {
      assert lines[..i + 1][..i] == lines[..i];
      var line := Trim(lines[i]);
      if line != "" {
        var parts := SplitTwo(line, sep);
        if parts.Some? {
          current := current[Trim(parts.value.0) := Trim(parts.value.1)];
        }
      } else if |current| > 0 {
        config := config + [current];
        current := map[];
      }
    }
    assert lines[..|lines|] == lines;
    if |current| > 0 {
      config := config + [current];
    }
  }

  // ---------------------------------------------------------------------------------------------
  // Trimming
  // ---------------------------------------------------------------------------------------------

  lemma {:induction false} TrimLeftSpaces(u: string, x: string)
    requires Blank(u)
    ensures TrimLeft(u + x) == TrimLeft(x)
    decreases |u|
  {
    if u == "" {
      assert u + x == x;
    } else {
      assert (u + x)[1..] == u[1..] + x;
      TrimLeftSpaces(u[1..], x);
    }
  }

  lemma {:induction false} TrimRightSpaces(x: string, v: string)
    requires Blank(v)
    ensures TrimRight(x + v) == TrimRight(x)
    decreases |v|
  {
    if v == "" {
      assert x + v == x;
    } else {
      assert (x + v)[..|x + v| - 1] == x + v[..|v| - 1];
      TrimRightSpaces(x, v[..|v| - 1]);
    }
  }

  lemma {:induction false} TrimLeftTail(x: string, v: string)
    ensures if Blank(x) then TrimLeft(x + v) == TrimLeft(v) else TrimLeft(x + v) == TrimLeft(x) + v
    decreases |x|
  {
    if Blank(x) {
      TrimLeftSpaces(x, v);
    } else if IsSpace(x[0]) {
      assert (x + v)[1..] == x[1..] + v;
      assert !Blank(x[1..]) by {
        var k :| 0 <= k < |x| && !IsSpace(x[k]);
        assert x[1..][k - 1] == x[k];
      }
      TrimLeftTail(x[1..], v);
    }
  }

  lemma {:induction false} TrimBlank(s: string)
    requires Blank(s)
    ensures TrimLeft(s) == "" && Trim(s) == ""
  {
    TrimLeftSpaces(s, "");
    assert s + "" == s;
  }

  /** White space around a string does not matter. */
  lemma TrimIgnores(u: string, x: string, v: string)
    requires Blank(u) && Blank(v)
    ensures Trim(u + x + v) == Trim(x)
  {
    assert u + x + v == u + (x + v);
    TrimLeftSpaces(u, x + v);
    TrimLeftTail(x, v);
    if Blank(x) {
      TrimBlank(x);
      TrimBlank(v);
    } else {
      TrimRightSpaces(TrimLeft(x), v);
    }
  }

  lemma {:induction false} TrimLeftParts(s: string) returns (u: string)
    ensures s == u + TrimLeft(s) && Blank(u) && (TrimLeft(s) != "" ==> !IsSpace(TrimLeft(s)[0]))
    decreases |s|
  {
    if s != "" && IsSpace(s[0]) {
      u := TrimLeftParts(s[1..]);
      u := [s[0]] + u;
    } else {
      u := "";
    }
  }

  lemma {:induction false} TrimRightParts(s: string) returns (v: string)
    ensures s == TrimRight(s) + v && Blank(v) && (TrimRight(s) != "" ==> !IsSpace(TrimRight(s)[|TrimRight(s)| - 1]))
    decreases |s|
  {
    if s != "" && IsSpace(s[|s| - 1]) {
      v := TrimRightParts(s[..|s| - 1]);
      v := v + [s[|s| - 1]];
    } else {
      v := "";
    }
  }

  /** A line is its trimmed form with white space on both sides. */
  lemma TrimParts(s: string) returns (u: string, v: string)
    ensures s == u + Trim(s) + v && Blank(u) && Blank(v)
    ensures Trim(s) != "" ==> !IsSpace(Trim(s)[0]) && !IsSpace(Trim(s)[|Trim(s)| - 1])
  {
    u := TrimLeftParts(s);
    v := TrimRightParts(TrimLeft(s));
    if Trim(s) != "" {
      assert TrimLeft(s)[0] == Trim(s)[0];
    }
  }

  // ---------------------------------------------------------------------------------------------
  // A line and its trimmed form
  // ---------------------------------------------------------------------------------------------

  /** The separator begins and ends with something else than white space. */
  predicate Solid(sep: string) {
    sep != "" && !IsSpace(sep[0]) && !IsSpace(sep[|sep| - 1])
  }

  lemma OccursShifted(u: string, t: string, v: string, sep: string, i: int)
    requires Solid(sep) && Blank(u) && Blank(v)
    ensures OccursAt(u + t + v, sep, i) <==> OccursAt(t, sep, i - |u|)
  {
  }

  lemma IndexShifted(u: string, t: string, v: string, sep: string)
    requires Solid(sep) && Blank(u) && Blank(v)
    ensures var k := IndexFrom(t, sep, 0); IndexFrom(u + t + v, sep, 0) == if k == -1 then -1 else k + |u|
  {
    var i, k := IndexFrom(u + t + v, sep, 0), IndexFrom(t, sep, 0);
    OccursShifted(u, t, v, sep, i);
    OccursShifted(u, t, v, sep, k + |u|);
  }

  function Cut(line: string, i: int, n: nat): Option<(string, string)>
    requires -1 <= i <= |line| - n || i == -1
  {
    if i == -1 then None else Some((Trim(line[..i]), Trim(line[i + n..])))
  }

  lemma EntryIsCut(line: string, sep: string)
    requires sep != ""
    ensures Entry(line, sep) == Cut(line, IndexFrom(line, sep, 0), |sep|)
  {
  }

  lemma CutShifted(u: string, t: string, v: string, k: nat, n: nat)
    requires Blank(u) && Blank(v) && k + n <= |t|
    ensures Cut(u + t + v, k + |u|, n) == Cut(t, k, n)
  {
    var line, head, tail := u + t + v, t[..k], t[k + n..];
    assert line[..k + |u|] == u + head + "";
    TrimIgnores(u, head, "");
    assert line[k + |u| + n..] == "" + tail + v;
    TrimIgnores("", tail, v);
  }

  lemma EntryShifted(u: string, t: string, v: string, sep: string)
    requires Solid(sep) && Blank(u) && Blank(v)
    ensures Entry(u + t + v, sep) == Entry(t, sep)
  {
    var k := IndexFrom(t, sep, 0);
    IndexShifted(u, t, v, sep);
    EntryIsCut(u + t + v, sep);
    EntryIsCut(t, sep);
    if k != -1 {
      CutShifted(u, t, v, k, |sep|);
    }
  }

  /** With such a separator a line and its trimmed form have the same entry. */
  lemma EntryOfTrimmed(line: string, sep: string)
    requires Solid(sep)
    ensures Entry(line, sep) == Entry(Trim(line), sep)
  {
    var u, v := TrimParts(line);
    EntryShifted(u, Trim(line), v, sep);
  }

  // ---------------------------------------------------------------------------------------------
  // The parsers agree
  // ---------------------------------------------------------------------------------------------

  lemma {:induction false} FeedIsMap(lines: seq<string>, sep: string)
    requires Solid(sep)
    ensures var g := FeedAll(Groups([], map[]), lines, sep); Overlay(g.done) + g.current == ToMap(lines, sep)
  {
    if lines != [] {
      var rest, line := lines[..|lines| - 1], lines[|lines| - 1];
      FeedIsMap(rest, sep);
      EntryOfTrimmed(line, sep);
      var g := FeedAll(Groups([], map[]), rest, sep);
      if Trim(line) == "" {
        assert (g.done + [g.current])[..|g.done|] == g.done;
        assert Entry("", sep).None?;
      }
    }
  }

  lemma OverlayFinish(g: Groups)
    ensures Overlay(Finish(g)) == Overlay(g.done) + g.current
  {
  }

  lemma {:induction false} NoEmptyGroup(g: Groups, lines: seq<string>, sep: string)
    requires forall m :: m in g.done ==> m != map[]
    ensures forall m :: m in FeedAll(g, lines, sep).done ==> m != map[]
    decreases |lines|
  {
    if lines != [] {
      NoEmptyGroup(g, lines[..|lines| - 1], sep);
    }
  }

  /** No group is empty, for any separator. */
  lemma GroupsNotEmpty(lines: seq<string>, sep: string)
    ensures forall m :: m in ToSlice(lines, sep) ==> m != map[]
  {
    NoEmptyGroup(Groups([], map[]), lines, sep);
  }

  predicate AreLines(lines: seq<string>) {
    forall l :: l in lines ==> '\n' !in l
  }

  /** The two parsers agree on every input. */
  ghost predicate Agree(sep: string) {
    forall lines :: AreLines(lines) ==> Overlay(ToSlice(lines, sep)) == ToMap(lines, sep)
  }

  lemma SolidAgree(lines: seq<string>, sep: string)
    requires Solid(sep)
    ensures Overlay(ToSlice(lines, sep)) == ToMap(lines, sep)
  {
    FeedIsMap(lines, sep);
    OverlayFinish(FeedAll(Groups([], map[]), lines, sep));
  }

  /** A separator with a line break occurs on no line. */
  lemma NoEntry(line: string, sep: string)
    requires '\n' in sep && '\n' !in line
    ensures Entry(line, sep).None?
  {
  }

  lemma {:induction false} NothingParsed(lines: seq<string>, sep: string)
    requires '\n' in sep && AreLines(lines)
    ensures ToMap(lines, sep) == map[] && FeedAll(Groups([], map[]), lines, sep) == Groups([], map[])
  {
    if lines != [] {
      var rest, line := lines[..|lines| - 1], lines[|lines| - 1];
      NothingParsed(rest, sep);
      NoEntry(line, sep);
      var u, v := TrimParts(line);
      NoEntry(Trim(line), sep);
    }
  }

  /** On one line the parsers differ when the line has an entry and its trimmed form has none. */
  lemma OneLine(line: string, sep: string)
    requires Entry(line, sep).Some? && Entry(Trim(line), sep).None?
    ensures Overlay(ToSlice([line], sep)) == map[] != ToMap([line], sep)
  {
    assert [line][..0] == [];
    var e := Entry(line, sep).value;
    assert ToMap([line], sep) == map[e.0 := e.1];
    assert e.0 in ToMap([line], sep);
    assert FeedAll(Groups([], map[]), [line], sep) == Feed(Groups([], map[]), line, sep);
  }

  lemma ShortHasNone(t: string, sep: string)
    requires sep != "" && |t| <= |sep| && t != sep
    ensures Entry(t, sep).None?
  {
  }

  lemma SpaceFirst(sep: string) returns (line: string)
    requires sep != "" && IsSpace(sep[0])
    ensures line == sep + "x" && Entry(line, sep).Some? && Entry(Trim(line), sep).None?
  {
    line := sep + "x";
    assert line[0..|sep|] == sep;
    assert OccursAt(line, sep, 0);
    var u, v := TrimParts(line);
    var t := Trim(line);
    assert line[|line| - 1] == 'x';
    assert v == "";
    assert u != "";
    ShortHasNone(t, sep);
  }

  lemma SpaceLast(sep: string) returns (line: string)
    requires sep != "" && IsSpace(sep[|sep| - 1])
    ensures line == "x" + sep && Entry(line, sep).Some? && Entry(Trim(line), sep).None?
  {
    line := "x" + sep;
    assert line[1..1 + |sep|] == sep;
    assert OccursAt(line, sep, 1);
    var u, v := TrimParts(line);
    var t := Trim(line);
    assert v != "";
    ShortHasNone(t, sep);
  }

  /** The empty separator: a leading space is a key of its own unless the line was trimmed. */
  lemma EmptyDiffers()
    ensures !Agree("")
  {
    var line := " ab";
    assert line[1..] == "ab";
    assert TrimLeft(line) == TrimLeft("ab") == "ab";
    assert Trim(line) == "ab";
    TrimBlank(" ");
    assert line[..1] == " ";
    var e := Entry(line, "").value;
    assert e.0 == "";
    assert [line][..0] == [];
    assert ToMap([line], "") == map[e.0 := e.1];
    var f := Entry("ab", "").value;
    assert "ab"[..1] == "a" && Trim("a") == "a";
    assert f.0 == "a";
    var g := Feed(Groups([], map[]), line, "");
    assert g == Groups([], map[f.0 := f.1]);
    assert FeedAll(Groups([], map[]), [line], "") == g;
    OverlayFinish(g);
    assert f.0 in Overlay(ToSlice([line], "")) && f.0 !in ToMap([line], "");
    assert AreLines([line]);
  }

  /** The two parsers agree on every input if and only if the separator cannot occur on a line at all
      or neither begins nor ends with white space (and is not empty). */
  lemma ParsersAgreeIff(sep: string)
    ensures Agree(sep) <==> '\n' in sep || Solid(sep)
  {
    if Solid(sep) {
      forall lines | AreLines(lines) ensures Overlay(ToSlice(lines, sep)) == ToMap(lines, sep) {
        SolidAgree(lines, sep);
      }
    } else if '\n' in sep {
      forall lines | AreLines(lines) ensures Overlay(ToSlice(lines, sep)) == ToMap(lines, sep) {
        NothingParsed(lines, sep);
      }
    } else if sep == "" {
      EmptyDiffers();
    } else {
      var line;
      if IsSpace(sep[0]) {
        line := SpaceFirst(sep);
      } else {
        line := SpaceLast(sep);
      }
      OneLine(line, sep);
      assert AreLines([line]);
    }
  }

  // ---------------------------------------------------------------------------------------------
  // What the groups are
  // ---------------------------------------------------------------------------------------------

  lemma {:induction false} FeedConcat(g: Groups, l1: seq<string>, l2: seq<string>, sep: string)
    ensures FeedAll(g, l1 + l2, sep) == FeedAll(FeedAll(g, l1, sep), l2, sep)
    decreases |l2|
  {
    if l2 == [] {
      assert l1 + l2 == l1;
    } else {
      assert (l1 + l2)[..|l1 + l2| - 1] == l1 + l2[..|l2| - 1];
      FeedConcat(g, l1, l2[..|l2| - 1], sep);
    }
  }

  lemma {:induction false} FeedDone(done: seq<Facts>, lines: seq<string>, sep: string)
    ensures var g := FeedAll(Groups([], map[]), lines, sep);
            FeedAll(Groups(done, map[]), lines, sep) == Groups(done + g.done, g.current)
    decreases |lines|
  {
    if lines != [] {
      FeedDone(done, lines[..|lines| - 1], sep);
    }
  }

  /** A blank line separates groups: before and after it the lines are parsed on their own. */
  lemma BlankLineSeparates(before: seq<string>, blank: string, after: seq<string>, sep: string)
    requires Blank(blank)
    ensures ToSlice(before + [blank] + after, sep) == ToSlice(before, sep) + ToSlice(after, sep)
  {
    var start := Groups([], map[]);
    TrimBlank(blank);
    FeedConcat(start, before + [blank], after, sep);
    assert (before + [blank])[..|before|] == before;
    var g := FeedAll(start, before + [blank], sep);
    assert g == Groups(ToSlice(before, sep), map[]);
    FeedDone(g.done, after, sep);
  }

  function TrimAll(lines: seq<string>): seq<string> {
    seq(|lines|, i requires 0 <= i < |lines| => Trim(lines[i]))
  }

  lemma {:induction false} GroupOfTrimmed(lines: seq<string>, sep: string)
    requires forall l :: l in lines ==> !Blank(l)
    ensures FeedAll(Groups([], map[]), lines, sep) == Groups([], ToMap(TrimAll(lines), sep))
  {
    if lines != [] {
      var rest, line := lines[..|lines| - 1], lines[|lines| - 1];
      GroupOfTrimmed(rest, sep);
      assert TrimAll(lines)[..|lines| - 1] == TrimAll(rest);
      var u, v := TrimParts(line);
      assert line in lines;
    }
  }

  /** That group is the map of the trimmed lines; and of the lines themselves if the separator neither begins nor
      ends with white space. */
  lemma OneGroupIsMap(lines: seq<string>, sep: string)
    requires forall l :: l in lines ==> !Blank(l)
    ensures var m := ToMap(TrimAll(lines), sep); ToSlice(lines, sep) == if m == map[] then [] else [m]
    ensures Solid(sep) ==> ToMap(TrimAll(lines), sep) == ToMap(lines, sep)
  {
    GroupOfTrimmed(lines, sep);
    if Solid(sep) {
      FeedIsMap(lines, sep);
      assert Overlay([]) + ToMap(TrimAll(lines), sep) == ToMap(TrimAll(lines), sep);
    }
  }
}
