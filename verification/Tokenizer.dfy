/** The two tokenizers, the joiner that undoes them, and what they agree on. */
module Tokenizer {
  import opened Text

  /** A text cut at the first occurrence of a delimiter. */
  datatype Cut = Whole | Parts(head: string, tail: string)

  function CutAt(s: string, d: string): (r: Cut)
    requires d != ""
    ensures r.Whole? <==> Find(s, d, 0).None?
    ensures r.Parts? ==> s == r.head + d + r.tail && |r.tail| < |s|
  {
    match Find(s, d, 0)
    case None => Whole
    case Some(k) => Parts(s[..k], s[k + |d|..])
  }

  /** The pieces of `s` between the occurrences of `d`, found from left to right. */
  function SplitAll(s: string, d: string): (parts: seq<string>)
    requires d != ""
    ensures |parts| >= 1
    decreases |s|
  {
    match CutAt(s, d)
    case Whole => [s]
    case Parts(head, tail) => [head] + SplitAll(tail, d)
  }

  ghost predicate FreeOf(parts: seq<string>, d: string) {
    forall p <- parts :: !Contains(p, d)
  }

  lemma HeadFree(s: string, d: string)
    requires d != ""
    ensures CutAt(s, d).Whole? ==> !Contains(s, d)
    ensures CutAt(s, d).Parts? ==> !Contains(CutAt(s, d).head, d)
  {
    if CutAt(s, d).Parts? {
      var k := |CutAt(s, d).head|;
      forall i ensures !OccursAt(d, s[..k], i) {
        if 0 <= i && i + |d| <= k {
          assert s[..k][i..i + |d|] == s[i..i + |d|];
          assert !OccursAt(d, s, i);
        }
      }
    }
  }

  /** No piece contains the delimiter. */
  lemma {:induction false} SplitFree(s: string, d: string)
    requires d != ""
    ensures FreeOf(SplitAll(s, d), d) && FreeOf(Split(s, d), d)
    decreases |s|
  {
    hide CutAt;
    HeadFree(s, d);
    if CutAt(s, d).Parts? {
      SplitFree(CutAt(s, d).tail, d);
    }
  }

  /** The parts in order with `d` between neighbours. */
  function Join(parts: seq<string>, d: string): string {
    if |parts| == 0 then ""
    else if |parts| == 1 then parts[0]
    else parts[0] + d + Join(parts[1..], d)
  }

  /** 42's variant: one trailing empty piece is dropped. */
  function Split(s: string, d: string): (parts: seq<string>)
    requires d != ""
  {
    var all := SplitAll(s, d);
    if all[|all| - 1] == "" then all[..|all| - 1] else all
  }

  lemma {:induction false} JoinSnoc(parts: seq<string>, p: string, d: string)
    ensures Join(parts + [p], d) == if parts == [] then p else Join(parts, d) + d + p
  {
    if |parts| == 0 {
      assert parts + [p] == [p];
    } else {
      assert (parts + [p])[1..] == parts[1..] + [p];
      JoinSnoc(parts[1..], p, d);
      if |parts| > 1 {
        var t := Join(parts[1..], d);
        assert parts[0] + d + (t + d + p) == (parts[0] + d + t) + d + p;
      } else {
        assert parts[0] + d + p == Join(parts, d) + d + p;
      }
    }
  }

  /** Joining what a split gave restores the text, for every delimiter. */
  lemma {:induction false} JoinOfSplit(s: string, d: string)
    requires d != ""
    ensures Join(SplitAll(s, d), d) == s
    decreases |s|
  {
    hide CutAt;
    match CutAt(s, d)
    case Whole =>
    case Parts(head, tail) =>
      JoinOfSplit(tail, d);
      JoinCons(head, SplitAll(tail, d), d);
  }

  lemma JoinCons(p: string, parts: seq<string>, d: string)
    requires parts != []
    ensures Join([p] + parts, d) == p + d + Join(parts, d)
  {
    assert ([p] + parts)[1..] == parts;
  }

  /** No proper prefix of `d` is also a suffix of it. */
  ghost predicate Unbordered(d: string) {
    forall k :: 0 < k < |d| ==> d[..k] != d[|d| - k..]
  }

  /** After a part free of an unbordered `d`, the first `d` is the one that follows it. */
  lemma FirstDelimiter(p: string, d: string, rest: string)
    requires d != "" && Unbordered(d) && !Contains(p, d)
    ensures CutAt(p + d + rest, d) == Parts(p, rest)
  {
    var s := p + d + rest;
    assert s[|p|..|p| + |d|] == d;
    forall i | 0 <= i < |p| ensures !OccursAt(d, s, i) {
      NoEarlierDelimiter(p, d, rest, i);
    }
    FindIs(s, d, 0, |p|);
  }

  lemma NoEarlierDelimiter(p: string, d: string, rest: string, i: nat)
    requires d != "" && Unbordered(d) && !Contains(p, d) && i < |p|
    ensures !OccursAt(d, p + d + rest, i)
  {
    var s := p + d + rest;
    if i + |d| <= |p| {
      assert s[i..i + |d|] == p[i..i + |d|];
      assert !OccursAt(d, p, i);
    } else {
      var k := i + |d| - |p|;
      assert s[i..i + |d|][|d| - k..] == d[..k];
    }
  }

  lemma {:induction false} SplitOfJoin(parts: seq<string>, d: string)
    requires d != "" && Unbordered(d) && |parts| >= 1 && FreeOf(parts, d)
    ensures SplitAll(Join(parts, d), d) == parts
  {
    hide CutAt, Unbordered, Contains;
    assert parts[0] in parts;
    if |parts| == 1 {
      WholeIffFree(parts[0], d);
    } else {
      var first, others := parts[0], parts[1..];
      assert FreeOf(others, d);
      SplitOfJoin(others, d);
      FirstDelimiter(first, d, Join(others, d));
    }
  }

  lemma WholeIffFree(s: string, d: string)
    requires d != ""
    ensures CutAt(s, d).Whole? <==> !Contains(s, d)
  {
    HeadFree(s, d);
  }

  /** With a bordered delimiter there are parts that a join does not keep apart. */
  lemma BorderedLosesParts(d: string)
    requires d != "" && !Unbordered(d)
    ensures exists parts: seq<string> :: |parts| >= 1 && FreeOf(parts, d) && SplitAll(Join(parts, d), d) != parts
  {
    var k :| 0 < k < |d| && d[..k] == d[|d| - k..];
    var p := d[..|d| - k];
    var parts := [p, ""];
    assert FreeOf(parts, d);
    JoinCons(p, [""], d);
    assert [p] + [""] == parts;
    BorderedOccursEarly(d, k);
    assert p + d + "" == p + d;
    assert SplitAll(p + d, d)[0] == "";
  }

  lemma BorderedOccursEarly(d: string, k: nat)
    requires 0 < k < |d| && d[..k] == d[|d| - k..]
    ensures CutAt(d[..|d| - k] + d, d).Parts? && CutAt(d[..|d| - k] + d, d).head == ""
  {
    var p := d[..|d| - k];
    var s := p + d;
    assert s[..|d|] == p + d[..k];
    assert p + d[|d| - k..] == d;
    FindIs(s, d, 0, 0);
  }

  /** Splitting undoes joining, on all parts free of the delimiter, exactly for the unbordered delimiters. */
  lemma SplitUndoesJoinIff(d: string)
    requires d != ""
    ensures Unbordered(d) <==>
            forall parts: seq<string> :: |parts| >= 1 && FreeOf(parts, d) ==> SplitAll(Join(parts, d), d) == parts
  {
    if Unbordered(d) {
      forall parts: seq<string> | |parts| >= 1 && FreeOf(parts, d)
        ensures SplitAll(Join(parts, d), d) == parts
      {
        SplitOfJoin(parts, d);
      }
    } else {
      BorderedLosesParts(d);
    }
  }

  lemma DelimitersInUse()
    ensures Unbordered(" ") && Unbordered(CRLF) && Unbordered(":") && Unbordered("@") && Unbordered(",")
    ensures Unbordered("\n")
  {
    assert forall k :: 0 < k < |CRLF| ==> CRLF[..k] == ['\r'] && CRLF[|CRLF| - k..] == ['\n'];
  }

  /** What 42's split loses: joined again, its pieces give the text less at most one trailing delimiter. */
  lemma JoinOfSplit42(s: string, d: string)
    requires d != ""
    ensures var j := Join(Split(s, d), d); j == s || j + d == s
    ensures Split(s, d) == [] <==> s == ""
  {
    hide SplitAll, CutAt, Join, Find;
    JoinOfSplit(s, d);
    var all := SplitAll(s, d);
    var init, last := all[..|all| - 1], all[|all| - 1];
    assert all == init + [last];
    JoinSnoc(init, last, d);
    JoinNothing(d);
    if s == "" {
      SplitEmpty(d);
    }
  }

  lemma JoinNothing(d: string)
    ensures Join([], d) == ""
  {
  }

  lemma SplitEmpty(d: string)
    requires d != ""
    ensures SplitAll("", d) == [""]
  {
  }

  /** A text without the delimiter is its own only piece. */
  lemma SplitWhole(s: string, d: string)
    requires d != ""
    ensures !Contains(s, d) <==> SplitAll(s, d) == [s]
    ensures !Contains(s, d) ==> Split(s, d) == if s == "" then [] else [s]
  {
    hide CutAt, Contains;
    WholeIffFree(s, d);
  }

  lemma SplitStep(s: string, d: string)
    requires d != ""
    ensures match Find(s, d, 0)
            case None => SplitAll(s, d) == [s]
            case Some(k) => SplitAll(s, d) == [s[..k]] + SplitAll(s[k + |d|..], d)
  {
    hide Find, OccursAt, Absent;
  }

  lemma Regroup(before: seq<string>, piece: string, after: seq<string>)
    ensures before + [piece] + after == before + ([piece] + after)
  {
  }

  /** `splitString`: cuts the first piece off the front until no delimiter is left. */
  method SplitString(text: string, delimiter: string) returns (parts: seq<string>)
    requires delimiter != ""
    ensures parts == SplitAll(text, delimiter)
  {
    hide *;
    var str := text;
    parts := [];
    var pos := Find(str, delimiter, 0);
    while pos.Some?
      invariant pos == Find(str, delimiter, 0)
      invariant parts + SplitAll(str, delimiter) == SplitAll(text, delimiter)
      decreases |str|
    {
      var token := str[..pos.value];
      SplitStep(str, delimiter);
      Regroup(parts, token, SplitAll(str[pos.value + |delimiter|..], delimiter));
      parts := parts + [token];
      str := str[pos.value + |delimiter|..];
      pos := Find(str, delimiter, 0);
    }
    SplitStep(str, delimiter);
    parts := parts + [str];
  }

  /** One step of the scan from an index, seen as a cut of the suffix. */
  lemma CutFromIndex(s: string, d: string, start: nat)
    requires d != "" && start <= |s|
    ensures match Find(s, d, start)
            case None => CutAt(s[start..], d) == Whole
            case Some(k) => CutAt(s[start..], d) == Parts(s[start..k], s[k + |d|..])
  {
    FindInSuffix(s, d, start);
    if Find(s, d, start).Some? {
      DropOfDrop(s, start, Find(s, d, start).value - start, |d|);
    }
  }

  lemma DropOfDrop(s: string, start: nat, k: nat, n: nat)
    requires start + k + n <= |s|
    ensures s[start..][..k] == s[start..start + k]
    ensures s[start..][k + n..] == s[start + k + n..]
  {
  }

  lemma SplitFromIndex(s: string, d: string, start: nat)
    requires d != "" && start <= |s|
    ensures match Find(s, d, start)
            case None => SplitAll(s[start..], d) == [s[start..]]
            case Some(k) => SplitAll(s[start..], d) == [s[start..k]] + SplitAll(s[k + |d|..], d)
  {
    hide CutAt, Find, OccursAt, Absent;
    CutFromIndex(s, d, start);
  }

  lemma SplitEndsWith(s: string, d: string, before: seq<string>, last: string)
    requires d != "" && SplitAll(s, d) == before + [last]
    ensures Split(s, d) == if last == "" then before else before + [last]
  {
  }

  /** `Utils::split`: scans by index and leaves out a trailing empty piece. */
  method ScanSplit(s: string, delim: string) returns (elems: seq<string>)
    requires delim != ""
    ensures elems == Split(s, delim)
  {
    hide *;
    elems := [];
    var start := 0;
    assert s[start..] == s;
    var end := Find(s, delim, 0);
    while end.Some?
      invariant start <= |s|
      invariant end == Find(s, delim, start)
      invariant elems + SplitAll(s[start..], delim) == SplitAll(s, delim)
      decreases |s| - start
    {
      SplitFromIndex(s, delim, start);
      Regroup(elems, s[start..end.value], SplitAll(s[end.value + |delim|..], delim));
      elems := elems + [s[start..end.value]];
      start := end.value + |delim|;
      end := Find(s, delim, start);
    }
    SplitFromIndex(s, delim, start);
    SplitEndsWith(s, delim, elems, s[start..]);
    if s[start..] != "" {
      elems := elems + [s[start..]];
    }
  }

  /** `merge_privmsg`: the accumulating joiner. */
  method Merge(parts: seq<string>, delim: string) returns (result: string)
    ensures result == Join(parts, delim)
  {
    result := "";
    for i := 0 to |parts|
      invariant result == Join(parts[..i], delim)
    {
      assert parts[..i + 1] == parts[..i] + [parts[i]];
      JoinSnoc(parts[..i], parts[i], delim);
      if i > 0 {
        result := result + delim;
      }
      result := result + parts[i];
    }
    assert parts[..|parts|] == parts;
  }

  /** Appending to a text extends its last piece, for a one-character delimiter. */
  lemma {:induction false} SplitAppend(s: string, c: char, tail: string)
    ensures var all := SplitAll(s, [c]);
            SplitAll(s + tail, [c]) == all[..|all| - 1] + SplitAll(all[|all| - 1] + tail, [c])
    decreases |s|
  {
    hide *;
    match CutAt(s, [c])
    case Whole =>
      SplitWholeText(s, [c]);
    case Parts(head, rest) =>
      SplitAppend(rest, c, tail);
      CharUnbordered(c);
      HeadFree(s, [c]);
      FirstDelimiter(head, [c], rest + tail);
      assert s + tail == head + [c] + (rest + tail);
      SplitParts(s, [c], head, rest);
      SplitParts(s + tail, [c], head, rest + tail);
      var all := SplitAll(rest, [c]);
      ConsInit(head, all);
      RegroupInit(head, all, SplitAll(all[|all| - 1] + tail, [c]));
  }

  lemma SplitParts(s: string, d: string, head: string, tail: string)
    requires d != "" && CutAt(s, d) == Parts(head, tail)
    ensures SplitAll(s, d) == [head] + SplitAll(tail, d)
  {
    hide CutAt;
  }

  lemma SplitWholeText(s: string, d: string)
    requires d != "" && CutAt(s, d) == Whole
    ensures SplitAll(s, d) == [s] && forall more: seq<string> :: [s][..0] + more == more
  {
    hide CutAt;
  }

  lemma RegroupInit(head: string, all: seq<string>, last: seq<string>)
    requires all != []
    ensures [head] + all[..|all| - 1] + last == [head] + (all[..|all| - 1] + last)
  {
  }

  lemma CharUnbordered(c: char)
    ensures Unbordered([c])
  {
  }

  lemma ConsInit(head: string, all: seq<string>)
    requires all != []
    ensures ([head] + all)[..|all|] == [head] + all[..|all| - 1] && ([head] + all)[|all|] == all[|all| - 1]
  {
  }
}
