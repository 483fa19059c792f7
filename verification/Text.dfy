/** Strings as the C++ programs use them: searching, trimming, folding case. */
module Text {

  datatype Option<+T> = None | Some(value: T)

  const CRLF: string := "\r\n"

  /** The values of an `int`. */
  type Int32 = v: int | -0x8000_0000 <= v < 0x8000_0000

  /** `p` stands in `s` at index `i`. */
  predicate OccursAt(p: string, s: string, i: int) {
    0 <= i && i + |p| <= |s| && s[i..i + |p|] == p
  }

  /** `p` stands at no index of `s` from `lo` up to `hi`. */
  ghost predicate Absent(p: string, s: string, lo: int, hi: int) {
    forall i :: lo <= i < hi ==> !OccursAt(p, s, i)
  }

  /** `p` stands somewhere in `s`. */
  ghost predicate Contains(s: string, p: string) {
    exists i :: OccursAt(p, s, i)
  }

  /** `s.find(p, from)`: the first index at or after `from` where `p` stands. */
  function Find(s: string, p: string, from: nat): (r: Option<nat>)
    ensures r.Some? ==> from <= r.value && r.value + |p| <= |s| && OccursAt(p, s, r.value)
    ensures Absent(p, s, from, if r.Some? then r.value else |s| + 1)
    decreases |s| - from
  {
    if from + |p| > |s| then None
    else if OccursAt(p, s, from) then Some(from)
    else Find(s, p, from + 1)
  }

  /** The first occurrence is the only index with the contract of `Find`. */
  lemma FindIs(s: string, p: string, from: nat, k: nat)
    requires from <= k && OccursAt(p, s, k)
    requires Absent(p, s, from, k)
    ensures Find(s, p, from) == Some(k)
  {
  }

  lemma OccursInSuffix(s: string, p: string, from: nat, i: nat)
    requires from <= |s|
    ensures OccursAt(p, s[from..], i) <==> OccursAt(p, s, from + i)
  {
    if from + i + |p| <= |s| {
      assert s[from..][i..i + |p|] == s[from + i..from + i + |p|];
    }
  }

  /** Searching from an index is searching in the suffix. */
  lemma FindInSuffix(s: string, p: string, from: nat)
    requires from <= |s|
    ensures Find(s[from..], p, 0).None? <==> Find(s, p, from).None?
    ensures Find(s, p, from).Some? ==> Find(s[from..], p, 0) == Some(Find(s, p, from).value - from)
  {
    var t := s[from..];
    forall i | 0 <= i ensures OccursAt(p, t, i) <==> OccursAt(p, s, from + i) {
      OccursInSuffix(s, p, from, i);
    }
    match Find(s, p, from) {
      case Some(k) =>
        assert OccursAt(p, t, k - from);
        FindIs(t, p, 0, k - from);
      case None =>
        assert forall i :: 0 <= i ==> !OccursAt(p, t, i);
    }
  }

  /** A slice of a slice is a slice. */
  lemma SliceOfSlice<T>(s: seq<T>, lo: nat, hi: nat, a: nat, b: nat)
    requires lo <= hi <= |s| && a <= b <= hi - lo
    ensures s[lo..hi][a..b] == s[lo + a..lo + b]
  {
    var left, right := s[lo..hi][a..b], s[lo + a..lo + b];
    assert |left| == |right|;
    assert forall i :: 0 <= i < |left| ==> left[i] == right[i];
  }

  /** A one-character pattern occurs exactly when the character is in the text. */
  lemma ContainsChar(s: string, c: char)
    ensures Contains(s, [c]) <==> c in s
    ensures Find(s, [c], 0).Some? <==> c in s
  {
    if c in s {
      var i :| 0 <= i < |s| && s[i] == c;
      assert OccursAt([c], s, i);
    }
    forall i | OccursAt([c], s, i) ensures c in s {
      assert s[i..i + 1][0] == c;
    }
  }

  predicate IsDigit(c: char) {
    '0' <= c <= '9'
  }

  /** `std::isspace` in the C locale. */
  predicate IsSpace(c: char) {
    c == ' ' || 9 <= c as int <= 13
  }

  predicate AllSpace(s: string) {
    forall c <- s :: IsSpace(c)
  }

  function TrimLeft(s: string): (r: string)
    ensures |r| <= |s| && r == s[|s| - |r|..] && AllSpace(s[..|s| - |r|])
    ensures r != "" ==> !IsSpace(r[0])
  {
    if s != "" && IsSpace(s[0]) then TrimLeft(s[1..]) else s
  }

  function TrimRight(s: string): (r: string)
    ensures r <= s && AllSpace(s[|r|..])
    ensures r != "" ==> !IsSpace(r[|r| - 1])
  {
    if s != "" && IsSpace(s[|s| - 1]) then TrimRight(s[..|s| - 1]) else s
  }

  /** The text without its leading and trailing white space. */
  function Trim(s: string): string {
    TrimRight(TrimLeft(s))
  }

  /** A text without one leading colon. */
  function StripColon(s: string): string {
    if s != "" && s[0] == ':' then s[1..] else s
  }

  predicate Trimmed(s: string) {
    s == "" || (!IsSpace(s[0]) && !IsSpace(s[|s| - 1]))
  }

  /** `Trim` removes white space only, all of it at both ends, and nothing else. */
  lemma TrimSplits(s: string) returns (lo: nat, hi: nat)
    ensures lo <= hi <= |s| && Trim(s) == s[lo..hi]
    ensures AllSpace(s[..lo]) && AllSpace(s[hi..])
    ensures Trimmed(Trim(s))
  {
    hide TrimLeft, TrimRight, AllSpace, IsSpace;
    var l := TrimLeft(s);
    var t := Trim(s);
    lo := |s| - |l|;
    hi := lo + |t|;
    assert t == l[..|t|] == s[lo..hi] && s[hi..] == l[|t|..];
    assert t != "" ==> t[0] == l[0];
  }

  lemma TrimIdentity(s: string)
    requires Trimmed(s)
    ensures Trim(s) == s
  {
  }

  lemma {:induction false} TrimLeftPadded(a: string, s: string)
    requires AllSpace(a) && (s == "" || !IsSpace(s[0]))
    ensures TrimLeft(a + s) == s
  {
    if a == "" {
      assert a + s == s;
    } else {
      assert (a + s)[1..] == a[1..] + s;
      TrimLeftPadded(a[1..], s);
    }
  }

  lemma {:induction false} TrimRightPadded(s: string, b: string)
    requires AllSpace(b) && (s == "" || !IsSpace(s[|s| - 1]))
    ensures TrimRight(s + b) == s
  {
    if b == "" {
      assert s + b == s;
    } else {
      assert (s + b)[..|s + b| - 1] == s + b[..|b| - 1];
      TrimRightPadded(s, b[..|b| - 1]);
    }
  }

  /** White space around a trimmed text is what `Trim` takes away. */
  lemma TrimPadded(a: string, s: string, b: string)
    requires AllSpace(a) && AllSpace(b) && Trimmed(s)
    ensures Trim(a + s + b) == s
  {
    if s == "" {
      assert a + s + b == (a + b) + "";
      TrimLeftPadded(a + b, "");
    } else {
      assert a + s + b == a + (s + b);
      TrimLeftPadded(a, s + b);
      TrimRightPadded(s, b);
    }
  }

  /** `Trim` gives the empty text exactly for white space. */
  lemma TrimEmpty(s: string)
    ensures Trim(s) == "" <==> AllSpace(s)
  {
    var lo, hi := TrimSplits(s);
    if lo == hi {
      assert s == s[..lo] + s[hi..];
    } else {
      assert s[lo] == Trim(s)[0];
    }
  }

  function UpperChar(c: char): char {
    if 'a' <= c <= 'z' then c - 32 as char else c
  }

  function LowerChar(c: char): char {
    if 'A' <= c <= 'Z' then c + 32 as char else c
  }

  function Upper(s: string): (r: string)
    ensures |r| == |s| && forall i :: 0 <= i < |s| ==> r[i] == UpperChar(s[i])
  {
    seq(|s|, i requires 0 <= i < |s| => UpperChar(s[i]))
  }

  function Lower(s: string): (r: string)
    ensures |r| == |s| && forall i :: 0 <= i < |s| ==> r[i] == LowerChar(s[i])
  {
    seq(|s|, i requires 0 <= i < |s| => LowerChar(s[i]))
  }

  /** The letters of the two alphabets are folded to each other by position, and every other character stays. */
  lemma FoldsAlphabet(s: string, i: nat)
    requires i < |s|
    ensures 'a' <= s[i] <= 'z' ==> Upper(s)[i] as int - 'A' as int == s[i] as int - 'a' as int
    ensures 'A' <= s[i] <= 'Z' ==> Lower(s)[i] as int - 'a' as int == s[i] as int - 'A' as int
    ensures Upper(s) == s <==> forall c <- s :: !('a' <= c <= 'z')
    ensures Lower(s) == s <==> forall c <- s :: !('A' <= c <= 'Z')
  {
    assert forall j :: 0 <= j < |s| ==> s[j] in s;
    if c :| c in s && 'a' <= c <= 'z' {
      var j :| 0 <= j < |s| && s[j] == c;
      assert Upper(s)[j] != s[j];
    }
    if c :| c in s && 'A' <= c <= 'Z' {
      var j :| 0 <= j < |s| && s[j] == c;
      assert Lower(s)[j] != s[j];
    }
  }

  /** A trimmed slice with white space around it is what `Trim` gives. */
  lemma TrimSlice(s: string, lo: nat, hi: nat)
    requires lo <= hi <= |s| && Trimmed(s[lo..hi])
    requires (forall k :: 0 <= k < lo ==> IsSpace(s[k])) && forall k :: hi <= k < |s| ==> IsSpace(s[k])
    ensures Trim(s) == s[lo..hi]
  {
    hide Trim;
    assert s == s[..lo] + s[lo..hi] + s[hi..];
    TrimPadded(s[..lo], s[lo..hi], s[hi..]);
  }

  /** `Utils::trim`: one index from each end. */
  method TrimScan(s: string) returns (r: string)
    ensures r == Trim(s)
  {
    hide Trim;
    var start, end := 0, |s|;
    while start != end && IsSpace(s[start])
      invariant start <= end == |s| && forall k :: 0 <= k < start ==> IsSpace(s[k])
    {
      start := start + 1;
    }
    if start == end {
      TrimSlice(s, start, end);
      return "";
    }
    end := end - 1;
    while end - start > 0 && IsSpace(s[end])
      invariant start <= end < |s| && forall k :: end < k < |s| ==> IsSpace(s[k])
    {
      end := end - 1;
    }
    r := s[start..end + 1];
    TrimSlice(s, start, end + 1);
  }

  /** `Utils::toUpper`. */
  method ToUpper(text: string) returns (str: string)
    ensures str == Upper(text)
  {
    str := text;
    for i := 0 to |str|
      invariant |str| == |text|
      invariant forall j :: 0 <= j < |text| ==> str[j] == if j < i then UpperChar(text[j]) else text[j]
    {
      str := str[i := UpperChar(str[i])];
    }
  }

  /** `Utils::toLower`. */
  method ToLower(text: string) returns (str: string)
    ensures str == Lower(text)
  {
    str := text;
    for i := 0 to |str|
      invariant |str| == |text|
      invariant forall j :: 0 <= j < |text| ==> str[j] == if j < i then LowerChar(text[j]) else text[j]
    {
      str := str[i := LowerChar(str[i])];
    }
  }
}
