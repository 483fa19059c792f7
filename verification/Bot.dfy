/** The chat bot of `_irc_`: the censor and the message hook that calls it. */
module Bot {
  import opened Text

  function Stars(n: nat): (r: string)
    ensures |r| == n && forall i :: 0 <= i < n ==> r[i] == '*'
  {
    seq(n, _ => '*')
  }

  function Blot(s: string, pos: nat, n: nat): (r: string)
    requires pos + n <= |s|
    ensures |r| == |s|
    ensures forall i :: 0 <= i < |s| ==> r[i] == if pos <= i < pos + n then '*' else s[i]
  {
    s[..pos] + Stars(n) + s[pos + n..]
  }

  /** One pass for one word, from `pos` on. */
  function Pass(s: string, word: string, pos: nat): (r: string)
    requires word != ""
    ensures |r| == |s|
    decreases |s| - pos
  {
    match Find(s, word, pos)
    case None => s
    case Some(k) => Pass(Blot(s, k, |word|), word, k + |word|)
  }

  predicate NonEmpty(words: seq<string>) {
    forall i :: 0 <= i < |words| ==> words[i] != ""
  }

  /** All passes, one word after the other. */
  function Censor(s: string, words: seq<string>): (r: string)
    requires NonEmpty(words)
    ensures |r| == |s|
    decreases |words|
  {
    if words == [] then s else Censor(Pass(s, words[0], 0), words[1..])
  }

  /** `censorMessage`: every word is searched from the front and overwritten in place. */
  method CensorMessage(message: string, blacklist: seq<string>) returns (censored: string)
    requires NonEmpty(blacklist)
    ensures censored == Censor(message, blacklist)
  {
    hide Find;
    censored := message;
    for i := 0 to |blacklist|
      invariant Censor(censored, blacklist[i..]) == Censor(message, blacklist)
    {
      var word := blacklist[i];
      var replacement := Stars(|word|);
      var pos: nat := 0;
      ghost var before := censored;
      var hit := Find(censored, word, pos);
      while hit.Some?
        invariant hit == Find(censored, word, pos)
        invariant Pass(censored, word, pos) == Pass(before, word, 0)
        decreases |censored| - pos
      {
        pos := hit.value;
        censored := censored[..pos] + replacement + censored[pos + |word|..];
        pos := pos + |replacement|;
        hit := Find(censored, word, pos);
      }
      assert blacklist[i..][0] == word && blacklist[i..][1..] == blacklist[i + 1..];
    }
  }

  /** `t` is `s` with some characters starred out. */
  ghost predicate Starred(s: string, t: string) {
    |s| == |t| && forall i :: 0 <= i < |s| ==> t[i] == s[i] || t[i] == '*'
  }

  ghost predicate Words(words: seq<string>) {
    forall i :: 0 <= i < |words| ==> words[i] != "" && '*' !in words[i]
  }

  /** Position `i` lies inside an occurrence of `w`. */
  ghost predicate Under(s: string, w: string, i: int) {
    exists k :: k <= i < k + |w| && OccursAt(w, s, k)
  }

  ghost predicate Covered(s: string, words: seq<string>, i: int) {
    exists w :: w in words && Under(s, w, i)
  }

  lemma OccursAtChars(p: string, s: string, i: int)
    ensures OccursAt(p, s, i) <==> 0 <= i && i + |p| <= |s| && forall j :: 0 <= j < |p| ==> s[i + j] == p[j]
  {
    if 0 <= i && i + |p| <= |s| {
      var part := s[i..i + |p|];
      assert forall j :: 0 <= j < |p| ==> part[j] == s[i + j];
    }
  }

  /** Starring out never makes a star-free word appear. */
  lemma StarredOccurs(s: string, t: string, w: string, k: int)
    requires Starred(s, t) && '*' !in w && OccursAt(w, t, k)
    ensures OccursAt(w, s, k)
  {
    OccursAtChars(w, t, k);
    assert forall j :: 0 <= j < |w| ==> w[j] != '*' && s[k + j] == w[j];
    OccursAtChars(w, s, k);
  }

  lemma StarredAbsent(s: string, t: string, w: string)
    requires Starred(s, t) && '*' !in w && !Contains(s, w)
    ensures !Contains(t, w)
  {
    forall k | OccursAt(w, t, k) ensures OccursAt(w, s, k) {
      StarredOccurs(s, t, w, k);
    }
  }

  /** Blotting out a hit leaves no occurrence that starts before its end. */
  lemma BlotClears(s: string, w: string, k: nat, i: int)
    requires w != "" && '*' !in w && OccursAt(w, s, k) && i < k + |w|
    requires i + |w| <= k ==> !OccursAt(w, s, i)
    ensures !OccursAt(w, Blot(s, k, |w|), i)
  {
    var t := Blot(s, k, |w|);
    OccursAtChars(w, t, i);
    if 0 <= i && i + |w| <= |s| {
      if i + |w| <= k {
        OccursAtChars(w, s, i);
      } else {
        var j := if i < k then k - i else 0;
        assert t[i + j] == '*' && w[j] != '*';
      }
    }
  }

  lemma UnderBefore(s: string, t: string, w: string, i: int)
    requires '*' !in w && Starred(s, t) && Under(t, w, i)
    ensures Under(s, w, i)
  {
    var k :| k <= i < k + |w| && OccursAt(w, t, k);
    StarredOccurs(s, t, w, k);
  }

  /** A pass only stars, only under occurrences of its word, and leaves none of them. */
  lemma {:induction false} PassSound(s: string, w: string, pos: nat)
    requires w != "" && '*' !in w
    requires Absent(w, s, 0, pos)
    ensures Starred(s, Pass(s, w, pos))
    ensures forall i :: 0 <= i < |s| && Pass(s, w, pos)[i] != s[i] ==> Under(s, w, i)
    ensures !Contains(Pass(s, w, pos), w)
    decreases |s| - pos
  {
    hide Find;
    match Find(s, w, pos)
    case None =>
    case Some(k) =>
      var t := Blot(s, k, |w|);
      var r := Pass(t, w, k + |w|);
      forall i | 0 <= i < k + |w| ensures !OccursAt(w, t, i) {
        BlotClears(s, w, k, i);
      }
      PassSound(t, w, k + |w|);
      forall i | 0 <= i < |s| && r[i] != s[i] ensures Under(s, w, i) {
        if t[i] == s[i] {
          UnderBefore(s, t, w, i);
        }
      }
  }

  /**
   * The censor: same length, none of the words left, a position changed only inside an occurrence
   * of some word in the original, and then to a star.
   */
  lemma {:induction false} CensorSound(s: string, words: seq<string>)
    requires Words(words)
    ensures Starred(s, Censor(s, words))
    ensures forall w <- words :: !Contains(Censor(s, words), w)
    ensures forall i :: 0 <= i < |s| && Censor(s, words)[i] != s[i] ==> Covered(s, words, i)
    decreases |words|
  {
    hide Pass, Contains, OccursAt;
    if words != [] {
      var w, rest := words[0], words[1..];
      var t := Pass(s, w, 0);
      var r := Censor(t, rest);
      PassSound(s, w, 0);
      CensorSound(t, rest);
      StarredAbsent(t, r, w);
      forall i | 0 <= i < |s| && r[i] != s[i] ensures Covered(s, words, i) {
        CoveredBefore(s, t, words, i);
      }
    }
  }

  lemma CoveredBefore(s: string, t: string, words: seq<string>, i: int)
    requires Words(words) && words != [] && Starred(s, t) && 0 <= i < |s|
    requires t[i] != s[i] ==> Under(s, words[0], i)
    requires t[i] == s[i] ==> Covered(t, words[1..], i)
    ensures Covered(s, words, i)
  {
    if t[i] == s[i] {
      var w :| w in words[1..] && Under(t, w, i);
      UnderBefore(s, t, w, i);
    }
  }

  /** Nothing changes exactly when no word occurs; censoring twice is censoring once. */
  lemma CensorFixpoints(s: string, words: seq<string>)
    requires Words(words)
    ensures Censor(s, words) == s <==> forall w <- words :: !Contains(s, w)
    ensures Censor(Censor(s, words), words) == Censor(s, words)
  {
    hide Censor, Contains, OccursAt;
    CensorSound(s, words);
    CensorSound(Censor(s, words), words);
    if forall w <- words :: !Contains(s, w) {
      UncoveredIfAbsent(s, words);
    }
    UncoveredIfAbsent(Censor(s, words), words);
  }

  lemma UncoveredIfAbsent(s: string, words: seq<string>)
    requires forall w <- words :: !Contains(s, w)
    ensures forall i :: !Covered(s, words, i)
  {
  }

  // ---------------------------------------------------------------- words with stars

  /** Whatever the word, a pass only stars. */
  lemma {:induction false} PassStars(s: string, w: string, pos: nat)
    requires w != ""
    ensures Starred(s, Pass(s, w, pos))
    decreases |s| - pos
  {
    hide Find;
    match Find(s, w, pos)
    case None =>
    case Some(k) => PassStars(Blot(s, k, |w|), w, k + |w|);
  }

  lemma {:induction false} CensorStars(s: string, words: seq<string>)
    requires NonEmpty(words)
    ensures Starred(s, Censor(s, words))
    decreases |words|
  {
    hide Pass;
    if words != [] {
      PassStars(s, words[0], 0);
      CensorStars(Pass(s, words[0], 0), words[1..]);
    }
  }

  /** A word without stars is gone, whatever else is on the list. */
  lemma {:induction false} StarFreeGone(s: string, words: seq<string>, w: string)
    requires NonEmpty(words) && w in words && '*' !in w
    ensures !Contains(Censor(s, words), w)
    decreases |words|
  {
    hide Pass, Contains, OccursAt;
    var t, rest := Pass(s, words[0], 0), words[1..];
    if words[0] == w {
      PassSound(s, w, 0);
      CensorStars(t, rest);
      StarredAbsent(t, Censor(t, rest), w);
    } else {
      StarFreeGone(t, rest, w);
    }
  }

  /** The text with every star written as `spare`. */
  function Unstarred(w: string, spare: char): (r: string)
    ensures |r| == |w| && forall i :: 0 <= i < |w| ==> r[i] == if w[i] == '*' then spare else w[i]
  {
    seq(|w|, i requires 0 <= i < |w| => if w[i] == '*' then spare else w[i])
  }

  /** The pass for a single character stars out that character and no other. */
  lemma {:induction false} SingleCharPass(s: string, c: char, pos: nat)
    requires c != '*' && forall i :: 0 <= i < pos && i < |s| ==> s[i] != c
    ensures forall i :: 0 <= i < |s| ==> Pass(s, [c], pos)[i] == if s[i] == c then '*' else s[i]
    decreases |s| - pos
  {
    hide Find;
    match Find(s, [c], pos)
    case None =>
      assert forall i :: 0 <= i < |s| && s[i] == c ==> OccursAt([c], s, i);
    case Some(k) =>
      assert forall i :: pos <= i < k ==> s[i] == c ==> OccursAt([c], s, i);
      SingleCharPass(Blot(s, k, 1), c, k + 1);
  }

  /** A word with stars, then a single character: the second pass writes the word that the first did not find. */
  lemma StarWordBuilt(w: string, spare: char)
    requires '*' in w && spare != '*' && spare !in w
    ensures Censor(Unstarred(w, spare), [w, [spare]]) == w
  {
    hide Find;
    var s := Unstarred(w, spare);
    var i :| 0 <= i < |w| && w[i] == '*';
    assert s[i] != w[i] && s[0..|w|] == s;
    assert Find(s, w, 0).None?;
    SingleCharPass(s, spare, 0);
    assert Pass(s, [spare], 0) == w;
    assert Pass(s, w, 0) == s && [w, [spare]][1..] == [[spare]] && [[spare]][1..] == [];
    assert Censor(s, [[spare]]) == w by {
      assert [[spare]][0] == [spare];
    }
    hide Pass;
    assert Censor(s, [w, [spare]]) == Censor(Pass(s, w, 0), [w, [spare]][1..]);
  }

  /**
   * The exact condition of the censor's promise: a word is gone from every text under every list that holds it
   * if and only if it has no star. `spare` is any character that is not in the word.
   */
  lemma GoneIffStarFree(w: string, spare: char)
    requires w != "" && spare != '*' && spare !in w
    ensures '*' !in w
         <==> forall words: seq<string>, s: string :: NonEmpty(words) && w in words ==> !Contains(Censor(s, words), w)
  {
    hide Censor, Contains;
    if '*' !in w {
      forall words: seq<string>, s: string | NonEmpty(words) && w in words ensures !Contains(Censor(s, words), w) {
        StarFreeGone(s, words, w);
      }
    } else {
      var words := [w, [spare]];
      assert words[0] == w && NonEmpty(words) && w in words;
      StarWordBuilt(w, spare);
      ContainsItself(w);
      assert Contains(Censor(Unstarred(w, spare), words), w);
    }
  }

  lemma ContainsItself(w: string)
    ensures Contains(w, w)
  {
    assert w[0..|w|] == w;
    assert OccursAt(w, w, 0);
  }

  const BLACKLIST: seq<string> := ["uglyasf", "screw", "dumb", "stupid", "idiot", "amk"]

  lemma BlacklistIsStarFree()
    ensures NonEmpty(BLACKLIST) && Words(BLACKLIST)
  {
  }

  /** The text after the first `'!'`, or the whole text when there is none. */
  function AfterBang(message: string): string {
    match Find(message, "!", 0)
    case None => message
    case Some(k) => message[k + 1..]
  }

  function BeforeBang(message: string): string {
    match Find(message, "!", 0)
    case None => message
    case Some(k) => message[..k]
  }

  /** Some word of the list occurs in the text. */
  ghost predicate Rude(text: string) {
    exists w :: w in BLACKLIST && Contains(text, w)
  }

  lemma CensorIsPolite(text: string)
    ensures NonEmpty(BLACKLIST)
    ensures Censor(text, BLACKLIST) == text <==> !Rude(text)
    ensures !Rude(Censor(text, BLACKLIST))
  {
    hide Censor, Contains, Find;
    BlacklistIsStarFree();
    CensorFixpoints(text, BLACKLIST);
    CensorSound(text, BLACKLIST);
  }

  /** What the bot tells the sender: a greeting, the time, a rebuke, each for its reason. */
  ghost function Notices(sender: string, text: string, now: string): seq<(string, string)> {
    (if Find(text, "Bot", 0).Some? then [(sender, "Hello " + sender + "!")] else [])
    + (if Find(text, "time", 0).Some? || Find(text, "date", 0).Some? then [(sender, now)] else [])
    + if Rude(text) then [(sender, "Please be more respectful!")] else []
  }

  /** `Bot::processMessage`: notices go to the sender, the censored text goes back to the caller. */
  method ProcessMessage(message: string, now: string) returns (msg: string, notices: seq<(string, string)>)
    ensures msg == Censor(AfterBang(message), BLACKLIST)
    ensures notices == Notices(BeforeBang(message), AfterBang(message), now)
  {
    hide Find, Censor, Rude, AfterBang, BeforeBang;
    CensorIsPolite(AfterBang(message));
    notices := [];
    msg := "";
    if message != "" {
      var senderNick := BeforeBang(message);
      msg := AfterBang(message);
      if Find(msg, "Bot", 0).Some? {
        notices := notices + [(senderNick, "Hello " + senderNick + "!")];
      }
      if Find(msg, "time", 0).Some? || Find(msg, "date", 0).Some? {
        notices := notices + [(senderNick, now)];
      }
      var censoredMsg := CensorMessage(msg, BLACKLIST);
      if censoredMsg != msg {
        notices := notices + [(senderNick, "Please be more respectful!")];
        msg := censoredMsg;
      }
    } else {
      EmptyMessage();
    }
  }

  lemma EmptyMessage()
    ensures AfterBang("") == "" && Censor("", BLACKLIST) == "" && !Rude("")
    ensures forall p: string :: p != "" ==> Find("", p, 0).None?
  {
    hide Censor;
    assert |Censor("", BLACKLIST)| == 0;
    CensorIsPolite("");
  }
}
