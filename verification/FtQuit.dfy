/** When a QUIT of 42-Ft_irc survives: each announcement splits the text once more, so it bears one listener at most. */
module FtQuit {
  import opened Text
  import opened Tokenizer
  import opened FtParser
  import opened FtState
  import opened FtSteps
  import opened FtEffects

  /** How many entries of other descriptors the channels of a descriptor have. */
  function Audience<Id(==)>(info: map<Id, ClientInfo>, channels: seq<Chan<Id>>, fd: int): nat {
    if channels == [] then 0
    else
      var ch := channels[0];
      (if ByFd(info, ch.clients, fd).Some? then Others(info, ch.clients, fd) else 0) + Audience(info, channels[1..], fd)
  }

  /** Some colon stands before the last character. */
  predicate HasText(line: string) {
    exists i :: 0 <= i < |line| - 1 && line[i] == ':'
  }

  lemma TwoPieces(line: string)
    ensures |Split(line, ":")| >= 2 <==> HasText(line)
  {
    hide Split, Find;
    SplitCases(line, ":");
    match CutAt(line, ":")
    case Whole => ContainsChar(line, ':');
    case Parts(head, tail) =>
      assert line[|head|] == ':';
      if tail == "" {
        forall i | 0 <= i < |line| - 1 ensures line[i] != ':' {
          assert line[i..i + 1] == [line[i]];
          assert !OccursAt(":", line, i);
        }
      }
  }

  /** How many pieces 42's split gives, from the first delimiter on. */
  lemma SplitCases(s: string, d: string)
    requires d != ""
    ensures match CutAt(s, d)
            case Whole => |Split(s, d)| <= 1
            case Parts(_, tail) => if tail == "" then |Split(s, d)| == 1 else |Split(s, d)| >= 2
  {
    hide CutAt;
    match CutAt(s, d)
    case Whole =>
    case Parts(head, tail) =>
      assert SplitAll(s, d) == [head] + SplitAll(tail, d);
      if tail == "" {
        EmptyPiece(d);
      } else if |SplitAll(tail, d)| == 1 {
        JoinOfSplit(tail, d);
        assert SplitAll(tail, d) == [tail];
      }
  }

  lemma EmptyPiece(d: string)
    requires d != ""
    ensures SplitAll("", d) == [""]
  {
  }

  /** What lies between two colons has none, so the text cannot be split again. */
  lemma QuitTextIff(line: string, k: nat)
    ensures QuitText(line, k).Some? <==> k == 0 || (k == 1 && HasText(line))
  {
    hide Split, HasText;
    TwoPieces(line);
    if k >= 2 && |Split(line, ":")| >= 2 {
      var rest := Split(line, ":")[1];
      PieceFree(line);
      NoSecondPiece(rest);
      assert QuitText(line, k) == QuitText(rest, k - 1);
    }
  }

  lemma PieceFree(line: string)
    requires |Split(line, ":")| >= 2
    ensures ':' !in Split(line, ":")[1]
  {
    SplitFree(line, ":");
    assert Split(line, ":")[1] in SplitAll(line, ":");
    ContainsChar(Split(line, ":")[1], ':');
  }

  lemma NoSecondPiece(text: string)
    requires ':' !in text
    ensures |Split(text, ":")| < 2
  {
    hide Split;
    TwoPieces(text);
  }

  /** Announcing to `j` and then to `k` is announcing to all of them. */
  lemma {:induction false} QuitTextAdds(line: string, j: nat, k: nat)
    ensures QuitText(line, j + k)
         == match QuitText(line, j) case None => None case Some(rest) => QuitText(rest, k)
    decreases j
  {
    hide Split;
    if j > 0 && |Split(line, ":")| >= 2 {
      QuitTextAdds(Split(line, ":")[1], j - 1, k);
    }
  }

  lemma {:induction false} QuitChannelsIff<Id>(info: map<Id, ClientInfo>, channels: seq<Chan<Id>>, c: Option<Id>,
                                               fd: int, line: string)
    ensures var n := Audience(info, channels, fd);
            QuitChannels(info, channels, c, fd, line).Some? <==> QuitText(line, n).Some? && (n > 0 ==> c.Some?)
    decreases |channels|
  {
    hide Others, ByFd;
    if channels != [] {
      var ch := channels[0];
      var k := if ByFd(info, ch.clients, fd).Some? then Others(info, ch.clients, fd) else 0;
      var n := Audience(info, channels[1..], fd);
      hide QuitText;
      QuitTextAdds(line, k, n);
      if QuitText(line, k).Some? {
        QuitChannelsIff(info, channels[1..], c, fd, QuitText(line, k).value);
      }
    }
  }

  /**
   * A QUIT survives if and only if the channels that list its descriptor have no other entry, or the sender is known,
   * they have exactly one other entry, and some colon of the line is not its last character.
   */
  lemma QuitSurvivesIff<Id>(w: World<Id>, line: string, fd: int)
    requires CheckLine(w, line, fd) == Run("QUIT")
    ensures LineStep(w, line, fd).Some? <==>
              var n := Audience(w.info, w.channels, fd);
              n == 0 || (n == 1 && ByFd(w.info, w.live, fd).Some? && HasText(line))
  {
    hide CheckLine, QuitChannels, QuitText, Audience, HasText, ServerRemove;
    QuitChannelsIff(w.info, w.channels, ByFd(w.info, w.live, fd), fd, line);
    QuitTextIff(line, Audience(w.info, w.channels, fd));
    assert LineStep(w, line, fd) == QuitStep(w, line, fd);
  }
}
