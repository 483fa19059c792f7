/** What PRIVMSG and NOTICE of 42-Ft_irc deliver, and to whom. */
module FtTalk {
  import opened Text
  import opened Tokenizer
  import opened FtParser
  import opened FtState
  import opened FtSyntax

  datatype Talk = Talk(target: string, message: string)

  /** The words of a message: one colon goes from the first of them. */
  function Spoken(words: seq<string>): seq<string>
    requires words != []
  {
    [StripColon(words[0])] + words[1..]
  }

  /** `Parser::privateMessage`; `None` where it indexes past its words. */
  function ParsedTalk(line: string): Option<Talk> {
    var words := Words(line);
    if |words| < 3 then None else Some(Talk(words[1], Join(TrimAll(Spoken(words[2..])), " ")))
  }

  lemma TalkWords(line: string)
    ensures ParsedTalk(line).Some? <==> |Words(line)| >= 3
  {
  }

  /** The accumulating loop of `privateMessage`. */
  method PrivateMessage(line: string) returns (info: Option<Talk>)
    ensures info == ParsedTalk(line)
  {
    hide Split, Join, Trim;
    var words := ScanSplit(line, " ");
    if |words| < 3 {
      return None;
    }
    if words[2] != "" && words[2][0] == ':' {
      words := words[2 := words[2][1..]];
    }
    ghost var trimmed := TrimAll(words[2..]);
    assert words[2..] == Spoken(Words(line)[2..]);
    var message := "";
    EmptyJoin();
    for i := 2 to |words|
      invariant message == Join(trimmed[..i - 2], " ") + if 2 < i < |words| then " " else ""
    {
      var word := TrimScan(words[i]);
      assert trimmed[..i - 1] == trimmed[..i - 2] + [word];
      JoinSnoc(trimmed[..i - 2], word, " ");
      message := message + word;
      if i != |words| - 1 {
        message := message + " ";
      }
    }
    assert trimmed[..|words| - 2] == trimmed;
    info := Some(Talk(words[1], message));
  }

  // ---------------------------------------------------------------- the receivers

  /** The descriptors of the entries of a channel that are not the sender's, in order. */
  function OtherFds<Id(==)>(info: map<Id, ClientInfo>, clients: seq<Id>, fd: int): seq<int> {
    if clients == [] then []
    else
      var to := Of(info, clients[0]).fd;
      (if to != fd then [to] else []) + OtherFds(info, clients[1..], fd)
  }

  lemma OtherFdsFrom<Id>(info: map<Id, ClientInfo>, clients: seq<Id>, fd: int, i: nat, told: seq<int>)
    requires i < |clients|
    ensures told + OtherFds(info, clients[i..], fd)
         == (if Of(info, clients[i]).fd != fd then told + [Of(info, clients[i]).fd] else told)
            + OtherFds(info, clients[i + 1..], fd)
  {
    assert clients[i..][0] == clients[i] && clients[i..][1..] == clients[i + 1..];
  }

  lemma NoFds<Id>(info: map<Id, ClientInfo>, clients: seq<Id>, fd: int, told: seq<int>)
    requires clients == []
    ensures told + OtherFds(info, clients, fd) == told
  {
  }

  /** Entries are told in their order, each but those with the sender's descriptor. */
  lemma {:induction false} OtherFdsInOrder<Id>(info: map<Id, ClientInfo>, clients: seq<Id>, c: Id, fd: int)
    ensures OtherFds<Id>(info, [], fd) == []
    ensures OtherFds(info, clients + [c], fd)
         == OtherFds(info, clients, fd) + if Of(info, c).fd != fd then [Of(info, c).fd] else []
  {
    if clients == [] {
      assert clients + [c] == [c] && [c][1..] == [];
    } else {
      assert (clients + [c])[1..] == clients[1..] + [c];
      OtherFdsInOrder(info, clients[1..], c, fd);
    }
  }

  /** Where a message to `target` goes: to the client of that nick, else to the channel of that name. */
  function Receivers<Id(==)>(w: World<Id>, target: string, fd: int, notice: bool): seq<int> {
    match ByNick(w.info, w.live, target)
    case Some(c) => if notice && Of(w.info, c).fd == fd then [] else [Of(w.info, c).fd]
    case None =>
      match ByName(w.channels, target)
      case None => []
      case Some(i) => OtherFds(w.info, w.channels[i].clients, fd)
  }

  function PrivMsgText(nick: string, talk: Talk): string {
    ":" + nick + " PRIVMSG " + talk.target + " :" + talk.message + CRLF
  }

  function NoticeText(nick: string, user: string, talk: Talk): string {
    ":" + nick + "!" + user + "@0" + " NOTICE " + talk.target + " :" + talk.message + CRLF
  }

  /** The text that every receiver gets. */
  function Letter<Id(==)>(w: World<Id>, talk: Talk, sender: Id, notice: bool): string {
    var me := Of(w.info, sender);
    if notice then NoticeText(me.nick, me.user, talk) else PrivMsgText(me.nick, talk)
  }

  /** How many entries of a channel have a descriptor. */
  function EntriesOf<Id(==)>(info: map<Id, ClientInfo>, clients: seq<Id>, fd: int): nat {
    if clients == [] then 0 else (if Of(info, clients[0]).fd == fd then 1 else 0) + EntriesOf(info, clients[1..], fd)
  }

  lemma {:induction false} OtherFdsCount<Id>(info: map<Id, ClientInfo>, clients: seq<Id>, fd: int, to: int)
    ensures multiset(OtherFds(info, clients, fd))[to] == if to == fd then 0 else EntriesOf(info, clients, to)
  {
    if clients != [] {
      OtherFdsCount(info, clients[1..], fd, to);
      var first := Of(info, clients[0]).fd;
      var rest := OtherFds(info, clients[1..], fd);
      assert OtherFds(info, clients, fd) == if first != fd then [first] + rest else rest;
    }
  }

  /**
   * A live client with the nick is the only receiver. Otherwise a channel with the name is told, whether the sender
   * is on it or not: each descriptor but the sender's gets the message once for every entry it has there.
   */
  lemma TalkReaches<Id>(w: World<Id>, target: string, fd: int, notice: bool, to: int)
    ensures multiset(Receivers(w, target, fd, notice))[to] ==
            match ByNick(w.info, w.live, target)
            case Some(c) => (if Of(w.info, c).fd == to && !(notice && to == fd) then 1 else 0)
            case None =>
              match ByName(w.channels, target)
              case None => 0
              case Some(i) => if to == fd then 0 else EntriesOf(w.info, w.channels[i].clients, to)
  {
    hide ByNick, ByName;
    match ByNick(w.info, w.live, target)
    case Some(c) =>
    case None =>
      match ByName(w.channels, target)
      case None =>
      case Some(i) => OtherFdsCount(w.info, w.channels[i].clients, fd, to);
  }

  // ---------------------------------------------------------------- the text

  lemma TrimEnd(s: string, end: string)
    requires end == "" || end == CRLF
    ensures Trim(s + end) == Trim(s)
  {
    hide Trim, Trimmed;
    var lo, hi := TrimSplits(s);
    assert s + end == s[..lo] + Trim(s) + (s[hi..] + end);
    TrimPadded(s[..lo], Trim(s), s[hi..] + end);
  }

  /** Trimming the words changes the joined text, unless every word was trimmed. */
  lemma {:induction false} JoinOfTrimmed(words: seq<string>)
    ensures |Join(TrimAll(words), " ")| <= |Join(words, " ")|
    ensures Join(TrimAll(words), " ") == Join(words, " ") <==> forall w <- words :: Trimmed(w)
    decreases |words|
  {
    hide Trim, Trimmed;
    if words != [] {
      var rest := words[1..];
      JoinOfTrimmed(rest);
      assert TrimAll(words)[1..] == TrimAll(rest);
      TrimmedIff(words[0]);
      JoinFirst(TrimAll(words));
      JoinFirst(words);
      if |words| > 1 {
        SameParts(Trim(words[0]), Join(TrimAll(rest), " "), words[0], Join(rest, " "));
      }
      assert forall w :: w in words <==> w == words[0] || w in rest;
    }
  }

  lemma TrimmedIff(s: string)
    ensures |Trim(s)| <= |s| && (Trim(s) == s <==> Trimmed(s)) && (|Trim(s)| == |s| ==> Trim(s) == s)
  {
    hide Trim;
    var lo, hi := TrimSplits(s);
    if Trimmed(s) {
      TrimIdentity(s);
    }
  }

  lemma SameParts(a: string, b: string, c: string, d: string)
    requires |a| <= |c| && |b| <= |d|
    ensures a + " " + b == c + " " + d <==> a == c && b == d
    ensures |a + " " + b| <= |c + " " + d|
  {
    var s, t := a + " " + b, c + " " + d;
    if s == t {
      assert a == s[..|a|] && c == t[..|c|] && b == s[|a| + 1..] && d == t[|c| + 1..];
    }
  }

  lemma JoinFirst(words: seq<string>)
    requires words != []
    ensures Join(words, " ") == if |words| == 1 then words[0] else words[0] + " " + Join(words[1..], " ")
  {
  }

  /**
   * A message printed as words with single spaces arrives as it was typed, but for one colon in front, if and only
   * if no word has other white space at an end.
   */
  lemma TalkAsTyped(command: string, target: string, words: seq<string>, end: string)
    requires words != [] && (end == "" || end == CRLF) && words[|words| - 1] + end != ""
    requires forall w <- [command, target] + words :: ' ' !in w
    ensures var talk := ParsedTalk(Join([command, target] + words, " ") + end);
            && talk.Some? && talk.value.target == target
            && (talk.value.message == Join(Spoken(words), " ") <==> forall w <- Spoken(words) :: Trimmed(w))
  {
    hide Split, SplitAll, Join, Trim, Trimmed, TrimAll;
    hide Spoken, StripColon, Words;
    PrintedWords(command, target, words, end);
    EndTrimmed(words, end);
    JoinOfTrimmed(Spoken(words));
  }

  lemma PrintedWords(command: string, target: string, words: seq<string>, end: string)
    requires words != [] && (end == "" || end == CRLF) && words[|words| - 1] + end != ""
    requires forall w <- [command, target] + words :: ' ' !in w
    ensures var read := Words(Join([command, target] + words, " ") + end);
            |read| >= 3 && read[1] == target && read[2..] == words[..|words| - 1] + [words[|words| - 1] + end]
  {
    hide Split, SplitAll, Join;
    var all := [command, target] + words;
    var line := Join(all, " ") + end;
    PrintedPieces(all, end);
    SplitEndsWith(line, " ", all[..|all| - 1], words[|words| - 1] + end);
    assert Words(line) == [command, target] + (words[..|words| - 1] + [words[|words| - 1] + end]);
  }

  /** The line end is trimmed off the last word. */
  lemma EndTrimmed(words: seq<string>, end: string)
    requires words != [] && (end == "" || end == CRLF)
    ensures TrimAll(Spoken(words[..|words| - 1] + [words[|words| - 1] + end])) == TrimAll(Spoken(words))
  {
    hide Trim;
    var n := |words|;
    var ended := words[..n - 1] + [words[n - 1] + end];
    TrimEnd(words[n - 1], end);
    TrimEnd(StripColon(words[0]), end);
    assert n == 1 && words[0] != "" ==> StripColon(words[0] + end) == StripColon(words[0]) + end;
    assert n == 1 && words[0] == "" ==> StripColon("" + end) == "" + end;
  }
}
