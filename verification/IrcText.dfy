/** The text path of `_irc_`: from a framed line to the words of a command, and from the words back to texts. */
module IrcText {
  import opened Text
  import opened Tokenizer
  import Bot

  // ---------------------------------------------------------------- the command parser

  /** A `const char *` ends at its first NUL. */
  function UntilNul(s: string): (r: string)
    ensures '\0' !in s ==> r == s
  {
    if s == "" || s[0] == '\0' then "" else [s[0]] + UntilNul(s[1..])
  }

  /** `std::remove` and `erase` of the line feeds. */
  function WithoutLf(s: string): (r: string)
    ensures '\n' !in r && ('\n' !in s ==> r == s)
  {
    if s == "" then "" else (if s[0] == '\n' then "" else [s[0]]) + WithoutLf(s[1..])
  }

  /** The words of a command line, the first one in upper case; none for an empty line. */
  function CommandParts(command: string): (parts: seq<string>)
    ensures parts == [] <==> UntilNul(command) == ""
  {
    var text := UntilNul(command);
    if text == "" then []
    else
      var words := SplitAll(WithoutLf(text), " ");
      words[0 := Upper(words[0])]
  }

  /** `CommandParser::commandParser`, up to the dispatch. */
  method CommandParser(command: string) returns (parts: seq<string>)
    ensures parts == CommandParts(command)
  {
    hide SplitAll;
    var text := UntilNul(command);
    if text == "" {
      return [];
    }
    parts := SplitString(WithoutLf(text), " ");
    var first := ToUpper(parts[0]);
    parts := parts[0 := first];
  }

  // ---------------------------------------------------------------- tails of a line

  function Spaces(s: string): nat {
    if s == "" then 0 else (if s[0] == ' ' then 1 else 0) + Spaces(s[1..])
  }

  /** `s[lo..]` is what follows the `k`-th space of `s`. */
  predicate FollowsSpace(s: string, k: nat, lo: nat) {
    lo <= |s| && Spaces(s[..lo]) == k && (if k == 0 then lo == 0 else lo > 0 && s[lo - 1] == ' ')
  }

  lemma {:induction false} SpacesOfConcat(a: string, b: string)
    ensures Spaces(a + b) == Spaces(a) + Spaces(b)
  {
    if a == "" {
      assert a + b == b;
    } else {
      assert (a + b)[1..] == a[1..] + b;
      SpacesOfConcat(a[1..], b);
    }
  }

  lemma {:induction false} NoSpaces(s: string)
    requires ' ' !in s
    ensures Spaces(s) == 0
  {
    if s != "" {
      NoSpaces(s[1..]);
    }
  }

  /** The words from index `k` on, joined by spaces, are the exact tail of the line after its `k`-th space. */
  lemma {:induction false} TailIs(s: string, k: nat) returns (lo: nat)
    requires k < |SplitAll(s, " ")|
    ensures FollowsSpace(s, k, lo) && Join(SplitAll(s, " ")[k..], " ") == s[lo..]
    decreases k
  {
    hide SplitAll, CutAt, Join, Find;
    var words := SplitAll(s, " ");
    SplitEither(s);
    if k == 0 {
      lo := 0;
      JoinOfSplit(s, " ");
      assert words[0..] == words && s[..0] == "";
    } else {
      var head, rest := CutAt(s, " ").head, CutAt(s, " ").tail;
      var l := TailIs(rest, k - 1);
      lo := |head| + 1 + l;
      assert words[k..] == SplitAll(rest, " ")[k - 1..];
      assert s[..lo] == head + " " + rest[..l] && s[lo..] == rest[l..];
      HeadFree(s, " ");
      ContainsChar(head, ' ');
      NoSpaces(head);
      SpacesOfConcat(head + " ", rest[..l]);
      SpacesOfConcat(head, " ");
    }
  }

  lemma SplitEither(s: string)
    ensures CutAt(s, " ").Whole? ==> SplitAll(s, " ") == [s]
    ensures CutAt(s, " ").Parts? ==> SplitAll(s, " ") == [CutAt(s, " ").head] + SplitAll(CutAt(s, " ").tail, " ")
  {
    hide CutAt;
  }

  /** There is only one such tail. */
  lemma TailUnique(s: string, k: nat, a: nat, b: nat)
    requires FollowsSpace(s, k, a) && FollowsSpace(s, k, b)
    ensures a == b
  {
    if a < b {
      TailOrder(s, a, b);
    } else if b < a {
      TailOrder(s, b, a);
    }
  }

  lemma TailOrder(s: string, a: nat, b: nat)
    requires a < b <= |s| && s[b - 1] == ' '
    ensures Spaces(s[..a]) < Spaces(s[..b])
  {
    assert s[..b] == s[..a] + s[a..b];
    SpacesOfConcat(s[..a], s[a..b]);
    assert s[a..b] == s[a..b - 1] + " ";
    SpacesOfConcat(s[a..b - 1], " ");
  }

  // ---------------------------------------------------------------- the joiners

  /** PART and TOPIC: a space after every word but the last. */
  method JoinTrailing(parts: seq<string>, start: nat) returns (text: string)
    requires start <= |parts|
    ensures text == Join(parts[start..], " ")
  {
    hide Join;
    text := "";
    JoinNothing(" ");
    assert parts[start..start] == [];
    for i := start to |parts|
      invariant text == Join(parts[start..i], " ") + if start < i < |parts| then " " else ""
    {
      assert parts[start..i + 1] == parts[start..i] + [parts[i]];
      JoinSnoc(parts[start..i], parts[i], " ");
      text := text + parts[i];
      if i != |parts| - 1 {
        text := text + " ";
      }
    }
    assert parts[start..|parts|] == parts[start..];
  }

  /** KICK, QUIT and USER: the first word, then a space before every other. */
  method JoinLeading(parts: seq<string>, start: nat) returns (text: string)
    requires start < |parts|
    ensures text == Join(parts[start..], " ")
  {
    hide Join;
    text := parts[start];
    JoinNothing(" ");
    JoinSnoc([], parts[start], " ");
    assert parts[start..start + 1] == [] + [parts[start]];
    for i := start + 1 to |parts|
      invariant text == Join(parts[start..i], " ")
    {
      assert parts[start..i + 1] == parts[start..i] + [parts[i]];
      JoinSnoc(parts[start..i], parts[i], " ");
      text := text + (" " + parts[i]);
    }
    assert parts[start..|parts|] == parts[start..];
  }

  /** What the joiners of PART, TOPIC, KICK, QUIT and USER see of a line without line feeds is its exact tail. */
  lemma JoinersGiveTail(line: string, k: nat) returns (lo: nat)
    requires '\0' !in line && '\n' !in line && 0 < k < |CommandParts(line)|
    ensures FollowsSpace(line, k, lo) && Join(CommandParts(line)[k..], " ") == line[lo..]
  {
    hide SplitAll, Join, Upper;
    var words := SplitAll(line, " ");
    assert CommandParts(line)[k..] == words[k..];
    lo := TailIs(line, k);
  }

  // ---------------------------------------------------------------- the text of a PRIVMSG

  /** The text that PRIVMSG hands to its targets; everyone's but the bot's own goes through the bot. */
  method PrivmsgText(nick: string, botNick: string, parts: seq<string>, now: string) returns (message: string)
    requires |parts| >= 3
    ensures message == var text := StripColon(Join(parts[2..], " "));
                       if nick == botNick then text else Bot.Censor(Bot.AfterBang(nick + "!" + text), Bot.BLACKLIST)
  {
    hide Join, Bot.Censor, Bot.AfterBang;
    message := Merge(parts[2..], " ");
    if message != "" && message[0] == ':' {
      message := message[1..];
    }
    if nick != botNick {
      var notices;
      message, notices := Bot.ProcessMessage(nick + "!" + message, now);
    }
  }

  /** The bot gets the text and the sender back if the nick has no '!' in it. */
  lemma AfterNick(nick: string, text: string)
    ensures '!' !in nick ==> Bot.AfterBang(nick + "!" + text) == text && Bot.BeforeBang(nick + "!" + text) == nick
    ensures '!' in nick ==> |Bot.AfterBang(nick + "!" + text)| > |text|
  {
    hide OccursAt;
    var message := nick + "!" + text;
    ContainsChar(nick, '!');
    if '!' !in nick {
      CharUnbordered('!');
      FirstDelimiter(nick, "!", text);
    } else {
      FirstBang(nick, "!" + text);
      assert nick + ("!" + text) == message;
    }
  }

  /** The first `'!'` of a text that starts with one that has one lies in the front part. */
  lemma FirstBang(front: string, rest: string)
    requires '!' in front
    ensures Find(front + rest, "!", 0).Some? && Find(front + rest, "!", 0).value < |front|
  {
    var i :| 0 <= i < |front| && front[i] == '!';
    assert (front + rest)[i..i + 1] == "!";
    assert OccursAt("!", front + rest, i);
  }

  /**
   * End to end: for a line without NUL and line feed, what a PRIVMSG of anyone but the bot delivers is the censored
   * rest of the line after its second space, less one leading colon, if and only if the nick has no '!' in it.
   */
  lemma DeliveredText(line: string, nick: string, delivered: string) returns (lo: nat)
    requires '\0' !in line && '\n' !in line && |CommandParts(line)| >= 3
    requires delivered
               == Bot.Censor(Bot.AfterBang(nick + "!" + StripColon(Join(CommandParts(line)[2..], " "))), Bot.BLACKLIST)
    ensures FollowsSpace(line, 2, lo)
    ensures delivered == Bot.Censor(StripColon(line[lo..]), Bot.BLACKLIST) <==> '!' !in nick
  {
    hide Bot.Censor, Bot.AfterBang, Join, SplitAll, Spaces;
    lo := JoinersGiveTail(line, 2);
    AfterNick(nick, StripColon(line[lo..]));
  }
}
