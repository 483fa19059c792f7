/** The line syntax of 42-Ft_irc: parsing, and the checks a line has to pass first. */
module FtParser {
  import opened Text
  import opened Tokenizer

  datatype ParseInfo = ParseInfo(command: string, function_: string, value: string)

  datatype ModeInfo = ModeInfo(channel: string, status: bool, key: char, parameters: string)

  datatype UserInfo = UserInfo(userName: string, realName: string)

  /** `s[i]` of a C++ string, which reads NUL at the end. */
  function CharAt(s: string, i: nat): char {
    if i < |s| then s[i] else '\0'
  }

  function TrimAll(words: seq<string>): (r: seq<string>)
    ensures |r| == |words| && forall i :: 0 <= i < |words| ==> r[i] == Trim(words[i])
  {
    seq(|words|, i requires 0 <= i < |words| => Trim(words[i]))
  }

  function Words(message: string): seq<string> {
    Split(message, " ")
  }

  /** `Parser::parse`: command, first argument, and the other arguments joined by single spaces. */
  function ParsedInfo(message: string): ParseInfo {
    if ' ' !in message then ParseInfo(message, "", "")
    else
      var words := Words(message);
      ParseInfo(if |words| > 0 then Trim(words[0]) else "",
                if |words| > 1 then Trim(words[1]) else "",
                if |words| > 2 then Join(TrimAll(words[2..]), " ") else "")
  }

  /** `Parser::modeParse`; `None` where it indexes past its words. */
  function ParsedMode(message: string): Option<ModeInfo> {
    var words := Words(message);
    if |words| < 3 || words[2] == "" then None
    else
      var p := if |words| == 3 then ""
               else if |words| == 5 then Trim(words[3]) + Trim(words[4])
               else Trim(words[3]);
      Some(ModeInfo(Trim(words[1]), words[2][0] == '+', CharAt(words[2], 1), p))
  }

  /** `Parser::userParse`; `None` where it indexes past its words. */
  function ParsedUser(message: string): Option<UserInfo> {
    var words := Words(message);
    if |words| < 5 then None
    else Some(UserInfo(words[1], if words[4] == "" then "" else words[4][1..]))
  }

  /** The accumulating loop of `parse`. */
  method Parse(message: string) returns (info: ParseInfo)
    ensures info == ParsedInfo(message)
  {
    hide Split, Join, Trim;
    ContainsChar(message, ' ');
    info := ParseInfo("", "", "");
    if Find(message, " ", 0).None? {
      return info.(command := message);
    }
    SpaceGivesWord(message);
    var words := ScanSplit(message, " ");
    var command := TrimScan(words[0]);
    info := info.(command := command);
    if |words| == 1 {
      return;
    }
    var argument := TrimScan(words[1]);
    info := info.(function_ := argument);
    if |words| == 2 {
      return;
    }
    var value := "";
    ghost var trimmed := TrimAll(words[2..]);
    EmptyJoin();
    for i := 2 to |words|
      invariant value == Join(trimmed[..i - 2], " ") + if 2 < i < |words| then " " else ""
    {
      var word := TrimScan(words[i]);
      assert trimmed[..i - 1] == trimmed[..i - 2] + [word];
      JoinSnoc(trimmed[..i - 2], word, " ");
      value := value + word;
      if i != |words| - 1 {
        value := value + " ";
      }
    }
    assert trimmed[..|words| - 2] == trimmed;
    info := info.(value := value);
  }

  lemma EmptyJoin()
    ensures Join([], " ") == "" && forall s: string :: s + "" == s && "" + s == s
  {
  }

  lemma SpaceGivesWord(message: string)
    ensures ' ' in message ==> |Words(message)| >= 1
  {
    ContainsChar(message, ' ');
  }

  /** The first word of a line, folded to upper case. */
  function CommandOf(message: string): string {
    match CutAt(message, " ")
    case Whole => Upper(message)
    case Parts(head, _) => Upper(head)
  }

  const COMMANDS: set<string> := {
    "WHO", "PASS", "USER", "NICK", "INVITE", "QUIT", "PRIVMSG",
    "TOPIC", "KICK", "PART", "MODE", "NOTICE", "WHOIS", "JOIN"
  }

  /** What `Checker::check` looks at: the trimmed rest of the trimmed line. */
  function FormatOf(trimmed: string): string {
    var words := Words(trimmed);
    if words == [] then "" else Trim(Join(words[1..], " "))
  }

  /** The loop of `check` that builds the format. */
  method Format(trimmed: string) returns (format: string)
    ensures format == FormatOf(trimmed)
  {
    hide Split, Join, Trim;
    var words := ScanSplit(trimmed, " ");
    format := "";
    EmptyJoin();
    if words == [] {
      return;
    }
    assert words[1..1] == [];
    var i := 1;
    while i < |words|
      invariant i <= |words| && format == Join(words[1..i], " ")
    {
      assert words[1..i + 1] == words[1..i] + [words[i]];
      JoinSnoc(words[1..i], words[i], " ");
      format := if i == 1 then words[i] else format + (" " + words[i]);
      i := i + 1;
    }
    assert words[1..i] == words[1..];
    format := TrimScan(format);
  }

  predicate OnlyChannel(format: string) {
    CharAt(format, 0) == '#' && ' ' !in format
  }

  predicate OnlyNickName(format: string) {
    CharAt(format, 0) != '#' && ' ' !in format
  }

  predicate OnlyNickAndChannelName(format: string) {
    CharAt(format, 0) != '#' &&
    match CutAt(format, " ")
    case Whole => false
    case Parts(nick, channel) => CharAt(channel, 0) == '#' && ' ' !in channel && ' ' !in nick
  }

  predicate OnlyChannelAndMessage(format: string) {
    match CutAt(format, " ")
    case Whole => false
    case Parts(channel, _) => CharAt(channel, 0) == '#' && ' ' !in channel
  }

  predicate OnlyMode(format: string) {
    match CutAt(format, " ")
    case Whole => CharAt(format, 0) == '#'
    case Parts(channel, mode) =>
      var sign, letter := CharAt(mode, 0), CharAt(mode, 1);
      && CharAt(channel, 0) == '#'
      && (sign == '+' || sign == '-')
      && (letter == 'o' || letter == 'i' || letter == 'b' || letter == 'k' || letter == 't' || letter == 'l')
      && if letter == 'l' && sign == '+' then |mode| > 2 && Atoi(mode[2..]) != 0
         else if letter == 'l' then |mode| == 2
         else ' ' !in channel
  }

  /** The test that `Checker::check` makes for the command. */
  predicate Accepts(command: string, trimmed: string, format: string) {
    match command
    case "WHO" => OnlyChannel(format)
    case "NICK" => OnlyNickName(format)
    case "INVITE" => OnlyNickAndChannelName(format)
    case "QUIT" => format != ""
    case "TOPIC" => OnlyChannelAndMessage(format)
    case "KICK" => OnlyChannelAndMessage(format)
    case "PART" => OnlyChannelAndMessage(format)
    case "MODE" => OnlyMode(format)
    case "NOTICE" => |Words(trimmed)| >= 2
    case "PRIVMSG" => |Words(trimmed)| >= 2
    case "WHOIS" => ' ' !in format
    case "JOIN" => CharAt(format, 0) == '#'
    case _ => true
  }

  /** The value of the leading digits, if there are any. */
  function DigitsValue(s: string, acc: int, any: bool): Option<int> {
    if s != "" && IsDigit(s[0]) then DigitsValue(s[1..], 10 * acc + (s[0] as int - '0' as int), true)
    else if any then Some(acc)
    else None
  }

  /** White space, an optional sign, digits. */
  function Number(s: string): Option<int> {
    var t := TrimLeft(s);
    if t != "" && t[0] == '-' then
      match DigitsValue(t[1..], 0, false)
      case None => None
      case Some(v) => Some(-v)
    else if t != "" && t[0] == '+' then DigitsValue(t[1..], 0, false)
    else DigitsValue(t, 0, false)
  }

  function Clamp(v: int, bits: nat): int
    requires bits == 32 || bits == 64
  {
    var top := if bits == 32 then 0x8000_0000 else 0x8000_0000_0000_0000;
    if v >= top then top - 1 else if v < -top then -top else v
  }

  /** `atoi`, as `strtol` cut down to 32 bits. */
  function Atoi(s: string): int {
    match Number(s)
    case None => 0
    case Some(v) =>
      var low := Clamp(v, 64) % 0x1_0000_0000;
      if low >= 0x8000_0000 then low - 0x1_0000_0000 else low
  }

  /**
   * `Utils::toInt`: `stringstream >> int`, which saturates. The variable is never set before, so without a number the
   * result is `unset`, whatever that is.
   */
  function ToInt(s: string, unset: Int32): Int32 {
    match Number(s)
    case None => unset
    case Some(v) => Clamp(v, 32)
  }
}
