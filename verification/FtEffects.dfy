/**
 * Every line of the 42-Ft_irc protocol has one of five effects, and each effect names who may cause it.
 * All claims about runs rest on this classification instead of on the handlers.
 */
module FtEffects {
  import opened Lists
  import opened Text
  import opened Tokenizer
  import opened FtParser
  import opened FtState
  import opened FtChannel
  import opened FtSteps

  /** A change of a single channel. */
  datatype Edit<Id> =
    | Enter(c: Id)
    | Exit(c: Id)
    | Grant(c: Id)
    | Revoke(c: Id)
    | BanHost(c: Id)
    | UnbanHost(c: Id)
    | Invited(c: Id)
    | Limit(n: nat)
    | InviteFlag(on: bool)
    | Key(key: string)
    | Topic(text: string)

  function Apply<Id(==)>(info: map<Id, ClientInfo>, ch: Chan<Id>, e: Edit<Id>): Chan<Id> {
    match e
    case Enter(c) =>
      ch.(operators := if ch.clients == [] then ch.operators + [c] else ch.operators, clients := ch.clients + [c])
    case Exit(c) => Drop(info, ch, c)
    case Grant(c) => ch.(operators := ch.operators + [c])
    case Revoke(c) => ch.(operators := RemoveFirst(ch.operators, c))
    case BanHost(c) => Drop(info, ch.(bans := ch.bans + [c]), c)
    case UnbanHost(c) => ch.(bans := RemoveFirst(ch.bans, c))
    case Invited(c) => ch.(invites := ch.invites + [c])
    case Limit(n) => ch.(limit := n)
    case InviteFlag(on) => ch.(inviteOnly := on)
    case Key(key) => ch.(password := key)
    case Topic(text) => ch.(topic := text)
  }

  /** The descriptor is that of an operator of the channel. */
  predicate Rules<Id(==)>(info: map<Id, ClientInfo>, ch: Chan<Id>, fd: int) {
    ByFd(info, ch.operators, fd).Some?
  }

  /** The line is a MODE line for the channel, and it reads as `m`. */
  predicate Orders(line: string, name: string, m: ModeInfo) {
    CommandOf(line) == "MODE" && ParsedMode(line) == Some(m) && m.channel == name
  }

  /** The line is a MODE line for the channel with the given letter and sign. */
  predicate IsMode(line: string, name: string, key: char, status: bool) {
    && CommandOf(line) == "MODE" && ParsedMode(line).Some?
    && var m := ParsedMode(line).value;
    && m.channel == name && LowerChar(m.key) == key && m.status == status
  }

  /** The nick that an o line is about. */
  function NamedBy(line: string): string {
    if ParsedMode(line).None? then "" else ParsedMode(line).value.parameters
  }

  /** The host that a +b line bans. */
  function BanHostOf(line: string): string {
    var words := Split(BanMask(NamedBy(line)), "@");
    if |words| < 2 then "" else words[1]
  }

  /** The host that a -b line lifts the ban of. */
  function UnbanHostOf(line: string): string {
    if ParsedMode(line).None? then ""
    else
      var words := Split(BanMask(ParsedMode(line).value.parameters), "@");
      if |words| < 2 then "" else Trim(words[1])
  }

  /** The limit that an l line sets. */
  function LimitOfLine(line: string, unset: Int32): nat {
    if ParsedMode(line).None? then 0
    else
      var m := ParsedMode(line).value;
      if m.status then LimitOf(ToInt(m.parameters, unset)) else 0
  }

  /** The line is the sender's PART of the channel. */
  predicate PartsFrom<Id(==)>(w: World<Id>, ch: Chan<Id>, fd: int, line: string, c: Id) {
    CommandOf(line) == "PART" && ParsedInfo(line).function_ == ch.name && ByFd(w.info, w.live, fd) == Some(c)
  }

  /** The line is an operator's KICK that names the member. */
  predicate Kicks<Id(==)>(w: World<Id>, ch: Chan<Id>, fd: int, line: string, c: Id) {
    && CommandOf(line) == "KICK" && Rules(w.info, ch, fd) && KickHead(line).Some?
    && var p := ParsedInfo(KickHead(line).value);
    p.function_ == ch.name && ByNick(w.info, ch.clients, p.value) == Some(c)
  }

  /** The line is an operator's INVITE that names the client. */
  predicate Invites<Id(==)>(w: World<Id>, ch: Chan<Id>, fd: int, line: string, c: Id) {
    && CommandOf(line) == "INVITE" && Rules(w.info, ch, fd)
    && ParsedInfo(line).value == ch.name && ByNick(w.info, w.live, ParsedInfo(line).function_) == Some(c)
  }

  /** The line is a TOPIC of the channel with the text after its first colon. */
  predicate Titles(line: string, name: string, text: string) {
    && CommandOf(line) == "TOPIC" && ParsedInfo(line).function_ == name
    && |Split(line, ":")| >= 2 && text == Split(line, ":")[1]
  }

  /** A MODE line with the letter and either sign. */
  predicate IsEither(line: string, name: string, key: char) {
    IsMode(line, name, key, true) || IsMode(line, name, key, false)
  }

  /** The line is the sender's JOIN of the channel, and it passes all checks. */
  predicate Joins<Id(==)>(w: World<Id>, ch: Chan<Id>, fd: int, line: string, c: Id) {
    && CommandOf(line) == "JOIN" && ParsedInfo(line).function_ == ch.name
    && ByFd(w.info, w.live, fd) == Some(c) && Of(w.info, c).login
    && Admit(w.info, ch, c).Joined? && (ch.password == "" || ch.password == ParsedInfo(line).value)
  }

  /** Who may cause an edit, and with which line. */
  ghost predicate Allowed<Id>(w: World<Id>, ch: Chan<Id>, fd: int, line: string, e: Edit<Id>) {
    match e
    case Enter(c) => Joins(w, ch, fd, line, c)
    case Exit(c) => c in ch.clients && (PartsFrom(w, ch, fd, line, c) || Kicks(w, ch, fd, line, c))
    case Grant(c) =>
      && IsMode(line, ch.name, 'o', true) && Rules(w.info, ch, fd) && c in ch.clients && c !in ch.operators
      && ByNick(w.info, ch.clients, NamedBy(line)) == Some(c)
    case Revoke(c) =>
      && IsMode(line, ch.name, 'o', false) && Rules(w.info, ch, fd)
      && ByNick(w.info, ch.clients, NamedBy(line)) == Some(c)
    case BanHost(c) =>
      && IsMode(line, ch.name, 'b', true) && Rules(w.info, ch, fd)
      && c in ch.clients && Of(w.info, c).host == BanHostOf(line)
      && ByHost(w.info, ch.bans, Of(w.info, c).host).None?
    case UnbanHost(c) =>
      && IsMode(line, ch.name, 'b', false) && Rules(w.info, ch, fd)
      && c in ch.bans && Of(w.info, c).host == UnbanHostOf(line)
    case Invited(c) => Invites(w, ch, fd, line, c) && c in w.live && c !in ch.invites
    case Limit(n) => IsEither(line, ch.name, 'l') && Rules(w.info, ch, fd) && n == LimitOfLine(line, w.unset)
    case InviteFlag(on) => IsMode(line, ch.name, 'i', on) && Rules(w.info, ch, fd)
    case Key(key) => IsEither(line, ch.name, 'k') && Rules(w.info, ch, fd) && key == NamedBy(line)
    case Topic(text) =>
      && Rules(w.info, ch, fd)
      && (Titles(line, ch.name, text) || (IsEither(line, ch.name, 't') && text == NamedBy(line)))
  }

  datatype Effect<!Id(==)> =
    | Quiet
    | Profile(c: Id, i: ClientInfo)
    | Founded(c: Id, name: string)
    | Edited(at: nat, e: Edit<Id>)
    | Gone(before: map<Id, ClientInfo>, first: seq<Option<Id>>, second: seq<Option<Id>>)

  /**
   * What a client may do to its own record: host and descriptor stay, a login needs the server's password, a new nick
   * is free.
   */
  ghost predicate ProfileOk<Id>(w: World<Id>, c: Id, i: ClientInfo) {
    var me := Of(w.info, c);
    && c in w.info && c in w.live
    && i.fd == me.fd && i.host == me.host
    && (me.login ==> i.login)
    && (i.login && !me.login ==> me.password == w.password)
    && (i.nick == me.nick || ByNick(w.info, w.live, i.nick).None?)
  }

  /** Which commands may change what in the sender's record. */
  predicate ProfileLine(line: string, me: ClientInfo, i: ClientInfo) {
    match CommandOf(line)
    case "PASS" => i == me.(password := i.password)
    case "NICK" => i == me.(nick := i.nick, taken := i.taken, login := i.login)
    case "USER" => i == me.(user := i.user, realName := i.realName, login := i.login)
    case _ => false
  }

  /** A USER that removes its sender had the wrong password, so nobody got a login by it. */
  ghost predicate Unregistered<Id>(w: World<Id>, info: map<Id, ClientInfo>, fd: int) {
    match ByFd(w.info, w.live, fd)
    case None => false
    case Some(c) => Of(w.info, c).password != w.password && Of(info, c).login == Of(w.info, c).login
  }

  /** The records after the sender changed at most its own, and not its nick. */
  ghost predicate RecordsOk<Id>(w: World<Id>, info: map<Id, ClientInfo>, fd: int) {
    info == w.info ||
    match ByFd(w.info, w.live, fd)
    case None => false
    case Some(c) =>
      ProfileOk(w, c, Of(info, c)) && Of(info, c).nick == Of(w.info, c).nick && info == w.info[c := Of(info, c)]
  }

  /** The channel after at most two departures. */
  function TwoLeave<Id(==)>(info: map<Id, ClientInfo>, ch: Chan<Id>, a: Option<Id>, b: Option<Id>): Chan<Id> {
    DropOption(info, DropOption(info, ch, a), b)
  }

  ghost predicate HasFd<Id>(info: map<Id, ClientInfo>, c: Option<Id>, fd: int) {
    c.Some? ==> Of(info, c.value).fd == fd
  }

  /** The client with the descriptor is off the list, and at most two entries are gone from each channel. */
  ghost predicate GoneTo<Id>(w: World<Id>, w': World<Id>, fd: int, first: seq<Option<Id>>, second: seq<Option<Id>>) {
    && w'.password == w.password && w'.unset == w.unset
    && RecordsOk(w, w'.info, fd)
    && w'.live == DropFd(w'.info, DropFd(w'.info, w.live, fd), fd)
    && |w'.channels| == |w.channels| == |first| == |second|
    && (forall i :: 0 <= i < |w.channels| ==> w'.channels[i] == TwoLeave(w'.info, w.channels[i], first[i], second[i]))
    && (forall i :: 0 <= i < |w.channels| ==> HasFd(w.info, first[i], fd) && HasFd(w.info, second[i], fd))
    && forall i :: 0 <= i < |w.channels| ==>
         second[i] == ByFd(w'.info, DropOption(w'.info, w.channels[i], first[i]).clients, fd)
  }

  ghost predicate Explains<Id>(w: World<Id>, w': World<Id>, fd: int, line: string, effect: Effect<Id>) {
    match effect
    case Quiet => w' == w
    case Profile(c, i) =>
      && ByFd(w.info, w.live, fd) == Some(c) && ProfileOk(w, c, i) && ProfileLine(line, Of(w.info, c), i)
      && w' == SetInfo(w, c, i)
    case Founded(c, name) =>
      && CommandOf(line) == "JOIN" && ByFd(w.info, w.live, fd) == Some(c) && Of(w.info, c).login
      && ByName(w.channels, name).None? && name == ParsedInfo(line).function_
      && w' == w.(channels := w.channels + [NewChan(name).(clients := [c], operators := [c])])
    case Edited(i, e) =>
      && i < |w.channels| && Allowed(w, w.channels[i], fd, line, e)
      && w' == With(w, i, Apply(w.info, w.channels[i], e))
    case Gone(info, first, second) =>
      && info == w'.info && GoneTo(w, w', fd, first, second)
      && if CommandOf(line) == "USER" then Unregistered(w, w'.info, fd)
         else CommandOf(line) == "QUIT" && w'.info == w.info
  }

  // ---------------------------------------------------------------- the handlers, one by one

  lemma JoinExplained<Id>(w: World<Id>, line: string, fd: int) returns (effect: Effect<Id>)
    requires CommandOf(line) == "JOIN" && JoinStep(w, line, fd).Some?
    requires Of(w.info, ByFd(w.info, w.live, fd).value).login
    ensures Explains(w, JoinStep(w, line, fd).value, fd, line, effect)
    ensures effect.Quiet? || effect.Founded? || (effect.Edited? && effect.e.Enter?)
  {
    hide CommandOf, ParsedInfo;
    var w' := JoinStep(w, line, fd).value;
    var c := ByFd(w.info, w.live, fd).value;
    var name := ParsedInfo(line).function_;
    if w' == w {
      effect := Quiet;
    } else {
      match ByName(w.channels, name)
      case None =>
        effect := Founded(c, name);
        assert [] + [c] == [c];
      case Some(i) => effect := Edited(i, Enter(c));
    }
  }

  lemma PartExplained<Id>(w: World<Id>, line: string, fd: int) returns (effect: Effect<Id>)
    requires CommandOf(line) == "PART"
    requires PartStep(w, line, fd).Some?
    ensures Explains(w, PartStep(w, line, fd).value, fd, line, effect)
    ensures effect.Quiet? || (effect.Edited? && effect.e.Exit?)
  {
    hide CommandOf, ParsedInfo, Drop;
    effect := Quiet;
    var c := ByFd(w.info, w.live, fd).value;
    match ByName(w.channels, ParsedInfo(line).function_)
    case None =>
    case Some(i) =>
      if c in w.channels[i].clients {
        effect := Edited(i, Exit(c));
      } else {
        DropAbsent(w.info, w.channels[i], c);
      }
  }

  lemma DropAbsent<Id>(info: map<Id, ClientInfo>, ch: Chan<Id>, c: Id)
    requires c !in ch.clients
    ensures Drop(info, ch, c) == ch
  {
  }

  lemma KickExplained<Id>(w: World<Id>, line: string, fd: int) returns (effect: Effect<Id>)
    requires CommandOf(line) == "KICK"
    requires KickStep(w, line, fd).Some?
    ensures Explains(w, KickStep(w, line, fd).value, fd, line, effect)
    ensures effect.Quiet? || (effect.Edited? && effect.e.Exit?)
  {
    hide CommandOf, ParsedInfo, KickHead, Drop;
    effect := Quiet;
    if KickStep(w, line, fd).value != w {
      var p := ParsedInfo(KickHead(line).value);
      var i := ByName(w.channels, p.function_).value;
      effect := Edited(i, Exit(ByNick(w.info, w.channels[i].clients, p.value).value));
    }
  }

  lemma InviteExplained<Id>(w: World<Id>, line: string, fd: int) returns (effect: Effect<Id>)
    requires CommandOf(line) == "INVITE"
    requires InviteStep(w, line, fd).Some?
    ensures Explains(w, InviteStep(w, line, fd).value, fd, line, effect)
    ensures effect.Quiet? || (effect.Edited? && effect.e.Invited?)
  {
    hide CommandOf, ParsedInfo;
    effect := Quiet;
    if InviteStep(w, line, fd).value != w {
      var p := ParsedInfo(line);
      effect := Edited(ByName(w.channels, p.value).value, Invited(ByNick(w.info, w.live, p.function_).value));
    }
  }

  lemma TopicExplained<Id>(w: World<Id>, line: string, fd: int) returns (effect: Effect<Id>)
    requires CommandOf(line) == "TOPIC"
    requires TopicStep(w, line, fd).Some?
    ensures Explains(w, TopicStep(w, line, fd).value, fd, line, effect)
    ensures effect.Quiet? || (effect.Edited? && effect.e.Topic?)
  {
    hide CommandOf, ParsedInfo, Split;
    effect := Quiet;
    if TopicStep(w, line, fd).value != w {
      var i := ByName(w.channels, ParsedInfo(line).function_).value;
      var ch := w.channels[i];
      effect := Edited(i, Topic(Split(line, ":")[1]));
    }
  }

  lemma OperatorExplained<Id>(w: World<Id>, i: nat, m: ModeInfo, fd: int, line: string) returns (effect: Effect<Id>)
    requires i < |w.channels| && Rules(w.info, w.channels[i], fd) && LowerChar(m.key) == 'o'
    requires Orders(line, w.channels[i].name, m)
    requires OperatorStep(w, i, m).Some?
    ensures Explains(w, OperatorStep(w, i, m).value, fd, line, effect)
    ensures effect.Quiet? || (effect.Edited? && effect.at == i)
    ensures effect.Edited? ==> if m.status then effect.e.Grant? else effect.e.Revoke?
  {
    hide CommandOf, ParsedMode, LowerChar, Rules;
    effect := Quiet;
    if OperatorStep(w, i, m).value != w {
      var c := ByNick(w.info, w.channels[i].clients, m.parameters).value;
      effect := Edited(i, if m.status then Grant(c) else Revoke(c));
    }
  }

  lemma BanExplained<Id>(w: World<Id>, i: nat, m: ModeInfo, fd: int, line: string) returns (effect: Effect<Id>)
    requires i < |w.channels| && Rules(w.info, w.channels[i], fd) && LowerChar(m.key) == 'b'
    requires Orders(line, w.channels[i].name, m)
    requires BanStep(w, i, m).Some?
    ensures Explains(w, BanStep(w, i, m).value, fd, line, effect)
    ensures effect.Quiet? || (effect.Edited? && effect.at == i)
    ensures effect.Edited? ==> if m.status then effect.e.BanHost? else effect.e.UnbanHost?
  {
    hide CommandOf, ParsedMode, LowerChar, Rules, Explains, BanStep, Split, BanMask, Allowed, Apply, Orders, With;
    QuietExplains(w, fd, line);
    effect := Quiet;
    if BanStep(w, i, m).value == w {
      return;
    }
    if m.status {
      BanSetEdit(w, i, m);
      var c := Victim(w, i, m);
      BanAllowed(w, i, m, fd, line, c);
      EditExplains(w, i, BanHost(c), fd, line);
      effect := Edited(i, BanHost(c));
    } else {
      NoBansCleared(w, i, m);
      var x := BanClearedEdit(w, i, m);
      UnbanAllowed(w, i, m, fd, line, x);
      EditExplains(w, i, UnbanHost(x), fd, line);
      effect := Edited(i, UnbanHost(x));
    }
  }

  lemma BanAllowed<Id>(w: World<Id>, i: nat, m: ModeInfo, fd: int, line: string, c: Id)
    requires i < |w.channels| && Rules(w.info, w.channels[i], fd) && LowerChar(m.key) == 'b' && m.status
    requires Orders(line, w.channels[i].name, m)
    requires c in w.channels[i].clients && ByHost(w.info, w.channels[i].bans, Of(w.info, c).host).None?
    requires |Split(BanMask(m.parameters), "@")| >= 2 && Of(w.info, c).host == Split(BanMask(m.parameters), "@")[1]
    ensures Allowed(w, w.channels[i], fd, line, BanHost(c))
  {
    hide CommandOf, ParsedMode, LowerChar, Rules, Split, BanMask, ByHost;
  }

  lemma UnbanAllowed<Id>(w: World<Id>, i: nat, m: ModeInfo, fd: int, line: string, x: Id)
    requires i < |w.channels| && Rules(w.info, w.channels[i], fd) && LowerChar(m.key) == 'b' && !m.status
    requires Orders(line, w.channels[i].name, m) && x in w.channels[i].bans
    requires |Split(BanMask(m.parameters), "@")| >= 2
    requires Of(w.info, x).host == Trim(Split(BanMask(m.parameters), "@")[1])
    ensures Allowed(w, w.channels[i], fd, line, UnbanHost(x))
  {
    hide CommandOf, ParsedMode, LowerChar, Rules, Split, BanMask, Trim;
  }

  lemma EditExplains<Id>(w: World<Id>, i: nat, e: Edit<Id>, fd: int, line: string)
    requires i < |w.channels| && Allowed(w, w.channels[i], fd, line, e)
    ensures Explains(w, With(w, i, Apply(w.info, w.channels[i], e)), fd, line, Edited(i, e))
  {
  }

  /** The member entry that a ban hits. */
  ghost function Victim<Id>(w: World<Id>, i: nat, m: ModeInfo): Id
    requires i < |w.channels| && m.status && BanStep(w, i, m).Some? && BanStep(w, i, m).value != w
  {
    WithHost(w.info, w.channels[i].clients, Split(BanMask(m.parameters), "@")[1])[0]
  }

  lemma BanSetEdit<Id>(w: World<Id>, i: nat, m: ModeInfo)
    requires i < |w.channels| && m.status && BanStep(w, i, m).Some?
    ensures BanStep(w, i, m).value != w ==>
              var c := Victim(w, i, m);
              && c in w.channels[i].clients && ByHost(w.info, w.channels[i].bans, Of(w.info, c).host).None?
              && |Split(BanMask(m.parameters), "@")| >= 2 && Of(w.info, c).host == Split(BanMask(m.parameters), "@")[1]
              && BanStep(w, i, m).value == With(w, i, Apply(w.info, w.channels[i], BanHost(c)))
  {
    hide Split, BanMask, EchoAllOk, Drop;
    if BanStep(w, i, m).value != w {
      var c := Victim(w, i, m);
      assert c in WithHost(w.info, w.channels[i].clients, Split(BanMask(m.parameters), "@")[1]);
    }
  }

  lemma NoBansCleared<Id>(w: World<Id>, i: nat, m: ModeInfo)
    requires i < |w.channels| && !m.status && BanStep(w, i, m).Some?
    ensures w.channels[i].bans == [] ==> BanStep(w, i, m).value == w
  {
  }

  lemma BanClearedEdit<Id>(w: World<Id>, i: nat, m: ModeInfo) returns (x: Id)
    requires i < |w.channels| && !m.status && BanStep(w, i, m).Some? && w.channels[i].bans != []
    ensures BanStep(w, i, m).value != w ==>
              && x in w.channels[i].bans
              && |Split(BanMask(m.parameters), "@")| >= 2
              && Of(w.info, x).host == Trim(Split(BanMask(m.parameters), "@")[1])
              && BanStep(w, i, m).value == With(w, i, Apply(w.info, w.channels[i], UnbanHost(x)))
  {
    hide Split, BanMask, EchoAllOk, Trim;
    var ch := w.channels[i];
    x := ch.bans[0];
    if BanStep(w, i, m).value != w {
      var b := ByHost(w.info, ch.bans, Trim(Split(BanMask(m.parameters), "@")[1])).value;
      x := ByHost(w.info, ch.bans, Of(w.info, b).host).value;
    }
  }

  lemma SettingExplained<Id>(w: World<Id>, i: nat, m: ModeInfo, fd: int, line: string) returns (effect: Effect<Id>)
    requires i < |w.channels| && Rules(w.info, w.channels[i], fd)
    requires Orders(line, w.channels[i].name, m) && LowerChar(m.key) !in {'o', 'b'}
    requires ApplyMode(w, i, m).Some?
    ensures Explains(w, ApplyMode(w, i, m).value, fd, line, effect)
    ensures effect.Quiet? || (effect.Edited? && effect.at == i)
    ensures effect.Edited? ==> effect.e.Limit? || effect.e.InviteFlag? || effect.e.Key? || effect.e.Topic?
  {
    hide CommandOf, ParsedMode, Rules, ToInt, OperatorStep, BanStep;
    var ch := w.channels[i];
    effect := Quiet;
    match LowerChar(m.key)
    case 'l' =>
      if ch.clients != [] {
        effect := Edited(i, Limit(if m.status then LimitOf(ToInt(m.parameters, w.unset)) else 0));
      }
    case 'i' => effect := Edited(i, InviteFlag(m.status));
    case 'k' => effect := Edited(i, Key(m.parameters));
    case 't' => effect := Edited(i, Topic(m.parameters));
    case _ =>
  }

  lemma ApplyExplained<Id>(w: World<Id>, i: nat, m: ModeInfo, fd: int, line: string) returns (effect: Effect<Id>)
    requires i < |w.channels| && Rules(w.info, w.channels[i], fd) && Orders(line, w.channels[i].name, m)
    requires ApplyMode(w, i, m).Some?
    ensures Explains(w, ApplyMode(w, i, m).value, fd, line, effect)
    ensures effect.Quiet? || (effect.Edited? && effect.at == i)
  {
    hide Orders, Rules, OperatorStep, BanStep, LowerChar, Explains;
    if LowerChar(m.key) == 'o' {
      effect := OperatorExplained(w, i, m, fd, line);
    } else if LowerChar(m.key) == 'b' {
      effect := BanExplained(w, i, m, fd, line);
    } else {
      effect := SettingExplained(w, i, m, fd, line);
    }
  }

  lemma QuietExplains<Id>(w: World<Id>, fd: int, line: string)
    ensures Explains(w, w, fd, line, Quiet)
  {
  }

  lemma ModeExplained<Id>(w: World<Id>, line: string, fd: int) returns (effect: Effect<Id>)
    requires CommandOf(line) == "MODE" && ModeStep(w, line, fd).Some?
    ensures Explains(w, ModeStep(w, line, fd).value, fd, line, effect)
    ensures effect.Quiet? || effect.Edited?
  {
    hide CommandOf, ParsedMode, Words, ApplyMode, LowerChar, Explains;
    QuietExplains(w, fd, line);
    effect := Quiet;
    if ModeStep(w, line, fd).value != w {
      var m := ParsedMode(line).value;
      effect := ApplyExplained(w, ByName(w.channels, m.channel).value, m, fd, line);
    }
  }

  lemma PassExplained<Id>(w: World<Id>, line: string, fd: int) returns (effect: Effect<Id>)
    requires CommandOf(line) == "PASS"
    requires (forall c <- w.live :: c in w.info) && PassStep(w, line, fd).Some?
    ensures Explains(w, PassStep(w, line, fd).value, fd, line, effect)
    ensures effect.Profile?
  {
    hide CommandOf, ParsedInfo;
    var c := ByFd(w.info, w.live, fd).value;
    effect := Profile(c, Of(w.info, c).(password := ParsedInfo(line).function_));
  }

  lemma NickExplained<Id>(w: World<Id>, line: string, fd: int) returns (effect: Effect<Id>)
    requires CommandOf(line) == "NICK"
    requires (forall c <- w.live :: c in w.info) && NickStep(w, line, fd).Some?
    ensures Explains(w, NickStep(w, line, fd).value, fd, line, effect)
    ensures effect.Profile?
  {
    hide CommandOf, ParsedInfo;
    var c := ByFd(w.info, w.live, fd).value;
    effect := Profile(c, NickStep(w, line, fd).value.info[c]);
  }

  lemma UserExplained<Id>(w: World<Id>, line: string, fd: int) returns (effect: Effect<Id>)
    requires CommandOf(line) == "USER"
    requires (forall c <- w.live :: c in w.info) && UserStep(w, line, fd).Some?
    ensures Explains(w, UserStep(w, line, fd).value, fd, line, effect)
    ensures effect.Profile? || effect.Gone?
  {
    hide CommandOf, ParsedUser, ServerRemove, GoneTo;
    var c := ByFd(w.info, w.live, fd).value;
    var w' := UserStep(w, line, fd).value;
    var me := Registered(Of(w.info, c), ParsedUser(line).value, w.password);
    if me.password == w.password {
      effect := Profile(c, me);
    } else {
      var first, second := RemovalIsGone(w, SetInfo(w, c, me), fd);
      effect := Gone(w'.info, first, second);
    }
  }

  lemma RemovalIsGone<Id>(w: World<Id>, v: World<Id>, fd: int) returns (first: seq<Option<Id>>, second: seq<Option<Id>>)
    requires v == w.(info := v.info) && RecordsOk(w, v.info, fd)
    ensures ServerRemove(v, fd).info == v.info && GoneTo(w, ServerRemove(v, fd), fd, first, second)
  {
    hide Leave, DropFd, RecordsOk, TwoLeave, HasFd;
    first := seq(|w.channels|, _ => None);
    second := seq(|w.channels|, i requires 0 <= i < |w.channels| => ByFd(v.info, w.channels[i].clients, fd));
    forall k | 0 <= k < |w.channels|
      ensures Leave(v.info, v.channels[k], fd) == TwoLeave(v.info, v.channels[k], first[k], second[k])
      ensures HasFd(w.info, first[k], fd) && HasFd(w.info, second[k], fd)
    {
      LeaveIsTwoLeave(v.info, v.channels[k], fd);
      FoundHasFd(v.info, w.channels[k].clients, fd);
      FoundHasFd(w.info, w.channels[k].clients, fd);
      FdKept(w, v.info, fd, second[k]);
    }
  }

  lemma FdKept<Id>(w: World<Id>, info: map<Id, ClientInfo>, fd: int, c: Option<Id>)
    requires RecordsOk(w, info, fd) && HasFd(info, c, fd)
    ensures HasFd(w.info, c, fd)
  {
  }

  lemma FoundHasFd<Id>(info: map<Id, ClientInfo>, s: seq<Id>, fd: int)
    ensures HasFd(info, ByFd(info, s, fd), fd) && HasFd<Id>(info, None, fd)
  {
  }

  lemma LeaveIsTwoLeave<Id>(info: map<Id, ClientInfo>, ch: Chan<Id>, fd: int)
    ensures Leave(info, ch, fd) == TwoLeave(info, ch, None, ByFd(info, ch.clients, fd))
  {
  }

  /** What a QUIT takes off a channel before the server itself removes the client. */
  function QuitOf<Id(==)>(info: map<Id, ClientInfo>, ch: Chan<Id>, c: Option<Id>, fd: int): Option<Id> {
    if ByFd(info, ch.clients, fd).Some? then c else None
  }

  lemma {:induction false} QuitChannelsDrop<Id>(info: map<Id, ClientInfo>, channels: seq<Chan<Id>>, c: Option<Id>,
                                                fd: int, message: string)
    requires QuitChannels(info, channels, c, fd, message).Some?
    ensures var r := QuitChannels(info, channels, c, fd, message).value;
            && |r| == |channels|
            && forall i :: 0 <= i < |r| ==> r[i] == DropOption(info, channels[i], QuitOf(info, channels[i], c, fd))
    decreases |channels|
  {
    hide QuitText, Others;
    if channels != [] {
      var k := if ByFd(info, channels[0].clients, fd).Some? then Others(info, channels[0].clients, fd) else 0;
      QuitChannelsDrop(info, channels[1..], c, fd, QuitText(message, k).value);
    }
  }

  lemma QuitExplained<Id>(w: World<Id>, line: string, fd: int) returns (effect: Effect<Id>)
    requires CommandOf(line) == "QUIT"
    requires QuitStep(w, line, fd).Some?
    ensures Explains(w, QuitStep(w, line, fd).value, fd, line, effect)
    ensures effect.Gone?
  {
    hide QuitChannels, Leave, DropFd, DropOption;
    var c := ByFd(w.info, w.live, fd);
    QuitChannelsDrop(w.info, w.channels, c, fd, line);
    var v := QuitChannels(w.info, w.channels, c, fd, line).value;
    var n := |w.channels|;
    var first := seq(n, i requires 0 <= i < n => QuitOf(w.info, w.channels[i], c, fd));
    var second := seq(n, i requires 0 <= i < n => ByFd(w.info, v[i].clients, fd));
    forall i | 0 <= i < n ensures Leave(w.info, v[i], fd) == TwoLeave(w.info, w.channels[i], first[i], second[i]) {
      LeaveIsDrop(w.info, v[i], fd);
    }
    effect := Gone(w.info, first, second);
  }

  lemma LeaveIsDrop<Id>(info: map<Id, ClientInfo>, ch: Chan<Id>, fd: int)
    ensures Leave(info, ch, fd) == DropOption(info, ch, ByFd(info, ch.clients, fd))
  {
  }

  /** Every line that the server survives has one of the five effects. */
  lemma LineExplained<Id>(w: World<Id>, line: string, fd: int) returns (effect: Effect<Id>)
    requires (forall c <- w.live :: c in w.info) && LineStep(w, line, fd).Some?
    ensures Explains(w, LineStep(w, line, fd).value, fd, line, effect)
  {
    hide Explains, QuitStep, UserStep, NickStep, PassStep, TalkStep, JoinStep, PartStep, WhoOk, ModeStep, KickStep;
    hide InviteStep, TopicStep;
    QuietExplains(w, fd, line);
    effect := Quiet;
    if CheckLine(w, line, fd).Run? {
      GateRuns(w, line, fd);
      hide CheckLine, CommandOf;
      match CommandOf(line)
      case "QUIT" => effect := QuitExplained(w, line, fd);
      case "USER" => effect := UserExplained(w, line, fd);
      case "NICK" => effect := NickExplained(w, line, fd);
      case "PASS" => effect := PassExplained(w, line, fd);
      case "PRIVMSG" => TalkKeeps(w, line, fd);
      case "NOTICE" => TalkKeeps(w, line, fd);
      case "JOIN" => effect := JoinExplained(w, line, fd);
      case "PART" => effect := PartExplained(w, line, fd);
      case "MODE" => effect := ModeExplained(w, line, fd);
      case "KICK" => effect := KickExplained(w, line, fd);
      case "INVITE" => effect := InviteExplained(w, line, fd);
      case "TOPIC" => effect := TopicExplained(w, line, fd);
      case _ =>
    }
  }

  lemma TalkKeeps<Id>(w: World<Id>, line: string, fd: int)
    ensures TalkStep(w, line, fd).Some? ==> TalkStep(w, line, fd).value == w
  {
  }

  /** What passing the gate means. */
  lemma GateRuns<Id>(w: World<Id>, line: string, fd: int)
    requires CheckLine(w, line, fd).Run?
    ensures CheckLine(w, line, fd).command == CommandOf(line) && CommandOf(line) in COMMANDS
    ensures CommandOf(line) !in {"QUIT", "USER", "NICK", "PASS"} ==>
              ByFd(w.info, w.live, fd).Some? && Of(w.info, ByFd(w.info, w.live, fd).value).login
  {
    hide CommandOf, Trim, FormatOf, Accepts;
  }
}
