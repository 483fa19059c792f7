/** What the ban modes of 42-Ft_irc do, and when the WHO that they send to every member is survived. */
module FtBans {
  import opened Lists
  import opened Text
  import opened Tokenizer
  import opened FtParser
  import opened FtSyntax
  import opened FtState
  import opened FtChannel
  import opened FtSteps
  import opened FtHistory
  import opened FtGate
  import opened FtCommands

  // ---------------------------------------------------------------- the host of a mask

  /** The host that a mask is about: what follows its first @, up to the next one; the whole mask if it has none. */
  lemma MaskHost(p: string, a: nat, b: nat)
    requires p != "" && a <= b <= |p| && '@' !in p[a..b] && (b == |p| || p[b] == '@')
    requires if '@' in p then 0 < a < |p| && p[a - 1] == '@' && '@' !in p[..a - 1] else a == 0 && b == |p|
    ensures |Split(BanMask(p), "@")| >= 2 && Split(BanMask(p), "@")[1] == p[a..b]
  {
    hide Split;
    var mask, k := BanMask(p), if '@' in p then 0 else 4;
    assert mask[k + a..k + b] == p[a..b];
    assert mask[..k + a - 1] == if k == 0 then p[..a - 1] else "*!*";
    SecondAt(mask, k + a, k + b);
  }

  lemma SecondAt(s: string, a: nat, b: nat)
    requires 0 < a <= b <= |s| && a < |s| && s[a - 1] == '@' && '@' !in s[..a - 1]
    requires '@' !in s[a..b] && (b == |s| || s[b] == '@')
    ensures |Split(s, "@")| >= 2 && Split(s, "@")[1] == s[a..b]
  {
    hide SplitAll, CutAt;
    CutFirst(s, '@', a - 1);
    SplitParts(s, "@", s[..a - 1], s[a..]);
    assert s[a..][..b - a] == s[a..b];
    PieceBefore(s[a..], '@', b - a);
  }

  lemma PieceBefore(s: string, c: char, k: nat)
    requires s != "" && k <= |s| && c !in s[..k] && (k == |s| || s[k] == c)
    ensures SplitAll(s, [c])[0] == s[..k] && SplitAll(s, [c]) != [""]
  {
    hide SplitAll, CutAt;
    if k == |s| {
      assert s[..k] == s;
      ContainsChar(s, c);
      SplitWhole(s, [c]);
    } else {
      CutFirst(s, c, k);
      SplitParts(s, [c], s[..k], s[k + 1..]);
    }
  }

  // ---------------------------------------------------------------- the WHO for every member

  /** Every entry of the channel has a connected client with its descriptor. */
  predicate AllThere<Id(==)>(w: World<Id>, ch: Chan<Id>) {
    forall m <- ch.clients :: FdAmong(w.info, w.live, Of(w.info, m).fd)
  }

  /** The gate lets the WHO of a channel name through, unless the name has no # in front. */
  lemma EchoGate<Id>(w: World<Id>, name: string, fd: int)
    requires name != "" && Trimmed(name) && ' ' !in name
    ensures CheckLine(w, WHO_COMMAND + name, fd) ==
            if name[0] != '#' then Ignored
            else
              match ByFd(w.info, w.live, fd)
              case None => Crash
              case Some(c) => if Of(w.info, c).login then Run("WHO") else Ignored
  {
    hide CheckLine, ByFd, Trimmed;
    var ws := ["WHO", name];
    WhoPrinted(name);
    GateIs(w, ws, "", fd);
    assert ws[1..] == [name];
    JoinedWho(name);
    assert Upper("WHO") == "WHO";
  }

  lemma WhoPrinted(name: string)
    requires name != "" && Trimmed(name) && ' ' !in name
    ensures Printed(["WHO", name])
  {
  }

  lemma JoinedWho(name: string)
    ensures Join(["WHO", name], " ") + "" == WHO_COMMAND + name
  {
    JoinCons("WHO", [name], " ");
    assert ["WHO"] + [name] == ["WHO", name];
    assert WHO_COMMAND == "WHO" + " ";
  }

  /** A WHO without a name is no command with arguments. */
  lemma EchoEmpty<Id>(w: World<Id>, fd: int)
    ensures CheckLine(w, WHO_COMMAND + "", fd) == if ByFd(w.info, w.live, fd).None? then Crash else Ignored
  {
    hide ByFd, Accepts, FormatOf, Trim, CommandOf;
    TrimPadded("", "WHO", " ");
    TrimIdentity("WHO");
    assert WHO_COMMAND + "" == "" + "WHO" + " ";
  }

  lemma EchoArg(name: string)
    requires name != "" && Trimmed(name) && ' ' !in name
    ensures ParsedInfo(WHO_COMMAND + name).function_ == name
  {
    hide ParsedInfo, Join, Trimmed;
    WhoPrinted(name);
    ParseRecovers(["WHO", name], "");
    JoinedWho(name);
  }

  /** The WHO of a member is survived if it is not handled, or its descriptor is that of a connected client. */
  lemma EchoIff<Id>(w: World<Id>, i: nat, fd: int)
    requires i < |w.channels| && ByName(w.channels, w.channels[i].name) == Some(i)
    requires Trimmed(w.channels[i].name) && ' ' !in w.channels[i].name && FdAmong(w.info, w.channels[i].clients, fd)
    ensures var name := w.channels[i].name;
            EchoOk(w, name, fd) <==> (name != "" && name[0] != '#') || FdAmong(w.info, w.live, fd)
  {
    hide CheckLine, ByFd, ByName, ParsedInfo, Trimmed;
    var name := w.channels[i].name;
    if name == "" {
      EchoEmpty(w, fd);
    } else {
      EchoGate(w, name, fd);
      EchoArg(name);
    }
  }

  lemma EchoAllIff<Id>(w: World<Id>, i: nat)
    requires i < |w.channels| && ByName(w.channels, w.channels[i].name) == Some(i)
    requires Trimmed(w.channels[i].name) && ' ' !in w.channels[i].name
    ensures var ch := w.channels[i];
            EchoAllOk(w, i) <==> (ch.name != "" && ch.name[0] != '#') || AllThere(w, ch)
  {
    hide EchoOk, ByName, Trimmed;
    var ch := w.channels[i];
    forall c | c in ch.clients
      ensures EchoOk(w, ch.name, Of(w.info, c).fd)
          <==> (ch.name != "" && ch.name[0] != '#') || FdAmong(w.info, w.live, Of(w.info, c).fd)
    {
      EchoIff(w, i, Of(w.info, c).fd);
    }
  }

  // ---------------------------------------------------------------- +b and -b

  /** The WHO of every member is survived, or none is handled. */
  predicate Heard<Id(==)>(w: World<Id>, ch: Chan<Id>) {
    (ch.name != "" && ch.name[0] != '#') || AllThere(w, ch)
  }

  lemma HeardIs<Id>(w: World<Id>, line: string, fd: int, i: nat, on: bool, p: string, ch: Chan<Id>)
    requires Ordered(w, line, fd, i, on, 'b', p) && ch.name == w.channels[i].name
    ensures EchoAllOk(With(w, i, ch), i) <==> Heard(w, ch)
  {
    hide Words, Trim, CheckLine, EchoAllOk, AllThere, Trimmed;
    WordName(line);
    StillThere(w, i, ch);
    EchoAllIff(With(w, i, ch), i);
    SameThere(w, With(w, i, ch), ch);
  }

  lemma WordName(line: string)
    requires |Words(line)| >= 2
    ensures Trimmed(Trim(Words(line)[1])) && ' ' !in Trim(Words(line)[1])
  {
    hide SplitAll, Trim, Trimmed;
    SplitFree(line, " ");
    var word := Words(line)[1];
    assert word in Words(line);
    ContainsChar(word, ' ');
    var lo, hi := TrimSplits(word);
  }

  lemma StillThere<Id>(w: World<Id>, i: nat, ch: Chan<Id>)
    requires ByName(w.channels, ch.name) == Some(i) && i < |w.channels|
    ensures ByName(With(w, i, ch).channels, ch.name) == Some(i)
  {
    hide ByName;
    var channels := With(w, i, ch).channels;
    assert channels[i].name == ch.name;
  }

  lemma SameThere<Id>(w: World<Id>, v: World<Id>, ch: Chan<Id>)
    requires v.info == w.info && v.live == w.live
    ensures AllThere(v, ch) <==> AllThere(w, ch)
  {
  }

  lemma {:induction false} VictimsAre<Id>(info: map<Id, ClientInfo>, s: seq<Id>, host: string)
    ensures |WithHost(info, s, host)| == CountHost(info, s, host)
    ensures ByHost(info, s, host).Some? <==> WithHost(info, s, host) != []
    ensures ByHost(info, s, host).Some? ==> WithHost(info, s, host)[0] == ByHost(info, s, host).value
  {
    if s != [] {
      VictimsAre(info, s[1..], host);
    }
  }

  /**
   * +b bans the first member entry with the host and takes it off the channel, unless the host is banned already. It
   * is not survived where a WHO that follows is not; with a second entry of the host none follows.
   */
  lemma BanSets<Id>(w: World<Id>, line: string, fd: int, i: nat, p: string, host: string)
    requires Ordered(w, line, fd, i, true, 'b', p) && p != ""
    requires |Split(BanMask(p), "@")| >= 2 && host == Split(BanMask(p), "@")[1]
    ensures var ch := w.channels[i];
            LineStep(w, line, fd) ==
            match ByHost(w.info, ch.clients, host)
            case None => if Heard(w, ch) then Some(w) else None
            case Some(c) =>
              if exists b <- ch.bans :: Of(w.info, b).host == host then Some(w)
              else
                var banned := ch.(bans := ch.bans + [c], clients := RemoveFirst(ch.clients, c),
                                  operators := RemoveFirst(ch.operators, c));
                if CountHost(w.info, ch.clients, host) >= 2 || Heard(w, banned)
                then Some(w.(channels := w.channels[i := banned])) else None
  {
    hide LineStep, Ordered, Operand, Words, Trim, Split, BanMask, ByHost, WithHost, Drop, EchoAllOk, Heard, RemoveFirst;
    OrderedApplies(w, line, fd, i, true, 'b', p);
    var ch := w.channels[i];
    VictimsAre(w.info, ch.clients, host);
    SameChannel(w, i);
    HeardIs(w, line, fd, i, true, p, ch);
    match ByHost(w.info, ch.clients, host)
    case None =>
    case Some(c) =>
      DropIs(w.info, ch.(bans := ch.bans + [c]), c);
      HeardIs(w, line, fd, i, true, p, Drop(w.info, ch.(bans := ch.bans + [c]), c));
  }

  /** A +b without a mask only lists the bans. */
  lemma BanLists<Id>(w: World<Id>, line: string, fd: int, i: nat)
    requires Ordered(w, line, fd, i, true, 'b', "")
    ensures LineStep(w, line, fd) == Some(w)
  {
    hide LineStep, Ordered, Operand, Words, Trim, SetBan, ClearBan;
    OrderedApplies(w, line, fd, i, true, 'b', "");
  }

  /** -b lifts the first ban of the host; where no ban has it, it is survived only without any ban. */
  lemma BanLifts<Id>(w: World<Id>, line: string, fd: int, i: nat, p: string, host: string)
    requires Ordered(w, line, fd, i, false, 'b', p)
    requires |Split(BanMask(p), "@")| >= 2 && host == Trim(Split(BanMask(p), "@")[1])
    ensures var ch := w.channels[i];
            LineStep(w, line, fd) ==
            if !Heard(w, ch) then None
            else
              match ByHost(w.info, ch.bans, host)
              case None => if ch.bans == [] then Some(w) else None
              case Some(b) => Some(w.(channels := w.channels[i := ch.(bans := RemoveFirst(ch.bans, b))]))
  {
    hide LineStep, Ordered, Operand, Words, Trim, Split, BanMask, ByHost, EchoAllOk, Heard, RemoveFirst;
    OrderedApplies(w, line, fd, i, false, 'b', p);
    SameChannel(w, i);
    HeardIs(w, line, fd, i, false, p, w.channels[i]);
  }

  /** A mask that ends at its first @, and a -b without a mask, are not survived. */
  lemma BanFails<Id>(w: World<Id>, line: string, fd: int, i: nat, on: bool, p: string)
    requires Ordered(w, line, fd, i, on, 'b', p) && (on ==> p != "") && |Split(BanMask(p), "@")| < 2
    ensures LineStep(w, line, fd) == None
  {
    hide LineStep, Ordered, Operand, Words, Trim, Split, BanMask, ByHost, EchoAllOk, RemoveFirst;
    OrderedApplies(w, line, fd, i, on, 'b', p);
  }

  lemma MaskEnds(p: string)
    requires p == "" || (p[|p| - 1] == '@' && '@' !in p[..|p| - 1])
    ensures |Split(BanMask(p), "@")| < 2
  {
    hide SplitAll;
    var mask := BanMask(p);
    CutFirst(mask, '@', |mask| - 1);
    SplitEmpty("@");
    assert mask[|mask| - 1 + 1..] == "";
    SplitParts(mask, "@", mask[..|mask| - 1], "");
  }
}
