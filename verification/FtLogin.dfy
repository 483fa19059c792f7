/** Over whole runs of the 42-Ft_irc server: which password a client has stored, and how it logged in. */
module FtLogin {
  import opened Text
  import opened FtParser
  import opened FtState
  import opened FtChannel
  import opened FtSteps
  import opened FtEffects
  import opened FtInvariant
  import opened FtHistory
  import opened FtCommands

  // ---------------------------------------------------------------- the stored password

  /** Event `j` is a PASS that the client sends and that is handled. */
  ghost predicate PassesAt<Id>(ws: seq<World<Id>>, es: seq<Event<Id>>, j: nat, c: Id)
    requires j < |es| && j < |ws|
  {
    && es[j].Line? && ByFd(ws[j].info, ws[j].live, es[j].fd) == Some(c)
    && CheckLine(ws[j], es[j].line, es[j].fd) == Run("PASS")
  }

  /** The client sends no PASS from event `j` up to state `k`. */
  ghost predicate NoPass<Id>(ws: seq<World<Id>>, es: seq<Event<Id>>, j: nat, k: nat, c: Id)
    requires k <= |es| && k <= |ws|
  {
    forall i :: j <= i < k ==> !PassesAt(ws, es, i, c)
  }

  /** Event `j` is the last PASS of the client before state `k`. */
  ghost predicate LastPass<Id>(ws: seq<World<Id>>, es: seq<Event<Id>>, j: nat, k: nat, c: Id)
    requires k <= |es| && k <= |ws|
  {
    j < k && PassesAt(ws, es, j, c) && NoPass(ws, es, j + 1, k, c)
  }

  /** A line changes the stored password of its sender only, and only if it is a PASS. */
  lemma LinePassword<Id>(w: World<Id>, line: string, fd: int, w': World<Id>, c: Id)
    requires Inv(w) && LineStep(w, line, fd) == Some(w') && c in w.info
    ensures c in w'.info && w'.info[c].password ==
            if CheckLine(w, line, fd) == Run("PASS") && ByFd(w.info, w.live, fd) == Some(c) then Arg(line)
            else w.info[c].password
  {
    hide *;
    if !CheckLine(w, line, fd).Run? {
      NotRun(w, line, fd);
    } else {
      RunIsCommand(w, line, fd);
      var known := LiveKnown(w);
      if CommandOf(line) == "PASS" {
        PassPassword(w, line, fd, w', c);
      } else if CommandOf(line) == "USER" {
        UserPassword(w, line, fd, w', c);
      } else {
        OtherPassword(w, line, fd, w', c);
      }
    }
  }

  lemma PassPassword<Id>(w: World<Id>, line: string, fd: int, w': World<Id>, c: Id)
    requires CheckLine(w, line, fd) == Run("PASS") && LineStep(w, line, fd) == Some(w') && c in w.info
    ensures c in w'.info
    ensures w'.info[c].password == if ByFd(w.info, w.live, fd) == Some(c) then Arg(line) else w.info[c].password
  {
    hide CheckLine, LineStep, Arg, ByFd;
    PassStores(w, line, fd);
  }

  lemma UserPassword<Id>(w: World<Id>, line: string, fd: int, w': World<Id>, c: Id)
    requires CheckLine(w, line, fd) == Run("USER") && LineStep(w, line, fd) == Some(w') && c in w.info
    ensures c in w'.info && w'.info[c].password == w.info[c].password
  {
    hide CheckLine, LineStep, ByFd, Words, ServerRemove;
    if ByFd(w.info, w.live, fd).None? || |Words(line)| < 5 {
      UserFails(w, line, fd);
    } else {
      var d := ByFd(w.info, w.live, fd).value;
      if Of(w.info, d).password == w.password {
        UserRegisters(w, line, fd, d);
      } else {
        UserRemoves(w, line, fd, d);
        var words := Words(line);
        var named := Of(w.info, d).(user := words[1], realName := if words[4] == "" then "" else words[4][1..]);
        RemovalInfo(w.(info := w.info[d := named]), fd);
      }
    }
  }

  lemma OtherPassword<Id>(w: World<Id>, line: string, fd: int, w': World<Id>, c: Id)
    requires (forall d <- w.live :: d in w.info) && LineStep(w, line, fd) == Some(w') && c in w.info
    requires CommandOf(line) !in {"PASS", "USER"}
    ensures c in w'.info && w'.info[c].password == w.info[c].password
  {
    hide LineStep, CommandOf, ByFd, ByName, ByNick, Allowed, Apply, GoneTo, ParsedInfo;
    var effect := LineExplained(w, line, fd);
  }

  /** An event changes the stored password of a known client only by its own PASS. */
  lemma StepPassword<Id>(w: World<Id>, event: Event<Id>, w': World<Id>, c: Id)
    requires Inv(w) && Enabled(w, event) && Step(w, event) == Some(w') && c in w.info
    ensures c in w'.info && w'.info[c].password ==
            if event.Line? && CheckLine(w, event.line, event.fd) == Run("PASS")
               && ByFd(w.info, w.live, event.fd) == Some(c)
            then Arg(event.line) else w.info[c].password
  {
    hide Inv, LineStep, CheckLine, ByFd, Arg, ServerRemove, SingleLine;
    match event
    case Connect(_, _, _) =>
    case Line(fd, line) => LinePassword(w, line, fd, w', c);
    case Hangup(fd) => RemovalInfo(w, fd);
  }

  /** A client that is not known sends nothing. */
  lemma UnknownSilent<Id>(w: World<Id>, c: Id, fd: int)
    requires Inv(w) && c !in w.info
    ensures ByFd(w.info, w.live, fd) != Some(c)
  {
    var known := LiveKnown(w);
    hide Inv;
  }

  /** Nor did it send anything before. */
  lemma {:induction false} UnknownBefore<Id>(ws: seq<World<Id>>, es: seq<Event<Id>>, k: nat, c: Id)
    requires IsRun(ws, es) && k < |ws| && c !in ws[k].info
    ensures NoPass(ws, es, 0, k, c)
  {
    hide Inv, Step, Enabled, CheckLine, ByFd, Extends;
    if k > 0 {
      var p := k - 1;
      RunStep(ws, es, p);
      StepExtends(ws[p], es[p]);
      ExtendsKnown(ws[p].info, ws[k].info, c);
      UnknownBefore(ws, es, p, c);
      if es[p].Line? {
        UnknownSilent(ws[p], c, es[p].fd);
      }
    }
  }

  lemma ExtendsKnown<Id>(info: map<Id, ClientInfo>, info': map<Id, ClientInfo>, c: Id)
    requires Extends(info, info') && c !in info'
    ensures c !in info
  {
  }

  /** A client that an event makes known has just connected. */
  lemma NewlyKnown<Id>(w: World<Id>, event: Event<Id>, w': World<Id>, c: Id)
    requires Inv(w) && Enabled(w, event) && Step(w, event) == Some(w') && c !in w.info && c in w'.info
    ensures event.Connect? && event.c == c && w'.info[c].password == "*"
  {
    hide LineStep, CommandOf, ByFd, ByName, ByNick, Allowed, Apply, TwoLeave, ParsedInfo, ServerRemove, SingleLine;
    hide ChannelsOk, NamesOk, LiveOk;
    match event
    case Connect(_, _, _) =>
    case Hangup(fd) => RemovalInfo(w, fd);
    case Line(fd, line) =>
      var known := LiveKnown(w);
      var effect := LineExplained(w, line, fd);
  }

  /** The stored password is the second word of the last PASS, and "*" before the first one. */
  lemma {:induction false} PasswordIs<Id>(ws: seq<World<Id>>, es: seq<Event<Id>>, k: nat, c: Id)
    requires IsRun(ws, es) && k < |ws| && c in ws[k].info
    ensures NoPass(ws, es, 0, k, c) ==> ws[k].info[c].password == "*"
    ensures forall j :: 0 <= j < k && LastPass(ws, es, j, k, c) ==> ws[k].info[c].password == Arg(es[j].line)
  {
    hide Inv, Step, Enabled, CheckLine, ByFd, Arg;
    if k > 0 {
      var p := k - 1;
      RunStep(ws, es, p);
      if c in ws[p].info {
        PasswordIs(ws, es, p, c);
        StepPassword(ws[p], es[p], ws[k], c);
        assert NoPass(ws, es, 0, k, c) ==> NoPass(ws, es, 0, p, c) && !PassesAt(ws, es, p, c);
        forall j | 0 <= j < k && LastPass(ws, es, j, k, c) ensures ws[k].info[c].password == Arg(es[j].line) {
          assert j < p ==> !PassesAt(ws, es, p, c) && LastPass(ws, es, j, p, c);
        }
      } else {
        NewlyKnown(ws[p], es[p], ws[k], c);
        UnknownBefore(ws, es, p, c);
      }
    }
  }

  lemma {:induction false} LastPassOrNone<Id>(ws: seq<World<Id>>, es: seq<Event<Id>>, k: nat, c: Id)
    returns (none: bool, j: nat)
    requires k <= |es| && k <= |ws|
    ensures if none then NoPass(ws, es, 0, k, c) else j < k && LastPass(ws, es, j, k, c)
  {
    hide PassesAt;
    if k == 0 {
      none, j := true, 0;
    } else if PassesAt(ws, es, k - 1, c) {
      none, j := false, k - 1;
    } else {
      none, j := LastPassOrNone(ws, es, k - 1, c);
    }
  }

  // ---------------------------------------------------------------- logging in

  /** Step `j` is a USER or NICK of `c` and grants it the login. */
  ghost predicate LoginAt<Id>(ws: seq<World<Id>>, es: seq<Event<Id>>, j: nat, c: Id) {
    && j < |es| && |ws| == |es| + 1
    && c in ws[j].info && !ws[j].info[c].login
    && es[j].Line? && ByFd(ws[j].info, ws[j].live, es[j].fd) == Some(c) && CommandOf(es[j].line) in {"USER", "NICK"}
    && c in ws[j + 1].info && ws[j + 1].info[c].login
  }

  /** The last PASS that the client sent before has the server's password, or it sent none and that is "*". */
  ghost predicate GavePassword<Id>(ws: seq<World<Id>>, es: seq<Event<Id>>, k: nat, c: Id)
    requires k <= |es| && k < |ws|
  {
    || (NoPass(ws, es, 0, k, c) && ws[0].password == "*")
    || exists j :: 0 <= j < k && LastPass(ws, es, j, k, c) && Arg(es[j].line) == ws[0].password
  }

  lemma StepLogin<Id>(w: World<Id>, event: Event<Id>, c: Id)
    requires Inv(w) && Enabled(w, event) && Step(w, event).Some?
    requires c in Step(w, event).value.info && Step(w, event).value.info[c].login
    requires !(c in w.info && w.info[c].login)
    ensures c in w.info && w.info[c].password == w.password && event.Line?
    ensures ByFd(w.info, w.live, event.fd) == Some(c) && CommandOf(event.line) in {"USER", "NICK"}
  {
    hide LineStep, Allowed, Apply, TwoLeave, NamesOk, ChannelsOk, CommandOf, ParsedInfo, LiveOk, ServerRemove;
    hide SingleLine;
    match event
    case Connect(_, fd, host) =>
    case Hangup(fd) => RemovalInfo(w, fd);
    case Line(fd, line) =>
      var known := LiveKnown(w);
      var effect := LineExplained(w, line, fd);
  }

  /** Whoever is logged in had given the server's password when the login was granted. */
  lemma {:induction false} LoginProvenance<Id>(ws: seq<World<Id>>, es: seq<Event<Id>>, k: nat, c: Id) returns (j: nat)
    requires IsRun(ws, es) && k < |ws|
    requires c in ws[k].info && ws[k].info[c].login
    ensures j < k && LoginAt(ws, es, j, c) && GavePassword(ws, es, j, c)
  {
    hide Inv, Step, Enabled, PassesAt, Arg;
    assert k > 0;
    var p := k - 1;
    RunStep(ws, es, p);
    if c in ws[p].info && ws[p].info[c].login {
      j := LoginProvenance(ws, es, p, c);
    } else {
      StepLogin(ws[p], es[p], c);
      PasswordConstant(ws, es, p);
      j := p;
      PasswordIs(ws, es, p, c);
      var none, i := LastPassOrNone(ws, es, p, c);
    }
  }

  lemma {:induction false} PasswordConstant<Id>(ws: seq<World<Id>>, es: seq<Event<Id>>, k: nat)
    requires IsRun(ws, es) && k < |ws|
    ensures ws[k].password == ws[0].password
  {
    hide Inv, Step, Enabled, Extends;
    if k > 0 {
      PasswordConstant(ws, es, k - 1);
      RunStep(ws, es, k - 1);
      StepExtends(ws[k - 1], es[k - 1]);
    }
  }

  /** Every member of every channel got in with the server's password. */
  lemma MembersKnewPassword<Id>(ws: seq<World<Id>>, es: seq<Event<Id>>, k: nat, i: nat, c: Id) returns (j: nat)
    requires IsRun(ws, es) && k < |ws| && i < |ws[k].channels| && c in ws[k].channels[i].clients
    ensures j < k && LoginAt(ws, es, j, c) && GavePassword(ws, es, j, c)
  {
    hide IsRun, GavePassword;
    RunInv(ws, es, k);
    assert ChanOk(ws[k].info, ws[k].channels[i]);
    j := LoginProvenance(ws, es, k, c);
  }
}
