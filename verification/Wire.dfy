/** The byte side of `_irc_`: the partial-write loop and the framing of received text. */
module Wire {
  import opened Text
  import opened Tokenizer

  /** What one `send` reports: a number of bytes taken, a full buffer, an error, or a closed socket. */
  datatype SendResult = Took(n: nat) | WouldBlock | Failed

  /** `sendMessage` returns true or false, throws, or is still retrying when the script of results ends. */
  datatype Outcome = ReturnedTrue | ReturnedFalse | Threw | Retrying

  function Total(results: seq<SendResult>): nat {
    if results == [] then 0 else (if results[0].Took? then results[0].n else 0) + Total(results[1..])
  }

  lemma {:induction false} TotalSnoc(results: seq<SendResult>, last: SendResult)
    ensures Total(results + [last]) == Total(results) + if last.Took? then last.n else 0
  {
    if results == [] {
      assert [] + [last] == [last];
    } else {
      assert (results + [last])[1..] == results[1..] + [last];
      TotalSnoc(results[1..], last);
    }
  }

  /**
   * `Server::sendMessage`. The kernel takes a prefix of what it is offered, never more than that.
   * Whatever it answers, the bytes on the wire are a prefix of the message without loss or repetition,
   * and `true` comes back exactly when that prefix is the whole message.
   */
  method SendMessage(msg: string, results: seq<SendResult>)
    returns (outcome: Outcome, wire: string, used: nat)
    requires forall i :: 0 <= i < |results| && results[i].Took? ==> results[i].n <= |msg| - Total(results[..i])
    ensures used <= |results| && wire <= msg && |wire| == Total(results[..used])
    ensures outcome.ReturnedTrue? <==> wire == msg
    ensures outcome.ReturnedFalse? ==> used > 0 && results[used - 1] == Took(0)
    ensures outcome.Threw? ==> used > 0 && results[used - 1] == Failed
    ensures outcome.Retrying? ==> used == |results|
    ensures forall i :: 0 <= i < used && !(i == used - 1 && (outcome.ReturnedFalse? || outcome.Threw?))
                        ==> results[i] != Took(0) && results[i] != Failed
  {
    var totalSend := 0;
    var remaining := |msg|;
    wire, used := "", 0;
    while totalSend < |msg| && used < |results|
      invariant used <= |results|
      invariant 0 <= totalSend <= |msg| && totalSend + remaining == |msg|
      invariant totalSend == Total(results[..used])
      invariant wire == msg[..totalSend]
      invariant forall i :: 0 <= i < used ==> results[i] != Took(0) && results[i] != Failed
      decreases |results| - used
    {
      var sent := results[used];
      assert results[..used + 1] == results[..used] + [sent];
      TotalSnoc(results[..used], sent);
      used := used + 1;
      match sent {
        case WouldBlock =>
          continue;
        case Failed =>
          return Threw, wire, used;
        case Took(n) =>
          if n == 0 {
            return ReturnedFalse, wire, used;
          }
          wire := wire + msg[totalSend..totalSend + n];
          totalSend := totalSend + n;
          remaining := remaining - n;
      }
    }
    outcome := if totalSend < |msg| then Retrying else ReturnedTrue;
  }

  /** The line ending a received text is cut at: a text that starts with '/' comes from a plain terminal. */
  function LineEnd(message: string): (d: string)
    ensures d != "" && Unbordered(d)
  {
    DelimitersInUse();
    if message != "" && message[0] == '/' then "\n" else CRLF
  }

  /** The complete lines of a received text; what follows the last line ending is dropped. */
  function Lines(message: string): (lines: seq<string>) {
    var all := SplitAll(message, LineEnd(message));
    all[..|all| - 1]
  }

  /** The text is its lines, each with its ending, and then the dropped rest, which has no ending in it. */
  lemma LinesCover(message: string) returns (rest: string)
    ensures Join(Lines(message) + [rest], LineEnd(message)) == message
    ensures FreeOf(Lines(message) + [rest], LineEnd(message))
  {
    var d := LineEnd(message);
    var all := SplitAll(message, d);
    rest := all[|all| - 1];
    assert all == Lines(message) + [rest];
    JoinOfSplit(message, d);
    SplitFree(message, d);
  }

  /** A text that does not start with a slash is cut at its CRLFs only; a lone line feed stays in its line. */
  lemma CutAtCrlf(message: string) returns (rest: string)
    requires message == "" || message[0] != '/'
    ensures Join(Lines(message) + [rest], "\r\n") == message
    ensures forall line <- Lines(message) + [rest] :: !Contains(line, "\r\n")
  {
    rest := LinesCover(message);
  }

  /** One that does is cut at its line feeds, and a carriage return before one stays in its line. */
  lemma CutAtFeed(message: string) returns (rest: string)
    requires message != "" && message[0] == '/'
    ensures Join(Lines(message) + [rest], "\n") == message
    ensures forall line <- Lines(message) + [rest] :: '\n' !in line
  {
    rest := LinesCover(message);
    forall line | line in Lines(message) + [rest] ensures '\n' !in line {
      ContainsChar(line, '\n');
    }
  }

  /** So what a client sends as lines, each ended by a CRLF, is handled as those lines. */
  lemma CrlfLinesComeBack(lines: seq<string>, rest: string)
    requires forall line <- lines + [rest] :: !Contains(line, "\r\n")
    requires var m := Join(lines + [rest], "\r\n"); m == "" || m[0] != '/'
    ensures Lines(Join(lines + [rest], "\r\n")) == lines
  {
    hide SplitAll, Join, Unbordered, Contains;
    DelimitersInUse();
    SplitOfJoin(lines + [rest], CRLF);
    assert (lines + [rest])[..|lines|] == lines;
  }

  /** And what a plain terminal sends, with the first line starting with a slash. */
  lemma FeedLinesComeBack(lines: seq<string>, rest: string)
    requires forall line <- lines + [rest] :: '\n' !in line
    requires var m := Join(lines + [rest], "\n"); m != "" && m[0] == '/'
    ensures Lines(Join(lines + [rest], "\n")) == lines
  {
    hide SplitAll, Join, Unbordered;
    DelimitersInUse();
    forall line | line in lines + [rest] ensures !Contains(line, "\n") {
      ContainsChar(line, '\n');
    }
    SplitOfJoin(lines + [rest], "\n");
    assert (lines + [rest])[..|lines|] == lines;
  }

  /** The loops of `handleClientMessage`: cut a line off the front and hand it on. */
  method Frame(received: string) returns (lines: seq<string>)
    ensures lines == Lines(received)
  {
    hide SplitAll, CutAt, Find, OccursAt, Absent, Contains, Unbordered;
    lines := [];
    var message := received;
    var ending := LineEnd(message);
    var end := Find(message, ending, 0);
    while end.Some?
      invariant end == Find(message, ending, 0)
      invariant lines + SplitAll(message, ending) == SplitAll(received, ending)
      decreases |message|
    {
      SplitStep(message, ending);
      Regroup(lines, message[..end.value], SplitAll(message[end.value + |ending|..], ending));
      lines := lines + [message[..end.value]];
      message := message[end.value + |ending|..];
      end := Find(message, ending, 0);
    }
    SplitStep(message, ending);
  }
}
