# Two IRC servers and a select relay: state machines and text engines, modelled and proved

The repository holds two IRC servers written in C++ (`42-Ft_irc-main` and `_irc_`) and a small C relay built on
`select` (`bircd`). This project models their state and their text handling in Dafny and proves what they keep over
every run.

## The files

- `Text`, `Lists`, `Tokenizer`: strings, vectors, the two tokenizers and the joiners that undo them.
- `DateFormat`: the date formatter that rewrites a string while it scans it.
- `Bot`: the censor and the message filter of the bot. `Wire`: the partial-write loop and the framing of received text.
- `Bircd`: the select relay.
- `FtParser`, `FtSyntax`: line syntax of `42-Ft_irc-main`, and where checker and parser agree. `FtState`, `FtChannel`,
  `FtSteps`: its state as a value, and what one line does to it. `FtEffects`: a classification of everything a line
  can do. `FtInvariant`, `FtHistory`: invariants and claims about whole runs. `FtPersons`: the same by person, while
  nobody joins twice. `FtLimit`: the number of a limit from the line to the channel. `FtQuit`: when a QUIT survives.
  `FtTalk`, `FtLetters`: messages, their receivers, and what goes on the wire. `FtGate`: which lines reach a handler,
  by their words. `FtCommands`, `FtBans`: the effect of each command with the new fields written out. `FtLogin`: the
  stored password and the login over runs. `FtTyped`: typed lines end to end. `FtServer`: the classes with their
  vectors of references, one method for each command, each proved against its step function.
- `IrcText`, `IrcState`, `IrcSteps`, `IrcInvariant`, `IrcPart`, `IrcSuccession`, `IrcStanding`, `IrcRights`, `IrcTalk`,
  `IrcCommands`, `IrcLetters`, `IrcPoll`, `IrcLoop`, `IrcServer`: the same for `_irc_`, with the poll vector and the
  event loop.

## How to read the models

A client is an identity that outlives its connection, so that what C++ does with the address of a deleted client is
read as the record of a client that is gone. Which descriptors are ready, what `accept`, `recv`, `send`, `select` and
`close` answer, host names and the clock are inputs. A step function returns `None` where the program does not
survive: a null pointer is followed, a vector is indexed past its end, an exception leaves the main loop, or an object
is used after it was deleted. A handler of the two server classes returns `false` in exactly these cases. Each method
is proved against a step function; what a command does is then stated apart from these functions, in `FtCommands`,
`FtBans`, `FtLetters`, `IrcCommands` and `IrcLetters`, by the words of the line and the fields of the new state.

Several promises turned out to hold under a condition only, and each is stated as an equivalence. The checker and the
parser of MODE agree on channel, sign and letter exactly when the second word is not blank. Of a printed +l line, the
number that the checker validated becomes the limit exactly when `FtLimit.NumberKept` holds: it stands in a word of
its own with at most one extra space before it and nothing behind it, or with no extra space and words behind it that
do not continue it; attached to the letter it is lost. A limit caps a channel exactly when the channel fits at the
start. A QUIT survives one listener at most, and that one only with a text. Entries stand for persons exactly as long
as no JOIN of a member passes all checks. Splitting undoes merging exactly for the unbordered delimiters. The date
formatter expands a format once exactly when no inserted day name is scanned again. The censor removes a word under
every list exactly when the word has no star. In `_irc_`, an event leaves every channel to the nick of its front
member exactly when it is no accepted NICK of a client at a front, a message is delivered as typed, but for the
censor, exactly when the sender's nick has no exclamation mark, and it reaches the other members exactly when each of
them can be looked up by nick. In `bircd`, a pass in which `accept` does not fail completes exactly when every ready
write slot is safe, and otherwise calls a null handler.

## Model

| member | source | states |
|---|---|---|
| `Text.TrimSplits` | 42-Ft_irc-main/Utils/Utils.cpp:48-64 | trimming takes away white space only, all of it at both ends, and nothing in between |
| `Text.TrimPadded` | 42-Ft_irc-main/Utils/Utils.cpp:48-64 | white space put around a trimmed text is exactly what trimming takes away again |
| `Text.TrimEmpty` | 42-Ft_irc-main/Utils/Utils.cpp:48-64 | the trimmed text is empty if and only if the text is all white space |
| `Text.TrimScan` | 42-Ft_irc-main/Utils/Utils.cpp:48-64 | the two index loops compute the trimmed text |
| `Text.ToUpper` | 42-Ft_irc-main/Utils/Utils.cpp:105-110 | every character is folded to upper case in place, the length stays |
| `Text.ToLower` | 42-Ft_irc-main/Utils/Utils.cpp:112-116 | every character is folded to lower case in place, the length stays |
| `Text.FoldsAlphabet` | 42-Ft_irc-main/Utils/Utils.cpp:105-116 | folding takes each letter to the one in the same place of the other alphabet; a text is unchanged if and only if it has no letter of the other case |
| `Tokenizer.SplitString` | _irc_/src/commands/Commands.cpp:3-16 | the loop that cuts pieces off the front gives the pieces between the delimiters, left to right |
| `Tokenizer.ScanSplit` | 42-Ft_irc-main/Utils/Utils.cpp:66-80 | the index-scanning split gives the same pieces as the other tokenizer with one trailing empty piece dropped |
| `Tokenizer.Merge` | _irc_/src/commands/Privmsg.cpp:2-12 | the accumulating loop puts the delimiter between neighbours only |
| `Tokenizer.SplitFree` | _irc_/src/commands/Commands.cpp:3-16 | no piece of either split contains the delimiter |
| `Tokenizer.JoinOfSplit` | _irc_/src/commands/Commands.cpp:3-16 | merging what a split gave restores the text, for every non-empty delimiter |
| `Tokenizer.SplitOfJoin` | _irc_/src/commands/Privmsg.cpp:2-12 | splitting a merge gives back the parts, for an unbordered delimiter and parts free of it |
| `Tokenizer.SplitUndoesJoinIff` | _irc_/src/commands/Privmsg.cpp:2-12 | splitting undoes merging on all delimiter-free parts if and only if the delimiter is unbordered |
| `Tokenizer.BorderedLosesParts` | _irc_/src/commands/Privmsg.cpp:2-12 | for each bordered delimiter there are parts that a merge does not keep apart |
| `Tokenizer.DelimitersInUse` | 42-Ft_irc-main/Command/Command.cpp:403 | the delimiters the programs use (space, CRLF, colon, at sign, comma, line feed) are unbordered |
| `Tokenizer.JoinOfSplit42` | 42-Ft_irc-main/Utils/Utils.cpp:66-80 | what 42's split loses: joined again, the text lacks at most one trailing delimiter |
| `Tokenizer.SplitAppend` | 42-Ft_irc-main/Utils/Utils.cpp:66-80 | appending to a text only extends its last piece, for a one-character delimiter |
| `DateFormat.Date` | 42-Ft_irc-main/Utils/Utils.cpp:4-29 | the loop that rescans part of what it inserted terminates, and rewrites the format to the per-character expansion |
| `DateFormat.RewrittenConcat` | 42-Ft_irc-main/Utils/Utils.cpp:4-29 | the expansion of a concatenation is the concatenation of the expansions, although inserted text is scanned again |
| `DateFormat.RewrittenIsOnce` | 42-Ft_irc-main/Utils/Utils.cpp:4-29 | for every format without D the result is the plain one-level expansion |
| `DateFormat.PlainExactlyWhen` | 42-Ft_irc-main/Utils/Utils.cpp:4-29 | the result is the one-level expansion if and only if the format has no D or the day's name has no letter that is scanned again |
| `DateFormat.WeekdayGrows` | 42-Ft_irc-main/Utils/Utils.cpp:82-96 | how much longer a D makes the result on the days whose name is scanned again |
| `DateFormat.LengthGap` | 42-Ft_irc-main/Utils/Utils.cpp:4-29 | the result is longer than the one-level expansion by a fixed amount for every D on those days |
| `DateFormat.ClockShows` | 42-Ft_irc-main/Utils/Utils.cpp:11-20 | the two digits written for H, i, s, d and m read back as the hour, the minute, the second, the day and one more than the month |
| `DateFormat.DateShows` | 42-Ft_irc-main/Utils/Utils.cpp:9-24 | the digits of Y read back as the year, with a minus sign before year nought; M is the name of the month, z is UTC |
| `DateFormat.WeekdayShows` | 42-Ft_irc-main/Utils/Utils.cpp:90-96 | D is the name of the weekday, on the days whose name is not scanned again |
| `Bot.CensorMessage` | _irc_/src/Bot.cpp:88-100 | the find-and-replace loops compute the pass over every word in list order |
| `Bot.CensorSound` | _irc_/src/Bot.cpp:88-100 | for non-empty words without stars the result has the same length, contains none of the words, and differs from the message exactly inside occurrences of words in the original |
| `Bot.CensorFixpoints` | _irc_/src/Bot.cpp:88-100 | nothing changes if and only if no word occurs; censoring twice is censoring once |
| `Bot.GoneIffStarFree` | _irc_/src/Bot.cpp:88-100 | a word is gone from every result under every list that holds it if and only if it has no star; a word that has one is written by the passes for it and for one character |
| `Bot.BlacklistIsStarFree` | _irc_/src/Bot.cpp:125-126 | the built-in word list meets the condition |
| `Bot.CensorIsPolite` | _irc_/src/Bot.cpp:125-133 | with the built-in list, the text is unchanged if and only if it was polite, and the result always is |
| `Bot.ProcessMessage` | _irc_/src/Bot.cpp:103-136 | the text after the first exclamation mark comes back censored, and the nick before it gets, in this order and each only for its reason: a greeting by name, the clock, a rebuke |
| `Wire.SendMessage` | _irc_/src/Server.cpp:42-65 | whatever send answers, the bytes on the wire are a prefix of the message without loss or repetition, and true comes back if and only if it is the whole message |
| `Wire.Frame` | _irc_/src/Server.cpp:199-233 | both framing loops hand on the complete lines in order; which those are, the next four rows say |
| `Wire.CutAtCrlf` | _irc_/src/Server.cpp:219-228 | a text that does not start with a slash is its lines with CRLFs between them and before a dropped rest, and no line has a CRLF in it |
| `Wire.CutAtFeed` | _irc_/src/Server.cpp:209-218 | one that does is its lines with line feeds instead, and no line has a line feed in it |
| `Wire.CrlfLinesComeBack` | _irc_/src/Server.cpp:219-228 | lines free of CRLF, sent with a CRLF behind each, are handled as exactly those lines, unless the text starts with a slash |
| `Wire.FeedLinesComeBack` | _irc_/src/Server.cpp:209-218 | lines free of line feeds, sent with one behind each, are handled as exactly those lines, if the text starts with a slash |
| `Wire.LinesCover` | _irc_/src/Server.cpp:208-228 | the received text is its lines with their endings and a dropped rest that has no ending in it |
| `Bircd.CallsOnce` | bircd/check_fd.c:8-19 | a full pass makes every due read and write call exactly once and no other |
| `Bircd.NothingLeft` | bircd/check_fd.c:9 | once as many ready descriptors were passed as select counted, none is left and no call is missing |
| `Bircd.CallsInOrder` | bircd/check_fd.c:8-19 | the calls of a pass go up by descriptor, and the read call of one comes before its write call |
| `Bircd.Env.CleanFd` | bircd/clean_fd.c:5-10 | exactly the slot is emptied |
| `Bircd.Env.SrvCreate` | bircd/srv_create.c:20-21 | exactly the slot becomes the listening one |
| `Bircd.Env.InitFd` | bircd/init_fd.c:6-27 | the read set is the used slots, the write set those with pending text, and max the highest used one |
| `Bircd.Env.ClientReads` | bircd/client_read.c:7-30 | a failed read frees exactly the own slot; a good one sends the text to every other client slot once, in order |
| `Bircd.Env.Accept` | bircd/srv_accept.c:7-21 | only a free slot is filled, so no ready slot not yet visited is disturbed |
| `Bircd.Env.CallRead` | bircd/check_fd.c:11-12 | a read handler leaves every other used slot alone and frees its own exactly when its client is gone |
| `Bircd.Env.CheckFd` | bircd/check_fd.c:4-20 | although the loop stops early on r, a completed pass makes all due calls in order, and has sent the text of every client that spoke to every other client that was not found gone before, once each, in order, and to no one else but a newcomer; it calls a null handler only if some ready write slot is unsafe, and completes only if none is |
| `Bircd.ClientsLeft` | bircd/client_read.c:7-18 | after a completed pass the clients are exactly those of its start whose recv did not fail, and at most a newcomer if a listener was ready |
| `Bircd.Env.ReadTurn` | bircd/check_fd.c:11-12 | one read handler moves table and deliveries of the pass on by one slot, whatever accept or a hang-up do to the table |
| `Bircd.DeliverStep` | bircd/client_read.c:21-28 | the broadcast of one client reaches exactly the clients of the table the pass started with that are still there, and newcomers |
| `Bircd.Env.Round` | bircd/main_loop.c:4-12 | the same for set-up, select and pass together; a failed select serves, sends and changes nothing |
| `Bircd.AudienceIs` | bircd/client_read.c:21-28 | the receivers of a broadcast are the client slots other than the sender's, each once |
| `FtParser.Parse` | 42-Ft_irc-main/Parser/Parser.cpp:23-46 | the accumulating loop gives command, first argument and the joined rest |
| `FtParser.Format` | 42-Ft_irc-main/Checker/Checker.cpp:136-140 | the loop joins the words after the first and trims the result |
| `FtSyntax.ParseRecovers` | 42-Ft_irc-main/Parser/Parser.cpp:23-46 | parse gives back the words a line was printed from, if and only if not four or more words with an empty last one and no line end |
| `FtSyntax.PrintedPieces` | 42-Ft_irc-main/Parser/Parser.cpp:32 | the pieces of a printed line are its words, the last one with the line end |
| `FtSyntax.ModeAgreement` | 42-Ft_irc-main/Checker/Checker.cpp:75-99 | for a MODE line of three words or more that the checker accepts, modeParse reads the same channel and sign and a letter that is dispatched on, if and only if the second word is not blank |
| `FtSyntax.SecondSpaceDiffers` | 42-Ft_irc-main/Parser/Parser.cpp:57-72 | every accepted format is read with an empty channel when a second space follows the command |
| `FtSyntax.CheckerSees` | 42-Ft_irc-main/Checker/Checker.cpp:77-82 | the channel and the mode that the checker cuts out, in terms of the pieces that the parser indexes |
| `FtLimit.LimitReadIff` | 42-Ft_irc-main/Checker/Checker.cpp:94-95 | for a +l line that a client prints, with n in a word of its own, any extra spaces before it and any words after it: the checker accepts it on account of n, and modeParse hands on n, whatever an int holds that is never set, if and only if there is at most one extra space and nothing behind n, or no extra space and behind n either several words or one that does not start with a digit (or n is the largest int) |
| `FtLimit.AttachedLimitIsLost` | 42-Ft_irc-main/Parser/Parser.cpp:57-72 | with n attached to the letter the checker accepts the line on account of n, but modeParse hands on only the words after it, and so no number if there are none |
| `FtLimit.GluedNumber` | 42-Ft_irc-main/Utils/Utils.cpp:39-46 | a number with a word glued to it reads as itself if and only if the word does not start with a digit or the number is the largest int |
| `FtSyntax.PrintedNumber` | 42-Ft_irc-main/Utils/Utils.cpp:39-46 | a printed number is read back, saturating at the largest int; the check before it reads the same |
| `FtServer.Client.Login` | 42-Ft_irc-main/Client/Client.cpp:85-104 | a login needs the server's password and no refused nick, and is never undone; a wrong password is an exception |
| `FtServer.Client.Rename` | 42-Ft_irc-main/Command/Command.cpp:213-229 | a NICK after a refused one is a late login, and its exception is not caught |
| `FtServer.Client.Register` | 42-Ft_irc-main/Command/Command.cpp:248-263 | USER sets user and real name and tries to log in |
| `FtServer.SearchFd` | 42-Ft_irc-main/Channel/Channel.cpp:63-71 | the linear search finds the first entry with the descriptor, or that there is none |
| `FtServer.SearchNick` | 42-Ft_irc-main/Channel/Channel.cpp:73-81 | the first entry with the nick |
| `FtServer.SearchHost` | 42-Ft_irc-main/Channel/Channel.cpp:183-191 | the first entry with the host |
| `FtServer.FilterHost` | 42-Ft_irc-main/Channel/Channel.cpp:52-61 | all entries with the host, in order |
| `Lists.EraseFirst` | 42-Ft_irc-main/Channel/Channel.cpp:19-35 | the erase loop takes out the first equal entry |
| `Lists.RemoveFirstSplits` | 42-Ft_irc-main/Channel/Channel.cpp:27-34 | erasing takes out one position and leaves the others in order |
| `FtServer.Channel.AddClient` | 42-Ft_irc-main/Channel/Channel.cpp:6-17 | ban list, limit (compared for equality), invite flag, then the entry, as operator too if the channel was empty; nothing changes on an exception |
| `FtServer.Channel.RemoveClient` | 42-Ft_irc-main/Channel/Channel.cpp:19-35 | the first member entry goes, and the operator entry if some operator has the nick |
| `FtServer.Channel.AddOperator` | 42-Ft_irc-main/Channel/Channel.cpp:83-98 | nobody is entered as operator twice |
| `FtServer.Channel.AddBan` | 42-Ft_irc-main/Channel/Channel.cpp:141-150 | one ban a host, and the banned entry is erased; nothing changes on an exception |
| `FtServer.Channel.RemoveBan` | 42-Ft_irc-main/Channel/Channel.cpp:152-166 | the first ban with the host goes |
| `FtChannel.AdmitOk` | 42-Ft_irc-main/Channel/Channel.cpp:6-17 | letting a logged-in client in keeps the channel invariant, even when it is a member already |
| `FtChannel.DropOk` | 42-Ft_irc-main/Channel/Channel.cpp:19-35 | a departure keeps operators distinct and among the members |
| `FtChannel.BanOk` | 42-Ft_irc-main/Channel/Channel.cpp:141-150 | a ban keeps hosts on the ban list distinct, and the rest of the channel invariant |
| `FtServer.Server.Connect` | 42-Ft_irc-main/Server/Server.cpp:117-127 | a connection adds one unregistered client and nothing else, and keeps the invariant |
| `FtServer.Server.EraseClient` | 42-Ft_irc-main/Server/Server.cpp:145-156 | the first client with the descriptor goes |
| `FtServer.Server.LeaveChannels` | 42-Ft_irc-main/Server/Server.cpp:157-158 | on every channel the first entry with the descriptor goes |
| `FtServer.Server.RemoveClient` | 42-Ft_irc-main/Server/Server.cpp:145-161 | both erase loops and the loop over the channels together |
| `FtServer.Server.Hangup` | 42-Ft_irc-main/Server/Server.cpp:176-200 | a closed connection removes the client and keeps the invariant |
| `FtServer.Server.GetChannel` | 42-Ft_irc-main/Server/Server.cpp:293-301 | the first channel with the name, or that there is none |
| `FtServer.Server.Announce` | 42-Ft_irc-main/Command/Command.cpp:44-53 | the inner loop of QUIT splits its own text again at every other member, and fails when that runs out of colons |
| `FtServer.Server.TakeLeave` | 42-Ft_irc-main/Command/Command.cpp:42-55 | what QUIT does on one channel |
| `FtServer.Server.ExecQuit` | 42-Ft_irc-main/Command/Command.cpp:36-58 | QUIT: all channels with the descriptor in order, then the server's own removal; where it fails, exactly |
| `FtQuit.QuitSurvivesIff` | 42-Ft_irc-main/Command/Command.cpp:42-53 | a QUIT survives if and only if the channels with its descriptor list no one else, or the sender is known, they list exactly one other entry, and a colon stands before the last character of the line |
| `FtQuit.QuitTextIff` | 42-Ft_irc-main/Command/Command.cpp:48-50 | the text bears no announcement, or one if some colon is not its last character, and never two |
| `FtServer.Server.ExecJoin` | 42-Ft_irc-main/Command/Command.cpp:60-95 | JOIN: key, then the channel's own checks, or a new channel with the sender as member and operator; other channels unchanged |
| `FtServer.Server.ExecPart` | 42-Ft_irc-main/Command/Command.cpp:118-132 | PART takes one entry of the sender off one channel |
| `FtServer.Server.ExecWho` | 42-Ft_irc-main/Command/Command.cpp:134-170 | WHO changes nothing and follows the sender's entry of the channel |
| `FtServer.Server.ExecPrivMsg` | 42-Ft_irc-main/Command/Command.cpp:97-116 | PRIVMSG changes nothing; it fails without a sender or a third word, and otherwise sends the parsed text to the receivers in order |
| `FtServer.Server.ExecNotice` | 42-Ft_irc-main/Command/Command.cpp:172-196 | NOTICE changes nothing and sends its text to the same receivers, but never to the own descriptor |
| `FtServer.Server.ChannelFds` | 42-Ft_irc-main/Command/Command.cpp:105-109 | the loop over the entries of a channel skips the entries of the own descriptor and no other |
| `FtTalk.PrivateMessage` | 42-Ft_irc-main/Parser/Parser.cpp:6-21 | the accumulating loop trims the words from the third on and joins them, after one colon was erased |
| `FtTalk.TalkReaches` | 42-Ft_irc-main/Command/Command.cpp:97-116 | a live client with the nick is the only receiver; otherwise each other descriptor gets the message once for every entry it has in the channel of that name, whether the sender is on it or not |
| `FtTalk.TalkAsTyped` | 42-Ft_irc-main/Parser/Parser.cpp:6-21 | a message printed with single spaces arrives as typed, but for one colon in front, if and only if no word has other white space at an end |
| `FtServer.Server.ExecNick` | 42-Ft_irc-main/Command/Command.cpp:198-235 | NICK: a nick in use marks the client; otherwise it is renamed, and logged in if it was marked |
| `FtServer.Server.ExecPass` | 42-Ft_irc-main/Command/Command.cpp:237-242 | PASS stores the offered password: its second word, as FtCommands.PassStores says |
| `FtServer.Server.ExecUser` | 42-Ft_irc-main/Command/Command.cpp:244-264 | USER registers, logs in, or removes the client on a wrong password |
| `FtServer.Server.ExecKick` | 42-Ft_irc-main/Command/Command.cpp:274-306 | KICK by an operator takes one entry of the named member off the channel; reasons are cut at colons first |
| `FtServer.Server.ExecInvite` | 42-Ft_irc-main/Command/Command.cpp:308-330 | INVITE by an operator puts a connected client on the invite list once |
| `FtServer.Server.ExecTopic` | 42-Ft_irc-main/Command/Command.cpp:332-355 | TOPIC by an operator sets the text after the first colon |
| `FtServer.Server.ExecOperator` | 42-Ft_irc-main/Mode/Mode.cpp:24-48 | +o and -o of a member by nick, with the effect that FtCommands.OperatorGranted spells out |
| `FtServer.Server.ExecLimit` | 42-Ft_irc-main/Mode/Mode.cpp:101-121 | the limit is set inside the loop over the members: it is set if and only if there are any |
| `FtServer.Server.BanVictims` | 42-Ft_irc-main/Mode/Mode.cpp:69-75 | of the entries with the host exactly the first is banned; the second ends the loop with an exception |
| `FtServer.Server.ExecSetBan` | 42-Ft_irc-main/Mode/Mode.cpp:64-92 | +b of a mask: one ban, then the WHO broadcast unless an exception skipped it |
| `FtServer.Server.ExecClearBan` | 42-Ft_irc-main/Mode/Mode.cpp:77-94 | -b of a mask: the WHO broadcast, then the first ban with the host goes |
| `FtServer.Server.Echo` | 42-Ft_irc-main/Mode/Mode.cpp:91 | the WHO that a ban sends through the dispatcher changes nothing; when it fails, exactly |
| `FtServer.Server.EchoAll` | 42-Ft_irc-main/Mode/Mode.cpp:77-92 | the broadcast of a ban goes through Execute for every member and leaves the state as it was |
| `FtServer.Server.ExecBan` | 42-Ft_irc-main/Mode/Mode.cpp:50-99 | both signs of the ban mode |
| `FtServer.Server.ExecMode` | 42-Ft_irc-main/Mode/Mode.cpp:172-195 | MODE: too few words are ignored, then channel, operator gate and dispatch on the letter |
| `FtServer.Server.ChangeMode` | 42-Ft_irc-main/Mode/Mode.cpp:183-195 | each of the six letters does what its handler does, any other letter nothing |
| `FtServer.Server.Check` | 42-Ft_irc-main/Checker/Checker.cpp:129-189 | which lines reach a handler: the format checks per command, and the login test of the dispatcher |
| `FtServer.Server.Dispatch` | 42-Ft_irc-main/Command/Command.cpp:415-446 | the chain of handlers: exactly the one of the command runs, once, and the letters of a PRIVMSG or NOTICE are those of its own handler |
| `FtServer.Server.HandleLine` | 42-Ft_irc-main/Command/Command.cpp:412-447 | a single line: gate, one handler, its letters, and the invariant afterwards |
| `FtServer.Server.Execute` | 42-Ft_irc-main/Command/Command.cpp:400-462 | for every text, the recursive dispatcher terminates and handles exactly the lines of the text, each once and in order, sends the letters of each in the state before it, and keeps the invariant; it calls itself through MODE and the ban broadcast, which sends no letter |
| `FtInvariant.LinesAre` | 42-Ft_irc-main/Command/Command.cpp:403-409 | those lines: the text itself if it is a single line, otherwise its CRLF pieces before the first empty one, each a single line again |
| `FtServer.PieceIsLine` | 42-Ft_irc-main/Command/Command.cpp:404-409 | a piece of a split text has no CRLF in it, so the recursion goes down by one rank |
| `FtServer.EchoIsSingle` | 42-Ft_irc-main/Mode/Mode.cpp:91 | the name of a channel has no space and no CRLF, so the WHO of a ban is a single WHO line: this is why the mutual recursion ends |
| `FtServer.EchoIsLine` | 42-Ft_irc-main/Mode/Mode.cpp:91 | a WHO line on a channel name leaves the state as it is |
| `FtGate.GateIs` | 42-Ft_irc-main/Checker/Checker.cpp:129-189 | for every line that a client prints, by its words alone: a known command in the right form reaches its handler, the ones that register or leave from anybody and the others from a client that is logged in; an unknown sender ends the server, and everything else is ignored |
| `FtCommands.ConnectAdds` | 42-Ft_irc-main/Server/Server.cpp:117-127 | a new client has an asterisk for nick, names and password, no login, and the last place in the list |
| `FtCommands.FirstFd` | 42-Ft_irc-main/Channel/Channel.cpp:63-71 | a lookup by descriptor gives the first entry that has it |
| `FtCommands.FirstNick` | 42-Ft_irc-main/Channel/Channel.cpp:73-81 | a lookup by nick gives the first entry that has it |
| `FtCommands.FirstHost` | 42-Ft_irc-main/Channel/Channel.cpp:52-61 | so do the lookup and the filter by host |
| `FtCommands.DropIs` | 42-Ft_irc-main/Channel/Channel.cpp:19-35 | whoever leaves loses the first entry and the operator entry, although the rank is looked up by nick |
| `FtCommands.PassStores` | 42-Ft_irc-main/Command/Command.cpp:237-242 | a PASS that runs makes the second word of the line the stored password and changes nothing else |
| `FtCommands.NickTakes` | 42-Ft_irc-main/Command/Command.cpp:198-235 | a NICK that runs: refused if and only if a live client has the nick; otherwise taken, and after a refusal it logs in with the right password and ends the server with a wrong one |
| `FtCommands.UserRegisters` | 42-Ft_irc-main/Command/Command.cpp:244-264 | a USER of five words with the right password stores the second and the fifth word and logs in unless the nick was refused |
| `FtCommands.UserRemoves` | 42-Ft_irc-main/Command/Command.cpp:244-264 | with a wrong password it stores them without a login and the connection ends |
| `FtCommands.UserFails` | 42-Ft_irc-main/Command/Command.cpp:244-264 | with fewer words, or from nobody, it ends the server |
| `FtCommands.JoinOpens` | 42-Ft_irc-main/Command/Command.cpp:86-94 | a JOIN of a name that no channel has appends a channel with the sender as only member and operator, open, without key, topic, limit, bans and invites |
| `FtCommands.JoinEnters` | 42-Ft_irc-main/Command/Command.cpp:60-85 | a JOIN of an existing channel appends the sender, as operator too if it is the first, if and only if the key matches, no ban has its host, the number of members is not the limit, and an invite-only channel has an invite of its nick; otherwise nothing changes |
| `FtCommands.PartLeaves` | 42-Ft_irc-main/Command/Command.cpp:118-132 | a PART takes the sender's first entry and rank off the channel that the second word names |
| `FtCommands.KickRemoves` | 42-Ft_irc-main/Command/Command.cpp:274-306 | a KICK, cut at its first colon, takes the member with the nick off the channel if an operator sends it, does nothing otherwise, and ends the server on an unknown channel |
| `FtCommands.KickFails` | 42-Ft_irc-main/Command/Command.cpp:283-284 | a KICK whose only colon is its last character ends the server |
| `FtCommands.InviteLists` | 42-Ft_irc-main/Command/Command.cpp:308-330 | an INVITE of an operator appends the live client with the nick; a second one ends the server |
| `FtCommands.TopicSets` | 42-Ft_irc-main/Command/Command.cpp:332-355 | a TOPIC of an operator makes the text between the first colon and the next one, or the end, the topic |
| `FtCommands.TopicFails` | 42-Ft_irc-main/Command/Command.cpp:345-346 | without a colon before the last character it ends the server |
| `FtCommands.OperatorGranted` | 42-Ft_irc-main/Mode/Mode.cpp:24-48 | a +o of an operator appends the first member with the nick to the operators, once; a -o takes it off; a +o that names nobody ends the server |
| `FtCommands.SettingTaken` | 42-Ft_irc-main/Mode/Mode.cpp:123-170 | i, k and t of an operator set flag, key and topic to the sign and the words of the line |
| `FtCommands.LimitSet` | 42-Ft_irc-main/Mode/Mode.cpp:101-121 | l of an operator sets the limit to the number behind it, or to none, on a channel with members |
| `FtCommands.ModeElse` | 42-Ft_irc-main/Mode/Mode.cpp:172-182 | a MODE of two words, or of somebody who is no operator, changes nothing; an unknown channel or an empty third word ends the server |
| `FtCommands.HangupLeaves` | 42-Ft_irc-main/Server/Server.cpp:145-161 | a connection that ends takes its client off the list, and off each channel the first entry with the descriptor, with its rank |
| `FtCommands.QuitLeaves` | 42-Ft_irc-main/Command/Command.cpp:36-58 | a QUIT that is survived takes the sender's first entry off every channel that lists the descriptor, and then does what the end of the connection does |
| `FtCommands.WhoKeeps` | 42-Ft_irc-main/Command/Command.cpp:134-170 | a WHO changes nothing, and ends the server exactly when the channel exists and has no entry of the descriptor |
| `FtCommands.TalkChangesNothing` | 42-Ft_irc-main/Command/Command.cpp:97-116 | PRIVMSG, NOTICE and WHOIS change nothing; the first two end the server exactly when there is no third word |
| `FtCommands.AllowedHappens` | 42-Ft_irc-main/Command/Command.cpp:400-462 | the converse of the classification: a line that runs and that may cause an edit of the channel it names causes it, with the fields of the new channel written out, for JOIN, PART, KICK, INVITE, TOPIC and the modes o, l, i, k and t |
| `FtBans.MaskHost` | 42-Ft_irc-main/Mode/Mode.cpp:62-66 | the host of a mask is what stands between its first at sign and the next one or the end, or the whole mask if it has none |
| `FtBans.EchoAllIff` | 42-Ft_irc-main/Mode/Mode.cpp:77-92 | the WHO for every member is survived if and only if every entry has a connected client with its descriptor, or the channel name is one that the gate stops |
| `FtBans.BanSets` | 42-Ft_irc-main/Mode/Mode.cpp:62-92 | +b of an operator bans the first member entry with the host and takes it off the channel with its rank, unless the host is banned; it ends the server exactly where a WHO that follows does |
| `FtBans.BanLists` | 42-Ft_irc-main/Mode/Mode.cpp:55-61 | +b without a mask changes nothing |
| `FtBans.BanLifts` | 42-Ft_irc-main/Mode/Mode.cpp:77-94 | -b of an operator lifts the first ban of the host; where no ban has it, it ends the server unless there is no ban at all |
| `FtBans.BanFails` | 42-Ft_irc-main/Mode/Mode.cpp:66-94 | a mask that leaves nothing behind its at sign ends the server |
| `FtBans.MaskEnds` | 42-Ft_irc-main/Mode/Mode.cpp:62-66 | such are the masks that end at their first at sign, and no mask |
| `FtLetters.PrivMsgSends` | 42-Ft_irc-main/Command/Command.cpp:97-116 | a PRIVMSG that runs sends `:nick PRIVMSG target :text` and no other text: once to the first live client with that nick, or else to every other descriptor once for each entry it has in the channel, and nobody else |
| `FtLetters.NoticeSends` | 42-Ft_irc-main/Command/Command.cpp:172-196 | a NOTICE that runs sends `:nick!user@0 NOTICE target :text` and no other text to the same receivers, the own descriptor left out |
| `FtLetters.OthersSendNone` | 42-Ft_irc-main/Command/Command.cpp:415-446 | no other line sends such a letter |
| `FtLetters.LettersInOrder` | 42-Ft_irc-main/Command/Command.cpp:403-409 | the letters of lines in a row go out in the order of the lines, each in the state that the lines before it left |
| `FtTalk.OtherFdsInOrder` | 42-Ft_irc-main/Command/Command.cpp:105-109 | the entries of a channel are told in their order, each but those with the sender's descriptor |
| `FtTyped.TypedReads` | 42-Ft_irc-main/Parser/Parser.cpp:23-46 | of a line that a client types, the handlers read the words as they were typed: the command in upper case, the second word, and the others |
| `FtTyped.TypedGrant` | 42-Ft_irc-main/Mode/Mode.cpp:24-48 | end to end, as a text handed to Execute: a typed +o of an operator that names a member appends it to the operators and changes nothing else |
| `FtTyped.TypedPrivMsg` | 42-Ft_irc-main/Command/Command.cpp:97-116 | end to end, as a text handed to Execute: a typed PRIVMSG of a client that is logged in sends its words as they were typed, but for one colon in front, and whom it goes to how often |
| `FtTyped.TypedNotice` | 42-Ft_irc-main/Command/Command.cpp:172-196 | the same for a typed NOTICE, with the user name behind the nick and never to the own descriptor |
| `FtEffects.LineExplained` | 42-Ft_irc-main/Command/Command.cpp:400-462 | every line that the server survives has one of five effects, each with its author: nothing, the sender's own record, a new channel, one edit of one channel, a departure |
| `FtEffects.GateRuns` | 42-Ft_irc-main/Command/Command.cpp:412-424 | a handler other than QUIT, USER, NICK and PASS runs only for a logged-in sender |
| `FtEffects.JoinExplained` | 42-Ft_irc-main/Command/Command.cpp:60-95 | a JOIN founds a channel, enters an existing one through its checks, or does nothing |
| `FtEffects.KickExplained` | 42-Ft_irc-main/Command/Command.cpp:274-306 | a KICK of an operator takes the member it names off, or does nothing |
| `FtEffects.BanExplained` | 42-Ft_irc-main/Mode/Mode.cpp:50-99 | a ban mode bans the host it names, lifts the ban of the host it names, or does nothing |
| `FtEffects.OperatorExplained` | 42-Ft_irc-main/Mode/Mode.cpp:24-48 | an o mode grants to or revokes from the member it names |
| `FtEffects.QuitExplained` | 42-Ft_irc-main/Command/Command.cpp:36-58 | a QUIT is a departure: it takes off entries of the sender and of its descriptor only |
| `FtEffects.UserExplained` | 42-Ft_irc-main/Command/Command.cpp:244-264 | a USER changes user, real name and login of the sender, or is a departure on a wrong password, which logs nobody in |
| `FtInvariant.FunctionIsName` | 42-Ft_irc-main/Parser/Parser.cpp:32-36 | the first argument of a handled line has no space, no CRLF and no white space around it |
| `FtInvariant.SingleLineEnd` | 42-Ft_irc-main/Command/Command.cpp:403 | in a handled line a CRLF can only stand at the very end |
| `FtInvariant.EditOk` | 42-Ft_irc-main/Channel/Channel.cpp:6-35 | every allowed edit keeps the channel invariant |
| `FtInvariant.LineInv` | 42-Ft_irc-main/Command/Command.cpp:400-462 | every line keeps the global invariant: distinct clean channel names, distinct operators among the members, all members logged in, one ban a host, distinct invites, distinct descriptors, nicks shared only while they are an asterisk |
| `FtInvariant.StepInv` | 42-Ft_irc-main/Server/Server.cpp:202-256 | every event keeps it |
| `FtInvariant.RunInv` | 42-Ft_irc-main/Server/Server.cpp:202-256 | hence every state of every run satisfies it |
| `FtInvariant.TextGoesOn` | 42-Ft_irc-main/Command/Command.cpp:400-462 | a text that Execute survives continues a run by one event for each of its lines, so every claim about runs holds for the server that executes texts |
| `FtLogin.PasswordIs` | 42-Ft_irc-main/Command/Command.cpp:237-242 | in every run, a client's stored password is an asterisk until its first PASS that runs, and afterwards the second word of the latest one |
| `FtLogin.LoginProvenance` | 42-Ft_irc-main/Client/Client.cpp:85-104 | in every run, whoever is logged in was granted the login by an earlier USER or NICK of its own, and the last PASS that it had sent before had the server's password for its second word, or it had sent none and the server's password is an asterisk |
| `FtLogin.MembersKnewPassword` | 42-Ft_irc-main/Command/Command.cpp:423 | the same for every member of every channel in every reachable state |
| `FtHistory.OperatorProvenance` | 42-Ft_irc-main/Channel/Channel.cpp:14-16 | in every reachable state, every operator has a finite chain of promotions: each was named by a +o from the descriptor of an operator of that time, the first one founded the channel |
| `FtPersons.OperatorProvenanceByPerson` | 42-Ft_irc-main/Mode/Mode.cpp:181-185 | while no such JOIN is handled, each promotion of the chain was sent by the operator in person |
| `FtPersons.StepSettledIff` | 42-Ft_irc-main/Channel/Channel.cpp:6-17 | an event keeps every entry of every channel a connected member's only one if and only if it is no JOIN that passes the checks of dispatcher, key, ban list, limit and invite flag although its sender is on the channel |
| `FtPersons.RunSettledIff` | 42-Ft_irc-main/Server/Server.cpp:202-256 | the same over runs |
| `FtPersons.AgainIs` | 42-Ft_irc-main/Command/Command.cpp:68-71 | such a line, and no other JOIN for a channel that its sender is on, changes the server |
| `FtPersons.SenderRules` | 42-Ft_irc-main/Mode/Mode.cpp:181-182 | in such a state, the operator test by descriptor is the test whether the sender is an operator |
| `FtHistory.NewOperator` | 42-Ft_irc-main/Mode/Mode.cpp:181-185 | a step makes an operator only by letting the first member in or by a +o that names him |
| `FtHistory.OnlyOperatorsAdminister` | 42-Ft_irc-main/Mode/Mode.cpp:181-195 | in every run, a change of limit, invite flag, key, topic, bans or invites comes from a line of an operator of the channel: the MODE with the letter and value, where a lifted ban is one of the host that the line names and no other goes, the TOPIC with the text, or the INVITE that names the client |
| `FtHistory.EntryIsOwnJoin` | 42-Ft_irc-main/Channel/Channel.cpp:6-17 | in every run, a new entry is the sender of a JOIN that passed ban list, limit, invite flag and key |
| `FtHistory.OnlyOwnerOrOperatorRemoves` | 42-Ft_irc-main/Command/Command.cpp:289-302 | in every run, an entry disappears only by its own PART, QUIT, USER or hang-up, by an operator's KICK that names it, or by an operator's +b of its host |
| `FtHistory.TopicText` | 42-Ft_irc-main/Command/Command.cpp:345-346 | a TOPIC sets exactly the text between the first colon of the line and the next one, or the end |
| `FtHistory.BanMonotone` | 42-Ft_irc-main/Channel/Channel.cpp:141-166 | from a ban until a -b that names the host, the entries with that host never become more, over any run |
| `FtHistory.StepBan` | 42-Ft_irc-main/Channel/Channel.cpp:8-9 | the same for one event, and the host stays banned unless the event is such a -b |
| `FtHistory.CapHoldsIff` | 42-Ft_irc-main/Channel/Channel.cpp:10-11 | a positive limit caps the channel up to the next l mode, over any run, if and only if the channel fits at the start, although a join tests for equality only |
| `FtHistory.CapHolds` | 42-Ft_irc-main/Channel/Channel.cpp:10-16 | the direction from fitting once to fitting in every later state |
| `FtHistory.LimitTakesEffect` | 42-Ft_irc-main/Mode/Mode.cpp:101-121 | an l mode of an operator always sets the limit to the number that modeParse handed on, since operators are members and the loop is not empty |
| `FtLimit.LimitBecomesIff` | 42-Ft_irc-main/Mode/Mode.cpp:101-121 | handled as a whole, an accepted +l line of an operator makes the limit the number in the line if and only if the same condition holds; where nothing is read, the limit is what an int holds that was never set |
| `FtLimit.AttachedLimitIsUnset` | 42-Ft_irc-main/Utils/Utils.cpp:39-46 | an accepted +l of an operator with the number attached makes the limit what an int holds that was never set |
| `FtSteps.LimitOf` | 42-Ft_irc-main/Channel/Channel.cpp:193-196 | the stored limit is the one number below 2^64 that is congruent to the int |
| `IrcText.CommandParser` | _irc_/src/commands/Commands.cpp:18-39 | NUL ends the line, line feeds go, the rest is split at spaces, and the first word is folded to upper case |
| `IrcText.TailIs` | _irc_/src/commands/Privmsg.cpp:23 | the words from the k-th on, merged, are the exact tail of the line after its k-th space, runs of spaces included |
| `IrcText.TailUnique` | _irc_/src/commands/Privmsg.cpp:23 | there is one such tail only |
| `IrcText.JoinTrailing` | _irc_/src/commands/Part.cpp:21-27 | the joiner of PART and TOPIC |
| `IrcText.JoinLeading` | _irc_/src/commands/Kick.cpp:9-14 | the joiner of KICK, QUIT and USER |
| `IrcText.JoinersGiveTail` | _irc_/src/commands/Quit.cpp:3-10 | for a line without NUL and line feed, each joiner gives the exact tail of the line from its start word |
| `IrcText.PrivmsgText` | _irc_/src/commands/Privmsg.cpp:18-28 | merge, one colon off, and through the bot unless the sender is the bot |
| `IrcText.DeliveredText` | _irc_/src/commands/Privmsg.cpp:18-28 | end to end: the delivered text is the censored rest of the line after its second space less one colon, if and only if the nick has no exclamation mark |
| `IrcText.AfterNick` | _irc_/src/Bot.cpp:103-110 | the bot takes the message apart at the nick if and only if the nick has no exclamation mark |
| `IrcServer.Channel.IsUserOnChannel` | _irc_/src/Channel.cpp:13-24 | the search finds the client if and only if it is a member |
| `IrcServer.Server.IsNickTaken` | _irc_/src/commands/Nick.cpp:8-15 | true if and only if some entry of the table has the nick |
| `IrcServer.Server.GetClient` | _irc_/src/Server.cpp:297-309 | of the connected clients with the nick the one with the lowest descriptor |
| `IrcServer.Server.DropNick` | _irc_/src/Server.cpp:282-289 | the first entry of the descriptor goes, later ones stay |
| `IrcServer.Server.CloseConnection` | _irc_/src/Server.cpp:270-295 | poll set, client map and one nick entry; channels are not touched; nothing happens when close fails |
| `IrcServer.Server.AddNewClient` | _irc_/src/Server.cpp:147-155 | a connection adds one client to map and poll set and keeps the invariant |
| `IrcServer.Server.Pass` | _irc_/src/commands/Pass.cpp:3-21 | first rung: the right password sets the flag |
| `IrcServer.Server.Nick` | _irc_/src/commands/Nick.cpp:25-43 | second rung: a free nick is entered in the table and set |
| `IrcServer.Server.User` | _irc_/src/commands/User.cpp:4-28 | last rung: only with a nick and without a user name; the real name is the joined rest less one colon |
| `IrcServer.Server.RemoveClientFromChannel` | _irc_/src/Channel.cpp:109-136 | the member goes, an emptied channel disappears, and the front member succeeds an operator who leaves |
| `IrcServer.Server.JoinChannel` | _irc_/src/commands/Join.cpp:4-48 | name, duplicate, key and limit tests, then the end of the list; or a new channel led by its founder |
| `IrcServer.Server.Part` | _irc_/src/commands/Part.cpp:5-58 | one channel of the comma list after the other; the message is the joined rest less one colon |
| `IrcServer.Server.Topic` | _irc_/src/commands/Topic.cpp:6-41 | the topic is the joined rest, for the operator only |
| `IrcServer.Server.Kick` | _irc_/src/commands/Kick.cpp:2-31 | the operator removes a member that the nick lookup finds; it fails exactly when the channel was deleted under it; the reason is the joined rest |
| `IrcServer.Server.Privmsg` | _irc_/src/commands/Privmsg.cpp:13-54 | whom the message goes to and with which text, and when a lookup comes back empty |
| `IrcServer.Server.Listeners` | _irc_/src/commands/Privmsg.cpp:44-51 | the loop over the nicks of the members |
| `IrcServer.Server.Quit` | _irc_/src/commands/Quit.cpp:13-28 | the text is the joined rest; exactly the other clients of the map get the farewell, once each, by ascending descriptor; and the connection is closed |
| `IrcServer.Server.HandleCommand` | _irc_/src/commands/Commands.cpp:41-76 | the ladder commands are open to all, the others to clients with password and user name; exactly one handler runs, and the letters of a PRIVMSG or QUIT are its own |
| `IrcServer.Server.HandleLine` | _irc_/src/commands/Commands.cpp:18-39 | a line is one step of the machine, sends its letters, and keeps the invariant |
| `IrcServer.Server.HandleClientMessage` | _irc_/src/Server.cpp:199-233 | a connection that ended is closed; otherwise every complete line of the received text is handled, in order, with its letters; the invariant is kept |
| `IrcCommands.ReadsCommand` | _irc_/src/commands/Commands.cpp:18-39 | a word and the rest of a line behind it are read as the word in upper case and the pieces of the rest |
| `IrcCommands.PassAuthorizes` | _irc_/src/commands/Pass.cpp:3-21 | a PASS sets the flag if and only if its second word is the server's password, and changes nothing else |
| `IrcCommands.NickEnters` | _irc_/src/commands/Nick.cpp:25-43 | a NICK past the first rung takes the nick if and only if no entry of the table has it, and enters it at the end |
| `IrcCommands.UserCompletes` | _irc_/src/commands/User.cpp:4-28 | a USER of four words completes the registration of a client with a nick and without a user name, from its second, third and further words |
| `IrcCommands.OthersWait` | _irc_/src/commands/Commands.cpp:72-75 | until then no other command changes anything |
| `IrcCommands.JoinOpens` | _irc_/src/commands/Join.cpp:36-45 | a JOIN of a well-formed new name adds the channel: keyed by the third word, without topic, led by the sender, its only member |
| `IrcCommands.JoinAdmitsIff` | _irc_/src/commands/Join.cpp:4-48 | a registered client's JOIN makes it the last member of the named channel if and only if the name is well formed and the channel is new, or the client is not on it, gives its key and finds fewer than ten members; otherwise nothing changes |
| `IrcCommands.PartLeaves` | _irc_/src/commands/Part.cpp:5-58 | after its PART a registered client is on none of the channels between the commas: an emptied one is gone, the others keep their order, the rank of a leader passes to the front, and nothing else changes |
| `IrcCommands.TopicSets` | _irc_/src/commands/Topic.cpp:6-41 | a TOPIC sets the words from the third on if and only if the sender's nick is the operator's, and changes nothing else |
| `IrcCommands.KickRemoves` | _irc_/src/commands/Kick.cpp:2-31 | a KICK of the operator takes the client with the nick off the channel and passes its rank to the front; with the last member the program does not survive it |
| `IrcCommands.QuitCloses` | _irc_/src/commands/Quit.cpp:26 | a QUIT takes the client out of the map and the poll vector, with one entry of the nick table, where close succeeds |
| `IrcCommands.HangupCloses` | _irc_/src/Server.cpp:270-295 | so does the end of a connection |
| `IrcCommands.WithoutInOrder` | _irc_/src/PollManager.cpp:18-21 | the descriptors that stay in the poll vector keep their order |
| `IrcCommands.AcceptAdds` | _irc_/src/Server.cpp:147-155 | a new client has no nick, no names and no rights, and the last place in the poll vector |
| `IrcCommands.PrivmsgKeeps` | _irc_/src/commands/Privmsg.cpp:13-54 | a PRIVMSG changes nothing, and is survived exactly where every lookup finds somebody |
| `IrcCommands.OthersKeep` | _irc_/src/commands/Commands.cpp:41-76 | CAP, LIST, an unknown command and an empty line change nothing |
| `IrcLetters.PrivateLetter` | _irc_/src/commands/Privmsg.cpp:30-38 | a PRIVMSG to a nick is one letter `:nick PRIVMSG target :text`, to the client with the lowest descriptor that has the nick |
| `IrcLetters.ChannelLetters` | _irc_/src/commands/Privmsg.cpp:39-53 | a PRIVMSG of a member to its channel is that letter to each other member but the bot, in the order of the list, while all members are connected and can be looked up |
| `IrcLetters.QuitLetters` | _irc_/src/commands/Quit.cpp:20-25 | a QUIT is one farewell with prefix and words to every other connected client, by ascending descriptor, and to nobody if the bot sends it |
| `IrcTalk.MemberResolvesIff` | _irc_/src/Client.cpp:73-83 | looking a member up by its nick finds it, if and only if the nick is not empty or no client without a nick has a lower descriptor |
| `IrcTalk.ChannelAudience` | _irc_/src/commands/Privmsg.cpp:39-53 | while all members are connected, a channel message of a member reaches every other member but the bot exactly once, in the order of the list, if and only if every member can be looked up by its nick, or the bot has no name |
| `IrcTalk.DepartedMissed` | _irc_/src/commands/Privmsg.cpp:44-51 | with a member that has left the server the message does not go to the other members: somebody else gets it, or the lookup fails |
| `IrcInvariant.LiveNicksUnique` | _irc_/src/commands/Nick.cpp:34-41 | two connected clients with a nick never share it, although stale entries stay in the table |
| `IrcInvariant.NickInv` | _irc_/src/commands/Nick.cpp:25-43 | an accepted nick keeps the table distinct and complete |
| `IrcInvariant.CloseInv` | _irc_/src/Server.cpp:270-295 | a close keeps all tables in step although only one nick entry goes |
| `IrcInvariant.JoinInv` | _irc_/src/commands/Join.cpp:13-45 | a join keeps members distinct and at most ten, and map key equal to name |
| `IrcInvariant.LeaveAtOk` | _irc_/src/Channel.cpp:109-130 | a departure keeps every channel in the table non-empty |
| `IrcInvariant.LineInv` | _irc_/src/commands/Commands.cpp:41-76 | every line keeps the invariant: client map, ladder, nick table, channels, poll set |
| `IrcInvariant.StepInv` | _irc_/src/Server.cpp:235-265 | every event keeps it |
| `IrcInvariant.RunInv` | _irc_/src/Server.cpp:235-265 | hence every state of every run satisfies it |
| `IrcInvariant.EveryoneGavePassword` | _irc_/src/commands/Pass.cpp:10-15 | whoever is past the first rung sent the server's password in some earlier line of its own |
| `IrcSuccession.MembersApart` | _irc_/src/Channel.cpp:123-125 | connected members of a channel have different nicks, so the operator's nick is that of one member only |
| `IrcSuccession.LeaveLed` | _irc_/src/Channel.cpp:123-126 | whoever leaves, members gone and nicks taken again included, the channel is led by the nick of its front member afterwards |
| `IrcSuccession.NickLedIff` | _irc_/src/commands/Nick.cpp:38-40 | after an accepted NICK every channel still has the nick of its front member as operator if and only if the sender fronts none |
| `IrcSuccession.StepLedIff` | _irc_/src/commands/Commands.cpp:41-76 | every event leaves every channel to the nick of its front member if and only if it is no accepted NICK of a client at a front |
| `IrcSuccession.RunLedIff` | _irc_/src/Server.cpp:235-265 | the same over runs, disconnects included |
| `IrcSuccession.StepSuccession` | _irc_/src/commands/Commands.cpp:41-76 | every calm event, one without such a NICK and without a disconnect of a member, also keeps all members connected |
| `IrcSuccession.RunSuccession` | _irc_/src/Server.cpp:235-265 | the same over runs |
| `IrcStanding.ListIsInOrderOfJoining` | _irc_/src/commands/Join.cpp:30 | over any run, whoever stands before a member has been on the channel, and before it, at least as long |
| `IrcStanding.OperatorStandsLongest` | _irc_/src/Channel.cpp:109-130 | after any run without a NICK at a front, disconnects included, the stored operator is the nick of the longest-standing member |
| `IrcStanding.OperatorIsLongestStanding` | _irc_/src/Channel.cpp:109-130 | after any run of calm events it is the nick of no other member |
| `IrcRights.Rights` | _irc_/src/commands/Kick.cpp:18-25 | in every run, a member goes only by its own PART that lists the channel or by a KICK of the operator that names it, enters only by its own JOIN of the channel with key and room, and a topic changes only by a TOPIC of the operator, to the words of the line |
| `IrcRights.Founding` | _irc_/src/commands/Join.cpp:36-45 | in every run, a new channel comes from a JOIN, is named by its second word, keyed by the third, and has its founder as only member and operator |
| `IrcRights.TopicIsTail` | _irc_/src/commands/Topic.cpp:30-37 | in every run, a new topic is the exact tail of the line after its second space |
| `IrcRights.OperatorIsFront` | _irc_/src/commands/Kick.cpp:18-19 | while the succession holds, a client that passes the operator test is the front member |
| `IrcPart.PartAllIs` | _irc_/src/commands/Part.cpp:32-57 | the loop over the names does what leaving the set of the names does |
| `IrcPart.PartOrderIrrelevant` | _irc_/src/commands/Part.cpp:13-19 | any order and repetition of the names gives the same channel table |
| `IrcPart.PartMeaning` | _irc_/src/commands/Part.cpp:32-57 | unlisted channels are unchanged, the client is gone from each listed one, the others keep their order, and a channel disappears exactly when the client was its last member |
| `IrcPoll.PollManager.RemoveFd` | _irc_/src/PollManager.cpp:18-21 | every entry of the descriptor goes, the others keep their order |
| `IrcServer.Server.Round` | _irc_/src/Server.cpp:251-265 | the index loop, run on the server: its handlers append to the vector and erase from it, and still exactly the positions that get a turn are handled, the state is that of the handlers one after the other, the vector is what the closed connections leave of it with the new one behind, and the invariant is kept |
| `IrcServer.Server.Turn` | _irc_/src/Server.cpp:253-263 | one pass through the body of the loop |
| `IrcLoop.RoundIsRun` | _irc_/src/Server.cpp:235-265 | a round does what one run of events does, and the events are those of its turns one after the other |
| `IrcLoop.TurnTaken` | _irc_/src/Server.cpp:253-263 | among these events, whoever got a turn has all lines of its text in order, or the end of its connection, or the newcomer; nobody who gets a turn is passed over |
| `IrcServer.Server.Run` | _irc_/src/Server.cpp:244-265 | any number of rounds of the server, whatever the kernel answers in each, follow each other as single rounds do, and together are one run: that of the events of all turns in order |
| `IrcLoop.RunGoesOn` | _irc_/src/Server.cpp:235-265 | appended to a run they are a run again, so every claim about runs holds for the server after its rounds |
| `IrcLoop.LinesClose` | _irc_/src/Server.cpp:199-233 | the lines of one text close at most their own connection |
| `IrcLoop.NobodyWaitsForEver` | _irc_/src/Server.cpp:251-265 | nobody waits for ever: over any number of rounds of the server, a connection that stays misses its turn at most as often as there are connections before it in the vector |
| `IrcLoop.WaitBound` | _irc_/src/Server.cpp:251-265 | the same for the vectors alone |
| `IrcPoll.HandledOnce` | _irc_/src/Server.cpp:252-264 | no descriptor is handled twice in a round |
| `IrcPoll.SkippedStays` | _irc_/src/Server.cpp:252-264 | a ready descriptor misses its turn if and only if the one before it was closed; it is still in the vector, nearer to the front |

## Left out

- Sockets, `poll`, signals, process exit, port numbers and the command line: inputs or not modelled.
- IrcServer.Server.Round: the branch for the bot's own socket is left out, since that socket is never put into the vector.
- Letters are the texts of PRIVMSG and NOTICE (`42-Ft_irc-main`) and of PRIVMSG and QUIT (`_irc_`). Numeric replies, their wording, the announcements of JOIN, PART, KICK, TOPIC and MODE and of a QUIT of `42-Ft_irc-main`, the logger, and the texts of WHO, WHOIS, LIST and CAP are not modelled: no state depends on them.
- IrcServer.Server.Turn: the letters of a received text are returned by HandleClientMessage and not collected over a round.
- FtParser.Number: `atoi` and the stream extraction are modelled for decimal numbers in the C locale.
- FtParser.ToInt: what an `int` holds that was never set is one arbitrary number for a whole run, where the program may find another one each time.
- FtServer.Server.RemoveClient: the server deletes the client before it searches the channels by descriptor; the model searches with the record the client had.
- FtServer.Server.GetClient: a channel may hold entries of a client that is gone; their descriptor may have been given to a new client, which then passes tests by descriptor. The model keeps this, so the provenance lemmas of FtHistory speak of the descriptor, and those of FtPersons of the person while nobody is let in twice.
- FtLimit.LimitReadIff: the lines that a client prints, with a positive decimal number; other spellings that `atoi` accepts (a sign, leading zeros, other white space) are not classified.
- IrcServer.Server.HandleClientMessage: lines after a QUIT in the same text get a new client whose flags are not initialised; the model stops there.
- IrcServer.Server.Quit: an error while the farewell is sent also ends in closing the connection, once; the order of these two is not modelled.
- Wire.Frame: the receive loop before it, with its buffer size and the cut at a NUL, is not modelled, and what follows the last line ending is lost as in the program.
- IrcTalk.ChannelAudience: the equivalence is stated while all members are connected; of a channel with a member that is gone DepartedMissed says that it does not hold.
- The channel table of `_irc_` after a disconnect: the client stays on its channels, and its nick may be taken again; that the operator's nick belongs to one member only is claimed for runs without a disconnect of a member.
- `42-Ft_irc-main` never removes a channel, and its member lists may hold a client more than once, since JOIN does not test for membership: both are kept as they are.
- A +b of a host with several entries erases the first one only: kept as it is, and the reason why BanMonotone speaks of never growing.
- The event loop of `42-Ft_irc-main` and its poll vector, which only grows: events reach the model in any order.
- `tcp_mu2` and `Tar-zip`: exercises and archives without state worth a proof.
