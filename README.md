# IRC client receiver — a Dafny model

This project models the receiving half of a small ncurses IRC client
(MrSaad/IRC-Client).

- **Framing.** `parse_messages` cuts each chunk read from the socket into
  lines ended by a line feed.
- **Dispatch.** `interpret_messages` handles one line:
  - it cuts off CR LF and shows a debug line;
  - it reads the numeric code from the window after the first space;
  - it takes one branch of a switch on that code.
- **Verbs.** For code NOCODE it takes a second switch on the verb. Only
  the verb branches can change the client record's `nick` and `channel`,
  and the ERROR branch ends the process.
- **Field extractors.** These are small scans over a line:
  - `get_message_code` reads the code;
  - `get_tail_message` reads the trailing parameter;
  - `get_message_sender` reads the nick of the prefix;
  - `get_message_type` reads the verb;
  - `add_header` concatenates two strings.
- **Error codes.** The table in `error_replies.h` supplies the numeric
  error codes.

The model has two layers:

- **Functional specification.** The `Dispatcher` module is a pure
  specification of one line. Given the session `(nick, channel,
  terminated)` it gives the session after the line and the display calls
  made, in order, as a sequence of `Event`s.
- **Imperative model.** The `ReceiveMessage.ClientInfo` class keeps
  those fields and a log of display calls. It performs the same steps in
  place. Its methods are proved to agree exactly with the specification:
  - `InterpretMessages` with `Dispatch` for one line;
  - `ParseMessages` with `Run` over `Framing.Lines` of the chunk.

On top of the specification, lemmas state where each kind of line ends up,
that framing loses and reorders nothing, and that ERROR is terminal.

Modules, one file each:

- `CStrings` (`c_strings.dfy`): `isspace`, `atoi`, and the `%d` of
  `sprintf`.
- `ErrorReplies` (`error_replies.dfy`): the 36 constants of
  `error_replies.h`.
- `NumericReplies` (`numeric_replies.dfy`): `CODE`, `NOCODE`, the
  `RPL_*` codes and the switch's case groups.
- `MessageFields` (`message_fields.dfy`): the extractors.
- `Framing` (`framing.dfy`): the lines of a chunk.
- `Dispatcher` (`dispatcher.dfy`): one line and a run of lines, as
  functions.
- `Routing` (`routing.dfy`): where each wire shape of line ends up.
- `ReceiveMessage` (`receive_message.dfy`): the client record and its two
  methods.

The display functions are only declared in `gui.h`, so each call is
recorded as an event carrying its arguments. Nothing is said about what
the display then shows.

Behaviours of the C that are easy to misread, kept as written:

- A JOIN by the client's own nick only sets the channel and calls
  `updateChannel`. It does not reset the topic or the user list.
- A JOIN by anyone else never looks for a trailing parameter, so a bare
  ":bob!u@h JOIN #chan" is handled (`Routing.JoinOtherRouting`).
- Bytes after the last line feed of a chunk are dropped, not carried into
  the next read. `Framing.LinesOfTwoChunks` shows that framing two reads
  gives the lines of their concatenation when the first read ends on a
  line feed.
- The code reads the token after the first space. A line like
  "001 Welcome" therefore has code `atoi("Wel")` = 0 (NOCODE), not 1. Only
  server-prefixed lines such as ":srv 001 nick :Welcome" carry their
  number.
- A code is `atoi` of the (up to) three characters after the first space,
  not "exactly three digits", so " 42" or "7 x" also yield numbers. The C
  copies those characters into a three-byte buffer with no terminating
  NUL; the model takes the three-character window the code evidently
  intends (see "Left out").
- A line with no ':' after its first character still has a tail. The scan
  for ':' stops at the NUL written over the CR, and the pointer after it
  lands on the last received character, so a bare ":bob!u@h PART #chan"
  shows bob leaving with the message "\n" (`Dispatcher.LineTail`,
  `Routing.BarePartRouting`). A bare QUIT shows the same, and a bare NICK
  from another user names "\n" as the new nick.

## Model

| member | source | states |
|---|---|---|
| CStrings.AtoiWindow | receive_message.c:230-231 | `atoi` of a window of at most CODE characters lies in -99..999, and is 0 when the window starts with a character other than white space, a sign or a digit |
| CStrings.AtoiOfThreeDigits | receive_message.c:230-231 | `atoi` of three decimal digits is their decimal value |
| CStrings.DecimalRoundTrip | receive_message.c:74 | `atoi` reads back exactly the integer that `%d` printed into the debug line, for every integer |
| ErrorReplies.ErrorRepliesDistinct | error_replies.h:7-42 | the header defines 36 error codes, pairwise distinct |
| ErrorReplies.ErrorRepliesInRange | error_replies.h:7-42 | every error code lies in 401..484 |
| NumericReplies.SwitchGroupsDisjoint | receive_message.c:77-219 | no code is a case label of two branches of the switch on the code (NOCODE included), so the branches can be read in any order |
| CStrings.Atoi | receive_message.c:231 | a negative result needs a '-' after the leading white space, and a string with no sign or digit there gives 0 |
| CStrings.Decimal | receive_message.c:74 | `%d` prints at least one character, a leading '-' exactly for a negative number, and digits otherwise |
| Framing.Lines | receive_message.c:46-64 | a chunk hands on no line exactly when it holds no line feed |
| MessageFields.Find | receive_message.c:228 | the scan loop stops at the first occurrence of the delimiter at or after the start, or at the end when there is none |
| MessageFields.MessageCode | receive_message.c:223-232 | the code lies in -99..999 and is `atoi` of the (up to) CODE characters just after the first space |
| MessageFields.NumericCodeRoundTrip | receive_message.c:223-232 | a line whose second token starts with the three digits of n has code n, for every n in 0..999 |
| MessageFields.CommandLineHasNoCode | receive_message.c:223-232 | a line whose second token starts with a letter, ':' or any non-digit other than space or sign has code NOCODE |
| MessageFields.TailMessage | receive_message.c:234-240 | the tail is the suffix after the first ':' at index 1 or later; no ':' lies between index 1 and it |
| MessageFields.TailRoundTrip | receive_message.c:234-240 | a head with no ':' after its first character, then ':' and a text, gives back exactly the text |
| MessageFields.MessageSender | receive_message.c:302-314 | the sender is the characters from index 1 up to the first '!' (or the end), so it holds no '!' |
| MessageFields.SenderRoundTrip | receive_message.c:302-314 | ":nick!rest" gives back exactly nick whenever nick has no '!' |
| MessageFields.AddHeader | receive_message.c:242-250 | the result has length \|h\| + \|t\|, starts with h and continues with t |
| MessageFields.CommandToken | receive_message.c:269-279 | the token holds no space and is the text between the first space and the next space (or the end); without a space it is the whole line |
| MessageFields.VerbOfToken | receive_message.c:281-299 | the comparison yields a word verb only for that verb's exact spelling, otherwise the -1 verb |
| MessageFields.VerbOfName | receive_message.c:281-297 | each of NICK, JOIN, PART, TOPIC, PRIVMSG, QUIT is recognised as its own verb |
| MessageFields.MessageType | receive_message.c:252-300 | a "PING" prefix gives PING; failing that an "ERROR" prefix gives ERROR; otherwise a word verb or -1 |
| MessageFields.MessageTypeExact | receive_message.c:269-299 | without those prefixes, the type is verb v exactly when the second token spells v (both directions) |
| MessageFields.TokenAfterPrefix | receive_message.c:269-279 | the second token of "prefix word rest" is the word, when prefix and word have no space and rest is empty or starts with one |
| MessageFields.MessageTypeOfWord | receive_message.c:252-299 | the type of "prefix word rest" depends on the word alone when the prefix starts with neither "PING" nor "ERROR" |
| MessageFields.MessageTypeRoundTrip | receive_message.c:252-300 | "prefix VERB rest" is classified as VERB for every word verb |
| Framing.Remainder | receive_message.c:51-63 | the characters left after the last line feed contain no line feed |
| Framing.LinesAreFramed | receive_message.c:51-61 | every line handed on ends with a line feed and has no other |
| Framing.LinesReassemble | receive_message.c:46-64 | the lines followed by the remainder are the chunk again: nothing is lost, repeated or reordered |
| Framing.LinesCount | receive_message.c:46-64 | exactly one line is handed on per line feed in the chunk |
| Framing.LinesOfFragment | receive_message.c:51-61 | a fragment without line feed makes no line; followed by one it makes exactly the next line |
| Framing.NextLine | receive_message.c:53-60 | from a position j, the next line runs to the first line feed at or after j, and the lines after it follow |
| Framing.NoNextLine | receive_message.c:51-63 | when no line feed follows j, no line starts at or after j |
| Framing.LinesOfTwoChunks | receive_message.c:46-64 | framing two reads one after the other equals framing their concatenation when the first ends on a line feed |
| Dispatcher.Stripped | receive_message.c:69 | the stripped line followed by the cut-off last two characters is the received message |
| Dispatcher.DebugText | receive_message.c:74 | the debug text starts with "Message recieved (" and ends with ") - " followed by the stripped line |
| Dispatcher.LineTail | receive_message.c:234-240 | with a ':' after the first character the tail is the text after that ':'; otherwise, on a non-empty line, it is the single character left after the NUL that cut off the line end (the line feed of a framed line) |
| Dispatcher.Reaction | receive_message.c:77-220 | code NOCODE takes the branch of the line's verb; every other code takes the numeric branch and leaves the session as it was |
| Dispatcher.NumericReaction | receive_message.c:77-219 | a numeric branch makes at most one display call, and none exactly for the ignored codes |
| Dispatcher.CommandReaction | receive_message.c:118-204 | a verb branch makes no display call exactly for an unrecognised verb, and the process has ended afterwards exactly when it had before or the verb is ERROR |
| Dispatcher.Dispatch | receive_message.c:66-221 | every line makes at least one display call, the first being the debug line with the code and the stripped line |
| Dispatcher.Run | receive_message.c:46-64 | a run of lines that does not end the process makes at least one display call per line |
| Dispatcher.NumericDispatch | receive_message.c:77-117 | a line with a code other than NOCODE leaves the session unchanged and makes the debug line and then its branch's calls |
| Dispatcher.NumericReactionByGroup | receive_message.c:77-117 | the server group shows the tail as a server message, 403/404/432 as an error, and 401/442 the fixed register warning. 433 gives the nick-in-use warning whatever the tail. 402 warns with the tail, 353 populates users and 332 updates the topic. The ignored codes (422 included) do nothing, and any other code shows the whole line from "server" |
| Dispatcher.CommandDispatch | receive_message.c:118-204 | a line with code NOCODE makes the debug line and then the calls of its verb's branch |
| Dispatcher.CommandReactionFrame | receive_message.c:118-204 | among the verb branches only NICK changes the nick, only JOIN or PART the channel, and only with the session's own nick as sender. Only ERROR ends the process |
| Dispatcher.SessionChangesOnlyOnSelfEvents | receive_message.c:77-219 | numeric replies never change the session. A nick or channel change needs a NICK, JOIN or PART from the session's own nick, and termination needs ERROR |
| Dispatcher.ExitedRunsNothing | receive_message.c:197-201 | once the process has exited no further line is handled and nothing changes |
| Dispatcher.ErrorIsTerminal | receive_message.c:197-201 | after a line that ends the process the remaining lines of the chunk make no display call |
| Routing.ReplyFields | receive_message.c:223-240 | a reply ":server ddd params :text" reads back as code ddd with trailing parameter text |
| Routing.BareReplyFields | receive_message.c:223-240 | a reply ":server ddd params" with no ':' after its first character reads back as code ddd with the tail "\n" |
| Routing.ReplyRouting | receive_message.c:72-117 | every line with a code other than NOCODE, with or without a trailing parameter, can be handled, leaves the session alone and makes the debug line and then its code's branch |
| Routing.CommandFields | receive_message.c:223-314 | a relayed ":nick!user VERB params :text" reads back as code NOCODE, verb VERB, sender nick and tail text |
| Routing.CommandCode | receive_message.c:223-232 | a line whose second token is a verb has code NOCODE |
| Routing.CommandVerb | receive_message.c:252-300 | a line with a ':' prefix has the verb of its second token |
| Routing.CommandSender | receive_message.c:302-314 | the sender of a relayed command is the nick of its prefix |
| Routing.CommandTail | receive_message.c:234-240 | the tail of a relayed command is its trailing text |
| Routing.NickRouting | receive_message.c:121-134 | NICK always shows the nick change; the session's nick becomes the new one only when the sender is the session's nick; the channel is untouched |
| Routing.BareCommandFields | receive_message.c:223-314 | a relayed ":nick!user VERB params" with no trailing parameter reads back as code NOCODE, verb VERB and sender nick; when nick, user and params hold no ':' its tail is "\n" |
| Routing.JoinRouting | receive_message.c:136-149 | a JOIN by the session's nick moves the session to the channel of its trailing parameter and updates the shown channel, nothing else |
| Routing.JoinOtherRouting | receive_message.c:136-154 | a JOIN by any other nick, with or without a trailing parameter, only shows that nick entering and leaves the session alone |
| Routing.PartRouting | receive_message.c:156-170 | a PART by the session's nick clears users, shows "None" and "No Current Topic" and sets the channel to "none", then shows the leave. Any other PART only shows the leave |
| Routing.BarePartRouting | receive_message.c:156-170 | a bare ":nick!user PART channel" from another nick shows that nick leaving with the message "\n"; from the session's nick it clears the channel |
| Routing.TopicRouting | receive_message.c:172-179 | TOPIC shows "<channel> topic changed to: <topic>" using the session's channel, then updates the topic |
| Routing.PrivmsgRouting | receive_message.c:181-185 | PRIVMSG shows the text attributed to its sender |
| Routing.QuitRouting | receive_message.c:191-195 | QUIT shows the sender leaving with the quit message |
| Routing.PingRouting | receive_message.c:187-189 | a PING line shows only the idle warning and changes nothing |
| Routing.ErrorRouting | receive_message.c:197-202 | an ERROR line shows the time-out error, closes the display and ends the process |
| ReceiveMessage.ClientInfo.constructor | ircc.c:39-45 | the record starts with the login nick, channel "none", not exited, no display calls |
| ReceiveMessage.ClientInfo.InterpretMessages | receive_message.c:66-221 | handling one line in place gives exactly the session and display calls of `Dispatch` |
| ReceiveMessage.ClientInfo.React | receive_message.c:77-220 | the switch on the code gives exactly the session and calls of the chosen branch |
| ReceiveMessage.ClientInfo.InterpretNumeric | receive_message.c:77-117 | the numeric branches leave the record unchanged and append exactly that branch's calls |
| ReceiveMessage.ClientInfo.InterpretCommand | receive_message.c:118-204 | the verb branches update nick, channel and exit flag and append calls exactly as the verb's branch of the specification says |
| ReceiveMessage.ClientInfo.Deliver | receive_message.c:53-60 | handing on the line that ends at the next line feed keeps the rest of the run pending from just after it |
| ReceiveMessage.ClientInfo.Advance | receive_message.c:51-63 | one turn of the scan keeps the invariant: the lines from the current line start remain to be run |
| ReceiveMessage.ClientInfo.Finished | receive_message.c:51-63 | when no line is left, or the process has exited, the pending run is complete |
| ReceiveMessage.ClientInfo.ParseMessages | receive_message.c:46-64 | scanning a chunk leaves exactly the session and display calls of running its lines one after another, stopping at an exit |

## Left out

- The `receive_message` thread loop, the poll/recv calls, the shared terminate flag and all of ircc.c except the initial client record are I/O and concurrency, so they are not modelled.
- The bodies of the gui.h display functions are not part of the source. Each call is an event with its arguments, and `CloseDisplay` stands for `closeWC`.
- `malloc`/`free` are not modelled, since strings are values. That covers the one-byte-short allocations for the new nick, the channel and `add_header`, and the `free` of the literal "none" when the client PARTs twice.
- `perror` and `exit` in the ERROR branch become the `terminated` flag. Both methods require it to be unset, and the scan of a chunk stops once it is set.
- NUL bytes inside a chunk, which would end `strlen` early, are not modelled. Nor is the 4096-byte debug buffer, which overflows on lines longer than about 4070 characters.
- NumericReplies: the values of `CODE`, `NOCODE` and the `RPL_*` codes come from a header that is not part of this model. 001-004, 251, 254, 255, 322, 323, 332, 353 and 366 follow section 5.1 of RFC 2812; 005, 020, 042, 252, 253, 265 and 266 follow common server usage. The proved properties rely on the case groups being pairwise disjoint, on NOCODE being 0 and outside every group, and on CODE being 3.
- MessageFields.MessageCode: requires a space in the line. Without one the C copies the code window from beyond the end of the string. The C also copies the window into `char code[CODE]` with no terminating NUL, so its `atoi` may read past the buffer. The model takes `atoi` of the intended window: the three characters after the space, fewer when the line ends sooner.
- MessageFields.TailMessage: requires a ':' after the first character. On a line without one the C returns the pointer one past the terminating NUL. `Dispatcher.LineTail` models what that pointer reads inside `interpret_messages`: the last received character, or nothing on an empty line.
- MessageFields.MessageSender: requires a non-empty line not starting with '!'. Otherwise the C copies a negative length.
- MessageFields.MessageType: models the intended "starts with PING" and "starts with ERROR" tests. The C writes `ping[5]` and `error[6]` past their four-byte buffers and copies five bytes into `error`. It also writes one byte past the verb buffer.
- Dispatcher.Stripped: requires at least two characters, which the C's `msg[strlen(msg) - 2]` needs.
- ReceiveMessage.ClientInfo.InterpretMessages: requires `Dispatchable`. That excludes two kinds of line. A line with no space makes the code copy read past the string. A NICK, JOIN, PART, PRIVMSG or QUIT line that is empty or starts with '!' makes the sender copy a negative length. What the C does on those lines is not described.
- ReceiveMessage.ClientInfo.ParseMessages: requires `Runnable` of the chunk's lines, meaning every line up to an exit is dispatchable. What the C does on a line it cannot parse is not described.
- The PING branch answers the server with nothing (no PONG), as in the code.
