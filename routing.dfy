/** Where each kind of line the server sends ends up. Lines are built in the
    shapes RFC 2812 gives them (section 2.3.1): a numeric reply
    ":<server> <ddd> <params> :<text>", a relayed command
    ":<nick>!<user> <VERB> <params> :<text>", and the server's own "PING"
    and "ERROR" lines, each ended by CR LF. For each shape the lemmas below
    state the whole effect of `interpret_messages`. */
module Routing {
  import opened NumericReplies
  import opened MessageFields
  import opened Dispatcher

  // ---------------------------------------------------------------- numeric replies

  /** A numeric reply as the server sends it. */
  function ReplyLine(server: string, n: nat, params: string, text: string): (msg: string)
    requires n <= 999
    ensures |msg| >= 2
  {
    ":" + server + " " + CodeDigits(n) + params + " :" + text + "\r\n"
  }

  /** The server name holds no space and no ':', and the middle parameters
      hold no ':'. */
  predicate ReplyShape(server: string, params: string) {
    ' ' !in server && ':' !in server && ':' !in params
  }

  /** A received line that has numeric code `n`, read where the dispatcher
      reads it. */
  predicate IsCoded(msg: string, n: int) {
    |msg| >= 2 &&
    var line := Stripped(msg);
    ' ' in line && MessageCode(line) == n
  }

  /** A received line that has numeric code `n` and tail `text`, both read
      where the dispatcher reads them. */
  predicate IsReply(msg: string, n: int, text: string) {
    IsCoded(msg, n) && Tail(msg) == text
  }

  /** A numeric reply built in the wire shape reads back as its own code and
      trailing parameter. */
  lemma ReplyFields(server: string, n: nat, params: string, text: string)
    requires ReplyShape(server, params) && n <= 999
    ensures IsReply(ReplyLine(server, n, params, text), n, text)
  {
    var digits := CodeDigits(n);
    var core := ":" + server + " " + digits + params;
    var line := core + " :" + text;
    assert ReplyLine(server, n, params, text) == line + "\r\n";
    assert line == (":" + server) + " " + digits + (params + " :" + text);
    NumericCodeRoundTrip(":" + server, n, params + " :" + text);
    assert core[1..] == server + " " + digits + params;
    TailAfterSpace(core, text);
    assert line[|server| + 1] == ' ';
  }

  /** A numeric reply without a trailing parameter, as in
      ":<server> 004 <nick> <server> <version> <modes>". */
  function BareReplyLine(server: string, n: nat, params: string): (msg: string)
    requires n <= 999
    ensures |msg| >= 2
  {
    ":" + server + " " + CodeDigits(n) + params + "\r\n"
  }

  /** A reply in the bare wire shape reads back as its own code, and its
      tail is the line feed that follows the cut-off line. */
  lemma BareReplyFields(server: string, n: nat, params: string)
    requires ReplyShape(server, params) && n <= 999
    ensures IsReply(BareReplyLine(server, n, params), n, "\n")
  {
    var digits := CodeDigits(n);
    var line := ":" + server + " " + digits + params;
    var msg := BareReplyLine(server, n, params);
    assert msg == line + "\r\n";
    assert Stripped(msg) == line && Last(msg) == '\n';
    BareReplyCode(server, n, params);
    BareReplyHasNoTail(server, n, params);
  }

  lemma BareReplyCode(server: string, n: nat, params: string)
    requires ' ' !in server && n <= 999
    ensures var line := ":" + server + " " + CodeDigits(n) + params;
      ' ' in line && MessageCode(line) == n
  {
    var digits := CodeDigits(n);
    var line := ":" + server + " " + digits + params;
    assert line == (":" + server) + " " + digits + params;
    NumericCodeRoundTrip(":" + server, n, params);
    assert line[|server| + 1] == ' ';
  }

  /** No ':' follows the first character of a bare reply. */
  lemma BareReplyHasNoTail(server: string, n: nat, params: string)
    requires ReplyShape(server, params) && n <= 999
    ensures !HasTail(":" + server + " " + CodeDigits(n) + params)
  {
    var digits := CodeDigits(n);
    var line := ":" + server + " " + digits + params;
    assert line[1..] == server + " " + digits + params;
    assert ':' !in digits;
  }

  /** A reply line is always dispatched: it gets the debug line, then the
      calls of its code's branch (spelled out per group by
      `NumericReactionByGroup`), and the session is left alone. */
  lemma ReplyRouting(s: Session, msg: string, n: int)
    requires IsCoded(msg, n) && n != NOCODE
    ensures Dispatchable(msg)
    ensures Dispatch(s, msg) ==
      Effect(s, [DebugMessage(DebugText(n, Stripped(msg)))] + NumericReaction(n, Stripped(msg), Last(msg)))
  {
    NumericDispatch(s, msg);
  }

  // ---------------------------------------------------------------- relayed commands

  /** A command relayed from a user as the server sends it. */
  function CommandLine(nick: string, user: string, v: Verb, params: string, text: string): (msg: string)
    ensures |msg| >= 2
  {
    ":" + nick + "!" + user + " " + Name(v) + params + " :" + text + "\r\n"
  }

  /** The nick holds no space, '!' or ':'; the user part no space or ':';
      the middle parameters no ':' and, when present, start with a space. */
  predicate CommandShape(nick: string, user: string, params: string) {
    ' ' !in nick && '!' !in nick && ':' !in nick && ' ' !in user && ':' !in user &&
    ':' !in params && (params == [] || params[0] == ' ')
  }

  /** A received line with code NOCODE, verb `v` and sender `sender`, each
      read where the dispatcher reads it; it need not have a trailing
      parameter. */
  predicate IsSenderCommand(msg: string, v: Verb, sender: string) {
    |msg| >= 2 &&
    var line := Stripped(msg);
    ' ' in line && MessageCode(line) == NOCODE && MessageType(line) == v &&
    HasSender(line) && MessageSender(line) == sender
  }

  /** A received line with code NOCODE, verb `v`, sender `sender` and tail
      `text`, each read where the dispatcher reads it. */
  predicate IsCommand(msg: string, v: Verb, sender: string, text: string) {
    IsSenderCommand(msg, v, sender) && Tail(msg) == text
  }

  /** A relayed command built in the wire shape reads back as its own verb,
      sender and trailing parameter, with no numeric code. */
  lemma CommandFields(nick: string, user: string, v: Verb, params: string, text: string)
    requires CommandShape(nick, user, params) && v in WordVerbs
    ensures IsCommand(CommandLine(nick, user, v, params, text), v, nick, text)
  {
    var prefix, rest := ":" + nick + "!" + user, params + " :" + text;
    var line := prefix + " " + Name(v) + rest;
    var msg := CommandLine(nick, user, v, params, text);
    assert msg == BareCommandLine(nick, user, v, rest);
    BareCommandFields(nick, user, v, rest);
    assert Stripped(msg) == line;
    assert HasTail(line) && TailMessage(line) == text by { CommandTail(nick, user, v, params, text); }
  }

  /** A relayed command without a trailing parameter, as servers send a
      JOIN: ":<nick>!<user> JOIN <channel>". */
  function BareCommandLine(nick: string, user: string, v: Verb, params: string): (msg: string)
    ensures |msg| >= 2
  {
    ":" + nick + "!" + user + " " + Name(v) + params + "\r\n"
  }

  /** A relayed command in the bare wire shape reads back as its own verb and
      sender, with no numeric code, whether or not it has a trailing
      parameter. Without any ':' after the first character its tail is the
      line feed that follows the cut-off line. */
  lemma BareCommandFields(nick: string, user: string, v: Verb, params: string)
    requires ' ' !in nick && '!' !in nick && ' ' !in user && (params == [] || params[0] == ' ')
    requires v in WordVerbs
    ensures IsSenderCommand(BareCommandLine(nick, user, v, params), v, nick)
    ensures CommandShape(nick, user, params) ==> IsCommand(BareCommandLine(nick, user, v, params), v, nick, "\n")
  {
    var prefix := ":" + nick + "!" + user;
    var line := prefix + " " + Name(v) + params;
    var msg := BareCommandLine(nick, user, v, params);
    assert msg == line + "\r\n";
    assert Stripped(msg) == line && Last(msg) == '\n';
    assert ' ' in line && MessageCode(line) == NOCODE by { CommandCode(prefix, v, params); }
    assert MessageType(line) == v by { CommandVerb(prefix, v, params); }
    assert HasSender(line) && MessageSender(line) == nick by { CommandSender(nick, user, v, params); }
    if CommandShape(nick, user, params) {
      assert !HasTail(line) by { BareCommandHasNoTail(nick, user, v, params); }
    }
  }

  /** No ':' follows the first character of a bare relayed command. */
  lemma BareCommandHasNoTail(nick: string, user: string, v: Verb, params: string)
    requires CommandShape(nick, user, params) && v in WordVerbs
    ensures !HasTail(":" + nick + "!" + user + " " + Name(v) + params)
  {
    var line := ":" + nick + "!" + user + " " + Name(v) + params;
    NameShape(v);
    assert line[1..] == nick + "!" + user + " " + Name(v) + params;
  }

  /** A line whose second token is a verb has code NOCODE. */
  lemma CommandCode(prefix: string, v: Verb, rest: string)
    requires v in WordVerbs && ' ' !in prefix
    ensures var line := prefix + " " + Name(v) + rest;
      ' ' in line && MessageCode(line) == NOCODE
  {
    var line := prefix + " " + Name(v) + rest;
    NameShape(v);
    assert line[..|prefix|] == prefix && line[|prefix|] == ' ';
    FindIs(line, ' ', 0, |prefix|);
    FindIsFirst(line, ' ');
    assert line[|prefix| + 1] == Name(v)[0];
    CommandLineHasNoCode(line, |prefix|);
  }

  /** A line whose first token starts with ':' has the verb of its second
      token. */
  lemma CommandVerb(prefix: string, v: Verb, rest: string)
    requires v in WordVerbs && ' ' !in prefix && |prefix| > 0 && prefix[0] == ':'
    requires rest == [] || rest[0] == ' '
    ensures MessageType(prefix + " " + Name(v) + rest) == v
  {
    assert !StartsWith(prefix, "PING") by {
      if |prefix| >= 4 { assert prefix[..4][0] == ':'; }
    }
    assert !StartsWith(prefix, "ERROR") by {
      if |prefix| >= 5 { assert prefix[..5][0] == ':'; }
    }
    MessageTypeRoundTrip(prefix, v, rest);
  }

  lemma CommandSender(nick: string, user: string, v: Verb, rest: string)
    requires '!' !in nick
    ensures var line := ":" + nick + "!" + user + " " + Name(v) + rest;
      HasSender(line) && MessageSender(line) == nick
  {
    var line := ":" + nick + "!" + user + " " + Name(v) + rest;
    assert line == ":" + nick + "!" + (user + " " + Name(v) + rest);
    SenderRoundTrip(nick, user + " " + Name(v) + rest);
  }

  lemma CommandTail(nick: string, user: string, v: Verb, params: string, text: string)
    requires CommandShape(nick, user, params) && v in WordVerbs
    ensures var line := ":" + nick + "!" + user + " " + Name(v) + params + " :" + text;
      HasTail(line) && TailMessage(line) == text
  {
    NameShape(v);
    var core := ":" + nick + "!" + user + " " + Name(v) + params;
    assert core[1..] == nick + "!" + user + " " + Name(v) + params;
    TailAfterSpace(core, text);
  }

  /** The tail of "<core> :<text>" is the text when only the first
      character of the core may be a ':'. */
  lemma TailAfterSpace(core: string, text: string)
    requires |core| >= 1 && ':' !in core[1..]
    ensures HasTail(core + " :" + text) && TailMessage(core + " :" + text) == text
  {
    var head := core + " ";
    assert head[1..] == core[1..] + " ";
    TailRoundTrip(head, text);
    assert core + " :" + text == head + ":" + text;
  }

  // ---------------------------------------------------------------- effects of commands

  /** NICK: the change is shown; the session's nick follows only when the
      sender is the session's own nick. */
  lemma NickRouting(s: Session, msg: string, sender: string, newNick: string)
    requires IsCommand(msg, Nick, sender, newNick)
    ensures Dispatchable(msg)
    ensures Dispatch(s, msg) == Effect(if sender == s.nick then s.(nick := newNick) else s,
      [DebugMessage(DebugText(NOCODE, Stripped(msg))), NickChangeMessage(sender, newNick)])
  {
    CommandDispatch(s, msg);
  }

  /** JOIN by the session's own nick: the session moves to the channel named
      by the line's tail and the shown channel is updated. */
  lemma JoinRouting(s: Session, msg: string, channel: string)
    requires IsCommand(msg, Join, s.nick, channel)
    ensures Dispatchable(msg)
    ensures Dispatch(s, msg) ==
      Effect(s.(channel := channel), [DebugMessage(DebugText(NOCODE, Stripped(msg))), UpdateChannel(channel)])
  {
    CommandDispatch(s, msg);
  }

  /** JOIN by anyone else: the join is announced; the line needs no trailing
      parameter, since that branch never looks for one. */
  lemma JoinOtherRouting(s: Session, msg: string, sender: string)
    requires IsSenderCommand(msg, Join, sender) && sender != s.nick
    ensures Dispatchable(msg)
    ensures Dispatch(s, msg) == Effect(s, [DebugMessage(DebugText(NOCODE, Stripped(msg))), EnterMessage(sender)])
  {
    CommandDispatchable(msg);
    CommandDispatch(s, msg);
  }

  /** PART: the session's own part leaves the channel and clears the user
      list, the shown channel and the topic before the leave is shown;
      anyone else's part is only shown. */
  lemma PartRouting(s: Session, msg: string, sender: string, reason: string)
    requires IsCommand(msg, Part, sender, reason)
    ensures Dispatchable(msg)
    ensures sender == s.nick ==> (Dispatch(s, msg) ==
      Effect(s.(channel := NoChannel), [DebugMessage(DebugText(NOCODE, Stripped(msg))),
        PopulateUsers(""), UpdateChannel("None"), UpdateTopic("No Current Topic"), LeaveMessage(sender, reason)]))
    ensures sender != s.nick ==> (Dispatch(s, msg) ==
      Effect(s, [DebugMessage(DebugText(NOCODE, Stripped(msg))), LeaveMessage(sender, reason)]))
  {
    CommandDispatch(s, msg);
    var line := Stripped(msg);
    var debug := DebugMessage(DebugText(NOCODE, line));
    var shown := CommandReaction(s, Part, line, Last(msg)).events;
    if sender == s.nick {
      assert shown == [PopulateUsers(""), UpdateChannel("None"), UpdateTopic("No Current Topic"),
        LeaveMessage(sender, reason)];
      PrependToFour(debug, PopulateUsers(""), UpdateChannel("None"), UpdateTopic("No Current Topic"),
        LeaveMessage(sender, reason));
    }
  }

  /** A PART without a parting message, ":<nick>!<user> PART <channel>", is
      handled too: its tail is the line feed after the cut-off line, and
      that is what the leave message shows. */
  lemma BarePartRouting(s: Session, nick: string, user: string, channel: string)
    requires CommandShape(nick, user, channel)
    ensures var msg := BareCommandLine(nick, user, Part, channel);
      Dispatchable(msg) &&
      (nick != s.nick ==>
        Dispatch(s, msg) == Effect(s, [DebugMessage(DebugText(NOCODE, Stripped(msg))), LeaveMessage(nick, "\n")])) &&
      (nick == s.nick ==> Dispatch(s, msg).after == s.(channel := NoChannel))
  {
    var msg := BareCommandLine(nick, user, Part, channel);
    BareCommandFields(nick, user, Part, channel);
    PartRouting(s, msg, nick, "\n");
  }

  /** TOPIC: the change is announced under the session's channel and the
      shown topic is replaced. */
  lemma TopicRouting(s: Session, msg: string, sender: string, topic: string)
    requires IsCommand(msg, Topic, sender, topic)
    ensures Dispatchable(msg)
    ensures Dispatch(s, msg) == Effect(s, [DebugMessage(DebugText(NOCODE, Stripped(msg))),
      ServerMessage(s.channel + TopicChanged + topic), UpdateTopic(topic)])
  {
    CommandDispatch(s, msg);
    var m := AddHeader(s.channel, TopicChanged);
    assert m == s.channel + TopicChanged;
    assert AddHeader(m, topic) == m + topic;
  }

  /** PRIVMSG: the text is shown with its sender. */
  lemma PrivmsgRouting(s: Session, msg: string, sender: string, text: string)
    requires IsCommand(msg, Privmsg, sender, text)
    ensures Dispatchable(msg)
    ensures Dispatch(s, msg) == Effect(s, [DebugMessage(DebugText(NOCODE, Stripped(msg))), ChatMessage(text, sender)])
  {
    CommandDispatch(s, msg);
  }

  /** QUIT: the sender is shown leaving with the quit message. */
  lemma QuitRouting(s: Session, msg: string, sender: string, reason: string)
    requires IsCommand(msg, Quit, sender, reason)
    ensures Dispatchable(msg)
    ensures Dispatch(s, msg) == Effect(s, [DebugMessage(DebugText(NOCODE, Stripped(msg))), LeaveMessage(sender, reason)])
  {
    CommandDispatch(s, msg);
  }

  /** PING from the server: the idle warning is shown (no PONG is sent). */
  lemma PingRouting(s: Session, server: string)
    ensures var msg := "PING :" + server + "\r\n";
      Dispatchable(msg) &&
      Dispatch(s, msg) == Effect(s, [DebugMessage(DebugText(NOCODE, "PING :" + server)), WarningMessage(IdleWarning)])
  {
    var msg, line := "PING :" + server + "\r\n", "PING :" + server;
    assert Stripped(msg) == line;
    KeywordLine(line, 4);
    assert StartsWith(line, "PING") by { assert line[..4] == "PING"; }
    CommandDispatchable(msg);
    CommandDispatch(s, msg);
  }

  /** ERROR from the server: the time-out error is shown, the display is
      closed and the process ends. */
  lemma ErrorRouting(s: Session, reason: string)
    ensures var msg := "ERROR :" + reason + "\r\n";
      Dispatchable(msg) &&
      Dispatch(s, msg) == Effect(s.(terminated := true),
        [DebugMessage(DebugText(NOCODE, "ERROR :" + reason)), ErrorMessage(TimeoutError), CloseDisplay])
  {
    var msg, line := "ERROR :" + reason + "\r\n", "ERROR :" + reason;
    assert Stripped(msg) == line;
    KeywordLine(line, 5);
    assert !StartsWith(line, "PING") by { assert line[0] == 'E'; }
    assert StartsWith(line, "ERROR") by { assert line[..5] == "ERROR"; }
    CommandDispatchable(msg);
    CommandDispatch(s, msg);
  }

  lemma PrependToFour<T>(a: T, b: T, c: T, d: T, e: T)
    ensures [a] + [b, c, d, e] == [a, b, c, d, e]
  {
  }

  /** A line whose first space at `p` is followed by ':' has code NOCODE. */
  lemma KeywordLine(line: string, p: nat)
    requires p + 1 < |line| && line[p] == ' ' && line[p + 1] == ':' && ' ' !in line[..p]
    ensures ' ' in line && MessageCode(line) == NOCODE
  {
    assert IsFirst(line, ' ', p);
    CommandLineHasNoCode(line, p);
  }
}
