/** What `interpret_messages` does with one framed line, stated as a
    function of the session before it: the session after it and the display
    calls it makes, in order. The class in receive_message.dfy performs the
    same steps in place and is proved to agree with this function. */
module Dispatcher {
  import opened CStrings
  import opened ErrorReplies
  import opened NumericReplies
  import opened MessageFields

  /** One call into the display, with the strings it is given. What the
      display does with them is not part of this model. */
  datatype Event =
    | ServerMessage(text: string)                        // printServerMessage
    | ErrorMessage(text: string)                         // printErrorMessage
    | WarningMessage(text: string)                       // printWarningMessage
    | PopulateUsers(names: string)                       // populateUsers
    | UpdateTopic(topic: string)                         // updateTopic
    | UpdateChannel(channel: string)                     // updateChannel
    | EnterMessage(user: string)                         // printEnterMessage
    | LeaveMessage(user: string, reason: string)         // printLeaveMessage
    | NickChangeMessage(oldName: string, newName: string) // printNickChangeMessage
    | ChatMessage(text: string, sender: string)          // printMessage
    | DebugMessage(text: string)                         // printDebugMessage
    | CloseDisplay                                       // closeWC

  /** The fields of the client record the receiver reads and writes, and
      whether the process has exited. */
  datatype Session = Session(nick: string, channel: string, terminated: bool)

  /** The session after a step and the display calls made during it. */
  datatype Effect = Effect(after: Session, events: seq<Event>)

  /** The channel of a session that has joined none. */
  const NoChannel := "none"
  const RegisterWarning := "Please register in a channel to perform the required action."
  const NickInUseWarning := "Nick name already in use"
  const IdleWarning := "WARNING! You're idle. You are about to timeout!"
  const TimeoutError := "Connection with the server timedout."
  const TopicChanged := " topic changed to: "

  /** The line with its last two characters (CR LF) cut off. */
  function Stripped(msg: string): (line: string)
    requires |msg| >= 2
    ensures msg == line + msg[|msg| - 2..]
  {
    msg[..|msg| - 2]
  }

  /** The text of the debug line logged for every received line. */
  function DebugText(code: int, line: string): (text: string)
    ensures |text| >= 18 + |line| + 4 && text[..18] == "Message recieved ("
    ensures text[|text| - |line| - 4..] == ") - " + line
  {
    "Message recieved (" + Decimal(code) + ") - " + line
  }

  /** The last received character. Cutting the line off writes a NUL over
      the character before it, so the buffer `interpret_messages` works on
      holds the line, a NUL, this character and the string's NUL. */
  function Last(msg: string): char
    requires |msg| >= 2
  {
    msg[|msg| - 1]
  }

  /** `get_tail_message` on that buffer. With a ':' after the line's first
      character the tail is what follows it. Without one the scan stops at
      the NUL that cut the line off and the tail is the string after that
      NUL: the last received character alone, the '\n' of a framed line. */
  function LineTail(line: string, last: char): (tail: string)
    ensures HasTail(line) ==> tail == TailMessage(line)
    ensures !HasTail(line) && line != [] ==> tail == [last]
  {
    if HasTail(line) then TailMessage(line) else if line == [] then [] else [last]
  }

  /** The tail every branch of `interpret_messages` reads from `msg`. */
  function Tail(msg: string): string
    requires |msg| >= 2
  {
    LineTail(Stripped(msg), Last(msg))
  }

  /** The scans a command line takes stay inside it: the branch chosen by
      the verb `v` finds a sender when it reads one. */
  predicate CommandDefined(v: Verb, line: string) {
    match v
    case Nick => HasSender(line)
    case Join => HasSender(line)
    case Part => HasSender(line)
    case Topic => true
    case Privmsg => HasSender(line)
    case Quit => HasSender(line)
    case Ping => true
    case Error => true
    case Unrecognized => true
  }

  /** Exactly the received lines on which `interpret_messages` reads nothing
      outside its buffer: CR LF can be cut off, the code scan finds a space,
      and a verb branch that reads a sender finds one. */
  predicate Dispatchable(msg: string) {
    |msg| >= 2 &&
    var line := Stripped(msg);
    ' ' in line && Reacts(MessageCode(line), line)
  }

  /** The branches of the switch on a numeric code other than NOCODE. */
  function NumericReaction(code: int, line: string, last: char): (shown: seq<Event>)
    requires code != NOCODE
    ensures |shown| <= 1
    ensures shown == [] <==> code in IgnoredReplies
  {
    if code in IgnoredReplies then []
    else if code in ServerReplies then [ServerMessage(LineTail(line, last))]
    else if code in ErrorMessageReplies then [ErrorMessage(LineTail(line, last))]
    else if code in RegisterWarningReplies then [WarningMessage(RegisterWarning)]
    else if code == ERR_NICKNAMEINUSE then [WarningMessage(NickInUseWarning)]
    else if code == ERR_NOSUCHSERVER then [WarningMessage(LineTail(line, last))]
    else if code == RPL_NAMREPLY then [PopulateUsers(LineTail(line, last))]
    else if code == RPL_TOPIC then [UpdateTopic(LineTail(line, last))]
    else [ChatMessage(line, "server")]
  }

  /** The branches of the switch on the verb `v` of a line whose code is
      NOCODE. */
  function CommandReaction(s: Session, v: Verb, line: string, last: char): (e: Effect)
    requires CommandDefined(v, line)
    ensures e.events == [] <==> v == Unrecognized
    ensures e.after.terminated == (s.terminated || v == Error)
  {
    match v
    case Nick =>
      var sender := MessageSender(line);
      var nick := LineTail(line, last);
      Effect(if s.nick == sender then s.(nick := nick) else s, [NickChangeMessage(sender, nick)])
    case Join =>
      var sender := MessageSender(line);
      if sender == s.nick then
        var channel := LineTail(line, last);
        Effect(s.(channel := channel), [UpdateChannel(channel)])
      else
        Effect(s, [EnterMessage(sender)])
    case Part =>
      var sender := MessageSender(line);
      var leave := LeaveMessage(sender, LineTail(line, last));
      if sender == s.nick then
        Effect(s.(channel := NoChannel),
          [PopulateUsers(""), UpdateChannel("None"), UpdateTopic("No Current Topic"), leave])
      else
        Effect(s, [leave])
    case Topic =>
      var topic := LineTail(line, last);
      Effect(s, [ServerMessage(AddHeader(AddHeader(s.channel, TopicChanged), topic)), UpdateTopic(topic)])
    case Privmsg =>
      Effect(s, [ChatMessage(LineTail(line, last), MessageSender(line))])
    case Ping =>
      Effect(s, [WarningMessage(IdleWarning)])
    case Quit =>
      Effect(s, [LeaveMessage(MessageSender(line), LineTail(line, last))])
    case Error =>
      Effect(s.(terminated := true), [ErrorMessage(TimeoutError), CloseDisplay])
    case Unrecognized =>
      Effect(s, [])
  }

  /** The branch of a line may read its fields: the verb's branch for code
      NOCODE finds its sender. */
  predicate Reacts(code: int, line: string) {
    code == NOCODE ==> CommandDefined(MessageType(line), line)
  }

  /** The switch on the code of a line, after the debug line. */
  function Reaction(s: Session, code: int, line: string, last: char): (e: Effect)
    requires Reacts(code, line)
    ensures code != NOCODE ==> e == Effect(s, NumericReaction(code, line, last))
    ensures code == NOCODE ==> e == CommandReaction(s, MessageType(line), line, last)
  {
    if code == NOCODE then CommandReaction(s, MessageType(line), line, last)
    else Effect(s, NumericReaction(code, line, last))
  }

  /** `interpret_messages` on one received line. */
  function Dispatch(s: Session, msg: string): (e: Effect)
    requires Dispatchable(msg)
    ensures |e.events| >= 1
    ensures e.events[0] == DebugMessage(DebugText(MessageCode(Stripped(msg)), Stripped(msg)))
  {
    var line := Stripped(msg);
    var code := MessageCode(line);
    var reaction := Reaction(s, code, line, Last(msg));
    Effect(reaction.after, [DebugMessage(DebugText(code, line))] + reaction.events)
  }

  /** Every line of the sequence can be dispatched in the session the lines
      before it leave behind, up to the first that ends the process. */
  predicate Runnable(s: Session, lines: seq<string>)
    decreases |lines|, 1
  {
    lines == [] || s.terminated || CanStep(s, lines)
  }

  /** The first line can be dispatched and the rest can run after it. Kept
      apart from `Runnable` so that the definition unfolds one line at a
      time. */
  predicate CanStep(s: Session, lines: seq<string>)
    requires lines != []
    decreases |lines|, 0
  {
    Dispatchable(lines[0]) && Runnable(Dispatch(s, lines[0]).after, lines[1..])
  }

  /** The lines dispatched one after another; nothing runs once the process
      has exited. */
  function Run(s: Session, lines: seq<string>): (e: Effect)
    requires Runnable(s, lines)
    ensures !e.after.terminated ==> |e.events| >= |lines|
    decreases |lines|, 1
  {
    if lines == [] || s.terminated then Effect(s, []) else Step(s, lines)
  }

  /** A run that dispatches its first line, then runs the rest. */
  function Step(s: Session, lines: seq<string>): Effect
    requires lines != [] && CanStep(s, lines)
    decreases |lines|, 0
  {
    var first := Dispatch(s, lines[0]);
    var rest := Run(first.after, lines[1..]);
    Effect(rest.after, first.events + rest.events)
  }

  // ------------------------------------------------------------ every line

  /** Dispatch is the debug line followed by the reaction to the code. */
  lemma DispatchSplit(s: Session, msg: string)
    requires Dispatchable(msg)
    ensures var line := Stripped(msg);
      var code := MessageCode(line);
      Reacts(code, line) &&
      Dispatch(s, msg) == Effect(Reaction(s, code, line, Last(msg)).after,
        [DebugMessage(DebugText(code, line))] + Reaction(s, code, line, Last(msg)).events)
  {
  }

  /** A line with a numeric code leaves the session alone and makes the
      debug line and then the calls of the code's branch. */
  lemma NumericDispatch(s: Session, msg: string)
    requires Dispatchable(msg) && MessageCode(Stripped(msg)) != NOCODE
    ensures var line := Stripped(msg);
      var code := MessageCode(line);
      Dispatch(s, msg) == Effect(s, [DebugMessage(DebugText(code, line))] + NumericReaction(code, line, Last(msg)))
  {
  }

  /** Each group of case labels gets the calls of its own branch, whichever
      order the branches are tried in: the groups share no code. */
  lemma NumericReactionByGroup(code: int, line: string, last: char)
    requires code != NOCODE
    ensures var r := NumericReaction(code, line, last);
      (code in ServerReplies ==> r == [ServerMessage(LineTail(line, last))]) &&
      (code in ErrorMessageReplies ==> r == [ErrorMessage(LineTail(line, last))]) &&
      (code in RegisterWarningReplies ==> r == [WarningMessage(RegisterWarning)]) &&
      (code == ERR_NICKNAMEINUSE ==> r == [WarningMessage(NickInUseWarning)]) &&
      (code == ERR_NOSUCHSERVER ==> r == [WarningMessage(LineTail(line, last))]) &&
      (code == RPL_NAMREPLY ==> r == [PopulateUsers(LineTail(line, last))]) &&
      (code == RPL_TOPIC ==> r == [UpdateTopic(LineTail(line, last))]) &&
      (code in IgnoredReplies ==> r == []) &&
      ((forall k :: 0 <= k < |SwitchGroups| ==> code !in SwitchGroups[k]) ==> r == [ChatMessage(line, "server")])
  {
    if code in ServerReplies {
      assert code in {1, 2, 3, 20, 251, 255, 265, 266, 322};
      assert code !in IgnoredReplies;
    }
    if code in ErrorMessageReplies {
      assert code in {403, 404, 432};
      assert code !in IgnoredReplies && code !in ServerReplies;
    }
    if code in RegisterWarningReplies {
      assert code in {401, 442};
      assert code !in IgnoredReplies && code !in ServerReplies && code !in ErrorMessageReplies;
    }
    if code in {ERR_NICKNAMEINUSE, ERR_NOSUCHSERVER, RPL_NAMREPLY, RPL_TOPIC} {
      assert code in {433, 402, 353, 332};
      assert code !in IgnoredReplies && code !in ServerReplies;
      assert code !in ErrorMessageReplies && code !in RegisterWarningReplies;
    }
    if forall k :: 0 <= k < |SwitchGroups| ==> code !in SwitchGroups[k] {
      assert code !in SwitchGroups[0] && code !in SwitchGroups[1] && code !in SwitchGroups[2];
      assert code !in SwitchGroups[3] && code !in SwitchGroups[4] && code !in SwitchGroups[5];
      assert code !in SwitchGroups[6] && code !in SwitchGroups[8];
    }
  }

  /** A line with code NOCODE makes the debug line and then the calls of
      its verb's branch. */
  lemma CommandDispatch(s: Session, msg: string)
    requires Dispatchable(msg) && MessageCode(Stripped(msg)) == NOCODE
    ensures var line := Stripped(msg);
      var reaction := CommandReaction(s, MessageType(line), line, Last(msg));
      Dispatch(s, msg) == Effect(reaction.after, [DebugMessage(DebugText(NOCODE, line))] + reaction.events)
  {
  }

  /** A command line can be dispatched once its verb's branch finds the
      sender it reads. */
  lemma CommandDispatchable(msg: string)
    requires |msg| >= 2 && ' ' in Stripped(msg)
    requires CommandDefined(MessageType(Stripped(msg)), Stripped(msg))
    ensures Dispatchable(msg)
  {
  }

  /** Only three things change the session: a NICK sent by the session's own
      nick changes the nick, a JOIN or PART sent by it changes the channel,
      and an ERROR line ends the process. Numeric replies change nothing. */
  lemma SessionChangesOnlyOnSelfEvents(s: Session, msg: string)
    requires Dispatchable(msg)
    ensures var line := Stripped(msg);
      var after := Dispatch(s, msg).after;
      (MessageCode(line) != NOCODE ==> after == s) &&
      (after.nick != s.nick ==>
        MessageType(line) == Nick && MessageSender(line) == s.nick) &&
      (after.channel != s.channel ==>
        MessageType(line) in {Join, Part} && MessageSender(line) == s.nick) &&
      (after.terminated != s.terminated ==> MessageType(line) == Error)
  {
    var line := Stripped(msg);
    if MessageCode(line) == NOCODE {
      CommandReactionFrame(s, MessageType(line), line, Last(msg));
    }
  }

  /** The verb branches that change the session, and the sender each needs. */
  lemma CommandReactionFrame(s: Session, v: Verb, line: string, last: char)
    requires CommandDefined(v, line)
    ensures var after := CommandReaction(s, v, line, last).after;
      (after.nick != s.nick ==> v == Nick && MessageSender(line) == s.nick) &&
      (after.channel != s.channel ==> v in {Join, Part} && MessageSender(line) == s.nick) &&
      (after.terminated != s.terminated ==> v == Error)
  {
    match v
    case Nick =>
    case Join =>
    case Part =>
    case Topic =>
    case Privmsg =>
    case Ping =>
    case Quit =>
    case Error =>
    case Unrecognized =>
  }

  /** Once the process has exited, no line is dispatched and nothing changes. */
  lemma ExitedRunsNothing(s: Session, lines: seq<string>)
    requires s.terminated
    ensures Runnable(s, lines) && Run(s, lines) == Effect(s, [])
  {
  }

  /** After a line that ends the process, the rest of the lines make no
      display call and change nothing. */
  lemma ErrorIsTerminal(s: Session, msg: string, rest: seq<string>)
    requires !s.terminated && Dispatchable(msg) && Dispatch(s, msg).after.terminated
    ensures Runnable(s, [msg] + rest)
    ensures Run(s, [msg] + rest) == Dispatch(s, msg)
  {
    var first := Dispatch(s, msg);
    ExitedRunsNothing(first.after, rest);
    RunCons(s, msg, rest);
    assert first.events + [] == first.events;
  }

  /** One step of a run, unfolded. */
  lemma RunCons(s: Session, msg: string, rest: seq<string>)
    requires !s.terminated
    ensures Runnable(s, [msg] + rest) <==>
      Dispatchable(msg) && Runnable(Dispatch(s, msg).after, rest)
    ensures Runnable(s, [msg] + rest) ==>
      var first := Dispatch(s, msg);
      Run(s, [msg] + rest) == Effect(Run(first.after, rest).after, first.events + Run(first.after, rest).events)
  {
    assert ([msg] + rest)[0] == msg && ([msg] + rest)[1..] == rest;
  }
}
