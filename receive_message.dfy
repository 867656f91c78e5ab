/** The receiver's client record and its two entry points: `parse_messages`
    cuts a received chunk into lines and `interpret_messages` acts on one
    line, updating the record in place and calling into the display. Each
    method is proved to do exactly what the corresponding function of the
    dispatcher says. */
module ReceiveMessage {
  import opened ErrorReplies
  import opened NumericReplies
  import opened MessageFields
  import opened Framing
  import opened Dispatcher

  /** The fields of `client_info_t` the receiver uses. The display calls
      made so far are recorded in `log`, and `terminated` records that the
      process has exited. */
  class ClientInfo {
    var nick: string
    var channel: string
    var terminated: bool
    var log: seq<Event>

    /** The fields as a session value. */
    function State(): Session
      reads this
    {
      Session(nick, channel, terminated)
    }

    /** The record as `main` sets it up: the login name as nick and no
        channel. */
    constructor(login: string)
      ensures nick == login && channel == NoChannel && !terminated && log == []
    {
      nick := login;
      channel := NoChannel;
      terminated := false;
      log := [];
    }

    /** `interpret_messages`: cut off CR LF, log the debug line, then take
        the branch of the numeric code, or of the verb for code NOCODE. */
    method InterpretMessages(msg: string)
      requires !terminated && Dispatchable(msg)
      modifies this
      ensures State() == Dispatch(old(State()), msg).after
      ensures log == old(log) + Dispatch(old(State()), msg).events
    {
      ghost var s := State();
      var line := Stripped(msg);
      var code := MessageCode(line);
      var debug := DebugMessage(DebugText(code, line));
      DispatchSplit(s, msg);
      log := log + [debug];
      React(s, code, line, Last(msg));
      AppendAssociates(old(log), [debug], Reaction(s, code, line, Last(msg)).events);
    }

    /** The switch on the code: the numeric branches, or the switch on the
        verb for code NOCODE. */
    method React(ghost s: Session, code: int, line: string, last: char)
      requires s == State() && !terminated && Reacts(code, line)
      modifies this
      ensures State() == Reaction(s, code, line, last).after
      ensures log == old(log) + Reaction(s, code, line, last).events
    {
      if code == NOCODE {
        var verb := MessageType(line);
        InterpretCommand(verb, line, last);
      } else {
        InterpretNumeric(code, line, last);
      }
    }

    /** The numeric branches of the switch; none of them changes the record. */
    method InterpretNumeric(code: int, line: string, last: char)
      requires code != NOCODE
      modifies this
      ensures State() == old(State())
      ensures log == old(log) + NumericReaction(code, line, last)
    {
      var shown: seq<Event>;
      if code in IgnoredReplies {
        shown := [];
      } else if code in ServerReplies {
        shown := [ServerMessage(LineTail(line, last))];
      } else if code in ErrorMessageReplies {
        shown := [ErrorMessage(LineTail(line, last))];
      } else if code in RegisterWarningReplies {
        shown := [WarningMessage(RegisterWarning)];
      } else if code == ERR_NICKNAMEINUSE {
        shown := [WarningMessage(NickInUseWarning)];
      } else if code == ERR_NOSUCHSERVER {
        shown := [WarningMessage(LineTail(line, last))];
      } else if code == RPL_NAMREPLY {
        shown := [PopulateUsers(LineTail(line, last))];
      } else if code == RPL_TOPIC {
        shown := [UpdateTopic(LineTail(line, last))];
      } else {
        shown := [ChatMessage(line, "server")];
      }
      log := log + shown;
    }

    /** The branch for code NOCODE: a switch on the verb `get_message_type`
        found in the line. */
    method InterpretCommand(verb: Verb, line: string, last: char)
      requires !terminated && CommandDefined(verb, line)
      modifies this
      ensures State() == CommandReaction(old(State()), verb, line, last).after
      ensures log == old(log) + CommandReaction(old(State()), verb, line, last).events
    {
      var shown: seq<Event> := [];
      match verb {
        case Nick =>
          var sender := MessageSender(line);
          var newNick := LineTail(line, last);
          shown := [NickChangeMessage(sender, newNick)];
          if nick == sender {
            nick := newNick;
          }
        case Join =>
          var sender := MessageSender(line);
          if sender == nick {
            var joined := LineTail(line, last);
            shown := [UpdateChannel(joined)];
            channel := joined;
          } else {
            shown := [EnterMessage(sender)];
          }
        case Part =>
          var sender := MessageSender(line);
          var leave := LeaveMessage(sender, LineTail(line, last));
          if sender == nick {
            shown := [PopulateUsers(""), UpdateChannel("None"), UpdateTopic("No Current Topic")];
            channel := NoChannel;
          }
          shown := shown + [leave];
        case Topic =>
          var message := AddHeader(channel, TopicChanged);
          var formatted := AddHeader(message, LineTail(line, last));
          shown := [ServerMessage(formatted), UpdateTopic(LineTail(line, last))];
        case Privmsg =>
          var sender := MessageSender(line);
          shown := [ChatMessage(LineTail(line, last), sender)];
        case Ping =>
          shown := [WarningMessage(IdleWarning)];
        case Quit =>
          var sender := MessageSender(line);
          shown := [LeaveMessage(sender, LineTail(line, last))];
        case Error =>
          shown := [ErrorMessage(TimeoutError), CloseDisplay];
          terminated := true;
        case Unrecognized =>
      }
      log := log + shown;
    }

    /** The lines of `buffer` from `j` on are still to be dispatched, and
        dispatching them completes the run `goal` begun with the log
        `logged`. */
    ghost predicate Pending(buffer: string, j: nat, goal: Effect, logged: seq<Event>)
      reads this
      requires j <= |buffer|
    {
      Runnable(State(), Lines(buffer[j..])) &&
      goal.after == Run(State(), Lines(buffer[j..])).after &&
      logged + goal.events == log + Run(State(), Lines(buffer[j..])).events
    }

    /** One framed line, the characters from `j` up to the '\n' at `i`,
        handed to `interpret_messages`. */
    method Deliver(buffer: string, j: nat, i: nat, ghost goal: Effect, ghost logged: seq<Event>)
      requires j <= i < |buffer| && Find(buffer, '\n', j) == i
      requires !terminated && Pending(buffer, j, goal, logged)
      modifies this
      ensures Pending(buffer, i + 1, goal, logged)
    {
      ghost var s, before, rest := State(), log, Lines(buffer[i + 1..]);
      var msg := buffer[j..i + 1];
      NextLine(buffer, j, i);
      RunCons(s, msg, rest);
      InterpretMessages(msg);
      AppendAssociates(before, Dispatch(s, msg).events, Run(State(), rest).events);
    }

    /** One turn of the scan: the character at `i` either ends the pending
        line, which is then delivered, or extends it. Returns where the next
        line starts. */
    method Advance(buffer: string, j: nat, i: nat, ghost goal: Effect, ghost logged: seq<Event>)
      returns (next: nat)
      requires j <= i < |buffer| && Find(buffer, '\n', j) == Find(buffer, '\n', i)
      requires !terminated && Pending(buffer, j, goal, logged)
      modifies this
      ensures j <= next <= i + 1 && Find(buffer, '\n', next) == Find(buffer, '\n', i + 1)
      ensures Pending(buffer, next, goal, logged)
    {
      if buffer[i] == '\n' {
        Deliver(buffer, j, i, goal, logged);
        next := i + 1;
      } else {
        next := j;
      }
    }

    /** Before the scan, every line of the chunk is pending. */
    lemma Started(buffer: string, goal: Effect)
      requires Runnable(State(), Lines(buffer)) && goal == Run(State(), Lines(buffer))
      ensures Pending(buffer, 0, goal, log)
    {
      assert buffer[0..] == buffer;
    }

    /** Once no line is left, or a line has ended the process, the run is
        complete. */
    lemma Finished(buffer: string, j: nat, goal: Effect, logged: seq<Event>)
      requires j <= |buffer| && Pending(buffer, j, goal, logged)
      requires terminated || Lines(buffer[j..]) == []
      ensures State() == goal.after && log == logged + goal.events
    {
      if terminated {
        ExitedRunsNothing(State(), Lines(buffer[j..]));
      }
      assert log + [] == log;
    }

    /** `parse_messages`: scan the chunk, and at each '\n' dispatch the
        characters since the previous one, the '\n' included. The scan
        stops when a line ends the process. */
    method ParseMessages(buffer: string)
      requires !terminated && Runnable(State(), Lines(buffer))
      modifies this
      ensures State() == Run(old(State()), Lines(buffer)).after
      ensures log == old(log) + Run(old(State()), Lines(buffer)).events
    {
      ghost var goal := Run(State(), Lines(buffer));
      Started(buffer, goal);
      var i, j := 0, 0;
      while i < |buffer| && !terminated
        invariant 0 <= j <= i <= |buffer|
        invariant Find(buffer, '\n', j) == Find(buffer, '\n', i)
        invariant Pending(buffer, j, goal, old(log))
      {
        j := Advance(buffer, j, i, goal, old(log));
        i := i + 1;
      }
      if !terminated {
        NoNextLine(buffer, j);
      }
      Finished(buffer, j, goal, old(log));
    }
  }
}
