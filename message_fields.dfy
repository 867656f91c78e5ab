/** The field extractors of the receiver: each one scans a single received
    line (its CR LF already cut off) for a delimiter and returns a piece of
    it. Every scan in the C stops at the end of the string or at the
    delimiter; where the C would then read past the end, the function below
    requires the delimiter to be present instead. */
module MessageFields {
  import opened CStrings
  import opened NumericReplies

  /** Index of the first `c` in `s` at or after `from`, or `|s|` when there
      is none: the shape of every `for (...; i < strlen(msg) && msg[i] != c; i++)`
      loop of the receiver. */
  function Find(s: string, c: char, from: nat): (i: nat)
    requires from <= |s|
    ensures from <= i <= |s|
    ensures i < |s| ==> s[i] == c
    ensures forall k :: from <= k < i ==> s[k] != c
    decreases |s| - from
  {
    if from == |s| || s[from] == c then from else Find(s, c, from + 1)
  }

  /** Any index meeting the description of `Find` is the one it returns. */
  lemma {:induction false} FindIs(s: string, c: char, from: nat, i: nat)
    requires from <= i <= |s|
    requires i < |s| ==> s[i] == c
    requires forall k :: from <= k < i ==> s[k] != c
    ensures Find(s, c, from) == i
    decreases i - from
  {
    if from < i {
      FindIs(s, c, from + 1, i);
    }
  }

  /** `p` is the position of the first `c` in `s`. */
  predicate IsFirst(s: string, c: char, p: int) {
    0 <= p < |s| && s[p] == c && c !in s[..p]
  }

  /** `Find` from the start returns the first position, and only it is. */
  lemma FindIsFirst(s: string, c: char)
    requires c in s
    ensures IsFirst(s, c, Find(s, c, 0))
    ensures forall p {:trigger IsFirst(s, c, p)} :: IsFirst(s, c, p) ==> p == Find(s, c, 0)
  {
    var i := Find(s, c, 0);
    assert i < |s|;
    forall p | IsFirst(s, c, p)
      ensures p == i
    {
      forall k | 0 <= k < p
        ensures s[k] != c
      {
        assert s[..p][k] == s[k];
      }
      FindIs(s, c, 0, p);
    }
  }

  predicate StartsWith(s: string, prefix: string) {
    |prefix| <= |s| && s[..|prefix|] == prefix
  }

  function Min(a: int, b: int): int {
    if a <= b then a else b
  }

  // ---------------------------------------------------------------- code

  /** `get_message_code`: `atoi` of the CODE characters that follow the first
      space (fewer when the line ends sooner, since `atoi` stops at the NUL).
      A line without a space would make the C copy from beyond its end. */
  function MessageCode(line: string): (code: int)
    requires ' ' in line
    ensures -99 <= code <= 999
    ensures forall p {:trigger IsFirst(line, ' ', p)} :: IsFirst(line, ' ', p) ==>
      code == Atoi(line[p + 1..Min(p + 1 + CODE, |line|)])
  {
    FindIsFirst(line, ' ');
    var i := Find(line, ' ', 0);
    var window := line[i + 1..Min(i + 1 + CODE, |line|)];
    AtoiWindow(window);
    Atoi(window)
  }

  /** The three digits a server writes for a numeric reply, as in "001". */
  function CodeDigits(n: nat): (digits: string)
    requires n <= 999
    ensures |digits| == 3 && forall k :: 0 <= k < 3 ==> IsDigit(digits[k])
  {
    [DigitChar(n / 100), DigitChar(n / 10 % 10), DigitChar(n % 10)]
  }

  lemma CodeDigitsValue(n: nat)
    requires n <= 999
    ensures var d := CodeDigits(n);
      100 * DigitValue(d[0]) + 10 * DigitValue(d[1]) + DigitValue(d[2]) == n
  {
    var h, t, u := n / 100, n / 10 % 10, n % 10;
    assert n == 10 * (n / 10) + u;
    assert n / 10 == 10 * h + t;
  }

  /** Reading the code of a line whose second token starts with a three-digit
      numeric reply gives that reply's number back. */
  lemma NumericCodeRoundTrip(prefix: string, n: nat, rest: string)
    requires ' ' !in prefix && n <= 999
    ensures MessageCode(prefix + " " + CodeDigits(n) + rest) == n
  {
    var digits := CodeDigits(n);
    var line := prefix + " " + digits + rest;
    var p := |prefix|;
    assert line[..p] == prefix;
    FindIs(line, ' ', 0, p);
    assert line[p + 1..p + 4] == digits;
    AtoiOfThreeDigits(digits);
    CodeDigitsValue(n);
  }

  /** A line whose second token begins with something other than white
      space, a sign or a digit (a command verb such as "NICK", or a ':')
      has code NOCODE. */
  lemma CommandLineHasNoCode(line: string, p: nat)
    requires IsFirst(line, ' ', p) && p + 1 < |line|
    requires !IsSpace(line[p + 1]) && !IsDigit(line[p + 1]) && line[p + 1] != '-' && line[p + 1] != '+'
    ensures MessageCode(line) == NOCODE
  {
    var window := line[p + 1..Min(p + 1 + CODE, |line|)];
    AtoiWindow(window);
  }

  // ---------------------------------------------------------------- tail

  /** The scan of `get_tail_message` finds a ':' after the first character. */
  predicate HasTail(line: string) {
    |line| > 0 && ':' in line[1..]
  }

  /** `get_tail_message`: everything after the first ':' that is not the
      line's first character, so the colon that opens a prefix is skipped. */
  function TailMessage(line: string): (tail: string)
    requires HasTail(line)
    ensures |tail| <= |line| - 2
    ensures line[|line| - |tail| - 1] == ':'
    ensures ':' !in line[1..|line| - |tail| - 1]
    ensures tail == line[|line| - |tail|..]
  {
    var i := Find(line, ':', 1);
    assert i < |line| by {
      var k :| 1 <= k < |line| && line[k] == ':';
    }
    line[i + 1..]
  }

  /** The trailing parameter comes back out of a line made of a head with no
      ':' after its first character, a ':' and the parameter. */
  lemma TailRoundTrip(head: string, body: string)
    requires |head| >= 1 && ':' !in head[1..]
    ensures HasTail(head + ":" + body) && TailMessage(head + ":" + body) == body
  {
    var line := head + ":" + body;
    assert line[1..][|head| - 1] == ':';
  }

  // ---------------------------------------------------------------- sender

  /** The scan of `get_message_sender` would copy a negative length if the
      line began with '!'. */
  predicate HasSender(line: string) {
    |line| > 0 && line[0] != '!'
  }

  /** `get_message_sender`: the characters after the first one, up to the
      first '!' or the end of the line; for ":nick!user@host ..." the nick. */
  function MessageSender(line: string): (sender: string)
    requires HasSender(line)
    ensures |sender| < |line| && sender == line[1..|sender| + 1]
    ensures '!' !in sender
    ensures |sender| + 1 < |line| ==> line[|sender| + 1] == '!'
  {
    var i := Find(line, '!', 0);
    line[1..i]
  }

  /** The nick of a ":nick!user@host" prefix is recovered exactly. */
  lemma SenderRoundTrip(nick: string, rest: string)
    requires '!' !in nick
    ensures MessageSender(":" + nick + "!" + rest) == nick
  {
    var line := ":" + nick + "!" + rest;
    var i := |nick| + 1;
    assert line[1..i] == nick;
    FindIs(line, '!', 0, i);
  }

  // ---------------------------------------------------------------- concatenation

  /** `add_header`: the header followed by the tail. */
  function AddHeader(header: string, tail: string): (message: string)
    ensures |message| == |header| + |tail|
    ensures message[..|header|] == header && message[|header|..] == tail
  {
    header + tail
  }

  // ---------------------------------------------------------------- command verb

  /** The values `get_message_type` returns; `Unrecognized` is its -1. */
  datatype Verb = Nick | Join | Part | Topic | Privmsg | Quit | Ping | Error | Unrecognized

  /** The word each verb is spelled with on the wire. */
  function Name(v: Verb): string {
    match v
    case Nick => "NICK"
    case Join => "JOIN"
    case Part => "PART"
    case Topic => "TOPIC"
    case Privmsg => "PRIVMSG"
    case Quit => "QUIT"
    case Ping => "PING"
    case Error => "ERROR"
    case Unrecognized => ""
  }

  /** The verbs recognised by their second token rather than by a prefix. */
  const WordVerbs: set<Verb> := {Nick, Join, Part, Topic, Privmsg, Quit}

  /** The token between the first and the second space (the whole line when
      it has no space, the rest of the line when it has only one). */
  function CommandToken(line: string): (token: string)
    ensures ' ' !in token
    ensures ' ' !in line ==> token == line
    ensures forall p {:trigger IsFirst(line, ' ', p)} :: IsFirst(line, ' ', p) ==>
      p + 1 + |token| <= |line| && token == line[p + 1..p + 1 + |token|] &&
      (p + 1 + |token| == |line| || line[p + 1 + |token|] == ' ')
  {
    var a := Find(line, ' ', 0);
    if a == |line| then
      line
    else
      var b := Find(line, ' ', a + 1);
      line[a + 1..b]
  }

  /** The exact, case-sensitive comparison of the token with each verb word. */
  function VerbOfToken(token: string): (v: Verb)
    ensures v in WordVerbs || v == Unrecognized
    ensures v != Unrecognized ==> Name(v) == token
  {
    if token == "NICK" then Nick
    else if token == "JOIN" then Join
    else if token == "PART" then Part
    else if token == "TOPIC" then Topic
    else if token == "PRIVMSG" then Privmsg
    else if token == "QUIT" then Quit
    else Unrecognized
  }

  /** `get_message_type`: a line starting with "PING" is a ping whatever
      follows; failing that, one starting with "ERROR" is an error; otherwise
      the second token names the verb. */
  function MessageType(line: string): (v: Verb)
    ensures StartsWith(line, "PING") ==> v == Ping
    ensures !StartsWith(line, "PING") && StartsWith(line, "ERROR") ==> v == Error
    ensures !StartsWith(line, "PING") && !StartsWith(line, "ERROR") ==> v in WordVerbs || v == Unrecognized
  {
    if StartsWith(line, "PING") then Ping
    else if StartsWith(line, "ERROR") then Error
    else VerbOfToken(CommandToken(line))
  }

  /** A word verb is reported exactly when the second token spells it. */
  lemma MessageTypeExact(line: string, v: Verb)
    requires v in WordVerbs
    requires !StartsWith(line, "PING") && !StartsWith(line, "ERROR")
    ensures MessageType(line) == v <==> CommandToken(line) == Name(v)
  {
    VerbOfName(v);
  }

  /** The spelling of a word verb: upper-case letters, no space, no ':'. */
  lemma NameShape(v: Verb)
    requires v in WordVerbs
    ensures |Name(v)| >= 4 && ' ' !in Name(v) && ':' !in Name(v)
    ensures 'A' <= Name(v)[0] <= 'Z'
  {
  }

  /** Each word verb is recognised from its own name. */
  lemma VerbOfName(v: Verb)
    requires v in WordVerbs
    ensures VerbOfToken(Name(v)) == v
  {
    match v
    case Nick =>
    case Join =>
    case Part =>
    case Topic =>
    case Privmsg =>
    case Quit =>
  }

  /** A line "<prefix> <VERB>[ <rest>]" whose prefix does not begin with
      "PING" or "ERROR" is classified as that verb. */
  lemma MessageTypeRoundTrip(prefix: string, v: Verb, rest: string)
    requires v in WordVerbs && ' ' !in prefix
    requires !StartsWith(prefix, "PING") && !StartsWith(prefix, "ERROR")
    requires rest == [] || rest[0] == ' '
    ensures MessageType(prefix + " " + Name(v) + rest) == v
  {
    NameShape(v);
    MessageTypeOfWord(prefix, Name(v), rest);
    VerbOfName(v);
  }

  /** The type of "<prefix> <word>[ <rest>]" is decided by the word alone. */
  lemma MessageTypeOfWord(prefix: string, word: string, rest: string)
    requires ' ' !in prefix && ' ' !in word
    requires !StartsWith(prefix, "PING") && !StartsWith(prefix, "ERROR")
    requires rest == [] || rest[0] == ' '
    ensures MessageType(prefix + " " + word + rest) == VerbOfToken(word)
  {
    var line := prefix + " " + word + rest;
    assert line[..|prefix|] == prefix && line[|prefix|] == ' ';
    TokenAfterPrefix(prefix, word, rest);
    NotPrefixedAfterSpace(prefix, line, "PING");
    NotPrefixedAfterSpace(prefix, line, "ERROR");
  }

  /** The second token of "<prefix> <word>[ <rest>]" is the word. */
  lemma TokenAfterPrefix(prefix: string, word: string, rest: string)
    requires ' ' !in prefix && ' ' !in word
    requires rest == [] || rest[0] == ' '
    ensures CommandToken(prefix + " " + word + rest) == word
  {
    var line := prefix + " " + word + rest;
    var p := |prefix|;
    assert line[..p] == prefix;
    assert IsFirst(line, ' ', p);
    FindIs(line, ' ', 0, p);
    assert line[p + 1..p + 1 + |word|] == word;
    FindIs(line, ' ', p + 1, p + 1 + |word|);
  }

  /** A line that opens with a space-free prefix and a space starts with a
      space-free word only if the prefix does. */
  lemma NotPrefixedAfterSpace(prefix: string, line: string, word: string)
    requires ' ' !in prefix && ' ' !in word
    requires |prefix| < |line| && line[..|prefix|] == prefix && line[|prefix|] == ' '
    requires !StartsWith(prefix, word)
    ensures !StartsWith(line, word)
  {
    if |word| > |prefix| {
      if |word| <= |line| {
        assert line[..|word|][|prefix|] == ' ';
      }
    } else {
      assert line[..|word|] == prefix[..|word|];
    }
  }

  /** Concatenation regrouped, for proofs that would otherwise have to find
      the grouping themselves. */
  lemma AppendAssociates<T>(a: seq<T>, b: seq<T>, c: seq<T>)
    ensures a + b + c == a + (b + c)
  {
  }
}
