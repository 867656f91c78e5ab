/** The numeric error replies the client knows by name (section 5.2 of
    RFC 2812), in the order the header declares them. */
module ErrorReplies {

  const ERR_NOSUCHNICK       := 401
  const ERR_NOSUCHSERVER     := 402
  const ERR_NOSUCHCHANNEL    := 403
  const ERR_CANNOTSENDTOCHAN := 404
  const ERR_TOOMANYCHANNELS  := 405
  const ERR_TOOMANYTARGETS   := 407
  const ERR_NORECIPIENT      := 411
  const ERR_NOTEXTTOSEND     := 412
  const ERR_UNKNOWNCOMMAND   := 421
  const ERR_NOMOTD           := 422
  const ERR_NONICKNAMEGIVEN  := 431
  const ERR_ERRONEUSNICKNAME := 432
  const ERR_NICKNAMEINUSE    := 433
  const ERR_NICKCOLLISION    := 436
  const ERR_UNAVAILRESOURCE  := 437
  const ERR_USERNOTINCHANNEL := 441
  const ERR_NOTONCHANNEL     := 442
  const ERR_USERONCHANNEL    := 443
  const ERR_NOLOGIN          := 444
  const ERR_USERSDISABLED    := 446
  const ERR_NOTREGISTERED    := 451
  const ERR_NEEDMOREPARAMS   := 461
  const ERR_ALREADYREGISTRED := 462
  const ERR_NOPERMFORHOST    := 463
  const ERR_PASSWDMISMATCH   := 464
  const ERR_KEYSET           := 467
  const ERR_CHANNELISFULL    := 471
  const ERR_UNKNOWNMODE      := 472
  const ERR_INVITEONLYCHAN   := 473
  const ERR_BANNEDFROMCHAN   := 474
  const ERR_BADCHANNELKEY    := 475
  const ERR_NOCHANMODES      := 477
  const ERR_BANLISTFULL      := 478
  const ERR_NOPRIVILEGES     := 481
  const ERR_CHANOPRIVSNEEDED := 482
  const ERR_RESTRICTED       := 484

  /** Every error reply constant, in declaration order. */
  const ErrorReplyTable: seq<int> := [
    ERR_NOSUCHNICK,
    ERR_NOSUCHSERVER,
    ERR_NOSUCHCHANNEL,
    ERR_CANNOTSENDTOCHAN,
    ERR_TOOMANYCHANNELS,
    ERR_TOOMANYTARGETS,
    ERR_NORECIPIENT,
    ERR_NOTEXTTOSEND,
    ERR_UNKNOWNCOMMAND,
    ERR_NOMOTD,
    ERR_NONICKNAMEGIVEN,
    ERR_ERRONEUSNICKNAME,
    ERR_NICKNAMEINUSE,
    ERR_NICKCOLLISION,
    ERR_UNAVAILRESOURCE,
    ERR_USERNOTINCHANNEL,
    ERR_NOTONCHANNEL,
    ERR_USERONCHANNEL,
    ERR_NOLOGIN,
    ERR_USERSDISABLED,
    ERR_NOTREGISTERED,
    ERR_NEEDMOREPARAMS,
    ERR_ALREADYREGISTRED,
    ERR_NOPERMFORHOST,
    ERR_PASSWDMISMATCH,
    ERR_KEYSET,
    ERR_CHANNELISFULL,
    ERR_UNKNOWNMODE,
    ERR_INVITEONLYCHAN,
    ERR_BANNEDFROMCHAN,
    ERR_BADCHANNELKEY,
    ERR_NOCHANMODES,
    ERR_BANLISTFULL,
    ERR_NOPRIVILEGES,
    ERR_CHANOPRIVSNEEDED,
    ERR_RESTRICTED
  ]

  /** Each entry is larger than the one before it. */
  predicate Ascending(s: seq<int>) {
    forall i :: 0 < i < |s| ==> s[i - 1] < s[i]
  }

  /** A sequence that grows step by step grows between any two positions. */
  lemma {:induction false} AscendingIsStrict(s: seq<int>)
    requires Ascending(s)
    ensures forall i, j :: 0 <= i < j < |s| ==> s[i] < s[j]
    decreases |s|
  {
    if |s| > 1 {
      var t := s[..|s| - 1];
      assert Ascending(t);
      AscendingIsStrict(t);
      forall i | 0 <= i < |s| - 1
        ensures s[i] < s[|s| - 1]
      {
        if i < |s| - 2 {
          assert t[i] < t[|s| - 2];
        }
      }
    }
  }

  /** The 36 error constants are pairwise distinct, so each names one reply. */
  lemma ErrorRepliesDistinct()
    ensures |ErrorReplyTable| == 36
    ensures forall i, j :: 0 <= i < j < |ErrorReplyTable| ==> ErrorReplyTable[i] != ErrorReplyTable[j]
  {
    AscendingIsStrict(ErrorReplyTable);
  }

  /** Every error constant lies in the 4xx range 401..484. */
  lemma ErrorRepliesInRange()
    ensures forall i :: 0 <= i < |ErrorReplyTable| ==> 401 <= ErrorReplyTable[i] <= 484
  {
    AscendingIsStrict(ErrorReplyTable);
    assert ErrorReplyTable[0] == 401 && ErrorReplyTable[35] == 484;
  }
}
