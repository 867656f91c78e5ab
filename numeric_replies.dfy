/** The numeric reply codes the dispatcher's switch routes on, grouped by
    the branch that handles them.

    The header that defines `CODE`, `NOCODE` and the `RPL_*` names is not
    part of this model. `NOCODE` is 0 (what `atoi` gives for a command verb)
    and `CODE` is 3 (a numeric reply has three digits). The values 001-004,
    251, 254, 255, 322, 323, 332, 353 and 366 are the replies of those names
    in section 5.1 of RFC 2812. The others follow common server usage rather
    than that RFC: 005 (RPL_BOUNCE in the RFC) as the support list, 020,
    042, 265 and 266, and 252 and 253 (RPL_LUSEROP and RPL_LUSERUNKNOWN in
    the RFC) under the names the switch gives them, `USERID` and
    `UNKNOWNCONNECTIONS`. The dispatcher's properties use these values: the
    groups below must be pairwise disjoint (as a C compiler demands of the
    labels of one switch), NOCODE must be outside every group, and the code
    window is CODE characters wide. */
module NumericReplies {
  import opened ErrorReplies

  /** Width of the code window read after the first space. */
  const CODE := 3
  /** What a line whose second token is a word yields as its code. */
  const NOCODE := 0

  const RPL_WELCOME := 1
  const RPL_YOURHOST := 2
  const RPL_CREATED := 3
  const RPL_MYINFO := 4
  const RPL_SUPPORT := 5
  const RPL_CONNECTIONPROCESS := 20
  const RPL_ID := 42
  const RPL_LUSERCLIENT := 251
  const USERID := 252
  const UNKNOWNCONNECTIONS := 253
  const RPL_LUSERCHANNELS := 254
  const RPL_LUSERME := 255
  const RPL_LUSER := 265
  const RPL_GUSER := 266
  const RPL_LIST := 322
  const RPL_LISTEND := 323
  const RPL_TOPIC := 332
  const RPL_NAMREPLY := 353
  const RPL_ENDOFNAMES := 366

  /** Replies shown in the server style with their trailing parameter. */
  const ServerReplies: set<int> := {
    RPL_CONNECTIONPROCESS, RPL_WELCOME, RPL_YOURHOST, RPL_CREATED, RPL_LUSERCLIENT,
    RPL_LUSERME, RPL_LUSER, RPL_GUSER, RPL_LIST
  }

  /** Error replies shown as an error with their trailing parameter. */
  const ErrorMessageReplies: set<int> := {ERR_NOSUCHCHANNEL, ERR_CANNOTSENDTOCHAN, ERR_ERRONEUSNICKNAME}

  /** Error replies answered by the fixed "register in a channel" warning. */
  const RegisterWarningReplies: set<int> := {ERR_NOTONCHANNEL, ERR_NOSUCHNICK}

  /** Replies the dispatcher recognises and then does nothing with. */
  const IgnoredReplies: set<int> := {
    RPL_MYINFO, RPL_SUPPORT, RPL_ID, RPL_LUSERCHANNELS, ERR_NOMOTD, RPL_ENDOFNAMES,
    RPL_LISTEND, UNKNOWNCONNECTIONS, USERID
  }

  /** Every case label of the switch, by branch. */
  const SwitchGroups: seq<set<int>> := [
    ServerReplies, ErrorMessageReplies, RegisterWarningReplies, {ERR_NICKNAMEINUSE},
    {ERR_NOSUCHSERVER}, {RPL_NAMREPLY}, {RPL_TOPIC}, {NOCODE}, IgnoredReplies
  ]

  /** No code belongs to two branches of the switch, so the branches may be
      tried in any order. */
  lemma SwitchGroupsDisjoint()
    ensures forall i, j :: 0 <= i < j < |SwitchGroups| ==> SwitchGroups[i] !! SwitchGroups[j]
  {
  }
}
