/**
 * The `/karma` slash-command processor: it splits the command text into
 * words, dispatches on the keyword (trying the user-first and the
 * signed-number aliases before falling back to help), validates the
 * arguments, checks the per-action and per-day limits, and issues at most two
 * writes to the store.
 *
 * Each handler is specified by a function of the store's state before the
 * call; the methods of `SlackProcessor` are proved to compute exactly that.
 */
module Karma {
  import opened Results
  import opened Text
  import opened Slack
  import opened Shakespeare
  import opened KarmaConfig
  import opened KarmaStore
  import opened KarmaMessages

  /** `Abs`: the magnitude of x (Go's wrap-around at the smallest int is not modelled). */
  function Abs(x: int): (r: int)
    ensures r >= 0 && (r == x || r == -x)
  {
    if x < 0 then -x else x
  }

  // ---------------------------------------------------------------------
  // Arguments

  /** `parseArg(words, idx)`: the word at idx, if there is one. */
  function ParseArg(words: seq<string>, idx: int): (r: Option<string>)
    ensures r.Some? <==> 0 <= idx < |words|
    ensures r.Some? ==> r.value == words[idx]
  {
    if idx >= |words| || idx < 0 then None else Some(words[idx])
  }

  /**
   * `parseArgInt(words, idx, d)`: the number written at idx and true, or the
   * default d and false when the word is missing or is not a decimal.
   */
  function ParseArgInt(words: seq<string>, idx: int, d: int): (r: (int, bool))
    ensures r.1 <==> 0 <= idx < |words| && IsDecimal(words[idx])
    ensures r.1 ==> Atoi(words[idx]) == Some(r.0)
    ensures !r.1 ==> r.0 == d
  {
    match ParseArg(words, idx)
    case None => (d, false)
    case Some(s) =>
      match Atoi(s)
      case None => (d, false)
      case Some(i) => (i, true)
  }

  /** `parseArgUser(words, idx)`: the user id the word at idx resolves to. */
  function ParseArgUser(words: seq<string>, idx: int): (r: Option<string>)
    ensures r.Some? <==> 0 <= idx < |words| && HasCanonical(words[idx])
    ensures r.Some? ==> r == IsSlackUser(words[idx])
  {
    match ParseArg(words, idx)
    case None => None
    case Some(s) => IsSlackUser(s)
  }

  // ---------------------------------------------------------------------
  // Aliases and dispatch

  /**
   * `userCmdAlias`: `@user cmd …` becomes `cmd user …` whenever the first
   * word resolves to a user, whatever the second word is.
   */
  function UserCmdAlias(words: seq<string>): (w: seq<string>)
    ensures |w| == |words|
    ensures |words| >= 2 && IsSlackUser(words[0]).Some? ==>
      w == [words[1], IsSlackUser(words[0]).value] + words[2..]
    ensures !(|words| >= 2 && IsSlackUser(words[0]).Some?) ==> w == words
  {
    if |words| < 2 then words
    else
      match (ParseArgUser(words, 0), ParseArg(words, 1))
      case (Some(target), Some(cmd)) => [cmd, target] + (if |words| > 2 then words[2..] else [])
      case _ => words
  }

  /**
   * `addSubCmdAlias`: `+d @user …` becomes `++ @user d …` and `-d @user …`
   * becomes `-- @user d …` whenever the first word is a non-zero number.
   */
  function AddSubCmdAlias(words: seq<string>): (w: seq<string>)
    ensures |w| >= |words|
    ensures |words| >= 2 && Atoi(words[0]).Some? && Atoi(words[0]).value != 0 ==>
      w == [if Atoi(words[0]).value > 0 then AddWord else SubWord, words[1], Itoa(Abs(Atoi(words[0]).value))]
           + words[2..]
    ensures !(|words| >= 2 && Atoi(words[0]).Some? && Atoi(words[0]).value != 0) ==> w == words
  {
    if |words| < 2 then words
    else
      match Atoi(words[0])
      case None => words
      case Some(delta) =>
        if delta == 0 then words
        else
          var d := Itoa(Abs(delta));
          if delta > 0 then [AddWord, words[1], d] + words[2..]
          else [SubWord, words[1], d] + words[2..]
  }

  /** The amount the shorthand writes reads back as the magnitude of the number. */
  lemma ShorthandAmount(words: seq<string>)
    requires |words| >= 2 && Atoi(words[0]).Some? && Atoi(words[0]).value != 0
    ensures ParseArgInt(AddSubCmdAlias(words), 2, 1) == (Abs(Atoi(words[0]).value), true)
    ensures AddSubCmdAlias(words)[0] in Commands
  {
    AtoiOfItoa(Abs(Atoi(words[0]).value));
  }

  /**
   * The words `processCommand` runs, or None when the request gets the help:
   * the keyword as written, else after the user-first alias, else after the
   * shorthand alias applied to the user-first alias's output.
   */
  function Dispatch(text: string): (r: Option<seq<string>>)
    ensures r.Some? ==> |r.value| > 0 && r.value[0] in Commands
    ensures AllSpace(text) ==> r == None
    ensures !AllSpace(text) && Fields(text)[0] in Commands ==> r == Some(Fields(text))
    ensures !AllSpace(text) && Fields(text)[0] !in Commands && UserCmdAlias(Fields(text))[0] in Commands ==>
      r == Some(UserCmdAlias(Fields(text)))
    ensures !AllSpace(text) && Fields(text)[0] !in Commands && UserCmdAlias(Fields(text))[0] !in Commands ==>
      (AddSubCmdAlias(UserCmdAlias(Fields(text)))[0] in Commands ==>
         r == Some(AddSubCmdAlias(UserCmdAlias(Fields(text)))))
  {
    if |text| == 0 then None
    else
      var words := Fields(text);
      if |words| == 0 then None
      else if words[0] in Commands then Some(words)
      else
        var w2 := UserCmdAlias(words);
        if w2[0] in Commands then Some(w2)
        else
          var w3 := AddSubCmdAlias(w2);
          if w3[0] in Commands then Some(w3) else None
  }

  // ---------------------------------------------------------------------
  // What each handler answers

  /** What a handler answers with (a store error, or a response) and the store afterwards. */
  datatype Outcome = Outcome(reply: Result<Response, StoreOp>, state: StoreState)

  /** The request's surroundings: the day it is handled and the generators' random picks. */
  datatype Env = Env(date: Date, picks: Picks)

  /** The two lines of the `me` text: the total, then the usage and what remains of the daily limit. */
  function MeText(user: string, k: int, usage: int): string {
    StatusLine(user, k) + "\n" + DailyLine(usage, DailyLimit - usage)
  }

  /** The `me` text determines the total and the usage. */
  lemma MeTextInjective(user: string, k: int, u: int, k': int, u': int)
    requires MeText(user, k, u) == MeText(user, k', u')
    ensures k == k' && u == u'
  {
    MeLinesInjective(user, k, u, DailyLimit - u, k', u', DailyLimit - u');
  }

  /** `me`: the caller's karma and daily usage, shown only to the caller. */
  function MeReply(s: StoreState, team: string, user: string, fl: Flavor, env: Env): Result<Response, StoreOp>
    requires Ready(fl, env.picks)
  {
    if GetKarmaOp in s.down then Err(GetKarmaOp)
    else if GetDailyOp in s.down then Err(GetDailyOp)
    else
      var k := KarmaOf(s, team, user);
      var usage := UsageOf(s, team, user, env.date);
      Ok(DirectResponse(MeText(user, k, usage), SalutationText(fl, env.picks, k)))
  }

  /** The opening of the `status` text. */
  function RequestLine(callee: string, target: string): string {
    "<@" + callee + "> has requested karma total for <@" + target + ">. "
  }

  /** `status`: anyone's karma, shown to the channel. */
  function StatusReply(s: StoreState, team: string, callee: string, words: seq<string>, fl: Flavor, env: Env)
    : (r: Result<Response, StoreOp>)
    requires Ready(fl, env.picks)
    ensures |words| < 2 ==> r == Ok(DirectResponse(MsgMissingName, CmdStatus))
    ensures |words| >= 2 && IsSlackUser(words[1]).None? ==> r == Ok(DirectResponse(MsgInvalidUser, CmdStatus))
    ensures |words| >= 2 && IsSlackUser(words[1]).Some? ==>
      var t := IsSlackUser(words[1]).value;
      && (GetKarmaOp in s.down ==> r == Err(GetKarmaOp))
      && (GetKarmaOp !in s.down ==>
            r.Ok? && r.value.responseType == InChannel
            && r.value.text == RequestLine(callee, t) + StatusLine(t, KarmaOf(s, team, t)))
  {
    match ParseArg(words, 1)
    case None => Ok(DirectResponse(MsgMissingName, CmdStatus))
    case Some(name) =>
      match IsSlackUser(name)
      case None => Ok(DirectResponse(MsgInvalidUser, CmdStatus))
      case Some(target) =>
        if GetKarmaOp in s.down then Err(GetKarmaOp)
        else
          var k := KarmaOf(s, team, target);
          Ok(ChannelAttachmentsResponse(RequestLine(callee, target) + StatusLine(target, k),
                                        SalutationText(fl, env.picks, k)))
  }

  /** How many users `top` asks for: the argument clamped to 1..10, 3 when absent, invalid or not positive. */
  function TopCount(words: seq<string>): (n: int)
    ensures 1 <= n <= TopUserMax
    ensures !(|words| > 1 && IsDecimal(words[1])) ==> n == TopUserDefault
    ensures |words| > 1 && IsDecimal(words[1]) && Atoi(words[1]).value <= 0 ==> n == TopUserDefault
    ensures |words| > 1 && IsDecimal(words[1]) && 1 <= Atoi(words[1]).value <= TopUserMax ==>
      n == Atoi(words[1]).value
    ensures |words| > 1 && IsDecimal(words[1]) && Atoi(words[1]).value > TopUserMax ==> n == TopUserMax
  {
    var n := ParseArgInt(words, 1, TopUserDefault).0;
    if n <= 0 then TopUserDefault else if n > TopUserMax then TopUserMax else n
  }

  const MsgNoPositiveKarma: string := "Um.. is it possible that there are no users with positive karma :("

  /** The first two lines of the ranking. */
  function TopHeader(n: int): string {
    Interpolate("The top ", n, " users by karma:\n") + "Rank\tName\tKarma\n"
  }

  /** The line for the user at 1-based rank i. */
  function Row(i: int, u: UserKarma): string {
    Interpolate("", i, Interpolate("\t<@" + u.user + ">\t", u.karma, "\n"))
  }

  /** `head` followed by the lines for the users, ranked from 1. */
  function Rows(head: string, users: seq<UserKarma>): string {
    if users == [] then head else Rows(head, users[..|users| - 1]) + Row(|users|, users[|users| - 1])
  }

  /** The loop of `top`: appends one line per user, ranked from 1. */
  method WriteRows(users: seq<UserKarma>, sb: Builder)
    modifies sb
    ensures sb.buf == Rows(old(sb.buf), users)
  {
    ghost var head := sb.buf;
    assert users[..0] == [];
    var i := 0;
    while i < |users|
      invariant 0 <= i <= |users|
      invariant sb.buf == Rows(head, users[..i])
    {
      assert users[..i + 1][..i] == users[..i];
      sb.WriteString(Row(i + 1, users[i]));
      i := i + 1;
    }
    assert users[..i] == users;
  }

  /** `top`: the best users, shown to the channel with a compliment. */
  function TopReply(s: StoreState, words: seq<string>, fl: Flavor, env: Env): Result<Response, StoreOp>
    requires Ready(fl, env.picks)
  {
    if TopOp in s.down then Err(TopOp)
    else
      var users := FirstRows(s.ranking, TopCount(words));
      if users == [] then Ok(DirectResponse(MsgNoPositiveKarma, ""))
      else Ok(ChannelAttachmentsResponse(Rows(TopHeader(|users|), users),
                                         Formula(fl.compliment, " ", env.picks.compliment)))
  }

  /** Where the validation of a `++` or `--` ends: a refusal, or the target and the amount. */
  datatype Verdict = Reject(response: Response) | Proceed(target: string, delta: int)

  /** The amount of a `++` or `--`: the third word when it is a decimal, else 1. */
  function Amount(words: seq<string>): (d: int)
    ensures |words| > 2 && IsDecimal(words[2]) ==> Some(d) == Atoi(words[2])
    ensures !(|words| > 2 && IsDecimal(words[2])) ==> d == 1
  {
    ParseArgInt(words, 2, 1).0
  }

  /** The validation ladder of `++`: target present, a user, not the caller, amount in 1..SingleLimit. */
  function AddVerdict(callee: string, words: seq<string>): (v: Verdict)
    ensures |words| < 2 ==> v == Reject(DirectResponse(MsgAddMissingTarget, CmdAdd))
    ensures |words| >= 2 && IsSlackUser(words[1]).None? ==> v == Reject(DirectResponse(MsgInvalidUser, CmdAdd))
    ensures |words| >= 2 && IsSlackUser(words[1]) == Some(callee) ==> v == Reject(ErrorResponse(MsgAddSelfTarget))
    ensures v.Proceed? <==>
      |words| >= 2 && IsSlackUser(words[1]).Some? && IsSlackUser(words[1]).value != callee
      && 1 <= Amount(words) <= SingleLimit
    ensures v.Proceed? ==> Some(v.target) == IsSlackUser(words[1]) && v.delta == Amount(words)
    ensures |words| >= 2 && IsSlackUser(words[1]).Some? && IsSlackUser(words[1]).value != callee ==>
      && (Amount(words) == 0 ==> v == Reject(ErrorResponse(MsgNoOp)))
      && (Amount(words) < 0 ==> v == Reject(ErrorResponse(MsgAddCantRemove)))
      && (Amount(words) > SingleLimit ==> v == Reject(ErrorResponse(MsgDeltaLimit)))
  {
    match ParseArg(words, 1)
    case None => Reject(DirectResponse(MsgAddMissingTarget, CmdAdd))
    case Some(name) =>
      match IsSlackUser(name)
      case None => Reject(DirectResponse(MsgInvalidUser, CmdAdd))
      case Some(target) =>
        if target == callee then Reject(ErrorResponse(MsgAddSelfTarget))
        else
          var delta := Amount(words);
          if delta == 0 then Reject(ErrorResponse(MsgNoOp))
          else if delta < 0 then Reject(ErrorResponse(MsgAddCantRemove))
          else if delta > SingleLimit then Reject(ErrorResponse(MsgDeltaLimit))
          else Proceed(target, delta)
  }

  /**
   * The validation ladder of `--`, which differs from `++` in its messages and
   * in answering a zero or negative amount with a direct response.
   */
  function SubVerdict(callee: string, words: seq<string>): (v: Verdict)
    ensures |words| < 2 ==> v == Reject(DirectResponse(MsgSubtractMissingTarget, CmdSub))
    ensures |words| >= 2 && IsSlackUser(words[1]).None? ==> v == Reject(DirectResponse(MsgInvalidUser, CmdSub))
    ensures |words| >= 2 && IsSlackUser(words[1]) == Some(callee) ==>
      v == Reject(ErrorResponse(MsgSubtractSelfTarget))
    ensures v.Proceed? <==>
      |words| >= 2 && IsSlackUser(words[1]).Some? && IsSlackUser(words[1]).value != callee
      && 1 <= Amount(words) <= SingleLimit
    ensures v.Proceed? ==> Some(v.target) == IsSlackUser(words[1]) && v.delta == Amount(words)
    ensures |words| >= 2 && IsSlackUser(words[1]).Some? && IsSlackUser(words[1]).value != callee ==>
      && (Amount(words) == 0 ==> v == Reject(DirectResponse(MsgNoOp, CmdSub)))
      && (Amount(words) < 0 ==> v == Reject(DirectResponse(MsgSubtractCantAdd, CmdSub)))
      && (Amount(words) > SingleLimit ==> v == Reject(ErrorResponse(MsgDeltaLimit)))
  {
    match ParseArg(words, 1)
    case None => Reject(DirectResponse(MsgSubtractMissingTarget, CmdSub))
    case Some(name) =>
      match IsSlackUser(name)
      case None => Reject(DirectResponse(MsgInvalidUser, CmdSub))
      case Some(target) =>
        if target == callee then Reject(ErrorResponse(MsgSubtractSelfTarget))
        else
          var delta := Amount(words);
          if delta == 0 then Reject(DirectResponse(MsgNoOp, CmdSub))
          else if delta < 0 then Reject(DirectResponse(MsgSubtractCantAdd, CmdSub))
          else if delta > SingleLimit then Reject(ErrorResponse(MsgDeltaLimit))
          else Proceed(target, delta)
  }

  /**
   * The store part that `++` and `--` share: the daily check on the target's
   * usage, then the change of the target's karma, then the caller's usage.
   * `change` is what the target's karma moves by; `opening` starts the text.
   */
  function ExchangeOutcome(s: StoreState, team: string, callee: string, target: string, delta: int, change: int,
                    opening: string, fl: Flavor, env: Env): Outcome
    requires Ready(fl, env.picks)
  {
    if GetDailyOp in s.down then Outcome(Err(GetDailyOp), s)
    else
      var usage := UsageOf(s, team, target, env.date);
      var available := DailyLimit - usage;
      if available < delta then Outcome(Ok(ErrorResponse(MsgOverDailyLimit(DailyLimit, usage, available))), s)
      else if UpdateKarmaOp in s.down then Outcome(Err(UpdateKarmaOp), s)
      else
        var s1 := AddKarma(s, team, target, change);
        if UpdateDailyOp in s.down then Outcome(Err(UpdateDailyOp), s1)
        else
          Outcome(Ok(ChannelAttachmentsResponse(opening + StatusLine(target, KarmaOf(s1, team, target)),
                                                 SalutationText(fl, env.picks, change))),
                  AddUsage(s1, team, callee, env.date, delta))
  }

  function GivingLine(callee: string, delta: int, target: string): string {
    Interpolate("<@" + callee + "> is giving ", delta, " karma to <@" + target + ">. ")
  }

  function TakingLine(callee: string, delta: int, target: string): string {
    Interpolate("<@" + callee + "> is taking away ", delta, " karma from <@" + target + ">. ")
  }

  /** `++`. */
  function AddOutcome(s: StoreState, team: string, callee: string, words: seq<string>, fl: Flavor, env: Env): Outcome
    requires Ready(fl, env.picks)
  {
    match AddVerdict(callee, words)
    case Reject(r) => Outcome(Ok(r), s)
    case Proceed(target, delta) =>
      ExchangeOutcome(s, team, callee, target, delta, delta, GivingLine(callee, delta, target), fl, env)
  }

  /** `--`. */
  function SubOutcome(s: StoreState, team: string, callee: string, words: seq<string>, fl: Flavor, env: Env): Outcome
    requires Ready(fl, env.picks)
  {
    match SubVerdict(callee, words)
    case Reject(r) => Outcome(Ok(r), s)
    case Proceed(target, delta) =>
      ExchangeOutcome(s, team, callee, target, delta, -delta, TakingLine(callee, delta, target), fl, env)
  }

  /** `processCommand`: the handler the first word selects. */
  function CommandOutcome(s: StoreState, c: CommandData, words: seq<string>, fl: Flavor, env: Env): Outcome
    requires Ready(fl, env.picks)
    requires |words| > 0 && words[0] in Commands
  {
    if words[0] == HelpWord then Outcome(Ok(ResponseHelp()), s)
    else if words[0] == MeWord then Outcome(MeReply(s, c.teamId, c.userId, fl, env), s)
    else if words[0] == StatusWord then Outcome(StatusReply(s, c.teamId, c.userId, words, fl, env), s)
    else if words[0] == AddWord then AddOutcome(s, c.teamId, c.userId, words, fl, env)
    else if words[0] == SubWord then SubOutcome(s, c.teamId, c.userId, words, fl, env)
    else Outcome(TopReply(s, words, fl, env), s)
  }

  /** `Process`. */
  function ProcessOutcome(s: StoreState, c: CommandData, fl: Flavor, env: Env): Outcome
    requires Ready(fl, env.picks)
  {
    match Dispatch(c.text)
    case None => Outcome(Ok(ResponseHelp()), s)
    case Some(words) => CommandOutcome(s, c, words, fl, env)
  }

  // ---------------------------------------------------------------------
  // Properties of the handlers

  /** Text with no words at all (empty or only spaces) gets the help and leaves the store alone. */
  lemma BlankTextGetsHelp(s: StoreState, c: CommandData, fl: Flavor, env: Env)
    requires Ready(fl, env.picks)
    requires AllSpace(c.text)
    ensures ProcessOutcome(s, c, fl, env) == Outcome(Ok(ResponseHelp()), s)
  {
  }

  /** `help` answers the same whatever words follow it. */
  lemma HelpIgnoresTrailingWords(s: StoreState, c: CommandData, fl: Flavor, env: Env)
    requires Ready(fl, env.picks)
    requires |Fields(c.text)| > 0 && Fields(c.text)[0] == HelpWord
    ensures ProcessOutcome(s, c, fl, env) == Outcome(Ok(ResponseHelp()), s)
  {
    assert !AllSpace(c.text);
  }

  /**
   * Words that start with no keyword, neither as written nor after the
   * user-first alias nor after the shorthand, get the help and leave the
   * store alone.
   */
  lemma UnrecognisedGetsHelp(s: StoreState, c: CommandData, fl: Flavor, env: Env)
    requires Ready(fl, env.picks)
    requires var words := Fields(c.text);
      |words| > 0 && words[0] !in Commands && UserCmdAlias(words)[0] !in Commands
      && AddSubCmdAlias(UserCmdAlias(words))[0] !in Commands
    ensures ProcessOutcome(s, c, fl, env) == Outcome(Ok(ResponseHelp()), s)
  {
    assert Dispatch(c.text) == None;
  }

  /** A number as `strconv.Atoi` reads it is never a keyword, so only the shorthand alias can dispatch it. */
  lemma DecimalIsNoKeyword(t: string)
    requires IsDecimal(t)
    ensures t !in Commands
  {
    if t[0] == '+' || t[0] == '-' {
      assert IsDigit(t[1]);
    } else {
      assert IsDigit(t[0]);
    }
  }

  /**
   * The aliases compose in order: `<@id> n rest…` is first turned user-first
   * into `n id rest…`, then the shorthand makes it `++ id |n| rest…` or
   * `-- id |n| rest…`.
   */
  lemma UserFirstThenShorthand(text: string, id: string, number: string, rest: seq<string>)
    requires IsCanonicalId(id) && Atoi(number).Some? && Atoi(number).value != 0
    requires Fields(text) == [Mention(id), number] + rest
    ensures var n := Atoi(number).value;
      Dispatch(text) == Some([if n > 0 then AddWord else SubWord, id, Itoa(Abs(n))] + rest)
  {
    var words := Fields(text);
    assert Mention(id)[0] == '<';
    assert words[0] !in Commands;
    MentionRoundTrip(id);
    var w2 := UserCmdAlias(words);
    assert w2 == [number, id] + rest;
    DecimalIsNoKeyword(number);
    assert w2[2..] == rest;
  }

  /** `<@id> cmd rest…` with a keyword second is dispatched user-first as `cmd id rest…`. */
  lemma UserFirstDispatch(text: string, id: string, cmd: string, rest: seq<string>)
    requires IsCanonicalId(id) && cmd in Commands
    requires Fields(text) == [Mention(id), cmd] + rest
    ensures Dispatch(text) == Some([cmd, id] + rest)
  {
    var words := Fields(text);
    assert words[0] == Mention(id) && Mention(id)[0] == '<';
    assert words[0] !in Commands;
    MentionRoundTrip(id);
    assert UserCmdAlias(words) == [cmd, id] + rest;
  }

  /** The example `<@USER> +3`: it becomes `++ USER 3`. */
  lemma ShorthandExample(text: string)
    requires text == "<@USER> +3"
    ensures Dispatch(text) == Some([AddWord, "USER", "3"])
  {
    MentionExample();
    PlusSignExample();
    assert IsWord("<@USER>");
    FieldsOfTwoWords("<@USER>", "+3");
    assert "<@USER>" + " " + "+3" == text;
    assert Fields(text) == ["<@USER>", "+3"] + [];
    UserFirstThenShorthand(text, "USER", "+3", []);
    assert Abs(3) == 3;
    assert [AddWord, "USER", Itoa(Abs(3))] + [] == [AddWord, "USER", "3"];
  }

  /** `help`, `me`, `status` and `top` never write to the store. */
  lemma ReadOnlyCommands(s: StoreState, c: CommandData, words: seq<string>, fl: Flavor, env: Env)
    requires Ready(fl, env.picks)
    requires |words| > 0 && words[0] in Commands - {AddWord, SubWord}
    ensures CommandOutcome(s, c, words, fl, env).state == s
  {
  }

  /** A request changes the store only when it dispatches to `++` or `--`. */
  lemma OnlyExchangesWrite(s: StoreState, c: CommandData, fl: Flavor, env: Env)
    requires Ready(fl, env.picks)
    requires ProcessOutcome(s, c, fl, env).state != s
    ensures Dispatch(c.text).Some? && Dispatch(c.text).value[0] in {AddWord, SubWord}
  {
    var words := Dispatch(c.text).value;
    if words[0] !in {AddWord, SubWord} {
      ReadOnlyCommands(s, c, words, fl, env);
    }
  }

  /**
   * When the amount exceeds what remains of the target's daily limit, the
   * request is refused with the usage and the remainder, and nothing is written.
   */
  lemma OverDailyLimitRefused(s: StoreState, team: string, callee: string, target: string, delta: int,
                              change: int, opening: string, fl: Flavor, env: Env)
    requires Ready(fl, env.picks)
    requires GetDailyOp !in s.down && UsageOf(s, team, target, env.date) + delta > DailyLimit
    ensures var usage := UsageOf(s, team, target, env.date);
      ExchangeOutcome(s, team, callee, target, delta, change, opening, fl, env)
      == Outcome(Ok(ErrorResponse(MsgOverDailyLimit(DailyLimit, usage, DailyLimit - usage))), s)
  {
  }

  /**
   * `++` writes only after the whole ladder has passed: a user other than the
   * caller, an amount in 1..SingleLimit, and room under the target's daily
   * limit. A refused or over-limit request leaves the store as it was.
   */
  lemma AddWritesOnlyWhenAllowed(s: StoreState, team: string, callee: string, words: seq<string>, fl: Flavor, env: Env)
    requires Ready(fl, env.picks)
    requires AddOutcome(s, team, callee, words, fl, env).state != s
    ensures |words| >= 2 && IsSlackUser(words[1]).Some? && IsSlackUser(words[1]).value != callee
    ensures 1 <= Amount(words) <= SingleLimit
    ensures UsageOf(s, team, IsSlackUser(words[1]).value, env.date) + Amount(words) <= DailyLimit
    ensures GetDailyOp !in s.down && UpdateKarmaOp !in s.down
  {
  }

  /** The same for `--`. */
  lemma SubWritesOnlyWhenAllowed(s: StoreState, team: string, callee: string, words: seq<string>, fl: Flavor, env: Env)
    requires Ready(fl, env.picks)
    requires SubOutcome(s, team, callee, words, fl, env).state != s
    ensures |words| >= 2 && IsSlackUser(words[1]).Some? && IsSlackUser(words[1]).value != callee
    ensures 1 <= Amount(words) <= SingleLimit
    ensures UsageOf(s, team, IsSlackUser(words[1]).value, env.date) + Amount(words) <= DailyLimit
    ensures GetDailyOp !in s.down && UpdateKarmaOp !in s.down
  {
  }

  /**
   * The two writes of an exchange: when both go through, the target's karma
   * moves by `change`, the caller's usage grows by `delta`, and the text ends
   * with the total the store now holds. When the karma write fails nothing is
   * written; when the usage write fails the karma change stays.
   */
  lemma ExchangeWrites(s: StoreState, team: string, callee: string, target: string, delta: int, change: int,
                       opening: string, fl: Flavor, env: Env)
    requires Ready(fl, env.picks)
    requires GetDailyOp !in s.down && UsageOf(s, team, target, env.date) + delta <= DailyLimit
    ensures var o := ExchangeOutcome(s, team, callee, target, delta, change, opening, fl, env);
      && (UpdateKarmaOp in s.down ==> o == Outcome(Err(UpdateKarmaOp), s))
      && (UpdateKarmaOp !in s.down ==> KarmaOf(o.state, team, target) == KarmaOf(s, team, target) + change)
      && (UpdateKarmaOp !in s.down && UpdateDailyOp in s.down ==>
            o.reply == Err(UpdateDailyOp) && o.state.daily == s.daily)
      && (UpdateKarmaOp !in s.down && UpdateDailyOp !in s.down ==>
            && UsageOf(o.state, team, callee, env.date) == UsageOf(s, team, callee, env.date) + delta
            && o.reply.Ok? && o.reply.value.responseType == InChannel
            && o.reply.value.text == opening + StatusLine(target, KarmaOf(o.state, team, target)))
  {
  }

  /**
   * With a store that does not fail and room under the target's daily limit,
   * `++` and then `--` of the same amount on the same target both go through
   * and leave every karma total as it was; the caller's usage has grown by
   * twice the amount. The second daily check passes too, because the target's
   * usage row is the one checked and it is the caller's row that grows.
   */
  lemma AddThenSubtractRestores(s: StoreState, team: string, callee: string, words: seq<string>,
                                words': seq<string>, fl: Flavor, env: Env)
    requires Ready(fl, env.picks)
    requires AddVerdict(callee, words).Proceed? && SubVerdict(callee, words') == AddVerdict(callee, words)
    requires s.down == {}
    requires UsageOf(s, team, AddVerdict(callee, words).target, env.date) + AddVerdict(callee, words).delta
          <= DailyLimit
    ensures var o1 := AddOutcome(s, team, callee, words, fl, env);
      var o2 := SubOutcome(o1.state, team, callee, words', fl, env);
      && o1.reply.Ok? && o1.reply.value.responseType == InChannel
      && o2.reply.Ok? && o2.reply.value.responseType == InChannel
      && (forall t, u :: KarmaOf(o2.state, t, u) == KarmaOf(s, t, u))
      && UsageOf(o2.state, team, callee, env.date)
         == UsageOf(s, team, callee, env.date) + 2 * AddVerdict(callee, words).delta
  {
    var target, delta := AddVerdict(callee, words).target, AddVerdict(callee, words).delta;
    var giving, taking := GivingLine(callee, delta, target), TakingLine(callee, delta, target);
    var o1 := AddOutcome(s, team, callee, words, fl, env);
    assert o1 == ExchangeOutcome(s, team, callee, target, delta, delta, giving, fl, env);
    assert SubOutcome(o1.state, team, callee, words', fl, env)
        == ExchangeOutcome(o1.state, team, callee, target, delta, -delta, taking, fl, env);
    assert target != callee;
    ExchangeThenReverse(s, team, callee, target, delta, giving, taking, fl, env);
  }

  /** The store part of `AddThenSubtractRestores`: an exchange and its reverse. */
  lemma ExchangeThenReverse(s: StoreState, team: string, callee: string, target: string, delta: int,
                            opening: string, opening': string, fl: Flavor, env: Env)
    requires Ready(fl, env.picks)
    requires s.down == {} && target != callee
    requires UsageOf(s, team, target, env.date) + delta <= DailyLimit
    ensures var o1 := ExchangeOutcome(s, team, callee, target, delta, delta, opening, fl, env);
      var o2 := ExchangeOutcome(o1.state, team, callee, target, delta, -delta, opening', fl, env);
      && o1.reply.Ok? && o1.reply.value.responseType == InChannel
      && o2.reply.Ok? && o2.reply.value.responseType == InChannel
      && (forall t, u :: KarmaOf(o2.state, t, u) == KarmaOf(s, t, u))
      && UsageOf(o2.state, team, callee, env.date) == UsageOf(s, team, callee, env.date) + 2 * delta
  {
    var s1 := AddUsage(AddKarma(s, team, target, delta), team, callee, env.date, delta);
    assert ExchangeOutcome(s, team, callee, target, delta, delta, opening, fl, env).state == s1;
    assert UsageOf(s1, team, target, env.date) == UsageOf(s, team, target, env.date);
    var s2 := AddUsage(AddKarma(s1, team, target, -delta), team, callee, env.date, delta);
    assert ExchangeOutcome(s1, team, callee, target, delta, -delta, opening', fl, env).state == s2;
    AddKarmaInverse(s, team, target, delta);
  }

  /** An exchange moves karma only for its target. */
  lemma ExchangeTouchesOnlyTarget(s: StoreState, team: string, callee: string, target: string, delta: int,
                                  change: int, opening: string, fl: Flavor, env: Env, t: string, u: string)
    requires Ready(fl, env.picks)
    requires (t, u) != (team, target)
    ensures KarmaOf(ExchangeOutcome(s, team, callee, target, delta, change, opening, fl, env).state, t, u)
         == KarmaOf(s, t, u)
  {
  }

  /** The header holds two line breaks. */
  lemma TopHeaderNewlines(n: int)
    ensures multiset(TopHeader(n))['\n'] == 2
  {
    TwoLines("The top ", n, " users by karma:\n", "Rank\tName\tKarma\n");
  }

  lemma TwoLines(p: string, n: int, x: string, y: string)
    requires '\n' !in p
    requires |x| > 0 && x[|x| - 1] == '\n' && forall i :: 0 <= i < |x| - 1 ==> x[i] != '\n'
    requires |y| > 0 && y[|y| - 1] == '\n' && forall i :: 0 <= i < |y| - 1 ==> y[i] != '\n'
    ensures multiset(Interpolate(p, n, x) + y)['\n'] == 2
  {
    OneLine(x);
    OneLine(y);
    InterpolateNewlines(p, n, x);
  }

  /** A row ends with the one line break it holds, when the user name has none. */
  lemma RowNewlines(i: int, u: UserKarma)
    requires '\n' !in u.user
    ensures multiset(Row(i, u))['\n'] == 1
  {
    var mid := "\t<@" + u.user + ">\t";
    InterpolateNewlines("", i, Interpolate(mid, u.karma, "\n"));
    InterpolateNewlines(mid, u.karma, "\n");
    assert '\n' !in multiset(mid);
  }

  /** `top` writes one line per user after the head. */
  lemma {:induction false} RowsNewlines(head: string, users: seq<UserKarma>)
    requires forall i :: 0 <= i < |users| ==> '\n' !in users[i].user
    ensures multiset(Rows(head, users))['\n'] == multiset(head)['\n'] + |users|
    decreases |users|
  {
    if users != [] {
      RowsNewlines(head, users[..|users| - 1]);
      RowNewlines(|users|, users[|users| - 1]);
    }
  }

  /**
   * `top` answers the channel with the header and one line per ranked user,
   * as many users as the clamped count asks for or as the ranking holds.
   */
  lemma TopListsRankedUsers(s: StoreState, words: seq<string>, fl: Flavor, env: Env)
    requires Ready(fl, env.picks)
    requires TopOp !in s.down && s.ranking != []
    requires forall i :: 0 <= i < |s.ranking| ==> '\n' !in s.ranking[i].user
    ensures TopReply(s, words, fl, env).Ok?
    ensures var r := TopReply(s, words, fl, env).value;
      && r.responseType == InChannel
      && multiset(r.text)['\n'] == 2 + (if TopCount(words) < |s.ranking| then TopCount(words) else |s.ranking|)
  {
    var users := FirstRows(s.ranking, TopCount(words));
    TopReplyShape(s, words, fl, env);
    CleanRows(s.ranking, TopCount(words));
    HeaderedRanking(|users|, users, Formula(fl.compliment, " ", env.picks.compliment));
  }

  /** A failing ranking query is passed on; an empty ranking gets a direct apology without attachment. */
  lemma TopWithoutRanking(s: StoreState, words: seq<string>, fl: Flavor, env: Env)
    requires Ready(fl, env.picks)
    ensures TopOp in s.down ==> TopReply(s, words, fl, env) == Err(TopOp)
    ensures TopOp !in s.down && s.ranking == [] ==>
      TopReply(s, words, fl, env) == Ok(ErrorResponse(MsgNoPositiveKarma))
  {
    DirectWithoutAttachment(MsgNoPositiveKarma);
  }

  /** With a ranking to show, `top` answers with the header and the first rows. */
  lemma TopReplyShape(s: StoreState, words: seq<string>, fl: Flavor, env: Env)
    requires Ready(fl, env.picks)
    requires TopOp !in s.down && s.ranking != []
    ensures var users := FirstRows(s.ranking, TopCount(words));
      TopReply(s, words, fl, env)
      == Ok(ChannelAttachmentsResponse(Rows(TopHeader(|users|), users), Formula(fl.compliment, " ", env.picks.compliment)))
  {
  }

  /** The first rows of a ranking keep its rows' property of naming users without line breaks. */
  lemma CleanRows(ranking: seq<UserKarma>, n: int)
    requires forall i :: 0 <= i < |ranking| ==> '\n' !in ranking[i].user
    ensures forall i :: 0 <= i < |FirstRows(ranking, n)| ==> '\n' !in FirstRows(ranking, n)[i].user
  {
    var users := FirstRows(ranking, n);
    forall i | 0 <= i < |users|
      ensures '\n' !in users[i].user
    {
      assert users[i] == ranking[i];
    }
  }

  /** The answer of `top` holds the header's two line breaks and one per user. */
  lemma HeaderedRanking(n: int, users: seq<UserKarma>, att: string)
    requires forall i :: 0 <= i < |users| ==> '\n' !in users[i].user
    ensures var r := ChannelAttachmentsResponse(Rows(TopHeader(n), users), att);
      r.responseType == InChannel && multiset(r.text)['\n'] == 2 + |users|
  {
    var head := TopHeader(n);
    TopHeaderNewlines(n);
    RankingLines(head, users, att);
  }

  /** A ranking answer: in the channel, with the head's line breaks and one more per user. */
  lemma RankingLines(head: string, users: seq<UserKarma>, att: string)
    requires forall i :: 0 <= i < |users| ==> '\n' !in users[i].user
    ensures var r := ChannelAttachmentsResponse(Rows(head, users), att);
      r.responseType == InChannel && multiset(r.text)['\n'] == multiset(head)['\n'] + |users|
  {
    RowsNewlines(head, users);
  }

  /** `me` reports the caller's karma and usage so that the text alone determines both. */
  lemma MeTextDeterminesTotals(s: StoreState, s': StoreState, team: string, user: string, fl: Flavor, env: Env)
    requires Ready(fl, env.picks)
    requires MeReply(s, team, user, fl, env).Ok? && MeReply(s', team, user, fl, env).Ok?
    requires MeReply(s, team, user, fl, env).value.text == MeReply(s', team, user, fl, env).value.text
    ensures KarmaOf(s, team, user) == KarmaOf(s', team, user)
    ensures UsageOf(s, team, user, env.date) == UsageOf(s', team, user, env.date)
  {
    var k, k' := KarmaOf(s, team, user), KarmaOf(s', team, user);
    var u, u' := UsageOf(s, team, user, env.date), UsageOf(s', team, user, env.date);
    var r, r' := MeReply(s, team, user, fl, env), MeReply(s', team, user, fl, env);
    assert r.value.text == MeText(user, k, u);
    assert r'.value.text == MeText(user, k', u');
    MeTextInjective(user, k, u, k', u');
  }

  /** The `status` text restates the target's total: equal texts mean equal totals. */
  lemma StatusTextDeterminesTotal(s: StoreState, s': StoreState, team: string, callee: string, words: seq<string>,
                                  fl: Flavor, env: Env)
    requires Ready(fl, env.picks)
    requires |words| > 1 && IsSlackUser(words[1]).Some?
    requires StatusReply(s, team, callee, words, fl, env).Ok? && StatusReply(s', team, callee, words, fl, env).Ok?
    requires StatusReply(s, team, callee, words, fl, env).value.text == StatusReply(s', team, callee, words, fl, env).value.text
    ensures KarmaOf(s, team, IsSlackUser(words[1]).value) == KarmaOf(s', team, IsSlackUser(words[1]).value)
  {
    var target := IsSlackUser(words[1]).value;
    var k, k' := KarmaOf(s, team, target), KarmaOf(s', team, target);
    CancelPrefix(RequestLine(callee, target), StatusLine(target, k), StatusLine(target, k'));
    StatusLineRestatesKarma(target, k, k');
  }

  // ---------------------------------------------------------------------
  // The processor

  /** `SlackProcessor`: the store and the two generators it was built with. */
  class SlackProcessor {
    const store: Store
    const flavor: Flavor

    /** `NewProcessor`. */
    constructor (store: Store, insult: FormulaGenerator, compliment: FormulaGenerator)
      ensures this.store == store && flavor == Flavor(insult, compliment)
    {
      this.store := store;
      this.flavor := Flavor(insult, compliment);
    }

    /** `Salutation(k, sb)`: appends the sentence of at most one generator. */
    method Salutation(k: int, sb: Builder, picks: Picks)
      requires Ready(flavor, picks)
      modifies sb
      ensures sb.buf == old(sb.buf) + SalutationText(flavor, picks, k)
    {
      if k > 0 {
        var sentence := Sentence(flavor.compliment, picks.compliment);
        sb.WriteString(sentence);
        return;
      }
      if k == 0 {
        return;
      }
      var sentence := Sentence(flavor.insult, picks.insult);
      sb.WriteString(sentence);
    }

    /** The channel response of `status`, `++` and `--`: an opening, the status line, and the salutation for `sign`. */
    method ChannelStatus(opening: string, target: string, k: int, sign: int, picks: Picks) returns (r: Response)
      requires Ready(flavor, picks)
      ensures r == ChannelAttachmentsResponse(opening + StatusLine(target, k), SalutationText(flavor, picks, sign))
    {
      var msg := new Builder();
      var att := new Builder();
      msg.WriteString(opening);
      assert msg.buf == opening;
      UserStatus(target, k, msg);
      Salutation(sign, att, picks);
      assert att.buf == SalutationText(flavor, picks, sign);
      r := ChannelAttachmentsResponse(msg.buf, att.buf);
    }

    /** The direct response of `me`: the two lines of totals, and the salutation for the caller's karma. */
    method MeResponse(user: string, k: int, usage: int, picks: Picks) returns (r: Response)
      requires Ready(flavor, picks)
      ensures r == DirectResponse(MeText(user, k, usage), SalutationText(flavor, picks, k))
    {
      var msg := new Builder();
      var att := new Builder();
      UserStatus(user, k, msg);
      assert msg.buf == StatusLine(user, k);
      msg.WriteString("\n");
      assert msg.buf == StatusLine(user, k) + "\n";
      UserDailyLimit(usage, DailyLimit - usage, msg);
      assert msg.buf == MeText(user, k, usage);
      Salutation(k, att, picks);
      assert att.buf == SalutationText(flavor, picks, k);
      r := DirectResponse(msg.buf, att.buf);
    }

    /** The channel response of `top`: the ranking lines, and a compliment. */
    method TopResponse(users: seq<UserKarma>, picks: Picks) returns (r: Response)
      requires Ready(flavor, picks)
      ensures r == ChannelAttachmentsResponse(Rows(TopHeader(|users|), users), Formula(flavor.compliment, " ", picks.compliment))
    {
      var msg := new Builder();
      var att := new Builder();
      msg.WriteString(Interpolate("The top ", |users|, " users by karma:\n"));
      assert msg.buf == Interpolate("The top ", |users|, " users by karma:\n");
      msg.WriteString("Rank\tName\tKarma\n");
      assert msg.buf == TopHeader(|users|);
      WriteRows(users, msg);
      var line := Sentence(flavor.compliment, picks.compliment);
      att.WriteString(line);
      assert att.buf == "" + line == line;
      r := ChannelAttachmentsResponse(msg.buf, att.buf);
    }

    /** `help`: the help response, without touching the store. */
    method Help() returns (r: Result<Response, StoreOp>)
      ensures r == Ok(ResponseHelp())
    {
      r := Ok(ResponseHelp());
    }

    /** `me`: reads the caller's karma and usage; writes nothing. */
    method Me(team: string, user: string, env: Env) returns (r: Result<Response, StoreOp>)
      requires Ready(flavor, env.picks)
      ensures r == MeReply(store.State(), team, user, flavor, env)
    {
      ghost var s := store.State();
      var k := store.GetKarma(team, user);
      if k.Err? {
        return Err(k.error);
      }
      var usage := store.GetDaily(team, user, env.date);
      if usage.Err? {
        return Err(usage.error);
      }
      assert k.value == KarmaOf(s, team, user) && usage.value == UsageOf(s, team, user, env.date);
      var response := MeResponse(user, k.value, usage.value, env.picks);
      r := Ok(response);
    }

    /** `status`: reads the target's karma; writes nothing. */
    method Status(team: string, callee: string, words: seq<string>, env: Env) returns (r: Result<Response, StoreOp>)
      requires Ready(flavor, env.picks)
      ensures r == StatusReply(store.State(), team, callee, words, flavor, env)
    {
      ghost var s := store.State();
      var name := ParseArg(words, 1);
      if name.None? {
        return Ok(DirectResponse(MsgMissingName, CmdStatus));
      }
      var target := IsSlackUser(name.value);
      if target.None? {
        return Ok(DirectResponse(MsgInvalidUser, CmdStatus));
      }
      var k := store.GetKarma(team, target.value);
      if k.Err? {
        return Err(k.error);
      }
      assert k.value == KarmaOf(s, team, target.value);
      var response := ChannelStatus(RequestLine(callee, target.value), target.value, k.value, k.value, env.picks);
      r := Ok(response);
    }

    /** `top`: reads the ranking and writes one line per user; writes nothing to the store. */
    method Top(team: string, words: seq<string>, env: Env) returns (r: Result<Response, StoreOp>)
      requires Ready(flavor, env.picks)
      ensures r == TopReply(store.State(), words, flavor, env)
    {
      ghost var s := store.State();
      var n := ParseArgInt(words, 1, TopUserDefault).0;
      if n <= 0 {
        n := TopUserDefault;
      }
      if n > TopUserMax {
        n := TopUserMax;
      }
      assert n == TopCount(words);
      var topUsers := store.Top(team, n);
      if topUsers.Err? {
        return Err(topUsers.error);
      }
      var users := topUsers.value;
      assert users == FirstRows(s.ranking, TopCount(words));
      if |users| == 0 {
        return Ok(DirectResponse(MsgNoPositiveKarma, ""));
      }
      var response := TopResponse(users, env.picks);
      r := Ok(response);
    }

    /** The store part of `add` and `subtract`. */
    method Exchange(team: string, callee: string, target: string, delta: int, change: int, opening: string, env: Env)
      returns (r: Result<Response, StoreOp>)
      requires Ready(flavor, env.picks)
      modifies store
      ensures Outcome(r, store.State()) ==
        ExchangeOutcome(old(store.State()), team, callee, target, delta, change, opening, flavor, env)
    {
      ghost var s := store.State();
      var usage := store.GetDaily(team, target, env.date);
      if usage.Err? {
        return Err(usage.error);
      }
      assert usage.value == UsageOf(s, team, target, env.date);
      var available := DailyLimit - usage.value;
      if available < delta {
        return Ok(ErrorResponse(MsgOverDailyLimit(DailyLimit, usage.value, available)));
      }
      var k := store.UpdateKarma(team, target, change);
      if k.Err? {
        return Err(k.error);
      }
      ghost var s1 := AddKarma(s, team, target, change);
      assert store.State() == s1 && k.value == KarmaOf(s1, team, target);
      var u := store.UpdateDaily(team, callee, env.date, delta);
      if u.Err? {
        return Err(u.error);
      }
      assert store.State() == AddUsage(s1, team, callee, env.date, delta);
      var response := ChannelStatus(opening, target, k.value, change, env.picks);
      r := Ok(response);
    }

    /** `add`. */
    method Add(team: string, callee: string, words: seq<string>, env: Env) returns (r: Result<Response, StoreOp>)
      requires Ready(flavor, env.picks)
      modifies store
      ensures Outcome(r, store.State()) == AddOutcome(old(store.State()), team, callee, words, flavor, env)
    {
      var name := ParseArg(words, 1);
      if name.None? {
        return Ok(DirectResponse(MsgAddMissingTarget, CmdAdd));
      }
      var target := IsSlackUser(name.value);
      if target.None? {
        return Ok(DirectResponse(MsgInvalidUser, CmdAdd));
      }
      if target.value == callee {
        return Ok(ErrorResponse(MsgAddSelfTarget));
      }
      var delta := ParseArgInt(words, 2, 1).0;
      if delta == 0 {
        return Ok(ErrorResponse(MsgNoOp));
      }
      if delta < 0 {
        return Ok(ErrorResponse(MsgAddCantRemove));
      }
      if delta > SingleLimit {
        return Ok(ErrorResponse(MsgDeltaLimit));
      }
      assert AddVerdict(callee, words) == Proceed(target.value, delta);
      r := Exchange(team, callee, target.value, delta, delta, GivingLine(callee, delta, target.value), env);
    }

    /** `subtract`. */
    method Subtract(team: string, callee: string, words: seq<string>, env: Env) returns (r: Result<Response, StoreOp>)
      requires Ready(flavor, env.picks)
      modifies store
      ensures Outcome(r, store.State()) == SubOutcome(old(store.State()), team, callee, words, flavor, env)
    {
      var name := ParseArg(words, 1);
      if name.None? {
        return Ok(DirectResponse(MsgSubtractMissingTarget, CmdSub));
      }
      var target := IsSlackUser(name.value);
      if target.None? {
        return Ok(DirectResponse(MsgInvalidUser, CmdSub));
      }
      if target.value == callee {
        return Ok(ErrorResponse(MsgSubtractSelfTarget));
      }
      var delta := ParseArgInt(words, 2, 1).0;
      if delta == 0 {
        return Ok(DirectResponse(MsgNoOp, CmdSub));
      }
      if delta < 0 {
        return Ok(DirectResponse(MsgSubtractCantAdd, CmdSub));
      }
      if delta > SingleLimit {
        return Ok(ErrorResponse(MsgDeltaLimit));
      }
      assert SubVerdict(callee, words) == Proceed(target.value, delta);
      r := Exchange(team, callee, target.value, delta, -delta, TakingLine(callee, delta, target.value), env);
    }

    /** `processCommand`. */
    method ProcessCommand(words: seq<string>, c: CommandData, env: Env) returns (r: Result<Response, StoreOp>)
      requires Ready(flavor, env.picks)
      requires |words| > 0 && words[0] in Commands
      modifies store
      ensures Outcome(r, store.State()) == CommandOutcome(old(store.State()), c, words, flavor, env)
    {
      if words[0] == HelpWord {
        r := Help();
      } else if words[0] == MeWord {
        r := Me(c.teamId, c.userId, env);
      } else if words[0] == StatusWord {
        r := Status(c.teamId, c.userId, words, env);
      } else if words[0] == AddWord {
        r := Add(c.teamId, c.userId, words, env);
      } else if words[0] == SubWord {
        r := Subtract(c.teamId, c.userId, words, env);
      } else {
        r := Top(c.teamId, words, env);
      }
    }

    /** `Process`. */
    method Process(c: CommandData, env: Env) returns (r: Result<Response, StoreOp>)
      requires Ready(flavor, env.picks)
      modifies store
      ensures Outcome(r, store.State()) == ProcessOutcome(old(store.State()), c, flavor, env)
    {
      if |c.text| == 0 {
        r := Help();
        return;
      }
      var words := Fields(c.text);
      if |words| == 0 {
        r := Help();
        return;
      }
      if words[0] in Commands {
        r := ProcessCommand(words, c, env);
        return;
      }
      words := UserCmdAlias(words);
      if words[0] in Commands {
        r := ProcessCommand(words, c, env);
        return;
      }
      words := AddSubCmdAlias(words);
      if words[0] in Commands {
        r := ProcessCommand(words, c, env);
        return;
      }
      r := Help();
    }
  }
}
