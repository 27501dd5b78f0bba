/**
 * The texts the processor answers with: command examples, the help response,
 * the fixed messages, the templates that embed numbers, and the salutation
 * drawn from the insult or compliment generator.
 */
module KarmaMessages {
  import opened Text
  import opened Slack
  import opened Shakespeare
  import opened KarmaConfig

  // Command examples

  const CmdMe: string := "/karma me"
  const CmdStatus: string := "/karma status @user"
  const CmdAdd: string := "/karma ++ @user"
  const CmdSub: string := "/karma -- @user"
  const CmdHelp: string := "/karma help"
  const CmdTop: string := "/karma top"

  /** The usage example shown for each sub-command. */
  function Example(c: Command): (s: string)
    ensures |s| >= 7 + |Keyword(c)| && s[..7 + |Keyword(c)|] == "/karma " + Keyword(c)
  {
    match c
    case MeCmd => CmdMe
    case StatusCmd => CmdStatus
    case AddCmd => CmdAdd
    case SubCmd => CmdSub
    case HelpCmd => CmdHelp
    case TopCmd => CmdTop
  }

  /** The value text of each help field. */
  function HelpValue(c: Command): string {
    match c
    case MeCmd => "Return your karma."
    case StatusCmd => "Provide a @user and return their karma."
    case AddCmd => "Provide a @user and increase their karma. Optionally, pass a quantity of karma to give."
    case SubCmd => "Provide a @user and decrease their karma. Optionally, pass a quantity of karma to take."
    case TopCmd => "Return the top 3 users by karma. Optionally, pass a quantity for the top n users"
    case HelpCmd => "This helpful dialogue. You're welcome!"
  }

  /** The order in which the help lists the sub-commands. */
  const HelpOrder: seq<Command> := [MeCmd, StatusCmd, AddCmd, SubCmd, TopCmd, HelpCmd]

  function HelpField(c: Command): Field {
    Field(Example(c), HelpValue(c), true)
  }

  /**
   * `responseHelp`: shown only to the caller, without text, and with one
   * attachment listing six short fields, one per sub-command in the order
   * me, status, ++, --, top, help.
   */
  function ResponseHelp(): (r: Response)
    ensures r.responseType == Ephemeral && r.text == "" && |r.attachments| == 1
    ensures |r.attachments[0].fields| == 6
    ensures forall i :: 0 <= i < 6 ==>
      r.attachments[0].fields[i].short && r.attachments[0].fields[i].title == Example(HelpOrder[i])
  {
    var fields := seq(6, i requires 0 <= i < 6 => HelpField(HelpOrder[i]));
    Response(Ephemeral, "", [Attachment(
      "*Help* Helpful information on how to manage karma.",
      "",
      "Helpful information on how to manage karma.",
      "",
      "Below are the sub-commands:",
      fields)])
  }

  /** Every sub-command has exactly one field in the help, titled by its example. */
  lemma HelpListsEveryCommandOnce(c: Command)
    ensures exists i :: 0 <= i < 6 && HelpOrder[i] == c
    ensures forall i, j :: 0 <= i < j < 6 ==> HelpOrder[i] != HelpOrder[j]
  {
    if c == MeCmd { assert HelpOrder[0] == c; }
    else if c == StatusCmd { assert HelpOrder[1] == c; }
    else if c == AddCmd { assert HelpOrder[2] == c; }
    else if c == SubCmd { assert HelpOrder[3] == c; }
    else if c == TopCmd { assert HelpOrder[4] == c; }
    else { assert HelpOrder[5] == c; }
  }

  // Fixed messages

  const MsgMissingName: string := "I need to know whose karma to retrieve."
  const MsgNoOp: string := "Don't waste my time. For shame!"
  const MsgInvalidUser: string := "I'm not sure that name is a valid slack user."
  const MsgDeltaLimit: string := "Whoa there! Let's keep the karma swings to 5 and under."

  const MsgAddMissingTarget: string := "To whom do you want to give karma?"
  const MsgAddSelfTarget: string := "Don't be a weasel. For Shame!"
  const MsgAddCantRemove: string := "`++` is used to give karma. Try `--` to take away karma."

  const MsgSubtractMissingTarget: string := "From whom do you want to take karma away?"
  const MsgSubtractSelfTarget: string := "Do you have something to confess? Why remove your own karma?"
  const MsgSubtractCantAdd: string := "Negative karma doesn't make sense. Please use positive numbers!"

  // Templates

  /** `MsgOverDailyLimit(limit, usage, remainder)`. */
  function MsgOverDailyLimit(limit: int, usage: int, remainder: int): string {
    Interpolate("Ah ah ah! The daily limit is ", limit,
      Interpolate(" and you've given/taken ", usage,
        Interpolate(" karma already. Only ", remainder, " remaining")))
  }

  /** The over-limit message determines the limit, the usage and the remainder, in that order. */
  lemma MsgOverDailyLimitInjective(l: int, u: int, r: int, l': int, u': int, r': int)
    requires MsgOverDailyLimit(l, u, r) == MsgOverDailyLimit(l', u', r')
    ensures l == l' && u == u' && r == r'
  {
    var a, b, c := " and you've given/taken ", " karma already. Only ", " remaining";
    InterpolateInjective("Ah ah ah! The daily limit is ", l, Interpolate(a, u, Interpolate(b, r, c)),
      l', Interpolate(a, u', Interpolate(b, r', c)));
    InterpolateInjective(a, u, Interpolate(b, r, c), u', Interpolate(b, r', c));
    InterpolateInjective(b, r, c, r', c);
  }

  /** What `UserStatus` appends: `<@id> has k karma.` */
  function StatusLine(id: string, k: int): string {
    Interpolate("<@" + id + "> has ", k, " karma.")
  }

  /** The status line names the user and restates the total, a negative one with its sign. */
  lemma StatusLineRestatesKarma(id: string, a: int, b: int)
    ensures StatusLine(id, a) == StatusLine(id, b) <==> a == b
    ensures StatusLine(id, a)[|id| + 8] == '-' <==> a < 0
    ensures StatusLine(id, a)[..|id| + 3] == Mention(id)
  {
    var p := "<@" + id + "> has ";
    assert p[..|id| + 3] == Mention(id);
    assert StatusLine(id, a)[..|id| + 3] == StatusLine(id, a)[..|p|][..|id| + 3];
    if StatusLine(id, a) == StatusLine(id, b) {
      InterpolateInjective("<@" + id + "> has ", a, " karma.", b, " karma.");
    }
  }

  /** Appends `<@id> has k karma.`, keeping what the builder already holds. */
  method UserStatus(id: string, k: int, sb: Builder)
    modifies sb
    ensures sb.buf == old(sb.buf) + StatusLine(id, k)
  {
    sb.WriteString("<@" + id + "> has " + Itoa(k) + " karma.");
  }

  /** What `UserDailyLimit` appends. */
  function DailyLine(usage: int, remaining: int): string {
    Interpolate("You have given/taken ", usage, Interpolate(" karma with ", remaining, " remaining today."))
  }

  /** The daily line determines the usage and the remainder, in that order. */
  lemma DailyLineInjective(u: int, r: int, u': int, r': int)
    requires DailyLine(u, r) == DailyLine(u', r')
    ensures u == u' && r == r'
  {
    var a, b := " karma with ", " remaining today.";
    InterpolateInjective("You have given/taken ", u, Interpolate(a, r, b), u', Interpolate(a, r', b));
    InterpolateInjective(a, r, b, r', b);
  }

  /** The two lines of `me` determine the total, the usage and the remainder. */
  lemma MeLinesInjective(id: string, k: int, u: int, r: int, k': int, u': int, r': int)
    requires StatusLine(id, k) + "\n" + DailyLine(u, r) == StatusLine(id, k') + "\n" + DailyLine(u', r')
    ensures k == k' && u == u' && r == r'
  {
    var p, x := "<@" + id + "> has ", " karma.";
    var d, d' := DailyLine(u, r), DailyLine(u', r');
    InterpolateAppend(p, k, x, "\n");
    InterpolateAppend(p, k, x + "\n", d);
    InterpolateAppend(p, k', x, "\n");
    InterpolateAppend(p, k', x + "\n", d');
    InterpolateInjective(p, k, (x + "\n") + d, k', (x + "\n") + d');
    CancelPrefix(x + "\n", d, d');
    DailyLineInjective(u, r, u', r');
  }

  /** Appends the usage so far and the karma remaining today. */
  method UserDailyLimit(usage: int, remaining: int, sb: Builder)
    modifies sb
    ensures sb.buf == old(sb.buf) + DailyLine(usage, remaining)
  {
    sb.WriteString("You have given/taken " + Itoa(usage) + " karma with " + Itoa(remaining) + " remaining today.");
  }

  // Salutations

  /** The insult and compliment generators a processor holds. */
  datatype Flavor = Flavor(insult: FormulaGenerator, compliment: FormulaGenerator)

  /**
   * The random indices each generator draws during one request; a request asks
   * each generator for at most one sentence.
   */
  datatype Picks = Picks(insult: seq<nat>, compliment: seq<nat>)

  predicate Ready(fl: Flavor, p: Picks) {
    ValidPicks(fl.insult, p.insult) && ValidPicks(fl.compliment, p.compliment)
  }

  /** What `Salutation(k)` appends: a compliment for positive k, an insult for negative k, else nothing. */
  function SalutationText(fl: Flavor, p: Picks, k: int): (s: string)
    requires Ready(fl, p)
    ensures k > 0 ==> s == Formula(fl.compliment, " ", p.compliment)
    ensures k == 0 ==> s == ""
    ensures k < 0 ==> s == Formula(fl.insult, " ", p.insult)
  {
    if k > 0 then Formula(fl.compliment, " ", p.compliment)
    else if k == 0 then ""
    else Formula(fl.insult, " ", p.insult)
  }

  /** Only one generator is consulted: the other one, and its picks, do not matter. */
  lemma SalutationConsultsOneGenerator(fl: Flavor, p: Picks, fl': Flavor, p': Picks, k: int)
    requires Ready(fl, p) && Ready(fl', p')
    ensures k >= 0 && fl.compliment == fl'.compliment && p.compliment == p'.compliment ==>
      SalutationText(fl, p, k) == SalutationText(fl', p', k)
    ensures k <= 0 && fl.insult == fl'.insult && p.insult == p'.insult ==>
      SalutationText(fl, p, k) == SalutationText(fl', p', k)
  {
  }

  /** The salutation depends on the sign of k alone. */
  lemma SalutationBySign(fl: Flavor, p: Picks, k: int, k': int)
    requires Ready(fl, p)
    requires (k > 0 <==> k' > 0) && (k < 0 <==> k' < 0)
    ensures SalutationText(fl, p, k) == SalutationText(fl, p, k')
  {
  }
}
