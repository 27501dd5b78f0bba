/**
 * The earliest revision of the processor, `KdbProcessor`: three keywords
 * (`help`, `me`, `++`), an amount that is used as given (negative amounts
 * included), and a karma table whose calls cannot fail. Its `++` checks the
 * resolved id against the caller but credits the target token as typed.
 */
module KdbKarma {
  import opened Results
  import opened Text
  import opened Slack
  import opened KarmaStore
  import SqliteKarma
  import OldSlack

  // ---------------------------------------------------------------------
  // The karma table

  /** A user's total in the table: 0 when the user has no row. */
  function Total(m: map<UserKey, int>, team: string, user: string): int {
    var key := UserKey(team, user);
    if key in m then m[key] else 0
  }

  /** The table after `UpdateKarma(team, user, delta)`: that one total moves by delta. */
  function Credit(m: map<UserKey, int>, team: string, user: string, delta: int): (m': map<UserKey, int>)
    ensures Total(m', team, user) == Total(m, team, user) + delta
    ensures forall t, u :: (t, u) != (team, user) ==> Total(m', t, u) == Total(m, t, u)
  {
    m[UserKey(team, user) := Total(m, team, user) + delta]
  }

  /** `KarmaDB`: reads answer the stored total, updates add to it and answer the new total. */
  class KarmaDB {
    var karma: map<UserKey, int>

    constructor (karma: map<UserKey, int>)
      ensures this.karma == karma
    {
      this.karma := karma;
    }

    /** `GetKarma(team, user)`. */
    method GetKarma(team: string, user: string) returns (k: int)
      ensures k == Total(karma, team, user)
    {
      var key := UserKey(team, user);
      k := if key in karma then karma[key] else 0;
    }

    /** `UpdateKarma(team, user, delta)`. */
    method UpdateKarma(team: string, user: string, delta: int) returns (k: int)
      modifies this
      ensures karma == Credit(old(karma), team, user, delta)
      ensures k == Total(karma, team, user)
    {
      var key := UserKey(team, user);
      k := (if key in karma then karma[key] else 0) + delta;
      karma := karma[key := k];
    }
  }

  // ---------------------------------------------------------------------
  // Texts

  const MsgNeedTarget: string := "I need to know whose karma to update.\n\"/karma ++ @name\""
  const MsgNotAUser: string := "I'm not sure that id a valid slack user.\n\"/karma ++ @name\""
  const MsgWeasel: string := "Don't be a weasel. For Shame!"
  const MsgWaste: string := "Don't waste my time. For shame!"

  /** The help text: a raw string that opens with a line break and indents its lines with a tab. */
  const HelpText: string :=
    "\n\t*Help* This will provide you with additional information on how to work with Karma.\n"
    + "\tme - This will return your current karma.\n"
    + "\t++ - Give it a user and it will increase their karma. Optionally, pass a number as well. /karma ++ @name 5\n"
    + "\thelp - this helpful dialogue. You're welcome!\n"
    + "\t"

  function HelpResponse(): (r: Response)
    ensures r.responseType == Ephemeral && r.text == HelpText && r.attachments == []
  {
    ErrorResponse(HelpText)
  }

  /**
   * `status(userID, k)`: a channel response that names the user as given,
   * without mention markup, and puts the compliment or insult on a line of its own.
   */
  function Status(id: string, k: int, sy: SqliteKarma.Sayings): (r: Response)
    ensures r.responseType == InChannel && r.attachments == []
  {
    if k > 0 then
      ChannelResponse(Interpolate(id + " has ", k, " karma." + " Have a compliment." + ("\n" + sy.compliment)))
    else if k == 0 then
      ChannelResponse(Interpolate(id + " has ", k, " karma." + " Today is a good day, be well"))
    else
      ChannelResponse(Interpolate(id + " have ", k, " karma." + " Be a better person or I will insult you again." + ("\n" + sy.insult)))
  }

  /** The parts of a status text: the sign-dependent opening, the total, and a tail that starts with a space. */
  lemma StatusShape(id: string, k: int, sy: SqliteKarma.Sayings) returns (p: string, x: string)
    ensures p == id + (if k < 0 then " have " else " has ")
    ensures Status(id, k, sy).text == Interpolate(p, k, x)
    ensures |x| > 0 && x[0] == ' '
  {
    p := id + (if k < 0 then " have " else " has ");
    if k > 0 {
      x := " karma." + " Have a compliment." + ("\n" + sy.compliment);
    } else if k == 0 {
      x := " karma." + " Today is a good day, be well";
    } else {
      x := " karma." + " Be a better person or I will insult you again." + ("\n" + sy.insult);
    }
    assert x[0] == " karma."[0] == ' ';
  }

  /** The status text opens with the user as given and says "have" exactly for negative karma. */
  lemma StatusWording(id: string, k: int, sy: SqliteKarma.Sayings)
    ensures |Status(id, k, sy).text| > |id| + 3
    ensures Status(id, k, sy).text[..|id|] == id
    ensures Status(id, k, sy).text[|id| + 3] == 'v' <==> k < 0
  {
    var p, x := StatusShape(id, k, sy);
    PlainOpening(id, k, x);
  }

  /** The opening of a status text, whatever follows the total. */
  lemma PlainOpening(id: string, k: int, x: string)
    ensures var t := Interpolate(id + (if k < 0 then " have " else " has "), k, x);
      |t| > |id| + 3 && t[..|id|] == id && (t[|id| + 3] == 'v' <==> k < 0)
  {
    var p := id + (if k < 0 then " have " else " has ");
    var t := Interpolate(p, k, x);
    assert t[..|p|] == p;
    assert p[..|id|] == id;
    assert t[..|id|] == t[..|p|][..|id|];
    assert t[|id| + 3] == p[|id| + 3];
  }

  /** A positive total ends the text with the compliment, a negative one with the insult, each on a line of its own. */
  lemma StatusSaying(id: string, k: int, sy: SqliteKarma.Sayings)
    ensures k > 0 ==> EndsWith(Status(id, k, sy).text, "\n" + sy.compliment)
    ensures k < 0 ==> EndsWith(Status(id, k, sy).text, "\n" + sy.insult)
  {
    var t := Status(id, k, sy).text;
    if k > 0 {
      var x := " karma." + " Have a compliment.";
      assert t == Interpolate(id + " has ", k, x + ("\n" + sy.compliment));
      InterpolateEndsWith(id + " has ", k, x, "\n" + sy.compliment);
    } else if k < 0 {
      var x := " karma." + " Be a better person or I will insult you again.";
      assert t == Interpolate(id + " have ", k, x + ("\n" + sy.insult));
      InterpolateEndsWith(id + " have ", k, x, "\n" + sy.insult);
    }
  }

  /** For fixed sayings, the status text determines the total. */
  lemma StatusDeterminesTotal(id: string, k: int, k': int, sy: SqliteKarma.Sayings)
    requires Status(id, k, sy).text == Status(id, k', sy).text
    ensures k == k'
  {
    StatusWording(id, k, sy);
    StatusWording(id, k', sy);
    var p, x := StatusShape(id, k, sy);
    var p', x' := StatusShape(id, k', sy);
    assert (k < 0) == (k' < 0);
    InterpolateInjective(p, k, x, k', x');
  }

  // ---------------------------------------------------------------------
  // What the processor answers

  /** A reply and the table after it. */
  datatype KdbOutcome = KdbOutcome(reply: Response, karma: map<UserKey, int>)

  /** The amount of a `++`: the third word's value when it is a decimal, else 1, sign kept. */
  function Amount(words: seq<string>): (d: int)
    ensures |words| > 2 && Atoi(words[2]).Some? ==> d == Atoi(words[2]).value
    ensures !(|words| > 2 && Atoi(words[2]).Some?) ==> d == 1
  {
    if |words| > 2 && Atoi(words[2]).Some? then Atoi(words[2]).value else 1
  }

  /** `delta(team, user, n)`: refuses 0, otherwise credits n to user and reports the new total. */
  function DeltaOutcome(m: map<UserKey, int>, team: string, user: string, n: int, sy: SqliteKarma.Sayings): KdbOutcome {
    if n == 0 then KdbOutcome(ErrorResponse(MsgWaste), m)
    else
      var m' := Credit(m, team, user, n);
      KdbOutcome(Status(user, Total(m', team, user), sy), m')
  }

  /** The `++` case: a target that resolves to someone other than the caller is credited, as typed. */
  function AddOutcome(m: map<UserKey, int>, c: CommandData, words: seq<string>, sy: SqliteKarma.Sayings): KdbOutcome {
    if |words| < 2 then KdbOutcome(ErrorResponse(MsgNeedTarget), m)
    else
      match OldSlack.IsSlackUser(words[1])
      case None => KdbOutcome(ErrorResponse(MsgNotAUser), m)
      case Some(t) =>
        if t == c.userId then KdbOutcome(ErrorResponse(MsgWeasel), m)
        else DeltaOutcome(m, c.teamId, words[1], Amount(words), sy)
  }

  /** `Process`. */
  function ProcessOutcome(m: map<UserKey, int>, c: CommandData, sy: SqliteKarma.Sayings): KdbOutcome {
    var words := Fields(c.text);
    if |c.text| == 0 || |words| == 0 then KdbOutcome(HelpResponse(), m)
    else if words[0] == "help" then KdbOutcome(HelpResponse(), m)
    else if words[0] == "me" then KdbOutcome(Status(c.userId, Total(m, c.teamId, c.userId), sy), m)
    else if words[0] == "++" then AddOutcome(m, c, words, sy)
    else KdbOutcome(HelpResponse(), m)
  }

  // ---------------------------------------------------------------------
  // Properties

  /** Text without words gets the help and leaves the table alone. */
  lemma BlankTextGetsHelp(m: map<UserKey, int>, c: CommandData, sy: SqliteKarma.Sayings)
    requires AllSpace(c.text)
    ensures ProcessOutcome(m, c, sy) == KdbOutcome(HelpResponse(), m)
  {
  }

  /** Only `help`, `me` and `++` are recognised: `status`, `--`, `top` and anything else get the help. */
  lemma OnlyThreeKeywords(m: map<UserKey, int>, c: CommandData, sy: SqliteKarma.Sayings)
    requires |Fields(c.text)| > 0 && Fields(c.text)[0] !in {"me", "++"}
    ensures ProcessOutcome(m, c, sy) == KdbOutcome(HelpResponse(), m)
  {
  }

  /** `me` reports the caller's own total and writes nothing. */
  lemma MeReportsOwnTotal(m: map<UserKey, int>, c: CommandData, sy: SqliteKarma.Sayings)
    requires |Fields(c.text)| > 0 && Fields(c.text)[0] == "me"
    ensures ProcessOutcome(m, c, sy) == KdbOutcome(Status(c.userId, Total(m, c.teamId, c.userId), sy), m)
  {
  }

  /**
   * Only `++` writes: its target must resolve to a user other than the caller
   * and the amount must be non-zero, and then exactly the total kept under
   * the target token, as typed, moves by the amount.
   */
  lemma OnlyAddWrites(m: map<UserKey, int>, c: CommandData, sy: SqliteKarma.Sayings)
    requires ProcessOutcome(m, c, sy).karma != m
    ensures var words := Fields(c.text);
      && |words| > 1 && words[0] == "++"
      && OldSlack.IsSlackUser(words[1]).Some? && OldSlack.IsSlackUser(words[1]).value != c.userId
      && Amount(words) != 0
      && ProcessOutcome(m, c, sy).karma == Credit(m, c.teamId, words[1], Amount(words))
  {
  }

  /**
   * The amount is used as given: `++ @u -3` takes 3 away, and the reply
   * restates the total now kept under the target token.
   */
  lemma AmountUsedAsGiven(m: map<UserKey, int>, c: CommandData, sy: SqliteKarma.Sayings, n: int)
    requires |Fields(c.text)| > 2 && Fields(c.text)[0] == "++"
    requires OldSlack.IsSlackUser(Fields(c.text)[1]).Some? && OldSlack.IsSlackUser(Fields(c.text)[1]).value != c.userId
    requires Atoi(Fields(c.text)[2]) == Some(n) && n != 0
    ensures var o := ProcessOutcome(m, c, sy); var target := Fields(c.text)[1];
      && Total(o.karma, c.teamId, target) == Total(m, c.teamId, target) + n
      && (n < 0 ==> Total(o.karma, c.teamId, target) < Total(m, c.teamId, target))
      && o.reply == Status(target, Total(o.karma, c.teamId, target), sy)
  {
    var words := Fields(c.text);
    assert ProcessOutcome(m, c, sy) == AddOutcome(m, c, words, sy);
    assert AddOutcome(m, c, words, sy) == DeltaOutcome(m, c.teamId, words[1], n, sy);
  }

  /** `++ @u 0` is refused without a write. */
  lemma ZeroAmountRefused(m: map<UserKey, int>, c: CommandData, sy: SqliteKarma.Sayings)
    requires |Fields(c.text)| > 2 && Fields(c.text)[0] == "++"
    requires OldSlack.IsSlackUser(Fields(c.text)[1]).Some? && OldSlack.IsSlackUser(Fields(c.text)[1]).value != c.userId
    requires Atoi(Fields(c.text)[2]) == Some(0)
    ensures ProcessOutcome(m, c, sy) == KdbOutcome(ErrorResponse(MsgWaste), m)
  {
  }

  /** The self-target check compares the resolved id, so a mention of oneself is caught too. */
  lemma SelfTargetRefused(m: map<UserKey, int>, c: CommandData, sy: SqliteKarma.Sayings)
    requires |Fields(c.text)| > 1 && Fields(c.text)[0] == "++"
    requires OldSlack.IsSlackUser(Fields(c.text)[1]) == Some(c.userId)
    ensures ProcessOutcome(m, c, sy) == KdbOutcome(ErrorResponse(MsgWeasel), m)
  {
  }

  /**
   * `++ <@id> ...` passes the checks on the resolved id, but the credit lands
   * on the row keyed by the mention `<@id>` itself: the total that `me`
   * reports for id does not move.
   */
  lemma MentionCreditsRawToken(m: map<UserKey, int>, c: CommandData, sy: SqliteKarma.Sayings, id: string)
    requires |Fields(c.text)| > 1 && Fields(c.text)[0] == "++"
    requires IsCanonicalId(id) && Fields(c.text)[1] == Mention(id) && id != c.userId
    requires Amount(Fields(c.text)) != 0
    ensures var o := ProcessOutcome(m, c, sy);
      && Total(o.karma, c.teamId, Mention(id)) == Total(m, c.teamId, Mention(id)) + Amount(Fields(c.text))
      && Total(o.karma, c.teamId, id) == Total(m, c.teamId, id)
  {
    var words := Fields(c.text);
    OldSlack.MentionRoundTrip(id);
    assert |Mention(id)| == |id| + 3;
    assert ProcessOutcome(m, c, sy) == AddOutcome(m, c, words, sy);
    assert AddOutcome(m, c, words, sy) == DeltaOutcome(m, c.teamId, Mention(id), Amount(words), sy);
  }

  /**
   * `++ foo> n` from any caller with a non-empty id passes the self check,
   * since `foo>` resolves to the empty id, and the row keyed `foo>` moves by n.
   */
  lemma ClosedTokenCreditsToken(m: map<UserKey, int>, c: CommandData, sy: SqliteKarma.Sayings)
    requires |Fields(c.text)| > 1 && Fields(c.text)[0] == "++" && Fields(c.text)[1] == "foo>"
    requires c.userId != "" && Amount(Fields(c.text)) != 0
    ensures ProcessOutcome(m, c, sy).karma == Credit(m, c.teamId, "foo>", Amount(Fields(c.text)))
  {
    OldSlack.ClosedTokenExample("foo>");
  }

  // ---------------------------------------------------------------------
  // The processor

  /** `KdbProcessor`. */
  class KdbProcessor {
    const kdb: KarmaDB

    /** `NewKdbProcessor(kdb)`. */
    constructor (kdb: KarmaDB)
      ensures this.kdb == kdb
    {
      this.kdb := kdb;
    }

    method Help() returns (r: Response)
      ensures r == HelpResponse()
    {
      r := HelpResponse();
    }

    /** `me`: reads one total and writes nothing. */
    method Me(team: string, user: string, sy: SqliteKarma.Sayings) returns (r: Response)
      ensures r == Status(user, Total(kdb.karma, team, user), sy)
    {
      var k := kdb.GetKarma(team, user);
      r := Status(user, k, sy);
    }

    /** `delta`: refuses 0, else one update. */
    method Delta(team: string, user: string, n: int, sy: SqliteKarma.Sayings) returns (r: Response)
      modifies kdb
      ensures KdbOutcome(r, kdb.karma) == DeltaOutcome(old(kdb.karma), team, user, n, sy)
    {
      if n == 0 {
        return ErrorResponse(MsgWaste);
      }
      var k := kdb.UpdateKarma(team, user, n);
      r := Status(user, k, sy);
    }

    /** `Process`. */
    method Process(c: CommandData, sy: SqliteKarma.Sayings) returns (r: Response)
      modifies kdb
      ensures KdbOutcome(r, kdb.karma) == ProcessOutcome(old(kdb.karma), c, sy)
    {
      if |c.text| == 0 {
        r := Help();
        return;
      }
      var words := Fields(c.text);
      if |words| == 0 {
        r := Help();
        return;
      }
      if words[0] == "help" {
        r := Help();
      } else if words[0] == "me" {
        r := Me(c.teamId, c.userId, sy);
      } else if words[0] == "++" {
        if |words| == 1 {
          return ErrorResponse(MsgNeedTarget);
        }
        var target := words[1];
        var t := OldSlack.IsSlackUser(target);
        if t.None? {
          return ErrorResponse(MsgNotAUser);
        }
        if t.value == c.userId {
          return ErrorResponse(MsgWeasel);
        }
        var delta := 1;
        if |words| > 2 {
          var d := Atoi(words[2]);
          if d.Some? {
            delta := d.value;
          }
        }
        r := Delta(c.teamId, target, delta, sy);
      } else {
        r := Help();
      }
    }
  }
}
