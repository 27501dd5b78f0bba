/**
 * The earlier revision of the processor, `SQLiteProcessor`: four keywords
 * (`help`, `me`, `status`, `++`), no aliases, no daily limit, and status
 * texts that carry the compliment or insult inline. The store is the same
 * fallible karma table as in the current revision; only `GetKarma` and
 * `UpdateKarma` are used.
 */
module SqliteKarma {
  import opened Results
  import opened Text
  import opened Slack
  import opened KarmaStore
  import opened KarmaMessages
  import Karma
  import OldSlack

  /** What `shakespeare.Compliment()` and `shakespeare.Insult()` return during one request. */
  datatype Sayings = Sayings(compliment: string, insult: string)

  const MsgNeedTarget: string := "I need to know whose karma to update.\n`/karma ++ @name`"
  const MsgNotAUser: string := "I'm not sure that id a valid slack user.\n`/karma ++ @name`"
  const MsgWeasel: string := "Don't be a weasel. For Shame!"
  const MsgWaste: string := "Don't waste my time. For shame!"

  /** The help text: a raw string that opens with a line break and indents its lines with a tab. */
  const HelpText: string :=
    "\n\t*Help* This will provide you with additional information on how to work with Karma.\n"
    + "\t* _me_ This will return your current karma.\n"
    + "\t* _status_ Provide a user, and it will return their current karma\n"
    + "\t* _++_ Provide a user and it will increase their karma. Optionally, pass a quantity of karma to give.\n"
    + "\t* _help_ this helpful dialogue. You're welcome!\n"
    + "\t"

  function HelpResponse(): (r: Response)
    ensures r.responseType == Ephemeral && r.text == HelpText && r.attachments == []
  {
    ErrorResponse(HelpText)
  }

  // ---------------------------------------------------------------------
  // Status texts

  function HasPrefix(id: string): string {
    "<@" + id + "> has "
  }

  function HavePrefix(id: string): string {
    "<@" + id + "> have "
  }

  /** `_%s_`: Slack's markup for italics. */
  function Italic(s: string): string {
    "_" + s + "_"
  }

  /**
   * `karmaStatus(userID, k)` of the processor: a channel response whose
   * wording depends on the sign of k, with the compliment or insult inline.
   */
  function KarmaStatus(id: string, k: int, sy: Sayings): (r: Response)
    ensures r.responseType == InChannel && r.attachments == []
  {
    if k > 0 then
      ChannelResponse(Interpolate(HasPrefix(id), k, " karma." + " Have a compliment.\n" + Italic(sy.compliment)))
    else if k == 0 then
      ChannelResponse(Interpolate(HasPrefix(id), k, " karma." + " Today is a good day to do some good"))
    else
      ChannelResponse(Interpolate(HavePrefix(id), k, " karma." + " Be a better person or I will insult you again.\n" + Italic(sy.insult)))
  }

  /** The parts of a status text: the sign-dependent opening, the total, and a tail that starts with a space. */
  lemma StatusShape(id: string, k: int, sy: Sayings) returns (p: string, x: string)
    ensures p == (if k < 0 then HavePrefix(id) else HasPrefix(id))
    ensures KarmaStatus(id, k, sy).text == Interpolate(p, k, x)
    ensures |x| > 0 && x[0] == ' '
  {
    p := if k < 0 then HavePrefix(id) else HasPrefix(id);
    if k > 0 {
      x := " karma." + " Have a compliment.\n" + Italic(sy.compliment);
    } else if k == 0 {
      x := " karma." + " Today is a good day to do some good";
    } else {
      x := " karma." + " Be a better person or I will insult you again.\n" + Italic(sy.insult);
    }
    assert x[0] == " karma."[0] == ' ';
  }

  /** The status text opens with the user's mention and says "have" exactly for negative karma. */
  lemma KarmaStatusWording(id: string, k: int, sy: Sayings)
    ensures |KarmaStatus(id, k, sy).text| > |id| + 6
    ensures KarmaStatus(id, k, sy).text[..|id| + 3] == Mention(id)
    ensures KarmaStatus(id, k, sy).text[|id| + 6] == 'v' <==> k < 0
  {
    var p, x := StatusShape(id, k, sy);
    MentionOpening(id, k, x);
  }

  /** The opening of a status text, whatever follows the total. */
  lemma MentionOpening(id: string, k: int, x: string)
    ensures var t := Interpolate(if k < 0 then HavePrefix(id) else HasPrefix(id), k, x);
      |t| > |id| + 6 && t[..|id| + 3] == Mention(id) && (t[|id| + 6] == 'v' <==> k < 0)
  {
    var p := if k < 0 then HavePrefix(id) else HasPrefix(id);
    var t := Interpolate(p, k, x);
    assert t[..|p|] == p;
    assert p[..|id| + 3] == Mention(id);
    assert t[..|id| + 3] == t[..|p|][..|id| + 3];
    assert t[|id| + 6] == p[|id| + 6];
  }

  /** A positive total ends the text with the compliment, a negative one with the insult, each in italics. */
  lemma KarmaStatusSaying(id: string, k: int, sy: Sayings)
    ensures k > 0 ==> EndsWith(KarmaStatus(id, k, sy).text, Italic(sy.compliment))
    ensures k < 0 ==> EndsWith(KarmaStatus(id, k, sy).text, Italic(sy.insult))
  {
    var t := KarmaStatus(id, k, sy).text;
    if k > 0 {
      var x := " karma." + " Have a compliment.\n";
      assert t == Interpolate(HasPrefix(id), k, x + Italic(sy.compliment));
      InterpolateEndsWith(HasPrefix(id), k, x, Italic(sy.compliment));
    } else if k < 0 {
      var x := " karma." + " Be a better person or I will insult you again.\n";
      assert t == Interpolate(HavePrefix(id), k, x + Italic(sy.insult));
      InterpolateEndsWith(HavePrefix(id), k, x, Italic(sy.insult));
    }
  }

  /** For fixed sayings, the status text determines the total. */
  lemma KarmaStatusDeterminesTotal(id: string, k: int, k': int, sy: Sayings)
    requires KarmaStatus(id, k, sy).text == KarmaStatus(id, k', sy).text
    ensures k == k'
  {
    KarmaStatusWording(id, k, sy);
    KarmaStatusWording(id, k', sy);
    var p, x := StatusShape(id, k, sy);
    var p', x' := StatusShape(id, k', sy);
    assert (k < 0) == (k' < 0);
    InterpolateInjective(p, k, x, k', x');
  }

  /** The builder helper `karmaStatus(userID, k, sb)`: appends `<@id> has k karma.`. */
  method WriteKarmaStatus(id: string, k: int, sb: Builder)
    modifies sb
    ensures sb.buf == old(sb.buf) + StatusLine(id, k)
  {
    sb.WriteString(HasPrefix(id) + Itoa(k) + " karma.");
  }

  /** What `karmaSalutation(k, sb)` appends. */
  function SalutationWords(k: int, sy: Sayings): (s: string)
    ensures k > 0 ==> s == sy.compliment
    ensures k == 0 ==> s == ""
    ensures k < 0 ==> s == sy.insult
  {
    if k > 0 then sy.compliment else if k == 0 then "" else sy.insult
  }

  /** `karmaSalutation(k, sb)`: a compliment when positive, nothing when zero, an insult when negative. */
  method KarmaSalutation(k: int, sb: Builder, sy: Sayings)
    modifies sb
    ensures sb.buf == old(sb.buf) + SalutationWords(k, sy)
  {
    if k > 0 {
      sb.WriteString(sy.compliment);
      return;
    }
    if k == 0 {
      return;
    }
    sb.WriteString(sy.insult);
  }

  // ---------------------------------------------------------------------
  // What the processor answers

  /** `me(team, user)`. */
  function MeReply(s: StoreState, team: string, user: string, sy: Sayings): Result<Response, StoreOp> {
    if GetKarmaOp in s.down then Err(GetKarmaOp) else Ok(KarmaStatus(user, KarmaOf(s, team, user), sy))
  }

  /** `delta(team, user, n)`. */
  function DeltaOutcome(s: StoreState, team: string, user: string, n: int, sy: Sayings): Karma.Outcome {
    if UpdateKarmaOp in s.down then Karma.Outcome(Err(UpdateKarmaOp), s)
    else
      var s1 := AddKarma(s, team, user, n);
      Karma.Outcome(Ok(KarmaStatus(user, KarmaOf(s1, team, user), sy)), s1)
  }

  /** The amount of a `++`: the magnitude of the third word when it is a decimal, else 1. */
  function Amount(words: seq<string>): (d: int)
    ensures d >= 0
    ensures |words| > 2 && Atoi(words[2]).Some? ==> d == Karma.Abs(Atoi(words[2]).value)
    ensures !(|words| > 2 && Atoi(words[2]).Some?) ==> d == 1
  {
    if |words| > 2 && Atoi(words[2]).Some? then Karma.Abs(Atoi(words[2]).value) else 1
  }

  /** The `status` case: the total of the user the second word names. */
  function StatusOutcome(s: StoreState, c: CommandData, words: seq<string>, sy: Sayings): Karma.Outcome {
    if |words| < 2 then Karma.Outcome(Ok(ErrorResponse(MsgNeedTarget)), s)
    else
      match OldSlack.IsSlackUser(words[1])
      case None => Karma.Outcome(Ok(ErrorResponse(MsgNotAUser)), s)
      case Some(t) => Karma.Outcome(MeReply(s, c.teamId, t, sy), s)
  }

  /** The `++` case: a non-zero amount for a user other than the caller. */
  function AddOutcome(s: StoreState, c: CommandData, words: seq<string>, sy: Sayings): Karma.Outcome {
    if |words| < 2 then Karma.Outcome(Ok(ErrorResponse(MsgNeedTarget)), s)
    else
      match OldSlack.IsSlackUser(words[1])
      case None => Karma.Outcome(Ok(ErrorResponse(MsgNotAUser)), s)
      case Some(t) =>
        if t == c.userId then Karma.Outcome(Ok(ErrorResponse(MsgWeasel)), s)
        else if Amount(words) == 0 then Karma.Outcome(Ok(ErrorResponse(MsgWaste)), s)
        else DeltaOutcome(s, c.teamId, t, Amount(words), sy)
  }

  /** `Process`. */
  function ProcessOutcome(s: StoreState, c: CommandData, sy: Sayings): Karma.Outcome {
    var words := Fields(c.text);
    if |c.text| == 0 || |words| == 0 then Karma.Outcome(Ok(HelpResponse()), s)
    else if words[0] == "help" then Karma.Outcome(Ok(HelpResponse()), s)
    else if words[0] == "me" then Karma.Outcome(MeReply(s, c.teamId, c.userId, sy), s)
    else if words[0] == "status" then StatusOutcome(s, c, words, sy)
    else if words[0] == "++" then AddOutcome(s, c, words, sy)
    else Karma.Outcome(Ok(HelpResponse()), s)
  }

  // ---------------------------------------------------------------------
  // Properties

  /** Text without words gets the help and leaves the store alone. */
  lemma BlankTextGetsHelp(s: StoreState, c: CommandData, sy: Sayings)
    requires AllSpace(c.text)
    ensures ProcessOutcome(s, c, sy) == Karma.Outcome(Ok(HelpResponse()), s)
  {
  }

  /** Only `help`, `me`, `status` and `++` are recognised: `--`, `top` and anything else get the help. */
  lemma OnlyFourKeywords(s: StoreState, c: CommandData, sy: Sayings)
    requires |Fields(c.text)| > 0 && Fields(c.text)[0] !in {"me", "status", "++"}
    ensures ProcessOutcome(s, c, sy) == Karma.Outcome(Ok(HelpResponse()), s)
  {
  }

  /** Only `++` writes, and only for a user other than the caller and a non-zero amount. */
  lemma OnlyAddWrites(s: StoreState, c: CommandData, sy: Sayings)
    requires ProcessOutcome(s, c, sy).state != s
    ensures var words := Fields(c.text);
      && |words| > 1 && words[0] == "++"
      && OldSlack.IsSlackUser(words[1]).Some? && OldSlack.IsSlackUser(words[1]).value != c.userId
      && Amount(words) > 0
      && ProcessOutcome(s, c, sy).state == AddKarma(s, c.teamId, OldSlack.IsSlackUser(words[1]).value, Amount(words))
  {
  }

  /**
   * `++ @u n` adds the magnitude of n, so `++ @u -3` gives 3, and the reply
   * restates the total the store now holds.
   */
  lemma AddUsesMagnitude(s: StoreState, c: CommandData, sy: Sayings, target: string, n: int)
    requires |Fields(c.text)| > 2 && Fields(c.text)[0] == "++"
    requires OldSlack.IsSlackUser(Fields(c.text)[1]) == Some(target) && target != c.userId
    requires Atoi(Fields(c.text)[2]) == Some(n) && n != 0
    requires UpdateKarmaOp !in s.down
    ensures var o := ProcessOutcome(s, c, sy);
      && KarmaOf(o.state, c.teamId, target) == KarmaOf(s, c.teamId, target) + Karma.Abs(n)
      && o.reply == Ok(KarmaStatus(target, KarmaOf(o.state, c.teamId, target), sy))
  {
    var words := Fields(c.text);
    assert ProcessOutcome(s, c, sy) == AddOutcome(s, c, words, sy);
    assert AddOutcome(s, c, words, sy) == DeltaOutcome(s, c.teamId, target, Karma.Abs(n), sy);
  }

  /** `++ @u 0` is refused without a write. */
  lemma ZeroAmountRefused(s: StoreState, c: CommandData, sy: Sayings)
    requires |Fields(c.text)| > 2 && Fields(c.text)[0] == "++"
    requires OldSlack.IsSlackUser(Fields(c.text)[1]).Some? && OldSlack.IsSlackUser(Fields(c.text)[1]).value != c.userId
    requires Atoi(Fields(c.text)[2]) == Some(0)
    ensures ProcessOutcome(s, c, sy) == Karma.Outcome(Ok(ErrorResponse(MsgWaste)), s)
  {
  }

  /** The self-target check compares the resolved id, so a decorated mention of oneself is caught too. */
  lemma SelfTargetRefused(s: StoreState, c: CommandData, sy: Sayings)
    requires |Fields(c.text)| > 1 && Fields(c.text)[0] == "++"
    requires OldSlack.IsSlackUser(Fields(c.text)[1]) == Some(c.userId)
    ensures ProcessOutcome(s, c, sy) == Karma.Outcome(Ok(ErrorResponse(MsgWeasel)), s)
  {
  }

  /**
   * With the earlier pattern every token holding `>` is a user: `++ foo> n`
   * passes the self check of any caller with a non-empty id and credits the
   * empty id.
   */
  lemma ClosedTokenCreditsEmpty(s: StoreState, c: CommandData, sy: Sayings)
    requires |Fields(c.text)| > 1 && Fields(c.text)[0] == "++" && Fields(c.text)[1] == "foo>"
    requires c.userId != "" && Amount(Fields(c.text)) > 0 && UpdateKarmaOp !in s.down
    ensures ProcessOutcome(s, c, sy).state == AddKarma(s, c.teamId, "", Amount(Fields(c.text)))
  {
    var words := Fields(c.text);
    OldSlack.ClosedTokenExample("foo>");
    assert ProcessOutcome(s, c, sy) == AddOutcome(s, c, words, sy);
    assert AddOutcome(s, c, words, sy) == DeltaOutcome(s, c.teamId, "", Amount(words), sy);
  }

  /** `status x>` reports the total of the empty id. */
  lemma ClosedTokenStatus(s: StoreState, c: CommandData, sy: Sayings)
    requires |Fields(c.text)| > 1 && Fields(c.text)[0] == "status" && Fields(c.text)[1] == "x>"
    ensures ProcessOutcome(s, c, sy) == Karma.Outcome(MeReply(s, c.teamId, "", sy), s)
  {
    OldSlack.ClosedTokenResolvesToEmpty("x>");
  }

  // ---------------------------------------------------------------------
  // The processor

  /** `SQLiteProcessor`. */
  class SQLiteProcessor {
    const kdb: Store

    /** `NewProcessor(kdb)`. */
    constructor (kdb: Store)
      ensures this.kdb == kdb
    {
      this.kdb := kdb;
    }

    method Help() returns (r: Result<Response, StoreOp>)
      ensures r == Ok(HelpResponse())
    {
      r := Ok(HelpResponse());
    }

    /** `me`: reads one total and writes nothing. */
    method Me(team: string, user: string, sy: Sayings) returns (r: Result<Response, StoreOp>)
      ensures r == MeReply(kdb.State(), team, user, sy)
    {
      var k := kdb.GetKarma(team, user);
      if k.Err? {
        return Err(k.error);
      }
      r := Ok(KarmaStatus(user, k.value, sy));
    }

    /** `delta`: one write, whose failure propagates. */
    method Delta(team: string, user: string, n: int, sy: Sayings) returns (r: Result<Response, StoreOp>)
      modifies kdb
      ensures Karma.Outcome(r, kdb.State()) == DeltaOutcome(old(kdb.State()), team, user, n, sy)
    {
      var k := kdb.UpdateKarma(team, user, n);
      if k.Err? {
        return Err(k.error);
      }
      r := Ok(KarmaStatus(user, k.value, sy));
    }

    /** `Process`. */
    method Process(c: CommandData, sy: Sayings) returns (r: Result<Response, StoreOp>)
      modifies kdb
      ensures Karma.Outcome(r, kdb.State()) == ProcessOutcome(old(kdb.State()), c, sy)
    {
      if |c.text| == 0 {
        r := Help();
        return;
      }
      var words := Fields(c.text);
      if |words| == 0 {
        r := Help();
        return;
      }
      if words[0] == "help" {
        r := Help();
      } else if words[0] == "me" {
        r := Me(c.teamId, c.userId, sy);
      } else if words[0] == "status" {
        if |words| == 1 {
          return Ok(ErrorResponse(MsgNeedTarget));
        }
        var t := OldSlack.IsSlackUser(words[1]);
        if t.None? {
          return Ok(ErrorResponse(MsgNotAUser));
        }
        r := Me(c.teamId, t.value, sy);
      } else if words[0] == "++" {
        if |words| == 1 {
          return Ok(ErrorResponse(MsgNeedTarget));
        }
        var t := OldSlack.IsSlackUser(words[1]);
        if t.None? {
          return Ok(ErrorResponse(MsgNotAUser));
        }
        if t.value == c.userId {
          return Ok(ErrorResponse(MsgWeasel));
        }
        var delta := 1;
        if |words| > 2 {
          var d := Atoi(words[2]);
          if d.Some? {
            delta := Karma.Abs(d.value);
          }
        }
        if delta == 0 {
          return Ok(ErrorResponse(MsgWaste));
        }
        r := Delta(c.teamId, t.value, delta, sy);
      } else {
        r := Help();
      }
    }
  }
}
