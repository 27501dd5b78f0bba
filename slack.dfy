/**
 * Slack slash-command payloads, the response factories, and the resolver
 * that turns a user token into a canonical Slack user id.
 */
module Slack {
  import opened Results

  /** The payload of one slash command. */
  datatype CommandData = CommandData(
    command: string,
    text: string,
    responseUrl: string,
    enterpriseId: string,
    teamId: string,
    channelId: string,
    userId: string)

  /** Tabular data inside an attachment. */
  datatype Field = Field(title: string, value: string, short: bool)

  /** One secondary block of a response. */
  datatype Attachment = Attachment(
    fallback: string,
    pretext: string,
    title: string,
    titleLink: string,
    text: string,
    fields: seq<Field>)

  /**
   * A slash-command response. A nil attachment slice and an empty one are both
   * the empty sequence: they serialise identically.
   */
  datatype Response = Response(responseType: string, text: string, attachments: seq<Attachment>)

  const InChannel: string := "in_channel"
  const Ephemeral: string := "ephemeral"

  /** `NewAttachments`: nothing for the empty string, else one block carrying the text. */
  function NewAttachments(s: string): (a: seq<Attachment>)
    ensures s == "" <==> a == []
    ensures s != "" ==> |a| == 1 && a[0] == Attachment("", "", "", "", s, [])
  {
    if s == "" then [] else [Attachment("", "", "", "", s, [])]
  }

  /** A response shown to the whole channel, without attachments. */
  function ChannelResponse(msg: string): (r: Response)
    ensures r.responseType == InChannel && r.text == msg && r.attachments == []
  {
    Response(InChannel, msg, [])
  }

  /** A response shown to the whole channel, with `att` as its attachment (if any). */
  function ChannelAttachmentsResponse(msg: string, att: string): (r: Response)
    ensures r.responseType == InChannel && r.text == msg
    ensures r.attachments == NewAttachments(att)
  {
    Response(InChannel, msg, NewAttachments(att))
  }

  /** A response shown only to the caller, with `att` as its attachment (if any). */
  function DirectResponse(msg: string, att: string): (r: Response)
    ensures r.responseType == Ephemeral && r.text == msg
    ensures r.attachments == NewAttachments(att)
  {
    Response(Ephemeral, msg, NewAttachments(att))
  }

  /** A response shown only to the caller, without attachments. */
  function ErrorResponse(msg: string): (r: Response)
    ensures r.responseType == Ephemeral && r.text == msg && r.attachments == []
  {
    Response(Ephemeral, msg, [])
  }

  /** A direct response without attachment text is the error response. */
  lemma DirectWithoutAttachment(msg: string)
    ensures DirectResponse(msg, "") == ErrorResponse(msg)
    ensures DirectResponse(msg, "") != ChannelAttachmentsResponse(msg, "")
  {
  }

  // ---------------------------------------------------------------------
  // IsSlackUser: the patterns `U[A-Z0-9]+` and `<@(U[A-Z0-9]+).*>`

  predicate IdChar(c: char) {
    'A' <= c <= 'Z' || '0' <= c <= '9'
  }

  /** A canonical id: the whole string is `U[A-Z0-9]+`. */
  predicate IsCanonicalId(s: string) {
    |s| >= 2 && s[0] == 'U' && forall i :: 1 <= i < |s| ==> IdChar(s[i])
  }

  /** The unanchored pattern `U[A-Z0-9]+` occurs in s. */
  predicate HasCanonical(s: string) {
    exists i :: 0 <= i < |s| - 1 && s[i] == 'U' && IdChar(s[i + 1])
  }

  /**
   * s[i..j] matches `<@U[A-Z0-9]+.*>`; Go's `.` matches any character but a
   * newline.
   */
  predicate MentionSpan(s: string, i: nat, j: nat) {
    && i + 5 <= j <= |s|
    && s[i] == '<' && s[i + 1] == '@' && s[i + 2] == 'U' && IdChar(s[i + 3])
    && s[j - 1] == '>'
    && forall m :: i + 4 <= m < j ==> s[m] != '\n'
  }

  /** p holds a `>` that is on the same line as position k. */
  predicate CloseAt(s: string, k: nat, p: nat) {
    k <= p < |s| && s[p] == '>' && forall m :: k <= m < p ==> s[m] != '\n'
  }

  /** The last `>` at or after k and before the end of k's line, if any. */
  function LastClose(s: string, k: nat): (r: Option<nat>)
    requires k <= |s|
    ensures r.Some? ==> CloseAt(s, k, r.value)
    ensures forall p: nat :: CloseAt(s, k, p) ==> r.Some? && p <= r.value
    decreases |s| - k
  {
    if k == |s| || s[k] == '\n' then None
    else
      assert forall q: nat :: CloseAt(s, k, q) && q > k ==> CloseAt(s, k + 1, q);
      match LastClose(s, k + 1)
      case Some(p) => Some(p)
      case None => if s[k] == '>' then Some(k) else None
  }

  /**
   * End of the match of `<@(U[A-Z0-9]+).*>` that begins at i, if one does.
   * The greedy `.*` makes it the longest such match.
   */
  function MentionEnd(s: string, i: nat): (r: Option<nat>)
    requires i <= |s|
    ensures r.Some? ==> MentionSpan(s, i, r.value)
    ensures forall j: nat :: MentionSpan(s, i, j) ==> r.Some? && j <= r.value
  {
    if i + 4 <= |s| && s[i] == '<' && s[i + 1] == '@' && s[i + 2] == 'U' && IdChar(s[i + 3]) then
      assert forall j: nat :: MentionSpan(s, i, j) ==> CloseAt(s, i + 4, j - 1);
      match LastClose(s, i + 4)
      case Some(p) => Some(p + 1)
      case None => None
    else None
  }

  /** End of the maximal run of id characters that starts at k. */
  function RunEnd(s: string, k: nat): (e: nat)
    requires k <= |s|
    ensures k <= e <= |s|
    ensures forall m :: k <= m < e ==> IdChar(s[m])
    ensures e == |s| || !IdChar(s[e])
    decreases |s| - k
  {
    if k == |s| || !IdChar(s[k]) then k else RunEnd(s, k + 1)
  }

  /** `escaped.MatchString`: somewhere in s a decorated mention begins. */
  predicate HasMention(s: string) {
    exists i :: 0 <= i <= |s| && MentionEnd(s, i).Some?
  }

  /**
   * `escaped.ReplaceAllString(s, "$1")`: scanning left to right, each match is
   * replaced by its captured id (the greedy `U[A-Z0-9]+`) and the scan goes on
   * after the match.
   */
  function ReplaceMentions(s: string): string
    decreases |s|
  {
    if s == [] then []
    else
      match MentionEnd(s, 0)
      case Some(e) => s[2..RunEnd(s, 3)] + ReplaceMentions(s[e..])
      case None => [s[0]] + ReplaceMentions(s[1..])
  }

  /**
   * `IsSlackUser`: a token holding a decorated mention resolves to the token with
   * every mention replaced by its id; otherwise a token holding `U[A-Z0-9]+`
   * resolves to itself; anything else is not a user.
   */
  function IsSlackUser(s: string): (r: Option<string>)
    ensures r.Some? <==> HasCanonical(s)
    ensures HasMention(s) ==> r == Some(ReplaceMentions(s))
    ensures !HasMention(s) && HasCanonical(s) ==> r == Some(s)
  {
    if HasMention(s) then
      MentionHasCanonical(s);
      Some(ReplaceMentions(s))
    else if HasCanonical(s) then Some(s)
    else None
  }

  lemma MentionHasCanonical(s: string)
    requires HasMention(s)
    ensures HasCanonical(s)
  {
    var i :| 0 <= i <= |s| && MentionEnd(s, i).Some?;
    assert s[i + 2] == 'U' && IdChar(s[i + 3]);
  }

  /** The decorated-mention test agrees with the pattern read as a set of spans. */
  lemma HasMentionSpans(s: string)
    ensures HasMention(s) <==> exists i: nat, j: nat :: MentionSpan(s, i, j)
  {
    if HasMention(s) {
      var i :| 0 <= i <= |s| && MentionEnd(s, i).Some?;
      assert MentionSpan(s, i, MentionEnd(s, i).value);
    }
    if exists i: nat, j: nat :: MentionSpan(s, i, j) {
      var i: nat, j: nat :| MentionSpan(s, i, j);
      assert MentionEnd(s, i).Some?;
    }
  }

  /** `<@%s>`: how messages mention a user. */
  function Mention(id: string): string {
    "<@" + id + ">"
  }

  /** A canonical id resolves to itself, so resolving is idempotent on canonical ids. */
  lemma CanonicalResolvesToItself(id: string)
    requires IsCanonicalId(id)
    ensures IsSlackUser(id) == Some(id)
    ensures IsSlackUser(IsSlackUser(id).value) == IsSlackUser(id)
  {
    assert id[0] == 'U' && IdChar(id[1]);
  }

  /**
   * A decorated mention `<@` id display `>` resolves to the id, whatever
   * display text (without a newline, not continuing the id) follows it.
   */
  lemma MentionResolves(id: string, display: string)
    requires IsCanonicalId(id)
    requires forall m :: 0 <= m < |display| ==> display[m] != '\n'
    requires display == [] || !IdChar(display[0])
    ensures IsSlackUser("<@" + id + display + ">") == Some(id)
  {
    var s := "<@" + id + display + ">";
    var n := |s|;
    assert s[2..2 + |id|] == id;
    assert forall m :: 2 <= m < 2 + |id| ==> s[m] == id[m - 2];
    assert s[2 + |id|] == if display == [] then '>' else display[0];
    assert MentionSpan(s, 0, n) by {
      assert s[3] == id[1];
      forall m | 4 <= m < n ensures s[m] != '\n' {
        if m < 2 + |id| {
          assert s[m] == id[m - 2];
        } else if m < n - 1 {
          assert s[m] == display[m - 2 - |id|];
        }
      }
    }
    assert MentionEnd(s, 0) == Some(n);
    var e := RunEnd(s, 3);
    assert e == 2 + |id|;
    assert s[n..] == [];
    assert ReplaceMentions(s) == s[2..e];
  }

  /** The mention that messages write resolves back to the id it mentions. */
  lemma MentionRoundTrip(id: string)
    requires IsCanonicalId(id)
    ensures IsSlackUser(Mention(id)) == Some(id)
    ensures IsSlackUser(IsSlackUser(Mention(id)).value) == IsSlackUser(Mention(id))
  {
    MentionResolves(id, "");
    assert "<@" + id + "" + ">" == Mention(id);
    CanonicalResolvesToItself(id);
  }

  /** A token without a capital U is not a user. */
  lemma NoUNotAUser(s: string)
    requires forall i :: 0 <= i < |s| ==> s[i] != 'U'
    ensures IsSlackUser(s) == None
  {
  }

  /** `<@USER>` is the mention of the canonical id `USER`. */
  lemma MentionExample()
    ensures IsCanonicalId("USER") && Mention("USER") == "<@USER>"
  {
  }

  lemma DecoratedExample()
    ensures IsSlackUser("<@UAWQFTRT7|roland.kluge>") == Some("UAWQFTRT7")
  {
    var id, display := "UAWQFTRT7", "|roland.kluge";
    assert IsCanonicalId(id);
    assert forall m :: 0 <= m < |display| ==> display[m] != '\n';
    assert "<@UAWQFTRT7|roland.kluge>" == "<@" + id + display + ">";
    MentionResolves(id, display);
  }

  /** `<@U12345>` and the bare `U12345` both name the user U12345. */
  lemma BareExamples(id: string, m: string)
    requires id == "U12345" && m == "<@U12345>"
    ensures IsSlackUser(m) == Some(id)
    ensures IsSlackUser(id) == Some(id)
  {
    assert IsCanonicalId(id);
    MentionRoundTrip(id);
    assert Mention(id) == m;
    CanonicalResolvesToItself(id);
  }

  /** Plain names are not users. */
  lemma RejectedExamples(name: string)
    requires name == "simon" || name == "yikes"
    ensures IsSlackUser(name) == None
  {
    NoUNotAUser(name);
  }
}
