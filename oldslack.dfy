/**
 * The user resolver of the two earlier revisions. Their decorated-mention
 * pattern is the alternation `<@(U[A-Z0-9]+)|.*>`: either `<@` and an id,
 * or any text up to a `>` on the same line. The second branch captures
 * nothing, so every `>` in a token makes it a match, and the replacement by
 * the empty capture removes the text up to that `>`.
 */
module OldSlack {
  import opened Results
  import opened Slack

  /** The first branch, `<@(U[A-Z0-9]+)`, matches at i. */
  predicate OpensMention(s: string, i: nat) {
    i + 4 <= |s| && s[i] == '<' && s[i + 1] == '@' && s[i + 2] == 'U' && IdChar(s[i + 3])
  }

  /**
   * The match of `<@(U[A-Z0-9]+)|.*>` that begins at i: its end and what it
   * captures. Go tries the branches in order, so the first one wins when both
   * match; its greedy `+` takes the whole run of id characters, and the greedy
   * `.*` of the second one runs to the last `>` of the line.
   */
  function MatchAt(s: string, i: nat): (r: Option<(nat, string)>)
    requires i <= |s|
    ensures r.Some? ==> i < r.value.0 <= |s|
    ensures OpensMention(s, i) ==> r.Some? && r.value == (RunEnd(s, i + 3), s[i + 2..RunEnd(s, i + 3)])
    ensures !OpensMention(s, i) ==>
      (r.Some? <==> LastClose(s, i).Some?) &&
      (r.Some? ==> r.value == (LastClose(s, i).value + 1, ""))
  {
    if OpensMention(s, i) then
      var e := RunEnd(s, i + 3);
      Some((e, s[i + 2..e]))
    else
      match LastClose(s, i)
      case Some(p) => Some((p + 1, ""))
      case None => None
  }

  /** `escaped.MatchString`: the pattern matches somewhere in s. */
  predicate HasMatch(s: string) {
    exists i :: 0 <= i <= |s| && MatchAt(s, i).Some?
  }

  /**
   * `escaped.ReplaceAllString(s, "$1")`: scanning left to right, each match is
   * replaced by what it captured, and the scan goes on after the match.
   */
  function ReplaceMatches(s: string): string
    decreases |s|
  {
    if s == [] then []
    else
      match MatchAt(s, 0)
      case Some((e, cap)) => cap + ReplaceMatches(s[e..])
      case None => [s[0]] + ReplaceMatches(s[1..])
  }

  /**
   * `IsSlackUser` of the earlier revisions: a token the alternation matches
   * resolves to the token with every match replaced by its capture; otherwise
   * a token holding `U[A-Z0-9]+` resolves to itself; anything else is not a user.
   */
  function IsSlackUser(s: string): (r: Option<string>)
    ensures r.Some? <==> HasCanonical(s) || '>' in s
    ensures HasMatch(s) ==> r == Some(ReplaceMatches(s))
    ensures !HasMatch(s) && HasCanonical(s) ==> r == Some(s)
  {
    MatchesExactly(s);
    if HasMatch(s) then Some(ReplaceMatches(s))
    else if HasCanonical(s) then Some(s)
    else None
  }

  /** The alternation matches exactly when a `>` occurs or `<@` opens an id. */
  lemma MatchesExactly(s: string)
    ensures HasMatch(s) <==> '>' in s || exists i: nat :: OpensMention(s, i)
  {
    if '>' in s {
      var p :| 0 <= p < |s| && s[p] == '>';
      assert CloseAt(s, p, p);
      assert MatchAt(s, p).Some?;
    }
    if exists i: nat :: OpensMention(s, i) {
      var i: nat :| OpensMention(s, i);
      assert MatchAt(s, i).Some?;
    }
    if HasMatch(s) {
      var i :| 0 <= i <= |s| && MatchAt(s, i).Some?;
      if !OpensMention(s, i) {
        var p := LastClose(s, i).value;
        assert s[p] == '>';
      }
    }
  }

  /**
   * A token that does not open with `<` and ends its only line with `>` is one
   * match of the second branch, so it resolves to the empty id.
   */
  lemma ClosedTokenResolvesToEmpty(s: string)
    requires |s| > 0 && s[0] != '<' && s[|s| - 1] == '>'
    requires forall m :: 0 <= m < |s| ==> s[m] != '\n'
    ensures IsSlackUser(s) == Some("")
  {
    assert CloseAt(s, 0, |s| - 1);
    assert MatchAt(s, 0) == Some((|s|, ""));
    assert s[|s|..] == [];
    assert ReplaceMatches(s) == "";
  }

  /** `foo>` is a user, and its id is empty. */
  lemma ClosedTokenExample(s: string)
    requires s == "foo>"
    ensures IsSlackUser(s) == Some("")
  {
    ClosedTokenResolvesToEmpty(s);
  }

  /**
   * A decorated mention `<@` id display `>` resolves to the id: the first
   * branch captures the id, and the second one removes the display text.
   */
  lemma MentionResolves(id: string, display: string)
    requires IsCanonicalId(id)
    requires forall m :: 0 <= m < |display| ==> display[m] != '\n'
    requires display == [] || (!IdChar(display[0]) && display[0] != '<')
    ensures IsSlackUser("<@" + id + display + ">") == Some(id)
  {
    var s := "<@" + id + display + ">";
    var k := 2 + |id|;
    assert forall m :: 2 <= m < k ==> s[m] == id[m - 2];
    assert s[3] == id[1];
    assert OpensMention(s, 0);
    assert s[k] == if display == [] then '>' else display[0];
    assert RunEnd(s, 3) == k;
    assert s[2..k] == id;
    var t := s[k..];
    assert t == display + ">";
    assert forall m :: 0 <= m < |t| - 1 ==> t[m] == display[m];
    TaggedToken(s, k);
  }

  /**
   * A token that opens a mention whose id runs to k, followed by one line
   * closed by `>`, resolves to the id.
   */
  lemma TaggedToken(s: string, k: nat)
    requires OpensMention(s, 0) && RunEnd(s, 3) == k && k < |s|
    requires s[|s| - 1] == '>' && !OpensMention(s, k)
    requires forall m :: k <= m < |s| - 1 ==> s[m] != '\n'
    ensures IsSlackUser(s) == Some(s[2..k])
  {
    var t := s[k..];
    assert forall m :: 0 <= m < |t| - 1 ==> t[m] == s[k + m];
    assert t[0] == s[k] && (|t| >= 4 ==> t[1] == s[k + 1] && t[2] == s[k + 2] && t[3] == s[k + 3]);
    ClosingTail(t);
    OpeningMatch(s);
    assert ReplaceMatches(s) == s[2..k] + ReplaceMatches(t) == s[2..k];
    assert HasMatch(s);
  }

  /** A match of the first branch at the front contributes its id, and the scan resumes after it. */
  lemma OpeningMatch(s: string)
    requires OpensMention(s, 0)
    ensures ReplaceMatches(s) == s[2..RunEnd(s, 3)] + ReplaceMatches(s[RunEnd(s, 3)..])
  {
  }

  /** A one-line text that ends with `>` and does not open a mention is removed whole. */
  lemma ClosingTail(t: string)
    requires |t| > 0 && t[|t| - 1] == '>' && !OpensMention(t, 0)
    requires forall m :: 0 <= m < |t| - 1 ==> t[m] != '\n'
    ensures ReplaceMatches(t) == ""
  {
    assert CloseAt(t, 0, |t| - 1);
    assert MatchAt(t, 0) == Some((|t|, ""));
    assert t[|t|..] == [];
  }

  /** The mention that messages write resolves back to its id here too. */
  lemma MentionRoundTrip(id: string)
    requires IsCanonicalId(id)
    ensures IsSlackUser(Mention(id)) == Some(id)
  {
    MentionResolves(id, "");
    assert "<@" + id + "" + ">" == Mention(id);
  }

  /** A bare canonical id holds no `>` and opens no mention, so it resolves to itself. */
  lemma CanonicalResolvesToItself(id: string)
    requires IsCanonicalId(id)
    ensures IsSlackUser(id) == Some(id)
  {
    assert id[0] == 'U' && IdChar(id[1]);
    assert forall i: nat :: !OpensMention(id, i) by {
      forall i: nat ensures !OpensMention(id, i) {
        if i + 4 <= |id| && i > 0 { assert IdChar(id[i]); }
      }
    }
    MatchesExactly(id);
  }

  /**
   * The earlier pattern differs from the current one on a token such as
   * `foo>`: here it names the empty id, there it is not a user.
   */
  lemma DiffersFromCurrent(s: string)
    requires s == "foo>"
    ensures IsSlackUser(s) == Some("") && Slack.IsSlackUser(s) == None
  {
    ClosedTokenResolvesToEmpty(s);
    NoUNotAUser(s);
  }
}
