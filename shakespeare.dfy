/**
 * The formula sentence generator: a prefix, one word picked from each column,
 * and a postfix, written with a delimiter between consecutive pieces.
 * The random picks are an input: `picks[i]` is the index that `rand.Intn`
 * returned for column i.
 */
module Shakespeare {
  import opened Results
  import opened Text

  /** `columns` is None for a nil slice, which the generator treats differently from an empty one. */
  datatype FormulaGenerator = FormulaGenerator(prefix: string, columns: Option<seq<seq<string>>>, postfix: string)

  /** `New(pre, post, cols)`. */
  function New(pre: string, post: string, cols: Option<seq<seq<string>>>): (g: FormulaGenerator)
    ensures g.prefix == pre && g.postfix == post && g.columns == cols
  {
    FormulaGenerator(pre, cols, post)
  }

  /** The columns ranged over (none for a nil slice). */
  function Columns(g: FormulaGenerator): seq<seq<string>> {
    if g.columns.Some? then g.columns.value else []
  }

  /**
   * One in-range pick per column. `rand.Intn(0)` panics, so a generator with an
   * empty column has no valid picks.
   */
  predicate ValidPicks(g: FormulaGenerator, picks: seq<nat>) {
    |picks| == |Columns(g)| && forall i :: 0 <= i < |picks| ==> picks[i] < |Columns(g)[i]|
  }

  /** The word picked from each column. */
  function Picked(cols: seq<seq<string>>, picks: seq<nat>): (ws: seq<string>)
    requires |picks| == |cols|
    requires forall i :: 0 <= i < |picks| ==> picks[i] < |cols[i]|
    ensures |ws| == |cols|
    ensures forall i :: 0 <= i < |ws| ==> ws[i] == cols[i][picks[i]] && ws[i] in cols[i]
  {
    if cols == [] then []
    else Picked(cols[..|cols| - 1], picks[..|picks| - 1]) + [cols[|cols| - 1][picks[|picks| - 1]]]
  }

  /** The non-empty prefix, the picks, the non-empty postfix. */
  function Parts(g: FormulaGenerator, picks: seq<nat>): seq<string>
    requires ValidPicks(g, picks)
  {
    (if g.prefix != "" then [g.prefix] else [])
    + Picked(Columns(g), picks)
    + (if g.postfix != "" then [g.postfix] else [])
  }

  /**
   * What a generator writes: its parts joined by the delimiter, except that a
   * non-nil but empty column list with no prefix puts a delimiter before the
   * postfix.
   */
  function Formula(g: FormulaGenerator, delim: string, picks: seq<nat>): string
    requires ValidPicks(g, picks)
  {
    if g.columns == Some([]) && g.prefix == "" && g.postfix != "" then delim + g.postfix
    else Join(delim, Parts(g, picks))
  }

  lemma JoinSnoc(delim: string, xs: seq<string>, x: string)
    ensures Join(delim, xs + [x]) == if xs == [] then x else Join(delim, xs) + delim + x
  {
    assert (xs + [x])[..|xs|] == xs;
  }

  /**
   * The formula is the prefix and the picked words joined, followed by the
   * postfix; the delimiter before the postfix is left out only when there is
   * no prefix and no column list at all.
   */
  lemma FormulaShape(g: FormulaGenerator, delim: string, picks: seq<nat>)
    requires ValidPicks(g, picks)
    ensures var body := Join(delim, (if g.prefix != "" then [g.prefix] else []) + Picked(Columns(g), picks));
      Formula(g, delim, picks) ==
        if g.postfix == "" then body
        else if g.prefix != "" || g.columns.Some? then body + delim + g.postfix
        else body + g.postfix
  {
    var lead := (if g.prefix != "" then [g.prefix] else []) + Picked(Columns(g), picks);
    assert Parts(g, picks) == lead + (if g.postfix != "" then [g.postfix] else []);
    JoinWithPostfix(delim, lead, g.postfix);
    if g.postfix != "" && g.prefix == "" && g.columns.Some? && lead == [] {
      assert Columns(g) == [];
      assert Formula(g, delim, picks) == delim + g.postfix;
    }
  }

  /** Joining with an optional last part: that part follows the delimiter unless it is the only one. */
  lemma JoinWithPostfix(delim: string, lead: seq<string>, post: string)
    ensures Join(delim, lead + (if post != "" then [post] else [])) ==
      if post == "" then Join(delim, lead)
      else if lead == [] then post
      else Join(delim, lead) + delim + post
  {
    if post == "" {
      assert lead + [] == lead;
    } else {
      JoinSnoc(delim, lead, post);
    }
  }

  /**
   * What the loop of `Generate` has written after the words ws: each word,
   * with a delimiter before it unless it is the very first piece.
   */
  function Written(head: string, lead: bool, delim: string, ws: seq<string>): string {
    if ws == [] then head
    else
      var w := Written(head, lead, delim, ws[..|ws| - 1]);
      (if |ws| > 1 || lead then w + delim else w) + ws[|ws| - 1]
  }

  /** Writing piece by piece after a non-empty head (or after nothing) is joining. */
  lemma {:induction false} WrittenIsJoin(head: string, lead: bool, delim: string, ws: seq<string>)
    requires lead == (head != "")
    ensures Written(head, lead, delim, ws) == Join(delim, (if lead then [head] else []) + ws)
    decreases |ws|
  {
    var ls: seq<string> := if lead then [head] else [];
    if ws == [] {
      assert ls + ws == ls;
    } else {
      var init := ws[..|ws| - 1];
      var w := ws[|ws| - 1];
      WrittenIsJoin(head, lead, delim, init);
      assert ls + ws == (ls + init) + [w];
      JoinSnoc(delim, ls + init, w);
      if ls + init == [] {
        assert Written(head, lead, delim, init) == "";
        assert "" + w == w;
      }
    }
  }

  /** The column loop of `Generate`: one picked word per column, a delimiter before each but the very first piece. */
  method WriteColumns(builder: Builder, g: FormulaGenerator, delim: string, picks: seq<nat>)
    requires ValidPicks(g, picks)
    modifies builder
    ensures builder.buf == Written(old(builder.buf), g.prefix != "", delim, Picked(Columns(g), picks))
  {
    ghost var head := builder.buf;
    var cols := Columns(g);
    ghost var words := Picked(cols, picks);
    var i := 0;
    while i < |cols|
      invariant 0 <= i <= |cols|
      invariant builder.buf == Written(head, g.prefix != "", delim, words[..i])
    {
      assert words[..i + 1][..i] == words[..i];
      if i != 0 || g.prefix != "" {
        builder.WriteString(delim);
      }
      builder.WriteString(cols[i][picks[i]]);
      i := i + 1;
    }
    assert words[..i] == words;
  }

  /** `FormulaGenerator.Generate(delim)`. */
  method Generate(g: FormulaGenerator, delim: string, picks: seq<nat>) returns (s: string)
    requires ValidPicks(g, picks)
    ensures s == Formula(g, delim, picks)
  {
    var builder := new Builder();
    if g.prefix != "" {
      builder.WriteString(g.prefix);
    }
    assert builder.buf == g.prefix;
    WriteColumns(builder, g, delim, picks);
    WrittenIsJoin(g.prefix, g.prefix != "", delim, Picked(Columns(g), picks));
    FormulaShape(g, delim, picks);
    if g.postfix != "" {
      if g.prefix != "" || g.columns.Some? {
        builder.WriteString(delim);
      }
      builder.WriteString(g.postfix);
    }
    s := builder.buf;
  }

  /** `FormulaGenerator.Sentence()`: the formula with single spaces. */
  method Sentence(g: FormulaGenerator, picks: seq<nat>) returns (s: string)
    requires ValidPicks(g, picks)
    ensures s == Formula(g, " ", picks)
  {
    s := Generate(g, " ", picks);
  }

  /** Without columns, the output is whichever of prefix and postfix are present. */
  lemma WithoutColumns(pre: string, post: string, delim: string)
    ensures Formula(New(pre, post, None), delim, []) ==
      if pre == "" then post else if post == "" then pre else pre + delim + post
  {
    var g := New(pre, post, None);
    if pre != "" && post != "" {
      assert Parts(g, []) == [pre] + [post];
      JoinSnoc(delim, [pre], post);
    } else if pre != "" {
      assert Parts(g, []) == [pre];
    } else if post != "" {
      assert Parts(g, []) == [post];
    } else {
      assert Parts(g, []) == [];
    }
  }

  /** An empty but non-nil column list with no prefix leads with a delimiter. */
  lemma EmptyColumnsLeadingDelimiter(post: string, delim: string)
    requires post != ""
    ensures Formula(New("", post, Some([])), delim, []) == delim + post
  {
  }

  /** A delimiter goes between pieces, never before the first one. */
  lemma {:induction false} DelimiterBetweenPieces(g: FormulaGenerator, delim: string, picks: seq<nat>)
    requires ValidPicks(g, picks)
    requires g.columns != Some([])
    requires g.prefix == "" && |Columns(g)| > 0
    ensures |Formula(g, delim, picks)| >= |Columns(g)[0][picks[0]]|
    ensures Formula(g, delim, picks)[..|Columns(g)[0][picks[0]]|] == Columns(g)[0][picks[0]]
  {
    var ps := Parts(g, picks);
    var first := Columns(g)[0][picks[0]];
    assert ps[0] == first;
    JoinStartsWithFirst(delim, ps);
  }

  lemma {:induction false} JoinStartsWithFirst(delim: string, xs: seq<string>)
    requires |xs| > 0
    ensures |Join(delim, xs)| >= |xs[0]| && Join(delim, xs)[..|xs[0]|] == xs[0]
    decreases |xs|
  {
    if |xs| > 1 {
      JoinStartsWithFirst(delim, xs[..|xs| - 1]);
      assert xs[..|xs| - 1][0] == xs[0];
    }
  }

  /** Three pieces joined. */
  lemma JoinThree(delim: string, a: string, b: string, c: string)
    ensures Join(delim, [a, b, c]) == a + delim + b + delim + c
  {
    JoinSnoc(delim, [a], b);
    assert [a] + [b] == [a, b];
    JoinSnoc(delim, [a, b], c);
    assert [a, b] + [c] == [a, b, c];
  }

  /** Four pieces joined. */
  lemma JoinFour(delim: string, a: string, b: string, c: string, d: string)
    ensures Join(delim, [a, b, c, d]) == a + delim + b + delim + c + delim + d
  {
    JoinThree(delim, a, b, c);
    JoinSnoc(delim, [a, b, c], d);
    assert [a, b, c] + [d] == [a, b, c, d];
  }

  /** With three columns, the formula is the three picks after the optional prefix, then the optional postfix. */
  lemma ThreeColumns(g: FormulaGenerator, delim: string, picks: seq<nat>)
    requires ValidPicks(g, picks) && g.columns.Some? && |Columns(g)| == 3
    ensures var ws := Picked(Columns(g), picks);
      var body := if g.prefix != "" then g.prefix + delim + ws[0] + delim + ws[1] + delim + ws[2]
                  else ws[0] + delim + ws[1] + delim + ws[2];
      Formula(g, delim, picks) == if g.postfix == "" then body else body + delim + g.postfix
  {
    var ws := Picked(Columns(g), picks);
    FormulaShape(g, delim, picks);
    if g.prefix != "" {
      assert [g.prefix] + ws == [g.prefix, ws[0], ws[1], ws[2]];
      JoinFour(delim, g.prefix, ws[0], ws[1], ws[2]);
    } else {
      assert [] + ws == [ws[0], ws[1], ws[2]];
      JoinThree(delim, ws[0], ws[1], ws[2]);
    }
  }

  /** The generator's own example without prefix or postfix, for whatever picks are drawn. */
  lemma BareExample(cols: seq<seq<string>>, picks: seq<nat>, sp: string)
    requires cols == [["a1"], ["b1", "b1"], ["c1", "c1", "c1"]] && sp == " "
    requires |picks| == 3 && picks[0] < 1 && picks[1] < 2 && picks[2] < 3
    ensures Formula(New("", "", Some(cols)), sp, picks) == "a1 b1 c1"
  {
    var ws := Picked(cols, picks);
    assert ws[0] == "a1" && ws[1] == "b1" && ws[2] == "c1";
    ThreeColumns(New("", "", Some(cols)), sp, picks);
    assert ws[0] + sp + ws[1] == "a1 b1";
  }

  /** The generator's own example with a prefix and a postfix, for whatever picks are drawn. */
  lemma FramedExample(cols: seq<seq<string>>, picks: seq<nat>, sp: string, pre: string, post: string)
    requires cols == [["a1"], ["b1", "b1"], ["c1", "c1", "c1"]] && sp == " " && pre == "Start" && post == "End"
    requires |picks| == 3 && picks[0] < 1 && picks[1] < 2 && picks[2] < 3
    ensures Formula(New(pre, post, Some(cols)), sp, picks) == "Start a1 b1 c1 End"
  {
    var ws := Picked(cols, picks);
    assert ws[0] == "a1" && ws[1] == "b1" && ws[2] == "c1";
    ThreeColumns(New(pre, post, Some(cols)), sp, picks);
    assert pre + sp + ws[0] == "Start a1";
    assert pre + sp + ws[0] + sp + ws[1] == "Start a1 b1";
    assert pre + sp + ws[0] + sp + ws[1] + sp + ws[2] == "Start a1 b1 c1";
  }
}
