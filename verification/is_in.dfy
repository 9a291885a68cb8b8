/**
 * The IN-list condition of the query-by-example package: it renders the
 * already-rendered value placeholders as "in (" p1 "," p2 ... ")".
 */
module QbeWhereCondition {

  /**
   * An IN condition over a list of values (IsIn with its BaseListValueCondition
   * parent, whose class is not part of this model).
   */
  datatype IsIn<T> = IsIn(values: seq<T>) {

    /**
     * Every parameter renderer is rendered once with
     * `render` (the renderer's own rendering, supplied by the caller) and the results are
     * joined with "," between the prefix "in (" and the suffix ")". The stored
     * values take no part.
     */
    function Render<R>(parameterRenderers: seq<R>, render: R -> string): (r: string)
      ensures |r| >= 5 && r[..4] == "in (" && r[|r| - 1] == ')'
      ensures parameterRenderers == [] ==> r == "in ()"
      ensures parameterRenderers != [] ==> Interleaved(r[4..|r| - 1], RenderEach(parameterRenderers, render))
    {
      var tokens := RenderEach(parameterRenderers, render);
      var joined := Join(tokens);
      assert tokens != [] ==> Interleaved(joined, tokens) by {
        if tokens != [] {
          JoinLayout(tokens);
        }
      }
      assert ("in (" + joined + ")")[4..|joined| + 4] == joined;
      "in (" + joined + ")"
    }
  }

  /** IsIn.of */
  function Of<T>(values: seq<T>): (c: IsIn<T>)
    ensures c.values == values
  {
    IsIn(values)
  }

  /** Renders every parameter renderer once: one token per renderer, in order. */
  function RenderEach<R>(parameterRenderers: seq<R>, render: R -> string): (tokens: seq<string>)
    ensures |tokens| == |parameterRenderers|
    ensures forall i :: 0 <= i < |tokens| ==> tokens[i] == render(parameterRenderers[i])
  {
    if parameterRenderers == [] then []
    else [render(parameterRenderers[0])] + RenderEach(parameterRenderers[1..], render)
  }

  /** The tokens with one "," between neighbours, without prefix and suffix. */
  function Join(tokens: seq<string>): (r: string)
    ensures tokens == [] ==> r == ""
  {
    if tokens == [] then ""
    else if |tokens| == 1 then tokens[0]
    else tokens[0] + "," + Join(tokens[1..])
  }

  /** Where token `i` starts in the joined text: each earlier token and its separator come first. */
  function Offset(tokens: seq<string>, i: nat): nat
    requires i <= |tokens|
  {
    if i == 0 then 0 else Offset(tokens, i - 1) + |tokens[i - 1]| + 1
  }

  /** The offset of token `i`, as the placement facts below are stated (a name of its own for their trigger). */
  function Start(tokens: seq<string>, i: nat): nat
    requires i <= |tokens|
  {
    Offset(tokens, i)
  }

  /**
   * `text` is the tokens laid end to end with a single "," between neighbours
   * and nothing else: its length leaves room for exactly the tokens and n - 1
   * separators, each token stands at its offset, and a "," follows every token
   * but the last. This holds whatever characters the tokens contain.
   */
  predicate Interleaved(text: string, tokens: seq<string>) {
    && |tokens| >= 1
    && |text| + 1 == Offset(tokens, |tokens|)
    && (forall i {:trigger Start(tokens, i)} :: 0 <= i < |tokens| ==>
          && Start(tokens, i) + |tokens[i]| <= |text|
          && text[Start(tokens, i)..Start(tokens, i) + |tokens[i]|] == tokens[i])
    && (forall i {:trigger Start(tokens, i)} :: 0 <= i < |tokens| - 1 ==>
          && Start(tokens, i) + |tokens[i]| < |text|
          && text[Start(tokens, i) + |tokens[i]|] == ',')
  }

  lemma {:induction false} JoinSnoc(tokens: seq<string>, t: string)
    requires |tokens| >= 1
    ensures Join(tokens + [t]) == Join(tokens) + "," + t
    decreases |tokens|
  {
    if |tokens| == 1 {
      assert (tokens + [t])[1..] == [t];
    } else {
      assert (tokens + [t])[1..] == tokens[1..] + [t];
      JoinSnoc(tokens[1..], t);
    }
  }

  lemma {:induction false} OffsetPrefix(tokens: seq<string>, t: string, i: nat)
    requires i <= |tokens|
    ensures Offset(tokens + [t], i) == Offset(tokens, i)
    decreases i
  {
    if i > 0 {
      OffsetPrefix(tokens, t, i - 1);
      assert (tokens + [t])[i - 1] == tokens[i - 1];
    }
  }

  lemma SnocTokenPlaced(j: string, init: seq<string>, t: string, i: nat)
    requires Interleaved(j, init)
    requires i <= |init|
    ensures var tokens, text := init + [t], j + "," + t;
            && Start(tokens, i) + |tokens[i]| <= |text|
            && text[Start(tokens, i)..Start(tokens, i) + |tokens[i]|] == tokens[i]
  {
    var tokens, text := init + [t], j + "," + t;
    OffsetPrefix(init, t, i);
    assert Start(tokens, i) == Start(init, i);
    if i < |init| {
      assert tokens[i] == init[i];
      assert text[Start(init, i)..Start(init, i) + |init[i]|] == j[Start(init, i)..Start(init, i) + |init[i]|];
    } else {
      assert text[|j| + 1..] == t;
    }
  }

  lemma SnocSeparator(j: string, init: seq<string>, t: string, i: nat)
    requires Interleaved(j, init)
    requires i < |init|
    ensures var tokens, text := init + [t], j + "," + t;
            && Start(tokens, i) + |tokens[i]| < |text|
            && text[Start(tokens, i) + |tokens[i]|] == ','
  {
    var tokens, text := init + [t], j + "," + t;
    OffsetPrefix(init, t, i);
    assert Start(tokens, i) == Start(init, i);
    assert tokens[i] == init[i];
    if i < |init| - 1 {
      assert text[Start(init, i) + |init[i]|] == j[Start(init, i) + |init[i]|];
    } else {
      OffsetPrefix(init, t, i + 1);
      assert Start(init, i) + |init[i]| == |j|;
    }
  }

  /** Appending "," and one more token to an interleaved text keeps it interleaved. */
  lemma InterleavedSnoc(j: string, init: seq<string>, t: string)
    requires Interleaved(j, init)
    ensures Interleaved(j + "," + t, init + [t])
  {
    var tokens, text := init + [t], j + "," + t;
    OffsetPrefix(init, t, |init|);
    assert tokens[|init|] == t;
    assert |text| + 1 == Offset(tokens, |tokens|);
    forall i {:trigger Start(tokens, i)} | 0 <= i < |tokens|
      ensures Start(tokens, i) + |tokens[i]| <= |text|
      ensures text[Start(tokens, i)..Start(tokens, i) + |tokens[i]|] == tokens[i]
    {
      SnocTokenPlaced(j, init, t, i);
    }
    forall i {:trigger Start(tokens, i)} | 0 <= i < |tokens| - 1
      ensures Start(tokens, i) + |tokens[i]| < |text|
      ensures text[Start(tokens, i) + |tokens[i]|] == ','
    {
      SnocSeparator(j, init, t, i);
    }
  }

  /** Joining any one or more tokens, commas inside them included, lays them out as Interleaved says. */
  lemma {:induction false} JoinLayout(tokens: seq<string>)
    requires |tokens| >= 1
    ensures Interleaved(Join(tokens), tokens)
    decreases |tokens|
  {
    var n := |tokens|;
    if n == 1 {
      assert Start(tokens, 0) == 0;
      assert Join(tokens)[0..|tokens[0]|] == tokens[0];
    } else {
      var init := tokens[..n - 1];
      assert tokens == init + [tokens[n - 1]];
      JoinLayout(init);
      JoinSnoc(init, tokens[n - 1]);
      InterleavedSnoc(Join(init), init, tokens[n - 1]);
    }
  }

  /** Cuts a string at every ","; the independent inverse of Join for tokens without a comma. */
  function Split(s: string): (parts: seq<string>)
    ensures |parts| >= 1
  {
    if s == [] then [""]
    else if s[0] == ',' then [""] + Split(s[1..])
    else
      var rest := Split(s[1..]);
      [[s[0]] + rest[0]] + rest[1..]
  }

  /** The number of occurrences of `c` in `s`. */
  function Count(c: char, s: string): nat {
    if s == [] then 0 else (if s[0] == c then 1 else 0) + Count(c, s[1..])
  }

  predicate CommaFree(token: string) {
    forall j :: 0 <= j < |token| ==> token[j] != ','
  }

  lemma {:induction false} SplitAfterToken(a: string, b: string)
    requires CommaFree(a)
    ensures Split(a + "," + b) == [a] + Split(b)
    decreases |a|
  {
    if a == [] {
      assert a + "," + b == [','] + b;
      assert ([','] + b)[1..] == b;
    } else {
      assert (a + "," + b)[1..] == a[1..] + "," + b;
      SplitAfterToken(a[1..], b);
      assert [a[0]] + a[1..] == a;
    }
  }

  lemma {:induction false} SplitToken(a: string)
    requires CommaFree(a)
    ensures Split(a) == [a]
    decreases |a|
  {
    if a != [] {
      SplitToken(a[1..]);
      assert [a[0]] + a[1..] == a;
    }
  }

  /**
   * Round trip: cutting the joined text at the commas gives back the tokens in
   * their order, provided no token itself holds a comma.
   */
  lemma {:induction false} SplitJoin(tokens: seq<string>)
    requires |tokens| >= 1
    requires forall i :: 0 <= i < |tokens| ==> CommaFree(tokens[i])
    ensures Split(Join(tokens)) == tokens
    decreases |tokens|
  {
    if |tokens| == 1 {
      SplitToken(tokens[0]);
    } else {
      SplitAfterToken(tokens[0], Join(tokens[1..]));
      SplitJoin(tokens[1..]);
    }
  }

  lemma {:induction false} CountAppend(c: char, s: string, t: string)
    ensures Count(c, s + t) == Count(c, s) + Count(c, t)
    decreases |s|
  {
    if s == [] {
      assert s + t == t;
    } else {
      assert (s + t)[1..] == s[1..] + t;
      CountAppend(c, s[1..], t);
    }
  }

  lemma {:induction false} CountCommaFree(s: string)
    requires CommaFree(s)
    ensures Count(',', s) == 0
    decreases |s|
  {
    if s != [] {
      CountCommaFree(s[1..]);
    }
  }

  /** Joining n comma-free tokens puts exactly n - 1 commas between them. */
  lemma {:induction false} JoinSeparators(tokens: seq<string>)
    requires |tokens| >= 1
    requires forall i :: 0 <= i < |tokens| ==> CommaFree(tokens[i])
    ensures Count(',', Join(tokens)) == |tokens| - 1
    decreases |tokens|
  {
    CountCommaFree(tokens[0]);
    if |tokens| > 1 {
      var rest := Join(tokens[1..]);
      JoinSeparators(tokens[1..]);
      assert Join(tokens) == tokens[0] + ("," + rest);
      CountAppend(',', tokens[0], "," + rest);
      CountAppend(',', ",", rest);
      assert Count(',', ",") == 1 by {
        assert ","[1..] == [];
      }
    }
  }

  /**
   * The rendered IN list, read back: between "in (" and ")" stand the tokens of
   * the renderers, one per renderer and in input order, separated by single
   * commas and nothing else (for placeholders that hold no comma).
   */
  lemma RenderedList<T, R>(c: IsIn<T>, parameterRenderers: seq<R>, render: R -> string)
    requires |parameterRenderers| >= 1
    requires forall i :: 0 <= i < |parameterRenderers| ==> CommaFree(render(parameterRenderers[i]))
    ensures var r := c.Render(parameterRenderers, render);
            var inner := r[4..|r| - 1];
            && r == "in (" + inner + ")"
            && Split(inner) == RenderEach(parameterRenderers, render)
            && Count(',', inner) == |parameterRenderers| - 1
  {
    var tokens := RenderEach(parameterRenderers, render);
    var r := c.Render(parameterRenderers, render);
    assert r[4..|r| - 1] == Join(tokens);
    SplitJoin(tokens);
    JoinSeparators(tokens);
  }

  /** The text depends on the renderers alone, not on the values the condition holds. */
  lemma RenderIgnoresValues<T, R>(c: IsIn<T>, d: IsIn<T>, parameterRenderers: seq<R>, render: R -> string)
    ensures c.Render(parameterRenderers, render) == d.Render(parameterRenderers, render)
  {
  }
}
