/**
 * The where-clause builder of the query-by-example package: an ordered list of
 * criteria, the first without a connector and every later one tagged "and" or
 * "or", folded into one "where ..." string and one parameter map. A single
 * parameter sequence, started at 1 for each build, is threaded through the
 * rendering of every criterion in list order.
 */
module QbeWhere {
  import opened Wrappers
  import opened Parameters

  /** A column reference (SqlField); its class is not part of this model. */
  type SqlField(!new)

  /** An operator with its values (Condition); its class is not part of this model. */
  type Condition(!new)

  /** One criterion of the where clause: an optional connector, a field, a condition and nested criteria. */
  datatype SqlCriterion = SqlCriterion(
    connector: Option<string>,
    field: SqlField,
    condition: Condition,
    subCriteria: seq<SqlCriterion>)

  /** What rendering one criterion yields: its text and the parameters it binds. */
  datatype RenderedCriterion = RenderedCriterion(
    whereClauseFragment: string,
    fragmentParameters: map<string, Value>)

  /** One render call: the rendered criterion and the value the parameter sequence holds afterwards. */
  datatype Rendering = Rendering(rendered: RenderedCriterion, sequence: int)

  /**
   * Renders one criterion given the current value of the parameter sequence,
   * and says where the sequence stands afterwards. The renderer itself is not
   * part of this model and is supplied by the caller.
   */
  type CriterionRenderer = (SqlCriterion, int) -> Rendering

  /** The one thing assumed of a renderer: it only ever advances the sequence. */
  ghost predicate NeverRewinds(render: CriterionRenderer) {
    forall c, n :: render(c, n).sequence >= n
  }

  /** The where clause and the parameters it binds (WhereSupport.of). */
  datatype WhereSupport = WhereSupport(whereClause: string, parameters: map<string, Value>)

  /** The state of the fold after some criteria: text appended, parameters merged, sequence value. */
  datatype Progress = Progress(clause: string, parameters: map<string, Value>, sequence: int)

  /**
   * Renders `cs` in order from sequence value `start`: each criterion is
   * rendered with the value the previous one left, its fragment appended and
   * its parameters put over those collected so far.
   */
  function RenderAll(cs: seq<SqlCriterion>, render: CriterionRenderer, start: int): Progress
    decreases |cs|
  {
    if cs == [] then Progress("", map[], start)
    else
      var before := RenderAll(cs[..|cs| - 1], render, start);
      var step := render(cs[|cs| - 1], before.sequence);
      Progress(before.clause + step.rendered.whereClauseFragment,
               Merge(before.parameters, step.rendered.fragmentParameters),
               step.sequence)
  }

  /** The sequence value criterion `i` of `cs` is rendered with. */
  function Ordinal(cs: seq<SqlCriterion>, render: CriterionRenderer, start: int, i: nat): int
    requires i <= |cs|
  {
    RenderAll(cs[..i], render, start).sequence
  }

  /** What each criterion of `cs` renders to, in list order, within one fold. */
  function Fragments(cs: seq<SqlCriterion>, render: CriterionRenderer, start: int): seq<RenderedCriterion>
  {
    seq(|cs|, i requires 0 <= i < |cs| => render(cs[i], Ordinal(cs, render, start, i)).rendered)
  }

  /** The texts of rendered criteria, concatenated with nothing in between. */
  function Concat(fs: seq<RenderedCriterion>): string {
    if fs == [] then "" else fs[0].whereClauseFragment + Concat(fs[1..])
  }

  /** The total number of parameters the rendered criteria bind, counted one by one. */
  function SizeSum(fs: seq<RenderedCriterion>): nat {
    if fs == [] then 0 else |fs[0].fragmentParameters| + SizeSum(fs[1..])
  }

  /** Each criterion of the list passed through `mapper`, in list order. */
  function Mapped(mapper: SqlCriterion -> SqlCriterion, cs: seq<SqlCriterion>): seq<SqlCriterion> {
    seq(|cs|, i requires 0 <= i < |cs| => mapper(cs[i]))
  }

  /** The mapping that leaves a criterion as it is. */
  function Identity(c: SqlCriterion): SqlCriterion {
    c
  }

  /** The private build(mapper): a fresh sequence at 1, a fresh map, "where" and the fold. */
  function RenderWhere(cs: seq<SqlCriterion>, mapper: SqlCriterion -> SqlCriterion,
                       render: CriterionRenderer): WhereSupport
  {
    var p := RenderAll(Mapped(mapper, cs), render, 1);
    WhereSupport("where" + p.clause, p.parameters)
  }

  // ---------------------------------------------------------------------
  // Properties of the fold
  // ---------------------------------------------------------------------

  /** Dropping the last criterion leaves the earlier prefixes, and so their ordinals, alone. */
  lemma PrefixOrdinal(cs: seq<SqlCriterion>, render: CriterionRenderer, start: int, i: nat)
    requires 0 < |cs| && i < |cs|
    ensures Ordinal(cs[..|cs| - 1], render, start, i) == Ordinal(cs, render, start, i)
  {
    assert cs[..|cs| - 1][..i] == cs[..i];
  }

  /** Rendering one more criterion adds its fragment at the end and leaves the others as they were. */
  lemma FragmentsSnoc(cs: seq<SqlCriterion>, render: CriterionRenderer, start: int)
    requires 0 < |cs|
    ensures Fragments(cs, render, start)
         == Fragments(cs[..|cs| - 1], render, start)
            + [render(cs[|cs| - 1], RenderAll(cs[..|cs| - 1], render, start).sequence).rendered]
  {
    var n := |cs|;
    var init := cs[..n - 1];
    var last := render(cs[n - 1], RenderAll(init, render, start).sequence).rendered;
    var lhs := Fragments(cs, render, start);
    var rhs := Fragments(init, render, start) + [last];
    forall i | 0 <= i < n
      ensures lhs[i] == rhs[i]
    {
      if i < n - 1 {
        PrefixOrdinal(cs, render, start, i);
        assert init[i] == cs[i];
      } else {
        assert lhs[i] == render(cs[i], Ordinal(cs, render, start, i)).rendered;
      }
    }
  }

  /**
   * The counter is shared and never reset: criterion 0 sees the start value,
   * and each later criterion sees exactly the value the previous render left;
   * the fold ends on the value the last render left.
   */
  lemma {:induction false} OrdinalsThreaded(cs: seq<SqlCriterion>, render: CriterionRenderer, start: int)
    ensures Ordinal(cs, render, start, 0) == start
    ensures forall i :: 0 <= i < |cs| ==>
              Ordinal(cs, render, start, i + 1) == render(cs[i], Ordinal(cs, render, start, i)).sequence
    ensures RenderAll(cs, render, start).sequence == Ordinal(cs, render, start, |cs|)
  {
    assert cs[..0] == [];
    assert cs[..|cs|] == cs;
    forall i | 0 <= i < |cs|
      ensures Ordinal(cs, render, start, i + 1) == render(cs[i], Ordinal(cs, render, start, i)).sequence
    {
      assert cs[..i + 1][..i] == cs[..i];
    }
  }

  /** With a renderer that never rewinds, ordinals never decrease along the list. */
  lemma {:induction false} OrdinalsNonDecreasing(cs: seq<SqlCriterion>, render: CriterionRenderer, start: int,
                                                i: nat, j: nat)
    requires NeverRewinds(render)
    requires i <= j <= |cs|
    ensures start <= Ordinal(cs, render, start, i) <= Ordinal(cs, render, start, j)
  {
    OrdinalsThreaded(cs, render, start);
    if j == 0 {
    } else if i == j {
      OrdinalsNonDecreasing(cs, render, start, 0, i);
    } else {
      OrdinalsNonDecreasing(cs, render, start, i, j - 1);
      assert render(cs[j - 1], Ordinal(cs, render, start, j - 1)).sequence >= Ordinal(cs, render, start, j - 1);
    }
  }

  lemma {:induction false} ConcatSnoc(fs: seq<RenderedCriterion>, f: RenderedCriterion)
    ensures Concat(fs + [f]) == Concat(fs) + f.whereClauseFragment
  {
    if fs == [] {
      assert [] + [f] == [f];
    } else {
      assert (fs + [f])[1..] == fs[1..] + [f];
      ConcatSnoc(fs[1..], f);
    }
  }

  /** The fold's text is the criteria fragments, in list order, with no separator added. */
  lemma {:induction false} ClauseInOrder(cs: seq<SqlCriterion>, render: CriterionRenderer, start: int)
    ensures RenderAll(cs, render, start).clause == Concat(Fragments(cs, render, start))
    decreases |cs|
  {
    if cs != [] {
      var init := cs[..|cs| - 1];
      ClauseInOrder(init, render, start);
      FragmentsSnoc(cs, render, start);
      ConcatSnoc(Fragments(init, render, start),
                 render(cs[|cs| - 1], RenderAll(init, render, start).sequence).rendered);
    }
  }

  /** A key is bound after the fold exactly when some criterion's fragment binds it. */
  lemma {:induction false} ParameterKeys(cs: seq<SqlCriterion>, render: CriterionRenderer, start: int)
    ensures var fs := Fragments(cs, render, start);
            forall k :: k in RenderAll(cs, render, start).parameters <==>
                        exists i :: 0 <= i < |fs| && k in fs[i].fragmentParameters
    decreases |cs|
  {
    if cs != [] {
      var init := cs[..|cs| - 1];
      ParameterKeys(init, render, start);
      FragmentsSnoc(cs, render, start);
      var fs := Fragments(cs, render, start);
      var fsInit := Fragments(init, render, start);
      forall k | k in RenderAll(cs, render, start).parameters
        ensures exists i :: 0 <= i < |fs| && k in fs[i].fragmentParameters
      {
        if k !in fs[|fs| - 1].fragmentParameters {
          var i :| 0 <= i < |fsInit| && k in fsInit[i].fragmentParameters;
          assert fs[i] == fsInit[i];
        }
      }
      forall k | exists i :: 0 <= i < |fs| && k in fs[i].fragmentParameters
        ensures k in RenderAll(cs, render, start).parameters
      {
        var i :| 0 <= i < |fs| && k in fs[i].fragmentParameters;
        if i < |fsInit| {
          assert fs[i] == fsInit[i];
        }
      }
    }
  }

  /**
   * Later criteria overwrite earlier ones: a key takes the value of the last
   * fragment that binds it, with no collision error.
   */
  lemma {:induction false} LastWriterWins(cs: seq<SqlCriterion>, render: CriterionRenderer, start: int,
                                         k: string, i: nat)
    requires var fs := Fragments(cs, render, start);
             i < |fs| && k in fs[i].fragmentParameters &&
             forall j :: i < j < |fs| ==> k !in fs[j].fragmentParameters
    ensures var fs := Fragments(cs, render, start);
            k in RenderAll(cs, render, start).parameters &&
            RenderAll(cs, render, start).parameters[k] == fs[i].fragmentParameters[k]
    decreases |cs|
  {
    var init := cs[..|cs| - 1];
    FragmentsSnoc(cs, render, start);
    var fs := Fragments(cs, render, start);
    var fsInit := Fragments(init, render, start);
    if i < |cs| - 1 {
      assert k !in fs[|fs| - 1].fragmentParameters;
      forall j | i < j < |fsInit| ensures k !in fsInit[j].fragmentParameters {
        assert fs[j] == fsInit[j];
      }
      assert fs[i] == fsInit[i];
      LastWriterWins(init, render, start, k, i);
    }
  }

  lemma {:induction false} SizeSumSnoc(fs: seq<RenderedCriterion>, f: RenderedCriterion)
    ensures SizeSum(fs + [f]) == SizeSum(fs) + |f.fragmentParameters|
  {
    if fs == [] {
      assert [] + [f] == [f];
    } else {
      assert (fs + [f])[1..] == fs[1..] + [f];
      SizeSumSnoc(fs[1..], f);
    }
  }

  /** When no two fragments bind the same key, nothing is lost: the map holds every parameter bound. */
  lemma {:induction false} DisjointParameterCount(cs: seq<SqlCriterion>, render: CriterionRenderer, start: int)
    requires var fs := Fragments(cs, render, start);
             forall i, j :: 0 <= i < j < |fs| ==>
               fs[i].fragmentParameters.Keys !! fs[j].fragmentParameters.Keys
    ensures |RenderAll(cs, render, start).parameters| == SizeSum(Fragments(cs, render, start))
    decreases |cs|
  {
    if cs != [] {
      var init := cs[..|cs| - 1];
      FragmentsSnoc(cs, render, start);
      var fs := Fragments(cs, render, start);
      var fsInit := Fragments(init, render, start);
      var last := fs[|fs| - 1];
      forall i, j | 0 <= i < j < |fsInit|
        ensures fsInit[i].fragmentParameters.Keys !! fsInit[j].fragmentParameters.Keys
      {
        assert fs[i] == fsInit[i] && fs[j] == fsInit[j];
      }
      DisjointParameterCount(init, render, start);
      ParameterKeys(init, render, start);
      var before := RenderAll(init, render, start).parameters;
      forall k | k in before ensures k !in last.fragmentParameters {
        var i :| 0 <= i < |fsInit| && k in fsInit[i].fragmentParameters;
        assert fs[i] == fsInit[i];
      }
      MergeDisjointSize(before, last.fragmentParameters);
      SizeSumSnoc(fsInit, last);
    }
  }

  /** build() maps with the identity, so it renders the criteria exactly as they were added. */
  lemma BuildRendersUnmapped(cs: seq<SqlCriterion>, render: CriterionRenderer)
    ensures var p := RenderAll(cs, render, 1);
            RenderWhere(cs, Identity, render) == WhereSupport("where" + p.clause, p.parameters)
  {
    assert Mapped(Identity, cs) == cs;
  }

  /**
   * What a build with `mapper` yields: "where" followed by the fragments of the
   * mapped criteria in list order, each criterion mapped before it is rendered,
   * and exactly the keys those fragments bind.
   */
  lemma {:induction false} RenderedWhereLayout(cs: seq<SqlCriterion>, mapper: SqlCriterion -> SqlCriterion,
                                              render: CriterionRenderer)
    ensures var mapped := Mapped(mapper, cs);
            var fs := Fragments(mapped, render, 1);
            var ws := RenderWhere(cs, mapper, render);
            && |fs| == |cs|
            && ws.whereClause == "where" + Concat(fs)
            && (forall i :: 0 <= i < |cs| ==>
                  fs[i] == render(mapper(cs[i]), Ordinal(mapped, render, 1, i)).rendered)
            && (forall k :: k in ws.parameters <==> exists i :: 0 <= i < |fs| && k in fs[i].fragmentParameters)
  {
    var mapped := Mapped(mapper, cs);
    ClauseInOrder(mapped, render, 1);
    ParameterKeys(mapped, render, 1);
  }

  /** A builder of where clauses (AbstractWhereBuilder together with WhereBuilder). */
  class WhereBuilder {
    var criteria: seq<SqlCriterion>

    /** The first criterion has no connector; every later one is joined by "and" or "or". */
    ghost predicate Valid()
      reads this
    {
      && |criteria| > 0
      && criteria[0].connector == None
      && forall i :: 0 < i < |criteria| ==> criteria[i].connector in {Some("and"), Some("or")}
    }

    constructor (field: SqlField, condition: Condition, subCriteria: seq<SqlCriterion>)
      ensures Valid()
      ensures criteria == [SqlCriterion(None, field, condition, subCriteria)]
    {
      criteria := [SqlCriterion(None, field, condition, subCriteria)];
    }

    method And(field: SqlField, condition: Condition, subCriteria: seq<SqlCriterion>) returns (self: WhereBuilder)
      requires Valid()
      modifies this
      ensures Valid() && self == this
      ensures criteria == old(criteria) + [SqlCriterion(Some("and"), field, condition, subCriteria)]
    {
      criteria := criteria + [SqlCriterion(Some("and"), field, condition, subCriteria)];
      self := this;
    }

    method Or(field: SqlField, condition: Condition, subCriteria: seq<SqlCriterion>) returns (self: WhereBuilder)
      requires Valid()
      modifies this
      ensures Valid() && self == this
      ensures criteria == old(criteria) + [SqlCriterion(Some("or"), field, condition, subCriteria)]
    {
      criteria := criteria + [SqlCriterion(Some("or"), field, condition, subCriteria)];
      self := this;
    }

    /**
     * Maps each criterion, renders it with the shared sequence, appends its
     * fragment to a buffer that starts as "where" and puts its parameters into
     * `parameters`.
     */
    method RenderCriteria(mapper: SqlCriterion -> SqlCriterion, render: CriterionRenderer,
                          sequence: AtomicCounter, parameters: ParameterMap) returns (whereClause: string)
      modifies sequence, parameters
      ensures var p := RenderAll(Mapped(mapper, criteria), render, old(sequence.value));
              && whereClause == "where" + p.clause
              && sequence.value == p.sequence
              && parameters.entries == Merge(old(parameters.entries), p.parameters)
    {
      ghost var mapped := Mapped(mapper, criteria);
      var buffer := "where";
      for i := 0 to |criteria|
        invariant var p := RenderAll(mapped[..i], render, old(sequence.value));
                  && buffer == "where" + p.clause
                  && sequence.value == p.sequence
                  && parameters.entries == Merge(old(parameters.entries), p.parameters)
      {
        var c := mapper(criteria[i]);
        var rc := render(c, sequence.value);
        sequence.value := rc.sequence;
        buffer := buffer + rc.rendered.whereClauseFragment;
        MergeAssociative(old(parameters.entries), RenderAll(mapped[..i], render, old(sequence.value)).parameters,
                         rc.rendered.fragmentParameters);
        parameters.PutAll(rc.rendered.fragmentParameters);
        assert mapped[..i + 1][..i] == mapped[..i];
      }
      assert mapped[..|criteria|] == mapped;
      whereClause := buffer;
    }

    /** The private build(mapper): every call starts from a fresh sequence at 1 and a fresh map. */
    method BuildWith(mapper: SqlCriterion -> SqlCriterion, render: CriterionRenderer) returns (ws: WhereSupport)
      ensures ws == RenderWhere(criteria, mapper, render)
    {
      var sequence := new AtomicCounter(1);
      var parameters := new ParameterMap();
      var whereClause := RenderCriteria(mapper, render, sequence, parameters);
      ws := WhereSupport(whereClause, parameters.entries);
    }

    method Build(render: CriterionRenderer) returns (ws: WhereSupport)
      ensures ws == RenderWhere(criteria, Identity, render)
    {
      ws := BuildWith(Identity, render);
    }

    /** Strips aliases from every criterion before it is rendered (SqlCriterion::ignoringAlias, supplied by the caller). */
    method BuildIgnoringAlias(ignoringAlias: SqlCriterion -> SqlCriterion, render: CriterionRenderer)
      returns (ws: WhereSupport)
      ensures ws == RenderWhere(criteria, ignoringAlias, render)
    {
      ws := BuildWith(ignoringAlias, render);
    }
  }

  /** The parameter sequence (an AtomicInteger), used from one thread only. */
  class AtomicCounter {
    var value: int

    constructor (initial: int)
      ensures value == initial
    {
      value := initial;
    }
  }
}
