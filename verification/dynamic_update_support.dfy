/**
 * The rendered update statement of the dynamic-SQL package: the table name,
 * the set clause, an optional where clause and the parameters of both, put
 * together by a builder.
 */
module DynamicUpdateRender {
  import opened Wrappers
  import opened Parameters

  /** The rendered where clause with its parameters (WhereSupport of the where renderer, not part of this model). */
  datatype WhereSupport = WhereSupport(whereClause: string, parameters: map<string, Value>)

  const ONE_SPACE: string := " "
  const EMPTY_STRING: string := ""

  /** How a String that may be null reads when concatenated: a null reference reads as "null". */
  function Concatenated(s: Option<string>): (r: string)
    ensures s.None? ==> r == "null"
    ensures s.Some? ==> r == s.value
  {
    s.GetOr("null")
  }

  /** The support's where clause when there is a support, and none otherwise. */
  function WhereText(whereSupport: Option<WhereSupport>): (w: Option<string>)
    ensures w.Some? <==> whereSupport.Some?
    ensures w.Some? ==> w.value == whereSupport.value.whereClause
  {
    match whereSupport
    case None => None
    case Some(ws) => Some(ws.whereClause)
  }

  /** The parameter entries after build: the where parameters put over the builder's own. */
  function MergedParameters(parameters: map<string, Value>, whereSupport: Option<WhereSupport>): (r: map<string, Value>)
    ensures whereSupport.None? ==> r == parameters
    ensures whereSupport.Some? ==>
              && r.Keys == parameters.Keys + whereSupport.value.parameters.Keys
              && forall k :: k in r ==>
                   r[k] == if k in whereSupport.value.parameters then whereSupport.value.parameters[k] else parameters[k]
  {
    match whereSupport
    case None => parameters
    case Some(ws) => Merge(parameters, ws.parameters)
  }

  /**
   * A rendered update statement. `setClause` is None when the builder was never
   * given one (a null String in the source). `parameters` is the builder's own
   * map object, shared and not copied.
   */
  class UpdateSupport {
    const tableName: string
    const setClause: Option<string>
    const whereClause: Option<string>
    const parameters: ParameterMap

    constructor (tableName: string, setClause: Option<string>, whereClause: Option<string>, parameters: ParameterMap)
      ensures this.tableName == tableName && this.setClause == setClause
      ensures this.whereClause == whereClause && this.parameters == parameters
    {
      this.tableName := tableName;
      this.setClause := setClause;
      this.whereClause := whereClause;
      this.parameters := parameters;
    }

    /** The set clause as stored (None for a set clause never given). */
    function GetSetClause(): (r: Option<string>)
      ensures r == setClause
    {
      setClause
    }

    /** The where clause, or the empty string when there is none. */
    function GetWhereClause(): (r: string)
      ensures whereClause.None? ==> r == EMPTY_STRING
      ensures whereClause.Some? ==> r == whereClause.value
    {
      whereClause.GetOr(EMPTY_STRING)
    }

    /** The optional where clause as stored. */
    function WhereClause(): (r: Option<string>)
      ensures r == whereClause
    {
      whereClause
    }

    /** The current entries of the shared parameter map, including any put into it after the build. */
    function GetParameters(): (r: map<string, Value>)
      reads parameters
      ensures r == parameters.entries
    {
      parameters.entries
    }

    /**
     * "update ", the table, a space, the set clause and then, only when a where
     * clause is present, a space and the where clause.
     */
    function GetFullUpdateStatement(): (r: string)
      ensures var head := "update " + tableName + ONE_SPACE + Concatenated(GetSetClause());
              && |head| <= |r|
              && r[..|head|] == head
              && (whereClause.None? ==> r == head)
              && (whereClause.Some? ==> r[|head|..] == ONE_SPACE + GetWhereClause())
    {
      "update " + tableName + ONE_SPACE + Concatenated(GetSetClause())
        + (match whereClause case Some(w) => ONE_SPACE + w case None => EMPTY_STRING)
    }

    /** An empty GetWhereClause means "no where clause", as long as a present where clause is never empty. */
    lemma EmptyWhereClauseMeansNone()
      requires whereClause.Some? ==> whereClause.value != ""
      ensures GetWhereClause() == "" <==> whereClause.None?
    {
    }
  }

  /** UpdateSupport.Builder */
  class Builder {
    const tableName: string
    var setClause: Option<string>
    var whereSupport: Option<WhereSupport>
    const parameters: ParameterMap

    constructor (tableName: string)
      ensures this.tableName == tableName
      ensures setClause == None && whereSupport == None
      ensures fresh(parameters) && parameters.entries == map[]
    {
      this.tableName := tableName;
      setClause := None;
      whereSupport := None;
      parameters := new ParameterMap();
    }

    method WithSetClause(setClause: string) returns (self: Builder)
      modifies this
      ensures self == this
      ensures this.setClause == Some(setClause) && whereSupport == old(whereSupport)
    {
      this.setClause := Some(setClause);
      self := this;
    }

    method WithWhereSupport(whereSupport: Option<WhereSupport>) returns (self: Builder)
      modifies this
      ensures self == this
      ensures this.whereSupport == whereSupport && setClause == old(setClause)
    {
      this.whereSupport := whereSupport;
      self := this;
    }

    /** Accumulates: every call puts its entries into the same map. */
    method WithParameters(parameters: map<string, Value>) returns (self: Builder)
      modifies this.parameters
      ensures self == this
      ensures this.parameters.entries == Merge(old(this.parameters.entries), parameters)
    {
      this.parameters.PutAll(parameters);
      self := this;
    }

    /**
     * Builds the statement: the table name and set clause are passed through,
     * the where clause is present exactly when a where support is, and the
     * where parameters are put into the builder's own map, which the result
     * then shares.
     */
    method Build() returns (u: UpdateSupport)
      modifies parameters
      ensures fresh(u)
      ensures u.tableName == tableName && u.GetSetClause() == setClause
      ensures u.WhereClause() == WhereText(whereSupport)
      ensures u.parameters == parameters
      ensures parameters.entries == MergedParameters(old(parameters.entries), whereSupport)
      ensures u.GetFullUpdateStatement()
           == "update " + tableName + " " + Concatenated(setClause)
              + (if whereSupport.Some? then " " + whereSupport.value.whereClause else "")
    {
      u := new UpdateSupport(tableName, setClause, WhereText(whereSupport), parameters);
      if whereSupport.Some? {
        parameters.PutAll(whereSupport.value.parameters);
      }
    }
  }
}
