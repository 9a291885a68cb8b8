/**
 * The update parameter object of the query-by-example package: a set clause,
 * a where clause and their parameters, handed to a mapper method as one object.
 */
module QbeUpdate {
  import opened Parameters

  /**
   * The datatype constructor plays the private constructor. The parameters are
   * held as a map value: a copy that nobody can change afterwards, which is
   * what the unmodifiable copy of the caller's HashMap gives.
   */
  datatype UpdateSupport = UpdateSupport(setClause: string, whereClause: string, parameters: map<string, Value>) {

    function GetSetClause(): string {
      setClause
    }

    function GetWhereClause(): string {
      whereClause
    }

    function GetParameters(): map<string, Value> {
      parameters
    }
  }

  /** UpdateSupport.of: the getters give back exactly the clauses and the entries passed in. */
  function Of(setClause: string, whereClause: string, parameters: ParameterMap): (u: UpdateSupport)
    reads parameters
    ensures u.GetSetClause() == setClause
    ensures u.GetWhereClause() == whereClause
    ensures u.GetParameters() == parameters.entries
  {
    UpdateSupport(setClause, whereClause, parameters.entries)
  }

  /**
   * A caller that keeps filling its map after calling of: the object keeps the
   * entries the map had at the call, while the caller's map goes on changing.
   */
  method CallerMutationDoesNotReach(setClause: string, whereClause: string, parameters: ParameterMap,
                                    more: map<string, Value>) returns (u: UpdateSupport)
    modifies parameters
    ensures u.GetParameters() == old(parameters.entries)
    ensures parameters.entries == Merge(old(parameters.entries), more)
  {
    u := Of(setClause, whereClause, parameters);
    parameters.PutAll(more);
  }
}
