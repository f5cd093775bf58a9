/** Translation of a hybrid-search filter dictionary into the vector store's
    predicate tree (main.py, hybrid_search, lines 200-216). */
module WhereClause {
  import opened Wrappers
  import opened RagTypes

  /** The condition for one filter item: an operator dictionary passes through,
      any other value becomes an equality test. */
  function Condition(key: string, value: Value): (c: Where)
    ensures (c.Eq? || c.Range?) && c.key == key
    ensures value.Dict? <==> c.Range?
    ensures value.Dict? ==> c.ops == value.entries
    ensures !value.Dict? ==> c.Eq? && c.value == value
  {
    if value.Dict? then Range(key, value.entries) else Eq(key, value)
  }

  /** One condition per filter item, in the filter's order. */
  function Conditions(f: Filter): seq<Where>
  {
    seq(|f|, i requires 0 <= i < |f| => Condition(f[i].0, f[i].1))
  }

  /** A single condition stands alone; several are joined under $and. */
  function Combine(conds: seq<Where>): Where
  {
    if |conds| == 1 then conds[0] else And(conds)
  }

  /** The where clause hybrid_search passes to the store; None when the filter
      is None or empty (both are false in Python). */
  function WhereFor(filters: Option<Filter>): Option<Where>
  {
    if filters.None? || |filters.value| == 0 then None
    else Some(Combine(Conditions(filters.value)))
  }

  /** The loop of hybrid_search that appends one condition per filter item
      and then combines them. */
  method BuildWhereClause(filters: Option<Filter>) returns (w: Option<Where>)
    ensures w == WhereFor(filters)
  {
    w := None;
    if filters.Some? && |filters.value| > 0 {
      var f := filters.value;
      var conditions: seq<Where> := [];
      var i := 0;
      while i < |f|
        invariant 0 <= i <= |f|
        invariant conditions == Conditions(f[..i])
      {
        var (key, value) := f[i];
        conditions := conditions + [Condition(key, value)];
        i := i + 1;
      }
      assert f[..i] == f;
      if |conditions| == 1 {
        w := Some(conditions[0]);
      } else {
        w := Some(And(conditions));
      }
    }
  }

  /** No where clause exactly when the filter is None or empty. */
  lemma NoClauseIffNoFilter(filters: Option<Filter>)
    ensures WhereFor(filters).None? <==> (filters.None? || filters.value == [])
  {
  }

  /** Exactly one condition per filter key, in iteration order, each built
      from that key's value. */
  lemma ConditionsPerItem(f: Filter)
    ensures |Conditions(f)| == |f|
    ensures forall i :: 0 <= i < |f| ==>
      Conditions(f)[i] == (if f[i].1.Dict? then Range(f[i].0, f[i].1.entries) else Eq(f[i].0, f[i].1))
  {
  }

  /** A one-item filter gives a bare condition; a longer one an $and over all
      its conditions; the $and is never empty, never a singleton and never nested. */
  lemma ClauseShape(f: Filter)
    requires |f| > 0
    ensures |f| == 1 ==> WhereFor(Some(f)) == Some(Condition(f[0].0, f[0].1))
    ensures |f| >= 2 ==> WhereFor(Some(f)) == Some(And(Conditions(f)))
    ensures WhereFor(Some(f)).Some? && !WhereFor(Some(f)).value.And? ==> |f| == 1
    ensures WhereFor(Some(f)).Some? && WhereFor(Some(f)).value.And? ==>
      var cs := WhereFor(Some(f)).value.clauses;
      |cs| >= 2 && forall k :: 0 <= k < |cs| ==> !cs[k].And?
  {
    var cs := Conditions(f);
    assert forall k :: 0 <= k < |cs| ==> cs[k] == Condition(f[k].0, f[k].1);
  }

  /** The filter {"category": "electronics", "price": {"$lt": 300}} becomes
      $and[{category: {$eq: electronics}}, {price: {$lt: 300}}]. */
  lemma ElectronicsUnder300()
    ensures WhereFor(Some([("category", Str("electronics")), ("price", Dict([("$lt", Int(300))]))]))
         == Some(And([Eq("category", Str("electronics")), Range("price", [("$lt", Int(300))])]))
  {
    var f: Filter := [("category", Str("electronics")), ("price", Dict([("$lt", Int(300))]))];
    assert Conditions(f) == [Eq("category", Str("electronics")), Range("price", [("$lt", Int(300))])];
  }
}
