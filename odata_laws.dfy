/**
 * What `ODataQuery.__str__` and `_build_filter` promise, stated over the
 * value model (`Serialize`, `FilterText`) that the methods of
 * `OData.ODataQuery` are proved to compute.
 */
module QueryLaws {
  import opened Results
  import opened Text
  import opened OData

  /** The sentinel comes back exactly when count, expand, filter, select and top are all falsy. */
  lemma SentinelIffUnset(q: QueryView)
    ensures Serialize(q) == Ok(EMPTY_QUERY) <==> !AnySet(q)
  {
    if AnySet(q) && FilterOutput(q).Ok? {
      var s := "?" + Join(Parts(q, FilterOutput(q).value), "&");
      assert Serialize(q) == Ok(s);
      assert s[0] != EMPTY_QUERY[0];
    }
  }

  /** Falsy values are unset: `count=False`, `expand=""`, `select=[]` and `top=0` give the sentinel. */
  lemma FalsyOptionsGiveSentinel(q: QueryView)
    requires q.count == Some(false) && q.expand == Some("") && q.filter == None
    requires q.select == Some([]) && q.top == Some(0)
    ensures Serialize(q) == Ok(EMPTY_QUERY)
  {
    SentinelIffUnset(q);
  }

  /** Serialising fails exactly when a filter has two or more constraints and no connector. */
  lemma FailsIffConnectorMissing(q: QueryView)
    ensures Serialize(q).Err? <==>
      HasConstrains(q) && |q.filter.value.constrains.value| >= 2 && q.filter.value.connector.None?
  {
  }

  /** A filter without constraints adds no `$filter` entry but still keeps the sentinel away. */
  lemma EmptyFilterAlone(q: QueryView)
    requires q.filter.Some? && !HasConstrains(q)
    requires !CountSet(q) && !ExpandSet(q) && !SelectSet(q) && !TopSet(q)
    ensures Serialize(q) == Ok("?")
  {
    assert FilterOutput(q) == Ok(None);
    assert Parts(q, None) == [];
    assert "?" + Join([], "&") == "?";
  }

  /** The connector's lower-cased name between spaces. */
  lemma SeparatorWords()
    ensures Separator(And) == " and " && Separator(Or) == " or "
  {
    assert Lower("AND") == "and";
    assert Lower("OR") == "or";
  }

  /** A single constraint renders alone whatever the connector, even when there is none. */
  lemma SingleConstraint(c: Constrain, connector: Option<LogicalConnector>)
    ensures FilterText([c], connector) == Ok(c.ToString())
  {
    assert Renders([c]) == [c.ToString()];
  }

  /** With a connector, the constraints render in list order, joined by ` and ` or ` or `. */
  lemma FilterTextJoins(cs: seq<Constrain>, lc: LogicalConnector)
    ensures FilterText(cs, Some(lc)) == Ok(Join(Renders(cs), if lc == And then " and " else " or "))
  {
    SeparatorWords();
  }

  /** Two constraints with a connector: the first, the connector's word, the second. */
  lemma FilterTextPair(c1: Constrain, c2: Constrain, lc: LogicalConnector)
    ensures FilterText([c1, c2], Some(lc)) == Ok(c1.ToString() + Separator(lc) + c2.ToString())
  {
    assert Renders([c1, c2]) == [c1.ToString(), c2.ToString()];
    JoinPair(c1.ToString(), c2.ToString(), Separator(lc));
  }

  lemma RenderComparison(a: string, op: LogicalOperator, v: string)
    requires ComparisonWord(op).Some?
    ensures Constrain(a, op, v).ToString() == a + " " + ComparisonWord(op).value + " " + v
  {
    RenderShape(Constrain(a, op, v));
  }

  /**
   * Two comparisons joined by OR render as `a1 eq v1 or a2 gt v2`; with
   * `name`, `'x'`, `age` and `'10'` this is `name eq 'x' or age gt '10'`.
   */
  lemma OrOfComparisons(a1: string, v1: string, a2: string, v2: string)
    ensures FilterText([Constrain(a1, Eq, v1), Constrain(a2, Gt, v2)], Some(Or))
      == Ok(a1 + " eq " + v1 + " or " + a2 + " gt " + v2)
  {
    RenderComparison(a1, Eq, v1);
    RenderComparison(a2, Gt, v2);
    SeparatorWords();
    FilterTextPair(Constrain(a1, Eq, v1), Constrain(a2, Gt, v2), Or);
    var x := a1 + " eq " + v1 + " or ";
    assert x + (a2 + " gt " + v2) == x + a2 + " gt " + v2;
    assert a1 + " " + "eq" + " " + v1 == a1 + " eq " + v1;
    assert a2 + " " + "gt" + " " + v2 == a2 + " gt " + v2;
  }

  /** A query whose only option is a page size serialises to that option alone. */
  lemma TopOnly(q: QueryView)
    requires TopSet(q) && !CountSet(q) && !ExpandSet(q) && q.filter.None? && !SelectSet(q)
    ensures Serialize(q) == Ok("?$top=" + IntToString(q.top.value))
  {
    var p := "$top=" + IntToString(q.top.value);
    assert FilterOutput(q) == Ok(None);
    assert Parts(q, None) == [p];
    assert Join([p], "&") == p;
    assert AnySet(q);
    assert Serialize(q) == Ok("?" + p);
    assert "?" + p == "?$top=" + IntToString(q.top.value);
  }

  lemma TopFifty()
    ensures Serialize(QueryView(None, None, None, None, Some(50))) == Ok("?$top=50")
  {
    var q := QueryView(None, None, None, None, Some(50));
    TopOnly(q);
    assert NatToString(5) == ['5'];
    assert DigitChar(0) == '0';
    assert IntToString(50) == "50";
    assert "?$top=" + "50" == "?$top=50";
  }

  lemma AllParts(e: string, n1: string, n2: string, t: int)
    requires e != "" && t != 0
    ensures Parts(QueryView(Some(true), Some(e), None, Some([n1, n2]), Some(t)), None)
      == ["$count=true", "$expand=" + Lower(e), "$select=" + n1 + "," + n2, "$top=" + IntToString(t)]
  {
    JoinPair(n1, n2, ",");
    assert "$select=" + (n1 + "," + n2) == "$select=" + n1 + "," + n2;
  }

  /**
   * Every option at once: count renders as `true`, expand is lower-cased,
   * the selected names are comma-joined, and the entries come in the fixed
   * order count, expand, select, top.
   */
  lemma AllOptions(e: string, n1: string, n2: string, t: int)
    requires e != "" && t != 0
    ensures Serialize(QueryView(Some(true), Some(e), None, Some([n1, n2]), Some(t)))
      == Ok("?" + Join(["$count=true", "$expand=" + Lower(e), "$select=" + n1 + "," + n2, "$top=" + IntToString(t)], "&"))
  {
    var q := QueryView(Some(true), Some(e), None, Some([n1, n2]), Some(t));
    assert FilterOutput(q) == Ok(None);
    AllParts(e, n1, n2, t);
  }
}
