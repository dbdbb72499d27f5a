/**
 * The OData query-string builder of msgraph_async/common/odata_query.py.
 *
 * A `Constrain` compares one attribute with one value through an operator
 * template; a `Filter` joins constraints with one logical connector; an
 * `ODataQuery` holds the system query options `$count`, `$expand`,
 * `$filter`, `$select` and `$top` (OData Version 4.01 Part 2, URL
 * Conventions, section 5.1) and serialises the ones that are set, in that
 * fixed order, or the sentinel EMPTY_QUERY when none is.
 */
module OData {
  import opened Results
  import opened Text

  /** `LogicalOperator`: how a constraint compares its attribute and value. */
  datatype LogicalOperator = Eq | Ne | Lt | Gt | Le | Ge | StartsWith | EndsWith

  /** The format template each operator carries. */
  function Template(op: LogicalOperator): string {
    match op
    case Eq => "{attribute} eq {val}"
    case Ne => "{attribute} ne {val}"
    case Lt => "{attribute} lt {val}"
    case Gt => "{attribute} gt {val}"
    case Le => "{attribute} le {val}"
    case Ge => "{attribute} ge {val}"
    case StartsWith => "startsWith({attribute}, {val})"
    case EndsWith => "endsWith({attribute}, {val})"
  }

  /**
   * Python's `t.format(attribute=a, val=v)` for a template whose only
   * replacement fields are `{attribute}` and `{val}`: each field is replaced
   * by the text given for it, and the replacement is not scanned again.
   */
  function Format(t: string, attribute: string, val: string): string
    decreases |t|
  {
    if |t| == 0 then ""
    else if HasPrefix(t, "{attribute}") then attribute + Format(t[11..], attribute, val)
    else if HasPrefix(t, "{val}") then val + Format(t[5..], attribute, val)
    else [t[0]] + Format(t[1..], attribute, val)
  }

  /** `LogicalConnector`: how the constraints of a filter are combined. */
  datatype LogicalConnector = And | Or {
    /** The enum member's name. */
    function Name(): string {
      match this
      case And => "AND"
      case Or => "OR"
    }
  }

  /** One comparison of a filter. */
  datatype Constrain = Constrain(attribute: string, operator: LogicalOperator, value: string) {
    /** `Constrain.__str__`: the operator's template with attribute and value substituted. */
    function ToString(): string {
      Format(Template(operator), attribute, value)
    }
  }

  /** The OData word of a comparison operator, or None for the two function-call operators. */
  function ComparisonWord(op: LogicalOperator): Option<string> {
    match op
    case Eq => Some("eq")
    case Ne => Some("ne")
    case Lt => Some("lt")
    case Gt => Some("gt")
    case Le => Some("le")
    case Ge => Some("ge")
    case _ => None
  }

  /** The OData function a string operator calls. */
  function FunctionName(op: LogicalOperator): string
    requires ComparisonWord(op).None?
  {
    if op == StartsWith then "startsWith" else "endsWith"
  }

  lemma {:induction false} FormatLiteral(lit: string, t: string, a: string, v: string)
    requires '{' !in lit
    ensures Format(lit + t, a, v) == lit + Format(t, a, v)
    decreases |lit|
  {
    if |lit| > 0 {
      var s := lit + t;
      NotPrefixAt(s, "{attribute}", 0);
      NotPrefixAt(s, "{val}", 0);
      assert s[1..] == lit[1..] + t;
      FormatLiteral(lit[1..], t, a, v);
      assert [lit[0]] + lit[1..] == lit;
    } else {
      assert lit + t == t;
    }
  }

  lemma FormatAttribute(t: string, a: string, v: string)
    ensures Format("{attribute}" + t, a, v) == a + Format(t, a, v)
  {
    var s := "{attribute}" + t;
    assert s[..11] == "{attribute}";
    assert s[11..] == t;
  }

  lemma FormatVal(t: string, a: string, v: string)
    ensures Format("{val}" + t, a, v) == v + Format(t, a, v)
  {
    var s := "{val}" + t;
    NotPrefixAt(s, "{attribute}", 1);
    assert s[..5] == "{val}";
    assert s[5..] == t;
  }

  lemma FormatInfix(w: string, a: string, v: string)
    requires '{' !in w
    ensures Format("{attribute} " + w + " {val}", a, v) == a + " " + w + " " + v
  {
    var t2 := "{val}" + "";
    var t1 := (" " + w + " ") + t2;
    assert "{attribute} " == "{attribute}" + " ";
    assert " {val}" == " " + t2;
    assert "{attribute} " + w + " {val}" == "{attribute}" + t1;
    FormatAttribute(t1, a, v);
    FormatLiteral(" " + w + " ", t2, a, v);
    FormatVal("", a, v);
    assert Format("", a, v) == "";
    assert a + (" " + w + " " + (v + "")) == a + " " + w + " " + v;
  }

  lemma FormatCall(f: string, a: string, v: string)
    requires '{' !in f
    ensures Format(f + "({attribute}, {val})", a, v) == f + "(" + a + ", " + v + ")"
  {
    var t3 := ")" + "";
    var t2 := "{val}" + t3;
    var t1 := ", " + t2;
    var t0 := "{attribute}" + t1;
    assert f + "({attribute}, {val})" == (f + "(") + t0;
    FormatLiteral(f + "(", t0, a, v);
    FormatAttribute(t1, a, v);
    FormatLiteral(", ", t2, a, v);
    FormatVal(t3, a, v);
    FormatLiteral(")", "", a, v);
  }

  /** Every operator renders through its template: `a op v` for comparisons, `fn(a, v)` for the rest. */
  lemma RenderShape(c: Constrain)
    ensures ComparisonWord(c.operator).Some? ==>
      c.ToString() == c.attribute + " " + ComparisonWord(c.operator).value + " " + c.value
    ensures ComparisonWord(c.operator).None? ==>
      c.ToString() == FunctionName(c.operator) + "(" + c.attribute + ", " + c.value + ")"
  {
    var a, v := c.attribute, c.value;
    match c.operator
    case Eq => assert Template(Eq) == "{attribute} " + "eq" + " {val}"; FormatInfix("eq", a, v);
    case Ne => assert Template(Ne) == "{attribute} " + "ne" + " {val}"; FormatInfix("ne", a, v);
    case Lt => assert Template(Lt) == "{attribute} " + "lt" + " {val}"; FormatInfix("lt", a, v);
    case Gt => assert Template(Gt) == "{attribute} " + "gt" + " {val}"; FormatInfix("gt", a, v);
    case Le => assert Template(Le) == "{attribute} " + "le" + " {val}"; FormatInfix("le", a, v);
    case Ge => assert Template(Ge) == "{attribute} " + "ge" + " {val}"; FormatInfix("ge", a, v);
    case StartsWith =>
      assert Template(StartsWith) == "startsWith" + "({attribute}, {val})";
      FormatCall("startsWith", a, v);
    case EndsWith =>
      assert Template(EndsWith) == "endsWith" + "({attribute}, {val})";
      FormatCall("endsWith", a, v);
  }

  /** The run-time values a setter may be handed; the setters check their types. */
  datatype Value =
    | VNone
    | VBool(b: bool)
    | VInt(i: int)
    | VStr(s: string)
    | VList(elems: seq<Value>)
    | VConstrain(c: Constrain)
    | VConnector(lc: LogicalConnector)
    | VOperator(op: LogicalOperator)
    | VFilter(f: Filter)
    | VObject            // any other object

  /** The `ValueError` a setter raises, with its message. */
  datatype SetterError = ValueError(message: string)

  /** What serialising can raise: `_build_filter` reads the connector of a filter that has none. */
  datatype QueryError = ConnectorMissing

  predicate AllConstrains(vs: seq<Value>) {
    forall i :: 0 <= i < |vs| ==> vs[i].VConstrain?
  }

  function ConstrainsOf(vs: seq<Value>): (r: seq<Constrain>)
    requires AllConstrains(vs)
    ensures |r| == |vs| && forall i :: 0 <= i < |vs| ==> vs[i] == VConstrain(r[i])
  {
    seq(|vs|, i requires 0 <= i < |vs| => vs[i].c)
  }

  predicate AllStrings(vs: seq<Value>) {
    forall i :: 0 <= i < |vs| ==> vs[i].VStr?
  }

  function StringsOf(vs: seq<Value>): (r: seq<string>)
    requires AllStrings(vs)
    ensures |r| == |vs| && forall i :: 0 <= i < |vs| ==> vs[i] == VStr(r[i])
  {
    seq(|vs|, i requires 0 <= i < |vs| => vs[i].s)
  }

  /** The state of a `Filter` as a value. */
  datatype FilterView = FilterView(constrains: Option<seq<Constrain>>, connector: Option<LogicalConnector>)

  /** `Filter`: an ordered list of constraints and the connector placed between them. */
  class Filter {
    var constrains: Option<seq<Constrain>>
    var connector: Option<LogicalConnector>

    constructor ()
      ensures constrains == None && connector == None
    {
      constrains := None;
      connector := None;
    }

    function View(): FilterView
      reads this
    {
      FilterView(constrains, connector)
    }

    /** The `constrains` setter: a list whose every element is a `Constrain`, or an error and no change. */
    method SetConstrains(value: Value) returns (r: Outcome<SetterError>)
      modifies this
      ensures !value.VList? ==> r == Fail(ValueError("constrains must be list"))
      ensures value.VList? && !AllConstrains(value.elems) ==> r == Fail(ValueError("all values must be constrains"))
      ensures value.VList? && AllConstrains(value.elems) ==> r == Pass
      ensures constrains == if r.Pass? then Some(ConstrainsOf(value.elems)) else old(constrains)
      ensures connector == old(connector)
    {
      if !value.VList? {
        return Fail(ValueError("constrains must be list"));
      }
      var vs := value.elems;
      var i := 0;
      while i < |vs|
        invariant 0 <= i <= |vs|
        invariant forall j :: 0 <= j < i ==> vs[j].VConstrain?
      {
        if !vs[i].VConstrain? {
          return Fail(ValueError("all values must be constrains"));
        }
        i := i + 1;
      }
      constrains := Some(ConstrainsOf(vs));
      return Pass;
    }

    /** The `logical_connector` setter: a `LogicalConnector`, or an error and no change. */
    method SetConnector(value: Value) returns (r: Outcome<SetterError>)
      modifies this
      ensures r == if value.VConnector? then Pass
                   else Fail(ValueError("logical connector must be of type LogicalConnector"))
      ensures connector == if value.VConnector? then Some(value.lc) else old(connector)
      ensures constrains == old(constrains)
    {
      if !value.VConnector? {
        return Fail(ValueError("logical connector must be of type LogicalConnector"));
      }
      connector := Some(value.lc);
      return Pass;
    }
  }

  /** The rendered constraints, in list order. */
  function Renders(cs: seq<Constrain>): (r: seq<string>)
    ensures |r| == |cs| && forall i :: 0 <= i < |cs| ==> r[i] == cs[i].ToString()
    decreases |cs|
  {
    if cs == [] then [] else
      var r := Renders(cs[..|cs| - 1]);
      assert forall i :: 0 <= i < |cs| - 1 ==> cs[..|cs| - 1][i] == cs[i];
      r + [cs[|cs| - 1].ToString()]
  }

  /** The text placed between two constraints: the connector's name lower-cased, between spaces. */
  function Separator(c: LogicalConnector): string {
    " " + Lower(c.Name()) + " "
  }

  /**
   * What `_build_filter` yields: the constraints joined by the connector;
   * a filter of two or more constraints without a connector raises.
   */
  function FilterText(cs: seq<Constrain>, connector: Option<LogicalConnector>): Result<string, QueryError> {
    if |cs| >= 2 && connector.None? then Err(ConnectorMissing)
    else Ok(Join(Renders(cs), if connector.Some? then Separator(connector.value) else ""))
  }

  /** A rendered constraint is never empty. */
  lemma RenderNonEmpty(c: Constrain)
    ensures c.ToString() != ""
  {
    RenderShape(c);
    if ComparisonWord(c.operator).Some? {
      assert |c.ToString()| >= 2;
    } else {
      assert |c.ToString()| >= 2;
    }
  }

  lemma RendersSnoc(cs: seq<Constrain>, i: nat)
    requires i < |cs|
    ensures Renders(cs[..i + 1]) == Renders(cs[..i]) + [cs[i].ToString()]
  {
    assert cs[..i + 1][..i] == cs[..i];
  }

  /**
   * One more constraint on a prefix whose text is `res`: with text already
   * there the connector is needed and goes in between; the new text is
   * never empty.
   */
  lemma FilterTextSnoc(cs: seq<Constrain>, connector: Option<LogicalConnector>, i: nat, res: string)
    requires i < |cs| && FilterText(cs[..i], connector) == Ok(res) && (res == "") == (i == 0)
    ensures cs[i].ToString() != ""
    ensures res != "" && connector.None? ==> FilterText(cs, connector) == Err(ConnectorMissing)
    ensures res == "" ==> FilterText(cs[..i + 1], connector) == Ok(cs[i].ToString())
    ensures res != "" && connector.Some? ==>
      FilterText(cs[..i + 1], connector) == Ok(res + Separator(connector.value) + cs[i].ToString())
  {
    RenderNonEmpty(cs[i]);
    RendersSnoc(cs, i);
    if res == "" {
      assert Renders(cs[..i + 1]) == [cs[i].ToString()];
    } else if connector.Some? {
      JoinSnoc(Renders(cs[..i]), cs[i].ToString(), Separator(connector.value));
    }
  }

  /** The state of an `ODataQuery` as a value. */
  datatype QueryView = QueryView(
    count: Option<bool>,
    expand: Option<string>,
    filter: Option<FilterView>,
    select: Option<seq<string>>,
    top: Option<int>)

  // Python truthiness of each field: None, False, "", [] and 0 are all unset.
  predicate CountSet(q: QueryView) { q.count == Some(true) }
  predicate ExpandSet(q: QueryView) { q.expand.Some? && q.expand.value != "" }
  predicate FilterSet(q: QueryView) { q.filter.Some? }
  predicate SelectSet(q: QueryView) { q.select.Some? && q.select.value != [] }
  predicate TopSet(q: QueryView) { q.top.Some? && q.top.value != 0 }

  predicate AnySet(q: QueryView) {
    CountSet(q) || ExpandSet(q) || FilterSet(q) || SelectSet(q) || TopSet(q)
  }

  /** The filter has constraints to render. */
  predicate HasConstrains(q: QueryView) {
    q.filter.Some? && q.filter.value.constrains.Some? && q.filter.value.constrains.value != []
  }

  const EMPTY_QUERY := "EMPTY OPEN DATA QUERY"

  /** The filter text when there is one to render, or what rendering it raises. */
  function FilterOutput(q: QueryView): Result<Option<string>, QueryError> {
    if HasConstrains(q) then
      match FilterText(q.filter.value.constrains.value, q.filter.value.connector)
      case Ok(t) => Ok(Some(t))
      case Err(e) => Err(e)
    else Ok(None)
  }

  // The entry each option adds to the `res` list of `ODataQuery.__str__`.
  function CountPart(q: QueryView): seq<string> {
    if CountSet(q) then ["$count=true"] else []
  }
  function ExpandPart(q: QueryView): seq<string> {
    if ExpandSet(q) then ["$expand=" + Lower(q.expand.value)] else []
  }
  function FilterPart(filterText: Option<string>): seq<string> {
    if filterText.Some? then ["$filter=" + filterText.value] else []
  }
  function SelectPart(q: QueryView): seq<string> {
    if SelectSet(q) then ["$select=" + Join(q.select.value, ",")] else []
  }
  function TopPart(q: QueryView): seq<string> {
    if TopSet(q) then ["$top=" + IntToString(q.top.value)] else []
  }

  /** The `res` list of `ODataQuery.__str__`: each present option, in the fixed order. */
  function Parts(q: QueryView, filterText: Option<string>): seq<string> {
    CountPart(q) + ExpandPart(q) + FilterPart(filterText) + SelectPart(q) + TopPart(q)
  }

  /** What `ODataQuery.__str__` yields for a query in state `q`. */
  function Serialize(q: QueryView): Result<string, QueryError> {
    if !AnySet(q) then Ok(EMPTY_QUERY)
    else
      match FilterOutput(q)
      case Err(e) => Err(e)
      case Ok(f) => Ok("?" + Join(Parts(q, f), "&"))
  }

  /** Python's `str(b)`. */
  function BoolText(b: bool): string {
    if b then "True" else "False"
  }

  lemma LowerTrue()
    ensures Lower(BoolText(true)) == "true"
  {
    assert Lower("True") == "true";
  }

  /** `ODataQuery`: the five optional system query options. */
  class ODataQuery {
    var count: Option<bool>
    var expand: Option<string>
    var filter: Filter?
    var select: Option<seq<string>>
    var top: Option<int>

    constructor ()
      ensures count == None && expand == None && filter == null && select == None && top == None
    {
      count, expand, filter, select, top := None, None, null, None, None;
    }

    function View(): QueryView
      reads this, filter
    {
      QueryView(count, expand, if filter == null then None else Some(filter.View()), select, top)
    }

    /** The `count` setter: a bool, or an error and no change. */
    method SetCount(value: Value) returns (r: Outcome<SetterError>)
      modifies this
      ensures r == if value.VBool? then Pass else Fail(ValueError("count must be boolean"))
      ensures count == if value.VBool? then Some(value.b) else old(count)
      ensures expand == old(expand) && filter == old(filter) && select == old(select) && top == old(top)
    {
      if !value.VBool? {
        return Fail(ValueError("count must be boolean"));
      }
      count := Some(value.b);
      return Pass;
    }

    /** The `expand` setter: a string, or an error and no change. */
    method SetExpand(value: Value) returns (r: Outcome<SetterError>)
      modifies this
      ensures r == if value.VStr? then Pass else Fail(ValueError("expand must be string"))
      ensures expand == if value.VStr? then Some(value.s) else old(expand)
      ensures count == old(count) && filter == old(filter) && select == old(select) && top == old(top)
    {
      if !value.VStr? {
        return Fail(ValueError("expand must be string"));
      }
      expand := Some(value.s);
      return Pass;
    }

    /** The `filter` setter: a `Filter` object, or an error and no change. */
    method SetFilter(value: Value) returns (r: Outcome<SetterError>)
      modifies this
      ensures r == if value.VFilter? then Pass else Fail(ValueError("filter must of Filter type"))
      ensures filter == if value.VFilter? then value.f else old(filter)
      ensures count == old(count) && expand == old(expand) && select == old(select) && top == old(top)
    {
      if !value.VFilter? {
        return Fail(ValueError("filter must of Filter type"));
      }
      filter := value.f;
      return Pass;
    }

    /** The `select` setter: a list of strings only, or an error and no change. */
    method SetSelect(value: Value) returns (r: Outcome<SetterError>)
      modifies this
      ensures !value.VList? ==> r == Fail(ValueError("select must be list of strings"))
      ensures value.VList? && !AllStrings(value.elems) ==> r == Fail(ValueError("all values should be strings"))
      ensures value.VList? && AllStrings(value.elems) ==> r == Pass
      ensures select == if r.Pass? then Some(StringsOf(value.elems)) else old(select)
      ensures count == old(count) && expand == old(expand) && filter == old(filter) && top == old(top)
    {
      if !value.VList? {
        return Fail(ValueError("select must be list of strings"));
      }
      var vs := value.elems;
      var i := 0;
      while i < |vs|
        invariant 0 <= i <= |vs|
        invariant forall j :: 0 <= j < i ==> vs[j].VStr?
      {
        if !vs[i].VStr? {
          return Fail(ValueError("all values should be strings"));
        }
        i := i + 1;
      }
      select := Some(StringsOf(vs));
      return Pass;
    }

    /** The `top` setter: exactly an int (a bool is refused), or an error and no change. */
    method SetTop(value: Value) returns (r: Outcome<SetterError>)
      modifies this
      ensures r == if value.VInt? then Pass else Fail(ValueError("top must be integer"))
      ensures top == if value.VInt? then Some(value.i) else old(top)
      ensures count == old(count) && expand == old(expand) && filter == old(filter) && select == old(select)
    {
      if !value.VInt? {
        return Fail(ValueError("top must be integer"));
      }
      top := Some(value.i);
      return Pass;
    }

    /** `_build_filter`: appends the connector only once some text has been produced. */
    method BuildFilter() returns (r: Result<string, QueryError>)
      requires filter != null && filter.constrains.Some?
      ensures r == FilterText(filter.constrains.value, filter.connector)
    {
      var cs, lc := filter.constrains.value, filter.connector;
      var res := "";
      for i := 0 to |cs|
        invariant FilterText(cs[..i], lc) == Ok(res)
        invariant (res == "") == (i == 0)
      {
        FilterTextSnoc(cs, lc, i, res);
        if res != "" {
          if lc.None? {
            return Err(ConnectorMissing);
          }
          res := res + Separator(lc.value);
        }
        res := res + cs[i].ToString();
        assert "" + cs[i].ToString() == cs[i].ToString();
      }
      assert cs[..|cs|] == cs;
      return Ok(res);
    }

    /** `__str__`: the sentinel when nothing is set, else `?` and the present options joined by `&`. */
    method ToString() returns (r: Result<string, QueryError>)
      ensures r == Serialize(View())
    {
      var q := View();
      if !CountSet(q) && !ExpandSet(q) && !FilterSet(q) && !SelectSet(q) && !TopSet(q) {
        return Ok(EMPTY_QUERY);
      }
      var res: seq<string> := [];
      if CountSet(q) {
        LowerTrue();
        assert "$count=" + "true" == "$count=true";
        res := res + ["$count=" + Lower(BoolText(q.count.value))];
      }
      assert res == CountPart(q);
      if ExpandSet(q) {
        res := res + ["$expand=" + Lower(q.expand.value)];
      }
      assert res == CountPart(q) + ExpandPart(q);
      ghost var f: Option<string> := None;
      if HasConstrains(q) {
        var text := BuildFilter();
        if text.Err? {
          return Err(text.error);
        }
        f := Some(text.value);
        res := res + ["$filter=" + text.value];
      }
      assert res == CountPart(q) + ExpandPart(q) + FilterPart(f);
      if SelectSet(q) {
        res := res + ["$select=" + Join(q.select.value, ",")];
      }
      assert res == CountPart(q) + ExpandPart(q) + FilterPart(f) + SelectPart(q);
      if TopSet(q) {
        res := res + ["$top=" + IntToString(q.top.value)];
      }
      assert res == Parts(q, f);
      assert FilterOutput(q) == Ok(f);
      return Ok("?" + Join(res, "&"));
    }
  }
}
