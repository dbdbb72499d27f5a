/**
 * Reading a serialised query fragment back into its options.
 *
 * `ParseQuery` is an independent reader of the format `ODataQuery.__str__`
 * writes: the sentinel, or `?` followed by `$name=text` entries separated
 * by `&`, accepted only in the fixed order count, expand, filter, select,
 * top. `ParseSerialize` proves that reading back what `Serialize` wrote
 * recovers every option that was set, which pins down both the content and
 * the order of the fragment.
 */
module QueryParse {
  import opened Results
  import opened Text
  import opened OData

  /** What a query fragment says about each option. */
  datatype Options = Options(
    count: bool,
    expand: Option<string>,
    filter: Option<string>,
    select: Option<seq<string>>,
    top: Option<int>)

  const NO_OPTIONS := Options(false, None, None, None, None)

  /** The first occurrence of `c` splits `s` into the text before it and the text after it. */
  function Cut(s: string, c: char): Option<(string, string)>
    decreases |s|
  {
    if |s| == 0 then None
    else if s[0] == c then Some(("", s[1..]))
    else
      match Cut(s[1..], c)
      case None => None
      case Some(p) => Some(([s[0]] + p.0, p.1))
  }

  lemma {:induction false} CutAt(a: string, b: string, c: char)
    requires c !in a
    ensures Cut(a + [c] + b, c) == Some((a, b))
    decreases |a|
  {
    var s := a + [c] + b;
    if |a| == 0 {
      assert s == [c] + b;
      assert s[1..] == b;
    } else {
      assert s[0] == a[0];
      assert s[1..] == a[1..] + [c] + b;
      CutAt(a[1..], b, c);
      assert [a[0]] + a[1..] == a;
    }
  }

  /** One `$name=text` entry; the name ends at the first `=`. */
  function ParsePart(s: string): Option<(string, string)> {
    if |s| == 0 || s[0] != '$' then None else Cut(s[1..], '=')
  }

  function ParseParts(ss: seq<string>): Option<seq<(string, string)>>
    decreases |ss|
  {
    if |ss| == 0 then Some([])
    else
      match ParsePart(ss[0])
      case None => None
      case Some(p) =>
        match ParseParts(ss[1..])
        case None => None
        case Some(ps) => Some([p] + ps)
  }

  /** Takes the entry named `key` if it comes next. */
  function Take(kvs: seq<(string, string)>, key: string): (Option<string>, seq<(string, string)>) {
    if |kvs| > 0 && kvs[0].0 == key then (Some(kvs[0].1), kvs[1..]) else (None, kvs)
  }

  /** The options of a list of entries, which must come in the fixed order and each at most once. */
  function OptionsOf(kvs: seq<(string, string)>): Option<Options> {
    var (c, r1) := Take(kvs, "count");
    var (e, r2) := Take(r1, "expand");
    var (f, r3) := Take(r2, "filter");
    var (s, r4) := Take(r3, "select");
    var (t, r5) := Take(r4, "top");
    if r5 != [] then None
    else if c.Some? && c.value != "true" then None
    else if t.Some? && ParseInt(t.value).None? then None
    else Some(Options(
      c.Some?, e, f,
      if s.Some? then Some(Split(s.value, ',')) else None,
      if t.Some? then ParseInt(t.value) else None))
  }

  /** Reads a fragment written by `ODataQuery.__str__`, or None when it is not one. */
  function ParseQuery(s: string): Option<Options> {
    if s == EMPTY_QUERY || s == "?" then Some(NO_OPTIONS)
    else if |s| == 0 || s[0] != '?' then None
    else
      match ParseParts(Split(s[1..], '&'))
      case None => None
      case Some(kvs) => OptionsOf(kvs)
  }

  /** The options a query in state `q` sets, as its fragment should carry them. */
  function Expected(q: QueryView, filterText: Option<string>): Options {
    Options(
      CountSet(q),
      if ExpandSet(q) then Some(Lower(q.expand.value)) else None,
      filterText,
      if SelectSet(q) then Some(q.select.value) else None,
      if TopSet(q) then Some(q.top.value) else None)
  }

  /**
   * The options hold no character that would break the fragment apart:
   * no `&` anywhere, and no `,` inside a selected name.
   */
  predicate Separable(q: QueryView) {
    (ExpandSet(q) ==> '&' !in q.expand.value)
    && (SelectSet(q) ==> forall n :: n in q.select.value ==> '&' !in n && ',' !in n)
    && (HasConstrains(q) ==> forall c :: c in q.filter.value.constrains.value ==>
          '&' !in c.attribute && '&' !in c.value)
  }

  // The (name, text) view of the entries of `Parts`.
  function Opt(key: string, text: Option<string>): seq<(string, string)> {
    if text.Some? then [(key, text.value)] else []
  }

  function Pairs(q: QueryView, filterText: Option<string>): seq<(string, string)> {
    Opt("count", if CountSet(q) then Some("true") else None)
    + Opt("expand", if ExpandSet(q) then Some(Lower(q.expand.value)) else None)
    + Opt("filter", filterText)
    + Opt("select", if SelectSet(q) then Some(Join(q.select.value, ",")) else None)
    + Opt("top", if TopSet(q) then Some(IntToString(q.top.value)) else None)
  }

  function PartText(p: (string, string)): string {
    "$" + p.0 + "=" + p.1
  }

  function Texts(ps: seq<(string, string)>): (r: seq<string>)
    ensures |r| == |ps| && forall i :: 0 <= i < |ps| ==> r[i] == PartText(ps[i])
  {
    seq(|ps|, i requires 0 <= i < |ps| => PartText(ps[i]))
  }

  lemma TextsOpt(key: string, text: Option<string>)
    ensures Texts(Opt(key, text)) == if text.Some? then ["$" + key + "=" + text.value] else []
  {
  }

  lemma {:induction false} ParseTexts(ps: seq<(string, string)>)
    requires forall p :: p in ps ==> '=' !in p.0
    ensures ParseParts(Texts(ps)) == Some(ps)
    decreases |ps|
  {
    if |ps| > 0 {
      var t := Texts(ps);
      assert t[0] == "$" + (ps[0].0 + [('=')] + ps[0].1);
      assert t[0][1..] == ps[0].0 + ['='] + ps[0].1;
      assert ps[0] in ps;
      CutAt(ps[0].0, ps[0].1, '=');
      assert t[1..] == Texts(ps[1..]);
      assert forall p :: p in ps[1..] ==> p in ps;
      ParseTexts(ps[1..]);
      assert [ps[0]] + ps[1..] == ps;
    }
  }

  lemma TextsAppend(a: seq<(string, string)>, b: seq<(string, string)>)
    ensures Texts(a + b) == Texts(a) + Texts(b)
  {
    assert |Texts(a + b)| == |Texts(a) + Texts(b)|;
    forall i | 0 <= i < |a| + |b| ensures Texts(a + b)[i] == (Texts(a) + Texts(b))[i] {
      if i >= |a| {
        assert (a + b)[i] == b[i - |a|];
      }
    }
  }

  /** The entries of `Serialize` are the texts of the (name, text) view. */
  lemma PartsArePairs(q: QueryView, f: Option<string>)
    ensures Parts(q, f) == Texts(Pairs(q, f))
  {
    var c := Opt("count", if CountSet(q) then Some("true") else None);
    var e := Opt("expand", if ExpandSet(q) then Some(Lower(q.expand.value)) else None);
    var fi := Opt("filter", f);
    var s := Opt("select", if SelectSet(q) then Some(Join(q.select.value, ",")) else None);
    var t := Opt("top", if TopSet(q) then Some(IntToString(q.top.value)) else None);
    assert Texts(c) == CountPart(q) by {
      TextsOpt("count", if CountSet(q) then Some("true") else None);
      assert "$" + "count" + "=" + "true" == "$count=true";
    }
    assert Texts(e) == ExpandPart(q) by {
      TextsOpt("expand", if ExpandSet(q) then Some(Lower(q.expand.value)) else None);
      assert "$" + "expand" + "=" == "$expand=";
    }
    assert Texts(fi) == FilterPart(f) by {
      TextsOpt("filter", f);
      assert "$" + "filter" + "=" == "$filter=";
    }
    assert Texts(s) == SelectPart(q) by {
      TextsOpt("select", if SelectSet(q) then Some(Join(q.select.value, ",")) else None);
      assert "$" + "select" + "=" == "$select=";
    }
    assert Texts(t) == TopPart(q) by {
      TextsOpt("top", if TopSet(q) then Some(IntToString(q.top.value)) else None);
      assert "$" + "top" + "=" == "$top=";
    }
    TextsAppend(c, e);
    TextsAppend(c + e, fi);
    TextsAppend(c + e + fi, s);
    TextsAppend(c + e + fi + s, t);
  }

  lemma TakeOpt(key: string, text: Option<string>, rest: seq<(string, string)>)
    requires rest == [] || rest[0].0 != key
    ensures Take(Opt(key, text) + rest, key) == (text, rest)
  {
    if text.Some? {
      assert (Opt(key, text) + rest)[1..] == rest;
    } else {
      assert Opt(key, text) + rest == rest;
    }
  }

  /** The reader takes the five options from a list of entries written in the fixed order. */
  lemma OptionsOfChain(
    ct: Option<string>, et: Option<string>, ft: Option<string>, st: Option<string>, tt: Option<string>)
    requires ct == None || ct == Some("true")
    requires tt.Some? ==> ParseInt(tt.value).Some?
    ensures OptionsOf(Opt("count", ct) + Opt("expand", et) + Opt("filter", ft) + Opt("select", st) + Opt("top", tt))
      == Some(Options(ct.Some?, et, ft,
                      if st.Some? then Some(Split(st.value, ',')) else None,
                      if tt.Some? then ParseInt(tt.value) else None))
  {
    var r4 := Opt("top", tt);
    var r3 := Opt("select", st) + r4;
    var r2 := Opt("filter", ft) + r3;
    var r1 := Opt("expand", et) + r2;
    assert Opt("count", ct) + Opt("expand", et) + Opt("filter", ft) + Opt("select", st) + Opt("top", tt)
      == Opt("count", ct) + r1;
    ChainExpand(et, ft, st, tt);
    KeysDiffer();
    TakeOpt("count", ct, r1);
    OptionsOfTakes(Opt("count", ct) + r1, ct, et, ft, st, tt, r1, r2, r3, r4);
  }

  /** The last two takes of the reader, on entries for select and top. */
  lemma ChainTail(st: Option<string>, tt: Option<string>)
    ensures var r4 := Opt("top", tt); var r3 := Opt("select", st) + r4;
      && Take(r3, "select") == (st, r4) && Take(r4, "top") == (tt, [])
      && (r3 == [] || r3[0].0 == "select" || r3[0].0 == "top")
  {
    KeysDiffer();
    TakeOpt("top", tt, []);
    assert Opt("top", tt) + [] == Opt("top", tt);
    TakeOpt("select", st, Opt("top", tt));
  }

  /** The takes from filter on. */
  lemma ChainFilter(ft: Option<string>, st: Option<string>, tt: Option<string>)
    ensures var r4 := Opt("top", tt); var r3 := Opt("select", st) + r4; var r2 := Opt("filter", ft) + r3;
      && Take(r2, "filter") == (ft, r3) && Take(r3, "select") == (st, r4) && Take(r4, "top") == (tt, [])
      && (r2 == [] || r2[0].0 == "filter" || r2[0].0 == "select" || r2[0].0 == "top")
  {
    ChainTail(st, tt);
    KeysDiffer();
    TakeOpt("filter", ft, Opt("select", st) + Opt("top", tt));
  }

  /** The takes from expand on. */
  lemma ChainExpand(et: Option<string>, ft: Option<string>, st: Option<string>, tt: Option<string>)
    ensures var r4 := Opt("top", tt); var r3 := Opt("select", st) + r4; var r2 := Opt("filter", ft) + r3;
      var r1 := Opt("expand", et) + r2;
      && Take(r1, "expand") == (et, r2) && Take(r2, "filter") == (ft, r3) && Take(r3, "select") == (st, r4)
      && Take(r4, "top") == (tt, [])
      && (r1 == [] || r1[0].0 == "expand" || r1[0].0 == "filter" || r1[0].0 == "select" || r1[0].0 == "top")
  {
    ChainFilter(ft, st, tt);
    KeysDiffer();
    TakeOpt("expand", et, Opt("filter", ft) + (Opt("select", st) + Opt("top", tt)));
  }

  /** `OptionsOf` once each of its five takes is known. */
  lemma OptionsOfTakes(
    kvs: seq<(string, string)>,
    c: Option<string>, e: Option<string>, f: Option<string>, s: Option<string>, t: Option<string>,
    r1: seq<(string, string)>, r2: seq<(string, string)>, r3: seq<(string, string)>, r4: seq<(string, string)>)
    requires Take(kvs, "count") == (c, r1) && Take(r1, "expand") == (e, r2) && Take(r2, "filter") == (f, r3)
    requires Take(r3, "select") == (s, r4) && Take(r4, "top") == (t, [])
    requires c == None || c == Some("true")
    requires t.Some? ==> ParseInt(t.value).Some?
    ensures OptionsOf(kvs) == Some(Options(c.Some?, e, f,
                      if s.Some? then Some(Split(s.value, ',')) else None,
                      if t.Some? then ParseInt(t.value) else None))
  {
  }

  /** The five option names are distinct: each starts with its own letter. */
  lemma KeysDiffer()
    ensures "count" != "expand" && "count" != "filter" && "count" != "select" && "count" != "top"
    ensures "expand" != "filter" && "expand" != "select" && "expand" != "top"
    ensures "filter" != "select" && "filter" != "top" && "select" != "top"
  {
    assert "count"[0] == 'c' && "expand"[0] == 'e' && "filter"[0] == 'f';
    assert "select"[0] == 's' && "top"[0] == 't';
  }

  /** Reading the (name, text) view yields the options that were set. */
  lemma OptionsOfPairs(q: QueryView, f: Option<string>)
    requires SelectSet(q) ==> forall n :: n in q.select.value ==> ',' !in n
    ensures OptionsOf(Pairs(q, f)) == Some(Expected(q, f))
  {
    if TopSet(q) {
      IntRoundTrip(q.top.value);
    }
    OptionsOfChain(
      if CountSet(q) then Some("true") else None,
      if ExpandSet(q) then Some(Lower(q.expand.value)) else None,
      f,
      if SelectSet(q) then Some(Join(q.select.value, ",")) else None,
      if TopSet(q) then Some(IntToString(q.top.value)) else None);
    if SelectSet(q) {
      SplitJoin(q.select.value, ',');
    }
  }

  /** No `&` in a rendered constraint whose attribute and value have none. */
  lemma RenderKeepsAbsent(c: Constrain)
    requires '&' !in c.attribute && '&' !in c.value
    ensures '&' !in c.ToString()
  {
    RenderShape(c);
    if ComparisonWord(c.operator).Some? {
      assert '&' !in ComparisonWord(c.operator).value;
    } else {
      assert '&' !in FunctionName(c.operator);
    }
  }

  lemma SeparatorKeepsAbsent(lc: LogicalConnector)
    ensures '&' !in Separator(lc)
  {
    LowerKeepsAbsent(lc.Name(), '&');
  }

  lemma IntTextKeepsAbsent(i: int)
    ensures '&' !in IntToString(i)
  {
  }

  /** The filter text of a separable query contains no `&`. */
  lemma FilterKeepsAbsent(q: QueryView)
    requires Separable(q) && FilterOutput(q).Ok? && FilterOutput(q).value.Some?
    ensures '&' !in FilterOutput(q).value.value
  {
    var cs := q.filter.value.constrains.value;
    var rs := Renders(cs);
    forall r | r in rs ensures '&' !in r {
      var k :| 0 <= k < |rs| && rs[k] == r;
      assert cs[k] in cs;
      RenderKeepsAbsent(cs[k]);
    }
    var sep := if q.filter.value.connector.Some? then Separator(q.filter.value.connector.value) else "";
    if q.filter.value.connector.Some? {
      SeparatorKeepsAbsent(q.filter.value.connector.value);
    }
    JoinKeepsAbsent(rs, sep, '&');
  }

  /** No entry of a separable query contains `&`. */
  lemma PartsKeepAbsent(q: QueryView)
    requires Separable(q) && FilterOutput(q).Ok?
    ensures forall p :: p in Parts(q, FilterOutput(q).value) ==> '&' !in p
  {
    var f := FilterOutput(q).value;
    if ExpandSet(q) {
      LowerKeepsAbsent(q.expand.value, '&');
      assert '&' !in "$expand=" + Lower(q.expand.value);
    }
    if f.Some? {
      FilterKeepsAbsent(q);
      assert '&' !in "$filter=" + f.value;
    }
    if SelectSet(q) {
      JoinKeepsAbsent(q.select.value, ",", '&');
      assert '&' !in "$select=" + Join(q.select.value, ",");
    }
    if TopSet(q) {
      IntTextKeepsAbsent(q.top.value);
      assert '&' !in "$top=" + IntToString(q.top.value);
    }
    var a, b, c, d, e := CountPart(q), ExpandPart(q), FilterPart(f), SelectPart(q), TopPart(q);
    assert forall p :: p in a + b + c + d + e ==> p in a || p in b || p in c || p in d || p in e;
  }

  lemma PairsKeys(q: QueryView, f: Option<string>)
    ensures forall p :: p in Pairs(q, f) ==> '=' !in p.0
  {
  }

  /** Reading a fragment of one or more entries yields what their (name, text) view says. */
  lemma ParseFragment(ps: seq<(string, string)>)
    requires |ps| > 0
    requires forall p :: p in ps ==> '=' !in p.0
    requires forall t :: t in Texts(ps) ==> '&' !in t
    ensures ParseQuery("?" + Join(Texts(ps), "&")) == OptionsOf(ps)
  {
    var parts := Texts(ps);
    var s := "?" + Join(parts, "&");
    assert parts[0] == "$" + ps[0].0 + "=" + ps[0].1;
    assert |Join(parts, "&")| >= |parts[0]| by {
      if |parts| > 1 {
        assert Join(parts, "&") == parts[0] + ("&" + Join(parts[1..], "&"));
      }
    }
    assert s[0] == '?' && |s| > 1;
    assert s != EMPTY_QUERY;
    assert s[1..] == Join(parts, "&");
    SplitJoin(parts, '&');
    ParseTexts(ps);
  }

  /**
   * Reading back a serialised query recovers the options that were set:
   * the count flag, the lower-cased expand text, the filter text, the
   * selected names and the page size, in the fixed order the reader demands.
   */
  lemma ParseSerialize(q: QueryView)
    requires Separable(q)
    requires Serialize(q).Ok?
    ensures ParseQuery(Serialize(q).value) == Some(Expected(q, FilterOutput(q).value))
  {
    var f := FilterOutput(q).value;
    if AnySet(q) {
      var parts := Parts(q, f);
      assert Serialize(q).value == "?" + Join(parts, "&");
      PartsArePairs(q, f);
      var ps := Pairs(q, f);
      OptionsOfPairs(q, f);
      if |parts| == 0 {
        assert ps == [];
        assert Expected(q, f) == NO_OPTIONS;
      } else {
        PartsKeepAbsent(q);
        PairsKeys(q, f);
        ParseFragment(ps);
      }
    } else {
      assert Expected(q, f) == NO_OPTIONS;
    }
  }

  /** Two separable queries that serialise to the same text set the same options. */
  lemma SerializeInjective(q1: QueryView, q2: QueryView)
    requires Separable(q1) && Separable(q2)
    requires Serialize(q1).Ok? && Serialize(q1) == Serialize(q2)
    ensures Expected(q1, FilterOutput(q1).value) == Expected(q2, FilterOutput(q2).value)
  {
    ParseSerialize(q1);
    ParseSerialize(q2);
  }
}
