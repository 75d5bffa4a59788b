/**
 * Per-feed query parameters (`FeedConfig.Params`, decoded from YAML into
 * `map[string]interface{}`) and `GetQuery` (lib/wfs.go), which merges them
 * into an outgoing WFS query.
 */
module Params {
  import opened Strings
  import opened UrlValues

  /**
   * A scalar configuration value. `Str` is a YAML string, `Int` a YAML integer
   * (Go `int`); `Other` is any other value (float, bool, null, nested
   * collection), carried as the text `fmt`'s `%v` prints for it.
   */
  datatype Scalar = Str(s: string) | Int(n: int) | Other(rendered: string)

  /** A parameter value: one scalar, or a YAML sequence (`[]interface{}`). */
  datatype Param = Single(value: Scalar) | List(elems: seq<Scalar>)

  /** `fmt.Sprintf("%v", v)` for a scalar. */
  function Verb(v: Scalar): string
  {
    match v
    case Str(s) => s
    case Int(n) => DecimalString(n)
    case Other(rendered) => rendered
  }

  /** The `%v` text of each element, in order. */
  function Verbs(elems: seq<Scalar>): (r: seq<string>)
    ensures |r| == |elems|
    ensures forall i :: 0 <= i < |elems| ==> r[i] == Verb(elems[i])
  {
    if |elems| == 0 then [] else Verbs(elems[..|elems| - 1]) + [Verb(elems[|elems| - 1])]
  }

  /** The single string a parameter contributes to a query: a list's elements joined by ",". */
  function ParamText(p: Param): string
  {
    match p
    case Single(v) => Verb(v)
    case List(elems) => Join(Verbs(elems), ",")
  }

  /**
   * The query `GetQuery` leaves behind: every parameter key holds exactly its
   * text, and every other key keeps what it held.
   */
  function Merge(m: Entries, params: map<string, Param>): (r: Entries)
    ensures r.Keys == m.Keys + params.Keys
    ensures forall k :: k in params ==> r[k] == [ParamText(params[k])]
    ensures forall k :: k in m && k !in params ==> r[k] == m[k]
  {
    map k | k in m.Keys + params.Keys :: if k in params then [ParamText(params[k])] else m[k]
  }

  /** Merging the same parameters a second time changes nothing. */
  lemma MergeIdempotent(m: Entries, params: map<string, Param>)
    ensures Merge(Merge(m, params), params) == Merge(m, params)
  {
  }

  /** Merging only depends on the keys outside the parameters and on the parameters. */
  lemma MergeOverridesParamKeys(m: Entries, m': Entries, params: map<string, Param>)
    requires m - params.Keys == m' - params.Keys
    ensures Merge(m, params) == Merge(m', params)
  {
    forall k | k in m && k !in params ensures k in m' && m[k] == m'[k] {
      assert k in m - params.Keys;
    }
    forall k | k in m' && k !in params ensures k in m {
      assert k in m' - params.Keys;
    }
  }

  /** Merging one more parameter is replacing that key's values with its text. */
  lemma MergeOneMore(m: Entries, done: map<string, Param>, key: string, p: Param)
    ensures Merge(m, done[key := p]) == Merge(m, done)[key := [ParamText(p)]]
  {
  }

  /** The value string of one parameter, as the type switch in `GetQuery` builds it. */
  method ParamString(value: Param) returns (newValue: string)
    ensures newValue == ParamText(value)
  {
    match value {
      case List(v) =>
        var strValues: seq<string> := [];
        var i := 0;
        while i < |v|
          invariant 0 <= i <= |v|
          invariant strValues == Verbs(v[..i])
        {
          assert v[..i + 1][..i] == v[..i];
          strValues := strValues + [Verb(v[i])];
          i := i + 1;
        }
        assert v[..|v|] == v;
        newValue := Join(strValues, ",");
      case Single(s) =>
        newValue := Verb(s);
    }
  }

  /**
   * `GetQuery`: for every parameter, in whatever order the map is walked,
   * replace the key's values with the parameter's text (`Set` when the key is
   * present, `Add` when it is not).
   */
  method GetQuery(query: Values, params: map<string, Param>)
    modifies query
    ensures query.entries == Merge(old(query.entries), params)
  {
    var pending := params.Keys;
    ghost var done: map<string, Param> := map[];
    while pending != {}
      invariant pending <= params.Keys
      invariant done.Keys == params.Keys - pending
      invariant forall k :: k in done ==> done[k] == params[k]
      invariant query.entries == Merge(old(query.entries), done)
      decreases pending
    {
      var key :| key in pending;
      ghost var before := query.entries;
      var newValue := ParamString(params[key]);
      if query.Has(key) {
        query.Set(key, newValue);
      } else {
        query.Add(key, newValue);
        assert ValuesOf(before, key) + [newValue] == [newValue];
      }
      MergeOneMore(old(query.entries), done, key, params[key]);
      done := done[key := params[key]];
      pending := pending - {key};
    }
    assert done == params;
  }
}
