/** The resolution logic the modules share: which path a workspace is addressed
    by, which body an update sends, and which variable id a key stands for.

    Each is written twice: as the modules compute it from their optional
    parameters (the order of the `if`s in the source), and as a sum type of the
    parameter combinations the modules' argument specs admit; a lemma ties the
    two together. */
module Resolve {
  import opened Optional
  import opened Text
  import opened Json
  import opened Client
  import opened Routes

  // ---------------------------------------------------------------------------
  // Workspace address: `workspace_id`, or `workspace_name` with `organization`.

  datatype WorkspaceRef = ById(id: string) | ByName(name: string, organization: string)

  function WorkspaceRoute(ref: WorkspaceRef): Route {
    match ref
    case ById(id) => WorkspaceById(id)
    case ByName(name, org) => WorkspaceByName(org, name)
  }

  /** The path `get_workspace` and `patch_workspace` build: the id wins, and
      otherwise name and organization are formatted in (as `None` if absent). */
  function WorkspacePath(id: Option<string>, name: Option<string>, org: Option<string>): (path: string)
    ensures HasPrefix(path, "/")
    ensures id.Some? && '/' !in id.value ==> Parse(path) == Some(WorkspaceById(id.value))
    ensures id.None? && '/' !in FormatParam(name) && '/' !in FormatParam(org)
      ==> Parse(path) == Some(WorkspaceByName(FormatParam(org), FormatParam(name)))
  {
    if id.Some? then
      var r := WorkspaceById(id.value);
      ParsePath(r);
      Path(r)
    else
      var r := WorkspaceByName(FormatParam(org), FormatParam(name));
      ParsePath(r);
      Path(r)
  }

  /** The argument-spec constraints on the three parameters, as written:
      `workspace_name` and `organization` each exclude `workspace_id`, they are
      required together, and one of `workspace_name`/`workspace_id` is required. */
  predicate WorkspaceParamsAccepted(id: Option<string>, name: Option<string>, org: Option<string>) {
    && !(name.Some? && id.Some?)
    && !(org.Some? && id.Some?)
    && (name.Some? || org.Some? ==> name.Some? && org.Some?)
    && (name.Some? || id.Some?)
  }

  /** The accepted combinations are exactly the two shapes of `WorkspaceRef`,
      and for them the path the module computes is the path of that reference. */
  function ToWorkspaceRef(id: Option<string>, name: Option<string>, org: Option<string>)
    : (r: Option<WorkspaceRef>)
    ensures r.Some? <==> WorkspaceParamsAccepted(id, name, org)
    ensures r.Some? ==> WorkspacePath(id, name, org) == Path(WorkspaceRoute(r.value))
    ensures r == Some(ById(id.GetOr(""))) <==> WorkspaceParamsAccepted(id, name, org) && id.Some?
  {
    if id.Some? && name.None? && org.None? then Some(ById(id.value))
    else if id.None? && name.Some? && org.Some? then Some(ByName(name.value, org.value))
    else None
  }

  /** With an id, name and organization do not matter. */
  lemma IdIgnoresName(id: string, n1: Option<string>, o1: Option<string>, n2: Option<string>, o2: Option<string>)
    ensures WorkspacePath(Some(id), n1, o1) == WorkspacePath(Some(id), n2, o2)
  {
  }

  // ---------------------------------------------------------------------------
  // Payload: `payload`, `data` or `attributes`.

  type Dict = map<string, Json>

  /** `None` or a dict, as a JSON value. */
  function OptionalDict(d: Option<Dict>): Json {
    match d
    case Some(m) => JObject(m)
    case None => JNull
  }

  /** The body the three update modules send: `payload` as it is, else
      `{"data": data}`, else `{"data": {"attributes": attributes}}` even when
      `attributes` is `None`. */
  function ResolvePayload(payload: Option<Dict>, data: Option<Dict>, attributes: Option<Dict>)
    : (body: Json)
    ensures body.JObject?
    ensures payload.Some? ==> body.fields == payload.value
    ensures payload.None? ==> body.fields.Keys == {"data"}
    ensures payload.None? && data.Some? ==> body.fields["data"] == JObject(data.value)
    ensures payload.None? && data.None? ==>
      body.fields["data"].JObject? && body.fields["data"].fields.Keys == {"attributes"}
      && body.fields["data"].fields["attributes"] == OptionalDict(attributes)
  {
    if payload.Some? then JObject(payload.value)
    else if data.Some? then Object1("data", JObject(data.value))
    else Object1("data", Object1("attributes", OptionalDict(attributes)))
  }

  /** The three ways of giving the body that the argument specs admit. */
  datatype PayloadInput =
    | WholePayload(payload: Dict)
    | DataOnly(data: Dict)
    | AttributesOnly(attributes: Dict)

  /** The request envelope of each form. */
  function Envelope(input: PayloadInput): Json {
    match input
    case WholePayload(p) => JObject(p)
    case DataOnly(d) => Object1("data", JObject(d))
    case AttributesOnly(a) => Object1("data", Object1("attributes", JObject(a)))
  }

  /** `payload`, `data` and `attributes` are mutually exclusive and one of them
      is required. */
  predicate PayloadParamsAccepted(payload: Option<Dict>, data: Option<Dict>, attributes: Option<Dict>) {
    && !(payload.Some? && data.Some?)
    && !(payload.Some? && attributes.Some?)
    && !(data.Some? && attributes.Some?)
    && (payload.Some? || data.Some? || attributes.Some?)
  }

  /** The accepted combinations are exactly the three forms, and for them the
      precedence of `ResolvePayload` is never exercised: it builds the form's
      envelope. */
  function ToPayloadInput(payload: Option<Dict>, data: Option<Dict>, attributes: Option<Dict>)
    : (r: Option<PayloadInput>)
    ensures r.Some? <==> PayloadParamsAccepted(payload, data, attributes)
    ensures r.Some? ==> ResolvePayload(payload, data, attributes) == Envelope(r.value)
  {
    if payload.Some? && data.None? && attributes.None? then Some(WholePayload(payload.value))
    else if payload.None? && data.Some? && attributes.None? then Some(DataOnly(data.value))
    else if payload.None? && data.None? && attributes.Some? then Some(AttributesOnly(attributes.value))
    else None
  }

  /** The forms are successive abbreviations of one envelope: `data` is the
      payload `{"data": data}`, and `attributes` is the data
      `{"attributes": attributes}`. */
  lemma FormsAbbreviate(d: Dict, a: Dict)
    ensures Envelope(DataOnly(d)) == Envelope(WholePayload(map["data" := JObject(d)]))
    ensures Envelope(AttributesOnly(a)) == Envelope(DataOnly(map["attributes" := JObject(a)]))
  {
  }

  /** Precedence when validation is bypassed: a payload hides data and
      attributes, and data hides attributes. */
  lemma PayloadPrecedence(p: Dict, d: Dict, d1: Option<Dict>, a1: Option<Dict>, a2: Option<Dict>)
    ensures ResolvePayload(Some(p), d1, a1) == JObject(p)
    ensures ResolvePayload(None, Some(d), a1) == ResolvePayload(None, Some(d), a2)
  {
  }

  // ---------------------------------------------------------------------------
  // Variable lookup: `list(filter(lambda var: var["attributes"]["key"] == key,
  // vars["data"]))[0]["id"]`, evaluated the way Python evaluates it.

  /** A Python value, or the exception computing it raised. */
  datatype Eval<+T> = Val(value: T) | Exc(exception: PyException)

  /** `j[key]` with a string key: a dict looks the key up; anything else is not
      subscriptable by a string. */
  function Subscript(j: Json, key: string): (r: Eval<Json>)
    ensures r.Val? <==> j.JObject? && key in j.fields
    ensures r.Val? ==> r.value == j.fields[key]
    ensures r == Exc(KeyError) <==> j.JObject? && key !in j.fields
  {
    match j
    case JObject(m) => if key in m then Val(m[key]) else Exc(KeyError)
    case _ => Exc(TypeError)
  }

  /** The elements the filter's lambda is applied to, given `vars["data"]`: a
      list's elements. A string or dict yields strings, which the lambda cannot
      subscript with `"attributes"`, so only an empty one gets through; other
      values cannot be iterated. */
  function Records(data: Json): (r: Eval<seq<Json>>)
    ensures r.Val? <==> data.JArray? || data == JString("") || data == JObject(map[])
    ensures data.JArray? ==> r == Val(data.items)
    ensures r.Val? && !data.JArray? ==> r.value == []
    ensures r.Exc? ==> r.exception == TypeError
  {
    match data
    case JArray(items) => Val(items)
    case JString(s) => if s == "" then Val([]) else Exc(TypeError)
    case JObject(m) => if m == map[] then Val([]) else Exc(TypeError)
    case _ => Exc(TypeError)
  }

  /** `var["attributes"]["key"]` */
  function RecordKey(rec: Json): Eval<Json> {
    match Subscript(rec, "attributes")
    case Exc(e) => Exc(e)
    case Val(a) => Subscript(a, "key")
  }

  /** A record the lambda can evaluate. */
  predicate WellFormed(rec: Json) {
    RecordKey(rec).Val?
  }

  predicate HasKey(rec: Json, key: string) {
    RecordKey(rec) == Val(JString(key))
  }

  /** `items[i]` is the first record whose key is `key`. */
  predicate IsFirstMatch(items: seq<Json>, key: string, i: int) {
    && 0 <= i < |items|
    && HasKey(items[i], key)
    && forall j :: 0 <= j < i ==> !HasKey(items[j], key)
  }

  /** `items[i]` is the first record the lambda cannot evaluate. */
  predicate IsFirstMalformed(items: seq<Json>, i: int) {
    && 0 <= i < |items|
    && !WellFormed(items[i])
    && forall j :: 0 <= j < i ==> WellFormed(items[j])
  }

  /** Reference definition of the kept records: those whose key is `key`, in
      their order in `items` (built from the last record backwards). */
  function Matching(items: seq<Json>, key: string): seq<Json> {
    if items == [] then []
    else
      var last := items[|items| - 1];
      Matching(items[..|items| - 1], key) + (if HasKey(last, key) then [last] else [])
  }

  /** The reference filter also takes records from the front. */
  lemma {:induction false} MatchingCons(x: Json, items: seq<Json>, key: string)
    ensures Matching([x] + items, key) == (if HasKey(x, key) then [x] else []) + Matching(items, key)
    decreases |items|
  {
    if items == [] {
      assert ([x] + items)[..0] == [];
    } else {
      var init := items[..|items| - 1];
      assert ([x] + items)[..|items|] == [x] + init;
      MatchingCons(x, init, key);
    }
  }

  /** `list(filter(...))`: the lambda runs on every record, left to right, and
      the first exception it raises ends the whole expression. */
  function FilterByKey(items: seq<Json>, key: string): (r: Eval<seq<Json>>)
    ensures r.Val? <==> forall i :: 0 <= i < |items| ==> WellFormed(items[i])
    ensures r.Exc? ==> exists i :: 0 <= i < |items| && RecordKey(items[i]) == Exc(r.exception)
    ensures forall i :: IsFirstMalformed(items, i) ==> r == Exc(RecordKey(items[i]).exception)
    ensures r.Val? ==> r.value == Matching(items, key)
    ensures r.Val? ==> forall x :: x in r.value ==> x in items && HasKey(x, key)
    ensures r.Val? ==> (r.value == [] <==> forall i :: 0 <= i < |items| ==> !HasKey(items[i], key))
    ensures r.Val? && r.value != [] ==> exists i :: IsFirstMatch(items, key, i) && r.value[0] == items[i]
    decreases |items|
  {
    if items == [] then Val([])
    else
      match RecordKey(items[0])
      case Exc(e) =>
        assert IsFirstMalformed(items, 0);
        Exc(e)
      case Val(_) =>
        match FilterByKey(items[1..], key)
        case Exc(e) =>
          TailFails(items, e);
          Exc(e)
        case Val(rest) =>
          TailHolds(items);
          KeepStep(items, key, rest);
          if HasKey(items[0], key) then Val([items[0]] + rest) else Val(rest)
  }

  /** One step of the filter: the head record, kept or not, in front of what
      the filter kept of the tail. */
  lemma KeepStep(items: seq<Json>, key: string, rest: seq<Json>)
    requires |items| >= 1
    requires rest == Matching(items[1..], key)
    requires forall x :: x in rest ==> x in items[1..] && HasKey(x, key)
    requires rest == [] <==> forall i :: 0 <= i < |items[1..]| ==> !HasKey(items[1..][i], key)
    requires rest != [] ==> exists i :: IsFirstMatch(items[1..], key, i) && rest[0] == items[1..][i]
    ensures var r := if HasKey(items[0], key) then [items[0]] + rest else rest;
      && r == Matching(items, key)
      && (forall x :: x in r ==> x in items && HasKey(x, key))
      && (r == [] <==> forall i :: 0 <= i < |items| ==> !HasKey(items[i], key))
      && (r != [] ==> exists i :: IsFirstMatch(items, key, i) && r[0] == items[i])
  {
    assert forall i :: 1 <= i < |items| ==> items[i] == items[1..][i - 1];
    assert [items[0]] + items[1..] == items;
    MatchingCons(items[0], items[1..], key);
    if HasKey(items[0], key) {
      assert IsFirstMatch(items, key, 0);
    } else {
      FirstMatchAfterHead(items, key, rest);
    }
  }

  /** A well-formed head passes on the tail's exception: it was raised by
      some record, and by the first malformed one. */
  lemma TailFails(items: seq<Json>, e: PyException)
    requires |items| >= 1 && WellFormed(items[0])
    requires exists i :: 0 <= i < |items[1..]| && RecordKey(items[1..][i]) == Exc(e)
    requires forall i :: IsFirstMalformed(items[1..], i) ==> e == RecordKey(items[1..][i]).exception
    ensures exists i :: 0 <= i < |items| && RecordKey(items[i]) == Exc(e)
    ensures !forall i :: 0 <= i < |items| ==> WellFormed(items[i])
    ensures forall i :: IsFirstMalformed(items, i) ==> e == RecordKey(items[i]).exception
  {
    var k :| 0 <= k < |items[1..]| && RecordKey(items[1..][k]) == Exc(e);
    assert items[k + 1] == items[1..][k];
    forall i | IsFirstMalformed(items, i)
      ensures e == RecordKey(items[i]).exception
    {
      assert IsFirstMalformed(items[1..], i - 1) by {
        assert forall j :: 0 <= j < i - 1 ==> items[1..][j] == items[j + 1];
      }
    }
  }

  /** A well-formed head in front of a well-formed tail: every record is
      well-formed, so none is the first malformed one. */
  lemma TailHolds(items: seq<Json>)
    requires |items| >= 1 && WellFormed(items[0])
    requires forall i :: 0 <= i < |items[1..]| ==> WellFormed(items[1..][i])
    ensures forall i :: 0 <= i < |items| ==> WellFormed(items[i])
    ensures forall i :: !IsFirstMalformed(items, i)
  {
    assert forall i :: 1 <= i < |items| ==> items[i] == items[1..][i - 1];
  }

  lemma FirstMatchAfterHead(items: seq<Json>, key: string, rest: seq<Json>)
    requires |items| >= 1 && !HasKey(items[0], key)
    requires rest != [] ==> exists i :: IsFirstMatch(items[1..], key, i) && rest[0] == items[1..][i]
    ensures rest != [] ==> exists i :: IsFirstMatch(items, key, i) && rest[0] == items[i]
  {
    if rest != [] {
      var i :| IsFirstMatch(items[1..], key, i) && rest[0] == items[1..][i];
      assert IsFirstMatch(items, key, i + 1);
    }
  }

  /** What the key lookup of `update_var` produced. */
  datatype Lookup = Found(id: Json) | NoMatch | Raised(exception: PyException)

  /** `vars["data"]`, then the records of it. */
  function DataRecords(vars: Json): Eval<seq<Json>> {
    match Subscript(vars, "data")
    case Exc(e) => Exc(e)
    case Val(data) => Records(data)
  }

  /** The id `update_var` resolves `key` to, from the decoded vars list. A
      missing match is the `IndexError` the module turns into "not found"; every
      other failure is an exception the module does not catch. */
  function LookupVariableId(vars: Json, key: string): (r: Lookup)
    ensures DataRecords(vars).Exc? ==> r == Raised(DataRecords(vars).exception)
    ensures DataRecords(vars).Val? ==> var items := DataRecords(vars).value;
      && (r.NoMatch? <==>
            forall i :: 0 <= i < |items| ==> WellFormed(items[i]) && !HasKey(items[i], key))
      && (r.Found? <==>
            (forall i :: 0 <= i < |items| ==> WellFormed(items[i]))
            && exists i :: IsFirstMatch(items, key, i) && "id" in items[i].fields)
      && (forall i :: IsFirstMatch(items, key, i) && r.Found? ==> r.id == items[i].fields["id"])
      && (forall i :: IsFirstMalformed(items, i) ==> r == Raised(RecordKey(items[i]).exception))
      && ((forall j :: 0 <= j < |items| ==> WellFormed(items[j])) ==>
            forall i :: IsFirstMatch(items, key, i) && "id" !in items[i].fields ==> r == Raised(KeyError))
  {
    match DataRecords(vars)
    case Exc(e) => Raised(e)
    case Val(items) =>
      match FilterByKey(items, key)
      case Exc(e) => Raised(e)
      case Val(matches) =>
        if matches == [] then NoMatch
        else
          assert forall i, j :: IsFirstMatch(items, key, i) && IsFirstMatch(items, key, j) ==> i == j;
          match Subscript(matches[0], "id")
          case Exc(e) => Raised(e)
          case Val(id) => Found(id)
  }

  /** A malformed record anywhere in the list, even after the first match,
      makes the lookup raise. */
  lemma MalformedRecordRaises(items: seq<Json>, key: string, i: int)
    requires 0 <= i < |items| && !WellFormed(items[i])
    ensures LookupVariableId(Object1("data", JArray(items)), key).Raised?
  {
  }

  /** The reference filter on two records. */
  lemma MatchingPair(r1: Json, r2: Json, key: string)
    ensures Matching([r1, r2], key)
         == (if HasKey(r1, key) then [r1] else []) + (if HasKey(r2, key) then [r2] else [])
  {
    MatchingCons(r1, [r2], key);
    assert [r1] + [r2] == [r1, r2];
    assert [r2][..0] == [];
  }

  /** The records of the example list. */
  const ExampleA: Json := JObject(map["id" := JString("var-1"), "attributes" := Object1("key", JString("a"))])
  const ExampleB: Json := JObject(map["id" := JString("var-2"), "attributes" := Object1("key", JString("b"))])

  /** The filter keeps the record with key `b`, and nothing for key `z`. */
  lemma ExampleFilter()
    ensures FilterByKey([ExampleA, ExampleB], "b") == Val([ExampleB])
    ensures FilterByKey([ExampleA, ExampleB], "z") == Val([])
  {
    assert RecordKey(ExampleA) == Val(JString("a"));
    assert RecordKey(ExampleB) == Val(JString("b"));
    assert JString("a") != JString("b") by { assert "a"[0] != "b"[0]; }
    assert JString("a") != JString("z") by { assert "a"[0] != "z"[0]; }
    assert JString("b") != JString("z") by { assert "b"[0] != "z"[0]; }
    var items := [ExampleA, ExampleB];
    assert forall i :: 0 <= i < |items| ==> WellFormed(items[i]);
    MatchingPair(ExampleA, ExampleB, "b");
    MatchingPair(ExampleA, ExampleB, "z");
    assert Matching(items, "b") == [ExampleB];
    assert Matching(items, "z") == [];
    assert FilterByKey(items, "b").Val?;
    assert FilterByKey(items, "z").Val?;
  }

  /** The lookup once the filter has run: no match, or the id of the first
      record kept. */
  lemma LookupAfterFilter(vars: Json, key: string, items: seq<Json>, matches: seq<Json>)
    requires DataRecords(vars) == Val(items) && FilterByKey(items, key) == Val(matches)
    ensures matches == [] ==> LookupVariableId(vars, key) == NoMatch
    ensures matches != [] && Subscript(matches[0], "id").Val? ==>
      LookupVariableId(vars, key) == Found(Subscript(matches[0], "id").value)
  {
  }

  /** The example list, as `vars["data"]` sees it. */
  lemma ExampleRecords(vars: Json)
    requires vars == Object1("data", JArray([ExampleA, ExampleB]))
    ensures DataRecords(vars) == Val([ExampleA, ExampleB])
  {
  }

  /** The second example record carries the id `var-2`. */
  lemma ExampleId()
    ensures Subscript(ExampleB, "id") == Val(JString("var-2"))
  {
  }

  /** In the example list, key `b` names the second record's id. */
  lemma LookupFoundExample(vars: Json)
    requires vars == Object1("data", JArray([ExampleA, ExampleB]))
    ensures LookupVariableId(vars, "b") == Found(JString("var-2"))
  {
    ExampleRecords(vars);
    ExampleFilter();
    ExampleId();
    LookupAfterFilter(vars, "b", [ExampleA, ExampleB], [ExampleB]);
  }

  /** In the example list, key `z` names no record. */
  lemma LookupMissingExample(vars: Json)
    requires vars == Object1("data", JArray([ExampleA, ExampleB]))
    ensures LookupVariableId(vars, "z") == NoMatch
  {
    ExampleRecords(vars);
    ExampleFilter();
    LookupAfterFilter(vars, "z", [ExampleA, ExampleB], []);
  }

  /** In the example list with keys `a` and `b`, `b` names the second record's
      id and `z` names none. */
  lemma LookupExample(vars: Json)
    requires vars == Object1("data", JArray([ExampleA, ExampleB]))
    ensures LookupVariableId(vars, "b") == Found(JString("var-2"))
    ensures LookupVariableId(vars, "z") == NoMatch
  {
    LookupFoundExample(vars);
    LookupMissingExample(vars);
  }
}
