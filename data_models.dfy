/** The client-code generator's method context: from an endpoint it derives the ordered
    parameter lists of a client method, the text of its HTTP call and the text of its return
    statement. Generated code is plain text here, exactly as the templates lay it out. */
module DataModels {
  import opened Strings
  import Types

  /** A path or query parameter of an endpoint. */
  datatype Parameter = Parameter(name: string, typ: string, required: bool)

  /** An endpoint as the swagger parser describes it. */
  datatype Endpoint = Endpoint(
    tag: string, name: string, httpMethod: string, path: string,
    pathParams: seq<Parameter>, queryParams: seq<Parameter>,
    payloadType: Types.Option<string>, expectedStatus: string, returnType: string,
    description: string)

  /** The context a client method is rendered from. */
  datatype MethodContext = MethodContext(
    name: string, description: string, path: string, returnType: string, expectedStatus: string,
    requiredParams: seq<string>, optionalParams: seq<string>,
    httpCall: string, returnStatement: string)

  /** Python truthiness of `payload_type`: present and not empty. */
  predicate Truthy(payloadType: Types.Option<string>) {
    payloadType.Some? && payloadType.value != ""
  }

  /** `Endpoint.sanitized_path`. */
  function SanitizedPath(path: string): (r: string)
    ensures |r| > 0 && r[0] == '/'
    ensures r == path <==> StartsWith(path, "/")
    ensures r == path || r == "/" + path
  {
    if StartsWith(path, "/") then path else "/" + path
  }

  /** Sanitising a sanitised path changes nothing. */
  lemma SanitizedPathIdempotent(path: string)
    ensures SanitizedPath(SanitizedPath(path)) == SanitizedPath(path)
  {
    assert StartsWith(SanitizedPath(path), "/");
  }

  /** `"name: type"`. */
  function Decl(p: Parameter): string {
    p.name + ": " + p.typ
  }

  /** `"name: Optional[type] = None"`. */
  function OptionalDecl(p: Parameter): string {
    p.name + ": Optional[" + p.typ + "] = None"
  }

  /** The parameters whose `required` flag is `req`, in order. */
  function Where(ps: seq<Parameter>, req: bool): (r: seq<Parameter>)
    ensures |r| <= |ps|
  {
    if ps == [] then []
    else Where(ps[..|ps| - 1], req) + (if ps[|ps| - 1].required == req then [ps[|ps| - 1]] else [])
  }

  /** The filter keeps exactly the parameters whose flag is `req`. */
  lemma {:induction false} WhereMembers(ps: seq<Parameter>, req: bool)
    ensures forall p :: p in Where(ps, req) <==> p in ps && p.required == req
    decreases |ps|
  {
    if ps != [] {
      WhereMembers(ps[..|ps| - 1], req);
      assert ps == ps[..|ps| - 1] + [ps[|ps| - 1]];
    }
  }

  /** Filtering keeps the order: the kept parameters of a concatenation are those of each
      part, one after the other. */
  lemma {:induction false} WhereAppend(a: seq<Parameter>, b: seq<Parameter>, req: bool)
    ensures Where(a + b, req) == Where(a, req) + Where(b, req)
    decreases |b|
  {
    if b == [] {
      assert a + b == a;
    } else {
      assert (a + b)[..|a + b| - 1] == a + b[..|b| - 1];
      WhereAppend(a, b[..|b| - 1], req);
    }
  }

  /** Every parameter is either required or not: the two filters split the list. */
  lemma {:induction false} WherePartition(ps: seq<Parameter>)
    ensures |Where(ps, true)| + |Where(ps, false)| == |ps|
    decreases |ps|
  {
    if ps != [] {
      WherePartition(ps[..|ps| - 1]);
    }
  }

  /** `"name: type"` for each parameter, in order. */
  function Decls(ps: seq<Parameter>): (r: seq<string>)
    ensures |r| == |ps|
  {
    if ps == [] then [] else Decls(ps[..|ps| - 1]) + [Decl(ps[|ps| - 1])]
  }

  /** `"name: Optional[type] = None"` for each parameter, in order. */
  function OptionalDecls(ps: seq<Parameter>): (r: seq<string>)
    ensures |r| == |ps|
  {
    if ps == [] then [] else OptionalDecls(ps[..|ps| - 1]) + [OptionalDecl(ps[|ps| - 1])]
  }

  /** The `k`-th entry of the list is the declaration of the `k`-th parameter. */
  lemma {:induction false} DeclsAt(ps: seq<Parameter>)
    ensures forall k :: 0 <= k < |ps| ==> Decls(ps)[k] == Decl(ps[k])
    ensures forall k :: 0 <= k < |ps| ==> OptionalDecls(ps)[k] == OptionalDecl(ps[k])
    decreases |ps|
  {
    if ps != [] {
      DeclsAt(ps[..|ps| - 1]);
    }
  }

  lemma {:induction false} DeclsAppend(a: seq<Parameter>, b: seq<Parameter>)
    ensures Decls(a + b) == Decls(a) + Decls(b)
    decreases |b|
  {
    if b == [] {
      assert a + b == a;
    } else {
      assert (a + b)[..|a + b| - 1] == a + b[..|b| - 1];
      DeclsAppend(a, b[..|b| - 1]);
    }
  }

  /** `Endpoint.method_parameters`: `"name: type"` for the path parameters flagged required. */
  function MethodParameters(e: Endpoint): (r: seq<string>)
    ensures |r| <= |e.pathParams|
    ensures forall p :: p in e.pathParams && p.required ==> Decl(p) in r
    ensures forall x :: x in r ==> exists p :: p in e.pathParams && p.required && x == Decl(p)
  {
    var kept := Where(e.pathParams, true);
    WhereMembers(e.pathParams, true);
    DeclsAt(kept);
    assert forall p :: p in kept ==> Decl(p) in Decls(kept) by {
      forall p | p in kept ensures Decl(p) in Decls(kept) {
        var k :| 0 <= k < |kept| && kept[k] == p;
      }
    }
    Decls(kept)
  }

  /** The required path parameters are listed in their declaration order. */
  lemma MethodParametersInOrder(e: Endpoint, a: seq<Parameter>, b: seq<Parameter>)
    requires e.pathParams == a + b
    ensures MethodParameters(e) == MethodParameters(e.(pathParams := a)) + MethodParameters(e.(pathParams := b))
  {
    WhereAppend(a, b, true);
    DeclsAppend(Where(a, true), Where(b, true));
  }

  /** A non-GET endpoint with a non-empty payload type other than `Any` takes its payload as a
      required parameter. */
  predicate PayloadRequired(e: Endpoint) {
    e.httpMethod != "GET" && Truthy(e.payloadType) && e.payloadType.value != "Any"
  }

  const ParamsDecl: string := "params" + ": Optional[Dict[str, Any]] = None"
  const AnyPayloadDecl: string := "payload" + ": Optional[Any] = None"

  /** The required parameters `from_endpoint` collects: every path parameter whatever its
      flag, then the required query parameters, then the payload when it is required. */
  function RequiredParams(e: Endpoint): seq<string> {
    Decls(e.pathParams) + Decls(Where(e.queryParams, true))
    + (if PayloadRequired(e) then ["payload: " + e.payloadType.value] else [])
  }

  /** The optional parameters `from_endpoint` collects: the other query parameters as
      `Optional[...] = None`, then the extra `params` dictionary of a GET, or an optional
      `Any` payload for another method whose payload is not required. */
  function OptionalParams(e: Endpoint): seq<string> {
    OptionalDecls(Where(e.queryParams, false))
    + (if e.httpMethod == "GET" then [ParamsDecl]
       else if !Truthy(e.payloadType) || e.payloadType.value == "Any" then [AnyPayloadDecl]
       else [])
  }

  /** The required list starts with every path parameter, required or not, so it extends
      what `method_parameters` lists. */
  lemma RequiredParamsCoverPath(e: Endpoint)
    ensures RequiredParams(e)[..|e.pathParams|] == Decls(e.pathParams)
    ensures forall x :: x in MethodParameters(e) ==> x in RequiredParams(e)
  {
    var r := RequiredParams(e);
    DeclsAt(e.pathParams);
    forall x | x in MethodParameters(e) ensures x in r {
      var p :| p in e.pathParams && p.required && x == Decl(p);
      var k :| 0 <= k < |e.pathParams| && e.pathParams[k] == p;
      assert r[k] == x;
    }
  }

  /** Every query parameter lands in exactly one of the two lists, and exactly one more entry
      is added: the payload (required or optional) or the `params` dictionary. */
  lemma ParameterCount(e: Endpoint)
    ensures |RequiredParams(e)| + |OptionalParams(e)| == |e.pathParams| + |e.queryParams| + 1
  {
    WherePartition(e.queryParams);
  }

  /** The name a declaration declares: the text before its first `:`. */
  function DeclName(d: string): (r: string)
    ensures |r| <= |d| && r == d[..|r|] && ':' !in r
  {
    if d == [] || d[0] == ':' then [] else [d[0]] + DeclName(d[1..])
  }

  /** A name without `:` followed by `:` is what `DeclName` reads back. */
  lemma {:induction false} DeclNameReads(n: string, rest: string)
    requires ':' !in n && rest != [] && rest[0] == ':'
    ensures DeclName(n + rest) == n
    decreases |n|
  {
    if n == [] {
      assert n + rest == rest;
    } else {
      assert (n + rest)[0] == n[0] && (n + rest)[1..] == n[1..] + rest;
      DeclNameReads(n[1..], rest);
    }
  }

  /** The declared names of a list of declarations, in order. */
  function DeclNames(ds: seq<string>): (r: seq<string>)
    ensures |r| == |ds| && forall i :: 0 <= i < |ds| ==> r[i] == DeclName(ds[i])
  {
    seq(|ds|, i requires 0 <= i < |ds| => DeclName(ds[i]))
  }

  /** The names of the parameters, in order. */
  function ParamNames(ps: seq<Parameter>): (r: seq<string>)
    ensures |r| == |ps| && forall i :: 0 <= i < |ps| ==> r[i] == ps[i].name
  {
    seq(|ps|, i requires 0 <= i < |ps| => ps[i].name)
  }

  /** Parameter names hold no `:`, as no Python identifier does. */
  predicate ColonFree(ps: seq<Parameter>) {
    forall i :: 0 <= i < |ps| ==> ':' !in ps[i].name
  }

  /** Both forms of declaration declare the parameter's own name. */
  lemma DeclsDeclareNames(ps: seq<Parameter>)
    requires ColonFree(ps)
    ensures DeclNames(Decls(ps)) == ParamNames(ps)
    ensures DeclNames(OptionalDecls(ps)) == ParamNames(ps)
  {
    DeclsAt(ps);
    forall k | 0 <= k < |ps|
      ensures DeclName(Decl(ps[k])) == ps[k].name && DeclName(OptionalDecl(ps[k])) == ps[k].name
    {
      DeclNameOf(ps[k]);
    }
    assert DeclNames(Decls(ps)) == ParamNames(ps);
    assert DeclNames(OptionalDecls(ps)) == ParamNames(ps);
  }

  /** Both declarations of one parameter declare its name. */
  lemma DeclNameOf(p: Parameter)
    requires ':' !in p.name
    ensures DeclName(Decl(p)) == p.name && DeclName(OptionalDecl(p)) == p.name
  {
    assert Decl(p) == p.name + (": " + p.typ);
    DeclNameReads(p.name, ": " + p.typ);
    assert OptionalDecl(p) == p.name + (": Optional[" + p.typ + "] = None");
    DeclNameReads(p.name, ": Optional[" + p.typ + "] = None");
  }

  /** The filter keeps a sub-list of parameters, so it keeps `ColonFree`. */
  lemma WhereColonFree(ps: seq<Parameter>, req: bool)
    requires ColonFree(ps)
    ensures ColonFree(Where(ps, req))
  {
    WhereMembers(ps, req);
    var w := Where(ps, req);
    forall i | 0 <= i < |w| ensures ':' !in w[i].name {
      assert w[i] in ps;
    }
  }

  /** The names kept by the two filters are, together, the names of the list. */
  lemma {:induction false} WhereNamesPartition(ps: seq<Parameter>)
    ensures multiset(ParamNames(Where(ps, true))) + multiset(ParamNames(Where(ps, false)))
         == multiset(ParamNames(ps))
    decreases |ps|
  {
    if ps != [] {
      var init, last := ps[..|ps| - 1], ps[|ps| - 1];
      WhereNamesPartition(init);
      assert ParamNames(ps) == ParamNames(init) + [last.name];
      assert ParamNames(Where(ps, last.required)) == ParamNames(Where(init, last.required)) + [last.name];
      assert ParamNames(Where(ps, !last.required)) == ParamNames(Where(init, !last.required));
    }
  }

  /** Declared names distribute over concatenation. */
  lemma DeclNamesAppend(a: seq<string>, b: seq<string>)
    ensures DeclNames(a + b) == DeclNames(a) + DeclNames(b)
  {
    assert forall i :: 0 <= i < |b| ==> (a + b)[|a| + i] == b[i];
  }

  /** The name of the extra entry: the `params` dictionary of a GET, the payload otherwise. */
  function ExtraName(e: Endpoint): string {
    if e.httpMethod == "GET" then "params" else "payload"
  }

  /** The names the extra entries declare. */
  lemma ExtraDeclNames(t: string)
    ensures DeclName(ParamsDecl) == "params" && DeclName(AnyPayloadDecl) == "payload"
    ensures DeclName("payload: " + t) == "payload"
  {
    DeclNameReads("params", ": Optional[Dict[str, Any]] = None");
    DeclNameReads("payload", ": Optional[Any] = None");
    DeclNameReads("payload", ": " + t);
    assert "payload" + (": " + t) == "payload: " + t;
  }

  /** The names the required list declares: the path parameters, the required query
      parameters, and `payload` when the payload is required. */
  lemma RequiredNames(e: Endpoint)
    requires ColonFree(e.pathParams) && ColonFree(e.queryParams)
    ensures multiset(DeclNames(RequiredParams(e)))
         == multiset(ParamNames(e.pathParams)) + multiset(ParamNames(Where(e.queryParams, true)))
            + (if PayloadRequired(e) then multiset{"payload"} else multiset{})
  {
    var reqQ := Where(e.queryParams, true);
    WhereColonFree(e.queryParams, true);
    DeclsDeclareNames(e.pathParams);
    DeclsDeclareNames(reqQ);
    var t := if e.payloadType.Some? then e.payloadType.value else "";
    var extraR := if PayloadRequired(e) then ["payload: " + t] else [];
    assert RequiredParams(e) == Decls(e.pathParams) + Decls(reqQ) + extraR;
    ExtraDeclNames(t);
    assert multiset(DeclNames(extraR)) == if PayloadRequired(e) then multiset{"payload"} else multiset{};
    NamesOfThree(Decls(e.pathParams), Decls(reqQ), extraR);
  }

  /** The declared names of three consecutive lists. */
  lemma NamesOfThree(a: seq<string>, b: seq<string>, c: seq<string>)
    ensures multiset(DeclNames(a + b + c))
         == multiset(DeclNames(a)) + multiset(DeclNames(b)) + multiset(DeclNames(c))
  {
    DeclNamesAppend(a + b, c);
    DeclNamesAppend(a, b);
  }

  /** The names the optional list declares: the other query parameters, then `params` for a
      GET or `payload` for another method whose payload is not required. */
  lemma OptionalNames(e: Endpoint)
    requires ColonFree(e.queryParams)
    ensures multiset(DeclNames(OptionalParams(e)))
         == multiset(ParamNames(Where(e.queryParams, false)))
            + (if e.httpMethod == "GET" then multiset{"params"}
               else if PayloadRequired(e) then multiset{} else multiset{"payload"})
  {
    var optQ := Where(e.queryParams, false);
    WhereColonFree(e.queryParams, false);
    DeclsDeclareNames(optQ);
    var extraO := OptionalParams(e)[|optQ|..];
    assert OptionalParams(e) == OptionalDecls(optQ) + extraO;
    DeclNamesAppend(OptionalDecls(optQ), extraO);
    ExtraDeclNames("");
  }

  /** The two lists together declare each path and query parameter once, under its own name,
      plus one extra entry: `params` for a GET, `payload` for any other method. */
  lemma ParameterNames(e: Endpoint)
    requires ColonFree(e.pathParams) && ColonFree(e.queryParams)
    ensures multiset(DeclNames(RequiredParams(e))) + multiset(DeclNames(OptionalParams(e)))
         == multiset(ParamNames(e.pathParams)) + multiset(ParamNames(e.queryParams))
            + multiset{ExtraName(e)}
  {
    RequiredNames(e);
    OptionalNames(e);
    WhereNamesPartition(e.queryParams);
  }

  /** For a method other than GET the payload appears in exactly one list: as the last
      required parameter when it is required, otherwise as the last optional one. A GET has
      no payload parameter and ends its optional list with the `params` dictionary. */
  lemma PayloadInExactlyOneList(e: Endpoint)
    ensures var extraRequired := |RequiredParams(e)| == |e.pathParams| + |Where(e.queryParams, true)| + 1;
            var extraOptional := |OptionalParams(e)| == |Where(e.queryParams, false)| + 1;
            (e.httpMethod != "GET" ==> extraRequired != extraOptional)
            && (extraRequired ==> RequiredParams(e)[|RequiredParams(e)| - 1] == "payload: " + e.payloadType.value)
            && (extraOptional ==> OptionalParams(e)[|OptionalParams(e)| - 1]
                                  == if e.httpMethod == "GET" then ParamsDecl else AnyPayloadDecl)
            && (e.httpMethod == "GET" ==> !extraRequired && extraOptional)
  {
  }

  const Indent12: string := "            "
  const Indent16: string := "                "
  const PathPart: string := "path=self._service + path"
  const StatusPart: string := "expected_status=status"
  const ListPayloadPart: string := "payload=[item.dict() for item in payload] if payload else None"
  const ModelPayloadPart: string := "payload=payload.dict() if payload else None"

  /** `'name': name, ` for one query parameter. */
  function Entry(p: Parameter): string {
    "'" + p.name + "': " + p.name + ", "
  }

  /** The entries of the parameters, in order. */
  function Entries(ps: seq<Parameter>): string {
    if ps == [] then "" else Entries(ps[..|ps| - 1]) + Entry(ps[|ps| - 1])
  }

  /** The entries of a concatenation are those of each part, one after the other. */
  lemma {:induction false} EntriesAppend(a: seq<Parameter>, b: seq<Parameter>)
    ensures Entries(a + b) == Entries(a) + Entries(b)
    decreases |b|
  {
    if b == [] {
      assert a + b == a;
    } else {
      assert (a + b)[..|a + b| - 1] == a + b[..|b| - 1];
      EntriesAppend(a, b[..|b| - 1]);
    }
  }

  /** The payload argument of a non-GET call: a list comprehension for a `List[` type, a
      single `.dict()` for any other type except `Any`, nothing for `Any` or no type. */
  function PayloadParts(payloadType: Types.Option<string>): (r: seq<string>)
    ensures |r| <= 1
    ensures |r| == 1 <==> Truthy(payloadType) && (StartsWith(payloadType.value, "List[") || payloadType.value != "Any")
    ensures |r| == 1 ==> (r[0] == ListPayloadPart <==> StartsWith(payloadType.value, "List["))
  {
    if !Truthy(payloadType) then []
    else if StartsWith(payloadType.value, "List[") then [ListPayloadPart]
    else if payloadType.value != "Any" then [ModelPayloadPart]
    else []
  }

  /** A query dictionary literal: `{`, the entries, then `tail`. */
  function QueryDict(qs: seq<Parameter>, tail: string): string {
    "{" + Entries(qs) + tail
  }

  /** The arguments of a non-GET call: the path first, the status last, the payload and then
      the query dictionary (without `**params`) in between when present. */
  function CallParts(e: Endpoint): (r: seq<string>)
    ensures 2 <= |r| <= 4 && r[0] == PathPart && r[|r| - 1] == StatusPart
    ensures |r| == 2 + |PayloadParts(e.payloadType)| + (if |e.queryParams| > 0 then 1 else 0)
    ensures |e.queryParams| > 0 ==> r[|r| - 2] == "params=" + QueryDict(e.queryParams, "}")
  {
    [PathPart] + PayloadParts(e.payloadType)
    + (if |e.queryParams| > 0 then ["params=" + QueryDict(e.queryParams, "}")] else [])
    + [StatusPart]
  }

  /** The call template: `r_json = self._<method>(`, the arguments on the following lines,
      and the closing parenthesis. */
  function CallText(m: string, args: string): string {
    "r_json = self._" + m + "(\n" + Indent16 + args + "\n" + Indent12 + ")"
  }

  /** The arguments of a GET call, one per line: every query parameter and then the caller's
      `params` are merged into one dictionary. */
  function GetArgs(qs: seq<Parameter>): string {
    PathPart + ",\n" + Indent16 + "params=" + QueryDict(qs, "**(params or {})}") + ",\n" + Indent16 + StatusPart
  }

  /** The text `_generate_http_call` produces. */
  function HttpCallOf(e: Endpoint): string {
    if e.httpMethod == "GET" then CallText(Lower(e.httpMethod), GetArgs(e.queryParams))
    else CallText(Lower(e.httpMethod), Join(",\n" + Indent12, CallParts(e)))
  }

  /** A non-GET call passes the payload exactly when the method takes it as a required
      parameter; an optional `Any` payload is declared but never passed on. */
  lemma CallPassesPayloadIffRequired(e: Endpoint)
    requires e.httpMethod != "GET"
    ensures |PayloadParts(e.payloadType)| == 1 <==> PayloadRequired(e)
    ensures !PayloadRequired(e) ==> AnyPayloadDecl in OptionalParams(e)
  {
    if Truthy(e.payloadType) && e.payloadType.value == "Any" {
      assert |e.payloadType.value| < |"List["|;
    }
  }

  /** The loop both branches of `_generate_http_call` share: `{`, one entry per query
      parameter in order, then the closing `tail`. */
  method BuildParamsDict(qs: seq<Parameter>, tail: string) returns (paramsDict: string)
    ensures paramsDict == QueryDict(qs, tail)
  {
    paramsDict := "{";
    for i := 0 to |qs|
      invariant paramsDict == "{" + Entries(qs[..i])
    {
      assert qs[..i + 1][..i] == qs[..i];
      paramsDict := paramsDict + Entry(qs[i]);
    }
    assert qs[..|qs|] == qs;
    paramsDict := paramsDict + tail;
  }

  /** `_generate_http_call`: the query dictionary and the call parts are accumulated step by
      step. */
  method HttpCall(e: Endpoint) returns (s: string)
    ensures s == HttpCallOf(e)
  {
    var m := Lower(e.httpMethod);
    var qs := e.queryParams;
    if e.httpMethod == "GET" {
      var paramsDict := BuildParamsDict(qs, "**(params or {})}");
      s := CallText(m, PathPart + ",\n" + Indent16 + "params=" + paramsDict + ",\n" + Indent16 + StatusPart);
    } else {
      var parts := [PathPart];
      if Truthy(e.payloadType) {
        if StartsWith(e.payloadType.value, "List[") {
          parts := parts + [ListPayloadPart];
        } else if e.payloadType.value != "Any" {
          parts := parts + [ModelPayloadPart];
        }
      }
      assert parts == [PathPart] + PayloadParts(e.payloadType);
      if |qs| > 0 {
        var paramsDict := BuildParamsDict(qs, "}");
        parts := parts + ["params=" + paramsDict];
      }
      parts := parts + [StatusPart];
      assert parts == CallParts(e);
      s := CallText(m, Join(",\n" + Indent12, parts));
    }
  }

  /** `f"if status == HTTPStatus.{expected_status} else r_json"`. */
  function Condition(e: Endpoint): string {
    "if status == HTTPStatus." + e.expectedStatus + " else r_json"
  }

  /** `return_type[5:-1]` of a `List[...]` type: the text between `List[` and the last
      character, empty when there is none. */
  function InnerType(rt: string): (r: string)
    requires StartsWith(rt, "List[")
    ensures |rt| > 5 ==> rt == "List[" + r + [rt[|rt| - 1]]
    ensures |rt| <= 5 ==> r == ""
  {
    if |rt| > 5 then rt[5..|rt| - 1] else ""
  }

  /** `List[X]` gives back `X`. */
  lemma InnerTypeRoundTrip(x: string)
    ensures StartsWith("List[" + x + "]", "List[") && InnerType("List[" + x + "]") == x
  {
    var rt := "List[" + x + "]";
    assert rt[..5] == "List[";
    assert rt[5..|rt| - 1] == x;
  }

  /** The element types converted by a plain call rather than by keyword unpacking. */
  predicate IsPlainItem(x: string) {
    x == "str" || x == "int" || x == "float" || x == "bool" || x == "Any"
  }

  /** The return types converted by a plain call. */
  predicate IsScalar(x: string) {
    x == "str" || x == "int" || x == "float" || x == "bool"
  }

  /** `T(arg)` for a plain type, `T(**arg)` for any other. */
  function Convert(t: string, arg: string, plain: bool): string {
    if plain then t + "(" + arg + ")" else t + "(**" + arg + ")"
  }

  /** `_generate_return_statement`. */
  function ReturnStatement(e: Endpoint): (r: string)
    ensures r == "return r_json" <==> e.returnType == "Any"
    ensures e.returnType != "Any" ==> StartsWith(r, "return ") && EndsWith(r, " " + Condition(e))
  {
    var rt := e.returnType;
    if rt == "Any" then "return r_json"
    else
      var body :=
        if StartsWith(rt, "List[") then
          var inner := InnerType(rt);
          "[" + Convert(inner, "item", IsPlainItem(inner)) + " for item in r_json]"
        else Convert(rt, "r_json", IsScalar(rt));
      ReturnForm(body, e);
      "return " + body + " " + Condition(e)
  }

  /** A converted body followed by the condition starts with `return `, ends with the
      condition and is longer than `return r_json`. */
  lemma ReturnForm(body: string, e: Endpoint)
    ensures var r := "return " + body + " " + Condition(e);
      StartsWith(r, "return ") && EndsWith(r, " " + Condition(e)) && r != "return r_json"
  {
    var r := "return " + body + " " + Condition(e);
    assert r[..7] == "return ";
    assert r[|r| - |" " + Condition(e)|..] == " " + Condition(e);
    assert |r| > |"return r_json"| by {
      assert |Condition(e)| >= |" else r_json"|;
    }
  }

  /** A `List[X]` return converts every item of the response with `X`: by a plain call for a
      primitive `X`, by keyword unpacking for a model. */
  lemma ListReturnConvertsEachItem(e: Endpoint, x: string)
    requires e.returnType == "List[" + x + "]"
    ensures ReturnStatement(e)
      == "return [" + Convert(x, "item", IsPlainItem(x)) + " for item in r_json] " + Condition(e)
  {
    InnerTypeRoundTrip(x);
  }

  /** One more parameter extends the filtered prefix by that parameter when its flag
      matches. */
  lemma WhereStep(qs: seq<Parameter>, i: nat, req: bool)
    requires i < |qs|
    ensures Where(qs[..i + 1], req) == Where(qs[..i], req) + (if qs[i].required == req then [qs[i]] else [])
  {
    assert qs[..i + 1][..i] == qs[..i];
  }

  lemma DeclsSnoc(ps: seq<Parameter>, p: Parameter)
    ensures Decls(ps + [p]) == Decls(ps) + [Decl(p)]
    ensures OptionalDecls(ps + [p]) == OptionalDecls(ps) + [OptionalDecl(p)]
  {
    assert (ps + [p])[..|ps|] == ps;
  }

  /** The declaration a query parameter gets in the list its flag selects. */
  function QueryDecl(p: Parameter, req: bool): string {
    if req then Decl(p) else OptionalDecl(p)
  }

  /** The declarations of the query parameters whose flag is `req`, in order. */
  function QueryDecls(qs: seq<Parameter>, req: bool): seq<string> {
    if req then Decls(Where(qs, true)) else OptionalDecls(Where(qs, false))
  }

  /** One more parameter adds its declaration exactly when its flag is `req`. */
  lemma QueryDeclsStep(qs: seq<Parameter>, i: nat, req: bool)
    requires i < |qs|
    ensures qs[i].required == req ==> QueryDecls(qs[..i + 1], req) == QueryDecls(qs[..i], req) + [QueryDecl(qs[i], req)]
    ensures qs[i].required != req ==> QueryDecls(qs[..i + 1], req) == QueryDecls(qs[..i], req)
  {
    WhereStep(qs, i, req);
    if qs[i].required == req {
      DeclsSnoc(Where(qs[..i], req), qs[i]);
    } else {
      assert Where(qs[..i + 1], req) == Where(qs[..i], req) + [] == Where(qs[..i], req);
    }
  }

  /** The path-parameter loop of `from_endpoint`: every path parameter, whatever its flag, is
      appended as `name: type`. */
  method AppendPathDecls(acc: seq<string>, ps: seq<Parameter>) returns (r: seq<string>)
    ensures r == acc + Decls(ps)
  {
    r := acc;
    for i := 0 to |ps|
      invariant r == acc + Decls(ps[..i])
    {
      assert ps[..i + 1] == ps[..i] + [ps[i]];
      DeclsSnoc(ps[..i], ps[i]);
      r := r + [Decl(ps[i])];
    }
    assert ps[..|ps|] == ps;
  }

  /** A query-parameter loop of `from_endpoint`: the parameters whose flag is `req` are
      appended in order, as required or as optional declarations. */
  method AppendQueryDecls(acc: seq<string>, qs: seq<Parameter>, req: bool) returns (r: seq<string>)
    ensures r == acc + QueryDecls(qs, req)
  {
    r := acc;
    for i := 0 to |qs|
      invariant r == acc + QueryDecls(qs[..i], req)
    {
      QueryDeclsStep(qs, i, req);
      if qs[i].required == req {
        r := r + [QueryDecl(qs[i], req)];
      }
    }
    assert qs[..|qs|] == qs;
  }

  /** `MethodContext.from_endpoint`: the two parameter lists are built by appending in loops,
      then the call and the return statement are generated. */
  method FromEndpoint(e: Endpoint) returns (ctx: MethodContext)
    ensures ctx.requiredParams == RequiredParams(e)
    ensures ctx.optionalParams == OptionalParams(e)
    ensures ctx.httpCall == HttpCallOf(e) && ctx.returnStatement == ReturnStatement(e)
    ensures ctx.name == e.name && ctx.description == e.description && ctx.path == e.path
    ensures ctx.returnType == e.returnType && ctx.expectedStatus == e.expectedStatus
  {
    var requiredParams := AppendPathDecls([], e.pathParams);
    requiredParams := AppendQueryDecls(requiredParams, e.queryParams, true);
    if e.httpMethod != "GET" && Truthy(e.payloadType) && e.payloadType.value != "Any" {
      requiredParams := requiredParams + ["payload: " + e.payloadType.value];
    }
    assert requiredParams == RequiredParams(e) by {
      assert [] + Decls(e.pathParams) == Decls(e.pathParams);
    }

    var optionalParams := AppendQueryDecls([], e.queryParams, false);
    if e.httpMethod == "GET" {
      optionalParams := optionalParams + [ParamsDecl];
    } else if !Truthy(e.payloadType) || e.payloadType.value == "Any" {
      optionalParams := optionalParams + [AnyPayloadDecl];
    }
    assert optionalParams == OptionalParams(e) by {
      assert [] + QueryDecls(e.queryParams, false) == QueryDecls(e.queryParams, false);
    }

    var httpCall := HttpCall(e);
    ctx := MethodContext(e.name, e.description, e.path, e.returnType, e.expectedStatus,
                         requiredParams, optionalParams, httpCall, ReturnStatement(e));
  }
}
