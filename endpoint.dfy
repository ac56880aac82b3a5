/** Endpoint resolution of the exercise proxy: the query values `type` and
    `param` select one upstream path of the exercise database. */
module Endpoint {
  import opened Wrappers
  import opened JsValue

  /** The list-all path, and the prefix of every other path. */
  const Base := "/exercises"

  /** The upstream path for the query values `type` and `param`, chosen as
      the handler's two `switch` statements choose it: a path type needs a
      present `param`, a list type an absent one, and everything else keeps
      the default. */
  function ResolveEndpoint(typ: Option<string>, param: Option<string>): string
  {
    if Present(typ) && Present(param) then
      match typ.value
      case "bodyPart" => "/exercises/bodyPart/" + param.value
      case "equipment" => "/exercises/equipment/" + param.value
      case "target" => "/exercises/target/" + param.value
      case "name" => "/exercises/name/" + param.value
      case "id" => "/exercises/exercise/" + param.value
      case _ => "/exercises"
    else if Present(typ) && !Present(param) then
      match typ.value
      case "bodyPartList" => "/exercises/bodyPartList"
      case "equipmentList" => "/exercises/equipmentList"
      case "targetList" => "/exercises/targetList"
      case _ => "/exercises"
    else
      "/exercises"
  }

  // ---------------------------------------------------------------------
  // The endpoint table, stated independently of the handler's control flow
  // ---------------------------------------------------------------------

  /** The exercise attributes that can be filtered on by a parameter. */
  datatype Field = BodyPart | Equipment | Target | Name | Id

  /** The fixed lists the upstream offers. */
  datatype ListKind = BodyPartList | EquipmentList | TargetList

  /** What a request asks the exercise database for. */
  datatype Route =
    | AllExercises
    | ByField(field: Field, value: string)
    | ListOf(kind: ListKind)

  /** The `type` query value that selects a field. */
  function FieldQuery(f: Field): string
  {
    match f
    case BodyPart => "bodyPart"
    case Equipment => "equipment"
    case Target => "target"
    case Name => "name"
    case Id => "id"
  }

  /** The path segment of a field; `id` is served under `exercise`. */
  function FieldSegment(f: Field): string
  {
    match f
    case BodyPart => "bodyPart"
    case Equipment => "equipment"
    case Target => "target"
    case Name => "name"
    case Id => "exercise"
  }

  /** The `type` query value of a list, which is also its path segment. */
  function ListSegment(k: ListKind): string
  {
    match k
    case BodyPartList => "bodyPartList"
    case EquipmentList => "equipmentList"
    case TargetList => "targetList"
  }

  /** The field a `type` query value names, if it names one. */
  function FieldOfQuery(t: string): (f: Option<Field>)
    ensures f.Some? ==> FieldQuery(f.value) == t
    ensures f.None? ==> forall g :: FieldQuery(g) != t
  {
    if t == "bodyPart" then Some(BodyPart)
    else if t == "equipment" then Some(Equipment)
    else if t == "target" then Some(Target)
    else if t == "name" then Some(Name)
    else if t == "id" then Some(Id)
    else None
  }

  /** The list a `type` query value (or a path segment) names, if any. */
  function ListOfQuery(t: string): (k: Option<ListKind>)
    ensures k.Some? ==> ListSegment(k.value) == t
    ensures k.None? ==> forall l :: ListSegment(l) != t
  {
    if t == "bodyPartList" then Some(BodyPartList)
    else if t == "equipmentList" then Some(EquipmentList)
    else if t == "targetList" then Some(TargetList)
    else None
  }

  /** The request a query asks for: a known field with a present parameter,
      a known list without one, and otherwise every exercise. */
  function RouteOf(typ: Option<string>, param: Option<string>): (r: Route)
    ensures r.ByField? ==> r.value != ""
  {
    if Present(typ) && Present(param) && FieldOfQuery(typ.value).Some? then
      ByField(FieldOfQuery(typ.value).value, param.value)
    else if Present(typ) && !Present(param) && ListOfQuery(typ.value).Some? then
      ListOf(ListOfQuery(typ.value).value)
    else
      AllExercises
  }

  /** The directory every non-default path lies in. */
  const Dir := "/exercises/"

  /** The upstream path of a route. */
  function Path(r: Route): string
  {
    match r
    case AllExercises => Base
    case ByField(f, v) => Dir + FieldSegment(f) + "/" + v
    case ListOf(k) => Dir + ListSegment(k)
  }

  // ---------------------------------------------------------------------
  // Reading a path back
  // ---------------------------------------------------------------------

  /** The position of the first `c` in `s`, or `|s|` when there is none. */
  function IndexOf(s: string, c: char): (i: nat)
    ensures i <= |s|
    ensures i < |s| ==> s[i] == c
    ensures c !in s[..i]
  {
    if s == [] then 0
    else if s[0] == c then 0
    else 1 + IndexOf(s[1..], c)
  }

  /** The field whose path segment is `seg`, if any. */
  function FieldOfSegment(seg: string): (f: Option<Field>)
    ensures f.Some? ==> FieldSegment(f.value) == seg
  {
    if seg == "bodyPart" then Some(BodyPart)
    else if seg == "equipment" then Some(Equipment)
    else if seg == "target" then Some(Target)
    else if seg == "name" then Some(Name)
    else if seg == "exercise" then Some(Id)
    else None
  }

  /** The route whose path is `e`, if any. */
  function Parse(e: string): Option<Route>
  {
    if e == Base then Some(AllExercises)
    else if Dir <= e then ParseTail(e[|Dir|..])
    else None
  }

  /** The route for what follows `/exercises/`: a list name without a slash,
      or a field segment, a slash and the parameter. */
  function ParseTail(tail: string): Option<Route>
  {
    var i := IndexOf(tail, '/');
    if i == |tail| then
      match ListOfQuery(tail)
      case Some(k) => Some(ListOf(k))
      case None => None
    else
      match FieldOfSegment(tail[..i])
      case Some(f) => Some(ByField(f, tail[i + 1..]))
      case None => None
  }

  /** The first `c` in `a + [c] + b` is the one right after `a`. */
  lemma {:induction false} IndexOfFirst(a: string, c: char, b: string)
    requires c !in a
    ensures IndexOf(a + [c] + b, c) == |a|
  {
    if a != [] {
      assert (a + [c] + b)[1..] == a[1..] + [c] + b;
      IndexOfFirst(a[1..], c, b);
    }
  }

  lemma {:induction false} IndexOfAbsent(s: string, c: char)
    requires c !in s
    ensures IndexOf(s, c) == |s|
  {
    if s != [] {
      IndexOfAbsent(s[1..], c);
    }
  }

  lemma ParseTailList(k: ListKind)
    ensures ParseTail(ListSegment(k)) == Some(ListOf(k))
  {
    IndexOfAbsent(ListSegment(k), '/');
  }

  lemma ParseTailField(f: Field, v: string)
    ensures ParseTail(FieldSegment(f) + "/" + v) == Some(ByField(f, v))
  {
    var seg := FieldSegment(f);
    var tail := seg + "/" + v;
    assert '/' !in seg;
    IndexOfFirst(seg, '/', v);
    assert tail[..|seg|] == seg;
    assert tail[|seg| + 1..] == v;
    assert FieldOfSegment(seg) == Some(f);
  }

  /** Every path reads back as the route it was made from, so two distinct
      routes never share a path. */
  lemma ParsePath(r: Route)
    ensures Parse(Path(r)) == Some(r)
  {
    match r
    case AllExercises =>
    case ListOf(k) =>
      var e := Dir + ListSegment(k);
      assert e != Base by { assert |e| != |Base|; }
      assert e[|Dir|..] == ListSegment(k);
      ParseTailList(k);
    case ByField(f, v) =>
      var tail := FieldSegment(f) + "/" + v;
      var e := Dir + tail;
      assert Path(r) == e;
      assert e != Base by { assert |e| != |Base|; }
      assert e[|Dir|..] == tail;
      ParseTailField(f, v);
  }

  // ---------------------------------------------------------------------
  // Properties of the resolution
  // ---------------------------------------------------------------------

  /** A known path type with a present parameter appends the parameter,
      verbatim, to that type's path; `id` maps to `exercise`. */
  lemma ResolveFieldPaths(typ: Option<string>, param: Option<string>)
    requires Present(typ) && Present(param)
    ensures typ.value == "bodyPart" ==> ResolveEndpoint(typ, param) == "/exercises/bodyPart/" + param.value
    ensures typ.value == "equipment" ==> ResolveEndpoint(typ, param) == "/exercises/equipment/" + param.value
    ensures typ.value == "target" ==> ResolveEndpoint(typ, param) == "/exercises/target/" + param.value
    ensures typ.value == "name" ==> ResolveEndpoint(typ, param) == "/exercises/name/" + param.value
    ensures typ.value == "id" ==> ResolveEndpoint(typ, param) == "/exercises/exercise/" + param.value
  {
  }

  /** A known list type without a parameter selects that list's fixed path. */
  lemma ResolveListPaths(typ: Option<string>, param: Option<string>)
    requires Present(typ) && !Present(param)
    ensures typ.value == "bodyPartList" ==> ResolveEndpoint(typ, param) == "/exercises/bodyPartList"
    ensures typ.value == "equipmentList" ==> ResolveEndpoint(typ, param) == "/exercises/equipmentList"
    ensures typ.value == "targetList" ==> ResolveEndpoint(typ, param) == "/exercises/targetList"
  {
  }

  /** Every other combination falls back to the list-all path: no `type`, an
      unknown `type`, a list type given a parameter, or a path type without
      one. */
  lemma ResolveDefault(typ: Option<string>, param: Option<string>)
    ensures !Present(typ) ==> ResolveEndpoint(typ, param) == Base
    ensures Present(typ) && FieldOfQuery(typ.value).None? && ListOfQuery(typ.value).None?
      ==> ResolveEndpoint(typ, param) == Base
    ensures Present(typ) && Present(param) && FieldOfQuery(typ.value).None? ==> ResolveEndpoint(typ, param) == Base
    ensures Present(typ) && !Present(param) && ListOfQuery(typ.value).None? ==> ResolveEndpoint(typ, param) == Base
  {
  }

  /** The handler's `switch` statements compute exactly the endpoint table. */
  lemma ResolveMatchesTable(typ: Option<string>, param: Option<string>)
    ensures ResolveEndpoint(typ, param) == Path(RouteOf(typ, param))
  {
    if Present(typ) && Present(param) {
      ResolveMatchesFieldRows(typ.value, param.value);
    } else if Present(typ) {
      ResolveMatchesListRows(typ.value, param);
    }
  }

  lemma ResolveMatchesFieldRows(t: string, v: string)
    requires t != "" && v != ""
    ensures ResolveEndpoint(Some(t), Some(v)) == Path(RouteOf(Some(t), Some(v)))
  {
    if t == "bodyPart" {
      assert Dir + FieldSegment(BodyPart) + "/" == "/exercises/bodyPart/";
    } else if t == "equipment" {
      assert Dir + FieldSegment(Equipment) + "/" == "/exercises/equipment/";
    } else if t == "target" {
      assert Dir + FieldSegment(Target) + "/" == "/exercises/target/";
    } else if t == "name" {
      assert Dir + FieldSegment(Name) + "/" == "/exercises/name/";
    } else if t == "id" {
      assert Dir + FieldSegment(Id) + "/" == "/exercises/exercise/";
    }
  }

  lemma ResolveMatchesListRows(t: string, param: Option<string>)
    requires t != "" && !Present(param)
    ensures ResolveEndpoint(Some(t), param) == Path(RouteOf(Some(t), param))
  {
    if t == "bodyPartList" {
      assert Dir + "bodyPartList" == "/exercises/bodyPartList";
    } else if t == "equipmentList" {
      assert Dir + "equipmentList" == "/exercises/equipmentList";
    } else if t == "targetList" {
      assert Dir + "targetList" == "/exercises/targetList";
    }
  }

  /** Every resolved endpoint lies under `/exercises`. */
  lemma EndpointUnderBase(typ: Option<string>, param: Option<string>)
    ensures Base <= ResolveEndpoint(typ, param)
  {
    ResolveMatchesTable(typ, param);
    match RouteOf(typ, param)
    case AllExercises =>
    case ListOf(k) =>
      assert Dir + ListSegment(k) == Base + ("/" + ListSegment(k));
    case ByField(f, v) =>
      assert Dir + FieldSegment(f) + "/" + v == Base + ("/" + FieldSegment(f) + "/" + v);
  }

  /** Two queries resolve to the same endpoint exactly when they ask for the
      same route: the endpoint loses nothing a request asks for. */
  lemma SameEndpointIffSameRoute(t1: Option<string>, p1: Option<string>, t2: Option<string>, p2: Option<string>)
    ensures ResolveEndpoint(t1, p1) == ResolveEndpoint(t2, p2) <==> RouteOf(t1, p1) == RouteOf(t2, p2)
  {
    ResolveMatchesTable(t1, p1);
    ResolveMatchesTable(t2, p2);
    ParsePath(RouteOf(t1, p1));
    ParsePath(RouteOf(t2, p2));
  }
}
