/** The frontend's hub routes: the path builders and the parser. */
module Routes {
  import opened Options

  datatype HubType = Ingestion | Agent | Workflow | Eval

  /** The builders that take a hub id. */
  datatype Route =
    | Shell(t: HubType, id: string)
    | Members(t: HubType, id: string)
    | Links(t: HubType, id: string)
    | Settings(t: HubType, id: string)
    | IngestionOverview(id: string)
    | Collections(id: string)
    | Collection(id: string, cid: string)
    | Datastores(id: string)
    | Documents(id: string)
    | Jobs(id: string)
    | Search(id: string)
    | AgentOverview(id: string)
    | Agents(id: string)
    | AgentDetail(id: string, aid: string)
    | Playground(id: string, aid: string)
    | WorkflowOverview(id: string)
    | Workflows(id: string)
    | Editor(id: string, wid: string)
    | WorkflowRuns(id: string, wid: string)
    | EvalOverview(id: string)
    | Suites(id: string)
    | Suite(id: string, sid: string)
    | EvalRuns(id: string)
    | Traces(id: string, runId: string)
    | Dashboard(id: string)

  datatype ParsedHubRoute = ParsedHubRoute(hubType: HubType, hubId: string, subPath: string)

  function TypeName(t: HubType): string {
    match t
    case Ingestion => "ingestion"
    case Agent => "agent"
    case Workflow => "workflow"
    case Eval => "eval"
  }

  function TypeNamed(s: string): (t: Option<HubType>)
    ensures t.Some? ==> TypeName(t.value) == s
    ensures t.None? ==> forall u :: TypeName(u) != s
  {
    match s
    case "ingestion" => Some(Ingestion)
    case "agent" => Some(Agent)
    case "workflow" => Some(Workflow)
    case "eval" => Some(Eval)
    case _ => None
  }

  function Path(r: Route): string {
    match r
    case Shell(t, id) => "/hubs/" + TypeName(t) + "/" + id
    case Members(t, id) => "/hubs/" + TypeName(t) + "/" + id + "/members"
    case Links(t, id) => "/hubs/" + TypeName(t) + "/" + id + "/links"
    case Settings(t, id) => "/hubs/" + TypeName(t) + "/" + id + "/settings"
    case IngestionOverview(id) => "/hubs/ingestion/" + id
    case Collections(id) => "/hubs/ingestion/" + id + "/collections"
    case Collection(id, cid) => "/hubs/ingestion/" + id + "/collections/" + cid
    case Datastores(id) => "/hubs/ingestion/" + id + "/datastores"
    case Documents(id) => "/hubs/ingestion/" + id + "/documents"
    case Jobs(id) => "/hubs/ingestion/" + id + "/jobs"
    case Search(id) => "/hubs/ingestion/" + id + "/search"
    case AgentOverview(id) => "/hubs/agent/" + id
    case Agents(id) => "/hubs/agent/" + id + "/agents"
    case AgentDetail(id, aid) => "/hubs/agent/" + id + "/agents/" + aid
    case Playground(id, aid) => "/hubs/agent/" + id + "/agents/" + aid + "/playground"
    case WorkflowOverview(id) => "/hubs/workflow/" + id
    case Workflows(id) => "/hubs/workflow/" + id + "/workflows"
    case Editor(id, wid) => "/hubs/workflow/" + id + "/workflows/" + wid + "/editor"
    case WorkflowRuns(id, wid) => "/hubs/workflow/" + id + "/workflows/" + wid + "/runs"
    case EvalOverview(id) => "/hubs/eval/" + id
    case Suites(id) => "/hubs/eval/" + id + "/suites"
    case Suite(id, sid) => "/hubs/eval/" + id + "/suites/" + sid
    case EvalRuns(id) => "/hubs/eval/" + id + "/runs"
    case Traces(id, runId) => "/hubs/eval/" + id + "/runs/" + runId + "/traces"
    case Dashboard(id) => "/hubs/eval/" + id + "/dashboard"
  }

  /** What the route means: its hub type, its hub and the segments below it. */
  function TypeOf(r: Route): HubType {
    match r
    case Shell(t, _) => t
    case Members(t, _) => t
    case Links(t, _) => t
    case Settings(t, _) => t
    case IngestionOverview(_) => Ingestion
    case Collections(_) => Ingestion
    case Collection(_, _) => Ingestion
    case Datastores(_) => Ingestion
    case Documents(_) => Ingestion
    case Jobs(_) => Ingestion
    case Search(_) => Ingestion
    case AgentOverview(_) => Agent
    case Agents(_) => Agent
    case AgentDetail(_, _) => Agent
    case Playground(_, _) => Agent
    case WorkflowOverview(_) => Workflow
    case Workflows(_) => Workflow
    case Editor(_, _) => Workflow
    case WorkflowRuns(_, _) => Workflow
    case _ => Eval
  }

  function Below(r: Route): seq<string> {
    match r
    case Members(_, _) => ["members"]
    case Links(_, _) => ["links"]
    case Settings(_, _) => ["settings"]
    case Collections(_) => ["collections"]
    case Collection(_, cid) => ["collections", cid]
    case Datastores(_) => ["datastores"]
    case Documents(_) => ["documents"]
    case Jobs(_) => ["jobs"]
    case Search(_) => ["search"]
    case Agents(_) => ["agents"]
    case AgentDetail(_, aid) => ["agents", aid]
    case Playground(_, aid) => ["agents", aid, "playground"]
    case Workflows(_) => ["workflows"]
    case Editor(_, wid) => ["workflows", wid, "editor"]
    case WorkflowRuns(_, wid) => ["workflows", wid, "runs"]
    case Suites(_) => ["suites"]
    case Suite(_, sid) => ["suites", sid]
    case EvalRuns(_) => ["runs"]
    case Traces(_, runId) => ["runs", runId, "traces"]
    case Dashboard(_) => ["dashboard"]
    case _ => []
  }

  // ------------------------------------------------------------ split and join

  predicate SlashFree(s: string) {
    forall i :: 0 <= i < |s| ==> s[i] != '/'
  }

  function Split(s: string): (parts: seq<string>)
    ensures |parts| >= 1
    ensures forall i :: 0 <= i < |parts| ==> SlashFree(parts[i])
  {
    if s == [] then [""]
    else if s[0] == '/' then [""] + Split(s[1..])
    else
      var rest := Split(s[1..]);
      [[s[0]] + rest[0]] + rest[1..]
  }

  function Join(parts: seq<string>): string {
    if parts == [] then ""
    else if |parts| == 1 then parts[0]
    else parts[0] + "/" + Join(parts[1..])
  }

  lemma {:induction false} JoinSplit(s: string)
    ensures Join(Split(s)) == s
  {
    if s != [] {
      JoinSplit(s[1..]);
      var rest := Split(s[1..]);
      if s[0] == '/' {
        assert ([""] + rest)[1..] == rest;
      } else {
        var parts := Split(s);
        assert parts[1..] == rest[1..];
        assert parts[0] == [s[0]] + rest[0];
      }
    }
  }

  lemma {:induction false} SplitPrepend(p: string, s: string)
    requires SlashFree(p)
    ensures Split(p + "/" + s) == [p] + Split(s)
  {
    var whole := p + "/" + s;
    if p == [] {
      assert whole == ['/'] + s && whole[1..] == s;
    } else {
      SplitPrepend(p[1..], s);
      assert whole[1..] == p[1..] + "/" + s;
      assert ([p[1..]] + Split(s))[1..] == Split(s);
      assert [p[0]] + p[1..] == p;
    }
  }

  lemma {:induction false} SplitSegment(p: string)
    requires SlashFree(p)
    ensures Split(p) == [p]
  {
    if p != [] {
      SplitSegment(p[1..]);
      assert [p[0]] + p[1..] == p;
    }
  }

  lemma {:induction false} SplitJoin(parts: seq<string>)
    requires parts != [] && forall i :: 0 <= i < |parts| ==> SlashFree(parts[i])
    ensures Split(Join(parts)) == parts
  {
    if |parts| == 1 {
      SplitSegment(parts[0]);
    } else {
      SplitJoin(parts[1..]);
      SplitPrepend(parts[0], Join(parts[1..]));
    }
  }

  // -------------------------------------------------------------- the parser

  /** `pathname.replace(/\/$/, "")`. */
  function StripTrailingSlash(s: string): string {
    if s != [] && s[|s| - 1] == '/' then s[..|s| - 1] else s
  }

  function ParseHubRoute(pathname: string): Option<ParsedHubRoute> {
    var parts := Split(StripTrailingSlash(pathname));
    if |parts| < 4 || parts[1] != "hubs" then None
    else if parts[2] == "" || parts[3] == "" || TypeNamed(parts[2]).None? then None
    else Some(ParsedHubRoute(TypeNamed(parts[2]).value, parts[3], Join(parts[4..])))
  }

  // -------------------------------------------------------------- round trips

  function Segments(first: string, t: HubType, id: string, below: seq<string>): seq<string> {
    [first, "hubs", TypeName(t), id] + below
  }

  function PathOf(t: HubType, id: string, subPath: string): string {
    "/hubs/" + TypeName(t) + "/" + id + if subPath == "" then "" else "/" + subPath
  }

  predicate Proper(s: string) {
    s != "" && SlashFree(s)
  }

  lemma TypeNamesSlashFree(t: HubType)
    ensures Proper(TypeName(t)) && TypeNamed(TypeName(t)) == Some(t)
  {
  }

  function Prefix(t: HubType): string {
    "/hubs/" + TypeName(t) + "/"
  }

  lemma JoinCons(first: string, rest: seq<string>)
    requires rest != []
    ensures Join([first] + rest) == first + "/" + Join(rest)
  {
    assert ([first] + rest)[1..] == rest;
  }

  lemma JoinTail(t: HubType, id: string, below: seq<string>)
    ensures Join(Segments("", t, id, below)) == Prefix(t) + Join([id] + below)
  {
    var tail := [id] + below;
    assert Segments("", t, id, below) == [""] + (["hubs"] + ([TypeName(t)] + tail));
    JoinCons(TypeName(t), tail);
    JoinCons("hubs", [TypeName(t)] + tail);
    JoinCons("", ["hubs"] + ([TypeName(t)] + tail));
    hide Join, TypeName, Segments;
    Regroup(TypeName(t), Join(tail));
  }

  lemma Regroup(name: string, tail: string)
    ensures "" + "/" + ("hubs" + "/" + (name + "/" + tail)) == "/hubs/" + name + "/" + tail
  {
    var rest := name + "/" + tail;
    assert "/hubs/" + name + "/" + tail == "/hubs/" + rest;
    assert "hubs" + "/" + rest == "hubs/" + rest;
    assert "/" + ("hubs/" + rest) == "/hubs/" + rest;
  }

  lemma JoinSegments(t: HubType, id: string, below: seq<string>)
    ensures Join(Segments("", t, id, below)) ==
      if below == [] then Prefix(t) + id else Prefix(t) + id + "/" + Join(below)
  {
    JoinTail(t, id, below);
    if below == [] {
      assert [id] + below == [id];
    } else {
      JoinCons(id, below);
      hide Join, Prefix, Segments;
      assert Prefix(t) + (id + "/" + Join(below)) == Prefix(t) + id + "/" + Join(below);
    }
  }

  /** `h` is a hub prefix, `mid` a fixed segment between slashes. */
  lemma OneSegment(h: string, id: string, slashName: string, name: string)
    requires slashName == "/" + name
    ensures h + id + slashName == h + id + "/" + Join([name])
  {
  }

  lemma TwoSegments(h: string, id: string, mid: string, name: string, x: string)
    requires mid == "/" + name + "/"
    ensures h + id + mid + x == h + id + "/" + Join([name, x])
  {
  }

  lemma ThreeSegments(h: string, id: string, mid: string, name: string, x: string, slashLast: string, last: string)
    requires mid == "/" + name + "/" && slashLast == "/" + last
    ensures h + id + mid + x + slashLast == h + id + "/" + Join([name, x, last])
  {
    assert [name, x, last][1..] == [x, last] && [x, last][1..] == [last];
    assert Join([x, last]) == x + slashLast;
    assert Join([name, x, last]) == name + "/" + (x + slashLast);
    assert mid + (x + slashLast) == "/" + (name + "/" + (x + slashLast));
  }

  predicate JoinsSegments(r: Route) {
    Path(r) == if Below(r) == [] then Prefix(TypeOf(r)) + r.id else Prefix(TypeOf(r)) + r.id + "/" + Join(Below(r))
  }

  predicate Shared(r: Route) {
    r.Shell? || r.Members? || r.Links? || r.Settings?
  }

  lemma SharedPaths(r: Route)
    requires Shared(r)
    ensures JoinsSegments(r)
  {
  }

  lemma IngestionPaths(r: Route)
    requires !Shared(r) && TypeOf(r) == Ingestion
    ensures JoinsSegments(r)
  {
    var h := "/hubs/ingestion/";
    assert h == Prefix(Ingestion);
    match r
    case IngestionOverview(_) =>
    case Collections(id) => OneSegment(h, id, "/collections", "collections");
    case Collection(id, cid) => TwoSegments(h, id, "/collections/", "collections", cid);
    case Datastores(id) => OneSegment(h, id, "/datastores", "datastores");
    case Documents(id) => OneSegment(h, id, "/documents", "documents");
    case Jobs(id) => OneSegment(h, id, "/jobs", "jobs");
    case Search(id) => OneSegment(h, id, "/search", "search");
  }

  lemma AgentPaths(r: Route)
    requires !Shared(r) && TypeOf(r) == Agent
    ensures JoinsSegments(r)
  {
    var h := "/hubs/agent/";
    assert h == Prefix(Agent);
    match r
    case AgentOverview(_) =>
    case Agents(id) => OneSegment(h, id, "/agents", "agents");
    case AgentDetail(id, aid) => TwoSegments(h, id, "/agents/", "agents", aid);
    case Playground(id, aid) => ThreeSegments(h, id, "/agents/", "agents", aid, "/playground", "playground");
  }

  lemma WorkflowPaths(r: Route)
    requires !Shared(r) && TypeOf(r) == Workflow
    ensures JoinsSegments(r)
  {
    var h := "/hubs/workflow/";
    assert h == Prefix(Workflow);
    match r
    case WorkflowOverview(_) =>
    case Workflows(id) => OneSegment(h, id, "/workflows", "workflows");
    case Editor(id, wid) => ThreeSegments(h, id, "/workflows/", "workflows", wid, "/editor", "editor");
    case WorkflowRuns(id, wid) => ThreeSegments(h, id, "/workflows/", "workflows", wid, "/runs", "runs");
  }

  lemma EvalPaths(r: Route)
    requires !Shared(r) && TypeOf(r) == Eval
    ensures JoinsSegments(r)
  {
    var h := "/hubs/eval/";
    assert h == Prefix(Eval);
    match r
    case EvalOverview(_) =>
    case Suites(id) => OneSegment(h, id, "/suites", "suites");
    case Suite(id, sid) => TwoSegments(h, id, "/suites/", "suites", sid);
    case EvalRuns(id) => OneSegment(h, id, "/runs", "runs");
    case Traces(id, runId) => ThreeSegments(h, id, "/runs/", "runs", runId, "/traces", "traces");
    case Dashboard(id) => OneSegment(h, id, "/dashboard", "dashboard");
  }

  /** Every builder joins the segments it stands for. */
  lemma PathJoinsSegments(r: Route)
    ensures Path(r) == Join(Segments("", TypeOf(r), r.id, Below(r)))
  {
    JoinSegments(TypeOf(r), r.id, Below(r));
    hide Path, Below, TypeName, Join, Prefix;
    if Shared(r) { SharedPaths(r); }
    else {
      match TypeOf(r)
      case Ingestion => IngestionPaths(r);
      case Agent => AgentPaths(r);
      case Workflow => WorkflowPaths(r);
      case Eval => EvalPaths(r);
    }
  }

  lemma {:induction false} JoinKeepsLast(parts: seq<string>)
    requires parts != [] && parts[|parts| - 1] != ""
    ensures Join(parts) != "" && Join(parts)[|Join(parts)| - 1] == parts[|parts| - 1][|parts[|parts| - 1]| - 1]
  {
    if |parts| > 1 { JoinKeepsLast(parts[1..]); }
  }

  /** Parsing a builder's path gives back its type, its hub id and the path below the hub. */
  lemma RoundTrip(r: Route)
    requires Proper(r.id) && forall i :: 0 <= i < |Below(r)| ==> Proper(Below(r)[i])
    ensures ParseHubRoute(Path(r)) == Some(ParsedHubRoute(TypeOf(r), r.id, Join(Below(r))))
  {
    var parts := Segments("", TypeOf(r), r.id, Below(r));
    PathJoinsSegments(r);
    TypeNamesSlashFree(TypeOf(r));
    hide Path, Below, TypeName, Join, TypeOf, TypeNamed, Split;
    assert parts[|parts| - 1] == if Below(r) == [] then r.id else Below(r)[|Below(r)| - 1];
    JoinKeepsLast(parts);
    SplitJoin(parts);
    assert parts[4..] == Below(r);
  }

  /** Exactly the accepted paths: the parser looks at the segments after the first, which may be
      anything. */
  lemma AcceptedIff(pathname: string)
    ensures ParseHubRoute(pathname).Some? <==>
      exists first, t, id, below ::
        SlashFree(first) && Proper(id) && (forall i :: 0 <= i < |below| ==> SlashFree(below[i]))
        && StripTrailingSlash(pathname) == Join(Segments(first, t, id, below))
  {
    var clean := StripTrailingSlash(pathname);
    var parts := Split(clean);
    JoinSplit(clean);
    if ParseHubRoute(pathname).Some? {
      var p := ParseHubRoute(pathname).value;
      assert parts == Segments(parts[0], p.hubType, p.hubId, parts[4..]);
    }
    forall first, t, id, below
      | SlashFree(first) && Proper(id) && (forall i :: 0 <= i < |below| ==> SlashFree(below[i]))
        && clean == Join(Segments(first, t, id, below))
      ensures ParseHubRoute(pathname).Some?
    {
      TypeNamesSlashFree(t);
      SplitJoin(Segments(first, t, id, below));
    }
  }

  /** An accepted path that starts with a slash is rebuilt from its parse, up to one trailing slash,
      unless nothing but a further slash follows the hub id. */
  lemma RebuiltIff(pathname: string)
    requires ParseHubRoute(pathname).Some? && pathname[0] == '/'
    ensures var p, clean := ParseHubRoute(pathname).value, StripTrailingSlash(pathname);
      PathOf(p.hubType, p.hubId, p.subPath) == clean <==> p.subPath != "" || clean[|clean| - 1] != '/'
  {
    var clean := StripTrailingSlash(pathname);
    var parts := Split(clean);
    var p := ParseHubRoute(pathname).value;
    JoinSplit(clean);
    assert parts[0] == "";
    assert parts == Segments("", p.hubType, p.hubId, parts[4..]);
    JoinSegments(p.hubType, p.hubId, parts[4..]);
    if parts[4..] == [] {
      JoinKeepsLast(parts);
      assert clean == PathOf(p.hubType, p.hubId, "");
    }
  }
}
