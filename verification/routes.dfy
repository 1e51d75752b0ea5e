/** The resource paths the modules send to the client, each a template the
    modules fill in with `str.format`, and a parser that reads a path back into
    the route it addresses. */
module Routes {
  import opened Optional
  import opened Text

  datatype Route =
    | WorkspaceById(workspaceId: string)                      // /workspaces/{workspace_id}
    | WorkspaceByName(organization: string, workspaceName: string)
                                                              // /organizations/{organization}/workspaces/{workspace_name}
    | OrganizationWorkspaces(organization: string)            // /organizations/{organization}/workspaces
    | WorkspaceVars(workspaceId: string)                      // /workspaces/{workspace_id}/vars
    | WorkspaceVar(workspaceId: string, variableId: string)   // /workspaces/{workspace_id}/vars/{variable_id}
    | GlobalVar(variableId: string)                           // /vars/{variable_id}

  /** The filled-in template. */
  function Path(r: Route): (p: string)
    ensures HasPrefix(p, "/")
  {
    match r
    case WorkspaceById(ws) => "/workspaces/" + ws
    case WorkspaceByName(org, name) => "/organizations/" + org + "/workspaces/" + name
    case OrganizationWorkspaces(org) => "/organizations/" + org + "/workspaces"
    case WorkspaceVars(ws) => "/workspaces/" + ws + "/vars"
    case WorkspaceVar(ws, id) => "/workspaces/" + ws + "/vars/" + id
    case GlobalVar(id) => "/vars/" + id
  }

  /** The `/`-separated segments of a route's path. */
  function Segments(r: Route): seq<string> {
    match r
    case WorkspaceById(ws) => ["", "workspaces", ws]
    case WorkspaceByName(org, name) => ["", "organizations", org, "workspaces", name]
    case OrganizationWorkspaces(org) => ["", "organizations", org, "workspaces"]
    case WorkspaceVars(ws) => ["", "workspaces", ws, "vars"]
    case WorkspaceVar(ws, id) => ["", "workspaces", ws, "vars", id]
    case GlobalVar(id) => ["", "vars", id]
  }

  /** No identifier in the route contains `/`. */
  predicate SlashFree(r: Route) {
    forall i :: 0 <= i < |Segments(r)| ==> '/' !in Segments(r)[i]
  }

  lemma JoinThree(a: string, b: string, c: string)
    ensures Join([a, b, c], '/') == a + "/" + b + "/" + c
  {
    assert [a, b, c][1..] == [b, c];
    assert [b, c][1..] == [c];
    assert Join([b, c], '/') == b + ['/'] + c;
    assert Join([a, b, c], '/') == a + ['/'] + (b + ['/'] + c);
  }

  lemma JoinFour(a: string, b: string, c: string, d: string)
    ensures Join([a, b, c, d], '/') == a + "/" + b + "/" + c + "/" + d
  {
    assert [a, b, c, d][1..] == [b, c, d];
    JoinThree(b, c, d);
    assert Join([a, b, c, d], '/') == a + ['/'] + (b + "/" + c + "/" + d);
  }

  lemma JoinFive(a: string, b: string, c: string, d: string, e: string)
    ensures Join([a, b, c, d, e], '/') == a + "/" + b + "/" + c + "/" + d + "/" + e
  {
    assert [a, b, c, d, e][1..] == [b, c, d, e];
    JoinFour(b, c, d, e);
    assert Join([a, b, c, d, e], '/') == a + ['/'] + (b + "/" + c + "/" + d + "/" + e);
  }

  lemma JoinedById(ws: string)
    ensures Path(WorkspaceById(ws)) == Join(Segments(WorkspaceById(ws)), '/')
  {
    JoinThree("", "workspaces", ws);
    assert "" + "/" + "workspaces" + "/" + ws == "/workspaces/" + ws;
  }

  lemma JoinedByName(org: string, name: string)
    ensures Path(WorkspaceByName(org, name)) == Join(Segments(WorkspaceByName(org, name)), '/')
  {
    JoinFive("", "organizations", org, "workspaces", name);
    assert "" + "/" + "organizations" + "/" + org + "/" + "workspaces" + "/" + name
        == "/organizations/" + org + "/workspaces/" + name;
  }

  lemma JoinedOrganizationWorkspaces(org: string)
    ensures Path(OrganizationWorkspaces(org)) == Join(Segments(OrganizationWorkspaces(org)), '/')
  {
    JoinFour("", "organizations", org, "workspaces");
    assert "" + "/" + "organizations" + "/" + org + "/" + "workspaces"
        == "/organizations/" + org + "/workspaces";
  }

  lemma JoinedWorkspaceVars(ws: string)
    ensures Path(WorkspaceVars(ws)) == Join(Segments(WorkspaceVars(ws)), '/')
  {
    JoinFour("", "workspaces", ws, "vars");
    assert "" + "/" + "workspaces" + "/" + ws + "/" + "vars" == "/workspaces/" + ws + "/vars";
  }

  lemma JoinedWorkspaceVar(ws: string, id: string)
    ensures Path(WorkspaceVar(ws, id)) == Join(Segments(WorkspaceVar(ws, id)), '/')
  {
    JoinFive("", "workspaces", ws, "vars", id);
    assert "" + "/" + "workspaces" + "/" + ws + "/" + "vars" + "/" + id
        == "/workspaces/" + ws + "/vars/" + id;
  }

  lemma JoinedGlobalVar(id: string)
    ensures Path(GlobalVar(id)) == Join(Segments(GlobalVar(id)), '/')
  {
    JoinThree("", "vars", id);
    assert "" + "/" + "vars" + "/" + id == "/vars/" + id;
  }

  lemma PathIsJoinedSegments(r: Route)
    ensures Path(r) == Join(Segments(r), '/')
  {
    match r
    case WorkspaceById(ws) => JoinedById(ws);
    case WorkspaceByName(org, name) => JoinedByName(org, name);
    case OrganizationWorkspaces(org) => JoinedOrganizationWorkspaces(org);
    case WorkspaceVars(ws) => JoinedWorkspaceVars(ws);
    case WorkspaceVar(ws, id) => JoinedWorkspaceVar(ws, id);
    case GlobalVar(id) => JoinedGlobalVar(id);
  }

  /** Reads a path back into the route it addresses. */
  function Parse(path: string): Option<Route> {
    var s := Split(path, '/');
    if |s| == 3 && s[0] == "" && s[1] == "workspaces" then Some(WorkspaceById(s[2]))
    else if |s| == 3 && s[0] == "" && s[1] == "vars" then Some(GlobalVar(s[2]))
    else if |s| == 4 && s[0] == "" && s[1] == "workspaces" && s[3] == "vars" then Some(WorkspaceVars(s[2]))
    else if |s| == 4 && s[0] == "" && s[1] == "organizations" && s[3] == "workspaces"
    then Some(OrganizationWorkspaces(s[2]))
    else if |s| == 5 && s[0] == "" && s[1] == "workspaces" && s[3] == "vars" then Some(WorkspaceVar(s[2], s[4]))
    else if |s| == 5 && s[0] == "" && s[1] == "organizations" && s[3] == "workspaces"
    then Some(WorkspaceByName(s[2], s[4]))
    else None
  }

  /** Every route's path reads back as that route, as long as its identifiers
      contain no `/` (the modules do not escape them). */
  lemma ParsePath(r: Route)
    ensures SlashFree(r) ==> Parse(Path(r)) == Some(r)
  {
    if SlashFree(r) {
      PathIsJoinedSegments(r);
      SplitJoin(Segments(r), '/');
    }
  }

  /** Distinct routes have distinct paths. */
  lemma PathInjective(r1: Route, r2: Route)
    requires SlashFree(r1) && SlashFree(r2)
    ensures Path(r1) == Path(r2) ==> r1 == r2
  {
    ParsePath(r1);
    ParsePath(r2);
  }

  /** An identifier containing `/` makes the path address another resource:
      the workspace with id `a/vars` is addressed by the path of the variable
      list of workspace `a`. */
  lemma SlashInIdentifier()
    ensures Path(WorkspaceById("a/vars")) == Path(WorkspaceVars("a"))
    ensures !SlashFree(WorkspaceById("a/vars"))
  {
    assert Segments(WorkspaceById("a/vars"))[2] == "a/vars";
    assert "a/vars"[1] == '/';
  }
}
