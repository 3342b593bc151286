/** The GitHub tools: the result every call builds from the dispatcher's
    response (`_request`), the projections of response bodies into summary
    records with their defaults, the pull-request filter of the issue list,
    and the conditional construction of paths and request bodies.

    A projection calls `.get` on each element; on anything but a dict that
    raises, which the model returns as `Err`.  Iterating a value that is not
    a list also raises (or, for an empty dict or string, yields nothing). */
module GitHub {
  import opened Wrappers
  import Strings
  import Json
  import Dispatch

  const AttributeError := "AttributeError"
  const TypeError := "TypeError"

  /** `GitHubResult`: `data` defaults to None. */
  datatype GhResult = GhResult(success: bool, data: Json.Value, error: Option<string>)

  /** The result `_request` and `gh_list_discussions` build: the body on success, otherwise the
      dispatcher's message or the tool's fallback. */
  function ShapeResult(resp: Dispatch.Response, fallback: string): (r: GhResult)
    ensures r.success == resp.success
    ensures r.success ==> r.data == resp.body && r.error.None?
    ensures !r.success ==> r.data == Json.Null && r.error == Some(Dispatch.ErrorMessage(resp, fallback))
  {
    if resp.success then GhResult(true, resp.body, None)
    else GhResult(false, Json.Null, Some(Dispatch.ErrorMessage(resp, fallback)))
  }

  /** `_request`'s result, falling back to "Request failed". */
  function RequestResult(resp: Dispatch.Response): GhResult {
    ShapeResult(resp, "Request failed")
  }

  /** `gh_list_discussions`'s result, falling back to "GraphQL request failed". */
  function DiscussionsResult(resp: Dispatch.Response): GhResult {
    ShapeResult(resp, "GraphQL request failed")
  }

  /** The two differ only in the message of a failure the dispatcher did not explain. */
  lemma DiscussionsLikeRequest(resp: Dispatch.Response)
    ensures DiscussionsResult(resp) == RequestResult(resp) <==> resp.success || resp.error.Some?
  {
  }

  // ---------------------------------------------------------------------------
  // Projections

  /** Where one output field comes from: `d.get(key, default)`, or
      `d.get(outer, {}).get(inner, default)`. */
  datatype Source =
    | Key(key: string, default: Json.Value)
    | Nested(outer: string, inner: string, default: Json.Value)

  datatype Field = Field(name: string, source: Source)

  /** One field lookup; the nested form raises when the outer value is present but not a dict. */
  function Lookup(fields: map<string, Json.Value>, src: Source): (r: Result<Json.Value>)
    ensures src.Key? ==> r == Ok(Json.Get(fields, src.key, src.default))
    ensures src.Nested? && src.outer !in fields ==> r == Ok(src.default)
    ensures src.Nested? && src.outer in fields ==>
      (r.Ok? <==> fields[src.outer].Obj?) &&
      (r.Ok? ==> r.value == Json.Get(fields[src.outer].fields, src.inner, src.default))
  {
    match src
    case Key(key, default) => Ok(Json.Get(fields, key, default))
    case Nested(outer, inner, default) =>
      var o := Json.Get(fields, outer, Json.EmptyObj);
      if o.Obj? then Ok(Json.Get(o.fields, inner, default)) else Err(AttributeError)
  }

  function Names(spec: seq<Field>): set<string> {
    set i | 0 <= i < |spec| :: spec[i].name
  }

  predicate DistinctNames(spec: seq<Field>) {
    forall i, j | 0 <= i < j < |spec| :: spec[i].name != spec[j].name
  }

  /** The record a projection builds from one dict: exactly the spec's field names. */
  function ProjectFields(fields: map<string, Json.Value>, spec: seq<Field>): (r: Result<map<string, Json.Value>>)
    ensures r.Ok? <==> forall i | 0 <= i < |spec| :: Lookup(fields, spec[i].source).Ok?
    ensures r.Ok? ==> r.value.Keys == Names(spec)
    decreases |spec|
  {
    if |spec| == 0 then Ok(map[])
    else
      var last := spec[|spec| - 1];
      assert Names(spec) == Names(spec[..|spec| - 1]) + {last.name} by {
        assert forall i | 0 <= i < |spec| - 1 :: spec[..|spec| - 1][i] == spec[i];
      }
      var m :- ProjectFields(fields, spec[..|spec| - 1]);
      var v :- Lookup(fields, last.source);
      Ok(m[last.name := v])
  }

  /** With distinct names, each output field holds its own lookup. */
  lemma {:induction false} ProjectFieldValue(fields: map<string, Json.Value>, spec: seq<Field>, i: nat)
    requires DistinctNames(spec) && i < |spec|
    requires ProjectFields(fields, spec).Ok?
    ensures ProjectFields(fields, spec).value[spec[i].name] == Lookup(fields, spec[i].source).value
    decreases |spec|
  {
    if i < |spec| - 1 {
      var init := spec[..|spec| - 1];
      assert init[i] == spec[i];
      assert DistinctNames(init) by {
        assert forall a | 0 <= a < |init| :: init[a] == spec[a];
      }
      ProjectFieldValue(fields, init, i);
    }
  }

  /** A summary record built from one element; only a dict can be projected. */
  function ProjectItem(item: Json.Value, spec: seq<Field>): (r: Result<Json.Value>)
    ensures r.Ok? ==> item.Obj? && r.value.Obj? && r.value.fields.Keys == Names(spec)
    ensures !item.Obj? ==> r == Err(AttributeError)
  {
    if !item.Obj? then Err(AttributeError)
    else
      var m :- ProjectFields(item.fields, spec);
      Ok(Json.Obj(m))
  }

  /** A comprehension over a list: one record per element, in order, or the first error. */
  function ProjectAll(items: seq<Json.Value>, spec: seq<Field>): (r: Result<seq<Json.Value>>)
    ensures r.Ok? <==> forall i | 0 <= i < |items| :: ProjectItem(items[i], spec).Ok?
    ensures r.Ok? ==> (|r.value| == |items| &&
      forall i | 0 <= i < |items| :: r.value[i] == ProjectItem(items[i], spec).value)
    decreases |items|
  {
    if |items| == 0 then Ok([])
    else
      var head :- ProjectItem(items[0], spec);
      var rest :- ProjectAll(items[1..], spec);
      assert forall i | 1 <= i < |items| :: items[i] == items[1..][i - 1];
      Ok([head] + rest)
  }

  /** `for x in v`: a list gives its elements; an empty dict or string gives nothing; a
      non-empty dict or string gives strings, whose `.get` raises; any other value is not iterable. */
  function Iterate(v: Json.Value): (r: Result<seq<Json.Value>>)
    ensures v.Arr? ==> r == Ok(v.items)
    ensures !v.Arr? ==> (r.Ok? <==> v == Json.EmptyObj || v == Json.Str(""))
    ensures r.Ok? && !v.Arr? ==> r.value == []
  {
    match v
    case Arr(items) => Ok(items)
    case Obj(fields) => if fields == map[] then Ok([]) else Err(AttributeError)
    case Str(s) => if s == "" then Ok([]) else Err(AttributeError)
    case _ => Err(TypeError)
  }

  const UserFields := [
    Field("login", Key("login", Json.Str(""))),
    Field("name", Key("name", Json.Null)),
    Field("email", Key("email", Json.Null))]

  const RepoFields := [
    Field("name", Key("name", Json.Str(""))),
    Field("full_name", Key("full_name", Json.Str(""))),
    Field("stars", Key("stargazers_count", Json.Int(0))),
    Field("default_branch", Key("default_branch", Json.Str("main")))]

  const IssueFields := [
    Field("number", Key("number", Json.Int(0))),
    Field("title", Key("title", Json.Str(""))),
    Field("state", Key("state", Json.Str(""))),
    Field("user", Nested("user", "login", Json.Str("")))]

  const PullFields := [
    Field("number", Key("number", Json.Int(0))),
    Field("title", Key("title", Json.Str(""))),
    Field("state", Key("state", Json.Str(""))),
    Field("head", Nested("head", "ref", Json.Str(""))),
    Field("base", Nested("base", "ref", Json.Str("")))]

  const WorkflowFields := [
    Field("id", Key("id", Json.Int(0))),
    Field("name", Key("name", Json.Str(""))),
    Field("state", Key("state", Json.Str(""))),
    Field("path", Key("path", Json.Str("")))]

  const RunFields := [
    Field("id", Key("id", Json.Int(0))),
    Field("name", Key("name", Json.Str(""))),
    Field("status", Key("status", Json.Str(""))),
    Field("conclusion", Key("conclusion", Json.Null)),
    Field("head_branch", Key("head_branch", Json.Str("")))]

  const SecretFields := [
    Field("name", Key("name", Json.Str(""))),
    Field("created_at", Key("created_at", Json.Str(""))),
    Field("updated_at", Key("updated_at", Json.Str("")))]

  const DeploymentFields := [
    Field("id", Key("id", Json.Int(0))),
    Field("environment", Key("environment", Json.Str(""))),
    Field("ref", Key("ref", Json.Str(""))),
    Field("task", Key("task", Json.Str(""))),
    Field("created_at", Key("created_at", Json.Str("")))]

  const EnvironmentFields := [
    Field("id", Key("id", Json.Int(0))),
    Field("name", Key("name", Json.Str("")))]

  const StatusFields := [
    Field("state", Key("state", Json.Str(""))),
    Field("context", Key("context", Json.Str(""))),
    Field("description", Key("description", Json.Null))]

  /** A repository summary: `stars` and `default_branch` fall back to 0 and "main" only when
      the key is absent (a stored null is kept). */
  lemma RepoDefaults(repo: map<string, Json.Value>)
    ensures ProjectFields(repo, RepoFields).Ok?
    ensures var p := ProjectFields(repo, RepoFields).value;
      p.Keys == {"name", "full_name", "stars", "default_branch"} &&
      p["stars"] == Json.Get(repo, "stargazers_count", Json.Int(0)) &&
      p["default_branch"] == Json.Get(repo, "default_branch", Json.Str("main")) &&
      ("stargazers_count" !in repo ==> p["stars"] == Json.Int(0)) &&
      ("default_branch" !in repo ==> p["default_branch"] == Json.Str("main"))
  {
    assert Names(RepoFields) == {"name", "full_name", "stars", "default_branch"} by {
      assert RepoFields[0].name == "name" && RepoFields[1].name == "full_name";
      assert RepoFields[2].name == "stars" && RepoFields[3].name == "default_branch";
    }
    ProjectFieldValue(repo, RepoFields, 2);
    ProjectFieldValue(repo, RepoFields, 3);
  }

  /** An issue's `user` is the nested login; a missing user gives "", a user that is not a dict raises. */
  lemma IssueUser(issue: map<string, Json.Value>)
    ensures "user" !in issue ==> (ProjectFields(issue, IssueFields).Ok? &&
      ProjectFields(issue, IssueFields).value["user"] == Json.Str(""))
    ensures "user" in issue && !issue["user"].Obj? ==> ProjectFields(issue, IssueFields).Err?
    ensures "user" in issue && issue["user"].Obj? ==> (ProjectFields(issue, IssueFields).Ok? &&
      ProjectFields(issue, IssueFields).value["user"] == Json.Get(issue["user"].fields, "login", Json.Str("")))
  {
    assert IssueFields[3].source == Nested("user", "login", Json.Str(""));
    if ProjectFields(issue, IssueFields).Ok? {
      ProjectFieldValue(issue, IssueFields, 3);
    }
  }

  // ---------------------------------------------------------------------------
  // Result projections that overwrite `result.data`

  /** `gh_whoami`: on success the body is replaced by the profile `{login, name, email}`. */
  method Whoami(resp: Dispatch.Response) returns (out: Result<GhResult>)
    ensures !resp.success ==> out == Ok(RequestResult(resp))
    ensures resp.success ==> (out.Ok? <==> resp.body.Obj?)
    ensures resp.success && out.Ok? ==>
      out.value == GhResult(true, ProjectItem(resp.body, UserFields).value, None) &&
      out.value.data.fields.Keys == {"login", "name", "email"}
  {
    var result := RequestResult(resp);
    if result.success {
      var u := result.data;
      var profile := ProjectItem(u, UserFields);
      if profile.Err? {
        return Err(profile.error);
      }
      assert Names(UserFields) == {"login", "name", "email"} by {
        assert UserFields[0].name == "login" && UserFields[1].name == "name" && UserFields[2].name == "email";
      }
      result := result.(data := profile.value);
    }
    out := Ok(result);
  }

  /** `gh_list_repos`: a list body becomes repository summaries; anything else, and any failure,
      leaves `data` as `[]` and keeps the error. */
  method ListRepos(resp: Dispatch.Response) returns (out: Result<GhResult>)
    ensures !(resp.success && resp.body.Arr?) ==>
      out == Ok(RequestResult(resp).(data := Json.Arr([])))
    ensures resp.success && resp.body.Arr? ==>
      (out.Ok? <==> ProjectAll(resp.body.items, RepoFields).Ok?) &&
      (out.Ok? ==> out.value == GhResult(true, Json.Arr(ProjectAll(resp.body.items, RepoFields).value), None))
  {
    var result := RequestResult(resp);
    if result.success && result.data.Arr? {
      var repos := ProjectAll(result.data.items, RepoFields);
      if repos.Err? {
        return Err(repos.error);
      }
      result := result.(data := Json.Arr(repos.value));
    } else {
      result := result.(data := Json.Arr([]));
    }
    out := Ok(result);
  }

  /** `gh_get_repo`: on success the body is replaced by one repository summary. */
  method GetRepo(resp: Dispatch.Response) returns (out: Result<GhResult>)
    ensures !resp.success ==> out == Ok(RequestResult(resp))
    ensures resp.success ==> (out.Ok? <==> resp.body.Obj?)
    ensures resp.success && out.Ok? ==>
      out.value == GhResult(true, Json.Obj(ProjectFields(resp.body.fields, RepoFields).value), None)
  {
    var result := RequestResult(resp);
    if result.success {
      var r := result.data;
      if !r.Obj? {
        return Err(AttributeError);
      }
      RepoDefaults(r.fields);
      result := result.(data := Json.Obj(ProjectFields(r.fields, RepoFields).value));
    }
    out := Ok(result);
  }

  // ---------------------------------------------------------------------------
  // List tools

  /** Python's `key in v`: a dict key, a list element, a substring; other types raise. */
  function Contains(v: Json.Value, key: string): (r: Result<bool>)
    ensures v.Obj? ==> r == Ok(key in v.fields)
    ensures v.Arr? ==> r == Ok(Json.Str(key) in v.items)
    ensures v.Str? ==> r == Ok(Strings.IsSubstring(key, v.s))
    ensures !(v.Obj? || v.Arr? || v.Str?) ==> r == Err(TypeError)
  {
    match v
    case Obj(fields) => Ok(key in fields)
    case Arr(items) => Ok(Json.Str(key) in items)
    case Str(s) => Ok(Strings.IsSubstring(key, s))
    case _ => Err(TypeError)
  }

  /** One element of the issue comprehension: tested for `pull_request`, and projected only if it is not one. */
  function IssueStep(item: Json.Value): (r: Result<seq<Json.Value>>)
    ensures item.Obj? && "pull_request" in item.fields ==> r == Ok([])
    ensures item.Obj? && "pull_request" !in item.fields ==>
      (r.Ok? <==> ProjectItem(item, IssueFields).Ok?) &&
      (r.Ok? ==> r.value == [ProjectItem(item, IssueFields).value])
    ensures r.Ok? ==> |r.value| <= 1
    ensures r.Ok? ==> forall k | 0 <= k < |r.value| :: r.value[k].Obj? && r.value[k].fields.Keys == Names(IssueFields)
  {
    var isPull :- Contains(item, "pull_request");
    if isPull then Ok([])
    else
      var issue :- ProjectItem(item, IssueFields);
      Ok([issue])
  }

  /** The issue comprehension: the elements taken left to right, each kept or dropped by `IssueStep`. */
  function Issues(items: seq<Json.Value>): (r: Result<seq<Json.Value>>)
    ensures r.Ok? <==> forall k | 0 <= k < |items| :: IssueStep(items[k]).Ok?
    ensures r.Ok? ==> |r.value| <= |items|
    ensures r.Ok? ==> forall k | 0 <= k < |r.value| :: r.value[k].Obj? && r.value[k].fields.Keys == Names(IssueFields)
    decreases |items|
  {
    if |items| == 0 then Ok([])
    else
      assert forall k | 1 <= k < |items| :: items[k] == items[1..][k - 1];
      var head :- IssueStep(items[0]);
      var rest :- Issues(items[1..]);
      Ok(head + rest)
  }

  /** A one-element list gives exactly that element's step. */
  lemma IssuesSingle(item: Json.Value)
    ensures Issues([item]) == IssueStep(item)
  {
    assert [item][1..] == [];
    assert Issues([]) == Ok([]);
    match IssueStep(item)
    case Ok(head) => assert head + [] == head;
    case Err(e) =>
  }

  lemma ConcatAssoc(x: seq<Json.Value>, y: seq<Json.Value>, z: seq<Json.Value>)
    ensures x + (y + z) == (x + y) + z
  {
  }

  /** One step of the comprehension: the head's step, then the rest. */
  lemma IssuesCons(items: seq<Json.Value>)
    requires |items| > 0
    ensures Issues(items).Ok? <==> IssueStep(items[0]).Ok? && Issues(items[1..]).Ok?
    ensures Issues(items).Ok? ==> Issues(items).value == IssueStep(items[0]).value + Issues(items[1..]).value
  {
  }

  /** Issues of a concatenation are the issues of each part, in order: the filter keeps order. */
  lemma {:induction false} IssuesAppend(a: seq<Json.Value>, b: seq<Json.Value>)
    requires Issues(a).Ok? && Issues(b).Ok?
    ensures Issues(a + b) == Ok(Issues(a).value + Issues(b).value)
    decreases |a|
  {
    if |a| > 0 {
      var ab := a + b;
      assert ab[0] == a[0];
      assert ab[1..] == a[1..] + b;
      IssuesCons(a);
      IssuesCons(ab);
      IssuesAppend(a[1..], b);
      ConcatAssoc(IssueStep(a[0]).value, Issues(a[1..]).value, Issues(b).value);
    } else {
      assert a + b == b;
      assert Issues(a) == Ok([]);
      assert Issues(a).value + Issues(b).value == Issues(b).value;
    }
  }

  /** A list of pull requests only gives no issues. */
  lemma {:induction false} PullsOnlyGiveNothing(items: seq<Json.Value>)
    requires forall i | 0 <= i < |items| :: items[i].Obj? && "pull_request" in items[i].fields
    ensures Issues(items) == Ok([])
    decreases |items|
  {
    if |items| > 0 {
      assert forall i | 0 <= i < |items| - 1 :: items[1..][i] == items[i + 1];
      PullsOnlyGiveNothing(items[1..]);
    }
  }

  /** `gh_list_issues`: the issues of a list body; `[]` on failure or any other body. */
  function ListIssues(resp: Dispatch.Response): (r: Result<seq<Json.Value>>)
    ensures !(resp.success && resp.body.Arr?) ==> r == Ok([])
    ensures resp.success && resp.body.Arr? ==> r == Issues(resp.body.items)
  {
    var result := RequestResult(resp);
    if result.success && result.data.Arr? then Issues(result.data.items) else Ok([])
  }

  /** The list-bodied tools: project every element of a list body, `[]` otherwise. */
  function ListBody(resp: Dispatch.Response, spec: seq<Field>): (r: Result<seq<Json.Value>>)
    ensures !(resp.success && resp.body.Arr?) ==> r == Ok([])
    ensures resp.success && resp.body.Arr? ==> r == ProjectAll(resp.body.items, spec)
  {
    var result := RequestResult(resp);
    if result.success && result.data.Arr? then ProjectAll(result.data.items, spec) else Ok([])
  }

  /** The dict-bodied tools: read `key` (default `[]`) only from a dict body, `[]` otherwise. */
  function DictBody(resp: Dispatch.Response, key: string, spec: seq<Field>): (r: Result<seq<Json.Value>>)
    ensures !(resp.success && resp.body.Obj?) ==> r == Ok([])
    ensures resp.success && resp.body.Obj? && key !in resp.body.fields ==> r == Ok([])
    ensures resp.success && resp.body.Obj? && key in resp.body.fields && resp.body.fields[key].Arr? ==>
      r == ProjectAll(resp.body.fields[key].items, spec)
    ensures resp.success && resp.body.Obj? && key in resp.body.fields && !resp.body.fields[key].Arr? ==>
      (r.Ok? <==> Iterate(resp.body.fields[key]).Ok?) && (r.Ok? ==> r.value == [])
  {
    var result := RequestResult(resp);
    if result.success && result.data.Obj? then
      var items :- Iterate(Json.Get(result.data.fields, key, Json.Arr([])));
      ProjectAll(items, spec)
    else Ok([])
  }

  function ListPrs(resp: Dispatch.Response): (r: Result<seq<Json.Value>>)
    ensures !(resp.success && resp.body.Arr?) ==> r == Ok([])
    ensures resp.success && resp.body.Arr? ==> r == ProjectAll(resp.body.items, PullFields)
    ensures r.Ok? ==> forall k | 0 <= k < |r.value| :: r.value[k].Obj? && r.value[k].fields.Keys == Names(PullFields)
    ensures resp.success && resp.body.Arr? ==> (r.Ok? ==> |r.value| == |resp.body.items|)
  {
    ListBody(resp, PullFields)
  }

  function ListDeployments(resp: Dispatch.Response): (r: Result<seq<Json.Value>>)
    ensures !(resp.success && resp.body.Arr?) ==> r == Ok([])
    ensures resp.success && resp.body.Arr? ==> r == ProjectAll(resp.body.items, DeploymentFields)
    ensures r.Ok? ==> forall k | 0 <= k < |r.value| :: r.value[k].Obj? && r.value[k].fields.Keys == Names(DeploymentFields)
    ensures resp.success && resp.body.Arr? ==> (r.Ok? ==> |r.value| == |resp.body.items|)
  {
    ListBody(resp, DeploymentFields)
  }

  function ListCommitStatuses(resp: Dispatch.Response): (r: Result<seq<Json.Value>>)
    ensures !(resp.success && resp.body.Arr?) ==> r == Ok([])
    ensures resp.success && resp.body.Arr? ==> r == ProjectAll(resp.body.items, StatusFields)
    ensures r.Ok? ==> forall k | 0 <= k < |r.value| :: r.value[k].Obj? && r.value[k].fields.Keys == Names(StatusFields)
    ensures resp.success && resp.body.Arr? ==> (r.Ok? ==> |r.value| == |resp.body.items|)
  {
    ListBody(resp, StatusFields)
  }

  function ListWorkflows(resp: Dispatch.Response): (r: Result<seq<Json.Value>>)
    ensures !(resp.success && resp.body.Obj?) ==> r == Ok([])
    ensures resp.success && resp.body.Obj? && "workflows" !in resp.body.fields ==> r == Ok([])
    ensures resp.success && resp.body.Obj? && "workflows" in resp.body.fields && resp.body.fields["workflows"].Arr? ==>
      r == ProjectAll(resp.body.fields["workflows"].items, WorkflowFields)
    ensures resp.success && resp.body.Obj? && "workflows" in resp.body.fields && !resp.body.fields["workflows"].Arr? ==>
      (r.Ok? <==> Iterate(resp.body.fields["workflows"]).Ok?) && (r.Ok? ==> r.value == [])
    ensures r.Ok? ==> forall k | 0 <= k < |r.value| :: r.value[k].Obj? && r.value[k].fields.Keys == Names(WorkflowFields)
  {
    DictBody(resp, "workflows", WorkflowFields)
  }

  function ListWorkflowRuns(resp: Dispatch.Response): (r: Result<seq<Json.Value>>)
    ensures !(resp.success && resp.body.Obj?) ==> r == Ok([])
    ensures resp.success && resp.body.Obj? && "workflow_runs" !in resp.body.fields ==> r == Ok([])
    ensures resp.success && resp.body.Obj? && "workflow_runs" in resp.body.fields && resp.body.fields["workflow_runs"].Arr? ==>
      r == ProjectAll(resp.body.fields["workflow_runs"].items, RunFields)
    ensures resp.success && resp.body.Obj? && "workflow_runs" in resp.body.fields && !resp.body.fields["workflow_runs"].Arr? ==>
      (r.Ok? <==> Iterate(resp.body.fields["workflow_runs"]).Ok?) && (r.Ok? ==> r.value == [])
    ensures r.Ok? ==> forall k | 0 <= k < |r.value| :: r.value[k].Obj? && r.value[k].fields.Keys == Names(RunFields)
  {
    DictBody(resp, "workflow_runs", RunFields)
  }

  function ListSecrets(resp: Dispatch.Response): (r: Result<seq<Json.Value>>)
    ensures !(resp.success && resp.body.Obj?) ==> r == Ok([])
    ensures resp.success && resp.body.Obj? && "secrets" !in resp.body.fields ==> r == Ok([])
    ensures resp.success && resp.body.Obj? && "secrets" in resp.body.fields && resp.body.fields["secrets"].Arr? ==>
      r == ProjectAll(resp.body.fields["secrets"].items, SecretFields)
    ensures resp.success && resp.body.Obj? && "secrets" in resp.body.fields && !resp.body.fields["secrets"].Arr? ==>
      (r.Ok? <==> Iterate(resp.body.fields["secrets"]).Ok?) && (r.Ok? ==> r.value == [])
    ensures r.Ok? ==> forall k | 0 <= k < |r.value| :: r.value[k].Obj? && r.value[k].fields.Keys == Names(SecretFields)
  {
    DictBody(resp, "secrets", SecretFields)
  }

  function ListEnvironments(resp: Dispatch.Response): (r: Result<seq<Json.Value>>)
    ensures !(resp.success && resp.body.Obj?) ==> r == Ok([])
    ensures resp.success && resp.body.Obj? && "environments" !in resp.body.fields ==> r == Ok([])
    ensures resp.success && resp.body.Obj? && "environments" in resp.body.fields && resp.body.fields["environments"].Arr? ==>
      r == ProjectAll(resp.body.fields["environments"].items, EnvironmentFields)
    ensures resp.success && resp.body.Obj? && "environments" in resp.body.fields && !resp.body.fields["environments"].Arr? ==>
      (r.Ok? <==> Iterate(resp.body.fields["environments"]).Ok?) && (r.Ok? ==> r.value == [])
    ensures r.Ok? ==> forall k | 0 <= k < |r.value| :: r.value[k].Obj? && r.value[k].fields.Keys == Names(EnvironmentFields)
  {
    DictBody(resp, "environments", EnvironmentFields)
  }

  // ---------------------------------------------------------------------------
  // Paths

  function RepoPath(owner: string, repo: string): string {
    "/repos/" + owner + "/" + repo
  }

  /** `gh_get_file`'s url, extended with `?ref=` only for a truthy ref. */
  method GetFilePath(owner: string, repo: string, path: string, ref: Option<string>) returns (url: string)
    ensures Json.GivenText(ref) ==> url == RepoPath(owner, repo) + "/contents/" + path + "?ref=" + ref.value
    ensures !Json.GivenText(ref) ==> url == RepoPath(owner, repo) + "/contents/" + path
  {
    url := RepoPath(owner, repo) + "/contents/" + path;
    if ref.Some? && ref.value != "" {
      url := url + "?ref=" + ref.value;
    }
  }

  /** `gh_list_workflow_runs`'s path: the workflow-specific one when `workflow_id` is truthy. */
  function WorkflowRunsPath(owner: string, repo: string, workflowId: Option<int>, perPage: int): (path: string)
    ensures Json.GivenInt(workflowId) ==> (path == RepoPath(owner, repo) + "/actions/workflows/" +
      Strings.IntToString(workflowId.value) + "/runs?per_page=" + Strings.IntToString(perPage))
    ensures !Json.GivenInt(workflowId) ==> path == RepoPath(owner, repo) + "/actions/runs?per_page=" + Strings.IntToString(perPage)
  {
    if workflowId.Some? && workflowId.value != 0 then
      RepoPath(owner, repo) + "/actions/workflows/" + Strings.IntToString(workflowId.value) + "/runs?per_page=" + Strings.IntToString(perPage)
    else
      RepoPath(owner, repo) + "/actions/runs?per_page=" + Strings.IntToString(perPage)
  }

  /** The all-runs path is used exactly when no truthy workflow id is given; id 0 counts as none. */
  lemma WorkflowRunsPathIff(owner: string, repo: string, workflowId: Option<int>, perPage: int)
    ensures WorkflowRunsPath(owner, repo, workflowId, perPage) == RepoPath(owner, repo) + "/actions/runs?per_page=" + Strings.IntToString(perPage)
      <==> !Json.GivenInt(workflowId)
    ensures WorkflowRunsPath(owner, repo, Some(0), perPage) == WorkflowRunsPath(owner, repo, None, perPage)
  {
    if Json.GivenInt(workflowId) {
      RunsPathsDiffer(RepoPath(owner, repo), Strings.IntToString(workflowId.value), Strings.IntToString(perPage));
    }
  }

  /** The workflow-specific path and the all-runs path differ at their tenth character after the repository. */
  lemma RunsPathsDiffer(base: string, id: string, pp: string)
    ensures base + "/actions/workflows/" + id + "/runs?per_page=" + pp != base + "/actions/runs?per_page=" + pp
  {
    var s1 := base + "/actions/workflows/";
    var s3 := s1 + id + "/runs?per_page=";
    assert s1[|base| + 9] == 'w';
    assert (s3 + pp)[|base| + 9] == 'w';
    var t1 := base + "/actions/runs?per_page=";
    assert t1[|base| + 9] == 'r';
    assert (t1 + pp)[|base| + 9] == 'r';
  }

  /** `gh_list_deployments`'s path, extended with `&environment=` only for a truthy environment. */
  method DeploymentsPath(owner: string, repo: string, environment: Option<string>, perPage: int) returns (path: string)
    ensures Json.GivenText(environment) ==>
      path == RepoPath(owner, repo) + "/deployments?per_page=" + Strings.IntToString(perPage) + "&environment=" + environment.value
    ensures !Json.GivenText(environment) ==>
      path == RepoPath(owner, repo) + "/deployments?per_page=" + Strings.IntToString(perPage)
  {
    path := RepoPath(owner, repo) + "/deployments?per_page=" + Strings.IntToString(perPage);
    if environment.Some? && environment.value != "" {
      path := path + "&environment=" + environment.value;
    }
  }

  // ---------------------------------------------------------------------------
  // Bodies

  /** `gh_put_file`'s body: `message` and `content` always, `branch` and `sha` only when truthy. */
  method PutFileBody(contentBase64: string, message: string, branch: Option<string>, sha: Option<string>)
    returns (body: map<string, Json.Value>)
    ensures "message" in body && body["message"] == Json.Str(message)
    ensures "content" in body && body["content"] == Json.Str(contentBase64)
    ensures "branch" in body <==> Json.GivenText(branch)
    ensures "branch" in body ==> body["branch"] == Json.Str(branch.value)
    ensures "sha" in body <==> Json.GivenText(sha)
    ensures "sha" in body ==> body["sha"] == Json.Str(sha.value)
    ensures body.Keys <= {"message", "content", "branch", "sha"}
  {
    body := map["message" := Json.Str(message), "content" := Json.Str(contentBase64)];
    if branch.Some? && branch.value != "" {
      body := body["branch" := Json.Str(branch.value)];
    }
    if sha.Some? && sha.value != "" {
      body := body["sha" := Json.Str(sha.value)];
    }
  }

  /** `gh_delete_file`'s body: `message` and `sha` always, `branch` only when truthy. */
  method DeleteFileBody(message: string, sha: string, branch: Option<string>) returns (body: map<string, Json.Value>)
    ensures "message" in body && body["message"] == Json.Str(message)
    ensures "sha" in body && body["sha"] == Json.Str(sha)
    ensures "branch" in body <==> Json.GivenText(branch)
    ensures "branch" in body ==> body["branch"] == Json.Str(branch.value)
    ensures body.Keys <= {"message", "sha", "branch"}
  {
    body := map["message" := Json.Str(message), "sha" := Json.Str(sha)];
    if branch.Some? && branch.value != "" {
      body := body["branch" := Json.Str(branch.value)];
    }
  }

  /** The JSON object of a `dict[str, str]`. */
  function StrMap(m: map<string, string>): (v: Json.Value)
    ensures v.Obj? && v.fields.Keys == m.Keys
    ensures forall k | k in m :: v.fields[k] == Json.Str(m[k])
  {
    Json.Obj(map k | k in m :: Json.Str(m[k]))
  }

  /** `gh_dispatch_workflow`'s body: `ref` always, `inputs` only when a non-empty dict is given. */
  method DispatchWorkflowBody(ref: string, inputs: Option<map<string, string>>) returns (body: map<string, Json.Value>)
    ensures "ref" in body && body["ref"] == Json.Str(ref)
    ensures "inputs" in body <==> inputs.Some? && inputs.value != map[]
    ensures "inputs" in body ==> body["inputs"] == StrMap(inputs.value)
    ensures body.Keys <= {"ref", "inputs"}
  {
    body := map["ref" := Json.Str(ref)];
    if inputs.Some? && inputs.value != map[] {
      body := body["inputs" := StrMap(inputs.value)];
    }
  }
}
