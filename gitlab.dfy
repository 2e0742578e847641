/** The GitLab enricher (grimoire_elk/enriched/gitlab.py): the identities an
    issue or merge request carries, and the flattening of a raw item into a
    rich item, as the code is written, including the places where it raises. */
module GitLab {
  import opened Py
  import opened Text
  import opened Enrich

  /** The collaborators `get_rich_item` calls that are not part of this model. */
  datatype Env = Env(
    rawFieldsCopy: seq<string>,                         // RAW_FIELDS_COPY of the base enricher
    now: Value,                                         // datetime.utcnow()
    timeDiffDays: (Value, Value) -> Result<Value>,      // get_time_diff_days
    grimoireFields: (Value, string) -> Result<Fields>)  // get_grimoire_fields

  /** The roles `get_identities` looks at, in order. */
  const IdentityRoles: seq<string> := ["user", "assignee"]

  /** Every key `get_rich_item` writes after its copy loop, up to line 245. */
  const DerivedKeys: set<string> := {
    "time_to_close_days", "time_open_days",
    "user_login", "user_name", "author_name", "user_web_url",
    "assignee_login", "assignee_name", "assignee_web_url",
    "id", "id_in_repo", "repository", "title", "title_analyzed", "state",
    "created_at", "updated_at", "closed_at", "url", "labels",
    "pull_request", "item_type"}

  // ---------------------------------------------------------------- identities

  function FieldKey(identityField: Option<string>): Key
  {
    if identityField.Some? then KeyStr(identityField.value) else KeyNone
  }

  /** `get_sh_identity(item, identity_field)`; `None` is the empty identity `{}`.
      A raw item (a dict with "data") selects `item['data'][identity_field]`,
      anything else is taken as the user dict itself. */
  function ShIdentity(item: Value, identityField: Option<string>): (r: Result<Option<Identity>>)
    // a falsy user dict, list or string gives the empty identity
    ensures (item.PyDict? || item.PyList? || item.PyStr?) && !Truthy(item) ==> r == Ok(None)
    // None, booleans and numbers fail the `'data' in item` test
    ensures !(item.PyDict? || item.PyList? || item.PyStr?) ==> r == Err(TypeError)
    // a user dict: username from 'login', email and name copied when present, else None
    ensures item.PyDict? && "data" !in item.fields && Truthy(item) ==>
              (r.Ok? <==> "login" in item.fields) &&
              (r.Ok? ==> r.value == Some(Identity(
                 item.fields["login"],
                 if "email" in item.fields then item.fields["email"] else PyNone,
                 if "name" in item.fields then item.fields["name"] else PyNone)))
    // a truthy user dict without 'login' raises KeyError
    ensures item.PyDict? && "data" !in item.fields && Truthy(item) && "login" !in item.fields ==>
              r == Err(KeyError)
    // with the default identity_field (None) a raw item cannot be resolved
    ensures item.PyDict? && "data" in item.fields && identityField.None? ==> r.Err?
    // a raw item selects item['data'][identity_field]: a failed selection
    // raises, a falsy user gives the empty identity, a user dict gives its
    // login, and its email and name when present
    ensures item.PyDict? && "data" in item.fields && identityField.Some? ==>
              var sel := GetItem(item.fields["data"], KeyStr(identityField.value));
              && (sel.Err? ==> r == Err(sel.error))
              && (sel.Ok? && !Truthy(sel.value) ==> r == Ok(None))
              && (sel.Ok? && sel.value.PyDict? && Truthy(sel.value) ==>
                    var u := sel.value.fields;
                    r == if "login" !in u then Err(KeyError)
                         else Ok(Some(Identity(u["login"],
                                               if "email" in u then u["email"] else PyNone,
                                               if "name" in u then u["name"] else PyNone))))
  {
    var hasData :- Contains(item, "data");
    var user :- if hasData && item.PyDict? then
                  (var data :- Get(item, "data"); GetItem(data, FieldKey(identityField)))
                else Ok(item);
    if !Truthy(user) then Ok(None)
    else
      var login :- Get(user, "login");
      var hasEmail :- Contains(user, "email");
      var email :- if hasEmail then Get(user, "email") else Ok(PyNone);
      var hasName :- Contains(user, "name");
      var name :- if hasName then Get(user, "name") else Ok(PyNone);
      Ok(Some(Identity(login, email, name)))
  }

  /** One turn of the `get_identities` loop: the role's identity when
      `item[role]` is truthy and resolves to a non-empty identity. */
  function RoleIdentity(data: Value, role: string): (r: Result<Option<Identity>>)
    ensures r.Ok? ==> HasKeys(data, {role})
    ensures r.Ok? && r.value.Some? ==>
              Truthy(data.fields[role]) && role + "_data" in data.fields &&
              ShIdentity(data.fields[role + "_data"], None) == Ok(r.value)
    ensures HasKeys(data, {role}) && !Truthy(data.fields[role]) ==> r == Ok(None)
    // a truthy role contributes the identity of its "_data" entry, errors included
    ensures HasKeys(data, {role}) && Truthy(data.fields[role]) ==>
              r == if role + "_data" in data.fields then ShIdentity(data.fields[role + "_data"], None)
                   else Err(KeyError)
  {
    var v :- Get(data, role);
    if Truthy(v) then
      var userData :- Get(data, role + "_data");
      ShIdentity(userData, None)
    else Ok(None)
  }

  function AsSeq<T>(o: Option<T>): (s: seq<T>)
  {
    if o.Some? then [o.value] else []
  }

  /** The identities of `roles`, in order, skipping the empty ones. */
  function RoleIdentities(data: Value, roles: seq<string>): Result<seq<Identity>>
    decreases |roles|
  {
    if roles == [] then Ok([])
    else
      var first :- RoleIdentity(data, roles[0]);
      var rest :- RoleIdentities(data, roles[1..]);
      Ok(AsSeq(first) + rest)
  }

  /** `get_identities(item)`. */
  function Identities(item: Value): (r: Result<seq<Identity>>)
    ensures r.Ok? ==> HasKeys(item, {"data"})
    ensures item.PyDict? && "data" !in item.fields ==> r == Err(KeyError)
    ensures !item.PyDict? ==> r.Err?
  {
    var data :- Get(item, "data");
    RoleIdentities(data, IdentityRoles)
  }

  /** At most two identities, the user's before the assignee's, each present
      exactly when its role resolves to a non-empty identity. */
  lemma IdentitiesUserThenAssignee(item: Value)
    requires Identities(item).Ok?
    ensures HasKeys(item, {"data"})
    ensures var data := item.fields["data"];
            && RoleIdentity(data, "user").Ok?
            && RoleIdentity(data, "assignee").Ok?
            && Identities(item).value ==
                 AsSeq(RoleIdentity(data, "user").value) + AsSeq(RoleIdentity(data, "assignee").value)
            && |Identities(item).value| <= 2
  {
    var data := item.fields["data"];
    assert IdentityRoles[1..] == ["assignee"];
    assert IdentityRoles[1..][1..] == [];
  }

  /** Appends the items of a successful result to `acc`; a failure passes through. */
  function Prefixed<T>(acc: seq<T>, r: Result<seq<T>>): Result<seq<T>>
  {
    if r.Ok? then Ok(acc + r.value) else r
  }

  /** One turn of the identities loop over `roles[i..]`: a failure of the
      role at `i` is the failure of the rest, and otherwise its identity, if
      any, joins those collected so far. */
  lemma RoleIdentitiesStep(data: Value, roles: seq<string>, i: nat, acc: seq<Identity>)
    requires i < |roles|
    ensures var first := RoleIdentity(data, roles[i]);
            && (first.Err? ==> Prefixed(acc, RoleIdentities(data, roles[i..])) == Err(first.error))
            && (first.Ok? ==> Prefixed(acc, RoleIdentities(data, roles[i..])) ==
                                Prefixed(acc + AsSeq(first.value), RoleIdentities(data, roles[i + 1..])))
  {
    assert roles[i..][0] == roles[i] && roles[i..][1..] == roles[i + 1..];
    var first := RoleIdentity(data, roles[i]);
    var rest := RoleIdentities(data, roles[i + 1..]);
    if first.Ok? && rest.Ok? {
      assert acc + (AsSeq(first.value) + rest.value) == (acc + AsSeq(first.value)) + rest.value;
    }
  }

  /** `get_identities` as the source runs it: a loop appending to a list. */
  method GetIdentities(item: Value) returns (r: Result<seq<Identity>>)
    ensures r == Identities(item)
  {
    var data :- Get(item, "data");
    var identities: seq<Identity> := [];
    var i := 0;
    assert IdentityRoles[0..] == IdentityRoles;
    assert RoleIdentities(data, IdentityRoles).Ok? ==>
           [] + RoleIdentities(data, IdentityRoles).value == RoleIdentities(data, IdentityRoles).value;
    while i < |IdentityRoles|
      invariant 0 <= i <= |IdentityRoles|
      invariant RoleIdentities(data, IdentityRoles) ==
                Prefixed(identities, RoleIdentities(data, IdentityRoles[i..]))
    {
      RoleIdentitiesStep(data, IdentityRoles, i, identities);
      var user :- RoleIdentity(data, IdentityRoles[i]);
      if user.Some? {
        identities := identities + [user.value];
      }
      i := i + 1;
    }
    assert IdentityRoles[i..] == [] && identities + [] == identities;
    r := Ok(identities);
  }

  // ---------------------------------------------------------------- small accessors

  /** `get_project_repository(eitem)`: the item's origin. */
  function ProjectRepository(eitem: Value): (r: Result<Value>)
    ensures eitem.PyDict? ==> (r.Ok? <==> "origin" in eitem.fields)
    ensures r.Ok? ==> HasKeys(eitem, {"origin"}) && r.value == eitem.fields["origin"]
  {
    Get(eitem, "origin")
  }

  /** A `GitLabUser`, whose fields are set once from a GitLab user dict. */
  datatype GitLabUser = GitLabUser(login: Value, email: Value, name: Value)

  /** `GitLabUser(user)`: note that `email` is taken from the user's
      `web_url`, not from an email field. */
  function NewGitLabUser(user: Value): (r: Result<GitLabUser>)
    ensures r.Ok? <==> HasKeys(user, {"username", "web_url", "name"})
    ensures r.Ok? ==> r.value == GitLabUser(user.fields["username"], user.fields["web_url"], user.fields["name"])
    ensures user.PyDict? && r.Err? ==> r.error == KeyError
  {
    var login :- Get(user, "username");
    var email :- Get(user, "web_url");
    var name :- Get(user, "name");
    Ok(GitLabUser(login, email, name))
  }

  // ---------------------------------------------------------------- get_rich_item, block by block

  /** `after` keeps every key of `before` and changes none of those that
      `get_rich_item` does not derive itself. */
  predicate Extends(before: Fields, after: Fields)
  {
    && before.Keys <= after.Keys
    && forall k :: k in before && k !in DerivedKeys ==> after[k] == before[k]
  }

  /** The two time fields hold what lines 187-194 store for this issue:
      the days from creation to closing, and the days open, which for a
      closed item is the days to close and otherwise runs up to now. */
  predicate TimeFieldsHold(issue: Value, rich: Fields, env: Env)
    requires HasKeys(issue, {"created_at", "closed_at", "state"})
  {
    var f := issue.fields;
    && "time_to_close_days" in rich && "time_open_days" in rich
    && env.timeDiffDays(f["created_at"], f["closed_at"]) == Ok(rich["time_to_close_days"])
    && (f["state"] == PyStr("closed") ==> rich["time_open_days"] == rich["time_to_close_days"])
    && (f["state"] != PyStr("closed") ==> env.timeDiffDays(f["created_at"], env.now) == Ok(rich["time_open_days"]))
  }

  /** Lines 187-194: days to close, and days open, which for a closed item
      is the days to close and otherwise runs up to now. */
  function TimeFields(issue: Value, rich: Fields, env: Env): (r: Result<Fields>)
    ensures r.Ok? ==> HasKeys(issue, {"created_at", "closed_at", "state"})
    ensures r.Ok? ==>
              var f := issue.fields;
              && r.value.Keys == rich.Keys + {"time_to_close_days", "time_open_days"}
              && Extends(rich, r.value)
              && (forall k :: k in rich && k !in {"time_to_close_days", "time_open_days"} ==> r.value[k] == rich[k])
              && TimeFieldsHold(issue, r.value, env)
    ensures HasKeys(issue, {"created_at", "closed_at", "state"}) ==>
              var f := issue.fields;
              (r.Ok? <==> env.timeDiffDays(f["created_at"], f["closed_at"]).Ok? &&
                          (f["state"] == PyStr("closed") || env.timeDiffDays(f["created_at"], env.now).Ok?))
  {
    var created :- Get(issue, "created_at");
    var closed :- Get(issue, "closed_at");
    var toClose :- env.timeDiffDays(created, closed);
    var rich1 := rich["time_to_close_days" := toClose];
    var state :- Get(issue, "state");
    if state != PyStr("closed") then
      // issue['created_at'] is read again; it is the same value
      var open :- env.timeDiffDays(created, env.now);
      Ok(rich1["time_open_days" := open])
    else
      Ok(rich1["time_open_days" := rich1["time_to_close_days"]])
  }

  /** The keys lines 196-206 write. */
  const AuthorKeys: set<string> := {"user_login", "user_name", "author_name", "user_web_url"}

  /** Lines 196-206. The author's username is read before the author is
      compared with None, so a None author raises, and the None branch
      can never be taken: `user_name` always equals `user_login`. */
  function UserFields(issue: Value, rich: Fields): (r: Result<Fields>)
    ensures r.Ok? <==> HasKeys(issue, {"author"}) && HasKeys(issue.fields["author"], {"username", "name", "web_url"})
    ensures r.Ok? ==>
              var a := issue.fields["author"].fields;
              && r.value == rich["user_login" := a["username"]]["user_name" := a["username"]]
                                ["author_name" := a["name"]]["user_web_url" := a["web_url"]]
              && Extends(rich, r.value)
    ensures HasKeys(issue, {"author"}) && issue.fields["author"] == PyNone ==> r == Err(TypeError)
  {
    var author :- Get(issue, "author");
    var login :- Get(author, "username");
    var rich1 := rich["user_login" := login];
    if author != PyNone && Truthy(author) then
      // user['username'] is read again; it is the same value
      var authorName :- Get(author, "name");
      var webUrl :- Get(author, "web_url");
      Ok(rich1["user_name" := login]["author_name" := authorName]["user_web_url" := webUrl])
    else
      Ok(rich1["user_name" := PyNone]["author_name" := PyNone]["user_web_url" := PyNone])
  }

  /** The keys lines 208-219 write. */
  const AssigneeKeys: set<string> := {"assignee_login", "assignee_name", "assignee_web_url"}

  /** Lines 208-219: the assignee's login, name and web URL, all None when
      there is no assignee. */
  function AssigneeFields(issue: Value, rich: Fields): (r: Result<Fields>)
    ensures r.Ok? <==> HasKeys(issue, {"assignee"}) &&
                       (issue.fields["assignee"] == PyNone ||
                        HasKeys(issue.fields["assignee"], {"username", "name", "web_url"}))
    ensures r.Ok? ==> Extends(rich, r.value)
    ensures r.Ok? && issue.fields["assignee"] == PyNone ==>
              r.value == rich["assignee_login" := PyNone]["assignee_name" := PyNone]["assignee_web_url" := PyNone]
    ensures r.Ok? && issue.fields["assignee"] != PyNone ==>
              var a := issue.fields["assignee"].fields;
              r.value == rich["assignee_login" := a["username"]]["assignee_name" := a["name"]]
                             ["assignee_web_url" := a["web_url"]]
  {
    var assignee :- Get(issue, "assignee");
    if assignee != PyNone then
      var login :- Get(assignee, "username");
      var name :- Get(assignee, "name");
      var webUrl :- Get(assignee, "web_url");
      Ok(rich["assignee_login" := login]["assignee_name" := name]["assignee_web_url" := webUrl])
    else
      Ok(rich["assignee_name" := PyNone]["assignee_login" := PyNone]["assignee_web_url" := PyNone])
  }

  /** Line 222, `web_url.split("/")[-1]`: the text after the last "/". */
  function IdInRepo(webUrl: Value): (r: Result<string>)
    ensures r.Ok? <==> webUrl.PyStr?
    ensures r.Ok? ==> var url := webUrl.s;
                      var k := LastIndexOf(url, '/');
                      && r.value == url[k + 1..]
                      && '/' !in r.value
                      && url == url[..k + 1] + r.value
  {
    var url :- StrMethod(webUrl);
    var idInRepo :- Index(Split(url, '/'), -1);
    SplitLastIsTail(url, '/');
    Ok(idInRepo)
  }

  /** Line 223, `web_url.rsplit("/", 2)[0]`: the URL without its last two
      "/"-separated segments, when it has them. */
  function Repository(webUrl: Value): (r: Result<string>)
    ensures r.Ok? <==> webUrl.PyStr?
    ensures r.Ok? ==> r.value == RSplit(webUrl.s, '/', 2)[0] && r.value <= webUrl.s
  {
    var url :- StrMethod(webUrl);
    var parts := RSplit(url, '/', 2);
    var repository :- Index(parts, 0);
    assert url == Join(parts, "/");
    JoinFirst(parts, "/");
    Ok(repository)
  }

  const IssueKeys: set<string> := {"id", "web_url", "title", "state", "created_at", "updated_at", "closed_at"}

  /** Lines 222-223: `id_in_repo` and `repository`, both derived from the
      issue's web URL. */
  function UrlFields(issue: Value, rich: Fields): (r: Result<Fields>)
    requires issue.PyDict?
    ensures r.Ok? <==> "web_url" in issue.fields && issue.fields["web_url"].PyStr?
    ensures r.Ok? ==>
              var url := issue.fields["web_url"];
              r.value == rich["id_in_repo" := PyStr(IdInRepo(url).value)]
                             ["repository" := PyStr(Repository(url).value)]
  {
    var webUrl :- Get(issue, "web_url");
    var idInRepo :- IdInRepo(webUrl);
    var repository :- Repository(webUrl);   // issue['web_url'] read again: the same value
    Ok(rich["id_in_repo" := PyStr(idInRepo)]["repository" := PyStr(repository)])
  }

  /** Lines 221-223: the issue's id, and the `id_in_repo` and `repository`
      derived from its web URL. */
  function IdFields(issue: Value, rich: Fields): (r: Result<Fields>)
    ensures r.Ok? <==> HasKeys(issue, {"id", "web_url"}) && issue.fields["web_url"].PyStr?
    ensures r.Ok? ==>
              var f := issue.fields;
              && r.value == rich["id" := f["id"]]
                                ["id_in_repo" := PyStr(IdInRepo(f["web_url"]).value)]
                                ["repository" := PyStr(Repository(f["web_url"]).value)]
              && Extends(rich, r.value)
  {
    var id :- Get(issue, "id");
    UrlFields(issue, rich["id" := id])
  }

  /** The keys lines 224-230 write. */
  const CopiedKeys: set<string> := {"title", "title_analyzed", "state", "created_at", "updated_at", "closed_at", "url"}

  /** Lines 224-230: fields copied from the issue; `title_analyzed` is
      the title again and `url` the web URL. */
  function CopiedIssueFields(issue: Value, rich: Fields): (r: Result<Fields>)
    ensures r.Ok? <==> HasKeys(issue, {"title", "state", "created_at", "updated_at", "closed_at", "web_url"})
    ensures r.Ok? ==> forall k :: k in rich && k !in CopiedKeys ==> k in r.value && r.value[k] == rich[k]
    ensures r.Ok? ==>
              var f := issue.fields;
              && r.value == rich["title" := f["title"]]["title_analyzed" := f["title"]]["state" := f["state"]]
                                ["created_at" := f["created_at"]]["updated_at" := f["updated_at"]]
                                ["closed_at" := f["closed_at"]]["url" := f["web_url"]]
              && Extends(rich, r.value)
  {
    var title :- Get(issue, "title");
    var state :- Get(issue, "state");
    var created :- Get(issue, "created_at");
    var updated :- Get(issue, "updated_at");
    var closed :- Get(issue, "closed_at");
    var webUrl :- Get(issue, "web_url");
    Ok(rich["title" := title]["title_analyzed" := title]["state" := state]
           ["created_at" := created]["updated_at" := updated]["closed_at" := closed]["url" := webUrl])
  }

  /** When the web URL has at least two "/", it is the repository, one more
      segment, and the `id_in_repo`, joined by "/". */
  lemma {:induction false} WebUrlIsRepositoryAndIdInRepo(url: string)
    requires |RSplit(url, '/', 2)| == 3
    ensures var middle := RSplit(url, '/', 2)[1];
            && '/' !in middle
            && url == Repository(PyStr(url)).value + "/" + middle + "/" + IdInRepo(PyStr(url)).value
  {
    var parts := RSplit(url, '/', 2);
    RSplitTwo(url, '/');
    var k := LastIndexOf(url, '/');
    assert k >= 0 && parts == RSplit(url[..k], '/', 1) + [url[k + 1..]];
    assert parts[2] == url[k + 1..];
  }

  /** One turn of the labels loop at line 235: the `i`-th character of the
      `i`-th label (not the label itself), followed by ";;". */
  function LabelPiece(entry: Value, i: nat): (r: Result<string>)
    ensures entry.PyStr? ==> (r.Ok? <==> i < |entry.s|)
    ensures entry.PyStr? && r.Ok? ==> r.value == [entry.s[i]] + ";;"
    ensures entry.PyDict? ==> r == Err(KeyError)
  {
    var ch :- GetItem(entry, KeyInt(i));
    var piece :- AddStr(ch, PyStr(";;"));
    Ok(piece.s)
  }

  /** What the labels loop appends for `labels`, the first one having
      position `i`. */
  function LabelPieces(labels: seq<Value>, i: nat): Result<string>
    decreases |labels|
  {
    if labels == [] then Ok("")
    else
      var piece :- LabelPiece(labels[0], i);
      var rest :- LabelPieces(labels[1..], i + 1);
      Ok(piece + rest)
  }

  /** Lines 231-239: the labels string. The trimmed `labels[:-2]` at line
      238 is computed and discarded, so the trailing ";;" stays. */
  function Labels(issue: Value): (r: Result<string>)
    ensures issue.PyDict? && "labels" !in issue.fields ==> r == Ok("")
    ensures r.Ok? ==> r.value == [] || (|r.value| >= 2 && r.value[|r.value| - 2..] == ";;")
  {
    var has :- Contains(issue, "labels");
    if !has then Ok("")
    else
      var v :- Get(issue, "labels");
      var labels :- Iterate(v);
      LabelPiecesEndInSeparator(labels, 0);
      LabelPieces(labels, 0)
  }

  /** Any successful result of the labels loop is empty or ends in ";;". */
  lemma {:induction false} LabelPiecesEndInSeparator(labels: seq<Value>, i: nat)
    ensures var r := LabelPieces(labels, i);
            r.Ok? ==> r.value == [] || (|r.value| >= 2 && r.value[|r.value| - 2..] == ";;")
    decreases |labels|
  {
    if labels != [] {
      LabelPiecesEndInSeparator(labels[1..], i + 1);
    }
  }

  /** For string labels, the loop succeeds exactly when the `j`-th label
      (counting from position `i`) is longer than `i + j`; the result then
      holds, for each label, its character at that position and ";;". */
  lemma {:induction false} LabelPiecesOfStrings(labels: seq<Value>, i: nat)
    requires forall j :: 0 <= j < |labels| ==> labels[j].PyStr?
    ensures var r := LabelPieces(labels, i);
            && (r.Ok? <==> forall j :: 0 <= j < |labels| ==> i + j < |labels[j].s|)
            && (r.Ok? ==> |r.value| == 3 * |labels| &&
                          forall j :: 0 <= j < |labels| ==>
                            r.value[3 * j..3 * j + 3] == [labels[j].s[i + j]] + ";;")
    decreases |labels|
  {
    if labels != [] {
      assert forall j :: 0 < j < |labels| ==> labels[1..][j - 1] == labels[j];
      LabelPiecesOfStrings(labels[1..], i + 1);
      var r := LabelPieces(labels, i);
      if r.Ok? {
        var piece := [labels[0].s[i]] + ";;";
        var rest := LabelPieces(labels[1..], i + 1).value;
        assert r.value == piece + rest;
        forall j | 0 <= j < |labels|
          ensures r.value[3 * j..3 * j + 3] == [labels[j].s[i + j]] + ";;"
        {
          if j > 0 {
            SliceAfter(piece, rest, 3 * (j - 1), 3);
          }
        }
      }
    }
  }

  /** A slice of `p + q` past `p` is a slice of `q`. */
  lemma SliceAfter<T>(p: seq<T>, q: seq<T>, k: nat, n: nat)
    requires k + n <= |q|
    ensures (p + q)[|p| + k..|p| + k + n] == q[k..k + n]
  {
  }

  /** The `for label in ...` loop of lines 234-236, with its counter `i`. */
  method LabelsLoop(labels: seq<Value>) returns (r: Result<string>)
    ensures r == LabelPieces(labels, 0)
  {
    var text := "";
    var i := 0;
    assert labels[0..] == labels;
    assert LabelPieces(labels, 0).Ok? ==> "" + LabelPieces(labels, 0).value == LabelPieces(labels, 0).value;
    while i < |labels|
      invariant 0 <= i <= |labels|
      invariant LabelPieces(labels, 0) == Prefixed(text, LabelPieces(labels[i..], i))
    {
      assert labels[i..][0] == labels[i] && labels[i..][1..] == labels[i + 1..];
      var piece :- LabelPiece(labels[i], i);
      var rest := LabelPieces(labels[i + 1..], i + 1);
      assert rest.Ok? ==> text + (piece + rest.value) == (text + piece) + rest.value;
      text := text + piece;
      i := i + 1;
    }
    assert labels[i..] == [] && text + [] == text;
    r := Ok(text);
  }

  /** Lines 231-239 as the source runs them. */
  method GetLabels(issue: Value) returns (r: Result<string>)
    ensures r == Labels(issue)
  {
    var has :- Contains(issue, "labels");
    var labels := "";
    if has {
      var v :- Get(issue, "labels");
      var items :- Iterate(v);
      labels :- LabelsLoop(items);
    }
    // line 238 evaluates labels[:-2] and drops it: labels is left as it is
    r := Ok(labels);
  }

  /** Lines 241-245: a merge request is told apart from an issue by a
      "head" or "pull_request" key. */
  function ItemType(issue: Value, rich: Fields): (r: Result<Fields>)
    ensures r.Ok? <==> issue.PyDict?
    ensures r.Ok? ==>
              var isIssue := "head" !in issue.fields && "pull_request" !in issue.fields;
              && r.value.Keys == rich.Keys + {"pull_request", "item_type"}
              && Extends(rich, r.value)
              && (forall k :: k in rich && k !in {"pull_request", "item_type"} ==> r.value[k] == rich[k])
              && r.value["pull_request"] == PyBool(!isIssue)
              && r.value["item_type"] == PyStr(if isIssue then "issue" else "pull request")
  {
    if !issue.PyDict? then Err(AttributeError)  // issue.keys()
    else
      var rich1 := rich["pull_request" := PyBool(true)]["item_type" := PyStr("pull request")];
      if "head" !in issue.fields.Keys && "pull_request" !in issue.fields.Keys then
        Ok(rich1["pull_request" := PyBool(false)]["item_type" := PyStr("issue")])
      else Ok(rich1)
  }

  /** `pull_request` and `item_type` hold what lines 241-245 store for
      this issue. */
  predicate TypeFieldsHold(issue: Value, rich: Fields)
    requires issue.PyDict?
  {
    var isIssue := "head" !in issue.fields && "pull_request" !in issue.fields;
    && "pull_request" in rich && rich["pull_request"] == PyBool(!isIssue)
    && "item_type" in rich && rich["item_type"] == PyStr(if isIssue then "issue" else "pull request")
  }

  /** Extending is transitive: keys are never dropped, and a key that is
      not derived keeps its value through both steps. */
  lemma ExtendsTrans(a: Fields, b: Fields, c: Fields)
    requires Extends(a, b) && Extends(b, c)
    ensures Extends(a, c)
  {
    forall k | k in a && k !in DerivedKeys
      ensures c[k] == a[k]
    {
      assert b[k] == a[k];
    }
  }

  /** Lines 187-219: the time, author and assignee fields. */
  function PeopleFields(issue: Value, rich: Fields, env: Env): (r: Result<Fields>)
    ensures r.Ok? ==> Extends(rich, r.value)
    ensures r.Ok? ==> HasKeys(issue, {"created_at", "closed_at", "state"}) && TimeFieldsHold(issue, r.value, env)
  {
    var rich1 :- TimeFields(issue, rich, env);
    var rich2 :- UserFields(issue, rich1);
    var rich3 :- AssigneeFields(issue, rich2);
    ExtendsTrans(rich, rich1, rich2);
    ExtendsTrans(rich, rich2, rich3);
    TimeFieldsKeptByAuthor(issue, rich1, env);
    TimeFieldsKeptByAssignee(issue, rich2, env);
    Ok(rich3)
  }

  /** Lines 221-230: the fields read from the issue itself. The repository
      is the one derived from the web URL. */
  function IssueFields(issue: Value, rich: Fields): (r: Result<Fields>)
    ensures r.Ok? ==> HasKeys(issue, IssueKeys) && issue.fields["web_url"].PyStr?
    ensures r.Ok? ==>
              && Extends(rich, r.value)
              && "repository" in r.value
              && r.value["repository"] == PyStr(Repository(issue.fields["web_url"]).value)
  {
    var rich4 :- IdFields(issue, rich);
    var rich5 :- CopiedIssueFields(issue, rich4);
    ExtendsTrans(rich, rich4, rich5);
    Ok(rich5)
  }

  /** Lines 231-245: the labels and the item type. */
  function LabelAndTypeFields(issue: Value, rich: Fields): (r: Result<Fields>)
    ensures r.Ok? ==> Extends(rich, r.value)
    ensures r.Ok? && "repository" in rich ==> "repository" in r.value && r.value["repository"] == rich["repository"]
    ensures r.Ok? ==> forall k :: k in rich && k !in {"labels", "pull_request", "item_type"} ==> r.value[k] == rich[k]
    ensures r.Ok? ==> Labels(issue).Ok? && "labels" in r.value && r.value["labels"] == PyStr(Labels(issue).value)
    ensures r.Ok? ==> issue.PyDict? && TypeFieldsHold(issue, r.value)
  {
    var labels :- Labels(issue);
    var rich6 := rich["labels" := PyStr(labels)];
    var rich7 :- ItemType(issue, rich6);
    assert Extends(rich, rich6);
    ExtendsTrans(rich, rich6, rich7);
    Ok(rich7)
  }

  /** Lines 176-245: everything `get_rich_item` computes before the
      `gitlab_repo` line. */
  function RichPrefix(item: Value, env: Env): Result<Fields>
  {
    var rich0 :- CopyFields(item, env.rawFieldsCopy, map[]);
    var issue :- Get(item, "data");
    var rich3 :- PeopleFields(issue, rich0, env);
    var rich5 :- IssueFields(issue, rich3);
    LabelAndTypeFields(issue, rich5)
  }

  /** The values the time, labels and type blocks store are still in
      place once the whole prefix is built: no later line overwrites them. */
  lemma RichPrefixBlocks(item: Value, env: Env)
    requires RichPrefix(item, env).Ok?
    ensures HasKeys(item, {"data"}) && HasKeys(item.fields["data"], {"created_at", "closed_at", "state"})
    ensures var issue := item.fields["data"];
            var rich := RichPrefix(item, env).value;
            && TimeFieldsHold(issue, rich, env)
            && Labels(issue).Ok? && "labels" in rich && rich["labels"] == PyStr(Labels(issue).value)
            && TypeFieldsHold(issue, rich)
  {
    RichPrefixReads(item, env);
    var rich0 := CopyFields(item, env.rawFieldsCopy, map[]).value;
    var issue := item.fields["data"];
    var rich3 := PeopleFields(issue, rich0, env).value;
    var rich5 := IssueFields(issue, rich3).value;
    var rich7 := LabelAndTypeFields(issue, rich5).value;
    assert RichPrefix(item, env).value == rich7;
    TimeFieldsKeptByIssue(issue, rich3, env);
    TimeKeysNotWrittenLater();
    TimeFieldsKept(issue, rich5, rich7, env);
  }

  /** The five values the time, labels and type blocks store. */
  const BlockKeys: set<string> := {"time_to_close_days", "time_open_days", "labels", "pull_request", "item_type"}

  /** Lines 252-254 write none of the block keys. */
  lemma BlockKeysNotInTail()
    ensures "url_id" !in BlockKeys && "project" !in BlockKeys && "gitlab_repo" !in BlockKeys
  {
  }

  /** Lines 196-245 write neither time field. */
  lemma TimeKeysNotWrittenLater()
    ensures "time_to_close_days" !in AuthorKeys && "time_open_days" !in AuthorKeys
    ensures "time_to_close_days" !in AssigneeKeys && "time_open_days" !in AssigneeKeys
    ensures "time_to_close_days" !in CopiedKeys && "time_open_days" !in CopiedKeys
    ensures "time_to_close_days" !in {"id", "id_in_repo", "repository"}
    ensures "time_open_days" !in {"id", "id_in_repo", "repository"}
    ensures "time_to_close_days" !in {"labels", "pull_request", "item_type"}
    ensures "time_open_days" !in {"labels", "pull_request", "item_type"}
  {
  }

  /** Lines 196-206 leave the time fields as they were. */
  lemma TimeFieldsKeptByAuthor(issue: Value, rich: Fields, env: Env)
    requires HasKeys(issue, {"created_at", "closed_at", "state"}) && TimeFieldsHold(issue, rich, env)
    requires UserFields(issue, rich).Ok?
    ensures TimeFieldsHold(issue, UserFields(issue, rich).value, env)
  {
    TimeKeysNotWrittenLater();
    TimeFieldsKept(issue, rich, UserFields(issue, rich).value, env);
  }

  /** Lines 208-219 leave the time fields as they were. */
  lemma TimeFieldsKeptByAssignee(issue: Value, rich: Fields, env: Env)
    requires HasKeys(issue, {"created_at", "closed_at", "state"}) && TimeFieldsHold(issue, rich, env)
    requires AssigneeFields(issue, rich).Ok?
    ensures TimeFieldsHold(issue, AssigneeFields(issue, rich).value, env)
  {
    TimeKeysNotWrittenLater();
    TimeFieldsKept(issue, rich, AssigneeFields(issue, rich).value, env);
  }

  /** Lines 221-230 leave the time fields as they were. */
  lemma TimeFieldsKeptByIssue(issue: Value, rich: Fields, env: Env)
    requires HasKeys(issue, {"created_at", "closed_at", "state"}) && TimeFieldsHold(issue, rich, env)
    requires IssueFields(issue, rich).Ok?
    ensures TimeFieldsHold(issue, IssueFields(issue, rich).value, env)
  {
    var rich4 := IdFields(issue, rich).value;
    TimeKeysNotWrittenLater();
    TimeFieldsKeptById(issue, rich, env);
    TimeFieldsKept(issue, rich4, CopiedIssueFields(issue, rich4).value, env);
  }

  /** Lines 221-223 leave the time fields as they were. */
  lemma TimeFieldsKeptById(issue: Value, rich: Fields, env: Env)
    requires HasKeys(issue, {"created_at", "closed_at", "state"}) && TimeFieldsHold(issue, rich, env)
    requires IdFields(issue, rich).Ok?
    ensures TimeFieldsHold(issue, IdFields(issue, rich).value, env)
  {
    var id := issue.fields["id"];
    var url := UrlFields(issue, rich["id" := id]).value;
    TimeKeysNotWrittenLater();
    TimeFieldsKept(issue, rich, url, env);
  }

  /** A step that keeps both time fields keeps what they hold. */
  lemma TimeFieldsKept(issue: Value, before: Fields, after: Fields, env: Env)
    requires HasKeys(issue, {"created_at", "closed_at", "state"})
    requires TimeFieldsHold(issue, before, env)
    requires "time_to_close_days" in after && after["time_to_close_days"] == before["time_to_close_days"]
    requires "time_open_days" in after && after["time_open_days"] == before["time_open_days"]
    ensures TimeFieldsHold(issue, after, env)
  {
  }

  /** Every field of RAW_FIELDS_COPY that the later lines do not overwrite
      is in the rich item, holding the raw item's value or None, and the
      repository is the one derived from the web URL. */
  lemma RichPrefixFields(item: Value, env: Env)
    requires RichPrefix(item, env).Ok?
    ensures HasKeys(item, {"data"}) && HasKeys(item.fields["data"], IssueKeys)
    ensures item.fields["data"].fields["web_url"].PyStr?
    ensures var rich := RichPrefix(item, env).value;
            && (forall f :: f in env.rawFieldsCopy && f !in DerivedKeys ==>
                  f in rich && rich[f] == if f in item.fields then item.fields[f] else PyNone)
            && "repository" in rich
            && rich["repository"] == PyStr(Repository(item.fields["data"].fields["web_url"]).value)
  {
    var rich0 := RichPrefixExtendsCopy(item, env);
    CopyFieldsFromDict(item, env.rawFieldsCopy, map[]);
  }

  /** A prefix is built only from a dict whose `data` has every key the
      issue blocks read, with a string web URL. */
  lemma RichPrefixReads(item: Value, env: Env)
    requires RichPrefix(item, env).Ok?
    ensures item.PyDict? && CopyFields(item, env.rawFieldsCopy, map[]).Ok?
    ensures HasKeys(item, {"data"}) && HasKeys(item.fields["data"], IssueKeys)
    ensures item.fields["data"].fields["web_url"].PyStr?
  {
    var rich0 := CopyFields(item, env.rawFieldsCopy, map[]).value;
    var issue := item.fields["data"];
    var rich3 := PeopleFields(issue, rich0, env).value;
    assert IssueFields(issue, rich3).Ok?;
  }

  /** The prefix extends what the copy loop of lines 179-183 built. */
  lemma RichPrefixExtendsCopy(item: Value, env: Env) returns (rich0: Fields)
    requires RichPrefix(item, env).Ok?
    ensures item.PyDict? && CopyFields(item, env.rawFieldsCopy, map[]) == Ok(rich0)
    ensures HasKeys(item, {"data"}) && HasKeys(item.fields["data"], IssueKeys)
    ensures item.fields["data"].fields["web_url"].PyStr?
    ensures Extends(rich0, RichPrefix(item, env).value)
    ensures var rich := RichPrefix(item, env).value;
            "repository" in rich && rich["repository"] == PyStr(Repository(item.fields["data"].fields["web_url"]).value)
  {
    RichPrefixReads(item, env);
    rich0 := CopyFields(item, env.rawFieldsCopy, map[]).value;
    var issue := item.fields["data"];
    var rich3 := PeopleFields(issue, rich0, env).value;
    var rich5 := IssueFields(issue, rich3).value;
    var rich7 := LabelAndTypeFields(issue, rich5).value;
    assert RichPrefix(item, env).value == rich7;
    ExtendsTrans(rich0, rich3, rich5);
    ExtendsTrans(rich0, rich5, rich7);
  }

  /** Lines 247-250: `repository.rsplit("/", 2)[1] + + '/' + ...`. The
      left operand raises IndexError when the repository has no "/";
      otherwise the unary `+` applied to '/' raises TypeError. */
  function GitlabRepo(rich: Fields): (r: Result<string>)
    ensures r.Err?
    ensures "repository" in rich && rich["repository"].PyStr? ==>
              r.error == if '/' in rich["repository"].s then TypeError else IndexError
  {
    var repository :- Get(PyDict(rich), "repository");
    var s :- StrMethod(repository);
    var left :- Index(RSplit(s, '/', 2), 1);
    Err(TypeError)
  }

  /** Lines 252-263: `url_id`, the raw item's project and the date fields
      of `get_grimoire_fields`. The project map and SortingHat branches
      (lines 256-257, 265-267) are taken as not configured. */
  function Tail(item: Value, rich: Fields, env: Env): (r: Result<Fields>)
    ensures r.Ok? ==>
              && HasKeys(item, {"data"}) && HasKeys(item.fields["data"], {"created_at"})
              && HasKeys(PyDict(rich), {"gitlab_repo", "id_in_repo"})
              && rich["gitlab_repo"].PyStr? && rich["id_in_repo"].PyStr?
              && env.grimoireFields(item.fields["data"].fields["created_at"], "issue").Ok?
    ensures r.Ok? ==>
              var urlId := PyStr(rich["gitlab_repo"].s + "/issues/" + rich["id_in_repo"].s);
              var withId := rich["url_id" := urlId];
              var dates := env.grimoireFields(item.fields["data"].fields["created_at"], "issue").value;
              r.value == (if "project" in item.fields then withId["project" := item.fields["project"]] else withId) + dates
  {
    var repo :- Get(PyDict(rich), "gitlab_repo");
    var idInRepo :- Get(PyDict(rich), "id_in_repo");
    var prefix :- AddStr(repo, PyStr("/issues/"));
    var urlId :- AddStr(prefix, idInRepo);
    var rich1 := rich["url_id" := urlId];
    var hasProject :- Contains(item, "project");
    var rich2 :- if hasProject then (var p :- Get(item, "project"); Ok(rich1["project" := p])) else Ok(rich1);
    var issue :- Get(item, "data");
    var created :- Get(issue, "created_at");
    var dates :- env.grimoireFields(created, "issue");
    Ok(rich2 + dates)
  }

  /** `get_rich_item(item)` as written. */
  function RichItem(item: Value, env: Env): (r: Result<Fields>)
    ensures r.Err?
  {
    var rich :- RichPrefix(item, env);
    match GitlabRepo(rich)
    case Err(e) => Err(e)
    case Ok(repo) => Tail(item, rich["gitlab_repo" := PyStr(repo)], env)
  }

  /** `get_rich_item` never returns normally: when it gets as far as line
      247 it raises IndexError if the repository part of the web URL has
      no "/", and TypeError otherwise. */
  lemma RichItemFailsAtGitlabRepo(item: Value, env: Env)
    ensures RichItem(item, env).Err?
    ensures RichPrefix(item, env).Ok? ==>
              var repository := Repository(item.fields["data"].fields["web_url"]).value;
              RichItem(item, env) == Err(if '/' in repository then TypeError else IndexError)
  {
    if RichPrefix(item, env).Ok? {
      RichPrefixFields(item, env);
    }
  }

  /** `get_rich_item` as the source runs it, with its two loops. */
  method GetRichItem(item: Value, env: Env) returns (r: Result<Fields>)
    ensures r == RichItem(item, env)
  {
    var rich :- CopyFieldsLoop(item, env.rawFieldsCopy, map[]);
    var issue :- Get(item, "data");
    rich :- TimeFields(issue, rich, env);
    rich :- UserFields(issue, rich);
    rich :- AssigneeFields(issue, rich);
    rich :- IdFields(issue, rich);
    rich :- CopiedIssueFields(issue, rich);
    var labels :- GetLabels(issue);
    rich :- ItemType(issue, rich["labels" := PyStr(labels)]);
    match GitlabRepo(rich)
    case Err(e) => r := Err(e);
    case Ok(repo) => r := Tail(item, rich["gitlab_repo" := PyStr(repo)], env);
  }
}
