/** The three places where the GitLab enricher's `get_rich_item` does not
    do what it evidently means to, each as written (in module GitLab) and
    corrected here, with the intended property proved about the correction
    and a concrete input on which the two differ. */
module GitLabCorrected {
  import opened Py
  import opened Text
  import opened Enrich
  import opened GitLab

  // ------------------------------------------------------------ author fields

  /** Lines 196-206 as intended: the author fields are read only when there
      is an author, and are all None otherwise. */
  function UserFieldsCorrected(issue: Value, rich: Fields): (r: Result<Fields>)
    ensures r.Ok? <==> HasKeys(issue, {"author"}) &&
                       (!Truthy(issue.fields["author"]) ||
                        HasKeys(issue.fields["author"], {"username", "name", "web_url"}))
    ensures r.Ok? && !Truthy(issue.fields["author"]) ==>
              r.value == rich["user_login" := PyNone]["user_name" := PyNone]
                             ["author_name" := PyNone]["user_web_url" := PyNone]
    ensures r.Ok? ==> Extends(rich, r.value)
    ensures r.Ok? ==> forall k :: k in rich && k !in AuthorKeys ==> r.value[k] == rich[k]
  {
    var author :- Get(issue, "author");
    if author != PyNone && Truthy(author) then
      var login :- Get(author, "username");
      var authorName :- Get(author, "name");
      var webUrl :- Get(author, "web_url");
      Ok(rich["user_login" := login]["user_name" := login]["author_name" := authorName]["user_web_url" := webUrl])
    else
      Ok(rich["user_login" := PyNone]["user_name" := PyNone]["author_name" := PyNone]["user_web_url" := PyNone])
  }

  /** The correction changes nothing when there is an author, and turns the
      exception the code as written raises for a missing author (None, or
      any other false value) into four None fields. */
  lemma UserFieldsCorrectedAgrees(issue: Value, rich: Fields)
    requires HasKeys(issue, {"author"})
    ensures Truthy(issue.fields["author"]) ==> UserFieldsCorrected(issue, rich) == UserFields(issue, rich)
    ensures !Truthy(issue.fields["author"]) ==>
              UserFields(issue, rich).Err? && UserFieldsCorrected(issue, rich).Ok?
  {
    var author := issue.fields["author"];
    if !Truthy(author) {
      assert Get(author, "username").Err? by {
        match author
        case PyDict(m) => assert m == map[];
        case _ =>
      }
    }
  }

  /** An issue whose author is None. */
  lemma UserFieldsNoneAuthor()
    ensures var issue := PyDict(map["author" := PyNone]);
            && UserFields(issue, map[]) == Err(TypeError)
            && UserFieldsCorrected(issue, map[]).Ok?
  {
    UserFieldsCorrectedAgrees(PyDict(map["author" := PyNone]), map[]);
  }

  // ------------------------------------------------------------------ labels

  /** `labels += label + ";;"` over the labels, each of which must be a
      string. */
  function Suffixed(labels: seq<Value>): Result<string>
    decreases |labels|
  {
    if labels == [] then Ok("")
    else
      var front :- Suffixed(labels[..|labels| - 1]);
      var piece :- AddStr(labels[|labels| - 1], PyStr(";;"));
      Ok(front + piece.s)
  }

  /** Python's `s[:-2]`. */
  function DropLastTwo(s: string): (r: string)
    ensures |s| >= 2 ==> s == r + s[|s| - 2..]
    ensures |s| < 2 ==> r == ""
  {
    if |s| >= 2 then s[..|s| - 2] else ""
  }

  /** The strings of a list of string labels. */
  function Strings(labels: seq<Value>): (r: seq<string>)
    requires forall j :: 0 <= j < |labels| ==> labels[j].PyStr?
    ensures |r| == |labels| && forall j :: 0 <= j < |labels| ==> r[j] == labels[j].s
  {
    seq(|labels|, j requires 0 <= j < |labels| => labels[j].s)
  }

  /** Lines 231-239 as intended: the whole labels, each followed by ";;",
      with the last ";;" trimmed and the trimmed string kept. */
  function LabelsCorrected(issue: Value): Result<string>
  {
    var has :- Contains(issue, "labels");
    if !has then Ok("")
    else
      var v :- Get(issue, "labels");
      var labels :- Iterate(v);
      var joined :- Suffixed(labels);
      Ok(if joined != "" then DropLastTwo(joined) else joined)
  }

  /** Appending ";;" after each label gives the labels joined by ";;",
      followed by one more ";;". */
  lemma {:induction false} SuffixedIsJoinThenSeparator(labels: seq<Value>)
    requires |labels| >= 1
    requires forall j :: 0 <= j < |labels| ==> labels[j].PyStr?
    ensures Suffixed(labels) == Ok(Join(Strings(labels), ";;") + ";;")
    decreases |labels|
  {
    var n := |labels|;
    var front := labels[..n - 1];
    var last := labels[n - 1].s;
    if n > 1 {
      SuffixedIsJoinThenSeparator(front);
      assert AddStr(labels[n - 1], PyStr(";;")) == Ok(PyStr(last + ";;"));
      assert Strings(labels)[..n - 1] == Strings(front);
      var j := Join(Strings(front), ";;");
      assert Join(Strings(labels), ";;") == j + ";;" + last;
      assert (j + ";;") + (last + ";;") == j + ";;" + last + ";;";
    } else {
      assert Suffixed(front) == Ok("");
      assert AddStr(labels[0], PyStr(";;")) == Ok(PyStr(last + ";;"));
      assert Strings(labels) == [last];
      assert "" + (last + ";;") == last + ";;";
    }
  }

  /** For string labels the corrected code stores `";;".join(labels)`. */
  lemma LabelsCorrectedIsJoin(issue: Value)
    requires HasKeys(issue, {"labels"}) && issue.fields["labels"].PyList?
    requires var ls := issue.fields["labels"].items;
             forall j :: 0 <= j < |ls| ==> ls[j].PyStr?
    ensures LabelsCorrected(issue) == Ok(Join(Strings(issue.fields["labels"].items), ";;"))
  {
    var ls := issue.fields["labels"].items;
    if ls != [] {
      SuffixedIsJoinThenSeparator(ls);
      var j := Join(Strings(ls), ";;");
      assert DropLastTwo(j + ";;") == j;
    }
  }

  /** The labels `["bug", "ui"]`: the code as written stores the first
      character of the first label and the second of the second, each
      followed by ";;"; the correction stores "bug;;ui". The labels
      `["a", "b"]` make the code as written raise IndexError. */
  lemma LabelsCounterexample()
    ensures Labels(PyDict(map["labels" := PyList([PyStr("bug"), PyStr("ui")])])) == Ok("b;;i;;")
    ensures LabelsCorrected(PyDict(map["labels" := PyList([PyStr("bug"), PyStr("ui")])])) == Ok("bug;;ui")
    ensures Labels(PyDict(map["labels" := PyList([PyStr("a"), PyStr("b")])])) == Err(IndexError)
  {
    var ls := [PyStr("bug"), PyStr("ui")];
    assert "i" + ";;" == "i;;" && "b" + ";;" == "b;;";
    assert LabelPiece(PyStr("ui"), 1) == Ok("i;;");
    assert LabelPiece(PyStr("bug"), 0) == Ok("b;;");
    assert ls[1..][1..] == [];
    assert LabelPieces(ls[1..][1..], 2) == Ok("");
    assert "i;;" + "" == "i;;" && "b;;" + "i;;" == "b;;i;;";
    assert LabelPieces(ls[1..], 1) == Ok("i;;");
    assert LabelPieces(ls, 0) == Ok("b;;i;;");
    LabelsCorrectedIsJoin(PyDict(map["labels" := PyList(ls)]));
    assert Strings(ls) == ["bug", "ui"];
    JoinTwo("bug", "ui", ";;");
    assert Join(Strings(ls), ";;") == "bug;;ui";
    var ab := [PyStr("a"), PyStr("b")];
    assert LabelPiece(ab[1..][0], 1) == Err(IndexError);
    assert LabelPieces(ab[1..], 1) == Err(IndexError);
  }

  /** Joining two pieces puts the separator between them. */
  lemma JoinTwo(a: string, b: string, sep: string)
    ensures Join([a, b], sep) == a + sep + b
  {
    assert [a, b][..1] == [a];
  }

  // ------------------------------------------------------------- gitlab_repo

  /** Lines 247-250 as intended: the last two "/"-separated segments of the
      repository, joined by "/". */
  function GitlabRepoCorrected(rich: Fields): (r: Result<string>)
    ensures r.Ok? <==> "repository" in rich && rich["repository"].PyStr? &&
                       |RSplit(rich["repository"].s, '/', 2)| == 3
    ensures r.Ok? ==> var parts := RSplit(rich["repository"].s, '/', 2);
                      rich["repository"].s == parts[0] + "/" + r.value
  {
    var repository :- Get(PyDict(rich), "repository");
    var s :- StrMethod(repository);
    var parts := RSplit(s, '/', 2);
    var owner :- Index(parts, 1);
    var project :- Index(parts, 2);
    RSplitTwo(s, '/');
    Ok(owner + "/" + project)
  }

  /** `"gitlab.com/owner/proj".rsplit("/", 2)`. */
  lemma RSplitExample()
    ensures RSplit("gitlab.com/owner/proj", '/', 2) == ["gitlab.com", "owner", "proj"]
  {
    var s := "gitlab.com/owner/proj";
    LastIndexOfAt(s, '/', 16);
    assert s[..16] == "gitlab.com/owner" && s[17..] == "proj";
    LastIndexOfAt(s[..16], '/', 10);
    assert s[..16][..10] == "gitlab.com" && s[..16][11..] == "owner";
  }

  /** A repository "gitlab.com/owner/proj": the code as written raises
      TypeError, the correction gives "owner/proj". */
  lemma GitlabRepoCounterexample()
    ensures var rich := map["repository" := PyStr("gitlab.com/owner/proj")];
            && GitlabRepo(rich) == Err(TypeError)
            && GitlabRepoCorrected(rich) == Ok("owner/proj")
  {
    var s := "gitlab.com/owner/proj";
    var rich := map["repository" := PyStr(s)];
    assert s[10] == '/';
    assert GitlabRepo(rich) == Err(TypeError);
    RSplitExample();
    var parts := RSplit(s, '/', 2);
    assert Index(parts, 1) == Ok("owner") && Index(parts, 2) == Ok("proj");
    OwnerSlashProj();
  }

  /** The two segments of the example joined by "/". */
  lemma OwnerSlashProj()
    ensures "owner" + "/" + "proj" == "owner/proj"
  {
    assert ("owner" + "/" + "proj")[..5] == "owner";
  }

  /** With the correction, an issue URL `<host>/<owner>/<project>/issues/<n>`
      is the host followed by `url_id`, which is `gitlab_repo + "/issues/" +
      id_in_repo` (lines 252-254). */
  lemma UrlIdIsIssuePath(url: string)
    requires |RSplit(url, '/', 2)| == 3 && RSplit(url, '/', 2)[1] == "issues"
    requires |RSplit(Repository(PyStr(url)).value, '/', 2)| == 3
    ensures var repository := Repository(PyStr(url)).value;
            var gitlabRepo := GitlabRepoCorrected(map["repository" := PyStr(repository)]).value;
            url == RSplit(repository, '/', 2)[0] + "/" + (gitlabRepo + "/issues/" + IdInRepo(PyStr(url)).value)
  {
    var repository := Repository(PyStr(url)).value;
    var id := IdInRepo(PyStr(url)).value;
    WebUrlIsRepositoryAndIdInRepo(url);
    var g := GitlabRepoCorrected(map["repository" := PyStr(repository)]);
    var head := RSplit(repository, '/', 2)[0];
    assert repository == head + "/" + g.value;
    assert url == head + "/" + g.value + "/" + "issues" + "/" + id;
    IssuePath(head, g.value, id);
  }

  /** The "/issues/" of `url_id` is the separator, "issues" and the
      separator again. */
  lemma IssuePath(head: string, repo: string, id: string)
    ensures head + "/" + repo + "/" + "issues" + "/" + id == head + "/" + (repo + "/issues/" + id)
  {
    assert "/" + "issues" + "/" == "/issues/";
  }

  // ------------------------------------------------------------ get_rich_item

  /** Lines 187-219 with the corrected author fields. */
  function PeopleFieldsCorrected(issue: Value, rich: Fields, env: Env): (r: Result<Fields>)
    ensures r.Ok? ==> Extends(rich, r.value)
    ensures r.Ok? ==> HasKeys(issue, {"created_at", "closed_at", "state"}) && TimeFieldsHold(issue, r.value, env)
  {
    var rich1 :- TimeFields(issue, rich, env);
    var rich2 :- UserFieldsCorrected(issue, rich1);
    var rich3 :- AssigneeFields(issue, rich2);
    ExtendsTrans(rich, rich1, rich2);
    ExtendsTrans(rich, rich2, rich3);
    TimeKeysNotWrittenLater();
    TimeFieldsKept(issue, rich1, rich2, env);
    TimeFieldsKeptByAssignee(issue, rich2, env);
    Ok(rich3)
  }

  /** Lines 231-245 with the corrected labels. */
  function LabelAndTypeFieldsCorrected(issue: Value, rich: Fields): (r: Result<Fields>)
    ensures r.Ok? ==> Extends(rich, r.value)
    ensures r.Ok? && "repository" in rich ==> "repository" in r.value && r.value["repository"] == rich["repository"]
    ensures r.Ok? ==> forall k :: k in rich && k !in {"labels", "pull_request", "item_type"} ==> r.value[k] == rich[k]
    ensures r.Ok? ==> LabelsCorrected(issue).Ok? && "labels" in r.value && r.value["labels"] == PyStr(LabelsCorrected(issue).value)
    ensures r.Ok? ==> issue.PyDict? && TypeFieldsHold(issue, r.value)
  {
    var labels :- LabelsCorrected(issue);
    var rich6 := rich["labels" := PyStr(labels)];
    var rich7 :- ItemType(issue, rich6);
    assert Extends(rich, rich6);
    ExtendsTrans(rich, rich6, rich7);
    Ok(rich7)
  }

  /** Lines 176-245 with the corrected author fields and labels. */
  function RichPrefixCorrected(item: Value, env: Env): (r: Result<Fields>)
    ensures r.Ok? ==> item.PyDict? && CopyFields(item, env.rawFieldsCopy, map[]).Ok?
    ensures r.Ok? ==> HasKeys(item, {"data"}) && HasKeys(item.fields["data"], IssueKeys)
  {
    var rich0 :- CopyFields(item, env.rawFieldsCopy, map[]);
    var issue :- Get(item, "data");
    var rich3 :- PeopleFieldsCorrected(issue, rich0, env);
    var rich5 :- IssueFields(issue, rich3);
    LabelAndTypeFieldsCorrected(issue, rich5)
  }

  /** With the corrections the repository is still the one derived from
      the web URL. */
  lemma RichPrefixCorrectedRepository(item: Value, env: Env)
    requires RichPrefixCorrected(item, env).Ok?
    ensures HasKeys(item, {"data"}) && HasKeys(item.fields["data"], IssueKeys)
    ensures item.fields["data"].fields["web_url"].PyStr?
    ensures var rich := RichPrefixCorrected(item, env).value;
            && "repository" in rich
            && rich["repository"] == PyStr(Repository(item.fields["data"].fields["web_url"]).value)
  {
    var issue := item.fields["data"];
    var rich0 := CopyFields(item, env.rawFieldsCopy, map[]).value;
    var rich3 := PeopleFieldsCorrected(issue, rich0, env).value;
    var rich5 := IssueFields(issue, rich3).value;
    assert "repository" in rich5;
  }

  /** With the corrections the time, labels and type blocks still store
      what they compute, and no later line overwrites it. */
  lemma RichPrefixCorrectedBlocks(item: Value, env: Env)
    requires RichPrefixCorrected(item, env).Ok?
    ensures HasKeys(item, {"data"}) && HasKeys(item.fields["data"], {"created_at", "closed_at", "state"})
    ensures var issue := item.fields["data"];
            var rich := RichPrefixCorrected(item, env).value;
            && TimeFieldsHold(issue, rich, env)
            && LabelsCorrected(issue).Ok? && "labels" in rich && rich["labels"] == PyStr(LabelsCorrected(issue).value)
            && TypeFieldsHold(issue, rich)
  {
    var rich0 := CopyFields(item, env.rawFieldsCopy, map[]).value;
    var issue := item.fields["data"];
    var rich3 := PeopleFieldsCorrected(issue, rich0, env).value;
    var rich5 := IssueFields(issue, rich3).value;
    var rich7 := LabelAndTypeFieldsCorrected(issue, rich5).value;
    assert RichPrefixCorrected(item, env).value == rich7;
    TimeFieldsKeptByIssue(issue, rich3, env);
    TimeKeysNotWrittenLater();
    TimeFieldsKept(issue, rich5, rich7, env);
  }

  /** `get_rich_item` with the three corrections. Unless the fields of
      `get_grimoire_fields` reuse one of their keys, the rich item keeps
      the time fields, the corrected labels and the item type. */
  function RichItemCorrected(item: Value, env: Env): (r: Result<Fields>)
    ensures r.Ok? ==> HasKeys(item, {"data"}) && {"gitlab_repo", "url_id"} <= r.value.Keys
    ensures r.Ok? ==> "project" in item.fields ==> "project" in r.value
    ensures r.Ok? ==>
              var issue := item.fields["data"];
              && HasKeys(issue, {"created_at", "closed_at", "state"})
              && env.grimoireFields(issue.fields["created_at"], "issue").Ok?
              && (env.grimoireFields(issue.fields["created_at"], "issue").value.Keys !! BlockKeys ==>
                    && TimeFieldsHold(issue, r.value, env)
                    && LabelsCorrected(issue).Ok?
                    && "labels" in r.value && r.value["labels"] == PyStr(LabelsCorrected(issue).value)
                    && TypeFieldsHold(issue, r.value))
  {
    var rich :- RichPrefixCorrected(item, env);
    var repo :- GitlabRepoCorrected(rich);
    RichPrefixCorrectedBlocks(item, env);
    BlockKeysNotInTail();
    Tail(item, rich["gitlab_repo" := PyStr(repo)], env)
  }

  /** The corrected rich item stores the corrected `gitlab_repo`, the
      `url_id` built from it and `id_in_repo` (lines 252-254), and the raw
      item's `project` (lines 259-260), unless a field of
      `get_grimoire_fields` overwrites them. */
  lemma RichItemCorrectedValues(item: Value, env: Env)
    requires RichItemCorrected(item, env).Ok?
    ensures HasKeys(item, {"data"}) && HasKeys(item.fields["data"], {"created_at"})
    ensures env.grimoireFields(item.fields["data"].fields["created_at"], "issue").Ok?
    ensures && RichPrefixCorrected(item, env).Ok?
            && GitlabRepoCorrected(RichPrefixCorrected(item, env).value).Ok?
            && "id_in_repo" in RichPrefixCorrected(item, env).value
            && RichPrefixCorrected(item, env).value["id_in_repo"].PyStr?
    ensures var r := RichItemCorrected(item, env).value;
            var rich := RichPrefixCorrected(item, env).value;
            var repo := GitlabRepoCorrected(rich).value;
            var dates := env.grimoireFields(item.fields["data"].fields["created_at"], "issue").value;
            && ("gitlab_repo" !in dates ==> "gitlab_repo" in r && r["gitlab_repo"] == PyStr(repo))
            && ("url_id" !in dates ==> "url_id" in r && r["url_id"] == PyStr(repo + "/issues/" + rich["id_in_repo"].s))
            && ("project" in item.fields && "project" !in dates ==> "project" in r && r["project"] == item.fields["project"])
  {
  }

  /** The corrected `get_rich_item` gets past `gitlab_repo` only for a web
      URL whose repository part has at least two "/", and the `gitlab_repo`
      it computes is then the repository's last two segments. */
  lemma RichItemCorrectedNeedsRepositoryPath(item: Value, env: Env)
    requires RichItemCorrected(item, env).Ok?
    ensures HasKeys(item, {"data"}) && HasKeys(item.fields["data"], IssueKeys)
    ensures item.fields["data"].fields["web_url"].PyStr?
    ensures var repository := Repository(item.fields["data"].fields["web_url"]).value;
            && |RSplit(repository, '/', 2)| == 3
            && GitlabRepoCorrected(map["repository" := PyStr(repository)]).Ok?
  {
    RichPrefixCorrectedRepository(item, env);
    var rich := RichPrefixCorrected(item, env).value;
    assert GitlabRepoCorrected(rich).Ok?;
  }
}
