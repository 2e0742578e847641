# GrimoireLab ELK: GitLab and Supybot enrichers, raw-item loading

This project models three pieces of GrimoireLab ELK, the part of
GrimoireLab that turns raw items from data sources into "rich"
(enriched) items for Elasticsearch:

- **The GitLab enricher** (`grimoire_elk/enriched/gitlab.py`) has three
  parts:
  - the identities of an issue or merge request (`get_identities` and
    `get_sh_identity`);
  - the flattening of a raw item into a rich item (`get_rich_item`), block
    by block;
  - the small accessors `get_project_repository` and `GitLabUser`.
- **The Supybot enricher** (`grimoire/elk/supybot.py`) covers an IRC
  message's identity and its rich item.
- **The test suite's loading code** (`tests/base.py`) has two parts:
  - `data2es`, which normalises each raw item dict in place (`ocean_item`)
    and sends the items to an ocean backend in packs of at most
    `max_items_bulk`;
  - the two refresh loops, `refresh_identities` and `refresh_projects`.

Python values are modelled by the datatype `Py.Value`, which has None,
booleans, integers, strings, lists and dicts with string keys. Python
exceptions are `Py.Exc`, and every operation that may raise returns a
`Py.Result`. Subscription, `in`, truthiness, iteration and string
concatenation follow Python's rules:
- a missing key raises KeyError;
- subscripting None raises TypeError;
- a negative index counts from the end.

`Text` gives `split`, `rsplit(sep, maxsplit)` and `sep.join`. Each comes
with the laws the enricher relies on: joining the pieces gives the string
back, no piece holds the separator, and at most `maxsplit` cuts are made.

Wherever the source loops, there is a method with the loop and its
invariants. The method is proved equal to a recursive function, and the
properties are lemmas about that function. Examples:
- the field-copy loops;
- the labels loop;
- the identities loop;
- the renaming loop;
- `data2es`.

Dicts that the source mutates in place are objects of class
`RawLoading.Doc`. The ocean backend is the class `RawLoading.Ocean`. It
records every pack passed to `_items_to_es`.

The GitLab `get_rich_item` can never return normally. The expression
`rsplit("/", 2)[1] + + '/'` (lines 247-250) applies a unary `+` to a
string, which raises TypeError. When the repository has no "/", the
indexing raises IndexError before that. Lines 252-254 then build
`url_id` from `gitlab_repo`, which shows that the authors meant the line
to succeed. This model follows the code as written, and
`GitLab.RichItemFailsAtGitlabRepo` proves the failure. The module
`GitLabCorrected` holds the evidently intended version. Findings below
lists the three defects it fixes.

## Model

| member | source | states |
|---|---|---|
| Text.Split | grimoire_elk/enriched/gitlab.py:222 | `s.split(c)` yields at least one piece; no piece contains `c`; joining the pieces with `c` gives `s` back |
| Text.RSplit | grimoire_elk/enriched/gitlab.py:223 | `s.rsplit(c, n)` yields 1 to n+1 pieces; all but the first are free of `c`, and the first is too unless all n cuts were made; joining gives `s` back |
| Text.LastIndexOf | grimoire_elk/enriched/gitlab.py:222-223 | the index found holds `c` and no later index does; -1 means there is no `c` |
| Text.SplitLastIsTail | grimoire_elk/enriched/gitlab.py:222 | the last piece of `split` is the text after the last separator |
| Text.RSplitTwo | grimoire_elk/enriched/gitlab.py:223 | when `rsplit(c, 2)` makes three pieces, the string is those pieces joined by `c` |
| Text.JoinFirst | grimoire_elk/enriched/gitlab.py:223 | the first piece is a prefix of the joined string |
| Enrich.CopyFieldsFromDict | grimoire_elk/enriched/gitlab.py:179-183 | copying from a dict never fails; every listed field ends up holding the source's value, or None when the source lacks it; other keys are kept; the key set is the old keys plus the fields |
| Enrich.CopyFieldsFromScalar | grimoire/elk/supybot.py:71-75 | copying from None, a boolean or a number raises TypeError at the first field (`f in item`); with no fields nothing is read |
| Enrich.CopyFieldsLoop | grimoire_elk/enriched/gitlab.py:179-183 | the copy loop computes exactly the recursive copy |
| Enrich.CopyFields | grimoire_elk/enriched/gitlab.py:179-183 | the copy loop as a recursive function over the fields left to copy; its meaning is stated by `CopyFieldsFromDict` and `CopyFieldsFromScalar` |
| GitLab.ShIdentity | grimoire_elk/enriched/gitlab.py:121-138 | a falsy user gives the empty identity; a scalar fails the `'data' in item` test with TypeError; a user dict gives username from `login` (KeyError without it), and email and name when present, else None; a raw item with no identity field fails; with a field given, a raw item selects `item['data'][field]`: a failed selection raises its error, a falsy user gives the empty identity, and a user dict gives its identity as above |
| GitLab.RoleIdentity | grimoire_elk/enriched/gitlab.py:113-118 | one loop turn: a falsy role gives no identity; a truthy role gives exactly what `get_sh_identity(item[role + "_data"])` gives, errors included, and KeyError when that key is missing |
| GitLab.RoleIdentitiesStep | grimoire_elk/enriched/gitlab.py:113-118 | one turn of the loop: a failing role is the loop's failure; otherwise its identity, if any, is appended to those collected so far |
| GitLab.RoleIdentities | grimoire_elk/enriched/gitlab.py:113-118 | the identities loop as a recursive function over the roles left; its meaning is stated by `RoleIdentitiesStep` and `IdentitiesUserThenAssignee` |
| GitLab.Identities | grimoire_elk/enriched/gitlab.py:107-111 | succeeds only for a dict holding `data`; a dict without it raises KeyError, and anything else fails |
| GitLab.IdentitiesUserThenAssignee | grimoire_elk/enriched/gitlab.py:107-119 | a successful `get_identities` returns at most two identities, the user's before the assignee's, each present exactly when its role resolves |
| GitLab.GetIdentities | grimoire_elk/enriched/gitlab.py:107-119 | the appending loop returns what the recursive definition gives, errors included |
| GitLab.ProjectRepository | grimoire_elk/enriched/gitlab.py:171-173 | a dict succeeds iff it has `origin`, and the result is that value |
| GitLab.NewGitLabUser | grimoire_elk/enriched/gitlab.py:311-315 | a user is built iff the dict has `username`, `web_url` and `name`; `email` is taken from `web_url`; a dict lacking one raises KeyError |
| GitLab.TimeFields | grimoire_elk/enriched/gitlab.py:187-194 | on success: the days to close are the difference between creation and closing; the days open equal them for a closed issue and run to now otherwise; exactly these two keys are added and every other key keeps its value; succeeds iff the date differences succeed |
| GitLab.UserFields | grimoire_elk/enriched/gitlab.py:196-206 | succeeds iff the author is a dict with `username`, `name` and `web_url`; `user_name` is always the username; a None author raises TypeError, so the None branch is dead |
| GitLab.AssigneeFields | grimoire_elk/enriched/gitlab.py:208-219 | a None assignee gives three None fields; any other assignee must be a dict with `username`, `name` and `web_url`, which are copied |
| GitLab.IdInRepo | grimoire_elk/enriched/gitlab.py:222 | `id_in_repo` is the text after the last "/" of the web URL and holds no "/"; only a string URL succeeds |
| GitLab.Repository | grimoire_elk/enriched/gitlab.py:223 | `repository` is the first piece of `rsplit("/", 2)` and a prefix of the URL |
| GitLab.UrlFields | grimoire_elk/enriched/gitlab.py:222-223 | succeeds iff the issue has a string `web_url`; stores `id_in_repo` and `repository` derived from it |
| GitLab.IdFields | grimoire_elk/enriched/gitlab.py:221-223 | succeeds iff the issue has `id` and a string `web_url`; stores the id, `id_in_repo` and `repository`; other keys are kept |
| GitLab.WebUrlIsRepositoryAndIdInRepo | grimoire_elk/enriched/gitlab.py:222-223 | a URL with at least two "/" is the repository, one "/"-free segment and the `id_in_repo`, joined by "/" |
| GitLab.CopiedIssueFields | grimoire_elk/enriched/gitlab.py:224-230 | succeeds iff the issue has the six keys read; `title_analyzed` is the title and `url` is the web URL; every key not written is kept |
| GitLab.LabelPiece | grimoire_elk/enriched/gitlab.py:235 | for a string label, succeeds iff `i` is within it, giving its `i`-th character and ";;"; a dict label raises KeyError |
| GitLab.LabelPiecesOfStrings | grimoire_elk/enriched/gitlab.py:231-236 | for string labels, the loop succeeds iff the `j`-th label is longer than `j`; the result is then three characters per label: the `j`-th character of the `j`-th label, then ";;" |
| GitLab.LabelPiecesEndInSeparator | grimoire_elk/enriched/gitlab.py:237-239 | the labels string is empty or ends in ";;": the trim at line 238 is discarded |
| GitLab.LabelPieces | grimoire_elk/enriched/gitlab.py:234-236 | the labels loop as a recursive function, `i` being the loop counter; its meaning is stated by `LabelPiecesOfStrings` and `LabelPiecesEndInSeparator` |
| GitLab.Labels | grimoire_elk/enriched/gitlab.py:231-239 | an issue dict without `labels` gives ""; any labels string is empty or ends in ";;" |
| GitLab.LabelsLoop | grimoire_elk/enriched/gitlab.py:234-236 | the loop with its counter returns what the recursive definition gives |
| GitLab.GetLabels | grimoire_elk/enriched/gitlab.py:231-239 | the block returns the labels string of the definition, errors included |
| GitLab.ItemType | grimoire_elk/enriched/gitlab.py:241-245 | a dict issue is a merge request iff it has `head` or `pull_request`; `pull_request` and `item_type` are set to match; only these keys are added and every other key, labels and author fields included, keeps its value |
| GitLab.ExtendsTrans | grimoire_elk/enriched/gitlab.py:187-245 | keeping the keys, and the values of non-derived keys, composes across blocks |
| GitLab.PeopleFields | grimoire_elk/enriched/gitlab.py:187-219 | the time, author and assignee blocks keep every key and every value they do not derive, and the time fields still hold what lines 187-194 computed |
| GitLab.TimeFieldsKeptByAuthor | grimoire_elk/enriched/gitlab.py:196-206 | the author block leaves both time fields holding what lines 187-194 computed |
| GitLab.TimeFieldsKeptByAssignee | grimoire_elk/enriched/gitlab.py:208-219 | the assignee block leaves both time fields holding what lines 187-194 computed |
| GitLab.TimeFieldsKeptById | grimoire_elk/enriched/gitlab.py:221-223 | the id block leaves both time fields holding what lines 187-194 computed |
| GitLab.TimeFieldsKeptByIssue | grimoire_elk/enriched/gitlab.py:221-230 | the issue blocks leave both time fields holding what lines 187-194 computed |
| GitLab.IssueFields | grimoire_elk/enriched/gitlab.py:221-230 | on success the issue has the keys read and a string web URL, and `repository` is derived from it |
| GitLab.LabelAndTypeFields | grimoire_elk/enriched/gitlab.py:231-245 | `labels` holds exactly the labels string `Labels` computes; `pull_request` and `item_type` hold the item type; every other key keeps its value |
| GitLab.RichPrefixFields | grimoire_elk/enriched/gitlab.py:176-245 | after line 245, every RAW_FIELDS_COPY field not overwritten later holds the raw value or None, and `repository` is derived from the web URL |
| GitLab.RichPrefixReads | grimoire_elk/enriched/gitlab.py:176-230 | the prefix is built only from a dict with `data` holding every key the issue blocks read and a string web URL |
| GitLab.RichPrefixExtendsCopy | grimoire_elk/enriched/gitlab.py:179-245 | the prefix keeps every key of the copied raw fields and every value no later line derives, and `repository` is derived from the web URL |
| GitLab.RichPrefixBlocks | grimoire_elk/enriched/gitlab.py:187-245 | after line 245 the time fields, the labels string and the item type still hold what their blocks computed: no later line overwrites them |
| GitLab.RichPrefix | grimoire_elk/enriched/gitlab.py:176-245 | the lines before `gitlab_repo`, block by block; what it yields is stated by `RichPrefixFields` and `RichPrefixBlocks`, and that it cannot reach line 252 by `RichItemFailsAtGitlabRepo` |
| GitLab.GitlabRepo | grimoire_elk/enriched/gitlab.py:247-250 | `gitlab_repo` always raises: IndexError when the repository has no "/", TypeError (the unary `+`) otherwise |
| GitLab.Tail | grimoire_elk/enriched/gitlab.py:252-263 | on success the rich item has `url_id` equal to `gitlab_repo + "/issues/" + id_in_repo`, the raw item's `project` when it has one, and then the fields of `get_grimoire_fields(created_at, "issue")` merged over them |
| GitLab.RichItem | grimoire_elk/enriched/gitlab.py:176-269 | `get_rich_item` as written never returns a rich item |
| GitLab.RichItemFailsAtGitlabRepo | grimoire_elk/enriched/gitlab.py:176-269 | `get_rich_item` never returns a rich item; once past line 245 it raises TypeError or IndexError, depending on the repository |
| GitLab.GetRichItem | grimoire_elk/enriched/gitlab.py:176-269 | the method with its loops returns what the block-by-block definition gives |
| GitLabCorrected.UserFieldsCorrected | grimoire_elk/enriched/gitlab.py:196-206 | corrected: a falsy author gives four None fields; otherwise the author needs `username`, `name` and `web_url`; no other key changes |
| GitLabCorrected.UserFieldsCorrectedAgrees | grimoire_elk/enriched/gitlab.py:196-206 | the correction agrees with the code when there is an author, and succeeds where the code raises when there is none |
| GitLabCorrected.UserFieldsNoneAuthor | grimoire_elk/enriched/gitlab.py:196 | an issue whose author is None: the code raises TypeError, the correction succeeds |
| GitLabCorrected.DropLastTwo | grimoire_elk/enriched/gitlab.py:238 | `s[:-2]` followed by the last two characters gives `s`; shorter strings give "" |
| GitLabCorrected.Strings | grimoire_elk/enriched/gitlab.py:234 | the strings of string labels, in order |
| GitLabCorrected.SuffixedIsJoinThenSeparator | grimoire_elk/enriched/gitlab.py:234-236 | appending `label + ";;"` for each label gives `";;".join(labels) + ";;"` |
| GitLabCorrected.Suffixed | grimoire_elk/enriched/gitlab.py:234-236 | the corrected labels loop, appending each whole label and ";;"; its meaning is stated by `SuffixedIsJoinThenSeparator` |
| GitLabCorrected.LabelsCorrectedIsJoin | grimoire_elk/enriched/gitlab.py:231-239 | corrected labels are `";;".join(labels)` |
| GitLabCorrected.LabelsCorrected | grimoire_elk/enriched/gitlab.py:231-239 | the corrected labels block, keeping the trimmed string; its meaning is stated by `LabelsCorrectedIsJoin` and `LabelsCounterexample` |
| GitLabCorrected.LabelsCounterexample | grimoire_elk/enriched/gitlab.py:235-238 | labels `["bug","ui"]` give "b;;i;;" as written and "bug;;ui" corrected; `["a","b"]` raise IndexError as written |
| GitLabCorrected.JoinTwo | grimoire_elk/enriched/gitlab.py:231-239 | joining two labels puts one separator between them |
| GitLabCorrected.GitlabRepoCorrected | grimoire_elk/enriched/gitlab.py:247-250 | corrected `gitlab_repo` succeeds iff the repository splits into three pieces, and is then its last two segments: the repository is the first piece, "/" and the result |
| GitLabCorrected.RSplitExample | grimoire_elk/enriched/gitlab.py:248-250 | `"gitlab.com/owner/proj".rsplit("/", 2)` is `["gitlab.com","owner","proj"]` |
| GitLabCorrected.GitlabRepoCounterexample | grimoire_elk/enriched/gitlab.py:247-250 | for repository "gitlab.com/owner/proj", the code raises TypeError and the correction gives "owner/proj" |
| GitLabCorrected.UrlIdIsIssuePath | grimoire_elk/enriched/gitlab.py:252-254 | with the correction, an issue URL `<host>/<owner>/<project>/issues/<n>` is the host, "/" and `url_id` |
| GitLabCorrected.PeopleFieldsCorrected | grimoire_elk/enriched/gitlab.py:187-219 | with the corrected author fields, the blocks still keep every key and every non-derived value, and the time fields still hold what lines 187-194 computed |
| GitLabCorrected.LabelAndTypeFieldsCorrected | grimoire_elk/enriched/gitlab.py:231-245 | `labels` holds exactly the corrected labels string; `pull_request` and `item_type` hold the item type; every other key keeps its value |
| GitLabCorrected.RichPrefixCorrectedRepository | grimoire_elk/enriched/gitlab.py:176-245 | with the corrections, `repository` is still derived from the web URL |
| GitLabCorrected.RichPrefixCorrectedBlocks | grimoire_elk/enriched/gitlab.py:187-245 | with the corrections, the time fields, the corrected labels and the item type are still in place after line 245 |
| GitLabCorrected.RichPrefixCorrected | grimoire_elk/enriched/gitlab.py:176-245 | the corrected lines before `gitlab_repo` succeed only on a dict whose `data` holds every key the issue blocks read; what the prefix holds is stated by `RichPrefixCorrectedRepository` and `RichPrefixCorrectedBlocks` |
| GitLabCorrected.RichItemCorrected | grimoire_elk/enriched/gitlab.py:176-269 | a corrected rich item holds `gitlab_repo` and `url_id`, and `project` when the raw item has one; unless the grimoire date fields reuse a key, it still holds the time fields, the corrected labels and the item type |
| GitLabCorrected.RichItemCorrectedValues | grimoire_elk/enriched/gitlab.py:247-260 | a corrected rich item stores the corrected `gitlab_repo`, `url_id` equal to `gitlab_repo + "/issues/" + id_in_repo`, and the raw item's `project` when it has one, unless a grimoire field of the same name overwrites them |
| GitLabCorrected.RichItemCorrectedNeedsRepositoryPath | grimoire_elk/enriched/gitlab.py:221-254 | the corrected `get_rich_item` succeeds only when the repository part of the URL has at least two "/", so `gitlab_repo` is defined |
| Supybot.ShIdentity | grimoire/elk/supybot.py:56-64 | the email is always None; username and name are both the nick if it is truthy, else None |
| Supybot.Identities | grimoire/elk/supybot.py:49-54 | exactly one identity, the nick's; succeeds iff the item is a dict whose `data` is a dict holding `nick`; otherwise KeyError or TypeError |
| Supybot.Targets | grimoire/elk/supybot.py:87 | the target names are exactly the second components of the pairs |
| Supybot.RenamedFromDict | grimoire/elk/supybot.py:87-89 | renaming succeeds iff every source field is in the message (KeyError otherwise); each target holds its source's value and other keys are kept |
| Supybot.Renamed | grimoire/elk/supybot.py:87-89 | the renaming loop as a recursive function over the pairs left; its meaning is stated by `RenamedFromDict` and `RenamedMapFields` |
| Supybot.RenameLoop | grimoire/elk/supybot.py:88-89 | the loop returns what the recursive renaming gives |
| Supybot.CopyFieldsStep | grimoire/elk/supybot.py:71-75 | one turn of a copy loop over a dict writes the field's value, or None |
| Supybot.RenamedMapFields | grimoire/elk/supybot.py:87-89 | `body_analyzed` is the body and `sent_date` the timestamp; both must be in the message, else KeyError |
| Supybot.MessageFields | grimoire/elk/supybot.py:69-89 | success needs `data` with `body` and `timestamp`; `body_analyzed` is the body and `sent_date` the timestamp |
| Supybot.MessageFieldsShape | grimoire/elk/supybot.py:69-89 | the nine fields copied or renamed, each with its None fallback; fails with KeyError iff the message lacks `body` or `timestamp` |
| Supybot.RichItem | grimoire/elk/supybot.py:66-98 | on success, `update_date` is the parsed `metadata__updated_on` and `channel` equals `origin` |
| Supybot.RichItemShape | grimoire/elk/supybot.py:66-98 | a built rich item is exactly eleven keys: the copied fields, the renamed ones, `update_date` parsed from `metadata__updated_on` and `channel` equal to the copied origin |
| Supybot.RichItemSucceeds | grimoire/elk/supybot.py:66-98 | `get_rich_item` succeeds iff the item has `data` and `metadata__updated_on`, the message has `body` and `timestamp`, and the date parses; a missing key raises KeyError |
| Supybot.GetRichItem | grimoire/elk/supybot.py:66-98 | the method with its three loops returns what the definition gives |
| RawLoading.NormaliseId | tests/base.py:48-53 | the unique id and `uuid` are the item's `uuid`, or else its `id`; without either, KeyError; no other key changes |
| RawLoading.Stamp | tests/base.py:56-61 | a present timestamp is converted into the target key and nothing else changes; an absent one changes nothing; a failed conversion is the error |
| RawLoading.Prepared | tests/base.py:48-61 | the id and dates can be set iff the item has `uuid` or `id` and every date present converts |
| RawLoading.PreparedFields | tests/base.py:48-61 | a prepared item keeps every key and every value `ocean_item` does not write, and has its unique id and converted dates |
| RawLoading.OceanItemRun | tests/base.py:46-69 | an item with neither `uuid` nor `id` raises KeyError at once and is left as it was |
| RawLoading.Apply | tests/base.py:47-67 | one step of `ocean_item` on the item's contents, a KeyError from `_fix_item` swallowed; its meaning is stated by `Prepared`, `PreparedFields` and `OceanItemOutcome` |
| RawLoading.RunSteps | tests/base.py:46-69 | the steps of `ocean_item` in order, stopping at the first that raises; its meaning is stated by `OceanItemRun`, `OceanItemOutcome` and `OceanItem` |
| RawLoading.OceanItemOutcome | tests/base.py:46-69 | `ocean_item` completes iff the item can be prepared and `_fix_item` succeeds or raises KeyError (swallowed); the result is the fixed item, or the prepared one; an item with no `uuid` and no `id` raises KeyError untouched |
| RawLoading.SetIdInPlace | tests/base.py:48-53 | the dict is updated in place to the normalised contents, and left as it was on KeyError |
| RawLoading.SetDateInPlace | tests/base.py:56-61 | one date is set in place, and the dict is left as it was on a failed conversion |
| RawLoading.FixInPlace | tests/base.py:63-67 | `_fix_item` in place with the KeyError swallowed; any other error is raised |
| RawLoading.OceanItem | tests/base.py:46-69 | the dict ends as the run of the steps leaves it; the same dict is returned iff nothing was raised; otherwise the raised error |
| RawLoading.StateStep | tests/base.py:75-78 | taking an item flushes the open pack iff it is full, then adds the item to the open pack |
| RawLoading.StateHoldsItems | tests/base.py:71-78 | the flushed packs and the open pack hold exactly the items taken, in order |
| RawLoading.State | tests/base.py:71-78 | the flushed packs and the open pack after the loop has taken a prefix of the items; its meaning is stated by `StateStep`, `StateHoldsItems` and `StateSizes` |
| RawLoading.Batches | tests/base.py:71-79 | at least one pack is sent, and all packs, laid end to end, are exactly the items, in order |
| RawLoading.StateSizes | tests/base.py:75-78 | for a bulk size of at least 1, every flushed pack is full and the open pack holds at most `bulk` items; it is empty only before the first item |
| RawLoading.BatchCount | tests/base.py:71-79 | for a bulk size of at least 1, n >= 1 items go in `ceil(n / bulk)` packs: all full but the last, which holds 1 to `bulk` items; no items give one empty pack |
| RawLoading.FlattenFull | tests/base.py:75-78 | full packs lay out `bulk` items each |
| RawLoading.FlattenAppend | tests/base.py:76-79 | laying out one more pack appends its items |
| RawLoading.BatchesOfNoBulk | tests/base.py:75-79 | for a bulk size of 0 or less, an empty pack is sent first and then every item alone |
| RawLoading.Ocean.ItemsToEs | tests/base.py:76 | the pack is recorded as sent, and its size is the count reported |
| RawLoading.AddToPack | tests/base.py:75-78 | the packs sent and the open pack move to those of the items taken plus this one |
| RawLoading.LoadOne | tests/base.py:73-78 | one loop turn: the item is run through `ocean_item`; unless that raised, it joins the packs; a raise sends nothing |
| RawLoading.Contents | tests/base.py:73 | the contents of the item dicts, in order |
| RawLoading.LoadStep | tests/base.py:73-78 | one loop turn on item `i` keeps items before it normalised and items after it untouched |
| RawLoading.Data2Es | tests/base.py:45-81 | on success every item was normalised in place, the backend received exactly the packs of the batching (items in order, at most `max_items_bulk` each when it is at least 1; with a bulk size of 0 or less, an empty pack and then one pack per item), and the count reported is the last pack's size; on a raise, earlier items are normalised, the failing item holds what the raise left, later ones are untouched, and only the packs flushed before it were sent |
| RawLoading.Doc.constructor | tests/base.py:45 | a dict with the given contents |
| RawLoading.Ocean.constructor | tests/base.py:45 | a backend with its bulk size, its collaborators and nothing sent |
| RawLoading.EnrichBackend.constructor | tests/base.py:84-104 | a backend with its `roles` attribute, if any, and its collaborators |
| RawLoading.EnrichBackend.RolesOrNone | tests/base.py:88-92 | the backend's `roles`, or None when the attribute is missing (AttributeError swallowed) |
| RawLoading.RefreshIdentities | tests/base.py:84-97 | every item is updated with its identities, computed from its own old contents and the roles; the total is the number of items |
| RawLoading.RefreshProjects | tests/base.py:100-108 | every item is updated with its project, computed from its own old contents; the total is the number of items |

## Left out

- `get_elastic_mappings` (both enrichers) returns constant JSON text for the Elasticsearch mapping. It holds no logic.
- `get_gitlab_cache` pages through Elasticsearch over HTTP. It is network I/O only.
- `enrich_onion`, `enrich_items`, `set_elastic` and the getters `get_field_author`, `get_field_date` and `get_fields_uuid` either delegate to the base enricher, which is not part of this model, or return constants.
- The project-map and SortingHat branches of both `get_rich_item`s (gitlab.py lines 256-257 and 265-267, supybot.py lines 95-96) are taken as not configured. `get_item_project` and `get_item_sh` belong to the base enricher.
- `get_time_diff_days`, `datetime.utcnow()`, `get_grimoire_fields`, `parser.parse(..).isoformat()`, `datetime.fromtimestamp(..).isoformat()` and `_fix_item` are parameters (`GitLab.Env`, `isoDate`, and the `Ocean` fields). Their results are not interpreted.
- GitLabCorrected.RichItemCorrected: the time, labels and type values (and, in `GitLabCorrected.RichItemCorrectedValues`, the `gitlab_repo`, `url_id` and `project` values) are promised only when the fields `get_grimoire_fields` returns use none of those keys. That function is a parameter, so the keys it returns are not known, and the `update` at line 262 would overwrite any shared key.
- `RawLoading.FixInPlace`: `_fix_item` is modelled as the whole new contents of the dict, or an exception. If it mutates the dict partially and then raises, those partial writes are lost.
- Python dicts are modelled as unordered maps. Iterating over a dict, as `for label in issue['labels']` (gitlab.py line 234) does when the labels are a dict, gives the model's `UnorderedIteration` error instead of visiting the keys in insertion order. The renaming dict at supybot.py line 87 is a sequence of pairs in its insertion order.
- `RawLoading.Data2Es`, `RawLoading.RefreshIdentities` and `RawLoading.RefreshProjects` require the item dicts to be distinct objects. Aliasing the same dict twice in the list is not modelled.
- `RawLoading.Data2Es` returns the number of items already done as a ghost output. It exists only to state the postcondition.
- `RawLoading.RefreshIdentities` and `RawLoading.RefreshProjects`: `fetch()` is the given sequence of items. The backend collaborators are modelled as never raising.
- `Ocean.ItemsToEs`: the count returned by `_items_to_es` is modelled as the size of the pack. Elasticsearch may report fewer insertions.
- `RawLoading.OceanItemRun`: `ocean_item` is modelled as a fixed list of steps, each of which may raise, with the first raise stopping the call.
- `TestBaseBackend`, the unittest class (tests/base.py lines 111 onward), needs a live Elasticsearch and is not modelled.

## Findings

| source | as written | input that shows it | evidently intended | confidence | as-written member | corrected member |
|---|---|---|---|---|---|---|
| grimoire_elk/enriched/gitlab.py:196-206 | `issue['author']['username']` is read before the `user is not None` test | an issue whose `author` is None raises TypeError | a missing author gives None in all four user fields | not executed | GitLabCorrected.UserFieldsNoneAuthor | GitLabCorrected.UserFieldsCorrectedAgrees |
| grimoire_elk/enriched/gitlab.py:231-239 | `label[i]` appends one character per label, and `labels[:-2]` is computed and thrown away | labels `["bug", "ui"]` give "b;;i;;"; `["a", "b"]` raise IndexError | `";;".join(labels)`, here "bug;;ui" | not executed | GitLabCorrected.LabelsCounterexample | GitLabCorrected.LabelsCorrectedIsJoin |
| grimoire_elk/enriched/gitlab.py:247-250 | `... [1] + + '/' + ...` applies unary `+` to a string | repository "gitlab.com/owner/proj" raises TypeError | the last two segments joined by "/", here "owner/proj" | not executed | GitLabCorrected.GitlabRepoCounterexample | GitLabCorrected.GitlabRepoCorrected |
