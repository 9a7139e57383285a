/** The DAG-run endpoints: `index` lists the caller's runs newest first,
    `create` saves a new run and only then resets and starts its workflow,
    and `update` is the worker's callback that upserts one task's entry into
    the run's status stack and re-evaluates the run's status. */
module DagRunsController {
  import opened JsonValues
  import opened ApiController
  import opened DagRuns

  type Params = map<string, Json>

  // ---------------------------------------------------------------- index

  /** A dag_runs row as `index` reads it. */
  datatype RunRecord = RunRecord(id: Json, user: string, dagName: Json, dagStatus: string, createdAt: int, updatedAt: int)

  /** The columns `index` shows. */
  const ListingKeys: set<string> := {"id", "dag_name", "dag_status", "created_at", "updated_at"}

  /** `as_json(only: [id dag_name dag_status created_at updated_at])`. */
  function Listing(r: RunRecord): (j: Json)
    ensures j.JObj? && j.fields.Keys == ListingKeys
    ensures j.fields["id"] == r.id && j.fields["dag_name"] == r.dagName && j.fields["dag_status"] == JStr(r.dagStatus)
    ensures j.fields["created_at"] == JNum(r.createdAt) && j.fields["updated_at"] == JNum(r.updatedAt)
  {
    JObj(map["id" := r.id, "dag_name" := r.dagName, "dag_status" := JStr(r.dagStatus),
             "created_at" := JNum(r.createdAt), "updated_at" := JNum(r.updatedAt)])
  }

  /** `DagRun.where(user:)`: the user's runs, in table order. */
  function RunsOf(rows: seq<RunRecord>, user: string): (r: seq<RunRecord>)
    ensures forall x: RunRecord :: x.user == user ==> multiset(r)[x] == multiset(rows)[x]
    ensures forall x: RunRecord :: x.user != user ==> multiset(r)[x] == 0
  {
    if rows == [] then []
    else
      assert rows == [rows[0]] + rows[1..];
      (if rows[0].user == user then [rows[0]] else []) + RunsOf(rows[1..], user)
  }

  predicate NewestFirst(s: seq<RunRecord>)
  {
    forall i, j :: 0 <= i < j < |s| ==> s[i].createdAt >= s[j].createdAt
  }

  /** Places a run among runs sorted newest first. */
  function InsertByCreated(x: RunRecord, s: seq<RunRecord>): (r: seq<RunRecord>)
    requires NewestFirst(s)
    ensures NewestFirst(r)
    ensures multiset(r) == multiset(s) + multiset{x}
    ensures |r| == |s| + 1
  {
    if s == [] then [x]
    else if x.createdAt >= s[0].createdAt then
      NewerInFront(x, s);
      [x] + s
    else
      var rest := InsertByCreated(x, s[1..]);
      InsertBehind(x, s, rest);
      [s[0]] + rest
  }

  /** A run no older than the first of a sorted list can lead it. */
  lemma NewerInFront(y: RunRecord, s: seq<RunRecord>)
    requires NewestFirst(s)
    requires s != [] ==> s[0].createdAt <= y.createdAt
    ensures NewestFirst([y] + s)
  {
  }

  /** An older run inserted behind the head keeps the list sorted. */
  lemma InsertBehind(x: RunRecord, s: seq<RunRecord>, rest: seq<RunRecord>)
    requires NewestFirst(s) && s != [] && x.createdAt < s[0].createdAt
    requires NewestFirst(rest) && multiset(rest) == multiset(s[1..]) + multiset{x}
    ensures NewestFirst([s[0]] + rest)
    ensures multiset([s[0]] + rest) == multiset(s) + multiset{x}
  {
    assert s == [s[0]] + s[1..];
    forall j | 0 <= j < |rest|
      ensures rest[j].createdAt <= s[0].createdAt
    {
      assert rest[j] in multiset(rest);
      if rest[j] != x {
        assert rest[j] in s[1..];
      }
    }
  }

  /** `order(created_at: :desc)`. */
  function OrderNewestFirst(s: seq<RunRecord>): (r: seq<RunRecord>)
    ensures NewestFirst(r)
    ensures multiset(r) == multiset(s)
    ensures |r| == |s|
  {
    if s == [] then []
    else
      assert s == [s[0]] + s[1..];
      InsertByCreated(s[0], OrderNewestFirst(s[1..]))
  }

  /** The runs `index` lists: the caller's and no others, each as often as
      in the table, newest first. */
  lemma ListedRunsAreTheCallers(rows: seq<RunRecord>, user: string)
    ensures forall x :: x in OrderNewestFirst(RunsOf(rows, user)) <==> x in rows && x.user == user
    ensures forall x: RunRecord :: multiset(OrderNewestFirst(RunsOf(rows, user)))[x]
                                   == if x.user == user then multiset(rows)[x] else 0
    ensures forall i, j :: 0 <= i < j < |OrderNewestFirst(RunsOf(rows, user))| ==>
              OrderNewestFirst(RunsOf(rows, user))[i].createdAt >= OrderNewestFirst(RunsOf(rows, user))[j].createdAt
  {
    var mine := RunsOf(rows, user);
    var ordered := OrderNewestFirst(mine);
    forall x
      ensures x in ordered <==> x in rows && x.user == user
    {
      assert x in ordered <==> x in multiset(ordered);
      assert x in mine <==> x in multiset(mine);
    }
  }

  /** The listing of each run, in order. */
  function Listings(runs: seq<RunRecord>): (r: seq<Json>)
    ensures |r| == |runs|
    ensures forall i :: 0 <= i < |runs| ==> r[i] == Listing(runs[i])
  {
    seq(|runs|, i requires 0 <= i < |runs| => Listing(runs[i]))
  }

  /** `index`: the runs of ListedRunsAreTheCallers, each shown by its five
      listed columns. The answer always has a `doc`, an empty list when there
      are no runs. */
  function Index(rows: seq<RunRecord>, user: string): (r: Body)
    ensures r.Keys == {"success", "doc"} && r["success"] == JBool(true)
    ensures r["doc"] == JArr(Listings(OrderNewestFirst(RunsOf(rows, user))))
  {
    JsonSuccess(JArr(Listings(OrderNewestFirst(RunsOf(rows, user)))))
  }

  // ---------------------------------------------------------------- create

  /** The exception `json_fail` with no argument raises. */
  const NoMessageGiven: Exception := Exception("wrong number of arguments (given 0, expected 1)")

  /** `dr['meta']['params'] = ...` on meta that is not a hash. */
  const MetaNotHash: Exception := Exception("undefined method `[]=' for nil:NilClass")

  /** The state a new run is saved with: pending, not accepted, an empty
      stack, and the request's `params` stored under `meta['params']`. */
  function Prepared(hooks: Hooks, params: Params): (r: RunState)
    requires hooks.initialMeta.JObj?
    ensures r.dagStatus == Pending && !r.airflowAccepted && r.statusStack == []
    ensures r.meta.JObj? && "params" in r.meta.fields && r.meta.fields["params"] == Get(params, "params")
    ensures forall k :: k in hooks.initialMeta.fields && k != "params" ==> k in r.meta.fields && r.meta.fields[k] == hooks.initialMeta.fields[k]
  {
    RunState(Pending, false, [], JObj(hooks.initialMeta.fields["params" := Get(params, "params")]))
  }

  /** The unsaved run `create` builds; not built when the new run's meta is
      not a hash. */
  method NewRun(user: string, tenant: string, params: Params, hooks: Hooks, newId: Json)
    returns (run: DagRun, built: bool)
    ensures fresh(run)
    ensures built <==> hooks.initialMeta.JObj?
    ensures run.id == newId && run.user == user && run.tanent == tenant
    ensures run.dagName == hooks.normalizeName(Get(params, "dag_name"))
    ensures run.calls == [] && run.stored.None?
    ensures run.statistic == JNull && run.dagMeta == JNull && run.createdAt == JNull && run.updatedAt == JNull
    ensures built ==> run.State() == Prepared(hooks, params) && run.chatbotId == Get(params, "chatbot_id")
  {
    run := new DagRun(newId, user, hooks.normalizeName(Get(params, "dag_name")), tenant, hooks.initialMeta);
    if !run.meta.JObj? {
      return run, false;
    }
    run.meta := JObj(run.meta.fields["params" := Get(params, "params")]);
    run.chatbotId := Get(params, "chatbot_id");
    built := true;
  }

  /** The saved run of `create` is reset, reloaded and started, and then
      answered with. */
  method Launch(run: DagRun, hooks: Hooks) returns (outcome: Outcome)
    modifies run
    ensures run.calls == old(run.calls) + [Call.ResetWorkflow, Call.Reload, Call.Start]
    ensures run.State() == hooks.start(hooks.reset(old(run.State()))) && run.stored == Some(run.State())
    ensures run.dagName == old(run.dagName) && run.tanent == old(run.tanent) && run.chatbotId == old(run.chatbotId)
    ensures run.statistic == old(run.statistic) && run.dagMeta == old(run.dagMeta)
    ensures run.createdAt == old(run.createdAt) && run.updatedAt == old(run.updatedAt)
    ensures outcome == Rendered(JsonSuccess(run.AsJson()))
  {
    run.ResetWorkflow(hooks);
    run.Reload();
    run.Start(hooks);
    outcome := Rendered(JsonSuccess(run.AsJson()));
  }

  /** `create`: builds the run for the caller (normalized name, the token's
      tenant, the request's `params` under `meta['params']`, its
      `chatbot_id`) and saves it. Only a saved run is reset, reloaded and
      started, in that order, and it is answered with. A refused save ends
      in `json_fail` called without its argument, which raises. */
  method Create(user: string, tenant: string, params: Params, hooks: Hooks, accepted: bool, newId: Json)
    returns (outcome: Outcome, run: DagRun)
    ensures fresh(run)
    ensures run.id == newId && run.user == user && run.tanent == tenant
    ensures run.dagName == hooks.normalizeName(Get(params, "dag_name"))
    ensures run.statistic == JNull && run.dagMeta == JNull && run.createdAt == JNull && run.updatedAt == JNull
    ensures !hooks.initialMeta.JObj? ==>
              outcome == Raised(MetaNotHash) && run.calls == [] && run.stored.None?
    ensures hooks.initialMeta.JObj? ==> run.chatbotId == Get(params, "chatbot_id")
    ensures hooks.initialMeta.JObj? && accepted ==>
              && run.calls == [Call.Save, Call.ResetWorkflow, Call.Reload, Call.Start]
              && run.State() == hooks.start(hooks.reset(Prepared(hooks, params)))
              && run.stored == Some(run.State())
              && outcome == Rendered(JsonSuccess(run.AsJson()))
    ensures hooks.initialMeta.JObj? && !accepted ==>
              && run.calls == [Call.Save]
              && run.State() == Prepared(hooks, params) && run.stored.None?
              && outcome == Raised(NoMessageGiven)
  {
    var built;
    run, built := NewRun(user, tenant, params, hooks, newId);
    if !built {
      return Raised(MetaNotHash), run;
    }
    var saved := run.Save(accepted);
    if saved {
      outcome := Launch(run, hooks);
    } else {
      outcome := Raised(NoMessageGiven);
    }
  }

  /** Whatever `create` does not answer itself reaches the client as a
      failure with the exception's message and status 400 unless the request
      names a code. */
  lemma CreateFailureIsRendered(params: Params)
    ensures Respond(Raised(NoMessageGiven), params)["success"] == JBool(false)
    ensures Respond(Raised(NoMessageGiven), params)["error"] == JStr("wrong number of arguments (given 0, expected 1)")
    ensures !Truthy(Get(params, "code")) ==> Respond(Raised(NoMessageGiven), params)["status"] == JNum(400)
  {
  }

  // ---------------------------------------------------------------- update

  /** The status-stack entry `update` builds from the callback: exactly its
      `task_name`, `content` and `function`. */
  function CallbackEntry(params: Params): (e: Entry)
    ensures e.taskName == Get(params, "task_name")
    ensures e.content == Get(params, "content")
    ensures e.func == Get(params, "function")
  {
    Entry(Get(params, "task_name"), Get(params, "content"), Get(params, "function"))
  }

  /** The exception `DagRun.find` raises for an unknown id. */
  function RunNotFound(id: Json): Exception
  {
    Exception(if id.JStr? then "Couldn't find DagRun with 'id'=" + id.s else "Couldn't find DagRun")
  }

  /** `update` (with `set_dag_run`): finds the run, upserts the callback's
      entry by task name, then always re-evaluates the run's status, and
      answers `{success: true}` with no `doc`. An unknown run raises and
      nothing changes. */
  method Update(runs: map<Json, DagRun>, params: Params, hooks: Hooks) returns (outcome: Outcome)
    modifies set r | r in runs.Values
    ensures Get(params, "id") !in runs ==> outcome == Raised(RunNotFound(Get(params, "id")))
    ensures Get(params, "id") !in runs ==> forall r :: r in runs.Values ==> unchanged(r)
    ensures Get(params, "id") in runs ==>
              var run := runs[Get(params, "id")];
              var entry := CallbackEntry(params);
              && run.statusStack == Upsert(old(run.statusStack), entry)
              && AsMap(run.statusStack) == AsMap(old(run.statusStack))[entry.taskName := entry]
              && run.dagStatus == hooks.statusPolicy(run.statusStack, old(run.dagStatus))
              && run.airflowAccepted == old(run.airflowAccepted) && run.meta == old(run.meta)
              && run.stored == Some(run.State())
              && run.calls == old(run.calls) + [AddOrReplace(entry), StatusCheck]
              && run.dagName == old(run.dagName) && run.tanent == old(run.tanent) && run.chatbotId == old(run.chatbotId)
              && run.statistic == old(run.statistic) && run.dagMeta == old(run.dagMeta)
              && run.createdAt == old(run.createdAt) && run.updatedAt == old(run.updatedAt)
              && outcome == Rendered(map["success" := JBool(true)])
    ensures Get(params, "id") in runs ==>
              forall r :: r in runs.Values && r != runs[Get(params, "id")] ==> unchanged(r)
  {
    var id := Get(params, "id");
    if id !in runs {
      return Raised(RunNotFound(id));
    }
    var run := runs[id];
    var _ := run.FindStatusStackByKey(Get(params, "task_name"));
    var entry := CallbackEntry(params);
    run.AddOrReplaceStatusStack(entry);
    run.DagStatusCheck(hooks);
    outcome := Rendered(JsonSuccess(JNull));
  }

  /** Repeated callbacks for one task leave one entry, holding the last
      callback's content, where the first callback put it; and a repeated
      callback changes the stack no further. */
  lemma CallbacksForOneTask(stack: StatusStack, p1: Params, p2: Params)
    requires Get(p1, "task_name") == Get(p2, "task_name")
    ensures Upsert(Upsert(stack, CallbackEntry(p1)), CallbackEntry(p2)) == Upsert(stack, CallbackEntry(p2))
    ensures Upsert(Upsert(stack, CallbackEntry(p2)), CallbackEntry(p2)) == Upsert(stack, CallbackEntry(p2))
    ensures var after := AsMap(Upsert(stack, CallbackEntry(p2)));
            Get(p2, "task_name") in after && after[Get(p2, "task_name")].content == Get(p2, "content")
  {
    UpsertLastWins(stack, CallbackEntry(p1), CallbackEntry(p2));
    UpsertIdempotent(stack, CallbackEntry(p2));
    UpsertIsMapUpdate(stack, CallbackEntry(p2));
  }
}
