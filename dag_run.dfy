/** A DAG run as the runs controller drives it: a status stack of task
    callbacks kept unique by task name (add-or-replace), and the model's own
    workflow steps (`reset_workflow!`, `start`, `dag_status_check!`), whose
    bodies are not part of this model and are given as functions. */
module DagRuns {
  import opened JsonValues

  /** One callback of a task: `{task_name:, content:, function:}`. */
  datatype Entry = Entry(taskName: Json, content: Json, func: Json)

  /** No two entries share a task name. */
  predicate UniqueKeys(s: seq<Entry>)
  {
    forall i, j :: 0 <= i < j < |s| ==> s[i].taskName != s[j].taskName
  }

  type StatusStack = s: seq<Entry> | UniqueKeys(s) witness []

  /** `find_status_stack_by_key`: the position of the entry for the key. */
  function FindByKey(s: seq<Entry>, key: Json): (r: Option<nat>)
    ensures r.None? <==> forall i :: 0 <= i < |s| ==> s[i].taskName != key
    ensures r.Some? ==> r.value < |s| && s[r.value].taskName == key
    ensures r.Some? ==> forall i :: 0 <= i < r.value ==> s[i].taskName != key
  {
    if s == [] then None
    else if s[0].taskName == key then Some(0)
    else match FindByKey(s[1..], key)
      case None => None
      case Some(i) => Some(i + 1)
  }

  /** `add_or_replace_status_stack`: the entry for the same task name is
      replaced where it stands; a new task name is appended. */
  function Upsert(s: seq<Entry>, e: Entry): (r: seq<Entry>)
    ensures e in r
    ensures |r| == if FindByKey(s, e.taskName).Some? then |s| else |s| + 1
    ensures forall i :: 0 <= i < |s| && s[i].taskName != e.taskName ==> r[i] == s[i]
  {
    match FindByKey(s, e.taskName)
    case Some(i) => assert s[i := e][i] == e; s[i := e]
    case None => s + [e]
  }

  /** The first entry with the key is the one found. */
  lemma FindFirst(s: seq<Entry>, key: Json, p: nat)
    requires p < |s| && s[p].taskName == key
    requires forall i :: 0 <= i < p ==> s[i].taskName != key
    ensures FindByKey(s, key) == Some(p)
  {
  }

  /** Right after an upsert, the entry found for its task is the new one. */
  lemma FoundAfterUpsert(s: seq<Entry>, e: Entry)
    ensures FindByKey(Upsert(s, e), e.taskName) == FindByKey(s, e.taskName) || FindByKey(s, e.taskName) == None
    ensures FindByKey(Upsert(s, e), e.taskName).Some?
    ensures Upsert(s, e)[FindByKey(Upsert(s, e), e.taskName).value] == e
  {
    var r := Upsert(s, e);
    match FindByKey(s, e.taskName)
    case Some(p) =>
      assert r == s[p := e];
      FindFirst(r, e.taskName, p);
    case None =>
      assert r == s + [e];
      FindFirst(r, e.taskName, |s|);
  }

  /** The task names in the stack. */
  function Keys(s: seq<Entry>): (r: set<Json>)
    ensures forall k :: k in r <==> exists i :: 0 <= i < |s| && s[i].taskName == k
  {
    set i | 0 <= i < |s| :: s[i].taskName
  }

  /** The stack read as a dictionary from task name to its entry. */
  function AsMap(s: seq<Entry>): (r: map<Json, Entry>)
    ensures r.Keys == Keys(s)
    ensures forall k :: k in r ==> FindByKey(s, k).Some? && r[k] == s[FindByKey(s, k).value]
  {
    map k | k in Keys(s) :: s[FindByKey(s, k).value]
  }

  /** An upsert keeps task names unique. */
  lemma UpsertKeepsUnique(s: seq<Entry>, e: Entry)
    requires UniqueKeys(s)
    ensures UniqueKeys(Upsert(s, e))
  {
  }

  /** Every entry after an upsert is the new one or an old one in its place. */
  lemma UpsertEntries(s: seq<Entry>, e: Entry)
    ensures forall i :: 0 <= i < |Upsert(s, e)| ==> Upsert(s, e)[i] == e || (i < |s| && Upsert(s, e)[i] == s[i])
  {
  }

  /** An upsert does not move any other task. */
  lemma FindOtherAfterUpsert(s: seq<Entry>, e: Entry, k: Json)
    requires k != e.taskName
    ensures FindByKey(Upsert(s, e), k) == FindByKey(s, k)
  {
    var r := Upsert(s, e);
    UpsertEntries(s, e);
    match FindByKey(s, k)
    case Some(q) =>
      FindFirst(r, k, q);
    case None =>
  }

  /** An upsert adds its task name to the names in the stack. */
  lemma KeysAfterUpsert(s: seq<Entry>, e: Entry)
    ensures Keys(Upsert(s, e)) == Keys(s) + {e.taskName}
  {
    var r := Upsert(s, e);
    UpsertEntries(s, e);
    forall k | k in Keys(s) && k != e.taskName
      ensures k in Keys(r)
    {
      FindOtherAfterUpsert(s, e, k);
    }
  }

  /** After an upsert, the dictionary holds the new entry for its task ... */
  lemma OwnEntryAfterUpsert(s: seq<Entry>, e: Entry)
    ensures e.taskName in AsMap(Upsert(s, e)) && AsMap(Upsert(s, e))[e.taskName] == e
  {
    FoundAfterUpsert(s, e);
  }

  /** ... and the old entry of every other task. */
  lemma OtherEntryAfterUpsert(s: seq<Entry>, e: Entry, k: Json)
    requires k != e.taskName && k in AsMap(s)
    ensures k in AsMap(Upsert(s, e)) && AsMap(Upsert(s, e))[k] == AsMap(s)[k]
  {
    FindOtherAfterUpsert(s, e, k);
  }

  /** Seen as a dictionary, an upsert is a key update: the task's entry is
      the new one and every other task keeps its entry. */
  lemma UpsertIsMapUpdate(s: seq<Entry>, e: Entry)
    ensures AsMap(Upsert(s, e)) == AsMap(s)[e.taskName := e]
  {
    var before := AsMap(s);
    var after := AsMap(Upsert(s, e));
    KeysAfterUpsert(s, e);
    OwnEntryAfterUpsert(s, e);
    forall k | k in before && k != e.taskName
      ensures after[k] == before[k]
    {
      OtherEntryAfterUpsert(s, e, k);
    }
    MapUpdateByParts(after, before, e.taskName, e);
  }

  lemma MapUpdateByParts(after: map<Json, Entry>, before: map<Json, Entry>, key: Json, e: Entry)
    requires after.Keys == before.Keys + {key}
    requires key in after && after[key] == e
    requires forall k :: k in before && k != key ==> after[k] == before[k]
    ensures after == before[key := e]
  {
  }

  /** Posting the same callback twice leaves the stack as posting it once. */
  lemma UpsertIdempotent(s: seq<Entry>, e: Entry)
    ensures Upsert(Upsert(s, e), e) == Upsert(s, e)
  {
    var r := Upsert(s, e);
    FoundAfterUpsert(s, e);
    var p := FindByKey(r, e.taskName).value;
    assert r[p := e] == r;
  }

  /** Of two callbacks for the same task, the later one wins, in the place
      the first one took. */
  lemma UpsertLastWins(s: seq<Entry>, e1: Entry, e2: Entry)
    requires e1.taskName == e2.taskName
    ensures Upsert(Upsert(s, e1), e2) == Upsert(s, e2)
  {
    var key := e1.taskName;
    var r := Upsert(s, e1);
    match FindByKey(s, key)
    case Some(p) =>
      assert r == s[p := e1];
      FindFirst(r, key, p);
      assert r[p := e2] == s[p := e2];
    case None =>
      assert r == s + [e1];
      FindFirst(r, key, |s|);
      assert r[|s| := e2] == s + [e2];
  }

  /** The run's own state, as the model's workflow steps see it. */
  datatype RunState = RunState(dagStatus: string, airflowAccepted: bool, statusStack: StatusStack, meta: Json)

  /** The DagRun model's behaviour that the controller relies on but that is
      not part of this model: `Dag.normalize_name`, the meta a new run has,
      and what `reset_workflow!`, `start` and the status evaluation of
      `dag_status_check!` compute. */
  datatype Hooks = Hooks(
    normalizeName: Json -> Json,
    initialMeta: Json,
    reset: RunState -> RunState,
    start: RunState -> RunState,
    statusPolicy: (StatusStack, string) -> string)

  /** The model calls a run receives, in order. */
  datatype Call = Save | ResetWorkflow | Reload | Start | AddOrReplace(entry: Entry) | StatusCheck

  const Pending: string := "pending"

  /** The default of `user_type`. */
  const UserType: string := "User"

  /** The columns of a run's JSON. */
  const RunColumns: set<string> :=
    {"id", "user_id", "user_type", "dag_name", "dag_status", "meta", "statistic", "dag_meta",
     "created_at", "updated_at", "airflow_accepted", "tanent", "chatbot_id"}

  class DagRun {
    const id: Json
    const user: string
    var dagName: Json
    var tanent: string
    var chatbotId: Json
    var dagStatus: string
    var airflowAccepted: bool
    var statusStack: StatusStack
    var meta: Json
    var statistic: Json
    var dagMeta: Json
    var createdAt: Json
    var updatedAt: Json
    /** The type of the polymorphic `user`. */
    const userType: string
    /** The row as last written to the database; none before the first save. */
    var stored: Option<RunState>
    /** The model calls made on this run so far. */
    ghost var calls: seq<Call>

    function State(): RunState
      reads this
    {
      RunState(dagStatus, airflowAccepted, statusStack, meta)
    }

    /** `DagRun.new`: a new run is pending, not accepted by Airflow, has an
        empty status stack and is not saved yet. */
    constructor (id: Json, user: string, dagName: Json, tanent: string, meta: Json)
      ensures this.id == id && this.user == user && this.dagName == dagName && this.tanent == tanent
      ensures this.meta == meta && chatbotId == JNull
      ensures dagStatus == Pending && !airflowAccepted && statusStack == []
      ensures statistic == JNull && dagMeta == JNull && createdAt == JNull && updatedAt == JNull
      ensures userType == UserType
      ensures stored.None? && calls == []
    {
      this.id := id;
      this.user := user;
      this.dagName := dagName;
      this.tanent := tanent;
      this.meta := meta;
      chatbotId := JNull;
      dagStatus := Pending;
      airflowAccepted := false;
      statusStack := [];
      statistic := JNull;
      dagMeta := JNull;
      createdAt := JNull;
      updatedAt := JNull;
      userType := UserType;
      stored := None;
      calls := [];
    }

    /** The run's JSON: every column of the row, with its current values. */
    function AsJson(): (r: Json)
      reads this
      ensures r.JObj? && r.fields.Keys == RunColumns
      ensures r.fields["id"] == id && r.fields["user_id"] == JStr(user) && r.fields["dag_name"] == dagName
      ensures r.fields["dag_status"] == JStr(dagStatus) && r.fields["meta"] == meta
      ensures r.fields["airflow_accepted"] == JBool(airflowAccepted) && r.fields["tanent"] == JStr(tanent)
      ensures r.fields["chatbot_id"] == chatbotId && r.fields["user_type"] == JStr(userType)
      ensures r.fields["statistic"] == statistic && r.fields["dag_meta"] == dagMeta
      ensures r.fields["created_at"] == createdAt && r.fields["updated_at"] == updatedAt
    {
      JObj(map["id" := id, "user_id" := JStr(user), "user_type" := JStr(userType), "dag_name" := dagName,
               "dag_status" := JStr(dagStatus), "meta" := meta, "statistic" := statistic, "dag_meta" := dagMeta,
               "created_at" := createdAt, "updated_at" := updatedAt, "airflow_accepted" := JBool(airflowAccepted),
               "tanent" := JStr(tanent), "chatbot_id" := chatbotId])
    }

    /** `save`: writes the row when the database accepts it. */
    method Save(accepted: bool) returns (saved: bool)
      modifies this
      ensures saved == accepted
      ensures saved ==> stored == Some(State())
      ensures !saved ==> stored == old(stored)
      ensures State() == old(State()) && calls == old(calls) + [Call.Save]
      ensures dagName == old(dagName) && tanent == old(tanent) && chatbotId == old(chatbotId)
      ensures statistic == old(statistic) && dagMeta == old(dagMeta) && createdAt == old(createdAt) && updatedAt == old(updatedAt)
    {
      if accepted {
        stored := Some(State());
      }
      saved := accepted;
      calls := calls + [Call.Save];
    }

    /** `reset_workflow!`: the reset state, written to the database. */
    method ResetWorkflow(hooks: Hooks)
      modifies this
      ensures State() == hooks.reset(old(State())) && stored == Some(State())
      ensures calls == old(calls) + [Call.ResetWorkflow]
      ensures dagName == old(dagName) && tanent == old(tanent) && chatbotId == old(chatbotId)
      ensures statistic == old(statistic) && dagMeta == old(dagMeta) && createdAt == old(createdAt) && updatedAt == old(updatedAt)
    {
      var next := hooks.reset(State());
      dagStatus, airflowAccepted, statusStack, meta := next.dagStatus, next.airflowAccepted, next.statusStack, next.meta;
      stored := Some(next);
      calls := calls + [Call.ResetWorkflow];
    }

    /** `reload`: the state is read back from the database. */
    method Reload()
      requires stored.Some?
      modifies this
      ensures State() == old(stored.value) && stored == old(stored)
      ensures calls == old(calls) + [Call.Reload]
      ensures dagName == old(dagName) && tanent == old(tanent) && chatbotId == old(chatbotId)
      ensures statistic == old(statistic) && dagMeta == old(dagMeta) && createdAt == old(createdAt) && updatedAt == old(updatedAt)
    {
      var row := stored.value;
      dagStatus, airflowAccepted, statusStack, meta := row.dagStatus, row.airflowAccepted, row.statusStack, row.meta;
      calls := calls + [Call.Reload];
    }

    /** `start`: the started state, written to the database. */
    method Start(hooks: Hooks)
      modifies this
      ensures State() == hooks.start(old(State())) && stored == Some(State())
      ensures calls == old(calls) + [Call.Start]
      ensures dagName == old(dagName) && tanent == old(tanent) && chatbotId == old(chatbotId)
      ensures statistic == old(statistic) && dagMeta == old(dagMeta) && createdAt == old(createdAt) && updatedAt == old(updatedAt)
    {
      var next := hooks.start(State());
      dagStatus, airflowAccepted, statusStack, meta := next.dagStatus, next.airflowAccepted, next.statusStack, next.meta;
      stored := Some(next);
      calls := calls + [Call.Start];
    }

    /** `find_status_stack_by_key`: the entry for the key, if any; the run is
        not changed. */
    method FindStatusStackByKey(key: Json) returns (r: Option<Entry>)
      ensures r.None? <==> key !in Keys(statusStack)
      ensures r.Some? ==> r.value in statusStack && r.value.taskName == key
      ensures r.Some? ==> key in AsMap(statusStack) && AsMap(statusStack)[key] == r.value
    {
      var i := 0;
      while i < |statusStack|
        invariant 0 <= i <= |statusStack|
        invariant forall j :: 0 <= j < i ==> statusStack[j].taskName != key
      {
        if statusStack[i].taskName == key {
          return Some(statusStack[i]);
        }
        i := i + 1;
      }
      return None;
    }

    /** `add_or_replace_status_stack`: upserts the entry by task name; only
        the stack changes. */
    method AddOrReplaceStatusStack(e: Entry)
      modifies this
      ensures statusStack == Upsert(old(statusStack), e)
      ensures AsMap(statusStack) == AsMap(old(statusStack))[e.taskName := e]
      ensures dagStatus == old(dagStatus) && airflowAccepted == old(airflowAccepted) && meta == old(meta)
      ensures stored == old(stored) && calls == old(calls) + [AddOrReplace(e)]
      ensures dagName == old(dagName) && tanent == old(tanent) && chatbotId == old(chatbotId)
      ensures statistic == old(statistic) && dagMeta == old(dagMeta) && createdAt == old(createdAt) && updatedAt == old(updatedAt)
    {
      UpsertKeepsUnique(statusStack, e);
      UpsertIsMapUpdate(statusStack, e);
      statusStack := Upsert(statusStack, e);
      calls := calls + [AddOrReplace(e)];
    }

    /** `dag_status_check!`: the status is re-evaluated from the stack and
        the run is written to the database. */
    method DagStatusCheck(hooks: Hooks)
      modifies this
      ensures dagStatus == hooks.statusPolicy(old(statusStack), old(dagStatus))
      ensures statusStack == old(statusStack) && airflowAccepted == old(airflowAccepted) && meta == old(meta)
      ensures stored == Some(State()) && calls == old(calls) + [StatusCheck]
      ensures dagName == old(dagName) && tanent == old(tanent) && chatbotId == old(chatbotId)
      ensures statistic == old(statistic) && dagMeta == old(dagMeta) && createdAt == old(createdAt) && updatedAt == old(updatedAt)
    {
      dagStatus := hooks.statusPolicy(statusStack, dagStatus);
      stored := Some(State());
      calls := calls + [StatusCheck];
    }
  }
}
