/** Many tasks at once, delivering into the tables of the services that own the content: tailored
    resumes are appended as versions, artifacts replace the current one of their job and type. */
module Owners {
  import opened Wrappers
  import opened HttpClient
  import opened Generation
  import opened Tasks
  import Tailor
  import Versions

  datatype Request = Request(user: string, job: string, kind: Kind)

  datatype Entry = Entry(request: Request, task: Task)

  datatype Slot = Slot(job: string, kind: Kind)

  /** `author` is the task whose delivery wrote the artifact, or None for a write by the user. */
  datatype Artifact = Artifact(content: string, author: Option<nat>)

  /** What happens to a slot: something is written into it, or its job is removed with everything in it. */
  datatype Touch = Written(slot: Slot, artifact: Artifact) | Removed(job: string)

  /** `history` lists what happened to the artifacts, `removed` the jobs that are gone; their ids are not used again.
      `posts` are the calls by which users stored tailored resumes themselves. */
  datatype System = System(
    tasks: map<nat, Entry>, resumes: seq<Versions.Row>, posts: set<nat>,
    artifacts: map<Slot, Artifact>, removed: set<string>, history: seq<Touch>)

  /** Beside the tasks, users store tailored resumes and artifacts themselves and remove jobs. */
  datatype Act =
    | Arrive(id: nat, request: Request)
    | Do(id: nat, act: Tasks.Act)
    | PostVersion(id: nat, body: Versions.Body)
    | PutArtifact(slot: Slot, content: string)
    | RemoveJob(job: string)

  predicate Enabled(s: System, a: Act) {
    match a
    case Arrive(id, _) => id !in s.tasks && id !in s.posts
    case PostVersion(id, _) => id !in s.tasks && id !in s.posts
    case Do(id, act) =>
      id in s.tasks && Tasks.Enabled(s.tasks[id].task, act) &&
      (act.Deliver? && s.tasks[id].request.kind != RESUME_TAILOR && s.tasks[id].request.job in s.removed ==>
         Refused(act.replies))
    case PutArtifact(slot, _) => slot.job !in s.removed && slot.kind != RESUME_TAILOR
    case RemoveJob(job) => job !in s.removed
  }

  /** The jobs service carries nothing out for a job that is gone. */
  predicate Refused(replies: seq<Reply>) { forall i :: 0 <= i < |replies| ==> !replies[i].committed }

  function ResumeBody(r: Request, text: string): Versions.Body {
    var split := Tailor.SplitTailorResult(text);
    Versions.Body(Versions.Key(r.user, r.job), split.gapAnalysis, split.content)
  }

  /** Each text is appended as the next version of its user and job. */
  function Append(rows: seq<Versions.Row>, id: nat, r: Request, texts: seq<string>): seq<Versions.Row>
    decreases |texts|
  {
    if texts == [] then rows
    else
      var body := ResumeBody(r, texts[0]);
      Append(rows + [Versions.Row(id, body, Versions.Latest(rows, body.key) + 1)], id, r, texts[1..])
  }

  /** What a step added to the deliveries. */
  function Added(before: seq<string>, after: seq<string>): seq<string> {
    if |before| < |after| then after[|before|..] else []
  }

  function Apply(c: Config, s: System, a: Act): System
    requires Enabled(s, a)
  {
    match a
    case Arrive(id, request) => s.(tasks := s.tasks[id := Entry(request, NewTask(request.kind))])
    case Do(id, act) =>
      var e := s.tasks[id];
      var after := Tasks.Apply(c, e.task, act);
      var texts := Added(e.task.delivered, after.delivered);
      var tasks := s.tasks[id := Entry(e.request, after)];
      if e.request.kind == RESUME_TAILOR then s.(tasks := tasks, resumes := Append(s.resumes, id, e.request, texts))
      else if texts == [] then s.(tasks := tasks)
      else Write(s.(tasks := tasks), Slot(e.request.job, e.request.kind), Artifact(texts[|texts| - 1], Some(id)))
    case PostVersion(id, body) =>
      s.(resumes := s.resumes + [Versions.Row(id, body, Versions.Latest(s.resumes, body.key) + 1)],
         posts := s.posts + {id})
    case PutArtifact(slot, content) => Write(s, slot, Artifact(content, None))
    case RemoveJob(job) =>
      s.(artifacts := map slot | slot in s.artifacts && slot.job != job :: s.artifacts[slot],
         removed := s.removed + {job}, history := s.history + [Removed(job)])
  }

  function Write(s: System, slot: Slot, artifact: Artifact): System {
    s.(artifacts := s.artifacts[slot := artifact], history := s.history + [Written(slot, artifact)])
  }

  predicate Legal(c: Config, s: System, acts: seq<Act>)
    decreases |acts|
  {
    acts == [] || (Enabled(s, acts[0]) && Legal(c, Apply(c, s, acts[0]), acts[1..]))
  }

  function Exec(c: Config, s: System, acts: seq<Act>): System
    requires Legal(c, s, acts)
    decreases |acts|
  {
    if acts == [] then s else Exec(c, Apply(c, s, acts[0]), acts[1..])
  }

  const EMPTY_SYSTEM := System(map[], [], {}, map[], {}, [])

  // ---- What every run keeps ----

  function RowsOf(rows: seq<Versions.Row>, id: nat, n: nat): nat
    requires n <= |rows|
  {
    if n == 0 then 0 else RowsOf(rows, id, n - 1) + (if rows[n - 1].writer == id then 1 else 0)
  }

  ghost predicate Holds(rows: seq<Versions.Row>, id: nat, body: Versions.Body) {
    exists i :: 0 <= i < |rows| && rows[i].writer == id && rows[i].body == body
  }

  /** The owner holds what the task delivered. */
  ghost predicate EntryOk(s: System, id: nat)
    requires id in s.tasks
  {
    var r, t := s.tasks[id].request, s.tasks[id].task;
    AnyInv(t) && t.kind == r.kind &&
    RowsOf(s.resumes, id, |s.resumes|) == (if r.kind == RESUME_TAILOR then |t.delivered| else 0) &&
    (t.delivered != [] && r.kind == RESUME_TAILOR ==> Holds(s.resumes, id, ResumeBody(r, t.delivered[0]))) &&
    (t.delivered != [] && r.kind != RESUME_TAILOR ==> Wrote(s.history, id, Slot(r.job, r.kind), t.delivered[0]))
  }

  /** The task wrote this text into the slot at some time. */
  ghost predicate Wrote(history: seq<Touch>, id: nat, slot: Slot, text: string) {
    exists i :: 0 <= i < |history| && history[i] == Written(slot, Artifact(text, Some(id)))
  }

  predicate Touches(t: Touch, slot: Slot) { if t.Written? then t.slot == slot else t.job == slot.job }

  /** What the slot holds after all that happened. */
  function Current(history: seq<Touch>, slot: Slot): Option<Artifact> {
    if history == [] then None
    else
      var last := history[|history| - 1];
      if !Touches(last, slot) then Current(history[..|history| - 1], slot)
      else if last.Written? then Some(last.artifact) else None
  }

  /** Every write of a task is of its own text, into its own slot. */
  ghost predicate TouchOk(s: System, i: nat)
    requires i < |s.history|
  {
    s.history[i].Written? && s.history[i].artifact.author.Some? ==>
      var id := s.history[i].artifact.author.value;
      id in s.tasks && s.history[i].slot == Slot(s.tasks[id].request.job, s.tasks[id].request.kind) &&
      s.tasks[id].task.delivered != [] && s.history[i].artifact.content == s.tasks[id].task.delivered[0]
  }

  /** The table holds what the history says. */
  ghost predicate SlotOk(s: System, slot: Slot) {
    Current(s.history, slot) == if slot in s.artifacts then Some(s.artifacts[slot]) else None
  }

  ghost predicate Inv(s: System) {
    Versions.Contiguous(s.resumes) &&
    (forall i :: 0 <= i < |s.resumes| ==> s.resumes[i].writer in s.tasks || s.resumes[i].writer in s.posts) &&
    s.tasks.Keys !! s.posts &&
    (forall id :: id in s.tasks ==> EntryOk(s, id)) &&
    (forall slot :: SlotOk(s, slot)) && (forall i :: 0 <= i < |s.history| ==> TouchOk(s, i))
  }

  lemma {:induction false} RowsOfFrame(rows: seq<Versions.Row>, more: seq<Versions.Row>, id: nat, n: nat)
    requires n <= |rows| && rows <= more
    ensures RowsOf(more, id, n) == RowsOf(rows, id, n)
    decreases n
  {
    if n > 0 { RowsOfFrame(rows, more, id, n - 1); }
  }

  lemma {:induction false} RowsOfNobody(rows: seq<Versions.Row>, id: nat, n: nat)
    requires n <= |rows| && forall i :: 0 <= i < |rows| ==> rows[i].writer != id
    ensures RowsOf(rows, id, n) == 0
    decreases n
  {
    if n > 0 { RowsOfNobody(rows, id, n - 1); }
  }

  /** Appending deliveries keeps the numbering and touches no row there was. */
  lemma {:induction false} AppendKeepsNumbering(rows: seq<Versions.Row>, id: nat, r: Request, texts: seq<string>)
    requires Versions.Contiguous(rows)
    ensures var more := Append(rows, id, r, texts);
      Versions.Contiguous(more) && rows <= more && |more| == |rows| + |texts| &&
      (forall i :: |rows| <= i < |more| ==> more[i].writer == id) &&
      (texts != [] ==> more[|rows|].body == ResumeBody(r, texts[0]))
    decreases |texts|
  {
    if texts != [] {
      var body := ResumeBody(r, texts[0]);
      Versions.TakenExactlyUpToCount(rows, body.key, 0);
      var row := Versions.Row(id, body, Versions.Latest(rows, body.key) + 1);
      Versions.AppendKeepsContiguous(rows, row);
      AppendKeepsNumbering(rows + [row], id, r, texts[1..]);
      assert (rows + [row])[|rows|] == row;
    }
  }

  lemma {:induction false} RowsOfTail(rows: seq<Versions.Row>, from: nat, n: nat, id: nat, u: nat)
    requires from <= n <= |rows| && forall i :: from <= i < |rows| ==> rows[i].writer == id
    ensures RowsOf(rows, u, n) == RowsOf(rows, u, from) + (if u == id then n - from else 0)
    decreases n
  {
    if from < n { RowsOfTail(rows, from, n - 1, id, u); }
  }

  lemma AppendEffect(rows: seq<Versions.Row>, id: nat, r: Request, texts: seq<string>, u: nat)
    requires Versions.Contiguous(rows)
    ensures var more := Append(rows, id, r, texts);
      Versions.Contiguous(more) && rows <= more && (forall i :: |rows| <= i < |more| ==> more[i].writer == id) &&
      RowsOf(more, u, |more|) == RowsOf(rows, u, |rows|) + (if u == id then |texts| else 0) &&
      (texts != [] ==> Holds(more, id, ResumeBody(r, texts[0])))
  {
    AppendKeepsNumbering(rows, id, r, texts);
    var more := Append(rows, id, r, texts);
    RowsOfFrame(rows, more, u, |rows|);
    RowsOfTail(more, |rows|, |more|, id, u);
  }

  lemma HoldsFrame(rows: seq<Versions.Row>, more: seq<Versions.Row>, id: nat, body: Versions.Body)
    requires Holds(rows, id, body) && rows <= more
    ensures Holds(more, id, body)
  {
    var i :| 0 <= i < |rows| && rows[i].writer == id && rows[i].body == body;
    assert more[i] == rows[i];
  }

  lemma ArriveKeepsInv(c: Config, s: System, id: nat, request: Request)
    requires Inv(s) && Enabled(s, Arrive(id, request))
    ensures Inv(Apply(c, s, Arrive(id, request)))
  {
    hide Versions.Contiguous, AnyInv, Wrote, Holds, Current;
    var t := Apply(c, s, Arrive(id, request));
    RowsOfNobody(s.resumes, id, |s.resumes|);
    forall u | u in t.tasks ensures EntryOk(t, u) {
      if u != id { assert EntryOk(s, u); } else { assert AnyInv(t.tasks[id].task) by { NewTaskOk(request.kind); } }
    }
    forall slot ensures SlotOk(t, slot) { assert SlotOk(s, slot); }
    forall i | 0 <= i < |t.history| ensures TouchOk(t, i) { assert TouchOk(s, i); }
  }

  /** A resume posted by a user is one more row, and no task's. */
  lemma PostKeepsInv(c: Config, s: System, id: nat, body: Versions.Body)
    requires Inv(s) && Enabled(s, PostVersion(id, body))
    ensures Inv(Apply(c, s, PostVersion(id, body))) && s.resumes <= Apply(c, s, PostVersion(id, body)).resumes
  {
    hide AnyInv, Wrote, Holds, Current, RowsOf, Versions.Contiguous;
    var t := Apply(c, s, PostVersion(id, body));
    var row := t.resumes[|s.resumes|];
    Versions.NextKeepsContiguous(s.resumes, row);
    forall u | u in t.tasks ensures EntryOk(t, u) {
      assert EntryOk(s, u);
      OneRowMore(s.resumes, row, u);
      var q, had := s.tasks[u].request, s.tasks[u].task.delivered;
      if had != [] && q.kind == RESUME_TAILOR { HoldsFrame(s.resumes, t.resumes, u, ResumeBody(q, had[0])); }
    }
    forall slot ensures SlotOk(t, slot) { assert SlotOk(s, slot); }
    forall i | 0 <= i < |t.history| ensures TouchOk(t, i) { assert TouchOk(s, i); }
  }

  lemma OneRowMore(rows: seq<Versions.Row>, row: Versions.Row, id: nat)
    requires row.writer != id
    ensures RowsOf(rows + [row], id, |rows| + 1) == RowsOf(rows, id, |rows|)
  {
    RowsOfFrame(rows, rows + [row], id, |rows|);
  }

  lemma NewTaskOk(kind: Kind)
    ensures AnyInv(NewTask(kind))
  {}

  // ---- The artifacts' history ----

  lemma CurrentGrows(history: seq<Touch>, last: Touch, slot: Slot)
    ensures Current(history + [last], slot) ==
            if !Touches(last, slot) then Current(history, slot) else if last.Written? then Some(last.artifact) else None
  {
    assert (history + [last])[..|history|] == history;
  }

  lemma WriteKeepsSlot(s: System, slot: Slot, artifact: Artifact, other: Slot)
    requires SlotOk(s, other)
    ensures SlotOk(Write(s, slot, artifact), other)
  {
    CurrentGrows(s.history, Written(slot, artifact), other);
  }

  lemma RemoveKeepsSlot(c: Config, s: System, job: string, slot: Slot)
    requires SlotOk(s, slot) && Enabled(s, RemoveJob(job))
    ensures SlotOk(Apply(c, s, RemoveJob(job)), slot)
  {
    CurrentGrows(s.history, Removed(job), slot);
  }

  lemma WroteStays(history: seq<Touch>, more: seq<Touch>, id: nat, slot: Slot, text: string)
    requires Wrote(history, id, slot, text) && history <= more
    ensures Wrote(more, id, slot, text)
  {
    var i :| 0 <= i < |history| && history[i] == Written(slot, Artifact(text, Some(id)));
    assert more[i] == history[i];
  }

  lemma WroteNow(history: seq<Touch>, id: nat, slot: Slot, text: string)
    ensures Wrote(history + [Written(slot, Artifact(text, Some(id)))], id, slot, text)
  {
    assert (history + [Written(slot, Artifact(text, Some(id)))])[|history|] == Written(slot, Artifact(text, Some(id)));
  }

  /** What users do to artifacts and jobs leaves every task's bookkeeping alone. */
  lemma UserKeepsInv(c: Config, s: System, a: Act)
    requires Inv(s) && Enabled(s, a) && (a.PutArtifact? || a.RemoveJob?)
    ensures Inv(Apply(c, s, a)) && Apply(c, s, a).resumes == s.resumes
  {
    hide Versions.Contiguous, AnyInv, Wrote, Holds, Current, RowsOf;
    var t := Apply(c, s, a);
    forall u | u in t.tasks ensures EntryOk(t, u) {
      assert EntryOk(s, u);
      var r, d := s.tasks[u].request, s.tasks[u].task.delivered;
      if d != [] && r.kind != RESUME_TAILOR { WroteStays(s.history, t.history, u, Slot(r.job, r.kind), d[0]); }
    }
    forall slot ensures SlotOk(t, slot) {
      assert SlotOk(s, slot);
      match a
      case PutArtifact(where, content) => WriteKeepsSlot(s, where, Artifact(content, None), slot);
      case RemoveJob(job) => RemoveKeepsSlot(c, s, job, slot);
    }
    forall i | 0 <= i < |t.history| ensures TouchOk(t, i) { if i < |s.history| { assert TouchOk(s, i); } }
  }

  lemma TaskStep(c: Config, t: Task, a: Tasks.Act) returns (texts: seq<string>)
    requires AnyInv(t) && Tasks.Enabled(t, a)
    ensures Tasks.Apply(c, t, a).delivered == t.delivered + texts && Tasks.Apply(c, t, a).kind == t.kind
    ensures AnyInv(Tasks.Apply(c, t, a))
    ensures t.delivered != [] ==> Tasks.Apply(c, t, a).delivered[0] == t.delivered[0]
    ensures forall i :: 0 <= i < |texts| ==> texts[i] == Tasks.Apply(c, t, a).delivered[0]
  {
    AnyStep(c, t, a);
    var u := Tasks.Apply(c, t, a);
    texts := u.delivered[|t.delivered|..];
    assert OnlyTheResultIsDelivered(u);
    forall i | 0 <= i < |texts| ensures texts[i] == u.delivered[0] {
      assert texts[i] == u.delivered[|t.delivered| + i];
    }
  }

  /** What one step of task `id` does to the owners' tables. */
  lemma DoEffect(c: Config, s: System, id: nat, act: Tasks.Act) returns (texts: seq<string>)
    requires Enabled(s, Do(id, act)) && AnyInv(s.tasks[id].task)
    ensures var t, e := Apply(c, s, Do(id, act)), s.tasks[id];
      var after := t.tasks[id].task;
      t.tasks == s.tasks[id := Entry(e.request, after)] && AnyInv(after) && after.kind == e.task.kind &&
      after.delivered == e.task.delivered + texts &&
      (forall i :: 0 <= i < |texts| ==> texts[i] == after.delivered[0]) && (texts != [] ==> after.delivered != []) &&
      t.resumes == (if e.request.kind == RESUME_TAILOR then Append(s.resumes, id, e.request, texts) else s.resumes) &&
      (var w := Write(s, Slot(e.request.job, e.request.kind),
                      Artifact(if texts == [] then "" else after.delivered[0], Some(id)));
       if texts != [] && e.request.kind != RESUME_TAILOR then t.artifacts == w.artifacts && t.history == w.history
       else t.artifacts == s.artifacts && t.history == s.history)
  {
    hide Tasks.Apply, AnyInv, Append;
    var task := s.tasks[id].task;
    texts := TaskStep(c, task, act);
    assert Added(task.delivered, Tasks.Apply(c, task, act).delivered) == texts;
  }

  lemma EntryHasInv(s: System, id: nat)
    requires id in s.tasks && EntryOk(s, id)
    ensures AnyInv(s.tasks[id].task)
  {}

  lemma EntryKept(c: Config, s: System, id: nat, act: Tasks.Act, u: nat)
    requires Inv(s) && Enabled(s, Do(id, act)) && u in s.tasks
    ensures EntryOk(Apply(c, s, Do(id, act)), u)
  {
    hide Tasks.Apply, AnyInv, Append, Versions.Contiguous, Holds, RowsOf, Wrote, Current;
    assert EntryOk(s, id);
    var t := Apply(c, s, Do(id, act));
    var texts := DoEffect(c, s, id, act);
    AppendEffect(s.resumes, id, s.tasks[id].request, texts, u);
    assert EntryOk(s, u);
    var q, had := s.tasks[u].request, s.tasks[u].task.delivered;
    if had != [] && q.kind == RESUME_TAILOR { HoldsFrame(s.resumes, t.resumes, u, ResumeBody(q, had[0])); }
    if had != [] && q.kind != RESUME_TAILOR { WroteStays(s.history, t.history, u, Slot(q.job, q.kind), had[0]); }
    if u == id {
      assert had != [] ==> t.tasks[u].task.delivered[0] == had[0];
      if texts != [] { WroteNow(s.history, id, Slot(q.job, q.kind), t.tasks[u].task.delivered[0]); }
    }
  }

  lemma TouchKept(c: Config, s: System, id: nat, act: Tasks.Act, i: nat)
    requires Inv(s) && Enabled(s, Do(id, act)) && i < |Apply(c, s, Do(id, act)).history|
    ensures TouchOk(Apply(c, s, Do(id, act)), i)
  {
    hide Tasks.Apply, AnyInv, Append, Versions.Contiguous, Holds, RowsOf, Wrote, Current, EntryOk;
    assert AnyInv(s.tasks[id].task) by { EntryHasInv(s, id); }
    var texts := DoEffect(c, s, id, act);
    if i < |s.history| { assert TouchOk(s, i); }
    assert s.tasks[id].task.delivered != [] ==>
      Apply(c, s, Do(id, act)).tasks[id].task.delivered[0] == s.tasks[id].task.delivered[0];
  }

  lemma DoKeepsInv(c: Config, s: System, id: nat, act: Tasks.Act)
    requires Inv(s) && Enabled(s, Do(id, act))
    ensures Inv(Apply(c, s, Do(id, act))) && s.resumes <= Apply(c, s, Do(id, act)).resumes
  {
    hide Tasks.Apply, EntryOk, TouchOk, AnyInv, Versions.Contiguous, Append, Current;
    assert AnyInv(s.tasks[id].task) by { EntryHasInv(s, id); }
    var t, r := Apply(c, s, Do(id, act)), s.tasks[id].request;
    var texts := DoEffect(c, s, id, act);
    AppendEffect(s.resumes, id, r, texts, id);
    forall u | u in t.tasks ensures EntryOk(t, u) { EntryKept(c, s, id, act, u); }
    forall i | 0 <= i < |t.history| ensures TouchOk(t, i) { TouchKept(c, s, id, act, i); }
    forall slot ensures SlotOk(t, slot) {
      assert SlotOk(s, slot);
      if texts != [] {
        WriteKeepsSlot(s, Slot(r.job, r.kind), Artifact(t.tasks[id].task.delivered[0], Some(id)), slot);
      }
    }
  }

  lemma {:induction false} RunKeepsInv(c: Config, s: System, acts: seq<Act>)
    requires Inv(s) && Legal(c, s, acts)
    ensures Inv(Exec(c, s, acts)) && s.resumes <= Exec(c, s, acts).resumes
    decreases |acts|
  {
    hide Inv, Apply, Enabled;
    if acts != [] {
      match acts[0] {
        case Arrive(id, request) =>
          ArriveKeepsInv(c, s, id, request);
          ArriveKeepsResumes(c, s, id, request);
        case Do(id, act) => DoKeepsInv(c, s, id, act);
        case PostVersion(id, body) => PostKeepsInv(c, s, id, body);
        case _ => UserKeepsInv(c, s, acts[0]);
      }
      RunKeepsInv(c, Apply(c, s, acts[0]), acts[1..]);
    }
  }

  lemma ArriveKeepsResumes(c: Config, s: System, id: nat, request: Request)
    requires Enabled(s, Arrive(id, request))
    ensures Apply(c, s, Arrive(id, request)).resumes == s.resumes
  {}

  lemma Runs(c: Config, acts: seq<Act>)
    requires Legal(c, EMPTY_SYSTEM, acts)
    ensures Inv(Exec(c, EMPTY_SYSTEM, acts))
  {
    RunKeepsInv(c, EMPTY_SYSTEM, acts);
  }

  ghost predicate SucceededWith(s: System, id: nat, g: Generated) {
    id in s.tasks && s.tasks[id].task.row.Some? &&
    s.tasks[id].task.row.value.status == SUCCEEDED && s.tasks[id].task.row.value.result == Some(g)
  }

  /** A task that shows SUCCEEDED delivered its result first of all. */
  lemma SuccessWasDelivered(s: System, id: nat, g: Generated)
    requires Inv(s) && SucceededWith(s, id, g)
    ensures s.tasks[id].task.delivered != [] && s.tasks[id].task.delivered[0] == g.text && EntryOk(s, id)
  {
    hide Versions.Contiguous, Holds, RowsOf, Wrote, SlotOk, TouchOk, Current, PcAgreesWithRow;
    assert EntryOk(s, id);
  }

  /** A row by this task holds the two halves of the text for the user and job that asked. */
  ghost predicate Keeps(rows: seq<Versions.Row>, id: nat, r: Request, text: string) {
    exists i :: 0 <= i < |rows| && rows[i].writer == id && rows[i].body.key == Versions.Key(r.user, r.job) &&
      Tailor.SplitsInto(text, Tailor.Split(rows[i].body.gapAnalysis, rows[i].body.content))
  }

  lemma KeepsItsHalves(rows: seq<Versions.Row>, id: nat, r: Request, text: string)
    requires Holds(rows, id, ResumeBody(r, text))
    ensures Keeps(rows, id, r, text)
  {
    hide Tailor.SplitTailorResult, Tailor.SplitsInto;
    Tailor.SplitExactly(text, Tailor.SplitTailorResult(text));
  }

  /** A tailoring task that shows SUCCEEDED has its split result among the versions of its user and
      job, and that version is still there after any further run: crashes and failing calls included. */
  lemma TailoredResumeIsKept(c: Config, before: seq<Act>, later: seq<Act>, id: nat, g: Generated)
    requires Legal(c, EMPTY_SYSTEM, before) && SucceededWith(Exec(c, EMPTY_SYSTEM, before), id, g)
    requires Exec(c, EMPTY_SYSTEM, before).tasks[id].request.kind == RESUME_TAILOR
    requires Legal(c, Exec(c, EMPTY_SYSTEM, before), later)
    ensures var s := Exec(c, EMPTY_SYSTEM, before);
            Keeps(Exec(c, s, later).resumes, id, s.tasks[id].request, g.text) &&
            Versions.Contiguous(Exec(c, s, later).resumes)
  {
    hide Keeps, Legal, Exec, AnyInv, Versions.Contiguous, Holds, RowsOf, Wrote, SlotOk, TouchOk;
    Runs(c, before);
    var s := Exec(c, EMPTY_SYSTEM, before);
    RunKeepsInv(c, s, later);
    SuccessWasDelivered(s, id, g);
    HoldsFrame(s.resumes, Exec(c, s, later).resumes, id, ResumeBody(s.tasks[id].request, g.text));
    KeepsItsHalves(Exec(c, s, later).resumes, id, s.tasks[id].request, g.text);
  }

  /** Nothing was done to the slot since this task last wrote into it. */
  ghost predicate UntouchedSince(history: seq<Touch>, slot: Slot, id: nat) {
    exists i :: 0 <= i < |history| && history[i].Written? && history[i].slot == slot &&
      history[i].artifact.author == Some(id) &&
                forall j :: i < j < |history| ==> !Touches(history[j], slot)
  }

  lemma {:induction false} CurrentIsLastWrite(history: seq<Touch>, slot: Slot, id: nat)
    ensures UntouchedSince(history, slot, id) <==>
      Current(history, slot).Some? && Current(history, slot).value.author == Some(id)
    ensures Current(history, slot).Some? ==>
      exists i :: 0 <= i < |history| && history[i] == Written(slot, Current(history, slot).value)
  {
    if history != [] {
      var n := |history| - 1;
      var init, last := history[..n], history[n];
      CurrentIsLastWrite(init, slot, id);
      if !Touches(last, slot) {
        if UntouchedSince(init, slot, id) {
          var i :| 0 <= i < n && init[i].Written? && init[i].slot == slot && init[i].artifact.author == Some(id) &&
                   forall j :: i < j < n ==> !Touches(init[j], slot);
          assert history[i] == init[i];
          assert forall j :: i < j < |history| ==> j == n || history[j] == init[j];
        }
        if UntouchedSince(history, slot, id) {
          var i :| 0 <= i < |history| && history[i].Written? && history[i].slot == slot &&
            history[i].artifact.author == Some(id) &&
                   forall j :: i < j < |history| ==> !Touches(history[j], slot);
          assert init[i] == history[i];
          assert forall j :: i < j < n ==> init[j] == history[j];
        }
        if Current(init, slot).Some? {
          var i :| 0 <= i < n && init[i] == Written(slot, Current(init, slot).value);
          assert history[i] == init[i];
        }
      }
    }
  }

  /** A research or interview task that shows SUCCEEDED wrote its result into its job's slot, and the slot holds
      that result as written by it exactly when the slot was not written, nor its job removed, since. */
  lemma ArtifactIsThereExactly(c: Config, acts: seq<Act>, id: nat, g: Generated)
    requires Legal(c, EMPTY_SYSTEM, acts) && SucceededWith(Exec(c, EMPTY_SYSTEM, acts), id, g)
    requires Exec(c, EMPTY_SYSTEM, acts).tasks[id].request.kind != RESUME_TAILOR
    ensures var s := Exec(c, EMPTY_SYSTEM, acts);
            var slot := Slot(s.tasks[id].request.job, s.tasks[id].request.kind);
            Wrote(s.history, id, slot, g.text) &&
            (slot in s.artifacts && s.artifacts[slot] == Artifact(g.text, Some(id)) <==>
             UntouchedSince(s.history, slot, id))
  {
    hide Legal, Exec, AnyInv, Versions.Contiguous, Holds, RowsOf, Wrote, Current, UntouchedSince;
    Runs(c, acts);
    var s := Exec(c, EMPTY_SYSTEM, acts);
    SuccessWasDelivered(s, id, g);
    var slot := Slot(s.tasks[id].request.job, s.tasks[id].request.kind);
    assert SlotOk(s, slot);
    CurrentIsLastWrite(s.history, slot, id);
    if UntouchedSince(s.history, slot, id) {
      var i :| 0 <= i < |s.history| && s.history[i] == Written(slot, Current(s.history, slot).value);
      assert TouchOk(s, i);
    }
  }

  /** Success does not mean that the artifact is there: a removal of the job between the delivery and the SUCCEEDED
      update takes it away. */
  lemma RemovalBeforeSuccess(c: Config, s: System, id: nat)
    requires Inv(s) && id in s.tasks && s.tasks[id].task.pc.Settling?
    requires s.tasks[id].request.kind != RESUME_TAILOR && s.tasks[id].request.job !in s.removed
    ensures
      var acts := [RemoveJob(s.tasks[id].request.job), Do(id, MarkSucceeded(true))];
      Legal(c, s, acts) && SucceededWith(Exec(c, s, acts), id, s.tasks[id].task.pc.g) &&
      Slot(s.tasks[id].request.job, s.tasks[id].request.kind) !in Exec(c, s, acts).artifacts
  {
    hide Append, Current, Versions.Contiguous, Holds, RowsOf, Wrote, SlotOk, TouchOk, SuccessIsDelivered;
    hide OnlyTheResultIsDelivered;
    var remove, settle := RemoveJob(s.tasks[id].request.job), Do(id, MarkSucceeded(true));
    assert EntryOk(s, id);
    var t := Apply(c, s, remove);
    assert [remove, settle][1..] == [settle] && [settle][1..] == [];
    assert Legal(c, t, [settle]);
    assert Exec(c, t, [settle]) == Apply(c, t, settle);
  }

  // ---- How many versions a task leaves behind ----

  /** The steps of this task are quiet; other tasks may crash and fail as they like. */
  ghost predicate QuietFor(acts: seq<Act>, id: nat) {
    forall i :: 0 <= i < |acts| && acts[i].Do? && acts[i].id == id ==> Quiet(acts[i].act)
  }

  ghost predicate QuietTask(c: Config, s: System, id: nat) { id in s.tasks ==> QuietInv(c, s.tasks[id].task) }

  lemma QuietSystemStep(c: Config, s: System, a: Act, id: nat)
    requires c.maxAttempts >= 1 && QuietTask(c, s, id) && Enabled(s, a) && (a.Do? && a.id == id ==> Quiet(a.act))
    ensures QuietTask(c, Apply(c, s, a), id)
  {
    hide Tasks.Apply, QuietInv;
    match a
    case Arrive(_, request) => NewIsQuiet(c, request.kind);
    case Do(u, act) => if u == id { QuietStep(c, s.tasks[id].task, act); }
    case _ =>
  }

  lemma {:induction false} QuietSystemRun(c: Config, s: System, acts: seq<Act>, id: nat)
    requires c.maxAttempts >= 1 && QuietTask(c, s, id) && Legal(c, s, acts) && QuietFor(acts, id)
    ensures QuietTask(c, Exec(c, s, acts), id)
    decreases |acts|
  {
    hide QuietTask, Apply, Enabled;
    if acts != [] {
      QuietSystemStep(c, s, acts[0], id);
      QuietSystemRun(c, Apply(c, s, acts[0]), acts[1..], id);
    }
  }

  /** The rows that a tailoring task has added to the versions table: at most AI_MAX_ATTEMPTS, and
      exactly one, if it succeeded, unless an attempt failed after its delivery was carried out. */
  lemma VersionsPerTask(c: Config, acts: seq<Act>, id: nat)
    requires c.maxAttempts >= 1 && Legal(c, EMPTY_SYSTEM, acts) && QuietFor(acts, id)
    requires id in Exec(c, EMPTY_SYSTEM, acts).tasks
    requires Exec(c, EMPTY_SYSTEM, acts).tasks[id].request.kind == RESUME_TAILOR
    ensures var s := Exec(c, EMPTY_SYSTEM, acts);
            var rows, t := RowsOf(s.resumes, id, |s.resumes|), s.tasks[id].task;
            rows <= c.maxAttempts && (t.row.Some? && t.row.value.status == SUCCEEDED ==> rows == t.late + 1)
  {
    hide Legal, Exec, QuietInv, QuietFor, AnyInv, Versions.Contiguous, Holds, RowsOf, Wrote, SlotOk, TouchOk;
    Runs(c, acts);
    QuietSystemRun(c, EMPTY_SYSTEM, acts, id);
    var s := Exec(c, EMPTY_SYSTEM, acts);
    assert EntryOk(s, id) && QuietInv(c, s.tasks[id].task);
    DeliveriesBounded(c, s.tasks[id].task);
  }

  lemma DeliveriesBounded(c: Config, t: Task)
    requires QuietInv(c, t) && t.kind == RESUME_TAILOR
    ensures |t.delivered| <= c.maxAttempts
    ensures t.row.Some? && t.row.value.status == SUCCEEDED ==> |t.delivered| == t.late + 1
  {}
}
