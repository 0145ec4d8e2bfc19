/** The bridge between the persona board and the Hermes board: each tick creates cards for delegated rows
    and mirrors the state of the cards back. What the command line answers is arbitrary. */
module HermesBridge {
  import opened Wrappers

  /** A value of a row; `Empty` is an empty list or object and `Json` any other one. */
  datatype Value = Null | Str(s: string) | Num(n: int) | Empty | Json(text: string)

  type Row = map<string, Value>

  function Get(row: Row, key: string): Value {
    if key in row then row[key] else Null
  }

  predicate Truthy(v: Value) {
    match v
    case Null => false
    case Str(s) => s != ""
    case Num(n) => n != 0
    case Empty => false
    case Json(_) => true
  }

  function Either(a: Value, b: Value): Value {
    if Truthy(a) then a else b
  }

  // --- Answers of the command line -------------------------------------------------------------------------------------

  datatype Run = Run(outcome: string, summary: Value, error: Value, metadata: Value, endedAt: Option<int>)

  /** A `show` payload: the status inside `task` if that is an object, the status of the payload itself, and the runs,
      where a run that is no object is absent. Statuses and outcomes are stripped and in lower case. */
  datatype Payload = Payload(task: Option<string>, bareStatus: Option<string>, runs: seq<Option<Run>>, latestSummary: Value)

  /** The answer to `create`; `Raised` is an exception of the argument builder or of the runner. */
  datatype CreateAnswer = Raised | Failed(err: string) | NoId | Created(id: string)

  /** The answer to `show`; `ShowRaised` is an exception of the runner or of the patch it leads to. */
  datatype ShowAnswer = ShowRaised | NotShown | Shown(payload: Payload)

  /** The empty string stands for an absent mapping. */
  function MapStatus(signal: string): string {
    if signal in {"active", "claimed", "promoted", "heartbeat", "reclaimed", "claim_extended"} then "running"
    else if signal == "completed" then "ok"
    else if signal == "blocked" then "blocked"
    else if signal == "gave_up" || signal == "crashed" then "error"
    else if signal == "timed_out" then "timeout"
    else ""
  }

  function MapColumn(column: string): string {
    if column == "running" then "running"
    else if column == "blocked" || column == "review" then "blocked"
    else if column == "done" || column == "archived" then "ok"
    else ""
  }

  // --- The patch for a fetched card ------------------------------------------------------------------------------------

  function Latest(payload: Payload): Run {
    var n := |payload.runs|;
    if n > 0 && payload.runs[n - 1].Some? then payload.runs[n - 1].value else Run("", Null, Null, Null, None)
  }

  function Column(payload: Payload): string {
    match payload.task
    case Some(status) => status
    case None => if payload.bareStatus.Some? then payload.bareStatus.value else ""
  }

  predicate Settled(column: string) {
    column == "blocked" || column == "done" || column == "archived"
  }

  function NewStatus(payload: Payload): string {
    var column := Column(payload);
    if Settled(column) || MapStatus(Latest(payload).outcome) == "" then MapColumn(column)
    else MapStatus(Latest(payload).outcome)
  }

  function Entry(key: string, v: Value): Row {
    if v == Null then map[] else map[key := v]
  }

  function FinishedAt(run: Run, now: int): Value {
    Num(if run.endedAt.Some? then run.endedAt.value else now)
  }

  function OkPart(latest: Run, fallback: Value, now: int): Row {
    Entry("summary", Either(latest.summary, fallback)) + Entry("metadata", latest.metadata)
    + map["finished_at" := FinishedAt(latest, now)]
  }

  function FailedPart(latest: Run, now: int): Row {
    map["finished_at" := FinishedAt(latest, now)] + Entry("error", latest.error)
  }

  function BlockedPart(latest: Run, fallback: Value): Row {
    Entry("block_reason", Either(Either(latest.summary, latest.error), fallback))
  }

  function ResultPart(latest: Run, fallback: Value, status: string, now: int): Row {
    if status == "ok" then OkPart(latest, fallback, now)
    else if status == "error" || status == "timeout" then FailedPart(latest, now)
    else if status == "blocked" then BlockedPart(latest, fallback)
    else map[]
  }

  function StatusPart(status: string): Row {
    if status == "" then map[] else map["status" := Str(status)]
  }

  function AttemptsPart(runs: seq<Option<Run>>): Row {
    if runs == [] then map[] else map["attempts" := Num(|runs|)]
  }

  /** `derive_update`. */
  function DeriveUpdate(payload: Payload, now: int): Row {
    AttemptsPart(payload.runs) + StatusPart(NewStatus(payload))
    + ResultPart(Latest(payload), payload.latestSummary, NewStatus(payload), now)
  }

  // --- What one pass does to one row -------------------------------------------------------------------------------------

  predicate Delegated(row: Row) {
    Get(row, "status") == Str("delegated")
  }

  predicate Open(row: Row) {
    Get(row, "status") == Str("delegated") || Get(row, "status") == Str("running")
  }

  predicate Terminal(row: Row) {
    Get(row, "status") in {Str("ok"), Str("error"), Str("timeout"), Str("blocked")}
  }

  predicate HasCard(row: Row) {
    Truthy(Get(row, "hermes_task_id"))
  }

  function LastChars(s: string, n: nat): string {
    if |s| <= n then s else s[|s| - n..]
  }

  function CreatedRow(row: Row, answer: CreateAnswer, slug: string, now: int): Row {
    row["delegate_inflight" := Num(now)] +
    match answer
    case Raised => map[]
    case Failed(err) => map["delegate_error" := Str(LastChars(err, 500))]
    case NoId => map["delegate_error" := Str("create returned no id")]
    case Created(id) =>
      if id == "" then map["delegate_error" := Str("create returned no id")]
      else map["hermes_task_id" := Str(id), "hermes_board" := Str(if slug == "" then "default" else slug),
               "delegate_inflight" := Num(0), "delegate_error" := Null]
  }

  function EnqueuedRow(row: Row, answer: CreateAnswer, slug: string, now: int): Row {
    if Delegated(row) && !HasCard(row) then CreatedRow(row, answer, slug, now) else row
  }

  function WithStart(patch: Row, row: Row, now: int): Row {
    if Get(patch, "status") == Str("running") && !Truthy(Get(row, "started_at")) then patch["started_at" := Num(now)] else patch
  }

  function MirroredRow(row: Row, shown: ShowAnswer, now: int): Row {
    if !Open(row) || !HasCard(row) || !shown.Shown? then row
    else
      row + WithStart(DeriveUpdate(shown.payload, now), row, now)
  }

  // --- The board -----------------------------------------------------------------------------------------------------------

  predicate Listing(rows: map<string, Row>, jobs: seq<string>) {
    (forall i :: 0 <= i < |jobs| ==> jobs[i] in rows) && (forall i, j :: 0 <= i < j < |jobs| ==> jobs[i] != jobs[j])
  }

  class TaskBoard {
    var rows: map<string, Row>

    constructor (rows: map<string, Row>)
      ensures this.rows == rows
    {
      this.rows := rows;
    }

    method TaskSet(job: string, patch: Row)
      modifies this
      ensures rows == old(rows)[job := (if job in old(rows) then old(rows)[job] else map[]) + patch]
    {
      rows := rows[job := (if job in rows then rows[job] else map[]) + patch];
    }
  }

  /** The board after a pass has handled the first `n` listed rows. */
  ghost predicate EnqueuedSoFar(before: map<string, Row>, after: map<string, Row>, jobs: seq<string>, answers: seq<CreateAnswer>,
                                slug: string, times: seq<int>, n: nat)
    requires |answers| == |times| == |jobs| && Listing(before, jobs)
  {
    && after.Keys == before.Keys
    && (forall i :: 0 <= i < |jobs| ==> after[jobs[i]] == if i < n then EnqueuedRow(before[jobs[i]], answers[i], slug, times[i]) else before[jobs[i]])
    && (forall job :: job in before && job !in jobs ==> after[job] == before[job])
  }

  ghost predicate MirroredSoFar(before: map<string, Row>, after: map<string, Row>, jobs: seq<string>, shown: seq<ShowAnswer>,
                                times: seq<int>, n: nat)
    requires |shown| == |times| == |jobs| && Listing(before, jobs)
  {
    && after.Keys == before.Keys
    && (forall i :: 0 <= i < |jobs| ==> after[jobs[i]] == if i < n then MirroredRow(before[jobs[i]], shown[i], times[i]) else before[jobs[i]])
    && (forall job :: job in before && job !in jobs ==> after[job] == before[job])
  }

  lemma SetTwice(rows: map<string, Row>, job: string, a: Row, b: Row)
    ensures rows[job := a][job := b] == rows[job := b]
  {
  }

  /** `create_card`. An exception leaves the row marked as in flight. */
  method CreateCard(board: TaskBoard, job: string, answer: CreateAnswer, slug: string, now: int)
      returns (raised: bool, tid: Option<string>)
    requires job in board.rows
    modifies board
    ensures board.rows == old(board.rows)[job := CreatedRow(old(board.rows)[job], answer, slug, now)]
    ensures raised == answer.Raised?
    ensures tid == if answer.Created? && answer.id != "" then Some(answer.id) else None
  {
    raised, tid := false, None;
    ghost var before := board.rows;
    board.TaskSet(job, map["delegate_inflight" := Num(now)]);
    assert before[job] + map["delegate_inflight" := Num(now)] == before[job]["delegate_inflight" := Num(now)];
    SetTwice(before, job, before[job]["delegate_inflight" := Num(now)], CreatedRow(before[job], answer, slug, now));
    NoPatch(before[job]["delegate_inflight" := Num(now)]);
    match answer
    case Raised =>
      raised := true;
    case Failed(err) =>
      board.TaskSet(job, map["delegate_error" := Str(LastChars(err, 500))]);
    case NoId =>
      board.TaskSet(job, map["delegate_error" := Str("create returned no id")]);
    case Created(id) =>
      if id == "" {
        board.TaskSet(job, map["delegate_error" := Str("create returned no id")]);
        return;
      }
      board.TaskSet(job, map["hermes_task_id" := Str(id), "hermes_board" := Str(if slug == "" then "default" else slug),
                             "delegate_inflight" := Num(0), "delegate_error" := Null]);
      tid := Some(id);
  }

  lemma EnqueueStep(before: map<string, Row>, after: map<string, Row>, after': map<string, Row>, jobs: seq<string>,
                    answers: seq<CreateAnswer>, slug: string, times: seq<int>, n: nat)
    requires |answers| == |times| == |jobs| && n < |jobs| && Listing(before, jobs)
    requires EnqueuedSoFar(before, after, jobs, answers, slug, times, n)
    requires after' == after[jobs[n] := EnqueuedRow(before[jobs[n]], answers[n], slug, times[n])]
    ensures EnqueuedSoFar(before, after', jobs, answers, slug, times, n + 1)
  {
    hide EnqueuedRow;
  }

  lemma MirrorStep(before: map<string, Row>, after: map<string, Row>, after': map<string, Row>, jobs: seq<string>,
                   shown: seq<ShowAnswer>, times: seq<int>, n: nat)
    requires |shown| == |times| == |jobs| && n < |jobs| && Listing(before, jobs)
    requires MirroredSoFar(before, after, jobs, shown, times, n)
    requires after' == after[jobs[n] := MirroredRow(before[jobs[n]], shown[n], times[n])]
    ensures MirroredSoFar(before, after', jobs, shown, times, n + 1)
  {
    hide MirroredRow;
  }

  /** A card is requested for exactly the delegated rows without an identifier. */
  predicate Wants(row: Row) {
    Delegated(row) && !HasCard(row)
  }

  /** The request for a card of this row aborts the pass. */
  predicate Raises(row: Row, answer: CreateAnswer) {
    Wants(row) && answer.Raised?
  }

  ghost predicate NoneRaises(before: map<string, Row>, jobs: seq<string>, answers: seq<CreateAnswer>, n: nat)
    requires n <= |answers| == |jobs| && Listing(before, jobs)
  {
    forall i :: 0 <= i < n ==> !Raises(before[jobs[i]], answers[i])
  }

  /** The pass handles `n` listed rows: up to the first request that raises, or all of them. */
  ghost predicate EnqueueStops(before: map<string, Row>, jobs: seq<string>, answers: seq<CreateAnswer>, n: nat, raised: bool)
    requires |answers| == |jobs| && Listing(before, jobs)
  {
    if raised then 0 < n <= |jobs| && NoneRaises(before, jobs, answers, n - 1) && Raises(before[jobs[n - 1]], answers[n - 1])
    else n == |jobs| && NoneRaises(before, jobs, answers, n)
  }

  /** Fetching the card of this row aborts the pass. */
  predicate ShowRaises(row: Row, shown: ShowAnswer) {
    Open(row) && HasCard(row) && shown.ShowRaised?
  }

  ghost predicate NoneShowRaises(before: map<string, Row>, jobs: seq<string>, shown: seq<ShowAnswer>, n: nat)
    requires n <= |shown| == |jobs| && Listing(before, jobs)
  {
    forall i :: 0 <= i < n ==> !ShowRaises(before[jobs[i]], shown[i])
  }

  ghost predicate MirrorStops(before: map<string, Row>, jobs: seq<string>, shown: seq<ShowAnswer>, n: nat, raised: bool)
    requires |shown| == |jobs| && Listing(before, jobs)
  {
    if raised then 0 < n <= |jobs| && NoneShowRaises(before, jobs, shown, n - 1) && ShowRaises(before[jobs[n - 1]], shown[n - 1])
    else n == |jobs| && NoneShowRaises(before, jobs, shown, n)
  }

  lemma EnqueuedRowCases(row: Row, answer: CreateAnswer, slug: string, now: int)
    ensures Wants(row) ==> EnqueuedRow(row, answer, slug, now) == CreatedRow(row, answer, slug, now)
    ensures !Wants(row) ==> EnqueuedRow(row, answer, slug, now) == row
    ensures Wants(row) ==> (HasCard(CreatedRow(row, answer, slug, now)) <==> answer.Created? && answer.id != "")
  {
  }

  lemma SameValue<K, V>(m: map<K, V>, k: K)
    requires k in m
    ensures m[k := m[k]] == m
  {
  }

  lemma EnqueuedSoFarAt(before: map<string, Row>, after: map<string, Row>, jobs: seq<string>, answers: seq<CreateAnswer>,
                        slug: string, times: seq<int>, n: nat)
    requires |answers| == |times| == |jobs| && n < |jobs| && Listing(before, jobs)
    requires EnqueuedSoFar(before, after, jobs, answers, slug, times, n)
    ensures jobs[n] in before && jobs[n] in after && after[jobs[n]] == before[jobs[n]] && after.Keys == before.Keys
  {
  }

  lemma NoneEnqueued(before: map<string, Row>, jobs: seq<string>, answers: seq<CreateAnswer>, slug: string, times: seq<int>)
    requires |answers| == |times| == |jobs| && Listing(before, jobs)
    ensures EnqueuedSoFar(before, before, jobs, answers, slug, times, 0)
  {
  }

  /** The body of the loop over the listed rows. `asked` tells whether a card was requested. */
  method EnqueueOne(board: TaskBoard, job: string, listed: Row, answer: CreateAnswer, slug: string, now: int)
      returns (raised: bool, tid: Option<string>, ghost asked: bool)
    requires job in board.rows && listed == board.rows[job]
    modifies board
    ensures board.rows == old(board.rows)[job := EnqueuedRow(old(board.rows)[job], answer, slug, now)]
    ensures asked <==> Wants(old(board.rows)[job])
    ensures raised <==> Raises(old(board.rows)[job], answer)
    ensures tid.Some? <==> asked && HasCard(board.rows[job])
  {
    EnqueuedRowCases(listed, answer, slug, now);
    SameValue(board.rows, job);
    hide EnqueuedRow, CreatedRow;
    if !Delegated(listed) {
      return false, None, false;
    }
    var full := board.rows[job];
    if HasCard(full) {
      return false, None, false;
    }
    asked := true;
    raised, tid := CreateCard(board, job, answer, slug, now);
  }

  /** The rows reported as created were wanting a card and have one now. */
  ghost predicate AllCreated(before: map<string, Row>, after: map<string, Row>, jobs: seq<string>, created: seq<string>) {
    forall job :: job in created ==> job in jobs && job in before && job in after && Wants(before[job]) && HasCard(after[job])
  }

  lemma CreatedStep(before: map<string, Row>, after: map<string, Row>, jobs: seq<string>, created: seq<string>, job: string, row: Row,
                    one: bool)
    requires AllCreated(before, after, jobs, created) && job in jobs && job in before && job in after && after[job] == before[job]
    requires one ==> Wants(before[job]) && HasCard(row)
    ensures AllCreated(before, after[job := row], jobs, if one then created + [job] else created)
  {
    hide Delegated, HasCard;
  }

  /** A card is requested at exactly the positions in `asked`. */
  ghost predicate AllAsked(before: map<string, Row>, jobs: seq<string>, n: nat, asked: set<nat>)
    requires n <= |jobs| && Listing(before, jobs)
  {
    forall i: nat :: i in asked <==> i < n && Wants(before[jobs[i]])
  }

  lemma AskedStep(before: map<string, Row>, jobs: seq<string>, n: nat, asked: set<nat>)
    requires n < |jobs| && Listing(before, jobs) && AllAsked(before, jobs, n, asked)
    ensures AllAsked(before, jobs, n + 1, if Wants(before[jobs[n]]) then asked + {n} else asked)
  {
    hide Wants;
  }

  /** `enqueue_delegated`. `asked` are the positions for which a card was requested, `reached` the number of rows handled. */
  method EnqueueDelegated(board: TaskBoard, jobs: seq<string>, answers: seq<CreateAnswer>, slug: string, times: seq<int>)
      returns (raised: bool, created: seq<string>, ghost asked: set<nat>, ghost reached: nat)
    requires Listing(board.rows, jobs) && |answers| == |times| == |jobs|
    modifies board
    ensures EnqueueStops(old(board.rows), jobs, answers, reached, raised)
    ensures EnqueuedSoFar(old(board.rows), board.rows, jobs, answers, slug, times, reached)
    ensures AllAsked(old(board.rows), jobs, reached, asked)
    ensures AllCreated(old(board.rows), board.rows, jobs, created)
  {
    hide *;
    raised, created, asked, reached := false, [], {}, 0;
    ghost var before := board.rows;
    var listed := board.rows;
    NothingDone(before, jobs, answers, slug, times);
    for n := 0 to |jobs|
      invariant listed == before && !raised && reached == n
      invariant NoneRaises(before, jobs, answers, n)
      invariant EnqueueDone(before, board.rows, jobs, answers, slug, times, n, asked, created)
    {
      var job := jobs[n];
      ghost var rows := board.rows;
      EnqueueNext(before, rows, jobs, answers, slug, times, n, asked, created);
      ghost var wanted;
      var tid;
      raised, tid, wanted := EnqueueOne(board, job, listed[job], answers[n], slug, times[n]);
      EnqueueRound(before, rows, jobs, answers, slug, times, n, asked, created, tid.Some?);
      NoneRaisesStep(before, jobs, answers, n);
      if tid.Some? {
        created := created + [job];
      }
      asked, reached := if wanted then asked + {n} else asked, n + 1;
      if raised {
        StoppedAt(before, board.rows, jobs, answers, slug, times, n + 1, asked, created, raised);
        return;
      }
    }
    StoppedAt(before, board.rows, jobs, answers, slug, times, |jobs|, asked, created, raised);
  }

  /** Everything a pass has done in its first `n` rounds. */
  ghost predicate EnqueueDone(before: map<string, Row>, after: map<string, Row>, jobs: seq<string>, answers: seq<CreateAnswer>,
                              slug: string, times: seq<int>, n: nat, asked: set<nat>, created: seq<string>)
    requires n <= |answers| == |times| == |jobs| && Listing(before, jobs)
  {
    EnqueuedSoFar(before, after, jobs, answers, slug, times, n) && AllAsked(before, jobs, n, asked)
    && AllCreated(before, after, jobs, created)
  }

  lemma NothingDone(before: map<string, Row>, jobs: seq<string>, answers: seq<CreateAnswer>, slug: string, times: seq<int>)
    requires |answers| == |times| == |jobs| && Listing(before, jobs)
    ensures EnqueueDone(before, before, jobs, answers, slug, times, 0, {}, []) && NoneRaises(before, jobs, answers, 0)
  {
    hide EnqueuedRow, HasCard, Wants, Raises;
  }

  lemma EnqueueNext(before: map<string, Row>, rows: map<string, Row>, jobs: seq<string>, answers: seq<CreateAnswer>, slug: string,
                    times: seq<int>, n: nat, asked: set<nat>, created: seq<string>)
    requires n < |answers| == |times| == |jobs| && Listing(before, jobs)
    requires EnqueueDone(before, rows, jobs, answers, slug, times, n, asked, created)
    ensures jobs[n] in before && jobs[n] in rows && rows[jobs[n]] == before[jobs[n]]
  {
    hide EnqueuedSoFar, AllAsked, AllCreated;
    EnqueuedSoFarAt(before, rows, jobs, answers, slug, times, n);
  }

  lemma EnqueueRound(before: map<string, Row>, rows: map<string, Row>, jobs: seq<string>, answers: seq<CreateAnswer>, slug: string,
                     times: seq<int>, n: nat, asked: set<nat>, created: seq<string>, one: bool)
    requires n < |answers| == |times| == |jobs| && Listing(before, jobs) && jobs[n] in before
    requires EnqueueDone(before, rows, jobs, answers, slug, times, n, asked, created)
    requires one ==> Wants(before[jobs[n]]) && HasCard(EnqueuedRow(before[jobs[n]], answers[n], slug, times[n]))
    ensures EnqueueDone(before, rows[jobs[n] := EnqueuedRow(before[jobs[n]], answers[n], slug, times[n])], jobs, answers, slug, times,
              n + 1, if Wants(before[jobs[n]]) then asked + {n} else asked, if one then created + [jobs[n]] else created)
  {
    hide EnqueuedRow, HasCard, Wants, EnqueuedSoFar, AllAsked, AllCreated;
    EnqueuedSoFarAt(before, rows, jobs, answers, slug, times, n);
    var row := EnqueuedRow(before[jobs[n]], answers[n], slug, times[n]);
    EnqueueStep(before, rows, rows[jobs[n] := row], jobs, answers, slug, times, n);
    AskedStep(before, jobs, n, asked);
    CreatedStep(before, rows, jobs, created, jobs[n], row, one);
  }

  /** Where the pass stops it has done what it promises. */
  lemma StoppedAt(before: map<string, Row>, after: map<string, Row>, jobs: seq<string>, answers: seq<CreateAnswer>, slug: string,
                  times: seq<int>, n: nat, asked: set<nat>, created: seq<string>, raised: bool)
    requires n <= |answers| == |times| == |jobs| && Listing(before, jobs)
    requires EnqueueDone(before, after, jobs, answers, slug, times, n, asked, created)
    requires if raised then n > 0 && NoneRaises(before, jobs, answers, n - 1) && Raises(before[jobs[n - 1]], answers[n - 1])
             else n == |jobs| && NoneRaises(before, jobs, answers, n)
    ensures EnqueueStops(before, jobs, answers, n, raised)
    ensures EnqueuedSoFar(before, after, jobs, answers, slug, times, n) && AllAsked(before, jobs, n, asked)
    ensures AllCreated(before, after, jobs, created)
  {
    hide EnqueuedSoFar, AllAsked, AllCreated, NoneRaises, Raises;
  }

  lemma NoneRaisesStep(before: map<string, Row>, jobs: seq<string>, answers: seq<CreateAnswer>, n: nat)
    requires n < |answers| == |jobs| && Listing(before, jobs) && NoneRaises(before, jobs, answers, n)
    ensures !Raises(before[jobs[n]], answers[n]) ==> NoneRaises(before, jobs, answers, n + 1)
  {
    hide Raises;
  }

  lemma NoneShowRaisesStep(before: map<string, Row>, jobs: seq<string>, shown: seq<ShowAnswer>, n: nat)
    requires n < |shown| == |jobs| && Listing(before, jobs) && NoneShowRaises(before, jobs, shown, n)
    ensures !ShowRaises(before[jobs[n]], shown[n]) ==> NoneShowRaises(before, jobs, shown, n + 1)
  {
    hide ShowRaises;
  }

  lemma MirroredRowCases(row: Row, shown: ShowAnswer, now: int)
    ensures !Open(row) || !HasCard(row) || !shown.Shown? ==> MirroredRow(row, shown, now) == row
    ensures Open(row) && HasCard(row) && shown.Shown? ==>
              MirroredRow(row, shown, now) == row + WithStart(DeriveUpdate(shown.payload, now), row, now)
  {
  }

  lemma NoPatch(row: Row)
    ensures row + map[] == row
  {
  }

  lemma MirroredSoFarAt(before: map<string, Row>, after: map<string, Row>, jobs: seq<string>, shown: seq<ShowAnswer>,
                        times: seq<int>, n: nat)
    requires |shown| == |times| == |jobs| && n < |jobs| && Listing(before, jobs)
    requires MirroredSoFar(before, after, jobs, shown, times, n)
    ensures jobs[n] in before && jobs[n] in after && after[jobs[n]] == before[jobs[n]] && after.Keys == before.Keys
  {
  }

  lemma NoneMirrored(before: map<string, Row>, jobs: seq<string>, shown: seq<ShowAnswer>, times: seq<int>)
    requires |shown| == |times| == |jobs| && Listing(before, jobs)
    ensures MirroredSoFar(before, before, jobs, shown, times, 0)
  {
  }

  /** The body of the loop over the listed rows. */
  method MirrorOne(board: TaskBoard, job: string, listed: Row, shown: ShowAnswer, now: int) returns (raised: bool, updated: bool)
    requires job in board.rows && listed == board.rows[job]
    modifies board
    ensures board.rows == old(board.rows)[job := MirroredRow(old(board.rows)[job], shown, now)]
    ensures raised <==> ShowRaises(listed, shown)
    ensures updated ==> Open(listed) && HasCard(listed) && shown.Shown?
    ensures !updated ==> board.rows == old(board.rows)
  {
    MirroredRowCases(listed, shown, now);
    SameValue(board.rows, job);
    hide MirroredRow, DeriveUpdate, HasCard;
    raised, updated := false, false;
    if !Open(listed) {
      return;
    }
    var full := board.rows[job];
    if !HasCard(full) {
      return;
    }
    if !shown.Shown? {
      raised := shown.ShowRaised?;
      return;
    }
    var patch := DeriveUpdate(shown.payload, now);
    if Get(patch, "status") == Str("running") && !Truthy(Get(full, "started_at")) {
      patch := patch["started_at" := Num(now)];
    }
    NoPatch(full);
    if patch != map[] {
      board.TaskSet(job, patch);
      updated := true;
    }
  }

  /** `mirror_outcomes`. */
  method MirrorOutcomes(board: TaskBoard, jobs: seq<string>, shown: seq<ShowAnswer>, times: seq<int>)
      returns (raised: bool, updated: seq<string>, ghost reached: nat)
    requires Listing(board.rows, jobs) && |shown| == |times| == |jobs|
    modifies board
    ensures MirrorStops(old(board.rows), jobs, shown, reached, raised)
    ensures MirroredSoFar(old(board.rows), board.rows, jobs, shown, times, reached)
    ensures forall job :: job in updated ==> job in jobs && Open(old(board.rows)[job]) && HasCard(old(board.rows)[job])
  {
    raised, updated, reached := false, [], 0;
    ghost var before := board.rows;
    var listed := board.rows;
    NoneMirrored(before, jobs, shown, times);
    assert NoneShowRaises(before, jobs, shown, 0);
    hide MirroredRow, MirroredSoFar, HasCard, Open, ShowRaises, NoneShowRaises;
    for n := 0 to |jobs|
      invariant listed == before && board.rows.Keys == before.Keys && !raised && reached == n
      invariant NoneShowRaises(before, jobs, shown, n)
      invariant MirroredSoFar(before, board.rows, jobs, shown, times, n)
      invariant forall job :: job in updated ==> job in jobs && Open(before[job]) && HasCard(before[job])
    {
      var job := jobs[n];
      MirroredSoFarAt(before, board.rows, jobs, shown, times, n);
      ghost var row, rows := before[job], board.rows;
      MirrorStep(before, rows, rows[job := MirroredRow(row, shown[n], times[n])], jobs, shown, times, n);
      NoneShowRaisesStep(before, jobs, shown, n);
      var changed;
      raised, changed := MirrorOne(board, job, listed[job], shown[n], times[n]);
      if changed {
        updated := updated + [job];
      }
      reached := n + 1;
      if raised {
        return;
      }
    }
  }

  // --- Runs ------------------------------------------------------------------------------------------------------------------

  /** One bridge cycle against given listings and answers, or a new row from elsewhere. */
  datatype Step = Tick(enqueueJobs: seq<string>, answers: seq<CreateAnswer>, slug: string, enqueueTimes: seq<int>,
                       mirrorJobs: seq<string>, shown: seq<ShowAnswer>, mirrorTimes: seq<int>)
                | NewRow(job: string, row: Row)

  ghost predicate MirrorHappens(before: map<string, Row>, after: map<string, Row>, jobs: seq<string>, shown: seq<ShowAnswer>,
                                times: seq<int>)
    requires |shown| == |times| == |jobs|
  {
    Listing(before, jobs) &&
    exists n, raised :: MirrorStops(before, jobs, shown, n, raised) && MirroredSoFar(before, after, jobs, shown, times, n)
  }

  /** A pass that raises ends the cycle, and the rows behind stay as they are. */
  ghost predicate Happens(before: map<string, Row>, after: map<string, Row>, step: Step) {
    match step
    case Tick(enqueueJobs, answers, slug, enqueueTimes, mirrorJobs, shown, mirrorTimes) =>
      && |answers| == |enqueueTimes| == |enqueueJobs| && Listing(before, enqueueJobs)
      && |shown| == |mirrorTimes| == |mirrorJobs| && Listing(before, mirrorJobs)
      && exists mid, n, raised ::
           EnqueueStops(before, enqueueJobs, answers, n, raised)
           && EnqueuedSoFar(before, mid, enqueueJobs, answers, slug, enqueueTimes, n)
           && if raised then after == mid else MirrorHappens(mid, after, mirrorJobs, shown, mirrorTimes)
    case NewRow(job, row) => job !in before && after == before[job := row]
  }

  /** `tick`. */
  method TickOnce(board: TaskBoard, step: Step) returns (raised: bool, created: seq<string>, updated: seq<string>)
    requires step.Tick? && |step.answers| == |step.enqueueTimes| == |step.enqueueJobs| && Listing(board.rows, step.enqueueJobs)
    requires |step.shown| == |step.mirrorTimes| == |step.mirrorJobs| && Listing(board.rows, step.mirrorJobs)
    modifies board
    ensures Happens(old(board.rows), board.rows, step)
  {
    hide EnqueueStops, MirrorStops, EnqueuedRow, MirroredRow;
    updated := [];
    ghost var asked, reached;
    raised, created, asked, reached :=
      EnqueueDelegated(board, step.enqueueJobs, step.answers, step.slug, step.enqueueTimes);
    assert EnqueueStops(old(board.rows), step.enqueueJobs, step.answers, reached, raised);
    if raised {
      return;
    }
    ghost var mid := board.rows;
    ghost var mirrored;
    raised, updated, mirrored := MirrorOutcomes(board, step.mirrorJobs, step.shown, step.mirrorTimes);
    assert MirrorHappens(mid, board.rows, step.mirrorJobs, step.shown, step.mirrorTimes);
  }

  ghost predicate IsRun(states: seq<map<string, Row>>, steps: seq<Step>) {
    && |states| == |steps| + 1
    && forall k :: 0 <= k < |steps| ==> Happens(states[k], states[k + 1], steps[k])
  }

  /** How far along delegated, running, terminal a row is; other rows are not the bridge's. */
  function Stage(row: Row): int {
    if Get(row, "status") == Str("delegated") then 0 else if Get(row, "status") == Str("running") then 1 else 2
  }

  /** What the bridge may do to a row. */
  ghost predicate Advances(a: Row, b: Row) {
    && (HasCard(a) ==> Get(b, "hermes_task_id") == Get(a, "hermes_task_id"))
    && (!HasCard(a) && HasCard(b) ==> Delegated(a))
    && Stage(a) <= Stage(b)
    && (!Open(a) ==> b == a)
    && (b != a ==> Open(b) || Terminal(b))
  }

  lemma AdvancesOn(a: Row, b: Row, c: Row)
    requires Advances(a, b) && Advances(b, c)
    ensures Advances(a, c)
  {
  }

  lemma EnqueueAdvances(row: Row, answer: CreateAnswer, slug: string, now: int)
    ensures Advances(row, EnqueuedRow(row, answer, slug, now))
    ensures Get(EnqueuedRow(row, answer, slug, now), "status") == Get(row, "status")
  {
  }

  lemma StatusOfMaps(signal: string)
    ensures MapStatus(signal) in {"", "running", "ok", "error", "timeout", "blocked"}
    ensures MapColumn(signal) in {"", "running", "ok", "blocked"}
  {
  }

  lemma StatusRange(payload: Payload)
    ensures NewStatus(payload) in {"", "running", "ok", "error", "timeout", "blocked"}
  {
    StatusOfMaps(Column(payload));
    StatusOfMaps(Latest(payload).outcome);
    hide MapStatus, MapColumn, Column, Latest;
  }

  lemma OkPartCarries(latest: Run, fallback: Value, now: int)
    ensures var part := OkPart(latest, fallback, now);
            part.Keys <= {"summary", "metadata", "finished_at"} && "finished_at" in part
            && ("metadata" in part <==> latest.metadata != Null)
            && ("summary" in part <==> Truthy(latest.summary) || fallback != Null)
            && ("summary" in part ==> part["summary"] == if Truthy(latest.summary) then latest.summary else fallback)
  {
    hide FinishedAt;
  }

  lemma FailedPartCarries(latest: Run, now: int)
    ensures var part := FailedPart(latest, now);
            part.Keys <= {"finished_at", "error"} && "finished_at" in part && ("error" in part <==> latest.error != Null)
  {
    hide FinishedAt;
  }

  lemma BlockedPartCarries(latest: Run, fallback: Value)
    ensures BlockedPart(latest, fallback).Keys <= {"block_reason"}
  {
    hide Either;
  }

  lemma ResultPartCarries(latest: Run, fallback: Value, status: string, now: int)
    ensures var part := ResultPart(latest, fallback, status, now);
            part.Keys <= {"summary", "metadata", "finished_at", "error", "block_reason"}
            && ("finished_at" in part <==> status in {"ok", "error", "timeout"})
            && ("summary" in part <==> status == "ok" && (Truthy(latest.summary) || fallback != Null))
            && ("summary" in part ==> part["summary"] == if Truthy(latest.summary) then latest.summary else fallback)
            && ("metadata" in part <==> status == "ok" && latest.metadata != Null)
            && ("error" in part <==> status in {"error", "timeout"} && latest.error != Null)
            && ("block_reason" in part ==> status == "blocked")
  {
    hide OkPart, FailedPart, BlockedPart;
    OkPartCarries(latest, fallback, now);
    FailedPartCarries(latest, now);
    BlockedPartCarries(latest, fallback);
  }

  /** Which part of the patch a key comes from. */
  lemma PatchAt(payload: Payload, now: int, key: string)
    ensures var patch := DeriveUpdate(payload, now);
            var part := ResultPart(Latest(payload), payload.latestSummary, NewStatus(payload), now);
            (key in patch <==>
               (key == "attempts" && payload.runs != []) || (key == "status" && NewStatus(payload) != "") || key in part)
            && (key in part ==> patch[key] == part[key])
            && (key == "status" && key !in part ==> Get(patch, key) == if NewStatus(payload) == "" then Null else Str(NewStatus(payload)))
  {
    hide NewStatus, Latest, ResultPart;
  }

  lemma PatchFields(payload: Payload, now: int)
    ensures var patch := DeriveUpdate(payload, now);
            "hermes_task_id" !in patch && Get(patch, "status") == (if NewStatus(payload) == "" then Null else Str(NewStatus(payload)))
            && ("status" in patch <==> NewStatus(payload) != "")
            && NewStatus(payload) in {"", "running", "ok", "error", "timeout", "blocked"}
  {
    hide NewStatus, Latest, ResultPart, DeriveUpdate;
    StatusRange(payload);
    ResultPartCarries(Latest(payload), payload.latestSummary, NewStatus(payload), now);
    PatchAt(payload, now, "hermes_task_id");
    PatchAt(payload, now, "status");
  }

  const PATCH_KEYS := {"attempts", "status", "summary", "metadata", "finished_at", "error", "block_reason"}

  lemma PatchKeys(payload: Payload, now: int)
    ensures DeriveUpdate(payload, now).Keys <= PATCH_KEYS
  {
    hide NewStatus, Latest, ResultPart, DeriveUpdate;
    ResultPartCarries(Latest(payload), payload.latestSummary, NewStatus(payload), now);
    forall key | key in DeriveUpdate(payload, now)
      ensures key in PATCH_KEYS
    {
      PatchAt(payload, now, key);
    }
  }

  /** Which fields a patch carries: an end time exactly for a finished row, a summary and metadata only for a completed one, an
      error only for a failed one, a reason only for a blocked one, and the number of runs whenever there are any. */
  lemma PatchCarries(payload: Payload, now: int)
    ensures var patch, status, latest := DeriveUpdate(payload, now), NewStatus(payload), Latest(payload);
            patch.Keys <= PATCH_KEYS
            && ("finished_at" in patch <==> status in {"ok", "error", "timeout"})
            && ("summary" in patch <==> status == "ok" && (Truthy(latest.summary) || payload.latestSummary != Null))
            && ("summary" in patch ==> patch["summary"] == if Truthy(latest.summary) then latest.summary else payload.latestSummary)
            && ("metadata" in patch <==> status == "ok" && latest.metadata != Null)
            && ("error" in patch <==> status in {"error", "timeout"} && latest.error != Null)
            && ("block_reason" in patch ==> status == "blocked")
            && ("attempts" in patch <==> payload.runs != [])
  {
    hide NewStatus, Latest, ResultPart, DeriveUpdate, PATCH_KEYS;
    PatchKeys(payload, now);
    ResultPartCarries(Latest(payload), payload.latestSummary, NewStatus(payload), now);
    PatchAt(payload, now, "finished_at");
    PatchAt(payload, now, "summary");
    PatchAt(payload, now, "metadata");
    PatchAt(payload, now, "error");
    PatchAt(payload, now, "block_reason");
    PatchAt(payload, now, "attempts");
  }

  /** Neither pass touches any other field of a row. */
  lemma OtherFieldsStay(row: Row, answer: CreateAnswer, slug: string, shown: ShowAnswer, now: int, key: string)
    requires key !in PATCH_KEYS && key != "started_at"
    ensures Get(MirroredRow(row, shown, now), key) == Get(row, key)
    ensures key !in {"delegate_inflight", "delegate_error", "hermes_task_id", "hermes_board"} ==>
              Get(EnqueuedRow(row, answer, slug, now), key) == Get(row, key)
  {
    if shown.Shown? {
      PatchCarries(shown.payload, now);
      hide DeriveUpdate, NewStatus, Latest;
    }
  }

  lemma MirrorAdvances(row: Row, shown: ShowAnswer, now: int)
    ensures Advances(row, MirroredRow(row, shown, now))
  {
    hide DeriveUpdate, NewStatus;
    if shown.Shown? {
      PatchFields(shown.payload, now);
    }
  }

  /** Every step of a run only advances the rows there are. */
  lemma StepAdvances(before: map<string, Row>, after: map<string, Row>, step: Step, job: string)
    requires Happens(before, after, step) && job in before
    ensures job in after && Advances(before[job], after[job])
  {
    hide Advances, EnqueuedRow, MirroredRow;
    match step
    case NewRow(_, _) => AdvancesItself(before[job]);
    case Tick(enqueueJobs, answers, slug, enqueueTimes, mirrorJobs, shown, mirrorTimes) =>
      var mid, n, raised :| EnqueueStops(before, enqueueJobs, answers, n, raised)
        && EnqueuedSoFar(before, mid, enqueueJobs, answers, slug, enqueueTimes, n)
        && if raised then after == mid else MirrorHappens(mid, after, mirrorJobs, shown, mirrorTimes);
      EnqueuePassAdvances(before, mid, enqueueJobs, answers, slug, enqueueTimes, n, job);
      if !raised {
        var m, failed :| MirrorStops(mid, mirrorJobs, shown, m, failed)
          && MirroredSoFar(mid, after, mirrorJobs, shown, mirrorTimes, m);
        MirrorPassAdvances(mid, after, mirrorJobs, shown, mirrorTimes, m, job);
        AdvancesOn(before[job], mid[job], after[job]);
      }
  }

  lemma AdvancesItself(row: Row)
    ensures Advances(row, row)
  {
  }

  lemma EnqueuePassAdvances(before: map<string, Row>, after: map<string, Row>, jobs: seq<string>, answers: seq<CreateAnswer>,
                            slug: string, times: seq<int>, n: nat, job: string)
    requires |answers| == |times| == |jobs| && Listing(before, jobs) && job in before
    requires EnqueuedSoFar(before, after, jobs, answers, slug, times, n)
    ensures Advances(before[job], after[job]) && Get(after[job], "status") == Get(before[job], "status")
  {
    hide Advances, EnqueuedRow;
    AdvancesItself(before[job]);
    if i :| 0 <= i < |jobs| && jobs[i] == job {
      EnqueueAdvances(before[job], answers[i], slug, times[i]);
    }
  }

  lemma MirrorPassAdvances(before: map<string, Row>, after: map<string, Row>, jobs: seq<string>, shown: seq<ShowAnswer>,
                           times: seq<int>, n: nat, job: string)
    requires |shown| == |times| == |jobs| && Listing(before, jobs) && job in before
    requires MirroredSoFar(before, after, jobs, shown, times, n)
    ensures Advances(before[job], after[job])
  {
    hide Advances, MirroredRow;
    AdvancesItself(before[job]);
    if i :| 0 <= i < |jobs| && jobs[i] == job {
      MirrorAdvances(before[job], shown[i], times[i]);
    }
  }

  /** Over any run: an identifier once recorded stays, the stage never goes back, a row that is not open is never patched,
      and an identifier is only recorded on a delegated row without one. */
  lemma {:induction false} RunAdvances(states: seq<map<string, Row>>, steps: seq<Step>, j: nat, k: nat, job: string)
    requires IsRun(states, steps) && j <= k < |states| && job in states[j]
    ensures job in states[k] && Advances(states[j][job], states[k][job])
  {
    hide Advances, Happens;
    if j == k {
      AdvancesItself(states[j][job]);
    } else {
      RunAdvances(states, steps, j, k - 1, job);
      assert Happens(states[k - 1], states[k], steps[k - 1]);
      StepAdvances(states[k - 1], states[k], steps[k - 1], job);
      AdvancesOn(states[j][job], states[k - 1][job], states[k][job]);
    }
  }

  /** A card in a settled column settles its row, whatever the outcome of its latest run says. */
  lemma SettledCardSettlesRow(row: Row, payload: Payload, now: int)
    requires Open(row) && HasCard(row) && Settled(Column(payload))
    ensures var row' := MirroredRow(row, Shown(payload), now);
            Terminal(row') && !Open(row') &&
            Get(row', "status") == Str(if Column(payload) == "blocked" then "blocked" else "ok")
  {
    PatchFields(payload, now);
    hide DeriveUpdate;
  }

  /** A request that raises leaves the row asking for a card, so that the next cycle requests it again. */
  lemma RaisedIsRepeated(row: Row, slug: string, now: int)
    requires Wants(row)
    ensures EnqueuedRow(row, Raised, slug, now) == row["delegate_inflight" := Num(now)] && Wants(EnqueuedRow(row, Raised, slug, now))
  {
    NoPatch(row["delegate_inflight" := Num(now)]);
  }

  /** A listed row with a settled card that the tick reaches is terminal after it and is the same in every later state. It is
      reached when no request and no earlier fetch raises. */
  lemma SettlesForGood(states: seq<map<string, Row>>, steps: seq<Step>, j: nat, k: nat, i: nat)
    requires IsRun(states, steps) && j < k < |states| && steps[j].Tick?
    requires i < |steps[j].mirrorJobs| && |steps[j].shown| == |steps[j].mirrorTimes| == |steps[j].mirrorJobs|
    requires Listing(states[j], steps[j].mirrorJobs)
    requires var row := states[j][steps[j].mirrorJobs[i]]; Open(row) && HasCard(row)
    requires steps[j].shown[i].Shown? && Settled(Column(steps[j].shown[i].payload))
    requires NoRequestRaises(steps[j]) && NoFetchRaises(steps[j], i)
    ensures var job := steps[j].mirrorJobs[i];
            job in states[j + 1] && Terminal(states[j + 1][job]) && job in states[k] && states[k][job] == states[j + 1][job]
  {
    hide *;
    RunStep(states, steps, j);
    var job, step := steps[j].mirrorJobs[i], steps[j];
    var before, after := states[j], states[j + 1];
    var mid := SettlingTick(before, after, step, i);
    StillOpen(before[job], mid[job]);
    SettledCardSettlesRow(mid[job], step.shown[i].payload, step.mirrorTimes[i]);
    RunAdvances(states, steps, j + 1, k, job);
    ClosedStays(after[job], states[k][job]);
  }

  lemma RunStep(states: seq<map<string, Row>>, steps: seq<Step>, j: nat)
    requires IsRun(states, steps) && j + 1 < |states|
    ensures |states| == |steps| + 1 && Happens(states[j], states[j + 1], steps[j])
  {
    hide Happens;
  }

  predicate NoRequestRaises(step: Step)
    requires step.Tick?
  {
    forall p :: 0 <= p < |step.answers| ==> !step.answers[p].Raised?
  }

  predicate NoFetchRaises(step: Step, i: nat)
    requires step.Tick? && i <= |step.shown|
  {
    forall p :: 0 <= p < i ==> !step.shown[p].ShowRaised?
  }

  /** What a tick that reaches the row at `i` does to it. */
  lemma SettlingTick(before: map<string, Row>, after: map<string, Row>, step: Step, i: nat) returns (mid: map<string, Row>)
    requires step.Tick? && Happens(before, after, step) && i < |step.mirrorJobs| && step.shown[i].Shown?
    requires NoRequestRaises(step) && NoFetchRaises(step, i)
    ensures var job := step.mirrorJobs[i];
            job in before && job in mid && job in after && Advances(before[job], mid[job])
            && Get(mid[job], "status") == Get(before[job], "status")
            && after[job] == MirroredRow(mid[job], step.shown[i], step.mirrorTimes[i])
  {
    hide Advances, EnqueuedRow, MirroredRow, HasCard, Open, Wants;
    var n, raised;
    mid, n, raised :| EnqueueStops(before, step.enqueueJobs, step.answers, n, raised)
      && EnqueuedSoFar(before, mid, step.enqueueJobs, step.answers, step.slug, step.enqueueTimes, n)
      && if raised then after == mid else MirrorHappens(mid, after, step.mirrorJobs, step.shown, step.mirrorTimes);
    var m, failed :| MirrorStops(mid, step.mirrorJobs, step.shown, m, failed)
      && MirroredSoFar(mid, after, step.mirrorJobs, step.shown, step.mirrorTimes, m);
    EnqueuePassAdvances(before, mid, step.enqueueJobs, step.answers, step.slug, step.enqueueTimes, n, step.mirrorJobs[i]);
  }

  lemma StillOpen(a: Row, b: Row)
    requires Advances(a, b) && Get(b, "status") == Get(a, "status") && Open(a) && HasCard(a)
    ensures Open(b) && HasCard(b)
  {
  }

  lemma ClosedStays(a: Row, b: Row)
    requires Advances(a, b) && !Open(a)
    ensures b == a
  {
  }
}
