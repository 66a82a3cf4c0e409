/** What it means for a handler to go through its program: which steps of a run are its own, and what they do. */
module TranslationPrograms {
  import opened Common
  import opened Placeholders
  import opened TranslationStore
  import opened TranslationMachine
  import opened TranslationTrace

  /** A queue delivery with the replies of the model, or an HTTP request with the answer of the queue. */
  datatype Handler = Delivering(replies: seq<Reply>) | Answering(queueFails: bool)

  /** What the statement at which the worker stands comes to for this handler. */
  predicate IsAllowed(handler: Handler, s: State, worker: Worker, outcome: Outcome) {
    match handler
    case Delivering(replies) => outcome == if worker.JobTranslating? then Answers(replies) else Succeed
    case Answering(queueFails) =>
      if worker.RequestMissedCache?
      then outcome.Latest? && IsLatestReady(s.rows, s.now, worker.key.language, outcome.key)
      else outcome == if queueFails && (worker.RequestInserted? || worker.RequestRequeueing?) then Fault else Succeed
  }

  /** If the action is one of worker `w`, it is the next step of its program. */
  predicate IsProgramStep(w: nat, handler: Handler, s: State, action: Action) {
    IsBy(w, action) ==> action.Advance? && w in s.workers && IsAllowed(handler, s, s.workers[w], action.outcome)
  }

  /** The answers that a step adds to the record. */
  function Added(s: State, t: State): seq<Response> {
    if |s.responses| <= |t.responses| then t.responses[|s.responses|..] else []
  }

  /** The answers given by worker `w` itself, after the first `start` actions of the run. */
  ghost function AnswersBy(catalogs: Catalogs, w: nat, start: nat, run: seq<Action>): seq<Response> {
    if |run| <= start then []
    else
      var before, action := run[..|run| - 1], run[|run| - 1];
      if IsBy(w, action)
      then AnswersBy(catalogs, w, start, before) + Added(Run(catalogs, INITIAL, before), Run(catalogs, INITIAL, run))
      else AnswersBy(catalogs, w, start, before)
  }

  /**
   * From `start` on, all that worker `w` does is to go on with its program: it neither crashes nor starts
   * anything else, none of its statements fails unless the handler says so, and it gives just these answers.
   */
  ghost predicate Follows(catalogs: Catalogs, w: nat, handler: Handler, start: seq<Action>, run: seq<Action>,
                          answers: seq<Response>) {
    && start <= run
    && (forall i :: |start| <= i < |run| ==> IsProgramStep(w, handler, Run(catalogs, INITIAL, run[..i]), run[i]))
    && AnswersBy(catalogs, w, |start|, run) == answers
  }

  /** Others may do anything; worker `w` does nothing. */
  predicate Idles(w: nat, start: seq<Action>, run: seq<Action>) {
    start <= run && forall i :: |start| <= i < |run| ==> !IsBy(w, run[i])
  }

  lemma {:induction false} NoAnswersWhileIdle(catalogs: Catalogs, w: nat, start: nat, run: seq<Action>)
    requires forall i :: start <= i < |run| ==> !IsBy(w, run[i])
    ensures AnswersBy(catalogs, w, start, run) == []
  {
    hide Run;
    if |run| > start { NoAnswersWhileIdle(catalogs, w, start, run[..|run| - 1]); }
  }

  lemma AnswersOfOneMore(catalogs: Catalogs, w: nat, start: nat, before: seq<Action>, run: seq<Action>)
    requires start < |run| && before == run[..|run| - 1]
    ensures AnswersBy(catalogs, w, start, run)
      == if IsBy(w, run[|run| - 1])
         then AnswersBy(catalogs, w, start, before) + Added(Run(catalogs, INITIAL, before), Run(catalogs, INITIAL, run))
         else AnswersBy(catalogs, w, start, before)
  {
    hide Run, Added, IsBy;
  }

  lemma NoAnswersYet(catalogs: Catalogs, w: nat, run: seq<Action>)
    ensures AnswersBy(catalogs, w, |run|, run) == []
  {
  }

  lemma PutTogether(first: seq<Response>, second: seq<Response>, third: seq<Response>)
    ensures (first + second) + third == first + (second + third)
    ensures first + [] == first
  {
  }

  lemma {:induction false} AnswersInTwoParts(catalogs: Catalogs, w: nat, start: nat, middle: nat, run: seq<Action>)
    requires start <= middle <= |run|
    ensures AnswersBy(catalogs, w, start, run)
         == AnswersBy(catalogs, w, start, run[..middle]) + AnswersBy(catalogs, w, middle, run)
  {
    hide *;
    if |run| == middle {
      assert run[..middle] == run;
      NoAnswersYet(catalogs, w, run);
      PutTogether(AnswersBy(catalogs, w, start, run), [], []);
    } else {
      var before := run[..|run| - 1];
      AnswersInTwoParts(catalogs, w, start, middle, before);
      assert before[..middle] == run[..middle];
      AnswersOfOneMore(catalogs, w, start, before, run);
      AnswersOfOneMore(catalogs, w, middle, before, run);
      PutTogether(AnswersBy(catalogs, w, start, run[..middle]), AnswersBy(catalogs, w, middle, before),
                  Added(Run(catalogs, INITIAL, before), Run(catalogs, INITIAL, run)));
    }
  }

  lemma FollowsOn(catalogs: Catalogs, w: nat, handler: Handler, start: seq<Action>, middle: seq<Action>,
                  run: seq<Action>, some: seq<Response>, more: seq<Response>)
    requires Follows(catalogs, w, handler, start, middle, some) && Follows(catalogs, w, handler, middle, run, more)
    ensures Follows(catalogs, w, handler, start, run, some + more)
  {
    hide Run, IsProgramStep;
    assert run[..|middle|] == middle;
    AnswersInTwoParts(catalogs, w, |start|, |middle|, run);
    forall i | |start| <= i < |run| ensures IsProgramStep(w, handler, Run(catalogs, INITIAL, run[..i]), run[i]) {
      if i < |middle| { assert run[..i] == middle[..i]; }
    }
  }

  /** A worker that has waited and then takes the next step of its program. */
  lemma StepFollows(catalogs: Catalogs, w: nat, handler: Handler, start: seq<Action>, waited: seq<Action>,
                    outcome: Outcome, answers: seq<Response>)
    requires Idles(w, start, waited)
    requires var s := Run(catalogs, INITIAL, waited);
      && IsProgramStep(w, handler, s, Advance(w, outcome))
      && Apply(catalogs, s, Advance(w, outcome)).responses == s.responses + answers
    ensures Follows(catalogs, w, handler, start, waited + [Advance(w, outcome)], answers)
  {
    hide Apply, IsAllowed;
    var run := waited + [Advance(w, outcome)];
    assert run[..|waited|] == waited;
    NoAnswersWhileIdle(catalogs, w, |start|, waited);
    var s, t := Run(catalogs, INITIAL, waited), Run(catalogs, INITIAL, run);
    assert Added(s, t) == answers;
    forall i | |start| <= i < |run| ensures IsProgramStep(w, handler, Run(catalogs, INITIAL, run[..i]), run[i]) {
      if i < |waited| { assert run[i] == waited[i]; }
    }
  }

  /** Two stretches of a program, the first without answers. */
  lemma FollowsOnSilently(catalogs: Catalogs, w: nat, handler: Handler, start: seq<Action>, middle: seq<Action>,
                          run: seq<Action>, answers: seq<Response>)
    requires Follows(catalogs, w, handler, start, middle, []) && Follows(catalogs, w, handler, middle, run, answers)
    ensures start <= middle <= run && Follows(catalogs, w, handler, start, run, answers)
  {
    hide Run, IsProgramStep, AnswersBy;
    FollowsOn(catalogs, w, handler, start, middle, run, [], answers);
    assert [] + answers == answers;
  }

  lemma NothingFollows(catalogs: Catalogs, w: nat, handler: Handler, run: seq<Action>)
    ensures Follows(catalogs, w, handler, run, run, [])
  {
  }

  // ---------- what the steps of one worker do to the table ----------

  /** Action `n` of the run is a step of worker `w`, made after the first `start` actions. */
  predicate IsOwnStep(w: nat, start: nat, run: seq<Action>, n: nat) {
    start <= n < |run| && IsBy(w, run[n])
  }

  ghost function Before(catalogs: Catalogs, run: seq<Action>, n: nat): State
    requires n <= |run|
  {
    Run(catalogs, INITIAL, run[..n])
  }

  /** No step of worker `w` changes the table. */
  ghost predicate LeavesRows(catalogs: Catalogs, w: nat, start: seq<Action>, run: seq<Action>) {
    forall n: nat :: IsOwnStep(w, |start|, run, n) ==>
        Before(catalogs, run, n + 1).rows == Before(catalogs, run, n).rows
  }

  /** In its step `n` worker `w` touches the pending row. */
  ghost predicate TouchesAt(catalogs: Catalogs, w: nat, key: Key, start: seq<Action>, run: seq<Action>, n: nat) {
    && IsOwnStep(w, |start|, run, n)
    && var s := Before(catalogs, run, n);
       Before(catalogs, run, n + 1).rows == Touched(s.rows, s.now, key, PENDING_TTL_SECONDS)
  }

  /** In its step `n` worker `w` inserts the row, which does nothing to a live one. */
  ghost predicate InsertsAt(catalogs: Catalogs, w: nat, key: Key, model: string, start: seq<Action>,
                            run: seq<Action>, n: nat) {
    && IsOwnStep(w, |start|, run, n)
    && var s := Before(catalogs, run, n);
       Before(catalogs, run, n + 1).rows == Inserted(s.rows, s.now, key, model)
  }

  ghost predicate IsLiveAt(catalogs: Catalogs, key: Key, run: seq<Action>, n: nat)
    requires n <= |run|
  {
    var s := Before(catalogs, run, n);
    Live(s.rows, s.now, key)
  }

  /** In its step `n` worker `w` releases a claim on batch `k` that is there. */
  ghost predicate ReleasesAt(catalogs: Catalogs, w: nat, key: Key, k: nat, start: seq<Action>, run: seq<Action>,
                             n: nat) {
    && IsOwnStep(w, |start|, run, n)
    && var s := Before(catalogs, run, n);
       IsReleasable(s.rows, key, k) && Before(catalogs, run, n + 1).rows == Released(s.rows, s.now, key, k)
  }

  /** In its step `n` worker `w` makes the conditional update that stores batch `k`, over the row as it is then. */
  ghost predicate StoresAt(catalogs: Catalogs, w: nat, key: Key, model: string, k: nat, messages: Messages,
                           start: seq<Action>, run: seq<Action>, n: nat) {
    && IsOwnStep(w, |start|, run, n)
    && var s := Before(catalogs, run, n);
       Before(catalogs, run, n + 1).rows
         == Written(s.rows, s.now, key, k, model, StatusAfter(catalogs, key, k), messages, k + 1)
  }

  /** Whether the row is live and carries the claim at step `n`. */
  ghost predicate IsWritableAt(catalogs: Catalogs, key: Key, k: nat, run: seq<Action>, n: nat)
    requires n <= |run|
  {
    var s := Before(catalogs, run, n);
    IsWritable(s.rows, s.now, key, k)
  }

  /** In its step `n` worker `w` puts the payload in the cache. */
  ghost predicate CachesAt(catalogs: Catalogs, w: nat, key: Key, payload: Payload, start: seq<Action>,
                           run: seq<Action>, n: nat) {
    && IsOwnStep(w, |start|, run, n)
    && var s := Before(catalogs, run, n);
       Before(catalogs, run, n + 1).cache == s.cache[key := Cached(payload, s.now + CACHE_TTL_SECONDS)]
  }

  /** What was true of a step stays true when the run goes on, or is looked at from an earlier start. */
  lemma StepsStay(catalogs: Catalogs, run: seq<Action>, longer: seq<Action>, n: nat)
    requires run <= longer && n < |run|
    ensures longer[n] == run[n]
    ensures Before(catalogs, longer, n) == Before(catalogs, run, n)
    ensures Before(catalogs, longer, n + 1) == Before(catalogs, run, n + 1)
  {
    hide Run;
    assert longer[..n] == run[..n];
    assert longer[..n + 1] == run[..n + 1];
  }

  /** The last action of a run, with the states around it. */
  lemma LastStep(catalogs: Catalogs, waited: seq<Action>, action: Action)
    ensures var run := waited + [action];
      && Before(catalogs, run, |waited|) == Run(catalogs, INITIAL, waited)
      && Before(catalogs, run, |waited| + 1) == Run(catalogs, INITIAL, run)
  {
    hide Run;
    var run := waited + [action];
    assert run[..|waited|] == waited;
    assert run[..|waited| + 1] == run;
  }

  /** Messages that have been sent stay sent. */
  lemma MessagesStay(catalogs: Catalogs, run: seq<Action>, longer: seq<Action>)
    requires run <= longer
    ensures Run(catalogs, INITIAL, run).sent <= Run(catalogs, INITIAL, longer).sent
  {
    hide Run;
    var more := longer[|run|..];
    assert longer == run + more;
    RunConcat(catalogs, INITIAL, run, more);
    TimeOnlyPasses(catalogs, Run(catalogs, INITIAL, run), more);
  }

  // ---------- single steps of a delivery ----------

  /** The step leaves the clock, the queue and the answers alone, and the cache too. */
  predicate OnlyChangesRows(s: State, t: State) {
    t.now == s.now && t.sent == s.sent && t.cache == s.cache && t.responses == s.responses
  }

  /** Where a delivery goes when it knows which batch is next, if anywhere. */
  function Next(catalogs: Catalogs, key: Key, model: string, batchIndex: nat, next: nat,
                messages: Messages): Option<Worker> {
    if next >= |BatchesOf(catalogs, key)| then Some(JobFinishing(key, model, next, messages))
    else if batchIndex < next then None
    else if batchIndex != next then Some(JobForwarding(key, model, next))
    else Some(JobClaiming(key, model, batchIndex, messages))
  }

  predicate StandsAt(s: State, w: nat, place: Option<Worker>) {
    if place.Some? then w in s.workers && s.workers[w] == place.value else w !in s.workers
  }

  lemma ProceedGoesToNext(catalogs: Catalogs, s: State, w: nat, key: Key, model: string, batchIndex: nat, next: nat,
                          messages: Messages)
    ensures var t := Proceed(catalogs, s, w, key, model, batchIndex, next, messages);
      && OnlyChangesRows(s, t) && t.rows == s.rows
      && StandsAt(t, w, Next(catalogs, key, model, batchIndex, next, messages))
  {
    hide BatchesOf;
  }

  lemma UseRowStep(catalogs: Catalogs, s: State, w: nat, key: Key, model: string, batchIndex: nat, entry: Snapshot)
    requires w in s.workers && s.workers[w] == JobRead(key, model, batchIndex, entry)
    ensures var t := Apply(catalogs, s, Advance(w, Succeed));
      var claimed := ClaimedBatchIndex(entry.nextBatchIndex);
      && OnlyChangesRows(s, t) && t.rows == s.rows
      && StandsAt(t, w,
           if claimed.None? then Next(catalogs, key, model, batchIndex, entry.nextBatchIndex, entry.messages)
           else if batchIndex != claimed.value || !IsLeaseExpired(entry, s.now) then None
           else Some(JobReleasing(key, model, batchIndex, entry.messages)))
  {
    hide BatchesOf, Proceed, Next, IsLeaseExpired;
    ProceedGoesToNext(catalogs, s, w, key, model, batchIndex, entry.nextBatchIndex, entry.messages);
  }

  lemma ReleasingStep(catalogs: Catalogs, s: State, w: nat, key: Key, model: string, k: nat, messages: Messages)
    requires w in s.workers && s.workers[w] == JobReleasing(key, model, k, messages)
    ensures var t := Apply(catalogs, s, Advance(w, Succeed));
      && OnlyChangesRows(s, t) && t.rows == Released(s.rows, s.now, key, k)
      && StandsAt(t, w, if IsReleasable(s.rows, key, k) then Next(catalogs, key, model, k, k, messages) else None)
  {
    hide BatchesOf, Proceed, Next, IsReleasable;
    var released := s.(rows := Released(s.rows, s.now, key, k));
    ProceedGoesToNext(catalogs, released, w, key, model, k, k, messages);
  }

  lemma WritingStep(catalogs: Catalogs, s: State, w: nat, key: Key, model: string, k: nat, messages: Messages)
    requires w in s.workers && s.workers[w] == JobWriting(key, model, k, messages)
    ensures var t := Apply(catalogs, s, Advance(w, Succeed));
      && OnlyChangesRows(s, t)
      && t.rows == Written(s.rows, s.now, key, k, model, StatusAfter(catalogs, key, k), messages, k + 1)
      && StandsAt(t, w,
           if !IsWritable(s.rows, s.now, key, k) then None
           else if StatusAfter(catalogs, key, k).Ready?
           then Some(JobPublishing(key, Snapshot(key, model, Ready, messages, k + 1, s.now)))
           else Some(JobEnqueueing(key, model, k + 1)))
  {
    hide IsWritable, StatusAfter, Generation, ReadGeneration;
  }

  lemma PublishingStep(catalogs: Catalogs, s: State, w: nat, key: Key, entry: Snapshot)
    requires w in s.workers && s.workers[w] == JobPublishing(key, entry)
    ensures var t := Apply(catalogs, s, Advance(w, Succeed));
      && t.now == s.now && t.rows == s.rows && t.sent == s.sent && t.responses == s.responses
      && t.cache == s.cache[key := Cached(PayloadOf(entry), s.now + CACHE_TTL_SECONDS)]
      && StandsAt(t, w, None)
  {
    hide PayloadOf, AdvanceRequest;
  }

  // ---------- single steps of a request ----------

  function AnswersOf(response: Option<Response>): seq<Response> {
    if response.Some? then [response.value] else []
  }

  /** An older translation if there is one; None stands for an error. */
  function StaleAnswer(key: Key, latest: Option<Snapshot>): Option<Response> {
    if latest.Some? then Some(Served(key, true, PayloadOf(latest.value))) else None
  }

  function PendingAnswer(key: Key, latest: Option<Snapshot>): Option<Response> {
    if latest.Some? then StaleAnswer(key, latest) else Some(Accepted(key))
  }

  /** The step leaves the clock and the cache alone, and gives these answers. */
  predicate Gives(s: State, t: State, answers: seq<Response>) {
    t.now == s.now && t.cache == s.cache && t.responses == s.responses + answers
  }

  lemma UseLatestStep(catalogs: Catalogs, s: State, w: nat, key: Key, model: string, latest: Option<Snapshot>)
    requires w in s.workers && s.workers[w] == RequestReadLatest(key, model, latest)
    ensures var t := Apply(catalogs, s, Advance(w, Succeed));
      var recent := latest.Some? && IsReadyFresh(latest.value, s.now);
      var current := latest.Some? && latest.value.key.checksum == key.checksum;
      && t.rows == s.rows && t.sent == s.sent
      && Gives(s, t, if recent && !current then AnswersOf(StaleAnswer(key, latest)) else [])
      && StandsAt(t, w,
           if current
           then Some(if recent then RequestPublishing(key, latest.value) else RequestRefreshing(key, latest.value))
           else if recent then None
           else Some(RequestInserting(key, model, latest, s.now)))
  {
    hide IsReadyFresh, PayloadOf;
  }

  lemma InsertingStep(catalogs: Catalogs, s: State, w: nat, key: Key, model: string, latest: Option<Snapshot>,
                      startedAt: int)
    requires w in s.workers && s.workers[w] == RequestInserting(key, model, latest, startedAt)
    ensures var t := Apply(catalogs, s, Advance(w, Succeed));
      && t.rows == Inserted(s.rows, s.now, key, model) && t.sent == s.sent && Gives(s, t, [])
      && StandsAt(t, w, Some(
           if Live(s.rows, s.now, key) then RequestLostInsert(key, latest)
           else RequestInserted(key, latest, Snapshot(key, model, Pending, map[], 0, startedAt))))
  {
    hide Live, NextGeneration;
  }

  lemma PendingIsAnswered(s: State, w: nat, key: Key, latest: Option<Snapshot>)
    ensures var t := AnswerPending(s, w, key, latest);
      t.rows == s.rows && t.sent == s.sent && Gives(s, t, AnswersOf(PendingAnswer(key, latest))) && StandsAt(t, w, None)
    ensures var t := FallBack(s, w, key, latest);
      t.rows == s.rows && t.sent == s.sent && Gives(s, t, AnswersOf(StaleAnswer(key, latest))) && StandsAt(t, w, None)
  {
    hide PayloadOf;
  }

  lemma StepGoesOn(s: State, w: nat, place: Worker)
    ensures var t := Goto(s, w, place);
      t.rows == s.rows && t.sent == s.sent && Gives(s, t, []) && StandsAt(t, w, Some(place))
  {
  }

  lemma UseQueuedStep(catalogs: Catalogs, s: State, w: nat, key: Key, latest: Option<Snapshot>, entry: Snapshot)
    requires w in s.workers && s.workers[w] == RequestQueued(key, latest, entry)
    ensures var t := Apply(catalogs, s, Advance(w, Succeed));
      var held := ClaimedBatchIndex(entry.nextBatchIndex).Some? && !IsLeaseExpired(entry, s.now);
      var isOver := entry.status.Pending? && (!IsPendingStale(entry, s.now) || held);
      && t.rows == s.rows && t.sent == s.sent
      && Gives(s, t, if isOver then AnswersOf(PendingAnswer(key, latest)) else [])
      && StandsAt(t, w,
           if isOver then None
           else Some(if entry.status.Ready? then RequestTouchingReady(key, latest, entry)
                     else RequestRequeueing(key, latest, entry)))
  {
    hide IsPendingStale, IsLeaseExpired, ClaimedBatchIndex, AnswerPending, PendingAnswer, Gives, StandsAt, AdvanceJob;
    PendingIsAnswered(s, w, key, latest);
    StepGoesOn(s, w, RequestTouchingReady(key, latest, entry));
    StepGoesOn(s, w, RequestRequeueing(key, latest, entry));
  }

  lemma RequeueingStep(catalogs: Catalogs, s: State, w: nat, key: Key, latest: Option<Snapshot>, entry: Snapshot,
                       queueFails: bool)
    requires w in s.workers && s.workers[w] == RequestRequeueing(key, latest, entry)
    ensures var t := Apply(catalogs, s, Advance(w, if queueFails then Fault else Succeed));
      var claimed := ClaimedBatchIndex(entry.nextBatchIndex).Some?;
      var message := QueueMessage(key, entry.model, BatchIndexFromStore(entry.nextBatchIndex));
      && t.rows == s.rows && t.sent == (if queueFails then s.sent else s.sent + {message})
      && Gives(s, t,
               if queueFails then AnswersOf(StaleAnswer(key, latest))
               else if claimed then AnswersOf(PendingAnswer(key, latest))
               else [])
      && StandsAt(t, w, if queueFails || claimed then None else Some(RequestTouchingPending(key, latest)))
  {
    hide ClaimedBatchIndex, BatchIndexFromStore, FallBack, AnswerPending, PendingAnswer, StaleAnswer, AdvanceJob;
    var message := QueueMessage(key, entry.model, BatchIndexFromStore(entry.nextBatchIndex));
    PendingIsAnswered(s, w, key, latest);
    PendingIsAnswered(s.(sent := s.sent + {message}), w, key, latest);
  }

  lemma TouchingStep(catalogs: Catalogs, s: State, w: nat, key: Key, latest: Option<Snapshot>)
    requires w in s.workers && s.workers[w] == RequestTouchingPending(key, latest)
    ensures var t := Apply(catalogs, s, Advance(w, Succeed));
      && t.rows == Touched(s.rows, s.now, key, PENDING_TTL_SECONDS) && t.sent == s.sent
      && Gives(s, t, AnswersOf(PendingAnswer(key, latest))) && StandsAt(t, w, None)
  {
    hide Touched, PayloadOf;
  }
}
