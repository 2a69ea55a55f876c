/** When a worker gives a plan chunk up, read off the steps of the run: only once
    `retriesPerChunk + 1` attempts in a row, all on that chunk, have handed on nothing. */
module FetchRetries {
  import opened Prelude
  import opened FetchPlanning
  import opened StreamPump
  import opened FetchProtocol
  import opened FetchInvariant
  import opened FetchSteps

  /** This step ends an attempt of worker `w` with a failure: the stream did not open, it
      broke or ended short with nothing to hand on, or its tail has now been handed on. */
  predicate EndsAttempt(c: Config, s: State, step: Step, w: nat)
    requires c.Valid() && Enabled(c, s, step)
  {
    match step
    case OpenFail(v) => v == w
    case Item(v, item) =>
      && v == w && !item.Received?
      && (s.workers[w].acc == [] || (EndsAt(s.workers[w].acc, s.workers[w].cursor.end) && item.Broken?))
    case Send(v) => v == w && s.workers[w].after.Fail?
    case _ => false
  }

  /** Worker `w` has handed on something in its present attempt. */
  predicate HandedOnSince(steps: seq<Step>, w: nat) {
    steps != [] &&
    match Last(steps)
    case Claim(v) => v != w && HandedOnSince(steps[..|steps| - 1], w)
    case Reconnect(v) => v != w && HandedOnSince(steps[..|steps| - 1], w)
    case Send(v) => v == w || HandedOnSince(steps[..|steps| - 1], w)
    case _ => HandedOnSince(steps[..|steps| - 1], w)
  }

  /** How many attempts of worker `w` in a row, up to the last one that ended, have failed
      on its chunk without handing on anything. */
  function Fruitless(c: Config, steps: seq<Step>, w: nat): nat
    requires c.Valid() && Run(c, steps).Some?
    decreases |steps|
  {
    if steps == [] then 0
    else
      var before := steps[..|steps| - 1];
      if Last(steps) == Claim(w) then 0
      else if !EndsAttempt(c, Run(c, before).value, Last(steps), w) then Fruitless(c, before, w)
      else if HandedOnSince(steps, w) then 0
      else Fruitless(c, before, w) + 1
  }

  /** A worker's counters say what the steps say. */
  ghost predicate Tallied(w: Worker, fruitless: nat, handedOn: bool) {
    w.Active() ==>
      w.attempt == fruitless + 1 && w.cursor.emitted == (if w.Reconnecting? then false else handedOn)
  }

  /** A turn that takes no block fails unless the chunk is complete, and hands its tail on
      first when there is one that does not end the chunk. */
  lemma TurnEnds(end: int, split: nat, acc: seq<Block>, item: StreamItem)
    ensures var r := React(end, split, acc, item);
            && (item.Received? ==> r.after.Continue?)
            && (r.emit.None? && r.after.Fail?
                <==> !item.Received? && (acc == [] || (EndsAt(acc, end) && item.Broken?)))
            && (r.emit.None? ==> !r.after.Complete?)
  {
    hide TotalSize;
  }

  /** Where a worker stands once its turn is over. */
  lemma ResolveTallies(c: Config, s: State, w: nat, cursor: Cursor, attempt: nat, after: Then, f: nat, h: bool)
    requires w < |s.workers| && s.status.Running?
    requires attempt == f + 1 && cursor.emitted == h && f <= c.plan.retriesPerChunk
    ensures var s' := Resolve(c, s, w, cursor, attempt, after);
            var f' := if !after.Fail? then f else if h then 0 else f + 1;
            && (s'.status.Running? ==> s'.workers == s.workers[w := s'.workers[w]] && Tallied(s'.workers[w], f', h))
            && (s'.status.Failed? <==> after.Fail? && f' == c.plan.retriesPerChunk + 1)
            && (s'.status.Running? || s'.status.Failed?)
            && (s'.status.Running? ==> f' <= c.plan.retriesPerChunk)
  {
  }

  lemma OwnStep(c: Config, s: State, step: Step, w: nat, f: nat, h: bool)
    requires c.Valid() && Enabled(c, s, step) && w < |s.workers|
    requires step == OpenFail(w) || step == Send(w) || (step.Item? && step.w == w)
    requires Tallied(s.workers[w], f, h) && f <= c.plan.retriesPerChunk
    requires s.workers[w].Sending? ==> s.workers[w].outgoing.blocks != []
    ensures var s' := Apply(c, s, step);
            var h' := h || step.Send?;
            var f' := if !EndsAttempt(c, s, step, w) then f else if h' then 0 else f + 1;
            && (s'.status.Running? ==> Tallied(s'.workers[w], f', h') && f' <= c.plan.retriesPerChunk)
            && (s'.status.Failed? <==> EndsAttempt(c, s, step, w) && f' == c.plan.retriesPerChunk + 1)
  {
    hide React, TotalSize, Resolve, EndsAt;
    var p := s.workers[w];
    match step
    case OpenFail(_) => ResolveTallies(c, s, w, p.cursor, p.attempt, Fail, f, h);
    case Item(_, item) =>
      TurnEnds(p.cursor.end, c.plan.splitBytes, p.acc, item);
      ResolveTallies(c, s, w, p.cursor, p.attempt, React(p.cursor.end, c.plan.splitBytes, p.acc, item).after, f, h);
    case Send(_) =>
      var k := p.cursor.plan;
      var mid := s.(channel := s.channel + [p.outgoing],
                    sent := if k < |s.sent| then s.sent[k := s.sent[k] + [p.outgoing]] else s.sent);
      ResolveTallies(c, mid, w, Advanced(p.cursor, p.outgoing.blocks), p.attempt, p.after, f, true);
  }

  /** The worker a step belongs to, if it ends a turn or an attempt. */
  predicate EndsTurn(step: Step, w: nat) {
    step == OpenFail(w) || step == Send(w) || (step.Item? && step.w == w)
  }

  /** Any other step leaves the tally alone, but for a claim, which starts a new one, and a
      reconnect, which starts a new attempt. */
  lemma OtherStep(c: Config, s: State, step: Step, w: nat, f: nat, h: bool)
    requires c.Valid() && Enabled(c, s, step) && w < |s.workers| && !EndsTurn(step, w)
    requires Tallied(s.workers[w], f, h) && Apply(c, s, step).status.Running?
    ensures |Apply(c, s, step).workers| == |s.workers|
    ensures var f' := if step == Claim(w) then 0 else f;
            var h' := h && step != Claim(w) && step != Reconnect(w);
            Tallied(Apply(c, s, step).workers[w], f', h')
  {
    hide React, TotalSize, Resolve, FetchPlan.ChunkCount, FetchPlan.ChunkStart, FetchPlan.ChunkEnd;
    if EndsTurn(step, if step.OpenFail? || step.Send? || step.Item? then step.w else w) {
      OthersTurn(c, s, step, step.w);
    }
  }

  /** A turn's end moves no other worker. */
  lemma OthersTurn(c: Config, s: State, step: Step, v: nat)
    requires c.Valid() && Enabled(c, s, step) && EndsTurn(step, v)
    ensures |Apply(c, s, step).workers| == |s.workers|
    ensures forall w | 0 <= w < |s.workers| && w != v :: Apply(c, s, step).workers[w] == s.workers[w]
  {
    hide React, TotalSize, Resolve;
    var p := s.workers[v];
    match step
    case OpenFail(_) => ResolveOthers(c, s, v, p.cursor, p.attempt, Fail);
    case Item(_, item) =>
      ResolveOthers(c, s, v, p.cursor, p.attempt, React(p.cursor.end, c.plan.splitBytes, p.acc, item).after);
    case Send(_) =>
      var k := p.cursor.plan;
      var mid := s.(channel := s.channel + [p.outgoing],
                    sent := if k < |s.sent| then s.sent[k := s.sent[k] + [p.outgoing]] else s.sent);
      if p.outgoing.blocks != [] {
        ResolveOthers(c, mid, v, Advanced(p.cursor, p.outgoing.blocks), p.attempt, p.after);
      }
  }

  lemma ResolveOthers(c: Config, s: State, v: nat, cursor: Cursor, attempt: nat, after: Then)
    requires v < |s.workers|
    ensures var s' := Resolve(c, s, v, cursor, attempt, after); s'.workers == s.workers[v := s'.workers[v]]
  {
    hide NextAttempt;
  }

  lemma HandedOnStep(steps: seq<Step>, w: nat)
    requires steps != []
    ensures var h := HandedOnSince(steps[..|steps| - 1], w);
            HandedOnSince(steps, w)
            == (Last(steps) == Send(w) || (h && Last(steps) != Claim(w) && Last(steps) != Reconnect(w)))
  {
  }

  /** In every reachable running state each worker's counters are the run's own tally, and
      within the budget. */
  lemma {:induction false} RunTallies(c: Config, steps: seq<Step>, w: nat)
    requires c.Valid() && Run(c, steps).Some? && Run(c, steps).value.status.Running?
    requires w < |Run(c, steps).value.workers|
    ensures Tallied(Run(c, steps).value.workers[w], Fruitless(c, steps, w), HandedOnSince(steps, w))
    ensures Fruitless(c, steps, w) <= c.plan.retriesPerChunk
    decreases |steps|
  {
    hide Tallied, EndsAttempt, HandedOnSince, Apply, Enabled;
    if steps == [] {
      StartTallied(c, w);
    } else {
      var before, step := steps[..|steps| - 1], Last(steps);
      var s := Run(c, before).value;
      StepKeepsCount(c, before, step);
      RunTallies(c, before, w);
      HandedOnStep(steps, w);
      var f, h := Fruitless(c, before, w), HandedOnSince(before, w);
      if EndsTurn(step, w) {
        SendsSomething(c, before, w);
        OwnStep(c, s, step, w, f, h);
      } else {
        OtherStep(c, s, step, w, f, h);
        OnlyTurnsEnd(c, s, step, w);
      }
    }
  }

  lemma OnlyTurnsEnd(c: Config, s: State, step: Step, w: nat)
    requires c.Valid() && Enabled(c, s, step) && !EndsTurn(step, w)
    ensures !EndsAttempt(c, s, step, w)
  {
    hide TotalSize;
  }

  lemma StartTallied(c: Config, w: nat)
    requires c.Valid() && w < |Init(c).workers|
    ensures Tallied(Init(c).workers[w], 0, false) && !HandedOnSince([], w)
  {
  }

  /** Steps are taken in running states, and no step changes the number of workers. */
  lemma StepKeepsCount(c: Config, before: seq<Step>, step: Step)
    requires c.Valid() && Run(c, before).Some? && Enabled(c, Run(c, before).value, step)
    ensures Run(c, before).value.status.Running?
    ensures |Apply(c, Run(c, before).value, step).workers| == |Run(c, before).value.workers|
  {
    hide SentsOk, ChannelOk, ClaimsOk, PhasesOk, ReleaseOk, PendingOk, DeliveredOk, LinkOk, AheadOk, QueueOk,
         Run, Apply;
    RunKeeps(c, before);
    StepKeeps(c, Run(c, before).value, step);
  }

  lemma SendsSomething(c: Config, steps: seq<Step>, w: nat)
    requires c.Valid() && Run(c, steps).Some? && w < |Run(c, steps).value.workers|
    ensures var p := Run(c, steps).value.workers[w]; p.Sending? ==> p.outgoing.blocks != []
  {
    hide SentsOk, ChannelOk, ClaimsOk, ReleaseOk, PendingOk, DeliveredOk, LinkOk, AheadOk, QueueOk, Run;
    RunKeeps(c, steps);
    assert PhaseOk(Run(c, steps).value.workers[w], Run(c, steps).value.floor);
  }

  /** A worker that opens, streams or sends fails the fetch exactly when that step ends an
      attempt and is the last of retries + 1 attempts in a row, on one chunk, that handed on
      nothing: every failed attempt before is retried. */
  lemma GivesUpIff(c: Config, steps: seq<Step>, w: nat)
    requires c.Valid() && steps != [] && Run(c, steps).Some? && EndsTurn(Last(steps), w)
    ensures Run(c, steps).value.status.Failed?
            <==> Fruitless(c, steps, w) == c.plan.retriesPerChunk + 1
    ensures Run(c, steps).value.status.Failed? ==>
              EndsAttempt(c, Run(c, steps[..|steps| - 1]).value, Last(steps), w)
  {
    hide Tallied, EndsAttempt, HandedOnSince, Apply;
    var before, step := steps[..|steps| - 1], Last(steps);
    StepKeepsCount(c, before, step);
    EndsOwnTurn(c, Run(c, before).value, step, w);
    RunTallies(c, before, w);
    HandedOnStep(steps, w);
    SendsSomething(c, before, w);
    OwnStep(c, Run(c, before).value, step, w, Fruitless(c, before, w), HandedOnSince(before, w));
  }

  lemma EndsOwnTurn(c: Config, s: State, step: Step, w: nat)
    requires c.Valid() && Enabled(c, s, step) && EndsTurn(step, w)
    ensures w < |s.workers|
  {
  }
}
