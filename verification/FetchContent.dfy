/** What the sub-chunks themselves carry in every reachable state: the right byte count, a
    permit that matches it, no more than the split budget, and `isLast` only on one that ends
    its plan chunk. */
module FetchContent {
  import opened Prelude
  import opened StreamPump
  import opened FetchProtocol

  /** Within the split budget, or a single block. */
  ghost predicate Fits(blocks: seq<Block>, split: nat) {
    TotalSize(blocks) <= split || |blocks| <= 1
  }

  ghost predicate SubContent(c: Config, sub: SubChunk) {
    && sub.bytes == TotalSize(sub.blocks) && Fits(sub.blocks, c.plan.splitBytes)
    && (sub.permit.Some? ==> sub.permit.value == Need(sub.bytes, c.AheadCap()))
    && (sub.isLast ==> EndsAt(sub.blocks, c.plan.ChunkEnd(sub.plan)))
  }

  ghost predicate FitsAfter(after: Then, split: nat) {
    after.Continue? ==> Fits(after.acc, split)
  }

  ghost predicate WorkerContent(c: Config, w: Worker) {
    && (w.Active() ==> w.cursor.end == c.plan.ChunkEnd(w.cursor.plan))
    && (w.Streaming? ==> Fits(w.acc, c.plan.splitBytes))
    && (w.Admitting? ==> Fits(w.emission.blocks, c.plan.splitBytes) && FitsAfter(w.after, c.plan.splitBytes))
    && (w.Admitting? ==> w.emission.isLast ==> EndsAt(w.emission.blocks, w.cursor.end))
    && (w.Sending? ==> FitsAfter(w.after, c.plan.splitBytes))
    && (w.Sending? ==> SubContent(c, w.outgoing))
  }

  ghost predicate WorkersContent(c: Config, ws: seq<Worker>) {
    forall id | 0 <= id < |ws| :: WorkerContent(c, ws[id])
  }

  ghost predicate SentContent(c: Config, sent: seq<seq<SubChunk>>) {
    forall k, j | 0 <= k < |sent| && 0 <= j < |sent[k]| :: SubContent(c, sent[k][j])
  }

  ghost predicate Content(c: Config, s: State) {
    WorkersContent(c, s.workers) && SentContent(c, s.sent)
  }

  lemma ContentAt(c: Config, ws: seq<Worker>, w: nat)
    requires WorkersContent(c, ws) && w < |ws|
    ensures WorkerContent(c, ws[w])
  {
  }

  lemma ContentUpdate(c: Config, ws: seq<Worker>, w: nat, after: Worker)
    requires WorkersContent(c, ws) && w < |ws| && WorkerContent(c, after)
    ensures WorkersContent(c, ws[w := after])
  {
  }

  lemma ReactContent(end: int, split: nat, acc: seq<Block>, item: StreamItem)
    requires Fits(acc, split)
    ensures var r := React(end, split, acc, item);
            && (r.emit.Some? && r.emit.value.isLast ==> EndsAt(r.emit.value.blocks, end))
            && (r.emit.Some? ==> Fits(r.emit.value.blocks, split)) && FitsAfter(r.after, split)
  {
    hide TotalSize;
    TotalSizeSnoc(acc, item);
  }

  lemma ResolveContent(c: Config, s: State, w: nat, cursor: Cursor, attempt: nat, after: Then)
    requires w < |s.workers| && WorkersContent(c, s.workers)
    requires cursor.end == c.plan.ChunkEnd(cursor.plan) && FitsAfter(after, c.plan.splitBytes)
    ensures WorkersContent(c, Resolve(c, s, w, cursor, attempt, after).workers)
    ensures Resolve(c, s, w, cursor, attempt, after).sent == s.sent
  {
    hide WorkersContent;
    ContentUpdate(c, s.workers, w, Resolve(c, s, w, cursor, attempt, after).workers[w]);
  }

  lemma AdmitContent(c: Config, s: State, w: nat, paid: bool)
    requires w < |s.workers| && s.workers[w].Admitting? && WorkersContent(c, s.workers)
    ensures WorkersContent(c, DoAdmit(c, s, w, paid).workers)
  {
    hide WorkersContent;
    ContentAt(c, s.workers, w);
    ContentUpdate(c, s.workers, w, DoAdmit(c, s, w, paid).workers[w]);
  }

  lemma SentContentSnoc(c: Config, sent: seq<seq<SubChunk>>, k: nat, sub: SubChunk)
    requires SentContent(c, sent) && k < |sent| && SubContent(c, sub)
    ensures SentContent(c, sent[k := sent[k] + [sub]])
  {
  }

  lemma SendContent(c: Config, s: State, w: nat)
    requires w < |s.workers| && s.workers[w].Sending? && Content(c, s)
    ensures Content(c, DoSend(c, s, w))
  {
    hide WorkersContent, SentContent;
    var p := s.workers[w];
    ContentAt(c, s.workers, w);
    if p.cursor.plan < |s.sent| {
      SentContentSnoc(c, s.sent, p.cursor.plan, p.outgoing);
    }
    if p.outgoing.blocks != [] {
      var mid := s.(channel := DoSend(c, s, w).channel, sent := DoSend(c, s, w).sent);
      ResolveContent(c, mid, w, Advanced(p.cursor, p.outgoing.blocks), p.attempt, p.after);
    }
  }

  lemma WorkerStepContent(c: Config, s: State, w: nat, step: Step)
    requires c.Valid() && Enabled(c, s, step) && Content(c, s)
    requires step == Connect(w) || step == OpenOk(w) || step == OpenFail(w) || step == Reconnect(w)
             || step == Claim(w) || (step.Item? && step.w == w)
    ensures Content(c, Apply(c, s, step))
  {
    hide WorkersContent, SentContent;
    ContentAt(c, s.workers, w);
    if step.OpenFail? {
      ResolveContent(c, s, w, s.workers[w].cursor, s.workers[w].attempt, Fail);
    } else if step.Item? {
      var p := s.workers[w];
      var r := React(p.cursor.end, c.plan.splitBytes, p.acc, step.item);
      ReactContent(p.cursor.end, c.plan.splitBytes, p.acc, step.item);
      if r.emit.Some? {
        ContentUpdate(c, s.workers, w, DoItem(c, s, w, step.item).workers[w]);
      } else {
        ResolveContent(c, s, w, p.cursor, p.attempt, r.after);
      }
    } else {
      ContentUpdate(c, s.workers, w, Apply(c, s, step).workers[w]);
    }
  }

  lemma StepContent(c: Config, s: State, step: Step)
    requires c.Valid() && Enabled(c, s, step) && Content(c, s)
    ensures Content(c, Apply(c, s, step))
  {
    match step
    case Connect(w) => WorkerStepContent(c, s, w, step);
    case OpenOk(w) => WorkerStepContent(c, s, w, step);
    case OpenFail(w) => WorkerStepContent(c, s, w, step);
    case Reconnect(w) => WorkerStepContent(c, s, w, step);
    case Claim(w) => WorkerStepContent(c, s, w, step);
    case Item(w, _) => WorkerStepContent(c, s, w, step);
    case Admit(w, paid) => AdmitContent(c, s, w, paid);
    case Send(w) => SendContent(c, s, w);
    case _ => hide WorkersContent, SentContent;
  }

  lemma {:induction false} RunContent(c: Config, steps: seq<Step>)
    requires c.Valid() && Run(c, steps).Some?
    ensures Content(c, Run(c, steps).value)
    decreases |steps|
  {
    if steps != [] {
      RunContent(c, steps[..|steps| - 1]);
      StepContent(c, Run(c, steps[..|steps| - 1]).value, Last(steps));
    }
  }
}
