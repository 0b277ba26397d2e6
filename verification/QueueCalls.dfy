/** What was called and what it reported: a result answers the call that was made, with its
    argument. Nothing here depends on the state of the queue. */
module QueueCalls {
  import opened QueueMachine

  // The results that each call may return.
  predicate Answers(call: Call, r: Result) {
    match call
    case CallPush(m) =>
      r == PushFailed || r == Pushed(m) || (r.PushedEvicting? && r.msg == m) || (r.PushedMissing? && r.msg == m)
    case CallPop => r.Popped? || r.PopEmpty?
    case CallShow => r == ShowFailed || r.Shown?
  }

  // A call that failed because there was no memory for it; it then returns at once.
  predicate WithoutMemory(r: Result) { r.PushFailed? || r.ShowFailed? }

  // The call that a thread popping for this reason is in.
  function Cause(why: Why): Call {
    match why
    case Caller => CallPop
    case Evict(m) => CallPush(m)
  }

  // Where a thread is, and with what message, fits the call it is in.
  predicate Agrees(th: Thread) {
    if InPush(th.pc) then th.call == CallPush(th.pc.msg)
    else if InPop(th.pc) then th.call == Cause(th.pc.why)
    else th.pc.Idle? || th.pc.Fault? || th.call == CallShow
  }

  ghost predicate CallInv(s: State) {
    && (forall i :: 0 <= i < |s.threads| ==> Agrees(s.threads[i]))
    && (forall k :: 0 <= k < |s.g.done| ==> Answers(s.g.done[k].call, s.g.done[k].result))
  }

  // A step makes the chosen call if the thread was idle and stays in its call otherwise; if it
  // returns, the call it was in is recorded with an answer to it.
  ghost predicate Records(g: Shared, i: Tid, th: Thread, c: Choice, next: (Shared, Thread)) {
    && next.1.call == (if th.pc.Idle? then c.call else th.call)
    && Agrees(next.1)
    && (next.1.pc.Idle? ==>
          && |next.0.done| == |g.done| + 1 && next.0.done[..|g.done|] == g.done
          && next.0.done[|g.done|].tid == i && next.0.done[|g.done|].call == next.1.call
          && Answers(next.1.call, next.0.done[|g.done|].result)
          && (WithoutMemory(next.0.done[|g.done|].result) <==> th.pc.Idle?))
    && (th.pc.Idle? ==> (next.1.pc.Idle? <==> !c.call.CallPop? && c.alloc.None?))
    && (!next.1.pc.Idle? ==> next.0.done == g.done)
  }

  lemma IdleRecords(g: Shared, i: Tid, th: Thread, c: Choice)
    requires th.pc.Idle?
    ensures Records(g, i, th, c, ActIdle(g, i, th, c))
  {}

  lemma PushRecords(g: Shared, i: Tid, th: Thread, c: Choice)
    requires InPush(th.pc) && Agrees(th)
    ensures Records(g, i, th, c, ActPush(g, i, th, c))
  {}

  lemma PopRecords(g: Shared, i: Tid, th: Thread, c: Choice)
    requires InPop(th.pc) && Agrees(th)
    ensures Records(g, i, th, c, ActPop(g, i, th, c))
  {}

  lemma ActRecords(g: Shared, i: Tid, th: Thread, c: Choice)
    requires Agrees(th) && !th.pc.Fault?
    ensures Records(g, i, th, c, Act(g, i, th, c))
  {
    if th.pc.Idle? { IdleRecords(g, i, th, c); }
    else if InPush(th.pc) { PushRecords(g, i, th, c); }
    else if InPop(th.pc) { PopRecords(g, i, th, c); }
  }

  lemma CallsKept(s: State, i: Tid, c: Choice)
    requires CallInv(s) && Enabled(s, i, c) && !s.threads[i].pc.Fault?
    ensures CallInv(Step(s, i, c))
  {
    ActRecords(s.g, i, s.threads[i], c);
    var s' := Step(s, i, c);
    forall k | 0 <= k < |s'.g.done| ensures Answers(s'.g.done[k].call, s'.g.done[k].result) {
      if k < |s.g.done| { assert s'.g.done[..|s.g.done|][k] == s.g.done[k]; }
    }
  }
}
