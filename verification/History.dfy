/** What a step writes into the history of requests. */
module History {
  import opened Wire
  import opened Remap
  import opened Rewrite
  import opened Pool
  import opened Proxy

  /** The action hands out an id. */
  predicate Draws(s: State, a: Action) {
    a.Task? && a.step.Swap? && SwapSucceeds(s, a.c)
  }

  /** Entries keep what they say of the request; an action that draws adds the one it draws for. */
  ghost predicate Logs(s: State, a: Action, t: State) {
    && |t.log| == |s.log| + (if Draws(s, a) then 1 else 0)
    && (forall n :: 0 <= n < |s.log| ==>
          t.log[n].client == s.log[n].client && t.log[n].data == s.log[n].data && t.log[n].header == s.log[n].header)
    && (Draws(s, a) ==>
          var q := t.log[|s.log|];
          q.client == a.c && q.data == At(s, a.c).data && ParseRequestHeader(q.data) == Some(q.header))
  }

  lemma OtherTasksLogNothing(s: State, c: ClientId, step: TaskStep, t: State)
    requires NextTask(s, c, step) == Some(t) && !step.Swap? && !step.Put? && !step.Send? && !step.CancelTake?
    ensures t.log == s.log
  {
    hide DoSwap, DoPut, DoSend, DoCancelTake, ParseRequestHeader, Returned, Unreserved;
    if step.Connect? || step.ReadFrame? || step.EndInput? || step.Decide? || step.PushIdle? || step.NotifyOne?
       || step.TakeIdle? || step.Reserve? {
      hide DoHandshake, DoAwait, DoTimeOut, DoCheck, DoLoad, DoTallyMap, DoTallyRequest, DoCancelTallyMap,
           DoCancelTallyRequest, DoForward, DoCloseResponses;
    } else {
      hide DoConnect, DoReadFrame, DoEndInput, DoDecide, DoPushIdle, DoNotifyOne, DoTakeIdle, DoReserve;
    }
  }

  lemma SwapLogs(s: State, c: ClientId, t: State)
    requires DoSwap(s, c) == Some(t)
    ensures Logs(s, Task(c, Swap), t)
  {
    hide ParseRequestHeader, Successor;
  }

  lemma PutLogs(s: State, c: ClientId, t: State)
    requires DoPut(s, c) == Some(t)
    ensures Logs(s, Task(c, Put), t)
  {
    hide ParseRequestHeader;
  }

  lemma SendLogs(s: State, c: ClientId, t: State)
    requires DoSend(s, c) == Some(t)
    ensures Logs(s, Task(c, Send), t)
  {
    hide Forwarded;
  }

  lemma CancelLogs(s: State, c: ClientId, t: State)
    requires DoCancelTake(s, c) == Some(t)
    ensures Logs(s, Task(c, CancelTake), t)
  {
    hide OwnerOf;
  }

  lemma TaskLogs(s: State, c: ClientId, step: TaskStep, t: State)
    requires NextTask(s, c, step) == Some(t)
    ensures Logs(s, Task(c, step), t)
  {
    hide DoConnect, DoReadFrame, DoEndInput, DoDecide, DoPushIdle, DoNotifyOne, DoTakeIdle, DoReserve, DoHandshake,
         DoAwait, DoTimeOut, DoCheck, DoLoad, DoSwap, DoPut, DoTallyMap, DoTallyRequest, DoSend, DoCancelTake,
         DoCancelTallyMap, DoCancelTallyRequest, DoForward, DoCloseResponses;
    match step {
      case Swap => SwapLogs(s, c, t);
      case Put => PutLogs(s, c, t);
      case Send => SendLogs(s, c, t);
      case CancelTake => CancelLogs(s, c, t);
      case _ => OtherTasksLogNothing(s, c, step, t);
    }
  }

  lemma DeliverLogs(s: State, k: ConnId, t: State)
    requires DoDeliver(s, k) == Some(t)
    ensures Logs(s, Link(k, Deliver), t)
  {
    hide RouteResponse;
  }

  lemma FetchLogs(s: State, k: ConnId, t: State)
    requires DoFetch(s, k) == Some(t)
    ensures Logs(s, Link(k, Fetch), t)
  {
    hide ParseResponseCid, OwnerOf;
  }

  lemma LinkLogs(s: State, k: ConnId, move: LinkStep, t: State)
    requires NextLink(s, k, move) == Some(t)
    ensures Logs(s, Link(k, move), t)
  {
    hide DoDeliver, DoFetch, GetI32, PutI32, Without, OfConn;
    match move {
      case Deliver => DeliverLogs(s, k, t);
      case Fetch => FetchLogs(s, k, t);
      case _ =>
    }
  }

  lemma NextLogs(s: State, a: Action, t: State)
    requires Next(s, a) == Some(t)
    ensures Logs(s, a, t)
  {
    hide NextTask, NextLink;
    match a {
      case Task(c, step) => TaskLogs(s, c, step, t);
      case Link(k, move) => LinkLogs(s, k, move, t);
      case Reaping(_, _) =>
    }
  }
}
