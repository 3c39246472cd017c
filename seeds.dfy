/** The dependency gate between upstream "build" tests and downstream "run" tests
    (testsuite/seeds.py).

    Upstream tests publish `yes` (they are relevant) and then `pass` or `fail` on a channel named
    after themselves. A downstream test drains the one subscription shared by the test process.
    In "bound" mode it first waits a bounded number of polls for `yes`. It then waits for `pass`
    (run the queued task) or `fail` (cancel). */
module Seeds {
  import opened Outcomes

  /** A published message: the channel it came on and its payload. */
  datatype Msg = Msg(channel: string, data: string)

  /** What one `get_message()` call returns: a message, or `None` when nothing is pending. */
  type Poll = Option<Msg>

  /** The outcome of a run, as the strings `'SUCCESS'`, `'FAILURE'` and `'CANCEL'`. */
  datatype Status = Success | Failure | Cancel {
    function Name(): string {
      match this
      case Success => "SUCCESS"
      case Failure => "FAILURE"
      case Cancel => "CANCEL"
    }
  }

  /** How the queued task ends when it is invoked: it returns, or `get()` raises with a text. */
  datatype TaskResult = Returned | Failed(text: string)

  /** What `perform_run` returns, or `StillWaiting` while its second phase has not ended (the
      source keeps polling for ever). */
  datatype RunResult = Finished(status: Status, message: Option<string>) | StillWaiting

  /** What `check_status` does to the running test. */
  datatype TestEffect = CancelTest(reason: Option<string>) | FailTest(reason: Option<string>) | NoEffect

  // ---------------------------------------------------------------------------
  // Status and token mappings

  /** `check_status`: cancel on `'CANCEL'`, fail on `'FAILURE'`, nothing on any other status. */
  function CheckStatus(status: string, e: Option<string>): (eff: TestEffect)
    ensures eff.CancelTest? <==> status == "CANCEL"
    ensures eff.FailTest? <==> status == "FAILURE"
    ensures eff.CancelTest? || eff.FailTest? ==> eff.reason == e
  {
    if status == "CANCEL" then CancelTest(e)
    else if status == "FAILURE" then FailTest(e)
    else NoEffect
  }

  /** `publish_relevance`: a `yes` on the caller's channel exactly when the argument is `'yes'`. */
  function PublishRelevance(channel: string, isRelevant: string): (p: Poll)
    ensures p.Some? <==> isRelevant == "yes"
    ensures p.Some? ==> p.value.channel == channel && p.value.data == "yes"
  {
    if isRelevant == "yes" then Some(Msg(channel, "yes")) else None
  }

  /** `publish_deps`: `pass` for `'SUCCESS'`, `fail` for `'FAILURE'`, nothing otherwise. */
  function PublishDeps(channel: string, status: string): (p: Poll)
    ensures p.Some? <==> status == "SUCCESS" || status == "FAILURE"
    ensures p.Some? ==> p.value.channel == channel
    ensures p.Some? ==> (p.value.data == "pass" <==> status == "SUCCESS")
    ensures p.Some? ==> (p.value.data == "fail" <==> status == "FAILURE")
  {
    if status == "SUCCESS" then Some(Msg(channel, "pass"))
    else if status == "FAILURE" then Some(Msg(channel, "fail"))
    else None
  }

  // ---------------------------------------------------------------------------
  // The shared subscription

  /** What the next `get_message()` returns once `backlog` is all that is left to deliver. */
  function Next(backlog: seq<Poll>): Poll {
    if backlog == [] then None else backlog[0]
  }

  /** The backlog after one `get_message()`. */
  function Rest(backlog: seq<Poll>): seq<Poll> {
    if backlog == [] then [] else backlog[1..]
  }

  /** The module-level subscription `p`, shared by every call of `perform_run` in the process.
      `backlog` holds the results of its future `get_message()` calls; past its end, every call
      returns `None`. A message that is read is gone, whoever reads it. */
  class Subscription {
    var backlog: seq<Poll>

    constructor (pending: seq<Poll>)
      ensures backlog == pending
    {
      backlog := pending;
    }

    /** `p.get_message()`. */
    method GetMessage() returns (m: Poll)
      modifies this
      ensures m == Next(old(backlog)) && backlog == Rest(old(backlog))
    {
      m := Next(backlog);
      backlog := Rest(backlog);
    }
  }

  // ---------------------------------------------------------------------------
  // The gate, as functions of the polled stream

  /** The poll is a message on `channel` whose payload is `token`. */
  predicate IsToken(p: Poll, channel: string, token: string) {
    p.Some? && p.value.channel == channel && p.value.data == token
  }

  /** The poll is a `pass` or a `fail` on `channel`. */
  predicate IsSignal(p: Poll, channel: string) {
    IsToken(p, channel, "pass") || IsToken(p, channel, "fail")
  }

  /** Phase one: up to `window` polls looking for `yes` on `channel`. The result says whether
      it was seen, and what is left of the stream. */
  function AwaitRelevance(stream: seq<Poll>, window: nat, channel: string): (bool, seq<Poll>)
    decreases window
  {
    if window == 0 then (false, stream)
    else if IsToken(Next(stream), channel, "yes") then (true, Rest(stream))
    else AwaitRelevance(Rest(stream), window - 1, channel)
  }

  datatype Signal = Pass | Fail

  /** How phase two ends: on the first signal, or not before the stream runs dry. */
  datatype Gate = Open(signal: Signal, rest: seq<Poll>) | Dry

  /** Phase two: poll until `pass` or `fail` arrives on `channel`. */
  function AwaitSignal(stream: seq<Poll>, channel: string): Gate
    decreases |stream|
  {
    if stream == [] then Dry
    else if IsToken(stream[0], channel, "pass") then Open(Pass, stream[1..])
    else if IsToken(stream[0], channel, "fail") then Open(Fail, stream[1..])
    else AwaitSignal(stream[1..], channel)
  }

  /** What the gate decides: run the task, cancel because upstream failed, cancel because
      upstream never declared itself relevant, or keep waiting. */
  datatype Decision = Proceed | UpstreamFailed | NotRelevant | Waiting

  function FromGate(g: Gate): (Decision, seq<Poll>) {
    match g
    case Open(Pass, rest) => (Proceed, rest)
    case Open(Fail, rest) => (UpstreamFailed, rest)
    case Dry => (Waiting, [])
  }

  /** The decision `perform_run` reaches on `stream`, and what is left of the stream. */
  function Decide(stream: seq<Poll>, bound: bool, window: nat, channel: string): (Decision, seq<Poll>) {
    if bound then
      var (seen, rest) := AwaitRelevance(stream, window, channel);
      if seen then FromGate(AwaitSignal(rest, channel)) else (NotRelevant, rest)
    else FromGate(AwaitSignal(stream, channel))
  }

  /** The message of a cancellation because `channel` failed. */
  function FailedMessage(caller: string, channel: string): string {
    caller + " will not be run due to " + channel + " failed"
  }

  /** The message of a cancellation because `channel` never declared itself relevant. */
  function NotRunMessage(caller: string, channel: string): string {
    caller + " will be cancelled due to " + channel + " is not run"
  }

  /** The pair `perform_run` returns for a decision; `task` is used only on `Proceed`. */
  function Report(d: Decision, caller: string, channel: string, task: TaskResult): RunResult {
    match d
    case Proceed => (match task
                     case Returned => Finished(Success, None)
                     case Failed(text) => Finished(Failure, Some(text)))
    case UpstreamFailed => Finished(Cancel, Some(FailedMessage(caller, channel)))
    case NotRelevant => Finished(Cancel, Some(NotRunMessage(caller, channel)))
    case Waiting => StillWaiting
  }

  // ---------------------------------------------------------------------------
  // `perform_run`

  /** `perform_run(channel, celery_task)` called from the test `caller`, with `bound` the test's
      `binded` parameter, `window` the number of polls that fit in the ten-second relevance
      window, and `task` what the queued task does if it is invoked. `invocations` counts the
      calls of `celery_task.delay()`. */
  method PerformRun(sub: Subscription, bound: bool, window: nat, channel: string, caller: string,
                    task: TaskResult)
    returns (result: RunResult, invocations: nat)
    modifies sub
    ensures var (d, rest) := Decide(old(sub.backlog), bound, window, channel);
            && result == Report(d, caller, channel, task)
            && invocations == (if d == Proceed then 1 else 0)
            && sub.backlog == rest
  {
    invocations := 0;
    var continued := false;
    if bound {
      var polls := 0;
      while polls < window && !continued
        invariant polls <= window
        invariant continued ==> AwaitRelevance(old(sub.backlog), window, channel) == (true, sub.backlog)
        invariant !continued ==>
          AwaitRelevance(old(sub.backlog), window, channel) == AwaitRelevance(sub.backlog, window - polls, channel)
        decreases window - polls
      {
        var m := sub.GetMessage();
        polls := polls + 1;
        if IsToken(m, channel, "yes") {
          continued := true;
        }
      }
      if !continued {
        result := Finished(Cancel, Some(NotRunMessage(caller, channel)));
        return;
      }
    }
    ghost var entry := sub.backlog;
    while sub.backlog != []
      invariant AwaitSignal(entry, channel) == AwaitSignal(sub.backlog, channel)
      invariant invocations == 0
      decreases |sub.backlog|
    {
      ghost var before := sub.backlog;
      var dep := sub.GetMessage();
      assert dep == before[0] && sub.backlog == before[1..];
      if IsToken(dep, channel, "pass") {
        invocations := invocations + 1;
        match task {
          case Returned => result := Finished(Success, None);
          case Failed(text) => result := Finished(Failure, Some(text));
        }
        return;
      } else if IsToken(dep, channel, "fail") {
        result := Finished(Cancel, Some(FailedMessage(caller, channel)));
        return;
      }
    }
    result := StillWaiting;
  }

  // ---------------------------------------------------------------------------
  // Properties of the gate

  /** Phase one ends with `yes` seen exactly when a `yes` on the channel is among the first
      `window` polls; the stream then resumes right after the first such `yes`. */
  lemma {:induction false} RelevanceSeenIff(stream: seq<Poll>, window: nat, channel: string)
    ensures AwaitRelevance(stream, window, channel).0 <==>
            exists k :: 0 <= k < window && k < |stream| && IsToken(stream[k], channel, "yes")
    decreases window
  {
    if window > 0 && stream != [] && !IsToken(stream[0], channel, "yes") {
      RelevanceSeenIff(stream[1..], window - 1, channel);
      if exists k :: 0 <= k < window && k < |stream| && IsToken(stream[k], channel, "yes") {
        var k :| 0 <= k < window && k < |stream| && IsToken(stream[k], channel, "yes");
        assert stream[1..][k - 1] == stream[k];
      }
      if exists k :: 0 <= k < window - 1 && k < |stream[1..]| && IsToken(stream[1..][k], channel, "yes") {
        var k :| 0 <= k < window - 1 && k < |stream[1..]| && IsToken(stream[1..][k], channel, "yes");
        assert stream[k + 1] == stream[1..][k];
      }
    } else if window > 0 && stream == [] {
      assert AwaitRelevance(stream, window, channel) == AwaitRelevance([], window - 1, channel);
      RelevanceSeenIff(stream, window - 1, channel);
    }
  }

  /** In bound mode, without a `yes` among the first `window` polls the run is cancelled with
      the not-run message, and the task is not invoked. */
  lemma BoundWithoutYesCancels(stream: seq<Poll>, window: nat, channel: string, caller: string,
                               task: TaskResult)
    requires forall k :: 0 <= k < window && k < |stream| ==> !IsToken(stream[k], channel, "yes")
    ensures Decide(stream, true, window, channel).0 == NotRelevant
    ensures Report(Decide(stream, true, window, channel).0, caller, channel, task)
            == Finished(Cancel, Some(NotRunMessage(caller, channel)))
  {
    RelevanceSeenIff(stream, window, channel);
  }

  /** Phase two ends at the first `pass` or `fail` on the channel, and the stream resumes after
      it; everything before it is discarded. */
  lemma {:induction false} FirstSignalDecides(stream: seq<Poll>, channel: string, k: nat)
    requires k < |stream| && IsSignal(stream[k], channel)
    requires forall j :: 0 <= j < k ==> !IsSignal(stream[j], channel)
    ensures AwaitSignal(stream, channel)
            == Open(if IsToken(stream[k], channel, "pass") then Pass else Fail, stream[k + 1..])
  {
    if k > 0 {
      assert !IsSignal(stream[0], channel);
      forall j | 0 <= j < k - 1 ensures !IsSignal(stream[1..][j], channel) {
        assert stream[1..][j] == stream[j + 1];
      }
      FirstSignalDecides(stream[1..], channel, k - 1);
      assert stream[1..][k - 1..] == stream[k..];
    }
  }

  /** Phase two runs dry exactly when no `pass` or `fail` on the channel is in the stream. */
  lemma {:induction false} SignalDryIff(stream: seq<Poll>, channel: string)
    ensures AwaitSignal(stream, channel).Dry? <==> forall k :: 0 <= k < |stream| ==> !IsSignal(stream[k], channel)
    decreases |stream|
  {
    if stream != [] && !IsSignal(stream[0], channel) {
      SignalDryIff(stream[1..], channel);
      if !forall k :: 0 <= k < |stream| ==> !IsSignal(stream[k], channel) {
        var k :| 0 <= k < |stream| && IsSignal(stream[k], channel);
        assert stream[1..][k - 1] == stream[k];
      }
      if !forall k :: 0 <= k < |stream[1..]| ==> !IsSignal(stream[1..][k], channel) {
        var k :| 0 <= k < |stream[1..]| && IsSignal(stream[1..][k], channel);
        assert stream[k + 1] == stream[1..][k];
      }
    }
  }

  /** A `yes` during phase two, empty polls, other channels and other payloads are discarded
      without changing how phase two ends. */
  lemma {:induction false} NoiseIgnoredInPhaseTwo(noise: seq<Poll>, stream: seq<Poll>, channel: string)
    requires forall k :: 0 <= k < |noise| ==> !IsSignal(noise[k], channel)
    ensures AwaitSignal(noise + stream, channel) == AwaitSignal(stream, channel)
    decreases |noise|
  {
    if noise != [] {
      assert (noise + stream)[0] == noise[0];
      assert (noise + stream)[1..] == noise[1..] + stream;
      NoiseIgnoredInPhaseTwo(noise[1..], stream, channel);
    } else {
      assert noise + stream == stream;
    }
  }

  /** Polls without a `yes` on the channel only use up the relevance window; a `pass` in them
      is lost. */
  lemma {:induction false} NoiseUsesUpWindow(noise: seq<Poll>, stream: seq<Poll>, window: nat, channel: string)
    requires |noise| <= window
    requires forall k :: 0 <= k < |noise| ==> !IsToken(noise[k], channel, "yes")
    ensures AwaitRelevance(noise + stream, window, channel) == AwaitRelevance(stream, window - |noise|, channel)
    decreases |noise|
  {
    if noise != [] {
      assert Next(noise + stream) == noise[0];
      assert Rest(noise + stream) == noise[1..] + stream;
      NoiseUsesUpWindow(noise[1..], stream, window - 1, channel);
    } else {
      assert noise + stream == stream;
    }
  }

  /** A `pass` read while waiting for `yes` is consumed and lost: the bound run keeps
      waiting, while an unbound run on the same stream would have run the task. */
  lemma PassLostInPhaseOne(channel: string)
    ensures Decide([Some(Msg(channel, "pass")), Some(Msg(channel, "yes"))], true, 2, channel).0 == Waiting
    ensures Decide([Some(Msg(channel, "pass")), Some(Msg(channel, "yes"))], false, 2, channel).0 == Proceed
  {
    var s := [Some(Msg(channel, "pass")), Some(Msg(channel, "yes"))];
    assert Rest(s) == [Some(Msg(channel, "yes"))];
    assert Rest(Rest(s)) == [];
  }

  /** An upstream test that declares itself relevant and then publishes its status opens the
      gate of a bound downstream run on its success and cancels it on its failure. */
  lemma UpstreamThenDownstream(channel: string, status: string, window: nat, later: seq<Poll>,
                               caller: string, task: TaskResult)
    requires window >= 1
    requires status == "SUCCESS" || status == "FAILURE"
    ensures var d := Decide([PublishRelevance(channel, "yes"), PublishDeps(channel, status)] + later,
                            true, window, channel).0;
            && (status == "SUCCESS" ==> d == Proceed && Report(d, caller, channel, task).status
                                                         == (if task.Returned? then Success else Failure))
            && (status == "FAILURE" ==> d == UpstreamFailed
                                        && Report(d, caller, channel, task)
                                           == Finished(Cancel, Some(FailedMessage(caller, channel))))
  {
    var s := [PublishRelevance(channel, "yes"), PublishDeps(channel, status)] + later;
    assert Rest(s) == [PublishDeps(channel, status)] + later;
    assert ([PublishDeps(channel, status)] + later)[1..] == later;
  }

  /** The verdict `check_status` draws from a finished run: a cancellation is reported as a
      cancellation, never as a failure, and a success has no effect. */
  lemma {:induction false} CheckStatusOfRun(d: Decision, caller: string, channel: string, task: TaskResult)
    requires Report(d, caller, channel, task).Finished?
    ensures var r := Report(d, caller, channel, task);
            CheckStatus(r.status.Name(), r.message)
            == match r.status
               case Cancel => CancelTest(r.message)
               case Failure => FailTest(r.message)
               case Success => NoEffect
    ensures d == UpstreamFailed || d == NotRelevant ==>
            CheckStatus(Report(d, caller, channel, task).status.Name(), Report(d, caller, channel, task).message).CancelTest?
  {
  }
}
