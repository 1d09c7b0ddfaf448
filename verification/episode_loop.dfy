/** The episode as the harness runs it: a loop over turns driving a mutable executor. */
module EpisodeLoop {
  import opened Wrappers
  import opened Text
  import opened Gates
  import opened Frozen
  import opened Episodes
  import Tracker

  /** Execute one call, decide what the agent sees of it, and tell the tracker. */
  method ExecuteOne(b: Bench, executor: FrozenCorpusExecutor, u: Burst, call: Call)
    returns (r: Result<Burst, Fault>)
    requires executor.world == b.world && executor.View() == u.exec
    modifies executor
    ensures r == OneCall(b, u, call)
    ensures r.Success? ==> executor.View() == r.value.exec
  {
    var stepIndex := executor.progress;
    var attempt := executor.Execute(call);
    assert attempt == AttemptAt(b.world, u.exec.core, call);
    var shown := attempt.observation;
    if b.show.Some? {
      var step := if attempt.advancedTask && stepIndex < |b.world.task.steps|
        then Some(b.world.task.steps[stepIndex]) else None;
      shown := b.show.value(attempt.observation, step);
    }
    assert shown == Presented(b, u.exec.core, attempt);
    var ev := Tracker.Event(attempt.route, attempt.observation, attempt.error, !executor.IsComplete());
    assert ev == EventOf(b.world, attempt, executor.View().core);
    var updated := Tracker.UpdateState(b.world.render, b.world.registry, u.tracker, ev);
    if updated.Failure? {
      return Failure(RejectedObservation);
    }
    r := Success(Burst(executor.View(), updated.value, u.shown + [shown],
                       u.failed || attempt.error.Some? || attempt.policyBlocked));
  }

  /** Execute the calls of one turn against the live executor. */
  method ExecuteCalls(b: Bench, executor: FrozenCorpusExecutor, s: Episode, calls: seq<ToolCall>)
    returns (r: Result<Burst, Fault>)
    requires executor.world == b.world && executor.View() == s.exec
    modifies executor
    ensures r == Calls(b, s, calls)
    ensures r.Success? ==> executor.View() == r.value.exec
  {
    var u := Burst(s.exec, s.tracker, [], false);
    for i := 0 to |calls|
      invariant executor.View() == u.exec
      invariant Calls(b, s, calls[..i]) == Success(u)
    {
      CallsSnoc(b, s, calls, i);
      var step := ExecuteOne(b, executor, u, CallOf(s.visible, calls[i], i == 0));
      if step.Failure? {
        CallsFail(b, s, calls, i + 1);
        return step;
      }
      u := step.value;
    }
    assert calls[..|calls|] == calls;
    return Success(u);
  }

  lemma CallsSnoc(b: Bench, s: Episode, calls: seq<ToolCall>, i: nat)
    requires i < |calls| && Calls(b, s, calls[..i]).Success?
    ensures Calls(b, s, calls[..i + 1])
         == OneCall(b, Calls(b, s, calls[..i]).value, CallOf(s.visible, calls[i], i == 0))
  {
    assert calls[..i + 1][..i] == calls[..i];
  }

  lemma {:induction false} CallsFail(b: Bench, s: Episode, calls: seq<ToolCall>, k: nat)
    requires k <= |calls| && Calls(b, s, calls[..k]).Failure?
    ensures Calls(b, s, calls) == Calls(b, s, calls[..k])
    decreases |calls|
  {
    if k < |calls| {
      assert calls[..|calls| - 1][..k] == calls[..k];
      CallsFail(b, s, calls[..|calls| - 1], k);
    } else {
      assert calls[..k] == calls;
    }
  }

  lemma {:induction false} RunFails(b: Bench, script: seq<Generated>, k: nat)
    requires k <= |script| && Run(b, script[..k]).Failure?
    ensures Run(b, script) == Run(b, script[..k])
    decreases |script|
  {
    if k < |script| {
      assert script[..|script| - 1][..k] == script[..k];
      RunFails(b, script[..|script| - 1], k);
    } else {
      assert script[..k] == script;
    }
  }

  /** Widen the visible routes by one stage. */
  method Widen(b: Bench, s: Episode) returns (wider: Episode)
    requires CanExpand(b, s)
    ensures wider == Expand(b, s)
  {
    wider := s.(stageIndex := s.stageIndex + 1);
    wider := wider.(expansions := wider.expansions + 1);
    wider := wider.(retrievalCalls := wider.retrievalCalls + 1);
    wider := wider.(visible := Stage(b, wider.stageIndex));
    wider := wider.(history := wider.history + [wider.visible]);
  }

  /** The body of the turn loop, for an agent output received while the loop runs. */
  method TakeTurn(b: Bench, executor: FrozenCorpusExecutor, before: Episode, generated: Generated)
    returns (r: Result<Episode, Fault>)
    requires executor.world == b.world && executor.View() == before.exec && !before.halted
    modifies executor
    ensures r == Turn(b, before, generated)
    ensures r.Success? ==> executor.View() == r.value.exec
  {
    hide CallTurn, Stage, Tracker.Empty;
    if !AllRegistered(b.world.registry, before.visible) {
      return Failure(UnregisteredRoute);
    }
    var s := before.(turns := before.turns + 1);
    match generated {
      case Overflow =>
        r := Success(s.(overflow := true, halted := true));
      case Malformed(text) =>
        s := Demand(b, s.(malformed := s.malformed + 1, finalText := text), text);
        r := Success(s);
      case Reply(text, calls) =>
        s := s.(finalText := text);
        if calls != [] {
          r := TakeCalls(b, executor, s.(messages := s.messages + [Assistant(text)]), calls);
        } else if executor.IsComplete() {
          r := Success(s.(halted := true));
        } else {
          s := Demand(b, s, text);
          r := Success(s);
        }
    }
  }

  /** No call was made and the task is unfinished: widen and ask again, or stop. */
  method Demand(b: Bench, before: Episode, text: string) returns (s: Episode)
    ensures s == Insist(b, before, text)
  {
    s := before;
    if CanExpand(b, s) {
      s := s.(messages := s.messages + [Assistant(text), User("TASK_INCOMPLETE")]);
      s := Widen(b, s);
    } else {
      s := s.(halted := true);
    }
  }

  /** A turn with calls: execute them, show the results, then reconsider the exposure. */
  method TakeCalls(b: Bench, executor: FrozenCorpusExecutor, before: Episode, calls: seq<ToolCall>)
    returns (r: Result<Episode, Fault>)
    requires executor.world == b.world && executor.View() == before.exec
    modifies executor
    ensures r == CallTurn(b, before, calls)
    ensures r.Success? ==> executor.View() == r.value.exec
  {
    var result := ExecuteCalls(b, executor, before, calls);
    if result.Failure? {
      return Failure(result.error);
    }
    var s, u := before, result.value;
    s := s.(exec := u.exec, tracker := u.tracker, messages := s.messages + [ToolResults(u.shown)]);
    if StateAware(b) && !executor.IsComplete() && s.retrievalCalls < 6 {
      s := Expose(s, Sorted(Take(b.rank(b.renderQuery(s.tracker)), 5)));
    } else if u.failed && CanExpand(b, s) {
      s := Widen(b, s);
    }
    return Success(s);
  }

  /** Run one episode. The script is what the agent outputs, one entry per available
      turn; the record, or the exception, is the one the specification gives. */
  method RunEpisode(b: Bench, script: seq<Generated>) returns (r: Result<Record, Fault>)
    ensures r == match Run(b, script)
                 case Failure(e) => Failure(e)
                 case Success(s) => Success(RecordOf(b, s))
  {
    assert Run(b, script[..0]) == Start(b);
    var initial := Start(b);
    if initial.Failure? {
      RunFails(b, script, 0);
      return Failure(initial.error);
    }
    var s := initial.value;
    var executor := new FrozenCorpusExecutor(b.world);
    var turn := 0;
    while turn < |script| && !s.halted
      invariant 0 <= turn <= |script|
      invariant executor.world == b.world && executor.View() == s.exec
      invariant Run(b, script[..turn]) == Success(s)
      decreases |script| - turn
    {
      assert script[..turn + 1][..turn] == script[..turn];
      var next := TakeTurn(b, executor, s, script[turn]);
      if next.Failure? {
        RunFails(b, script, turn + 1);
        return Failure(next.error);
      }
      s := next.value;
      turn := turn + 1;
    }
    if s.halted {
      HaltedStays(b, script, turn);
    } else {
      assert script[..turn] == script;
    }
    return Success(RecordOf(b, s));
  }
}
