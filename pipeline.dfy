/** The sequential, fail-fast pipeline shared by every orchestrator.

  Each step names a capability.  The executor discovers the agents holding it; when there is
  none the whole run stops (the orchestrators return `{"error": ...}` at once and never look at
  later steps).  Otherwise the first discovered agent is used: the step builds its payload from
  the earlier steps' outputs and calls the agent.  A remote failure is not a stop: the call
  returns an `{"error": ...}` dict, which becomes the step's output and flows on.  Only a
  Python exception raised while building the payload or reading the agent's configuration
  stops the run early; the orchestrators turn it into their own failure result.
*/
module Pipeline {
  import opened Py

  /** What a run did, in order: a discovery by capability, or a call to an agent. */
  datatype Event = Discovered(capability: string) | Invoked(agentId: string, payload: Json)

  /** One step: the capability it needs, and, given the agent chosen and the earlier outputs,
      either the payload sent and the output obtained, or the exception raised before the call. */
  datatype Step<!A> = Step(capability: string, call: (A, seq<Json>) -> Outcome<(Json, Json)>)

  datatype Stop = Finished | Missing(index: nat) | Crashed(reason: string)

  /** The agents used and the outputs obtained by the steps that ran, the trace, and why the
      run stopped. */
  datatype Exec<A> = Exec(used: seq<A>, outputs: seq<Json>, trace: seq<Event>, stop: Stop)

  /** The i-th earlier output; the executor always passes every earlier one. */
  function At(outputs: seq<Json>, i: nat): Json {
    if i < |outputs| then outputs[i] else JNull
  }

  function RunFrom<A>(discover: string -> seq<A>, idOf: A -> string, steps: seq<Step<A>>,
                      acc: Exec<A>): Exec<A>
    requires |acc.used| <= |steps|
    decreases |steps| - |acc.used|
  {
    var i := |acc.used|;
    if i == |steps| then acc
    else
      var cap := steps[i].capability;
      var found := discover(cap);
      var trace := acc.trace + [Discovered(cap)];
      if found == [] then Exec(acc.used, acc.outputs, trace, Missing(i))
      else
        match steps[i].call(found[0], acc.outputs)
        case Raised(e) => Exec(acc.used, acc.outputs, trace, Crashed(e))
        case Value(r) =>
          RunFrom(discover, idOf, steps,
                  Exec(acc.used + [found[0]], acc.outputs + [r.1], trace + [Invoked(idOf(found[0]), r.0)], Finished))
  }

  /** Runs `steps` in order against the registry's discovery function. */
  function Run<A>(discover: string -> seq<A>, idOf: A -> string, steps: seq<Step<A>>): Exec<A> {
    RunFrom(discover, idOf, steps, Exec([], [], [], Finished))
  }

  // ---------------------------------------------------------------------------------------
  // Reading a trace.

  /** The capabilities looked up, in order. */
  function Discoveries(trace: seq<Event>): seq<string> {
    if trace == [] then []
    else
      Discoveries(trace[..|trace| - 1])
        + (match trace[|trace| - 1] case Discovered(c) => [c] case Invoked(_, _) => [])
  }

  /** The agents called, in order. */
  function Invocations(trace: seq<Event>): seq<string> {
    if trace == [] then []
    else
      Invocations(trace[..|trace| - 1])
        + (match trace[|trace| - 1] case Discovered(_) => [] case Invoked(id, _) => [id])
  }

  function Capabilities<A>(steps: seq<Step<A>>): (cs: seq<string>)
    ensures |cs| == |steps|
    ensures forall j :: 0 <= j < |steps| ==> cs[j] == steps[j].capability
  {
    seq(|steps|, j requires 0 <= j < |steps| => steps[j].capability)
  }

  function Ids<A>(idOf: A -> string, used: seq<A>): (ids: seq<string>)
    ensures |ids| == |used|
    ensures forall j :: 0 <= j < |used| ==> ids[j] == idOf(used[j])
  {
    seq(|used|, j requires 0 <= j < |used| => idOf(used[j]))
  }

  /** The first `|e.used|` steps ran: each found an agent, used the first one discovered, and
      produced its output from the outputs before it; the trace holds exactly their discoveries
      and calls. */
  ghost predicate StepsRan<A>(discover: string -> seq<A>, idOf: A -> string, steps: seq<Step<A>>, e: Exec<A>) {
    var n := |e.used|;
    && n <= |steps|
    && |e.outputs| == n
    && (forall j :: 0 <= j < n ==>
          && discover(steps[j].capability) != []
          && e.used[j] == discover(steps[j].capability)[0]
          && steps[j].call(e.used[j], e.outputs[..j]).Value?
          && steps[j].call(e.used[j], e.outputs[..j]).value.1 == e.outputs[j])
    && Invocations(e.trace) == Ids(idOf, e.used)
  }

  /** What a finished run looks like: how far it got, and why it stopped there. */
  ghost predicate Ended<A>(discover: string -> seq<A>, idOf: A -> string, steps: seq<Step<A>>, e: Exec<A>) {
    var n := |e.used|;
    && StepsRan(discover, idOf, steps, e)
    && (e.stop.Finished? ==> n == |steps| && Discoveries(e.trace) == Capabilities(steps))
    && (!e.stop.Finished? ==>
          && n < |steps|
          && Discoveries(e.trace) == Capabilities(steps)[..n + 1])
    && (e.stop.Missing? ==> e.stop.index == n && discover(steps[n].capability) == [])
    && (e.stop.Crashed? ==>
          && discover(steps[n].capability) != []
          && steps[n].call(discover(steps[n].capability)[0], e.outputs) == Raised(e.stop.reason))
  }

  /** Looking up step i's capability extends the discoveries by it and calls nobody. */
  lemma Discover1<A>(steps: seq<Step<A>>, trace: seq<Event>, i: nat)
    requires i < |steps| && Discoveries(trace) == Capabilities(steps)[..i]
    ensures var t := trace + [Discovered(steps[i].capability)];
      Discoveries(t) == Capabilities(steps)[..i + 1] && Invocations(t) == Invocations(trace)
  {
    var t := trace + [Discovered(steps[i].capability)];
    assert t[..|t| - 1] == trace;
    assert Capabilities(steps)[..i + 1] == Capabilities(steps)[..i] + [steps[i].capability];
  }

  /** Calling agent `a` extends the invocations by its id. */
  lemma Invoke1<A>(idOf: A -> string, used: seq<A>, trace: seq<Event>, a: A, payload: Json)
    requires Invocations(trace) == Ids(idOf, used)
    ensures Invocations(trace + [Invoked(idOf(a), payload)]) == Ids(idOf, used + [a])
  {
    var t := trace + [Invoked(idOf(a), payload)];
    assert t[..|t| - 1] == trace;
    assert Ids(idOf, used + [a]) == Ids(idOf, used) + [idOf(a)];
  }

  /** A step that found an agent and produced an output extends what ran by one step. */
  lemma Extend1<A>(discover: string -> seq<A>, idOf: A -> string, steps: seq<Step<A>>,
                   acc: Exec<A>, trace: seq<Event>, r: (Json, Json))
    requires |acc.used| < |steps| && StepsRan(discover, idOf, steps, acc)
    requires Invocations(trace) == Invocations(acc.trace)
    requires discover(steps[|acc.used|].capability) != []
    requires steps[|acc.used|].call(discover(steps[|acc.used|].capability)[0], acc.outputs) == Value(r)
    ensures var a := discover(steps[|acc.used|].capability)[0];
      StepsRan(discover, idOf, steps, Exec(acc.used + [a], acc.outputs + [r.1], trace + [Invoked(idOf(a), r.0)], Finished))
  {
    var i := |acc.used|;
    var a := discover(steps[i].capability)[0];
    var next := Exec(acc.used + [a], acc.outputs + [r.1], trace + [Invoked(idOf(a), r.0)], Finished);
    Invoke1(idOf, acc.used, trace, a, r.0);
    forall j | 0 <= j < |next.used|
      ensures steps[j].call(next.used[j], next.outputs[..j]).Value?
      ensures steps[j].call(next.used[j], next.outputs[..j]).value.1 == next.outputs[j]
    {
      assert next.outputs[..j] == if j < i then acc.outputs[..j] else acc.outputs;
    }
  }

  lemma {:induction false} RunFromOutcome<A>(discover: string -> seq<A>, idOf: A -> string,
                                             steps: seq<Step<A>>, acc: Exec<A>)
    requires |acc.used| <= |steps| && acc.stop.Finished?
    requires StepsRan(discover, idOf, steps, acc)
    requires Discoveries(acc.trace) == Capabilities(steps)[..|acc.used|]
    ensures Ended(discover, idOf, steps, RunFrom(discover, idOf, steps, acc))
    decreases |steps| - |acc.used|
  {
    var i := |acc.used|;
    if i == |steps| {
      assert Capabilities(steps)[..i] == Capabilities(steps);
    } else {
      var cap := steps[i].capability;
      var found := discover(cap);
      var trace := acc.trace + [Discovered(cap)];
      Discover1(steps, acc.trace, i);
      if found != [] {
        match steps[i].call(found[0], acc.outputs)
        case Raised(e) =>
        case Value(r) =>
          var next := Exec(acc.used + [found[0]], acc.outputs + [r.1],
                           trace + [Invoked(idOf(found[0]), r.0)], Finished);
          Extend1(discover, idOf, steps, acc, trace, r);
          assert next.trace[..|next.trace| - 1] == trace;
          RunFromOutcome(discover, idOf, steps, next);
      }
    }
  }

  /** Every run of the executor has the shape `Ended` describes. */
  lemma RunOutcome<A>(discover: string -> seq<A>, idOf: A -> string, steps: seq<Step<A>>)
    ensures Ended(discover, idOf, steps, Run(discover, idOf, steps))
  {
    RunFromOutcome(discover, idOf, steps, Exec([], [], [], Finished));
  }

  /** Fail-fast: when step k's capability has no agent, the run stops at step k or before,
      calls at most k agents, and never looks up a later step's capability. */
  lemma FailFast<A>(discover: string -> seq<A>, idOf: A -> string, steps: seq<Step<A>>, k: nat)
    requires k < |steps| && discover(steps[k].capability) == []
    ensures var e := Run(discover, idOf, steps);
      && !e.stop.Finished?
      && |Invocations(e.trace)| <= k
      && |Discoveries(e.trace)| <= k + 1
      && Discoveries(e.trace) == Capabilities(steps)[..|Discoveries(e.trace)|]
  {
    var e := Run(discover, idOf, steps);
    RunOutcome(discover, idOf, steps);
  }

  /** Degrading: when every capability has an agent and no step raises, the run reaches the end,
      whatever the agents answered. */
  lemma RunsToEnd<A>(discover: string -> seq<A>, idOf: A -> string, steps: seq<Step<A>>)
    requires forall j :: 0 <= j < |steps| ==> discover(steps[j].capability) != []
    requires forall j, outs :: 0 <= j < |steps| && discover(steps[j].capability) != [] ==>
               steps[j].call(discover(steps[j].capability)[0], outs).Value?
    ensures var e := Run(discover, idOf, steps);
      e.stop.Finished? && |e.outputs| == |steps| && Invocations(e.trace) == Ids(idOf, e.used)
  {
    RunOutcome(discover, idOf, steps);
  }

  /** The stop is at the first step whose capability has no agent, when no step before it
      raises. */
  lemma FirstMissing<A>(discover: string -> seq<A>, idOf: A -> string, steps: seq<Step<A>>, k: nat)
    requires k < |steps| && discover(steps[k].capability) == []
    requires forall j :: 0 <= j < k ==> discover(steps[j].capability) != []
    requires forall j, outs :: 0 <= j < k && discover(steps[j].capability) != [] ==>
               steps[j].call(discover(steps[j].capability)[0], outs).Value?
    ensures Run(discover, idOf, steps).stop == Missing(k)
    ensures |Run(discover, idOf, steps).outputs| == k
  {
    RunOutcome(discover, idOf, steps);
  }

  /** In a run that reached the end, step j used the first agent discovered for its
      capability, and its output is what that call returned on the outputs before it. */
  lemma FinishedStep<A>(discover: string -> seq<A>, idOf: A -> string, steps: seq<Step<A>>, j: nat)
    requires Run(discover, idOf, steps).stop.Finished? && j < |steps|
    ensures var e := Run(discover, idOf, steps);
      && |e.used| == |steps| && |e.outputs| == |steps|
      && discover(steps[j].capability) != []
      && e.used[j] == discover(steps[j].capability)[0]
      && steps[j].call(e.used[j], e.outputs[..j]).Value?
      && steps[j].call(e.used[j], e.outputs[..j]).value.1 == e.outputs[j]
  {
    RunOutcome(discover, idOf, steps);
  }

  /** A run that reached the end used, for every step, the first agent discovered for its
      capability, and called exactly those agents in step order. */
  lemma FinishedUsed<A>(discover: string -> seq<A>, idOf: A -> string, steps: seq<Step<A>>)
    requires Run(discover, idOf, steps).stop.Finished?
    ensures var e := Run(discover, idOf, steps);
      && |e.used| == |steps| && |e.outputs| == |steps|
      && (forall j :: 0 <= j < |steps| ==> discover(steps[j].capability) != [] && e.used[j] == discover(steps[j].capability)[0])
      && Invocations(e.trace) == Ids(idOf, e.used)
  {
    RunOutcome(discover, idOf, steps);
  }
}
