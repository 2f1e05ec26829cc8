/** One evaluated tool loop: a model is asked in rounds, and its tool calls are executed and traced. */
module Agent {
  import opened Options
  import opened Sorting

  datatype Arm = Baseline | Candidate

  const MAX_ROUNDS: nat := 4

  /** How a run may end; the last is for a run that could not be carried out at all. */
  datatype Status =
    | Ok | BlockedCycle | FailedFinalJson | FailedInvalidArguments | FailedMalformedArguments
    | FailedMaxRounds | FailedResponse | FailedTool | FailedToolEnvelope | FailedToolLimit
    | FailedToolOutput | FailedTransport | FailedUnknownTool | FailedRunner

  datatype Case = Case(
    id: string, prompt: string, facts: seq<string>, graphState: string, coordinated: bool,
    ready: bool, entities: seq<string>)

  datatype Answer = Answer(facts: seq<string>, graphState: string)

  datatype Entry = Entry(name: string, callId: string)

  /** Injective stand-ins for the digests. */
  datatype Digest = Environment(c: Case, model: string) | Prompt(text: string) | Schema(arm: Arm)

  datatype Metadata = Metadata(environment: Digest, prompt: Digest, schema: Digest, messages: seq<string>, toolNames: seq<string>)

  function ToolNames(arm: Arm): seq<string> {
    match arm
    case Baseline => ["wiki_search", "wiki_code_search", "wiki_code_context"]
    case Candidate => ["wiki_unified_search"]
  }

  function MetadataOf(c: Case, arm: Arm, model: string): Metadata {
    Metadata(Environment(c, model), Prompt(c.prompt), Schema(arm), [c.prompt], ToolNames(arm))
  }

  function Limit(arm: Arm): (n: nat)
    ensures n == if arm.Baseline? then 12 else 4
  {
    MAX_ROUNDS * |ToolNames(arm)|
  }

  // ---------------------------------------------------------------- what a transport may answer

  datatype Arguments = NotJson | NotAnObject | Unexpected | Accepted

  datatype Effect = ToolRaises | NotADictionary | NotSerializable | Output

  /** One tool call of a reply; `opaqueCall` is one whose fields cannot even be asked for. */
  datatype Call = Call(
    opaqueCall: bool, envelope: bool, id: string, name: string, arguments: Arguments,
    digest: string, seeds: Option<seq<string>>, effect: Effect)

  datatype Reply =
    | Raises
    | NotACompletion(opaqueReply: bool, calls: seq<Call>)
    | Completion(calls: seq<Call>, answer: Option<Answer>)
  {
    function Calls(): seq<Call> { if Completion? then calls else [] }
  }

  /** What a whole run meets, round by round. */
  type Transport = nat -> Reply

  function Least(a: nat, b: nat): nat { if a < b then a else b }

  /** Whether reading seeds ends the capture: arguments that are not JSON stop it quietly. */
  predicate Stops(call: Call) { call.name == "wiki_code_context" && call.arguments.NotJson? }

  /** The seeds the capture reads off the calls of one reply, at most three of each context call. */
  function Captured(calls: seq<Call>): seq<seq<string>> {
    if calls == [] || calls[0].opaqueCall || Stops(calls[0]) then []
    else
      (if calls[0].name == "wiki_code_context" && calls[0].seeds.Some?
       then [calls[0].seeds.value[..Least(3, |calls[0].seeds.value|)]] else [])
      + Captured(calls[1..])
  }

  /** Whether the capture reaches a call it fails on. */
  predicate CaptureFails(calls: seq<Call>) {
    calls != [] && (calls[0].opaqueCall || (!Stops(calls[0]) && CaptureFails(calls[1..])))
  }

  /** The baseline's wrapper can read the reply. */
  predicate Readable(reply: Reply) {
    !reply.Raises? && !(reply.NotACompletion? && reply.opaqueReply) && !CaptureFails(reply.calls)
  }

  function CapturedFrom(reply: Reply): seq<seq<string>> {
    if reply.Raises? || (reply.NotACompletion? && reply.opaqueReply) then [] else Captured(reply.calls)
  }

  /** `_capture_context_seeds`: passes a reply on unless it fails on it, and appends the seeds it has read. */
  method Capture(reply: Reply, observed0: seq<seq<string>>) returns (passed: Reply, observed: seq<seq<string>>)
    ensures passed == if Readable(reply) then reply else Raises
    ensures observed == observed0 + CapturedFrom(reply)
  {
    hide Captured, CaptureFails;
    observed, passed := observed0, reply;
    CaptureNothing();
    if reply.Raises? || (reply.NotACompletion? && reply.opaqueReply) {
      return Raises, observed;
    }
    assert reply.calls[0..] == reply.calls;
    for i := 0 to |reply.calls|
      invariant observed0 + Captured(reply.calls) == observed + Captured(reply.calls[i..])
      invariant CaptureFails(reply.calls) == CaptureFails(reply.calls[i..])
    {
      var call := reply.calls[i];
      CaptureStep(reply.calls, i);
      if call.opaqueCall {
        return Raises, observed;
      }
      if call.name == "wiki_code_context" {
        if call.arguments.NotJson? {
          return;
        }
        if call.seeds.Some? {
          observed := observed + [call.seeds.value[..Least(3, |call.seeds.value|)]];
        }
      }
    }
    assert reply.calls[|reply.calls|..] == [];
  }

  lemma CaptureNothing()
    ensures Captured([]) == [] && !CaptureFails([])
  {
  }

  lemma CaptureStep(calls: seq<Call>, i: nat)
    requires i < |calls|
    ensures Captured(calls[i..]) ==
            if calls[i].opaqueCall || Stops(calls[i]) then []
            else if calls[i].name == "wiki_code_context" && calls[i].seeds.Some?
            then [calls[i].seeds.value[..Least(3, |calls[i].seeds.value|)]] + Captured(calls[i + 1..])
            else Captured(calls[i + 1..])
    ensures CaptureFails(calls[i..]) == (calls[i].opaqueCall || (!Stops(calls[i]) && CaptureFails(calls[i + 1..])))
  {
    assert calls[i..][0] == calls[i] && calls[i..][1..] == calls[i + 1..];
  }

  lemma {:induction false} CapturedShort(calls: seq<Call>)
    ensures forall s :: s in Captured(calls) ==> |s| <= 3
  {
    if calls != [] {
      CapturedShort(calls[1..]);
    }
  }

  // ---------------------------------------------------------------- the loop

  /** The refusal of one call, or its execution. */
  function Refusal(call: Call, arm: Arm, seen: set<(string, string)>): (r: Option<Status>)
    ensures r.Some? ==> !r.value.Ok? && !r.value.FailedTransport? && !r.value.FailedRunner? && !r.value.FailedMaxRounds?
  {
    if call.opaqueCall || !call.envelope || call.id == "" || call.name == "" then Some(FailedToolEnvelope)
    else if call.arguments.NotJson? then Some(FailedMalformedArguments)
    else if call.name !in ToolNames(arm) then Some(FailedUnknownTool)
    else if call.arguments.NotAnObject? then Some(FailedMalformedArguments)
    else if call.arguments.Unexpected? then Some(FailedInvalidArguments)
    else if (call.name, call.digest) in seen then Some(BlockedCycle)
    else if call.effect.ToolRaises? || call.effect.NotADictionary? then Some(FailedTool)
    else if call.effect.NotSerializable? then Some(FailedToolOutput)
    else None
  }

  /** A call of a tool that the arm has, in a readable envelope. */
  predicate Offered(call: Call, arm: Arm) { Enveloped(call) && call.name in ToolNames(arm) }

  predicate Enveloped(call: Call) { !call.opaqueCall && call.envelope && call.id != "" && call.name != "" }

  /** Which calls are executed, and what each refusal says about its call. */
  lemma RefusalMeaning(call: Call, arm: Arm, seen: set<(string, string)>)
    ensures var refusal := Refusal(call, arm, seen);
            var unseen := Offered(call, arm) && call.arguments.Accepted? && (call.name, call.digest) !in seen;
            && (refusal == None <==> unseen && call.effect.Output?)
            && (refusal == Some(FailedTool) <==> unseen && (call.effect.ToolRaises? || call.effect.NotADictionary?))
            && (refusal == Some(FailedToolOutput) <==> unseen && call.effect.NotSerializable?)
            && (refusal == Some(BlockedCycle) <==>
                  Offered(call, arm) && call.arguments.Accepted? && (call.name, call.digest) in seen)
            && (refusal == Some(FailedInvalidArguments) <==> Offered(call, arm) && call.arguments.Unexpected?)
            && (refusal == Some(FailedUnknownTool) <==> Enveloped(call) && !Offered(call, arm) && !call.arguments.NotJson?)
            && (refusal == Some(FailedMalformedArguments) <==>
                  (Enveloped(call) && call.arguments.NotJson?) || (Offered(call, arm) && call.arguments.NotAnObject?))
            && (refusal == Some(FailedToolEnvelope) <==> !Enveloped(call))
  {
  }

  ghost predicate Traceable(trace: seq<Entry>, arm: Arm) {
    forall e :: e in trace ==> e.name in ToolNames(arm) && e.callId != ""
  }

  function Entries(calls: seq<Call>): seq<Entry> {
    if calls == [] then [] else Entries(calls[..|calls| - 1]) + [Entry(calls[|calls| - 1].name, calls[|calls| - 1].id)]
  }

  function Signatures(calls: seq<Call>): set<(string, string)> {
    if calls == [] then {}
    else Signatures(calls[..|calls| - 1]) + {(calls[|calls| - 1].name, calls[|calls| - 1].digest)}
  }

  /** None of the calls is refused, coming after the ones before it. */
  predicate Accepted(calls: seq<Call>, arm: Arm) {
    calls == [] || (Accepted(calls[..|calls| - 1], arm)
                    && Refusal(calls[|calls| - 1], arm, Signatures(calls[..|calls| - 1])).None?)
  }

  lemma OneMoreCall(calls: seq<Call>, call: Call, arm: Arm)
    ensures Entries(calls + [call]) == Entries(calls) + [Entry(call.name, call.id)]
    ensures Signatures(calls + [call]) == Signatures(calls) + {(call.name, call.digest)}
    ensures Accepted(calls + [call], arm) <==> Accepted(calls, arm) && Refusal(call, arm, Signatures(calls)).None?
  {
    assert (calls + [call])[..|calls|] == calls;
  }

  lemma {:induction false} AcceptedIsTraceable(calls: seq<Call>, arm: Arm)
    requires Accepted(calls, arm)
    ensures Traceable(Entries(calls), arm) && |Entries(calls)| == |calls|
  {
    if calls != [] {
      AcceptedIsTraceable(calls[..|calls| - 1], arm);
    }
  }

  /** No tool is called twice with the same arguments. */
  lemma {:induction false} AcceptedOnce(calls: seq<Call>, arm: Arm)
    requires Accepted(calls, arm)
    ensures |Signatures(calls)| == |calls|
  {
    if calls != [] {
      AcceptedOnce(calls[..|calls| - 1], arm);
    }
  }

  /** The calls of one reply, in order, until one of them is refused; `done` are the calls executed so far. */
  method Execute(calls: seq<Call>, arm: Arm, trace0: seq<Entry>, seen0: set<(string, string)>, ghost done: seq<Call>)
    returns (trace: seq<Entry>, seen: set<(string, string)>, status: Option<Status>, ghost n: nat)
    requires Accepted(done, arm) && trace0 == Entries(done) && seen0 == Signatures(done)
    ensures n <= |calls| && Accepted(done + calls[..n], arm)
    ensures trace == Entries(done + calls[..n]) && seen == Signatures(done + calls[..n])
    ensures status.None? ==> n == |calls|
    ensures status.Some? ==> n < |calls| && Refusal(calls[n], arm, seen) == status
  {
    hide Refusal, Accepted, Entries, Signatures;
    trace, seen, status := trace0, seen0, None;
    assert done + calls[..0] == done;
    for i := 0 to |calls|
      invariant Accepted(done + calls[..i], arm)
      invariant trace == Entries(done + calls[..i]) && seen == Signatures(done + calls[..i]) && status.None?
    {
      status := Refusal(calls[i], arm, seen);
      if status.Some? {
        n := i;
        return;
      }
      OneMoreCall(done + calls[..i], calls[i], arm);
      assert done + calls[..i] + [calls[i]] == done + calls[..i + 1];
      seen := seen + {(calls[i].name, calls[i].digest)};
      trace := trace + [Entry(calls[i].name, calls[i].id)];
    }
    n := |calls|;
  }

  datatype Run = Run(trace: seq<Entry>, answer: Option<Answer>, status: Status, calls: nat)

  /** What every run looks like, whatever the transport did. */
  ghost predicate WellRun(r: Run, arm: Arm) {
    && !r.status.FailedRunner? && (r.answer.Some? <==> r.status.Ok?)
    && Traceable(r.trace, arm) && |r.trace| <= Limit(arm)
    && 1 <= r.calls <= MAX_ROUNDS
  }

  /** A run that goes on after the calls `done`. */
  ghost predicate Ongoing(done: seq<Call>, arm: Arm, trace: seq<Entry>, seen: set<(string, string)>) {
    Accepted(done, arm) && trace == Entries(done) && seen == Signatures(done) && |done| <= Limit(arm)
  }

  /** How a reply ends a run after the calls `done`: nothing was refused before, and the status says why it ended. */
  ghost predicate EndedBy(r: Run, reply: Reply, arm: Arm, done: seq<Call>, n: nat)
    requires n <= |reply.Calls()|
  {
    && r.trace == Entries(done + reply.Calls()[..n]) && Accepted(done + reply.Calls()[..n], arm)
    && match reply
       case Raises => r.status.FailedTransport?
       case NotACompletion(_, _) => n == 0 && r.status.FailedResponse?
       case Completion(calls, answer) =>
         if calls == [] then r.answer == answer && r.status == if answer.Some? then Ok else FailedFinalJson
         else if |calls| > Limit(arm) - |done| then n == 0 && r.status.FailedToolLimit?
         else n < |calls| && Refusal(calls[n], arm, Signatures(done + calls[..n])) == Some(r.status)
  }

  /** One round: either the run is over, or every call of the reply was executed. */
  method Round(arm: Arm, reply: Reply, trace0: seq<Entry>, seen0: set<(string, string)>, calls: nat, ghost done: seq<Call>)
    returns (ended: Option<Run>, trace: seq<Entry>, seen: set<(string, string)>, ghost n: nat)
    requires Ongoing(done, arm, trace0, seen0)
    requires 1 <= calls <= MAX_ROUNDS
    ensures n <= |reply.Calls()|
    ensures ended.Some? ==> !ended.value.status.FailedMaxRounds?
    ensures ended.Some? ==> (ended.value.status.FailedTransport? <==> reply.Raises?)
    ensures ended.Some? ==> WellRun(ended.value, arm) && ended.value.calls == calls && EndedBy(ended.value, reply, arm, done, n)
    ensures ended.None? ==>
              reply.Completion? && reply.calls != [] && Ongoing(done + reply.calls, arm, trace, seen)
  {
    hide Refusal, Accepted, Entries, Signatures, ToolNames;
    trace, seen, n := trace0, seen0, 0;
    AcceptedIsTraceable(done, arm);
    assert done + reply.Calls()[..0] == done;
    if reply.Raises? {
      return Some(Run(trace, None, FailedTransport, calls)), trace, seen, n;
    }
    if reply.NotACompletion? {
      return Some(Run(trace, None, FailedResponse, calls)), trace, seen, n;
    }
    if reply.calls == [] {
      ended := Some(Run(trace, reply.answer, if reply.answer.Some? then Ok else FailedFinalJson, calls));
      return;
    }
    if |reply.calls| > Limit(arm) - |trace| {
      return Some(Run(trace, None, FailedToolLimit, calls)), trace, seen, n;
    }
    var status: Option<Status>;
    trace, seen, status, n := Execute(reply.calls, arm, trace, seen, done);
    AcceptedIsTraceable(done + reply.calls[..n], arm);
    assert reply.calls[..|reply.calls|] == reply.calls;
    ended := if status.Some? then Some(Run(trace, None, status.value, calls)) else None;
  }

  /** The calls asked for in the first `n` rounds. */
  ghost function Asked(transport: Transport, n: nat): seq<Call> {
    if n == 0 then [] else Asked(transport, n - 1) + transport(n - 1).Calls()
  }

  /** The seeds observed in the first `n` rounds, which only the baseline's wrapper looks for. */
  ghost function Observed(arm: Arm, transport: Transport, n: nat): seq<seq<string>> {
    if n == 0 || arm.Candidate? then [] else Observed(arm, transport, n - 1) + CapturedFrom(transport(n - 1))
  }

  lemma {:induction false} ObservedShort(arm: Arm, transport: Transport, n: nat)
    ensures forall s :: s in Observed(arm, transport, n) ==> |s| <= 3
  {
    if n > 0 && arm.Baseline? {
      ObservedShort(arm, transport, n - 1);
      if transport(n - 1).NotACompletion? || transport(n - 1).Completion? {
        CapturedShort(transport(n - 1).calls);
      }
    }
  }

  /** Why a run over this transport ended; a reply that the baseline's wrapper cannot read ends it as a transport failure. */
  ghost predicate Explained(r: Run, arm: Arm, transport: Transport, n: nat)
    requires 1 <= r.calls
  {
    var reply := transport(r.calls - 1);
    var asked := Asked(transport, r.calls - 1);
    if r.status.FailedMaxRounds? then
      r.calls == MAX_ROUNDS && r.trace == Entries(Asked(transport, r.calls)) && Accepted(Asked(transport, r.calls), arm)
    else if arm.Baseline? && !Readable(reply) then
      r.status.FailedTransport? && r.trace == Entries(asked) && Accepted(asked, arm)
    else n <= |reply.Calls()| && EndedBy(r, reply, arm, asked, n)
  }

  /** One turn: the reply reaches the loop as it is, except that the baseline's wrapper may fail on it. */
  method Turn(arm: Arm, transport: Transport, round: nat, trace0: seq<Entry>, seen0: set<(string, string)>, observed0: seq<seq<string>>)
    returns (ended: Option<Run>, trace: seq<Entry>, seen: set<(string, string)>, observed: seq<seq<string>>, ghost n: nat)
    requires round < MAX_ROUNDS && Ongoing(Asked(transport, round), arm, trace0, seen0)
    requires observed0 == Observed(arm, transport, round)
    ensures observed == Observed(arm, transport, round + 1)
    ensures ended.Some? ==> WellRun(ended.value, arm) && ended.value.calls == round + 1 && Explained(ended.value, arm, transport, n)
    ensures ended.None? ==> Ongoing(Asked(transport, round + 1), arm, trace, seen)
  {
    hide Ongoing, Readable, CapturedFrom, WellRun, Accepted, Entries, Refusal;
    observed := observed0;
    var reply := transport(round);
    if arm == Baseline {
      reply, observed := Capture(reply, observed);
    }
    ended, trace, seen, n := Round(arm, reply, trace0, seen0, round + 1, Asked(transport, round));
    NothingMore(Asked(transport, round), reply);
  }

  lemma NothingMore(asked: seq<Call>, reply: Reply)
    ensures asked + reply.Calls()[..0] == asked
  {
  }

  lemma FirstRound(arm: Arm, transport: Transport)
    ensures Ongoing(Asked(transport, 0), arm, [], {})
  {
  }

  lemma OutOfRounds(arm: Arm, transport: Transport, rounds: nat, trace: seq<Entry>, seen: set<(string, string)>)
    requires rounds == MAX_ROUNDS && Ongoing(Asked(transport, rounds), arm, trace, seen)
    ensures var r := Run(trace, None, FailedMaxRounds, rounds); WellRun(r, arm) && Explained(r, arm, transport, 0)
  {
    AcceptedIsTraceable(Asked(transport, rounds), arm);
  }

  /** `run_agent_case`, with the seeds observed on the way for the baseline. */
  method RunAgentCase(arm: Arm, transport: Transport) returns (r: Run, observed: seq<seq<string>>, ghost n: nat)
    ensures WellRun(r, arm) && Explained(r, arm, transport, n)
    ensures observed == Observed(arm, transport, r.calls)
  {
    FirstRound(arm, transport);
    hide EndedBy, WellRun, Explained, Ongoing, Asked;
    var trace: seq<Entry> := [];
    var seen: set<(string, string)> := {};
    observed, n := [], 0;
    var rounds: nat := MAX_ROUNDS;
    for round := 0 to rounds
      invariant Ongoing(Asked(transport, round), arm, trace, seen) && observed == Observed(arm, transport, round)
    {
      var ended: Option<Run>;
      ended, trace, seen, observed, n := Turn(arm, transport, round, trace, seen, observed);
      if ended.Some? {
        return ended.value, observed, n;
      }
    }
    OutOfRounds(arm, transport, rounds, trace, seen);
    r, n := Run(trace, None, FailedMaxRounds, rounds), 0;
  }

  lemma {:induction false} AcceptedPrefix(a: seq<Call>, b: seq<Call>, arm: Arm)
    requires Accepted(a + b, arm)
    ensures Accepted(a, arm)
  {
    if b == [] {
      assert a + b == a;
    } else {
      assert (a + b)[..|a + b| - 1] == a + b[..|b| - 1];
      AcceptedPrefix(a, b[..|b| - 1], arm);
    }
  }

  lemma {:induction false} AcceptedFromFirst(transport: Transport, n: nat, arm: Arm)
    requires n > 0 && Accepted(Asked(transport, n), arm)
    ensures Accepted(transport(0).Calls(), arm)
  {
    if n == 1 {
      assert Asked(transport, 0) + transport(0).Calls() == transport(0).Calls();
    } else {
      AcceptedPrefix(Asked(transport, n - 1), transport(n - 1).Calls(), arm);
      AcceptedFromFirst(transport, n - 1, arm);
    }
  }

  /**
   One and the same malformed first reply is judged differently in the two arms: the baseline's wrapper fails on it,
   which excludes the pair as a transport failure, while for the candidate it is a failed run.
   */
  lemma MalformedFirstReply(r: Run, arm: Arm, transport: Transport, n: nat)
    requires 1 <= r.calls && Explained(r, arm, transport, n)
    requires transport(0).Completion? && 0 < |transport(0).calls| <= Limit(arm) && transport(0).calls[0].opaqueCall
    ensures r.calls == 1 && r.trace == []
    ensures r.status == if arm.Baseline? then FailedTransport else FailedToolEnvelope
  {
    hide Accepted, Entries, Asked, Signatures;
    NeverPast(transport, r.calls, arm);
    if r.calls > 1 {
      NeverPast(transport, r.calls - 1, arm);
      AcceptedSoFar(r, arm, transport, n);
    } else {
      JudgedAtOnce(r, arm, transport, n);
    }
  }

  lemma NeverPast(transport: Transport, n: nat, arm: Arm)
    requires n > 0 && transport(0).Completion? && transport(0).calls != [] && transport(0).calls[0].opaqueCall
    ensures !Accepted(Asked(transport, n), arm)
  {
    OpaqueIsRefused(transport(0).calls, arm);
    if Accepted(Asked(transport, n), arm) {
      AcceptedFromFirst(transport, n, arm);
    }
  }

  /** Everything before the last reply was accepted. */
  lemma AcceptedSoFar(r: Run, arm: Arm, transport: Transport, n: nat)
    requires 1 <= r.calls && Explained(r, arm, transport, n)
    ensures Accepted(Asked(transport, r.calls - 1), arm)
  {
    hide Accepted, Entries, Asked;
    var reply := transport(r.calls - 1);
    if r.status.FailedMaxRounds? {
      AskedMore(transport, r.calls - 1);
      AcceptedPrefix(Asked(transport, r.calls - 1), reply.Calls(), arm);
    } else if !(arm.Baseline? && !Readable(reply)) {
      AcceptedPrefix(Asked(transport, r.calls - 1), reply.Calls()[..n], arm);
    }
  }

  lemma AskedMore(transport: Transport, n: nat)
    ensures Asked(transport, n + 1) == Asked(transport, n) + transport(n).Calls()
  {
  }

  lemma JudgedAtOnce(r: Run, arm: Arm, transport: Transport, n: nat)
    requires r.calls == 1 && Explained(r, arm, transport, n)
    requires transport(0).Completion? && 0 < |transport(0).calls| <= Limit(arm) && transport(0).calls[0].opaqueCall
    ensures r.trace == [] && r.status == if arm.Baseline? then FailedTransport else FailedToolEnvelope
  {
    var calls := transport(0).calls;
    assert Asked(transport, 0) == [];
    if arm.Candidate? {
      assert [] + calls[..n] == calls[..n];
      if n > 0 {
        OpaqueIsRefused(calls[..n], arm);
      }
    }
  }

  lemma {:induction false} OpaqueIsRefused(calls: seq<Call>, arm: Arm)
    requires calls != [] && calls[0].opaqueCall
    ensures !Accepted(calls, arm)
  {
    if |calls| > 1 {
      OpaqueIsRefused(calls[..|calls| - 1], arm);
    }
  }
}
