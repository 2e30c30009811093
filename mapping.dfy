/**
 * The table of expected replies to each action and the default matcher
 * that decides whether an inbound signal answers an outbound action.
 */
module ProtocolMapping {
  import opened Wrappers
  import opened Json
  import opened ProtocolSchema

  /** The reply signal each action expects. */
  const ActionToSignal: map<string, string> := map[
    "simulation.start" := "simulation.started",
    "simulation.stop" := "simulation.stopped",
    "simulation.resume" := "simulation.resumed",
    "simulation.pause" := "simulation.paused",
    "simulation.update" := "simulation.updated",
    "simulation.export_state" := "simulation.state_exported",
    "simulation.import_state" := "simulation.state_imported",
    "map.create" := "map.created",
    "map.export" := "map.exported",
    "map.import" := "map.imported",
    "agent.create" := "agent.created",
    "agent.update" := "agent.updated",
    "agent.delete" := "agent.deleted",
    "agent.get" := "agent.state",
    "agent.list" := "agent.listed",
    "agent.describe" := "agent.described"]

  /** Two correlation ids conflict only when both are present, both non-empty and different. */
  predicate IdsConflict(requestId: Option<string>, signalId: Option<string>) {
    requestId.Some? && signalId.Some? && requestId.value != "" && signalId.value != ""
    && requestId.value != signalId.value
  }

  /** The default matcher for request `req`, applied to signal `sig`. */
  function Matches(req: Envelope, sig: Envelope): (r: bool)
    ensures r <==> (!IdsConflict(req.requestId, sig.requestId)
                    && req.name in ActionToSignal && sig.name == ActionToSignal[req.name])
  {
    if TruthyString(req.requestId) && TruthyString(sig.requestId) && sig.requestId.value != req.requestId.value
    then false
    else req.name in ActionToSignal && sig.name == ActionToSignal[req.name]
  }

  lemma EarlyActionsHaveReplies()
    ensures forall i | 0 <= i < 8 :: ActionNames[i] in ActionToSignal && ActionToSignal[ActionNames[i]] in SignalNames
  {
  }

  lemma LateActionsHaveReplies()
    ensures forall i | 8 <= i < 15 :: ActionNames[i] in ActionToSignal && ActionToSignal[ActionNames[i]] in SignalNames
  {
  }

  /** Every action of the action table expects a reply that the signal table can decode. */
  lemma EveryActionHasReply()
    ensures forall i | 0 <= i < |ActionEntries| ::
      ActionEntries[i].0 in ActionToSignal && ActionToSignal[ActionEntries[i].0] in Names(SignalEntries)
  {
    EarlyActionsHaveReplies();
    LateActionsHaveReplies();
    TableNames();
  }

  /** The extra `agent.get` entry names neither an action nor a signal of the tables. */
  lemma AgentGetIsOrphan()
    ensures "agent.get" in ActionToSignal && ActionToSignal["agent.get"] == "agent.state"
    ensures "agent.get" !in ActionNames
    ensures "agent.state" !in SignalNames
  {
  }

  /** A decoded signal always carries a name from the signal table. */
  lemma DecodedSignalNamed(raw: Json)
    requires DecodeSignal(raw).Ok?
    ensures DecodeSignal(raw).value.name in Names(SignalEntries)
  {
    var name := raw.fields["signal"].s;
    assert DecodeSignal(raw).value.name == name;
    assert SchemaFor(SignalEntries, name).Some?;
  }

  /** No decoded signal ever answers an `agent.get` request. */
  lemma AgentGetNeverAnswered(req: Envelope, raw: Json)
    requires req.name == "agent.get" && DecodeSignal(raw).Ok?
    ensures !Matches(req, DecodeSignal(raw).value)
  {
    AgentGetIsOrphan();
    DecodedSignalNamed(raw);
    TableNames();
  }

  /** No action expects `error`, so the matcher never accepts an error signal. */
  lemma ErrorNeverMatches(req: Envelope, sig: Envelope)
    requires sig.name == "error"
    ensures !Matches(req, sig)
  {
    assert forall a | a in ActionToSignal :: ActionToSignal[a] != "error";
  }

  /** When either id is absent or empty, only the name decides. */
  lemma MissingIdIgnored(req: Envelope, sig: Envelope)
    requires !TruthyString(req.requestId) || !TruthyString(sig.requestId)
    ensures Matches(req, sig) <==> (req.name in ActionToSignal && sig.name == ActionToSignal[req.name])
  {
  }

  /** A start request with id `req-abc` matches the started reply with that id, and neither a different id nor a different signal. */
  lemma StartMatcherExamples()
    ensures Matches(Envelope("simulation.start", JObj(map["tick_rate" := JNum(30.0)]), Some("req-abc")),
                    Envelope("simulation.started", JObj(map["tick_rate" := JNum(30.0), "speed" := JNum(1.0)]), Some("req-abc")))
    ensures !Matches(Envelope("simulation.start", JObj(map["tick_rate" := JNum(30.0)]), Some("req-abc")),
                     Envelope("simulation.started", JObj(map["tick_rate" := JNum(30.0), "speed" := JNum(1.0)]), Some("req-xyz")))
    ensures !Matches(Envelope("simulation.start", JObj(map["tick_rate" := JNum(30.0)]), Some("req-abc")),
                     Envelope("simulation.paused", JObj(map[]), Some("req-abc")))
  {
  }
}
