/** The pieces of the agent framework the modelled code receives and changes:
    message contents, the LLM request, and the contexts handed to tools and
    callbacks. */
module Adk {
  import opened Wrappers
  import opened Json
  import StateManager

  /** Inline binary data of a message part. */
  datatype Blob = Blob(mimeType: string, data: seq<int>)

  /** A message part: its text, its inline data, or neither (a function call or
      response part, whose payload the modelled code never inspects). */
  datatype Part = Part(text: Option<string>, inlineData: Option<Blob>)

  /** A message: who produced it and its parts. */
  datatype Content = Content(role: string, parts: seq<Part>)

  /** A text-only part. */
  function TextPart(text: string): Part {
    Part(Some(text), None)
  }

  /** The request about to be sent to the model; before-model callbacks edit it. */
  class LlmRequest {
    var contents: seq<Content>

    constructor (contents: seq<Content>)
      ensures this.contents == contents
    {
      this.contents := contents;
    }
  }

  /** The context of a tool call or of a callback: the session state (apart
      from the artifact ledger, kept in `ledger`), the `actions.escalate` flag
      (unset reads as false), and what the state manager reads about the
      current invocation. */
  class ToolContext {
    var state: Dict
    var escalate: bool
    const invocation: StateManager.Invocation
    const ledger: StateManager.Ledger

    constructor (state: Dict, invocation: StateManager.Invocation, ledger: StateManager.Ledger)
      ensures this.state == state && !escalate
      ensures this.invocation == invocation && this.ledger == ledger
    {
      this.state := state;
      this.escalate := false;
      this.invocation := invocation;
      this.ledger := ledger;
    }
  }
}
