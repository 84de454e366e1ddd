/** The process-wide `call_contexts` map of app.py: contexts created by the
    `/start_call` route for calls placed from the UI, created or reused when
    a media stream starts, and read by the transcript route. */
module CallRegistries {
  import opened Common
  import opened CallContexts

  /** The JSON body `/start_call` returns. */
  datatype StartCallReply = CallStarted(callSid: string) | StartCallError(error: string)

  /** The JSON body `/transcript/{call_sid}` returns. */
  datatype TranscriptReply = TranscriptFound(transcript: seq<ChatEntry>) | TranscriptError(error: string)

  /** Python's `value or fallback` on an optional string: the value unless
      it is missing or empty. */
  function OrElse(value: Option<string>, fallback: Option<string>): (r: Option<string>)
    ensures value.Some? && value.value != "" ==> r == value
    ensures (value.None? || value == Some("")) ==> r == fallback
  {
    if value.Some? && value.value != "" then value else fallback
  }

  /** `dict.get(key)`. */
  function Get(m: map<string, string>, key: string): (r: Option<string>)
    ensures r.Some? <==> key in m
    ensures r.Some? ==> r.value == m[key]
  {
    if key in m then Some(m[key]) else None
  }

  /** The context an inbound call starts with (app.py, `start` branch): the
      two messages come from the environment, and the call id is recorded. */
  function InboundContext(callSid: string, systemMessage: Option<string>, initialMessage: Option<string>): (c: CallContext)
    ensures c.callSid == Some(callSid) && c.userContext == [] && !c.callEnded
    ensures c.systemMessage == systemMessage && c.initialMessage == initialMessage
  {
    NewCallContext().(systemMessage := systemMessage, initialMessage := initialMessage, callSid := Some(callSid))
  }

  /** The context of a call placed from the UI: each message is the
      request's when present and non-empty, else the environment's. The
      initial message falls back on the variable literally named
      `Config.INITIAL_MESSAGE`. */
  function PlacedContext(callSid: string, request: map<string, string>, env: map<string, string>): (c: CallContext)
    ensures c.callSid == Some(callSid) && c.userContext == []
    ensures c.systemMessage == OrElse(Get(request, "system_message"), Get(env, "SYSTEM_MESSAGE"))
    ensures c.initialMessage == OrElse(Get(request, "initial_message"), Get(env, "Config.INITIAL_MESSAGE"))
  {
    NewCallContext().(
      systemMessage := OrElse(Get(request, "system_message"), Get(env, "SYSTEM_MESSAGE")),
      initialMessage := OrElse(Get(request, "initial_message"), Get(env, "Config.INITIAL_MESSAGE")),
      callSid := Some(callSid))
  }

  /** `call_contexts`, keyed by call id. */
  class CallRegistry {
    var contexts: map<string, CallContext>

    constructor ()
      ensures contexts == map[]
    {
      contexts := map[];
    }

    /** The `start` branch of the message processor: an unknown call id gets
        a fresh inbound context, a known one keeps its context and leaves the
        map as it was; either way the returned context is the one registered
        under the id. */
    method Attach(callSid: string, env: map<string, string>) returns (context: CallContext)
      modifies this
      ensures callSid in contexts && context == contexts[callSid]
      ensures callSid in old(contexts) ==> contexts == old(contexts)
      ensures callSid !in old(contexts) ==>
        contexts == old(contexts)[callSid := InboundContext(callSid, Get(env, "SYSTEM_MESSAGE"), Get(env, "INITIAL_MESSAGE"))]
    {
      if callSid !in contexts {
        context := NewCallContext();
        context := context.(systemMessage := Get(env, "SYSTEM_MESSAGE"));
        context := context.(initialMessage := Get(env, "INITIAL_MESSAGE"));
        context := context.(callSid := Some(callSid));
        contexts := contexts[callSid := context];
      } else {
        context := contexts[callSid];
      }
    }

    /** Writes back a registered context that the LLM service changed: the
        source shares the context object, so the service's edits show in the
        map. */
    method Share(callSid: string, context: CallContext)
      requires callSid in contexts
      modifies this
      ensures contexts == old(contexts)[callSid := context]
      ensures contexts.Keys == old(contexts).Keys
    {
      contexts := contexts[callSid := context];
    }

    /** `/start_call` with the request body `request`, the environment `env`
        and `placed`, the outcome of asking the telephony provider to place
        the call: the new call's id, or the message of the exception raised.
        A missing or empty `to_number` is refused before anything else, and a
        failed placement registers nothing. */
    method StartCall(request: map<string, string>, env: map<string, string>, placed: Result<string, string>)
      returns (reply: StartCallReply)
      modifies this
      ensures Get(request, "to_number").None? || Get(request, "to_number") == Some("") ==>
        reply == StartCallError("Missing 'to_number' in request") && contexts == old(contexts)
      ensures Get(request, "to_number").Some? && Get(request, "to_number") != Some("") && placed.Err? ==>
        reply == StartCallError("Failed to initiate call: " + placed.error) && contexts == old(contexts)
      ensures Get(request, "to_number").Some? && Get(request, "to_number") != Some("") && placed.Ok? ==>
        reply == CallStarted(placed.value)
        && contexts == old(contexts)[placed.value := PlacedContext(placed.value, request, env)]
    {
      var toNumber := Get(request, "to_number");
      var systemMessage := Get(request, "system_message");
      var initialMessage := Get(request, "initial_message");
      if toNumber.None? || toNumber.value == "" {
        return StartCallError("Missing 'to_number' in request");
      }
      match placed
      case Err(e) =>
        reply := StartCallError("Failed to initiate call: " + e);
      case Ok(callSid) =>
        var context := NewCallContext();
        contexts := contexts[callSid := context];
        context := context.(systemMessage := OrElse(systemMessage, Get(env, "SYSTEM_MESSAGE")));
        context := context.(initialMessage := OrElse(initialMessage, Get(env, "Config.INITIAL_MESSAGE")));
        context := context.(callSid := Some(callSid));
        contexts := contexts[callSid := context];
        reply := CallStarted(callSid);
    }

    /** `/transcript/{call_sid}`: the registered history, or an error for an
        unknown call. A registered context is always truthy in the source, so
        only a missing one is an error. */
    method GetTranscript(callSid: string) returns (reply: TranscriptReply)
      ensures callSid !in contexts ==> reply == TranscriptError("Call not found")
      ensures callSid in contexts ==> reply == TranscriptFound(contexts[callSid].userContext)
    {
      if callSid !in contexts {
        return TranscriptError("Call not found");
      }
      reply := TranscriptFound(contexts[callSid].userContext);
    }
  }
}
