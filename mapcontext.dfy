/**
 The session-bound map builder of pymaplibregl/mapcontext.py.

 A `MapContext` is a `Map` that belongs to an already rendered map widget:
 it starts with no options and an empty log, is used as an async context
 manager, and on leaving the context sends the log to the browser over the
 session as one custom message on the widget's own channel.
 */
module MapContexts {
  import opened Json
  import opened Maps

  const ChannelPrefix: string := "pymaplibregl-"

  /** A custom message: the channel it is sent on and its payload. */
  datatype Message = Message(channel: string, payload: Json)

  /**
   The web framework's session, reduced to what the builder does with it:
   the custom messages sent through it, oldest first.
   */
  class Session {
    var sent: seq<Message>

    constructor ()
      ensures sent == []
    {
      sent := [];
    }

    /** `send_custom_message`: the message is sent after all earlier ones. */
    method SendCustomMessage(channel: string, payload: Json)
      modifies this
      ensures sent == old(sent) + [Message(channel, payload)]
    {
      sent := sent + [Message(channel, payload)];
    }
  }

  /** The channel of the widget with the given id, with the id recoverable from it. */
  function Channel(id: string): (c: string)
    ensures ChannelPrefix <= c
    ensures ChannelId(c) == Some(id)
  {
    var c := ChannelPrefix + id;
    assert c[..|ChannelPrefix|] == ChannelPrefix;
    assert c[|ChannelPrefix|..] == id;
    c
  }

  /** The widget id a channel name belongs to, if it is one of this package's channels. */
  function ChannelId(channel: string): Option<string> {
    if |ChannelPrefix| <= |channel| && channel[..|ChannelPrefix|] == ChannelPrefix
    then Some(channel[|ChannelPrefix|..])
    else None
  }

  /** Two widgets with different ids never share a channel. */
  lemma ChannelInjective(a: string, b: string)
    requires Channel(a) == Channel(b)
    ensures a == b
  {
  }

  /** Reads back the payload `render` sends: the widget id and the log. */
  function DecodeEnvelope(payload: Json): Option<(string, seq<Call>)> {
    if payload.JObject? && "id" in payload.fields && "calls" in payload.fields
       && payload.fields["id"].JString? && payload.fields["calls"].JArray?
    then
      match DecodeLog(payload.fields["calls"].items)
      case Some(log) => Some((payload.fields["id"].s, log))
      case None => None
    else None
  }

  class MapContext {
    const id: string
    const session: Session
    /** The `Map` part of the context: its options and its call log. */
    const base: Map

    /** `MapContext(id_, session)`: no options and an empty log. */
    constructor (id: string, session: Session)
      ensures this.id == id && this.session == session
      ensures fresh(base) && base.options == map[] && base.calls == []
    {
      this.id := id;
      this.session := session;
      base := new Map(map[], map[]);
    }

    /**
     The message `render` sends: on the widget's channel, the id and the
     log in recorded order, and not the options.
     */
    function Envelope(): (m: Message)
      reads base
      ensures ChannelId(m.channel) == Some(id)
      ensures m.payload.JObject? && m.payload.fields.Keys == {"id", "calls"}
      ensures DecodeEnvelope(m.payload) == Some((id, base.calls))
    {
      DecodeEncodeLog(base.calls);
      Message(Channel(id), JObject(map["id" := JString(id), "calls" := JArray(EncodeLog(base.calls))]))
    }

    /** `__aenter__`: the context is the object itself. */
    method Enter() returns (self: MapContext)
      ensures self == this
    {
      self := this;
    }

    /** `render`: sends the current log as one message, changing nothing else. */
    method Render()
      modifies session
      ensures session.sent == old(session.sent) + [Envelope()]
    {
      var message := Envelope();
      session.SendCustomMessage(message.channel, message.payload);
    }

    /**
     `__aexit__`: leaving the context renders, whether or not the body
     raised (`raised`); the exception, if any, is not swallowed.
     */
    method Exit(raised: bool)
      modifies session
      ensures session.sent == old(session.sent) + [Envelope()]
    {
      Render();
    }
  }

  /**
   The reactive-update snippet that the demo app keeps disabled inside a
   string literal: inside `async with MapContext(...)` one paint property
   is set, and leaving the block would send exactly that call to the widget.
   */
  method UpdateRadius(session: Session, layerId: string, radius: Json)
    modifies session
    ensures |session.sent| == |old(session.sent)| + 1
    ensures session.sent[..|old(session.sent)|] == old(session.sent)
    ensures ChannelId(session.sent[|old(session.sent)|].channel) == Some("maplibre")
    ensures DecodeEnvelope(session.sent[|old(session.sent)|].payload)
         == Some(("maplibre", [ApplyFuncCall("setPaintProperty", [JString(layerId), JString("circle-radius"), radius])]))
  {
    var context := new MapContext("maplibre", session);
    var m := context.Enter();
    m.base.SetPaintProperty(layerId, "circle-radius", radius);
    m.Exit(false);
  }
}
