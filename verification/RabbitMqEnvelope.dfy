/** Conversion between envelopes and RabbitMQ messages. */
module RabbitMqEnvelope {
  import opened Messages
  import opened Transport

  /** Header values that are not strings are kept by the broker but not read here. */
  datatype TableValue = TableString(text: string) | TableOther(encoding: string)

  datatype BasicMessage = BasicMessage(
    body: string,
    contentType: Option<string>,
    correlationId: Option<string>,
    replyTo: Option<string>,
    headerTable: Option<map<string, TableValue>>)

  function Present(text: string): Option<string> {
    if text == "" then None else Some(text)
  }

  function Table(headers: map<string, string>): map<string, TableValue> {
    map k | k in headers :: TableString(headers[k])
  }

  function StringHeaders(table: map<string, TableValue>): map<string, string> {
    map k | k in table && table[k].TableString? :: table[k].text
  }

  function ToBasic(e: Envelope): BasicMessage {
    BasicMessage(e.payload,
                 Present(e.contentType),
                 Present(e.correlationId),
                 if e.replyTo.None? then None else Present(e.replyTo.value.name),
                 if e.headers == map[] then None else Some(Table(e.headers)))
  }

  function FromBasic(m: BasicMessage): Envelope {
    Envelope(m.body,
             if m.contentType.Some? then m.contentType.value else "",
             if m.headerTable.Some? then StringHeaders(m.headerTable.value) else map[],
             if m.correlationId.Some? then m.correlationId.value else "",
             if m.replyTo.Some? then Some(Address(m.replyTo.value)) else None)
  }

  method ToBasicMessage(envelope: Envelope) returns (message: BasicMessage)
    ensures message == ToBasic(envelope)
  {
    message := BasicMessage(envelope.payload, None, None, None, None);
    if envelope.contentType != "" {
      message := message.(contentType := Some(envelope.contentType));
    }
    if envelope.correlationId != "" {
      message := message.(correlationId := Some(envelope.correlationId));
    }
    if envelope.replyTo.Some? && envelope.replyTo.value.name != "" {
      message := message.(replyTo := Some(envelope.replyTo.value.name));
    }
    if envelope.headers != map[] {
      var table: map<string, TableValue> := map[];
      var rest := envelope.headers.Keys;
      while rest != {}
        invariant rest <= envelope.headers.Keys
        invariant table == map k | k in envelope.headers.Keys - rest :: TableString(envelope.headers[k])
        decreases |rest|
      {
        var k :| k in rest;
        table := table[k := TableString(envelope.headers[k])];
        rest := rest - {k};
      }
      assert table == Table(envelope.headers);
      message := message.(headerTable := Some(table));
    }
  }

  method FromBasicMessage(message: BasicMessage) returns (envelope: Envelope)
    ensures envelope == FromBasic(message)
  {
    envelope := Envelope(message.body, "", map[], "", None);
    if message.contentType.Some? {
      envelope := envelope.(contentType := message.contentType.value);
    }
    if message.correlationId.Some? {
      envelope := envelope.(correlationId := message.correlationId.value);
    }
    if message.replyTo.Some? {
      envelope := envelope.(replyTo := Some(Address(message.replyTo.value)));
    }
    if message.headerTable.Some? {
      var table := message.headerTable.value;
      var headers: map<string, string> := map[];
      var rest := table.Keys;
      while rest != {}
        invariant rest <= table.Keys
        invariant headers == map k | k in table.Keys - rest && table[k].TableString? :: table[k].text
        decreases |rest|
      {
        var k :| k in rest;
        if table[k].TableString? {
          headers := headers[k := table[k].text];
        }
        rest := rest - {k};
      }
      assert headers == StringHeaders(table);
      envelope := envelope.(headers := headers);
    }
  }

  /** A reply address without a name does not exist on the wire. */
  function Normal(e: Envelope): Envelope {
    if e.replyTo == Some(Address("")) then e.(replyTo := None) else e
  }

  /** The round trip loses nothing but a nameless reply address, and its result is a fixed point. */
  lemma RoundTrip(e: Envelope)
    ensures FromBasic(ToBasic(e)) == Normal(e)
    ensures FromBasic(ToBasic(e)) == e <==> e.replyTo != Some(Address(""))
    ensures FromBasic(ToBasic(Normal(e))) == Normal(e)
  {
    assert StringHeaders(Table(e.headers)) == e.headers;
  }

  /** A message that was received and sent on reads the same as when it was received, up to the nameless address. */
  lemma ForwardedReadsTheSame(m: BasicMessage)
    ensures FromBasic(ToBasic(FromBasic(m))) == Normal(FromBasic(m))
  {
    RoundTrip(FromBasic(m));
  }

  /** Every set part of a message is read as it is, unset parts are empty, and exactly the string headers are kept. */
  lemma ReadsWhatIsSet(m: BasicMessage)
    ensures var e := FromBasic(m);
            && e.payload == m.body
            && (m.contentType.Some? ==> e.contentType == m.contentType.value)
            && (m.contentType.None? ==> e.contentType == "")
            && (m.correlationId.Some? ==> e.correlationId == m.correlationId.value)
            && (m.correlationId.None? ==> e.correlationId == "")
            && (m.replyTo.Some? ==> e.replyTo == Some(Address(m.replyTo.value)))
            && (m.replyTo.None? ==> e.replyTo == None)
            && (m.headerTable.None? ==> e.headers == map[])
            && (m.headerTable.Some? ==>
                  forall k, text :: k in e.headers && e.headers[k] == text <==>
                                    k in m.headerTable.value && m.headerTable.value[k] == TableString(text))
  {
  }

  /** A message holds exactly the parts of the envelope that are not empty. */
  lemma SetsWhatIsThere(e: Envelope)
    ensures var m := ToBasic(e);
            && m.body == e.payload
            && (m.contentType == if e.contentType == "" then None else Some(e.contentType))
            && (m.correlationId == if e.correlationId == "" then None else Some(e.correlationId))
            && (m.replyTo == if e.replyTo.None? || e.replyTo.value.name == "" then None else Some(e.replyTo.value.name))
            && (m.headerTable.Some? <==> e.headers != map[])
            && (m.headerTable.Some? ==>
                  && m.headerTable.value.Keys == e.headers.Keys
                  && forall k <- e.headers :: m.headerTable.value[k] == TableString(e.headers[k]))
  {
  }
}
