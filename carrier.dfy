/** The trace carrier: a flat string map that travels in the SQS message
    attributes beside the body. A receiving stage reads it back out of the
    attributes; a sending stage writes the tracer's carrier into them, next to a
    `correlation-id` attribute. */
module Carrier {
  import opened Pipeline

  type TextMap = map<string, string>

  /** The attribute that repeats the correlation id outside the body. */
  const CorrelationKey := "correlation-id"

  function StringAttribute(v: string): AttributeValue {
    AttributeValue("String", Some(v))
  }

  /** The key/value pairs of the attributes that carry a string value. */
  function StringValues(attrs: Attributes): TextMap {
    map k | k in attrs && attrs[k].stringValue.Some? :: attrs[k].stringValue.value
  }

  /** Fills the carrier from the received attributes, one attribute at a time. */
  method ExtractCarrier(attrs: Attributes) returns (carrier: TextMap)
    ensures forall k :: k in carrier <==> k in attrs && attrs[k].stringValue.Some?
    ensures forall k :: k in carrier ==> carrier[k] == attrs[k].stringValue.value
    ensures carrier == StringValues(attrs)
  {
    carrier := map[];
    var rest := attrs.Keys;
    while rest != {}
      invariant rest <= attrs.Keys
      invariant forall k :: k in carrier <==> k in attrs && k !in rest && attrs[k].stringValue.Some?
      invariant forall k :: k in carrier ==> carrier[k] == attrs[k].stringValue.value
      decreases rest
    {
      var k :| k in rest;
      if attrs[k].stringValue.Some? {
        carrier := carrier[k := attrs[k].stringValue.value];
      }
      rest := rest - {k};
    }
  }

  /** The attributes a stage sends: `correlation-id`, then every carrier entry,
      which wins on a key collision. */
  function OutgoingAttributes(correlationId: string, carrier: TextMap): Attributes {
    map[CorrelationKey := StringAttribute(correlationId)] + map k | k in carrier :: StringAttribute(carrier[k])
  }

  /** Builds the outgoing attributes: the `correlation-id` entry first, then the
      carrier entries one at a time. */
  method BuildAttributes(correlationId: string, carrier: TextMap) returns (attrs: Attributes)
    ensures attrs.Keys == carrier.Keys + {CorrelationKey}
    ensures forall k :: k in carrier ==> attrs[k] == StringAttribute(carrier[k])
    ensures CorrelationKey !in carrier ==> attrs[CorrelationKey] == StringAttribute(correlationId)
    ensures attrs == OutgoingAttributes(correlationId, carrier)
  {
    attrs := map[CorrelationKey := StringAttribute(correlationId)];
    var rest := carrier.Keys;
    while rest != {}
      invariant rest <= carrier.Keys
      invariant attrs.Keys == {CorrelationKey} + (carrier.Keys - rest)
      invariant forall k :: k in carrier && k !in rest ==> attrs[k] == StringAttribute(carrier[k])
      invariant CorrelationKey in rest || CorrelationKey !in carrier ==> attrs[CorrelationKey] == StringAttribute(correlationId)
      decreases rest
    {
      var k :| k in rest;
      attrs := attrs[k := StringAttribute(carrier[k])];
      rest := rest - {k};
    }
  }

  /** What the next stage extracts from the attributes a stage sent: the carrier
      it sent, plus `correlation-id` unless the carrier itself had that key. */
  lemma CarrierAcrossHop(correlationId: string, carrier: TextMap)
    ensures StringValues(OutgoingAttributes(correlationId, carrier)) == map[CorrelationKey := correlationId] + carrier
  {
    var got := StringValues(OutgoingAttributes(correlationId, carrier));
    var want := map[CorrelationKey := correlationId] + carrier;
    assert got.Keys == want.Keys;
    forall k | k in got ensures got[k] == want[k] {
    }
  }
}
