/** Capturing a vendor stream, storing it as one object, and replaying it to streaming and plain readers. */
module Streaming {
  import opened Types
  import opened Json
  import opened JsonText
  import opened JsonReader
  import opened JsonReading
  import opened JsonCodec
  import opened Sse

  const STREAMING_OBJECT_TYPE: string := "mooncache.streaming-response.v1"

  datatype CapturedStream = CapturedStream(events: seq<SseEvent>, finalBody: Json)

  datatype CodecError = BadJson | BadShape

  type Parser = string -> Option<Json>

  // ---- Encoding ----

  function EncodeEvent(e: SseEvent): Json {
    Obj([Field("event", if e.event.Some? then Str(e.event.value) else Null), Field("data", Str(e.data))])
  }

  function EncodeStream(c: CapturedStream): Json {
    Obj([
      Field("mooncache_object", Str(STREAMING_OBJECT_TYPE)),
      Field("events", Arr(seq(|c.events|, i requires 0 <= i < |c.events| => EncodeEvent(c.events[i])))),
      Field("final_body", c.finalBody)
    ])
  }

  function SerializeStreamObject(c: CapturedStream): string {
    Serialize(EncodeStream(c))
  }

  // ---- Decoding ----

  function DecodeName(v: Option<Json>): Option<Option<string>> {
    match v
    case None => Some(None)
    case Some(Null) => Some(None)
    case Some(Str(s)) => Some(Some(s))
    case Some(_) => None
  }

  function MakeEvent(name: Option<Json>, data: Option<Json>): Option<SseEvent> {
    match (DecodeName(name), data)
    case (Some(event), Some(Str(s))) => Some(SseEvent(event, s))
    case (_, _) => None
  }

  /** An event is an object, or a two-element list in field order. */
  function DecodeEvent(v: Json): Option<SseEvent> {
    match v
    case Obj(fields) => MakeEvent(Get(fields, "event"), Get(fields, "data"))
    case Arr(items) => if |items| == 2 then MakeEvent(Some(items[0]), Some(items[1])) else None
    case _ => None
  }

  function DecodeEvents(items: seq<Json>): Option<seq<SseEvent>> {
    if items == [] then Some([])
    else
      match (DecodeEvent(items[0]), DecodeEvents(items[1..]))
      case (Some(e), Some(rest)) => Some([e] + rest)
      case (_, _) => None
  }

  function DecodeStream(fields: seq<Field>): Result<CapturedStream, CodecError> {
    match (Get(fields, "mooncache_object"), Get(fields, "events"), Get(fields, "final_body"))
    case (Some(Str(_)), Some(Arr(items)), Some(body)) =>
      (match DecodeEvents(items)
       case Some(events) => Ok(CapturedStream(events, body))
       case None => Err(BadShape))
    case (_, _, _) => Err(BadShape)
  }

  predicate IsStreamingObject(v: Json) {
    v.Obj? && Get(v.fields, "mooncache_object") == Some(Str(STREAMING_OBJECT_TYPE))
  }

  /** What a non-streaming hit returns. */
  function CachedBodyFrom(parse: Parser, text: string): Result<Json, CodecError> {
    match parse(text)
    case None => Err(BadJson)
    case Some(v) =>
      if IsStreamingObject(v) then
        match DecodeStream(v.fields)
        case Ok(c) => Ok(c.finalBody)
        case Err(e) => Err(e)
      else Ok(v)
  }

  /** What a streaming lookup finds: a stream object, or nothing it can replay. */
  function StreamObjectFrom(parse: Parser, text: string): Result<Option<CapturedStream>, CodecError> {
    match parse(text)
    case None => Err(BadJson)
    case Some(v) =>
      if IsStreamingObject(v) then
        match DecodeStream(v.fields)
        case Ok(c) => Ok(Some(c))
        case Err(e) => Err(e)
      else Ok(None)
  }

  // ---- Stored streams ----

  lemma EventRoundTrips(e: SseEvent)
    ensures WellFormed(EncodeEvent(e)) && DecodeEvent(EncodeEvent(e)) == Some(e)
  {
    var fields := EncodeEvent(e).fields;
    assert |fields[0].key| == 5 && |fields[1].key| == 4;
    assert Get(fields[1..], "data") == Some(Str(e.data));
  }

  lemma StreamObjectFields(c: CapturedStream)
    ensures var fields := EncodeStream(c).fields;
      && DistinctKeys(fields)
      && Get(fields, "mooncache_object") == Some(Str(STREAMING_OBJECT_TYPE))
      && Get(fields, "events") == Some(fields[1].value)
      && Get(fields, "final_body") == Some(c.finalBody)
  {
    var fields := EncodeStream(c).fields;
    assert |fields[0].key| == 16 && |fields[1].key| == 6 && |fields[2].key| == 10;
    assert Get(fields[2..], "final_body") == Some(c.finalBody);
    assert fields[1..][1..] == fields[2..];
    assert Get(fields[1..], "final_body") == Some(c.finalBody);
    assert Get(fields[1..], "events") == Some(fields[1].value);
  }

  lemma StreamObjectWellFormed(c: CapturedStream)
    requires WellFormed(c.finalBody)
    ensures WellFormed(EncodeStream(c))
  {
    var fields := EncodeStream(c).fields;
    var items := fields[1].value.items;
    forall i | 0 <= i < |items| ensures WellFormed(items[i]) { EventRoundTrips(c.events[i]); }
    assert WellFormed(fields[0].value) && WellFormed(fields[1].value) && WellFormed(fields[2].value);
    StreamObjectFields(c);
  }

  // ---- Reading back ----

  lemma SameEventDecodes(item: Json, e: SseEvent)
    requires SameUpToOrder(item, EncodeEvent(e))
    ensures DecodeEvent(item) == Some(e)
  {
    EventRoundTrips(e);
    SameGet(item.fields, EncodeEvent(e).fields, "event");
    SameGet(item.fields, EncodeEvent(e).fields, "data");
  }

  lemma DecodesCons(items: seq<Json>, e: SseEvent, rest: seq<SseEvent>)
    requires items != [] && DecodeEvent(items[0]) == Some(e) && DecodeEvents(items[1..]) == Some(rest)
    ensures DecodeEvents(items) == Some([e] + rest)
  {
  }

  lemma {:induction false} SameEventsDecode(items: seq<Json>, codes: seq<Json>, events: seq<SseEvent>)
    requires |items| == |codes| == |events|
    requires forall i :: 0 <= i < |events| ==> codes[i] == EncodeEvent(events[i]) && SameUpToOrder(items[i], codes[i])
    ensures DecodeEvents(items) == Some(events)
    decreases |events|
  {
    if events != [] {
      SameEventDecodes(items[0], events[0]);
      SameEventsDecode(items[1..], codes[1..], events[1..]);
      DecodesCons(items, events[0], events[1..]);
      assert events == [events[0]] + events[1..];
    }
  }

  /** A member of a value read back, against the same member of the value written. */
  lemma MemberReadBack(reprint: Reprint, fs: seq<Field>, fields: seq<Field>, key: string)
    requires SameUpToOrder(Obj(fs), Reprinted(reprint, Obj(fields)))
    ensures Get(fs, key).Some? <==> Get(fields, key).Some?
    ensures Get(fs, key).Some? ==> SameUpToOrder(Get(fs, key).value, Reprinted(reprint, Get(fields, key).value))
  {
    SameGet(fs, Reprinted(reprint, Obj(fields)).fields, key);
    GetReprinted(reprint, fields, key);
  }

  lemma TextReadBack(reprint: Reprint, x: Json, v: Json, s: string)
    requires SameUpToOrder(x, Reprinted(reprint, v))
    ensures x == Str(s) <==> v == Str(s)
  {
  }

  /** The tag survives key reordering and reprinting. */
  lemma TagSurvives(reprint: Reprint, x: Json, v: Json)
    requires SameUpToOrder(x, Reprinted(reprint, v))
    ensures IsStreamingObject(x) <==> IsStreamingObject(v)
  {
    if v.Obj? {
      TagReadBack(reprint, x.fields, v.fields);
    }
  }

  lemma EventsReadBack(reprint: Reprint, read: Json, events: seq<SseEvent>, codes: seq<Json>)
    requires |codes| == |events| && forall i :: 0 <= i < |events| ==> codes[i] == EncodeEvent(events[i])
    requires SameUpToOrder(read, Reprinted(reprint, Arr(codes)))
    ensures read.Arr? && DecodeEvents(read.items) == Some(events)
  {
    EventsUnprinted(reprint, events, codes);
    SameEventsDecode(read.items, codes, events);
  }

  /** A stream object read back: the same events, and the final body as its numbers are reprinted. */
  lemma SameStreamDecodes(reprint: Reprint, fs: seq<Field>, c: CapturedStream) returns (body: Json)
    requires SameUpToOrder(Obj(fs), Reprinted(reprint, EncodeStream(c)))
    ensures DecodeStream(fs) == Ok(CapturedStream(c.events, body))
    ensures SameUpToOrder(body, Reprinted(reprint, c.finalBody))
  {
    var fields := EncodeStream(c).fields;
    StreamObjectFields(c);
    body := MembersReadBack(reprint, fs, fields, c, fields[1].value.items);
    DecodesTo(fs, c.events, body);
  }

  lemma DecodesTo(fs: seq<Field>, events: seq<SseEvent>, body: Json)
    requires Get(fs, "mooncache_object") == Some(Str(STREAMING_OBJECT_TYPE)) && Get(fs, "final_body") == Some(body)
    requires Get(fs, "events").Some? && Get(fs, "events").value.Arr?
    requires DecodeEvents(Get(fs, "events").value.items) == Some(events)
    ensures DecodeStream(fs) == Ok(CapturedStream(events, body))
  {
  }

  lemma MembersReadBack(reprint: Reprint, fs: seq<Field>, fields: seq<Field>, c: CapturedStream, codes: seq<Json>)
    returns (body: Json)
    requires SameUpToOrder(Obj(fs), Reprinted(reprint, Obj(fields)))
    requires |codes| == |c.events| && forall i :: 0 <= i < |codes| ==> codes[i] == EncodeEvent(c.events[i])
    requires Get(fields, "mooncache_object") == Some(Str(STREAMING_OBJECT_TYPE))
    requires Get(fields, "events") == Some(Arr(codes)) && Get(fields, "final_body") == Some(c.finalBody)
    ensures Get(fs, "mooncache_object") == Some(Str(STREAMING_OBJECT_TYPE)) && Get(fs, "final_body") == Some(body)
    ensures Get(fs, "events").Some? && Get(fs, "events").value.Arr?
    ensures DecodeEvents(Get(fs, "events").value.items) == Some(c.events)
    ensures SameUpToOrder(body, Reprinted(reprint, c.finalBody))
  {
    TagReadBack(reprint, fs, fields);
    EventsMemberReadBack(reprint, fs, fields, c.events, codes);
    MemberReadBack(reprint, fs, fields, "final_body");
    body := Get(fs, "final_body").value;
  }

  lemma TagReadBack(reprint: Reprint, fs: seq<Field>, fields: seq<Field>)
    requires SameUpToOrder(Obj(fs), Reprinted(reprint, Obj(fields)))
    ensures Get(fs, "mooncache_object") == Some(Str(STREAMING_OBJECT_TYPE))
       <==> Get(fields, "mooncache_object") == Some(Str(STREAMING_OBJECT_TYPE))
  {
    MemberReadBack(reprint, fs, fields, "mooncache_object");
    if Get(fs, "mooncache_object").Some? {
      TextReadBack(reprint, Get(fs, "mooncache_object").value, Get(fields, "mooncache_object").value, STREAMING_OBJECT_TYPE);
    }
  }

  lemma EventsMemberReadBack(
    reprint: Reprint, fs: seq<Field>, fields: seq<Field>, events: seq<SseEvent>, codes: seq<Json>)
    requires SameUpToOrder(Obj(fs), Reprinted(reprint, Obj(fields))) && Get(fields, "events") == Some(Arr(codes))
    requires |codes| == |events| && forall i :: 0 <= i < |codes| ==> codes[i] == EncodeEvent(events[i])
    ensures Get(fs, "events").Some? && Get(fs, "events").value.Arr?
    ensures DecodeEvents(Get(fs, "events").value.items) == Some(events)
  {
    MemberReadBack(reprint, fs, fields, "events");
    EventsReadBack(reprint, Get(fs, "events").value, events, codes);
  }

  /** Events hold no numbers. */
  lemma EventsUnprinted(reprint: Reprint, events: seq<SseEvent>, codes: seq<Json>)
    requires |codes| == |events| && forall i :: 0 <= i < |events| ==> codes[i] == EncodeEvent(events[i])
    ensures StableNumbers(reprint, Arr(codes)) && Reprinted(reprint, Arr(codes)) == Arr(codes)
  {
    StableIsReprinted(reprint, Arr(codes));
  }

  lemma StreamNumbers(reprint: Reprint, c: CapturedStream)
    ensures StableNumbers(reprint, EncodeStream(c)) <==> StableNumbers(reprint, c.finalBody)
    ensures Accepted(reprint, EncodeStream(c)) <==> Accepted(reprint, c.finalBody)
  {
    var fields := EncodeStream(c).fields;
    EventsUnprinted(reprint, c.events, fields[1].value.items);
    StableIsReprinted(reprint, fields[1].value);
    assert fields[2].value == c.finalBody;
  }

  /** What parsing makes of a value, as far as the readers need to know. */
  ghost predicate Known(codec: Codec, v: Json) {
    && KeepsNumbers(codec.reprint) && WellFormed(v) && ReadsBack(codec, v)
    && (codec.parse(Serialize(v)).Some? ==> WellFormed(codec.parse(Serialize(v)).value))
  }

  lemma SoundKnows(codec: Codec, v: Json)
    requires Sound(codec) && WellFormed(v)
    ensures Known(codec, v)
  {
    ParsingUndoesWriting(codec, v);
    if codec.parse(Serialize(v)).Some? {
      ParsedIsWellFormed(codec, Serialize(v));
    }
  }

  /**
   * A stored stream that the parser accepts gives streaming readers the captured events in order, and both kinds of
   * reader the final body with its numbers reprinted; that is the final body itself if and only if the object is stable.
   */
  lemma StoredStreamsReplay(codec: Codec, c: CapturedStream)
    requires Sound(codec) && WellFormed(c.finalBody)
    ensures var text := SerializeStreamObject(c);
      var streamed, body := StreamObjectFrom(codec.parse, text), CachedBodyFrom(codec.parse, text);
      && (streamed.Ok? <==> Accepts(codec, EncodeStream(c))) && (body.Ok? <==> streamed.Ok?)
      && (streamed.Ok? ==> streamed.value.Some? && streamed.value.value.events == c.events)
      && (streamed.Ok? ==> body.value == streamed.value.value.finalBody)
      && (streamed.Ok? && SameUpToOrder(body.value, c.finalBody) <==> Stable(codec, EncodeStream(c)))
  {
    StreamObjectWellFormed(c);
    SoundKnows(codec, EncodeStream(c));
    KnownStreamsReplay(codec, c);
  }

  lemma KnownStreamsReplay(codec: Codec, c: CapturedStream)
    requires WellFormed(c.finalBody) && Known(codec, EncodeStream(c))
    ensures var text := SerializeStreamObject(c);
      var streamed, body := StreamObjectFrom(codec.parse, text), CachedBodyFrom(codec.parse, text);
      && (streamed.Ok? <==> Accepts(codec, EncodeStream(c))) && (body.Ok? <==> streamed.Ok?)
      && (streamed.Ok? ==> streamed.value.Some? && streamed.value.value.events == c.events)
      && (streamed.Ok? ==> body.value == streamed.value.value.finalBody)
      && (streamed.Ok? && SameUpToOrder(body.value, c.finalBody) <==> Stable(codec, EncodeStream(c)))
  {
    var r := codec.parse(SerializeStreamObject(c));
    StreamNumbers(codec.reprint, c);
    if r.Some? {
      StreamObjectFields(c);
      TagSurvives(codec.reprint, r.value, EncodeStream(c));
      var body := SameStreamDecodes(codec.reprint, r.value.fields, c);
      FinalBodyStable(codec, r.value, c);
    } else if Stable(codec, EncodeStream(c)) {
      StableIsReprinted(codec.reprint, EncodeStream(c));
    }
  }

  lemma FinalBodyStable(codec: Codec, x: Json, c: CapturedStream)
    requires KeepsNumbers(codec.reprint) && WellFormed(x) && WellFormed(c.finalBody) && Accepted(codec.reprint, c.finalBody)
    requires x.Obj? && DecodeStream(x.fields).Ok?
    requires SameUpToOrder(DecodeStream(x.fields).value.finalBody, Reprinted(codec.reprint, c.finalBody))
    ensures SameUpToOrder(DecodeStream(x.fields).value.finalBody, c.finalBody) <==> StableNumbers(codec.reprint, c.finalBody)
  {
    var body := DecodeStream(x.fields).value.finalBody;
    ReprintedWellFormed(codec.reprint, c.finalBody);
    SameAsReprinted(codec, body, c.finalBody);
    if StableNumbers(codec.reprint, c.finalBody) {
      StableIsReprinted(codec.reprint, c.finalBody);
    }
  }

  /**
   * A stored plain body reads back unchanged, up to key order, if and only if it is not tagged as a stream object and is
   * stable; a streaming reader finds no stream in it if and only if it is not tagged and the parser accepts it.
   */
  lemma PlainBodiesReplay(codec: Codec, v: Json)
    requires Sound(codec) && WellFormed(v)
    ensures CachedBodyFrom(codec.parse, Serialize(v)).Ok? && SameUpToOrder(CachedBodyFrom(codec.parse, Serialize(v)).value, v)
       <==> !IsStreamingObject(v) && Stable(codec, v)
    ensures StreamObjectFrom(codec.parse, Serialize(v)) == Ok(None) <==> !IsStreamingObject(v) && Accepts(codec, v)
  {
    SoundKnows(codec, v);
    ReadsBackIffStable(codec, v);
    KnownBodiesReplay(codec, v);
  }

  lemma KnownBodiesReplay(codec: Codec, v: Json)
    requires Known(codec, v)
    requires codec.parse(Serialize(v)).Some? && SameUpToOrder(codec.parse(Serialize(v)).value, v) <==> Stable(codec, v)
    ensures CachedBodyFrom(codec.parse, Serialize(v)).Ok? && SameUpToOrder(CachedBodyFrom(codec.parse, Serialize(v)).value, v)
       <==> !IsStreamingObject(v) && Stable(codec, v)
    ensures StreamObjectFrom(codec.parse, Serialize(v)) == Ok(None) <==> !IsStreamingObject(v) && Accepts(codec, v)
  {
    var r := codec.parse(Serialize(v));
    if r.Some? {
      TagSurvives(codec.reprint, r.value, v);
      if IsStreamingObject(v) && DecodeStream(r.value.fields).Ok? {
        ReprintedWellFormed(codec.reprint, v);
        SameReflexive(r.value);
        SameChains(r.value, r.value, Reprinted(codec.reprint, v));
        TaggedBodyDiffers(codec, r.value, v);
      }
    }
  }

  lemma TaggedBodyDiffers(codec: Codec, x: Json, v: Json)
    requires SameUpToOrder(Reprinted(codec.reprint, v), x) && x.Obj? && DecodeStream(x.fields).Ok?
    ensures !SameUpToOrder(DecodeStream(x.fields).value.finalBody, v)
  {
    var body := DecodeStream(x.fields).value.finalBody;
    SomeDepth(v);
    var n: nat :| Within(v, n);
    var m := LeastDepth(v, n);
    ReprintedWithin(codec.reprint, v, m);
    SameWithin(Reprinted(codec.reprint, v), x, m);
    MemberWithin(x, "final_body", m);
    if SameUpToOrder(body, v) {
      SameWithin(body, v, m - 1);
    }
  }

  lemma MemberWithin(v: Json, key: string, m: nat)
    requires v.Obj? && Within(v, m) && Get(v.fields, key).Some?
    ensures m > 0 && Within(Get(v.fields, key).value, m - 1)
  {
    var i :| 0 <= i < |v.fields| && v.fields[i] == Field(key, Get(v.fields, key).value);
  }

  // ---- What the readers accept ----

  /** The value stands for the event: an object with its data and, if it has one, its name; or a pair of them. */
  predicate StandsFor(v: Json, e: SseEvent) {
    match v
    case Obj(fields) =>
      && Field("data", Str(e.data)) in fields
      && (match e.event
          case Some(name) => Field("event", Str(name)) in fields
          case None => "event" !in KeySet(fields) || Field("event", Null) in fields)
    case Arr(items) =>
      |items| == 2 && items[1] == Str(e.data)
      && items[0] == (match e.event case Some(name) => Str(name) case None => Null)
    case _ => false
  }

  lemma GetIsMember(fields: seq<Field>, key: string, v: Json)
    requires DistinctKeys(fields)
    ensures Get(fields, key) == Some(v) <==> Field(key, v) in fields
  {
  }

  lemma EventDecodesIff(v: Json, e: SseEvent)
    requires WellFormed(v)
    ensures DecodeEvent(v) == Some(e) <==> StandsFor(v, e)
  {
    if v.Obj? {
      GetIsMember(v.fields, "data", Str(e.data));
      GetIsMember(v.fields, "event", Null);
      if e.event.Some? {
        GetIsMember(v.fields, "event", Str(e.event.value));
      }
    }
  }

  ghost predicate AllStandFor(items: seq<Json>, events: seq<SseEvent>) {
    |items| == |events| && forall i :: 0 <= i < |items| ==> StandsFor(items[i], events[i])
  }

  lemma {:induction false} EventsDecodeIff(items: seq<Json>, events: seq<SseEvent>)
    requires forall i :: 0 <= i < |items| ==> WellFormed(items[i])
    ensures DecodeEvents(items) == Some(events) <==> AllStandFor(items, events)
    decreases |items|
  {
    if items != [] && events != [] {
      EventDecodesIff(items[0], events[0]);
      EventsDecodeIff(items[1..], events[1..]);
      assert events == [events[0]] + events[1..] && items == [items[0]] + items[1..];
      if DecodeEvents(items) == Some(events) {
        assert DecodeEvents(items[1..]).Some? && events[1..] == DecodeEvents(items[1..]).value;
      }
    }
  }

  /** The members of a stored stream, whatever else the object has. */
  ghost predicate StreamMembers(fields: seq<Field>, c: CapturedStream) {
    && (exists tag :: Field("mooncache_object", Str(tag)) in fields)
    && Field("final_body", c.finalBody) in fields
    && exists items :: Field("events", Arr(items)) in fields && AllStandFor(items, c.events)
  }

  lemma StreamDecodesIff(fields: seq<Field>, c: CapturedStream)
    requires WellFormed(Obj(fields))
    ensures DecodeStream(fields) == Ok(c) <==> StreamMembers(fields, c)
  {
    GetIsMember(fields, "final_body", c.finalBody);
    forall tag { GetIsMember(fields, "mooncache_object", Str(tag)); }
    forall items | Field("events", Arr(items)) in fields
      ensures Get(fields, "events") == Some(Arr(items))
      ensures DecodeEvents(items) == Some(c.events) <==> AllStandFor(items, c.events)
    {
      GetIsMember(fields, "events", Arr(items));
      MemberIsWellFormed(fields, Field("events", Arr(items)));
      EventsDecodeIff(items, c.events);
    }
    if DecodeStream(fields).Ok? {
      var items := Get(fields, "events").value.items;
      GetIsMember(fields, "events", Arr(items));
    }
  }

  lemma MemberIsWellFormed(fields: seq<Field>, f: Field)
    requires WellFormed(Obj(fields)) && f in fields
    ensures WellFormed(f.value)
  {
  }

  predicate Tagged(v: Json) {
    v.Obj? && Field("mooncache_object", Str("mooncache.streaming-response.v1")) in v.fields
  }

  /**
   * Of a text that parses, a plain reader gets the value unless it is tagged, and a streaming reader nothing; of a tagged
   * one both get what a stored stream says, and an error if it is none.
   */
  lemma ReadersAccept(parse: Parser, text: string, v: Json)
    requires parse(text) == Some(v) && WellFormed(v)
    ensures forall b :: CachedBodyFrom(parse, text) == Ok(b) <==>
      if Tagged(v) then exists c :: StreamMembers(v.fields, c) && c.finalBody == b else b == v
    ensures StreamObjectFrom(parse, text) == Ok(None) <==> !Tagged(v)
    ensures forall c :: StreamObjectFrom(parse, text) == Ok(Some(c)) <==> Tagged(v) && StreamMembers(v.fields, c)
  {
    if v.Obj? {
      GetIsMember(v.fields, "mooncache_object", Str(STREAMING_OBJECT_TYPE));
      forall c { StreamDecodesIff(v.fields, c); }
    }
  }

  /** One event as it is stored: its name, or null, and its data, in that order. */
  predicate StoredEvent(v: Json, e: SseEvent) {
    && v.Obj? && |v.fields| == 2 && v.fields[1] == Field("data", Str(e.data))
    && v.fields[0] == Field("event", match e.event case Some(name) => Str(name) case None => Null)
  }

  /** The text stored for a stream is JSON for three members: the tag, the events in order, and the final body. */
  lemma StoredTextReadsAs(c: CapturedStream, depth: nat) returns (fields: seq<Field>)
    requires WellFormed(c.finalBody) && Within(EncodeStream(c), depth)
    ensures ReadText(text => Some(text), depth, SerializeStreamObject(c)) == Some(Obj(fields)) && |fields| == 3
    ensures fields[0] == Field("mooncache_object", Str("mooncache.streaming-response.v1"))
    ensures fields[1].key == "events" && fields[1].value.Arr? && |fields[1].value.items| == |c.events|
    ensures forall i :: 0 <= i < |c.events| ==> StoredEvent(fields[1].value.items[i], c.events[i])
    ensures fields[2] == Field("final_body", c.finalBody)
  {
    StreamObjectWellFormed(c);
    ReadsExactly(EncodeStream(c), depth);
    fields := EncodeStream(c).fields;
  }

  // ---- Capturing ----

  /** The position of the last `response.completed` event. */
  function LastCompleted(events: seq<SseEvent>): (r: Option<nat>)
    ensures match r
      case Some(i) => i < |events| && events[i].event == Some("response.completed")
        && forall j :: i < j < |events| ==> events[j].event != Some("response.completed")
      case None => forall j :: 0 <= j < |events| ==> events[j].event != Some("response.completed")
  {
    if events == [] then None
    else if events[|events| - 1].event == Some("response.completed") then Some(|events| - 1)
    else LastCompleted(events[..|events| - 1])
  }

  /** The `response` member if the value is an object that has one, else the value itself. */
  function ResponseOf(v: Json): Json {
    match v
    case Obj(fields) =>
      (match Get(fields, "response")
       case Some(response) => response
       case None => v)
    case _ => v
  }

  function AggregateFinalBody(parse: Parser, events: seq<SseEvent>): Result<Json, VendorError> {
    match LastCompleted(events)
    case None => Err(InvalidResponse("stream completed without response.completed event"))
    case Some(i) =>
      match parse(events[i].data)
      case None => Err(InvalidResponse("response.completed data was not valid JSON"))
      case Some(v) => Ok(ResponseOf(v))
  }

  // ---- What a capture must be ----

  /** The body an event's data carries: its first `response` member, or all of it where there is none. */
  predicate Carries(v: Json, body: Json) {
    match v
    case Obj(fields) =>
      || (exists p :: 0 <= p < |fields| && fields[p] == Field("response", body) && NotBefore(fields, "response", p))
      || (body == v && NotBefore(fields, "response", |fields|))
    case _ => body == v
  }

  predicate LastCompletion(events: seq<SseEvent>, i: nat) {
    && i < |events| && events[i].event == Some("response.completed")
    && forall j :: i < j < |events| ==> events[j].event != Some("response.completed")
  }

  /** The last `response.completed` event carries the body. */
  ghost predicate Completes(parse: Parser, events: seq<SseEvent>, body: Json) {
    exists i: nat :: LastCompletion(events, i) && parse(events[i].data).Some? && Carries(parse(events[i].data).value, body)
  }

  ghost predicate NeverCompletes(parse: Parser, events: seq<SseEvent>) {
    || (forall i :: 0 <= i < |events| ==> events[i].event != Some("response.completed"))
    || (exists i: nat :: LastCompletion(events, i) && parse(events[i].data).None?)
  }

  lemma ResponseIsCarried(v: Json, body: Json)
    ensures Carries(v, body) <==> body == ResponseOf(v)
  {
    match v {
      case Obj(fields) =>
        if "response" !in KeySet(fields) {
          forall q | 0 <= q < |fields| ensures fields[q].key != "response" { assert fields[q] in fields; }
        }
      case _ =>
    }
  }

  /** The aggregated body is the one the last completion carries, and there is none exactly if there is no such event or its data is not JSON. */
  lemma AggregateIff(parse: Parser, events: seq<SseEvent>, body: Json)
    ensures AggregateFinalBody(parse, events) == Ok(body) <==> Completes(parse, events, body)
    ensures AggregateFinalBody(parse, events).Err? <==> NeverCompletes(parse, events)
  {
    match LastCompleted(events) {
      case None => assert forall i: nat :: !LastCompletion(events, i);
      case Some(i) =>
        assert LastCompletion(events, i);
        assert forall j: nat :: LastCompletion(events, j) ==> j == i;
        if parse(events[i].data).Some? {
          ResponseIsCarried(parse(events[i].data).value, body);
        }
    }
  }

  /** Collects the stream until it ends or fails; a failure anywhere means nothing is captured. */
  method CollectStream(parse: Parser, stream: seq<Result<SseEvent, VendorError>>)
    returns (r: Result<CapturedStream, VendorError>)
    ensures r.Ok? ==>
      && |r.value.events| == |stream|
      && (forall i :: 0 <= i < |stream| ==> stream[i] == Ok(r.value.events[i]))
      && Completes(parse, r.value.events, r.value.finalBody)
    ensures r.Err? ==>
      || (exists i :: 0 <= i < |stream| && stream[i] == Err(r.error) && forall j :: 0 <= j < i ==> stream[j].Ok?)
      || exists events: seq<SseEvent> :: |events| == |stream|
           && (forall i :: 0 <= i < |stream| ==> stream[i] == Ok(events[i]))
           && NeverCompletes(parse, events)
  {
    var events: seq<SseEvent> := [];
    for i := 0 to |stream|
      invariant |events| == i && forall j :: 0 <= j < i ==> stream[j] == Ok(events[j])
    {
      match stream[i] {
        case Ok(event) => events := events + [event];
        case Err(e) => return Err(e);
      }
    }
    match AggregateFinalBody(parse, events) {
      case Ok(body) =>
        AggregateIff(parse, events, body);
        return Ok(CapturedStream(events, body));
      case Err(e) =>
        AggregateIff(parse, events, Null);
        return Err(e);
    }
  }

  lemma CarriedIsWellFormed(v: Json, body: Json)
    requires WellFormed(v) && Carries(v, body)
    ensures WellFormed(body)
  {
  }

  lemma CompletionIsWellFormed(codec: Codec, events: seq<SseEvent>, body: Json)
    requires Sound(codec) && Completes(codec.parse, events, body)
    ensures WellFormed(body)
  {
    var i: nat :| LastCompletion(events, i) && codec.parse(events[i].data).Some? && Carries(codec.parse(events[i].data).value, body);
    ParsedIsWellFormed(codec, events[i].data);
    CarriedIsWellFormed(codec.parse(events[i].data).value, body);
  }

  /**
   * Capture, store, replay: if the stored object is stable, a streaming reader gets exactly the vendor's events, and a
   * plain reader gets the response carried by the last `response.completed` event among them.
   */
  lemma CapturedStreamsReplayInBothModes(codec: Codec, c: CapturedStream)
    requires Sound(codec) && Completes(codec.parse, c.events, c.finalBody) && Stable(codec, EncodeStream(c))
    ensures var streamed := StreamObjectFrom(codec.parse, SerializeStreamObject(c));
      streamed.Ok? && streamed.value.Some? && streamed.value.value.events == c.events
    ensures var plain := CachedBodyFrom(codec.parse, SerializeStreamObject(c));
      plain.Ok? && exists i: nat, body ::
        && LastCompletion(c.events, i) && codec.parse(c.events[i].data).Some?
        && Carries(codec.parse(c.events[i].data).value, body) && SameUpToOrder(plain.value, body)
  {
    CompletionIsWellFormed(codec, c.events, c.finalBody);
    StableIsReprinted(codec.reprint, EncodeStream(c));
    StoredStreamsReplay(codec, c);
  }
}
