/** Small shared datatypes. */
module Common {
  datatype Option<+T> = None | Some(value: T)

  lemma TailOfAppend<T>(a: seq<T>, b: seq<T>)
    requires a != []
    ensures (a + b)[0] == a[0] && (a + b)[1..] == a[1..] + b
  {
  }

  lemma TailOfCons<T>(head: T, tail: seq<T>)
    ensures ([head] + tail)[0] == head && ([head] + tail)[1..] == tail
  {
  }

  lemma Associative<T>(a: seq<T>, b: seq<T>, c: seq<T>)
    ensures (a + b) + c == a + (b + c)
  {
  }

  lemma SplitSlices<T>(s: seq<T>, n: nat, w: nat)
    requires n + w <= |s|
    ensures s[..n + w] == s[..n] + s[n..][..w] && s[n + w..] == s[n..][w..]
  {
  }

  lemma ConsTail<T>(s: seq<T>)
    requires s != []
    ensures s == [s[0]] + s[1..]
    ensures forall i :: 0 < i < |s| ==> s[i] == s[1..][i - 1]
    ensures forall x :: x in s <==> x == s[0] || x in s[1..]
  {
  }
}

/**
  The wire form of one analytics event: how a request object is decoded into first-class
  fields plus extras, how a stored event is encoded into a dead-letter payload, and what a
  replay of that payload yields.

  JSON is modelled as values, not bytes. The time library is a parameter: a `TimeFormat`
  is the pair of functions that show and parse an RFC 3339 timestamp.
 */
module EventCodec {
  import opened Common

  /** The object keys the pipeline knows by name, and every other key. */
  datatype Key =
    | EVENT            // "event"
    | TIMESTAMP        // "timestamp"
    | ANONYMOUS_ID     // "anonymous_id"
    | ANONYMOUS_ID_ALT // "anonymousId"
    | USER_ID          // "user_id"
    | USER_ID_ALT      // "userId"
    | SESSION_ID       // "session_id"
    | SESSION_ID_ALT   // "sessionId"
    | PROPERTIES       // "properties"
    | EXTRAS           // "extras"
    | PROJECT_ID       // "project_id"
    | Other(name: string)

  datatype Json =
    | JNull
    | JBool(truth: bool)
    | JInt(value: int)          // a number written with integer syntax
    | JDecimal(literal: string) // a number with a fraction or an exponent
    | JStr(text: string)
    | JArr(elements: seq<Json>)
    | JObj(fields: map<Key, Json>)

  type Fields = map<Key, Json>

  /** Nanoseconds since the Unix epoch. */
  type Instant = int

  /** The zero time of the time library: 1 January of year 1, UTC. */
  const ZERO_TIME: Instant := -62_135_596_800_000_000_000

  const NANOS_PER_MILLI := 1_000_000
  const MIN_INT64 := -0x8000_0000_0000_0000
  const MAX_INT64 := 0x7fff_ffff_ffff_ffff

  /** `show` fails (None) on an instant whose year does not fit four digits. */
  datatype TimeFormat = TimeFormat(show: Instant -> Option<string>, parse: string -> Option<Instant>)

  /** Whatever can be shown parses back to the same instant. */
  ghost predicate Lawful(format: TimeFormat) {
    forall t: Instant :: format.show(t).Some? ==> format.parse(format.show(t).value) == Some(t)
  }

  datatype Event = Event(
    name: string,
    anonymousId: Option<string>,
    userId: Option<string>,
    timestamp: Instant,
    sessionId: Option<string>,
    properties: Option<Json>, // None: no bytes at all
    extras: Option<Json>)     // None: no bytes at all

  const ZERO_EVENT := Event("", None, None, ZERO_TIME, None, None, None)

  /** Crashed: the decoder writes a stray field into a nil map, which panics. */
  datatype Decoding = Decoded(event: Event) | Rejected(field: Option<Key>) | Crashed

  // ---------------------------------------------------------------------------
  // Decoding
  // ---------------------------------------------------------------------------

  /** A nullable string field: the outer None is a type error. */
  function NullableText(v: Json): Option<Option<string>> {
    match v
    case JNull => Some(None)
    case JStr(s) => Some(Some(s))
    case _ => None
  }

  function ParseTimestamp(format: TimeFormat, v: Json): Option<Instant> {
    match v
    case JNull => Some(ZERO_TIME)
    case JStr(s) => format.parse(s)
    case JInt(ms) => if MIN_INT64 <= ms <= MAX_INT64 then Some(ms * NANOS_PER_MILLI) else None
    case _ => None
  }

  /** The spelling under which an identity field is read; the other spelling stays a stray. */
  function Spelling(raw: Fields, snake: Key, camel: Key): Option<Key> {
    if snake in raw then Some(snake) else if camel in raw then Some(camel) else None
  }

  function Taken(raw: Fields, snake: Key, camel: Key): set<Key> {
    match Spelling(raw, snake, camel)
    case None => {}
    case Some(key) => {key}
  }

  function Lookup(raw: Fields, key: Key): Option<Json> {
    if key in raw then Some(raw[key]) else None
  }

  function Identity(raw: Fields, snake: Key, camel: Key): Option<Json> {
    match Spelling(raw, snake, camel)
    case None => None
    case Some(key) => Some(raw[key])
  }

  /** The keys of `raw` that feed a field of their own. */
  function FirstClassKeys(raw: Fields): set<Key> {
    {EVENT, TIMESTAMP, PROPERTIES, EXTRAS}
    + Taken(raw, ANONYMOUS_ID, ANONYMOUS_ID_ALT)
    + Taken(raw, USER_ID, USER_ID_ALT)
    + Taken(raw, SESSION_ID, SESSION_ID_ALT)
  }

  function Strays(raw: Fields): Fields {
    raw - FirstClassKeys(raw)
  }

  /** A request object split into the value of each first-class field and the rest. */
  datatype Parts = Parts(
    name: Option<Json>, timestamp: Option<Json>,
    anonymousId: Option<Json>, userId: Option<Json>, sessionId: Option<Json>,
    properties: Option<Json>, extras: Option<Json>, strays: Fields)

  function Split(raw: Fields): Parts {
    Parts(Lookup(raw, EVENT), Lookup(raw, TIMESTAMP),
          Identity(raw, ANONYMOUS_ID, ANONYMOUS_ID_ALT),
          Identity(raw, USER_ID, USER_ID_ALT),
          Identity(raw, SESSION_ID, SESSION_ID_ALT),
          Lookup(raw, PROPERTIES), Lookup(raw, EXTRAS), Strays(raw))
  }

  /** An absent field reads as null. */
  function OptionalText(v: Option<Json>): Option<Option<string>> {
    NullableText(if v.Some? then v.value else JNull)
  }

  function OptionalTimestamp(format: TimeFormat, v: Option<Json>): Option<Instant> {
    ParseTimestamp(format, if v.Some? then v.value else JNull)
  }

  function Assemble(format: TimeFormat, parts: Parts): Decoding {
    var name := OptionalText(parts.name);
    var timestamp := OptionalTimestamp(format, parts.timestamp);
    var anonymousId := OptionalText(parts.anonymousId);
    var userId := OptionalText(parts.userId);
    var sessionId := OptionalText(parts.sessionId);
    if name.None? then Rejected(Some(EVENT))
    else if timestamp.None? then Rejected(Some(TIMESTAMP))
    else if anonymousId.None? then Rejected(Some(ANONYMOUS_ID))
    else if userId.None? then Rejected(Some(USER_ID))
    else if sessionId.None? then Rejected(Some(SESSION_ID))
    else if parts.extras.Some? && !parts.extras.value.JObj? && !parts.extras.value.JNull? then Rejected(Some(EXTRAS))
    else if parts.extras == Some(JNull) && parts.strays != map[] then Crashed
    else
      Decoded(Event(
                if name.value.Some? then name.value.value else "",
                anonymousId.value, userId.value, timestamp.value, sessionId.value,
                parts.properties,
                Some(match parts.extras
                     case Some(JNull) => JNull
                     case Some(JObj(seed)) => JObj(seed + parts.strays)
                     case _ => JObj(parts.strays))))
  }

  function Decode(format: TimeFormat, data: Json): Decoding {
    match data
    case JObj(raw) => Assemble(format, Split(raw))
    case JNull => Assemble(format, Split(map[]))
    case _ => Rejected(None)
  }

  /** Removing other keys does not disturb an identity field. */
  lemma IdentityFrame(all: Fields, gone: set<Key>, snake: Key, camel: Key)
    requires Taken(all, snake, camel) !! gone
    ensures Taken(all - gone, snake, camel) == Taken(all, snake, camel)
    ensures Identity(all - gone, snake, camel) == Identity(all, snake, camel)
  {
  }

  /** The event a request carries, as an object whose fields the decoder fills in. */
  class EventReceiver {
    var name: string
    var anonymousId: Option<string>
    var userId: Option<string>
    var timestamp: Instant
    var sessionId: Option<string>
    var properties: Option<Json>
    var extras: Option<Json>

    function Value(): Event
      reads this
    {
      Event(name, anonymousId, userId, timestamp, sessionId, properties, extras)
    }

    constructor ()
      ensures Value() == ZERO_EVENT
    {
      name, timestamp := "", ZERO_TIME;
      anonymousId, userId, sessionId := None, None, None;
      properties, extras := None, None;
    }

    /** Fills the receiver from `data`, peeling recognised keys off a working map and
        folding what is left into extras. */
    method UnmarshalJSON(format: TimeFormat, data: Json) returns (outcome: Decoding)
      requires Value() == ZERO_EVENT
      modifies this
      ensures outcome == Decode(format, data)
      ensures outcome.Decoded? ==> Value() == outcome.event
    {
      if !data.JObj? && !data.JNull? {
        return Rejected(None);
      }
      var raw: Fields := if data.JObj? then data.fields else map[];
      ghost var all, parts := raw, Split(raw);
      ghost var text0, ts0 := Some(None), Some(ZERO_TIME);
      if EVENT in raw {
        var text := NullableText(raw[EVENT]);
        if text.None? { return Rejected(Some(EVENT)); }
        if text.value.Some? { name := text.value.value; }
        raw, text0 := raw - {EVENT}, text;
      }
      ghost var gone := {EVENT};
      assert raw == all - gone;
      if TIMESTAMP in raw {
        var ts := ParseTimestamp(format, raw[TIMESTAMP]);
        if ts.None? { return Rejected(Some(TIMESTAMP)); }
        timestamp := ts.value;
        raw, ts0 := raw - {TIMESTAMP}, ts;
      }
      gone := gone + {TIMESTAMP};
      assert raw == all - gone;
      assert text0 == OptionalText(parts.name) && ts0 == OptionalTimestamp(format, parts.timestamp);
      var misread, rest := ReadIdentities(raw, all, gone);
      if misread.Some? { return Rejected(misread); }
      outcome := FoldRest(rest, all, FirstClassKeys(all) - {PROPERTIES, EXTRAS});
    }

    /** The three identity fields, each under whichever spelling is present. */
    method ReadIdentities(left: Fields, ghost all: Fields, ghost gone: set<Key>)
      returns (misread: Option<Key>, raw: Fields)
      requires left == all - gone && gone == {EVENT, TIMESTAMP}
      modifies this`anonymousId, this`userId, this`sessionId
      ensures var parts := Split(all);
              var anon, user, session := OptionalText(parts.anonymousId), OptionalText(parts.userId), OptionalText(parts.sessionId);
              if anon.None? then misread == Some(ANONYMOUS_ID)
              else if user.None? then misread == Some(USER_ID)
              else if session.None? then misread == Some(SESSION_ID)
              else misread == None
                   && anonymousId == anon.value && userId == user.value && sessionId == session.value
                   && raw == all - (FirstClassKeys(all) - {PROPERTIES, EXTRAS})
    {
      ghost var seen := gone;
      var text;
      text, raw := TakeText(left, all, seen, ANONYMOUS_ID, ANONYMOUS_ID_ALT);
      if text.None? { return Some(ANONYMOUS_ID), raw; }
      anonymousId, seen := text.value, seen + Taken(all, ANONYMOUS_ID, ANONYMOUS_ID_ALT);
      text, raw := TakeText(raw, all, seen, USER_ID, USER_ID_ALT);
      if text.None? { return Some(USER_ID), raw; }
      userId, seen := text.value, seen + Taken(all, USER_ID, USER_ID_ALT);
      text, raw := TakeText(raw, all, seen, SESSION_ID, SESSION_ID_ALT);
      if text.None? { return Some(SESSION_ID), raw; }
      sessionId, seen := text.value, seen + Taken(all, SESSION_ID, SESSION_ID_ALT);
      assert seen == FirstClassKeys(all) - {PROPERTIES, EXTRAS};
      misread := None;
    }

    /** The tail of the decoder: properties, then extras. */
    method FoldRest(left: Fields, ghost all: Fields, ghost gone: set<Key>)
      returns (outcome: Decoding)
      requires properties == None && extras == None
      requires left == all - gone
      requires PROPERTIES !in gone && EXTRAS !in gone
      requires FirstClassKeys(all) == gone + {PROPERTIES, EXTRAS}
      modifies this`properties, this`extras
      ensures var parts := Split(all);
              if parts.extras.Some? && !parts.extras.value.JObj? && !parts.extras.value.JNull? then outcome == Rejected(Some(EXTRAS))
              else if parts.extras == Some(JNull) && parts.strays != map[] then outcome == Crashed
              else outcome == Decoded(Value())
                   && properties == parts.properties
                   && extras == Some(match parts.extras
                                     case Some(JNull) => JNull
                                     case Some(JObj(seed)) => JObj(seed + parts.strays)
                                     case _ => JObj(parts.strays))
    {
      var raw := left;
      if PROPERTIES in raw {
        properties := Some(raw[PROPERTIES]);
        raw := raw - {PROPERTIES};
      }
      assert raw == all - (gone + {PROPERTIES});
      var merged: Option<Fields> := Some(map[]); // None: a nil map
      if EXTRAS in raw {
        match raw[EXTRAS] {
          case JObj(seed) => merged := Some(seed);
          case JNull => merged := None;
          case _ => return Rejected(Some(EXTRAS));
        }
        raw := raw - {EXTRAS};
      }
      assert gone + {PROPERTIES} + {EXTRAS} == FirstClassKeys(all);
      assert raw == all - (gone + {PROPERTIES} + {EXTRAS});
      if merged.None? {
        if raw != map[] { return Crashed; }
        extras := Some(JNull);
        return Decoded(Value());
      }
      var folded := Fold(merged.value, raw);
      extras := Some(JObj(folded));
      assert map[] + raw == raw;
      return Decoded(Value());
    }
  }

  /** Removes and returns the value under the first of the two spellings that is present. */
  method TakeFirst(raw: Fields, snake: Key, camel: Key) returns (value: Option<Json>, rest: Fields)
    ensures rest == raw - Taken(raw, snake, camel)
    ensures value == Identity(raw, snake, camel)
  {
    var keys := [snake, camel];
    for i := 0 to |keys|
      invariant i > 0 ==> snake !in raw
      invariant i > 1 ==> camel !in raw
    {
      if keys[i] in raw {
        return Some(raw[keys[i]]), raw - {keys[i]};
      }
    }
    return None, raw;
  }

  /** An identity field taken off the working map, which is `all` less the keys already
      `gone`, and read as a nullable string. */
  method TakeText(raw: Fields, ghost all: Fields, ghost gone: set<Key>, snake: Key, camel: Key)
    returns (text: Option<Option<string>>, rest: Fields)
    requires raw == all - gone && Taken(all, snake, camel) !! gone
    ensures rest == all - (gone + Taken(all, snake, camel))
    ensures text == OptionalText(Identity(all, snake, camel))
  {
    IdentityFrame(all, gone, snake, camel);
    var value, left := TakeFirst(raw, snake, camel);
    rest := left;
    text := if value.Some? then NullableText(value.value) else Some(None);
  }

  /** Writes every entry of `strays` over `seed`, in an unspecified order. */
  method Fold(seed: Fields, strays: Fields) returns (merged: Fields)
    ensures merged == seed + strays
  {
    hide Folded;
    merged := seed;
    var todo := strays.Keys;
    FoldEnds(seed, strays, seed);
    while todo != {}
      invariant Folded(seed, strays, todo, merged)
      decreases |todo|
    {
      var k :| k in todo;
      FoldOne(seed, strays, todo, merged, k);
      merged := merged[k := strays[k]];
      todo := todo - {k};
    }
    FoldEnds(seed, strays, merged);
  }

  /** Every stray but those in `todo` is written. */
  ghost predicate Folded(seed: Fields, strays: Fields, todo: set<Key>, merged: Fields) {
    && todo <= strays.Keys
    && (forall x :: x in merged <==> x in seed || (x in strays && x !in todo))
    && (forall x :: x in merged ==> merged[x] == if x in strays && x !in todo then strays[x] else seed[x])
  }

  lemma FoldOne(seed: Fields, strays: Fields, todo: set<Key>, merged: Fields, k: Key)
    requires Folded(seed, strays, todo, merged) && k in todo
    ensures k in strays && Folded(seed, strays, todo - {k}, merged[k := strays[k]])
  {
  }

  lemma FoldEnds(seed: Fields, strays: Fields, merged: Fields)
    ensures Folded(seed, strays, strays.Keys, seed)
    ensures Folded(seed, strays, {}, merged) ==> merged == seed + strays
  {
  }

  // ---------------------------------------------------------------------------
  // Encoding
  // ---------------------------------------------------------------------------

  function Member(key: Key, value: Option<Json>): Fields {
    match value
    case None => map[]
    case Some(v) => map[key := v]
  }

  function Text(value: Option<string>): Option<Json> {
    match value
    case None => None
    case Some(s) => Some(JStr(s))
  }

  /** The default marshalling of the event record; absent optional fields are omitted.
      None: the timestamp cannot be printed. */
  function Encode(format: TimeFormat, e: Event): Option<Json> {
    match format.show(e.timestamp)
    case None => None
    case Some(shown) => Some(JObj(EncodedFields(shown, e)))
  }

  function EncodedFields(shown: string, e: Event): Fields {
    map[EVENT := JStr(e.name), TIMESTAMP := JStr(shown)]
    + Member(ANONYMOUS_ID, Text(e.anonymousId))
    + Member(USER_ID, Text(e.userId))
    + Member(SESSION_ID, Text(e.sessionId))
    + Member(PROPERTIES, e.properties)
    + Member(EXTRAS, e.extras)
  }

  // ---------------------------------------------------------------------------
  // Validation
  // ---------------------------------------------------------------------------

  datatype ValidationError = ValidationError(index: nat, reason: string)

  const EMPTY_OBJECT := JObj(map[])

  function Defect(e: Event): Option<string> {
    if e.name == "" then Some("event required")
    else if e.timestamp == ZERO_TIME then Some("timestamp required")
    else None
  }

  function Sanitized(e: Event): Event {
    e.(properties := if e.properties.None? then Some(EMPTY_OBJECT) else e.properties,
       extras := if e.extras.None? then Some(EMPTY_OBJECT) else e.extras)
  }

  /** The sound events of a batch, in order, with their blanks filled in. */
  function SoundEvents(events: seq<Event>): seq<Event> {
    if events == [] then []
    else SoundEvents(events[..|events| - 1]) +
         (var e := events[|events| - 1]; if Defect(e).None? then [Sanitized(e)] else [])
  }

  function Defects(events: seq<Event>): seq<ValidationError> {
    if events == [] then []
    else Defects(events[..|events| - 1]) +
         (var e := events[|events| - 1];
          if Defect(e).None? then [] else [ValidationError(|events| - 1, Defect(e).value)])
  }

  /** Event and timestamp are there. */
  predicate Complete(e: Event) { e.name != "" && e.timestamp != ZERO_TIME }

  /** The event as accepted: everything it says is kept, and blank properties and extras are an empty
      object. */
  ghost predicate AcceptedAs(e: Event, accepted: Event) {
    && accepted.name == e.name && accepted.timestamp == e.timestamp
    && accepted.anonymousId == e.anonymousId && accepted.userId == e.userId && accepted.sessionId == e.sessionId
    && accepted.properties == (if e.properties.Some? then e.properties else Some(JObj(map[])))
    && accepted.extras == (if e.extras.Some? then e.extras else Some(JObj(map[])))
  }

  /** The accepted events are those at these positions, in order, and no complete event is elsewhere. */
  ghost predicate PicksOut(events: seq<Event>, at: seq<nat>, accepted: seq<Event>) {
    && |at| == |accepted|
    && (forall j, k :: 0 <= j < k < |at| ==> at[j] < at[k])
    && (forall k :: 0 <= k < |at| ==> at[k] < |events| && Complete(events[at[k]]) && AcceptedAs(events[at[k]], accepted[k]))
    && (forall i :: 0 <= i < |events| && Complete(events[i]) ==> exists k :: 0 <= k < |at| && at[k] == i)
  }

  /** The rejections name the incomplete events, in order, each by what it lacks first. */
  ghost predicate Names(events: seq<Event>, defects: seq<ValidationError>) {
    && (forall k :: 0 <= k < |defects| ==>
          && defects[k].index < |events| && !Complete(events[defects[k].index])
          && defects[k].reason == (if events[defects[k].index].name == "" then "event required" else "timestamp required"))
    && (forall j, k :: 0 <= j < k < |defects| ==> defects[j].index < defects[k].index)
    && (forall i :: 0 <= i < |events| && !Complete(events[i]) ==> exists k :: 0 <= k < |defects| && defects[k].index == i)
  }

  lemma PicksMore(events: seq<Event>, at: seq<nat>, accepted: seq<Event>, e: Event, x: Event)
    requires PicksOut(events, at, accepted)
    ensures !Complete(e) ==> PicksOut(events + [e], at, accepted)
    ensures Complete(e) && AcceptedAs(e, x) ==> PicksOut(events + [e], at + [|events|], accepted + [x])
  {
    hide Complete, AcceptedAs;
    var more, all := at + [|events|], events + [e];
    assert more[|at|] == |events| && forall k :: 0 <= k < |at| ==> more[k] == at[k];
    forall i | 0 <= i < |events| && Complete(all[i])
      ensures exists k :: 0 <= k < |at| && at[k] == i && more[k] == i
    {
      var k :| 0 <= k < |at| && at[k] == i;
    }
  }

  lemma NamesMore(events: seq<Event>, defects: seq<ValidationError>, e: Event, reason: string)
    requires Names(events, defects)
    ensures Complete(e) ==> Names(events + [e], defects)
    ensures !Complete(e) && reason == (if e.name == "" then "event required" else "timestamp required") ==>
              Names(events + [e], defects + [ValidationError(|events|, reason)])
  {
    hide Complete;
    var more, all := defects + [ValidationError(|events|, reason)], events + [e];
    assert more[|defects|].index == |events| && forall k :: 0 <= k < |defects| ==> more[k] == defects[k];
    forall i | 0 <= i < |events| && !Complete(all[i])
      ensures exists k :: 0 <= k < |defects| && defects[k].index == i && more[k].index == i
    {
      var k :| 0 <= k < |defects| && defects[k].index == i;
    }
  }

  /** Validation accepts the complete events, in order, as they are but for the blanks, and rejects the
      others by name. */
  lemma {:induction false} ValidationSpec(events: seq<Event>) returns (at: seq<nat>)
    ensures PicksOut(events, at, SoundEvents(events)) && Names(events, Defects(events))
  {
    hide PicksOut, Names, SoundEvents, Defects, Complete, AcceptedAs, Sanitized;
    if events == [] {
      at := [];
      NothingToValidate();
    } else {
      var front, e := events[..|events| - 1], events[|events| - 1];
      var before := ValidationSpec(front);
      assert events == front + [e];
      PicksMore(front, before, SoundEvents(front), e, Sanitized(e));
      NamesMore(front, Defects(front), e, if e.name == "" then "event required" else "timestamp required");
      ValidationStep(front, e);
      at := if Complete(e) then before + [|front|] else before;
    }
  }

  lemma NothingToValidate()
    ensures PicksOut([], [], SoundEvents([])) && Names([], Defects([]))
  {
  }

  lemma ValidationStep(front: seq<Event>, e: Event)
    ensures SoundEvents(front + [e]) == if Complete(e) then SoundEvents(front) + [Sanitized(e)] else SoundEvents(front)
    ensures var reason := if e.name == "" then "event required" else "timestamp required";
            Defects(front + [e]) == if Complete(e) then Defects(front) else Defects(front) + [ValidationError(|front|, reason)]
    ensures AcceptedAs(e, Sanitized(e))
  {
    assert (front + [e])[..|front|] == front;
  }

  method ValidateBatch(events: seq<Event>) returns (valid: seq<Event>, rejected: seq<ValidationError>)
    ensures valid == SoundEvents(events)
    ensures rejected == Defects(events)
    ensures |valid| + |rejected| == |events|
  {
    valid, rejected := [], [];
    for i := 0 to |events|
      invariant valid == SoundEvents(events[..i])
      invariant rejected == Defects(events[..i])
      invariant |valid| + |rejected| == i
    {
      var e := events[i];
      assert events[..i + 1][..i] == events[..i];
      if e.name == "" {
        rejected := rejected + [ValidationError(i, "event required")];
        continue;
      }
      if e.timestamp == ZERO_TIME {
        rejected := rejected + [ValidationError(i, "timestamp required")];
        continue;
      }
      if e.properties.None? { e := e.(properties := Some(EMPTY_OBJECT)); }
      if e.extras.None? { e := e.(extras := Some(EMPTY_OBJECT)); }
      valid := valid + [e];
    }
    assert events[..|events|] == events;
  }

  // ---------------------------------------------------------------------------
  // Dead-letter payloads
  // ---------------------------------------------------------------------------

  /** One event tagged with the project it was submitted under. */
  datatype Item = Item(project: string, event: Event)

  function EncodeItem(format: TimeFormat, item: Item): Option<Json> {
    match Encode(format, item.event)
    case None => None
    case Some(e) => Some(JObj(map[PROJECT_ID := JStr(item.project), EVENT := e]))
  }

  /** The payload of one dead-letter row, or None when some event cannot be marshalled. */
  function EncodeBatch(format: TimeFormat, items: seq<Item>): Option<seq<Json>> {
    if items == [] then Some([])
    else match (EncodeItem(format, items[0]), EncodeBatch(format, items[1..]))
      case (Some(first), Some(rest)) => Some([first] + rest)
      case _ => None
  }

  function DecodeItem(format: TimeFormat, wire: Json): Option<Item> {
    match wire
    case JNull => Some(Item("", ZERO_EVENT))
    case JObj(raw) =>
      var project := if PROJECT_ID in raw then NullableText(raw[PROJECT_ID]) else Some(None);
      var event := if EVENT in raw then Decode(format, raw[EVENT]) else Decoded(ZERO_EVENT);
      if project.Some? && event.Decoded?
      then Some(Item(if project.value.Some? then project.value.value else "", event.event))
      else None
    case _ => None
  }

  function DecodeBatch(format: TimeFormat, wire: seq<Json>): Option<seq<Item>> {
    if wire == [] then Some([])
    else match (DecodeItem(format, wire[0]), DecodeBatch(format, wire[1..]))
      case (Some(first), Some(rest)) => Some([first] + rest)
      case _ => None
  }

  // ---------------------------------------------------------------------------
  // What the codec promises
  // ---------------------------------------------------------------------------

  /** The shape every decoded or validated event has. */
  ghost predicate Canonical(e: Event) {
    e.extras.Some? && (e.extras.value.JObj? || e.extras.value.JNull?)
  }

  lemma DecodedIsCanonical(format: TimeFormat, data: Json)
    ensures Decode(format, data).Decoded? ==>
              Canonical(Decode(format, data).event) && Canonical(Sanitized(Decode(format, data).event))
  {
  }

  function EncodedField(shown: string, e: Event, k: Key): Option<Json> {
    match k
    case EVENT => Some(JStr(e.name))
    case TIMESTAMP => Some(JStr(shown))
    case ANONYMOUS_ID => Text(e.anonymousId)
    case USER_ID => Text(e.userId)
    case SESSION_ID => Text(e.sessionId)
    case PROPERTIES => e.properties
    case EXTRAS => e.extras
    case _ => None
  }

  lemma EncodedLookup(shown: string, e: Event, k: Key)
    ensures Lookup(EncodedFields(shown, e), k) == EncodedField(shown, e, k)
  {
    var required: Fields := map[EVENT := JStr(e.name), TIMESTAMP := JStr(shown)];
    var f1 := required + Member(ANONYMOUS_ID, Text(e.anonymousId));
    var f2 := f1 + Member(USER_ID, Text(e.userId));
    var f3 := f2 + Member(SESSION_ID, Text(e.sessionId));
    var f4 := f3 + Member(PROPERTIES, e.properties);
    LookupMerge(f4, Member(EXTRAS, e.extras), k);
    LookupMerge(f3, Member(PROPERTIES, e.properties), k);
    LookupMerge(f2, Member(SESSION_ID, Text(e.sessionId)), k);
    LookupMerge(f1, Member(USER_ID, Text(e.userId)), k);
    LookupMerge(required, Member(ANONYMOUS_ID, Text(e.anonymousId)), k);
  }

  function EncodedParts(shown: string, e: Event): Parts {
    Parts(Some(JStr(e.name)), Some(JStr(shown)), Text(e.anonymousId), Text(e.userId), Text(e.sessionId),
          e.properties, e.extras, map[])
  }

  /** What the decoder sees in an encoded event: each field in its own place, and no strays. */
  lemma EncodedSplit(shown: string, e: Event)
    ensures Split(EncodedFields(shown, e)) == EncodedParts(shown, e)
  {
    var raw := EncodedFields(shown, e);
    forall k ensures Lookup(raw, k) == EncodedField(shown, e, k) {
      EncodedLookup(shown, e, k);
    }
    SplitByLookup(raw, shown, e);
  }

  lemma SplitByLookup(raw: Fields, shown: string, e: Event)
    requires forall k :: Lookup(raw, k) == EncodedField(shown, e, k)
    ensures Split(raw) == EncodedParts(shown, e)
  {
    SnakeOnly(raw, ANONYMOUS_ID, ANONYMOUS_ID_ALT);
    SnakeOnly(raw, USER_ID, USER_ID_ALT);
    SnakeOnly(raw, SESSION_ID, SESSION_ID_ALT);
    EncodedHasNoStrays(raw, shown, e);
  }

  lemma EncodedHasNoStrays(raw: Fields, shown: string, e: Event)
    requires forall k :: Lookup(raw, k) == EncodedField(shown, e, k)
    ensures Strays(raw) == map[]
  {
    SnakeOnly(raw, ANONYMOUS_ID, ANONYMOUS_ID_ALT);
    SnakeOnly(raw, USER_ID, USER_ID_ALT);
    SnakeOnly(raw, SESSION_ID, SESSION_ID_ALT);
    var keys := FirstClassKeys(raw);
    forall k | k in raw ensures k in keys {
      assert Lookup(raw, k).Some?;
    }
  }

  lemma SnakeOnly(raw: Fields, snake: Key, camel: Key)
    requires Lookup(raw, camel).None?
    ensures Identity(raw, snake, camel) == Lookup(raw, snake)
    ensures Taken(raw, snake, camel) == if Lookup(raw, snake).Some? then {snake} else {}
  {
  }

  lemma LookupMerge(a: Fields, b: Fields, k: Key)
    ensures Lookup(a + b, k) == if Lookup(b, k).Some? then Lookup(b, k) else Lookup(a, k)
  {
  }

  /** The central promise: replaying an encoded event gives the event back, whatever keys
      its extras hold. */
  lemma RoundTrip(format: TimeFormat, e: Event)
    requires Lawful(format) && Canonical(e)
    requires Encode(format, e).Some?
    ensures Decode(format, Encode(format, e).value) == Decoded(e)
  {
    EncodedSplit(format.show(e.timestamp).value, e);
    AssembleEncoded(format, e);
  }

  lemma AssembleEncoded(format: TimeFormat, e: Event)
    requires Lawful(format) && Canonical(e)
    requires format.show(e.timestamp).Some?
    ensures Assemble(format, EncodedParts(format.show(e.timestamp).value, e)) == Decoded(e)
  {
    assert format.parse(format.show(e.timestamp).value) == Some(e.timestamp);
    if e.extras.value.JObj? {
      assert e.extras.value.fields + map[] == e.extras.value.fields;
    }
  }

  /** From the request to a replay out of the dead-letter table: nothing is changed but the
      two defaults validation fills in. */
  lemma RequestSurvivesReplay(format: TimeFormat, data: Json)
    requires Lawful(format)
    requires Decode(format, data).Decoded?
    ensures var e := Sanitized(Decode(format, data).event);
            match Encode(format, e)
            case None => format.show(e.timestamp).None?
            case Some(wire) => Decode(format, wire) == Decoded(e)
  {
    DecodedIsCanonical(format, data);
    var e := Sanitized(Decode(format, data).event);
    if Encode(format, e).Some? {
      RoundTrip(format, e);
    }
  }

  /** A nullable string read from a field: absent and null read as no value. */
  predicate ReadsAs(field: Option<Json>, value: Option<string>) {
    match field
    case None => value.None?
    case Some(JNull) => value.None?
    case Some(JStr(text)) => value == Some(text)
    case _ => false
  }

  /** The value under the first of two spellings that is present. */
  function EitherSpelling(raw: Fields, snake: Key, camel: Key): Option<Json> {
    if snake in raw then Some(raw[snake]) else if camel in raw then Some(raw[camel]) else None
  }

  /** What the decoder read into each field of its own: name, timestamp and properties from the key
      of that name, each identity from the spelling read, snake case first. */
  ghost predicate FieldsReadFrom(format: TimeFormat, raw: Fields, e: Event) {
    && ReadsAs(Lookup(raw, EVENT), if EVENT in raw && raw[EVENT].JStr? then Some(e.name) else None)
    && (EVENT !in raw || raw[EVENT].JNull? ==> e.name == "")
    && (if TIMESTAMP in raw then ParseTimestamp(format, raw[TIMESTAMP]) == Some(e.timestamp) else e.timestamp == ZERO_TIME)
    && e.properties == (if PROPERTIES in raw then Some(raw[PROPERTIES]) else None)
    && ReadsAs(EitherSpelling(raw, ANONYMOUS_ID, ANONYMOUS_ID_ALT), e.anonymousId)
    && ReadsAs(EitherSpelling(raw, USER_ID, USER_ID_ALT), e.userId)
    && ReadsAs(EitherSpelling(raw, SESSION_ID, SESSION_ID_ALT), e.sessionId)
  }

  /** An integer timestamp reads as that many milliseconds since the epoch, if it fits 64 bits; text as
      the time it parses to; null or nothing as the zero time, the first instant of year 1; nothing
      else reads. */
  lemma TimestampsRead(format: TimeFormat, raw: Fields, e: Event)
    requires Decode(format, JObj(raw)) == Decoded(e)
    ensures match Lookup(raw, TIMESTAMP)
            case None => e.timestamp == -719_162 * 86_400 * 1_000_000_000
            case Some(JNull) => e.timestamp == -719_162 * 86_400 * 1_000_000_000
            case Some(JInt(ms)) => -0x8000_0000_0000_0000 <= ms < 0x8000_0000_0000_0000 && e.timestamp == ms * 1_000_000
            case Some(JStr(text)) => format.parse(text) == Some(e.timestamp)
            case Some(_) => false
  {
  }

  predicate IsText(field: Option<Json>) { field.None? || field.value.JNull? || field.value.JStr? }

  predicate IsTime(format: TimeFormat, field: Option<Json>) {
    match field
    case None => true
    case Some(JNull) => true
    case Some(JInt(ms)) => -0x8000_0000_0000_0000 <= ms < 0x8000_0000_0000_0000
    case Some(JStr(text)) => format.parse(text).Some?
    case Some(_) => false
  }

  /** The keys that feed a field of their own: the four that have one spelling, the snake-case spelling
      of an identity, and the camel-case one where the other is absent. */
  predicate FeedsAField(raw: Fields, key: Key) {
    match key
    case EVENT => true
    case TIMESTAMP => true
    case PROPERTIES => true
    case EXTRAS => true
    case ANONYMOUS_ID => true
    case USER_ID => true
    case SESSION_ID => true
    case ANONYMOUS_ID_ALT => ANONYMOUS_ID !in raw
    case USER_ID_ALT => USER_ID !in raw
    case SESSION_ID_ALT => SESSION_ID !in raw
    case PROJECT_ID => false
    case Other(_) => false
  }

  ghost predicate HasStray(raw: Fields) { exists key :: key in raw && !FeedsAField(raw, key) }

  lemma FirstClassIffFeeds(raw: Fields, key: Key)
    requires key in raw
    ensures key in FirstClassKeys(raw) <==> FeedsAField(raw, key)
  {
  }

  /** What becomes of an object, field by field in the order they are read: name, timestamp, the three
      identities, extras. The first that is of the wrong kind is reported; null extras crash on a stray
      key; everything else is an event. Null is the empty object, and no other value an event. */
  lemma DecodeVerdict(format: TimeFormat, raw: Fields, data: Json)
    ensures var outcome, extras := Decode(format, JObj(raw)), Lookup(raw, EXTRAS);
            if !IsText(Lookup(raw, EVENT)) then outcome == Rejected(Some(EVENT))
            else if !IsTime(format, Lookup(raw, TIMESTAMP)) then outcome == Rejected(Some(TIMESTAMP))
            else if !IsText(EitherSpelling(raw, ANONYMOUS_ID, ANONYMOUS_ID_ALT)) then outcome == Rejected(Some(ANONYMOUS_ID))
            else if !IsText(EitherSpelling(raw, USER_ID, USER_ID_ALT)) then outcome == Rejected(Some(USER_ID))
            else if !IsText(EitherSpelling(raw, SESSION_ID, SESSION_ID_ALT)) then outcome == Rejected(Some(SESSION_ID))
            else if extras.Some? && !extras.value.JObj? && !extras.value.JNull? then outcome == Rejected(Some(EXTRAS))
            else if extras == Some(JNull) && HasStray(raw) then outcome == Crashed
            else outcome.Decoded?
    ensures data == JNull ==> Decode(format, data) == Decode(format, JObj(map[]))
    ensures !data.JNull? && !data.JObj? ==> Decode(format, data) == Rejected(None)
  {
    assert Identity(raw, ANONYMOUS_ID, ANONYMOUS_ID_ALT) == EitherSpelling(raw, ANONYMOUS_ID, ANONYMOUS_ID_ALT);
    assert Identity(raw, USER_ID, USER_ID_ALT) == EitherSpelling(raw, USER_ID, USER_ID_ALT);
    assert Identity(raw, SESSION_ID, SESSION_ID_ALT) == EitherSpelling(raw, SESSION_ID, SESSION_ID_ALT);
    StraysIff(raw);
    hide Spelling, FirstClassKeys, HasStray, Strays;
  }

  lemma StraysIff(raw: Fields)
    ensures Strays(raw) != map[] <==> HasStray(raw)
  {
    forall key | key in raw ensures key in Strays(raw) <==> !FeedsAField(raw, key) {
      FirstClassIffFeeds(raw, key);
    }
    if Strays(raw) != map[] {
      var key :| key in Strays(raw);
      assert !FeedsAField(raw, key);
    }
  }

  /** The entries of an object, and none for anything else. */
  function EntriesOf(field: Option<Json>): Fields {
    if field.Some? && field.value.JObj? then field.value.fields else map[]
  }

  /** What extras hold under a key: a stray with its own value, winning over a seed entry of the
      same name, and for any other key just what the seed had. */
  ghost predicate ExtrasHold(raw: Fields, extras: Option<Json>, key: Key) {
    if key in raw && !FeedsAField(raw, key)
    then Lookup(EntriesOf(extras), key) == Some(raw[key])
    else Lookup(EntriesOf(extras), key) == Lookup(EntriesOf(Lookup(raw, EXTRAS)), key)
  }

  /** Every top-level key lands in exactly one place: a first-class key feeds its own field, a stray
      reaches extras, and extras holds nothing else. */
  lemma KeysArePartitioned(format: TimeFormat, raw: Fields, key: Key)
    requires Decode(format, JObj(raw)).Decoded?
    ensures FieldsReadFrom(format, raw, Decode(format, JObj(raw)).event)
    ensures ExtrasHold(raw, Decode(format, JObj(raw)).event.extras, key)
  {
    FieldsAreRead(format, raw);
    ExtrasGetTheStrays(format, raw, key);
  }

  lemma FieldsAreRead(format: TimeFormat, raw: Fields)
    requires Decode(format, JObj(raw)).Decoded?
    ensures FieldsReadFrom(format, raw, Decode(format, JObj(raw)).event)
  {
    assert Identity(raw, ANONYMOUS_ID, ANONYMOUS_ID_ALT) == EitherSpelling(raw, ANONYMOUS_ID, ANONYMOUS_ID_ALT);
    assert Identity(raw, USER_ID, USER_ID_ALT) == EitherSpelling(raw, USER_ID, USER_ID_ALT);
    assert Identity(raw, SESSION_ID, SESSION_ID_ALT) == EitherSpelling(raw, SESSION_ID, SESSION_ID_ALT);
  }

  lemma ExtrasGetTheStrays(format: TimeFormat, raw: Fields, key: Key)
    requires Decode(format, JObj(raw)).Decoded?
    ensures ExtrasHold(raw, Decode(format, JObj(raw)).event.extras, key)
  {
    if key in raw { FirstClassIffFeeds(raw, key); }
  }

  lemma DroppingStrays(raw: Fields)
    ensures Split(raw - Strays(raw).Keys) == Split(raw).(strays := map[])
  {
    var gone := Strays(raw).Keys;
    var rest := raw - gone;
    IdentityFrame(raw, gone, ANONYMOUS_ID, ANONYMOUS_ID_ALT);
    IdentityFrame(raw, gone, USER_ID, USER_ID_ALT);
    IdentityFrame(raw, gone, SESSION_ID, SESSION_ID_ALT);
    assert FirstClassKeys(rest) == FirstClassKeys(raw);
    assert Strays(rest) == map[];
  }

  /** The decoder panics exactly on an explicit null `extras` beside a stray key, in a request
      that is accepted once its strays are dropped. */
  lemma CrashesExactlyOnNullExtrasWithStrays(format: TimeFormat, raw: Fields)
    ensures Decode(format, JObj(raw)).Crashed? <==>
            && Lookup(raw, EXTRAS) == Some(JNull)
            && (exists key :: key in raw && key !in FirstClassKeys(raw))
            && Decode(format, JObj(raw - Strays(raw).Keys)).Decoded?
  {
    DroppingStrays(raw);
    StraysExist(raw);
  }

  lemma StraysExist(raw: Fields)
    ensures Strays(raw) != map[] <==> exists key :: key in raw && key !in FirstClassKeys(raw)
  {
    var strays := Strays(raw);
    if strays != map[] {
      var key :| key in strays;
      assert key in raw && key !in FirstClassKeys(raw);
    } else {
      forall key | key in raw ensures key in FirstClassKeys(raw) {
        assert key !in strays;
      }
    }
  }

  /** A batch is stored unless it holds an event whose year does not fit, and then none of it is. */
  lemma {:induction false} BatchEncodesIff(format: TimeFormat, items: seq<Item>)
    ensures EncodeBatch(format, items).Some? <==>
            forall i :: 0 <= i < |items| ==> format.show(items[i].event.timestamp).Some?
  {
    if items != [] {
      BatchEncodesIff(format, items[1..]);
      assert forall i :: 0 < i < |items| ==> items[i] == items[1..][i - 1];
    }
  }

  lemma ItemRoundTrip(format: TimeFormat, item: Item)
    requires Lawful(format) && Canonical(item.event)
    requires EncodeItem(format, item).Some?
    ensures DecodeItem(format, EncodeItem(format, item).value) == Some(item)
  {
    RoundTrip(format, item.event);
    WireItemReads(item.project, Encode(format, item.event).value);
  }

  lemma WireItemReads(project: string, e: Json)
    ensures var raw: Fields := map[PROJECT_ID := JStr(project), EVENT := e];
            PROJECT_ID in raw && raw[PROJECT_ID] == JStr(project) && EVENT in raw && raw[EVENT] == e
  {
  }

  /** A stored batch replays as the same items, project stamps included, in order. */
  lemma {:induction false} BatchRoundTrip(format: TimeFormat, items: seq<Item>)
    requires Lawful(format)
    requires forall i :: 0 <= i < |items| ==> Canonical(items[i].event)
    requires EncodeBatch(format, items).Some?
    ensures DecodeBatch(format, EncodeBatch(format, items).value) == Some(items)
  {
    if items != [] {
      var first := EncodeItem(format, items[0]).value;
      var rest := EncodeBatch(format, items[1..]).value;
      ItemRoundTrip(format, items[0]);
      BatchRoundTrip(format, items[1..]);
      TailOfCons(first, rest);
      ConsTail(items);
    }
  }
}
