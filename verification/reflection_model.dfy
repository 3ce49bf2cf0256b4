/**
 * The Echo-Reflection system core: counters and flags of the recursive
 * feedback model, a table of event listeners keyed by event type, the
 * system log and thought generation.
 *
 * Clock readings (`Date.now()`, `new Date()`) and `Math.random()` draws are
 * parameters. Listener callbacks are outside code: the model records every
 * invocation it makes as a `Delivery`, in call order.
 */
module ReflectionModel {
  import opened Common

  /** The seven event types the listener table has slots for. */
  datatype EventType = ThoughtEvent | ReflectionEvent | EchoEvent | WarningEvent | EmergenceEvent | CollapseEvent | SystemChange

  /** The key of each event type in the listener table. */
  function EventName(t: EventType): string
  {
    match t
    case ThoughtEvent => "thought"
    case ReflectionEvent => "reflection"
    case EchoEvent => "echo"
    case WarningEvent => "warning"
    case EmergenceEvent => "emergence"
    case CollapseEvent => "collapse"
    case SystemChange => "systemChange"
  }

  /** Looking a name up in the listener table: only the seven keys have a slot. */
  function EventTypeNamed(name: string): (t: Option<EventType>)
    ensures t.Some? ==> EventName(t.value) == name
  {
    if name == "thought" then Some(ThoughtEvent)
    else if name == "reflection" then Some(ReflectionEvent)
    else if name == "echo" then Some(EchoEvent)
    else if name == "warning" then Some(WarningEvent)
    else if name == "emergence" then Some(EmergenceEvent)
    else if name == "collapse" then Some(CollapseEvent)
    else if name == "systemChange" then Some(SystemChange)
    else None
  }

  /** Every event type is found under its own name, so the lookup misses exactly the other names. */
  lemma {:induction false} EventNamesRoundTrip(t: EventType)
    ensures EventTypeNamed(EventName(t)) == Some(t)
  {
  }

  /** A callback handed to `addEventListener`; whether it throws when called is its own business. */
  datatype Callback = Callback(name: string, throws: bool)

  datatype Listener = Listener(id: int, callback: Callback)

  /** What `initialize` and the (unseen) thought, reflection and echo operations pass as event data. */
  datatype EventData = Initialization | Payload(description: string)

  /** The argument of a listener call. */
  datatype Event = Event(eventType: EventType, timestamp: int, data: EventData)

  /** One invocation of a listener's callback. */
  datatype Delivery = Delivery(callback: Callback, event: Event)

  datatype LogEntry = LogEntry(id: int, timestamp: int, message: string)

  datatype Thought = Thought(id: int, timestamp: int, content: string, kind: string, recursionLevel: int,
                             connections: seq<int>)

  /** The listeners of a list whose id differs from `id`, in their order (`filter`). */
  function WithoutId(ls: seq<Listener>, id: int): (r: seq<Listener>)
    ensures |r| <= |ls|
    ensures forall k :: 0 <= k < |r| ==> r[k].id != id && r[k] in ls
    ensures forall k :: 0 <= k < |ls| && ls[k].id != id ==> ls[k] in r
  {
    if ls == [] then []
    else if ls[|ls| - 1].id != id then WithoutId(ls[..|ls| - 1], id) + [ls[|ls| - 1]]
    else WithoutId(ls[..|ls| - 1], id)
  }

  /** Filtering by id shrinks a list exactly when some listener in it carries that id. */
  lemma {:induction false} WithoutIdShrinks(ls: seq<Listener>, id: int)
    ensures |WithoutId(ls, id)| < |ls| <==> exists k :: 0 <= k < |ls| && ls[k].id == id
  {
    if ls != [] {
      var init := ls[..|ls| - 1];
      WithoutIdShrinks(init, id);
      if exists k :: 0 <= k < |init| && init[k].id == id {
        var k :| 0 <= k < |init| && init[k].id == id;
        assert ls[k].id == id;
      }
      if exists k :: 0 <= k < |ls| && ls[k].id == id {
        var k :| 0 <= k < |ls| && ls[k].id == id;
        if k < |init| {
          assert init[k].id == id;
        }
      }
    }
  }

  /** Removing an id undoes adding a listener under that id. */
  lemma {:induction false} WithoutIdUndoesAdd(ls: seq<Listener>, l: Listener)
    ensures WithoutId(ls + [l], l.id) == WithoutId(ls, l.id)
  {
    assert (ls + [l])[..|ls|] == ls;
  }

  /** The ten thoughts `generateThought` picks from when no content is given. */
  const ThoughtPatterns: seq<string> := [
    "A concept forms in the void",
    "The boundary between subject and object",
    "Patterns emerge from chaos",
    "Information crystallizes into meaning",
    "The observer becomes the observed",
    "Structure and formlessness coexist",
    "Consciousness reflects upon itself",
    "Meaning emerges from self-reference",
    "The map contains the territory",
    "Recursion creates emergence"
  ]

  /** `content || thoughtPatterns[floor(draw * 10)]`: a missing or empty content is replaced by a pattern. */
  function ThoughtContent(content: Option<string>, draw: real): (c: string)
    requires 0.0 <= draw < 1.0
    ensures content.Some? && content.value != "" ==> c == content.value
    ensures content.None? || content.value == "" ==> c in ThoughtPatterns
  {
    if content.Some? && content.value != "" then content.value
    else
      var k := (draw * (|ThoughtPatterns| as real)).Floor;
      assert 0 <= k < 10 by {
        assert 0.0 <= draw * 10.0 < 10.0;
      }
      ThoughtPatterns[k]
  }

  const InitializedMessage: string := "Echo-Reflection System Initialized"
  const ThoughtGeneratedMessage: string := "[Button: Generate Thought] → [Popup: Thought Generated]"

  class EchoReflectionSystem {
    var thoughts: seq<Thought>
    /** Filled by operations that are not part of this model. */
    var reflections: seq<Thought>
    var echoes: seq<Thought>
    var metamemories: seq<Thought>

    var echoCount: int
    var reflectionLevel: int
    var recursionDepth: real
    var emergenceIndex: real
    var feedbackLoopStrength: real

    var feedbackLoopForming: bool
    var recursionThresholdApproaching: bool
    var emergenceDetected: bool
    var cognitiveCollapse: bool

    var systemLogs: seq<LogEntry>
    var listeners: map<EventType, seq<Listener>>
    /** Every listener invocation so far, in call order. */
    var deliveries: seq<Delivery>

    const feedbackLoopThreshold: int
    const recursionWarningThreshold: int
    const emergenceThreshold: int
    const collapseThreshold: int
    const maxRecursionDepth: int
    const emergenceRequiredEchoes: int
    const emergenceRequiredReflections: int

    /** The listener table has a slot for every event type. */
    ghost predicate Valid()
      reads this
    {
      forall t: EventType :: t in listeners
    }

    /** A fresh system, initialized: one log entry and a `systemChange` notice nobody is listening to. */
    constructor (now: int)
      ensures Valid()
      ensures thoughts == [] && reflections == [] && echoes == [] && metamemories == []
      ensures echoCount == 0 && reflectionLevel == 0 && recursionDepth == 0.0 && emergenceIndex == 0.0 &&
              feedbackLoopStrength == 0.0
      ensures !feedbackLoopForming && !recursionThresholdApproaching && !emergenceDetected && !cognitiveCollapse
      ensures forall t: EventType :: t in listeners && listeners[t] == []
      ensures systemLogs == [LogEntry(now, now, InitializedMessage)] && deliveries == []
      ensures feedbackLoopThreshold == 3 && recursionWarningThreshold == 5 && emergenceThreshold == 7 &&
              collapseThreshold == 10 && maxRecursionDepth == 12 && emergenceRequiredEchoes == 4 &&
              emergenceRequiredReflections == 4
    {
      thoughts := [];
      reflections := [];
      echoes := [];
      metamemories := [];
      echoCount := 0;
      reflectionLevel := 0;
      recursionDepth := 0.0;
      emergenceIndex := 0.0;
      feedbackLoopStrength := 0.0;
      feedbackLoopForming := false;
      recursionThresholdApproaching := false;
      emergenceDetected := false;
      cognitiveCollapse := false;
      systemLogs := [];
      listeners := map[ThoughtEvent := [], ReflectionEvent := [], EchoEvent := [], WarningEvent := [],
                       EmergenceEvent := [], CollapseEvent := [], SystemChange := []];
      deliveries := [];
      feedbackLoopThreshold := 3;
      recursionWarningThreshold := 5;
      emergenceThreshold := 7;
      collapseThreshold := 10;
      maxRecursionDepth := 12;
      emergenceRequiredEchoes := 4;
      emergenceRequiredReflections := 4;
      new;
      forall t: EventType
        ensures t in listeners && listeners[t] == []
      {
        match t
        case ThoughtEvent =>
        case ReflectionEvent =>
        case EchoEvent =>
        case WarningEvent =>
        case EmergenceEvent =>
        case CollapseEvent =>
        case SystemChange =>
      }
      Initialize(now);
    }

    method Initialize(now: int)
      requires Valid()
      modifies this`systemLogs, this`deliveries
      ensures systemLogs == old(systemLogs) + [LogEntry(now, now, InitializedMessage)]
      ensures deliveries == old(deliveries) + Deliveries(listeners[SystemChange], Event(SystemChange, now, Initialization))
    {
      var _ := Log(InitializedMessage, now);
      NotifyListeners("systemChange", Initialization, now);
    }

    /**
     * Registers `callback` under a known event type, with the id
     * `now + floor(draw * 1000)`; an unknown type is refused with no id.
     */
    method AddEventListener(eventType: string, callback: Callback, now: int, draw: real) returns (id: Option<int>)
      requires Valid()
      modifies this`listeners
      ensures Valid()
      ensures EventTypeNamed(eventType).None? ==> id == None && listeners == old(listeners)
      ensures EventTypeNamed(eventType).Some? ==>
        var t := EventTypeNamed(eventType).value;
        id == Some(now + (draw * 1000.0).Floor) &&
        listeners == old(listeners)[t := old(listeners[t]) + [Listener(id.value, callback)]]
    {
      var t := EventTypeNamed(eventType);
      if t.None? {
        return None;
      }
      var newId := now + (draw * 1000.0).Floor;
      listeners := listeners[t.value := listeners[t.value] + [Listener(newId, callback)]];
      return Some(newId);
    }

    /**
     * Drops every listener of a known type carrying `id` and reports
     * whether the list shrank; an unknown type is refused.
     */
    method RemoveEventListener(eventType: string, id: int) returns (removed: bool)
      requires Valid()
      modifies this`listeners
      ensures Valid()
      ensures EventTypeNamed(eventType).None? ==> !removed && listeners == old(listeners)
      ensures EventTypeNamed(eventType).Some? ==>
        var t := EventTypeNamed(eventType).value;
        listeners == old(listeners)[t := WithoutId(old(listeners[t]), id)] &&
        (removed <==> exists k :: 0 <= k < |old(listeners[t])| && old(listeners[t])[k].id == id)
    {
      var t := EventTypeNamed(eventType);
      if t.None? {
        return false;
      }
      var initialLength := |listeners[t.value]|;
      WithoutIdShrinks(listeners[t.value], id);
      listeners := listeners[t.value := WithoutId(listeners[t.value], id)];
      return |listeners[t.value]| < initialLength;
    }

    /**
     * Calls every listener of a known type once, in order, with the event;
     * a callback that throws is reported and the walk goes on. An unknown
     * type calls nobody.
     */
    method NotifyListeners(eventType: string, data: EventData, now: int)
      requires Valid()
      modifies this`deliveries
      ensures EventTypeNamed(eventType).None? ==> deliveries == old(deliveries)
      ensures EventTypeNamed(eventType).Some? ==>
        var t := EventTypeNamed(eventType).value;
        deliveries == old(deliveries) + Deliveries(listeners[t], Event(t, now, data))
    {
      var t := EventTypeNamed(eventType);
      if t.None? {
        return;
      }
      var ls := listeners[t.value];
      var event := Event(t.value, now, data);
      for k := 0 to |ls|
        invariant deliveries == old(deliveries) + Deliveries(ls[..k], event)
      {
        assert ls[..k + 1][..k] == ls[..k];
        deliveries := deliveries + [Delivery(ls[k].callback, event)];
      }
      assert ls[..|ls|] == ls;
    }

    /** Appends one entry carrying the message, stamped with the clock, and returns it. */
    method Log(message: string, now: int) returns (entry: LogEntry)
      modifies this`systemLogs
      ensures entry == LogEntry(now, now, message) && entry.message == message
      ensures systemLogs == old(systemLogs) + [entry]
    {
      entry := LogEntry(now, now, message);
      systemLogs := systemLogs + [entry];
    }

    /**
     * The part of `generateThought` the source shows: a level-0 thought
     * with no connections, carrying the given content or a pattern, is
     * appended and logged.
     */
    method GenerateThought(content: Option<string>, now: int, draw: real) returns (thought: Thought)
      requires 0.0 <= draw < 1.0
      modifies this`thoughts, this`systemLogs
      ensures thought == Thought(now, now, ThoughtContent(content, draw), "thought", 0, [])
      ensures thoughts == old(thoughts) + [thought]
      ensures systemLogs == old(systemLogs) + [LogEntry(now, now, ThoughtGeneratedMessage)]
    {
      var thoughtContent := ThoughtContent(content, draw);
      thought := Thought(now, now, thoughtContent, "thought", 0, []);
      thoughts := thoughts + [thought];
      var _ := Log(ThoughtGeneratedMessage, now);
    }
  }

  /** The calls `notifyListeners` makes: one per listener, in order, each with the same event. */
  function Deliveries(ls: seq<Listener>, event: Event): (ds: seq<Delivery>)
    ensures |ds| == |ls|
    ensures forall k :: 0 <= k < |ls| ==> ds[k] == Delivery(ls[k].callback, event)
  {
    if ls == [] then [] else Deliveries(ls[..|ls| - 1], event) + [Delivery(ls[|ls| - 1].callback, event)]
  }
}
