/**
 * The capture, filter and enrich step of the tracker's listeners: which attributes
 * of the event target are marked, the custom data built from them, the event type,
 * and what each listener does with one signal.
 */
module Capture {
  import opened Wrappers
  import opened TrackerConfiguration
  import opened TrackerEvents

  /** The reserved prefix of a marked attribute name. */
  const Prefix: string := "track-"

  /** `name.startsWith(prefix)`. */
  predicate IsMarked(name: string)
  {
    |Prefix| <= |name| && name[..|Prefix|] == Prefix
  }

  /** `name.substring(prefix.length)` for a marked name. */
  function Strip(name: string): string
    requires IsMarked(name)
  {
    name[|Prefix|..]
  }

  /** Prefixing and stripping undo each other. */
  lemma StripPrefix(name: string, key: string)
    requires IsMarked(name)
    ensures Prefix + Strip(name) == name
    ensures IsMarked(Prefix + key) && Strip(Prefix + key) == key
    ensures Strip(name) == key <==> name == Prefix + key
  {
    assert name == name[..|Prefix|] + name[|Prefix|..];
    assert (Prefix + key)[..|Prefix|] == Prefix;
    assert (Prefix + key)[|Prefix|..] == key;
  }

  /** `target.getAttributeNames()`: the names of the target's attributes, in order. */
  function AttributeNames(target: seq<Attribute>): (names: seq<string>)
    ensures |names| == |target|
    ensures forall i :: 0 <= i < |target| ==> names[i] == target[i].name
  {
    if target == [] then [] else [target[0].name] + AttributeNames(target[1..])
  }

  /** `target.getAttributeNode(name)?.value`: the value of the first attribute with that name. */
  function GetAttribute(target: seq<Attribute>, name: string): (v: Option<string>)
    ensures v.Some? <==> name in AttributeNames(target)
    ensures v.Some? ==> Attribute(name, v.value) in target
  {
    if target == [] then None
    else if target[0].name == name then Some(target[0].value)
    else GetAttribute(target[1..], name)
  }

  /** The value found is that of the first attribute with the name. */
  lemma {:induction false} GetAttributeFirst(target: seq<Attribute>, name: string, i: nat)
    requires i < |target| && target[i].name == name
    requires forall j :: 0 <= j < i ==> target[j].name != name
    ensures GetAttribute(target, name) == Some(target[i].value)
  {
    if i > 0 {
      GetAttributeFirst(target[1..], name, i - 1);
    }
  }

  /** `names.filter(name => name.startsWith(prefix))`: the marked names, in their order. */
  function MarkedNames(names: seq<string>): (marked: seq<string>)
    ensures forall n :: n in marked <==> n in names && IsMarked(n)
    ensures |marked| <= |names|
  {
    if names == [] then []
    else (if IsMarked(names[0]) then [names[0]] else []) + MarkedNames(names[1..])
  }

  /** Every name that appears in `names` is marked and names an attribute of `target`. */
  predicate NamesOfMarkedAttributes(target: seq<Attribute>, names: seq<string>)
  {
    forall n :: n in names ==> IsMarked(n) && GetAttribute(target, n).Some?
  }

  /** The one key whose assignment on a plain object hits an inherited setter. */
  const ProtoKey: string := "__proto__"

  /**
   * `data[key] = value` on a plain object with a string value: an own property is set,
   * except for `__proto__`, whose inherited setter ignores a value that is not an object.
   */
  function SetProperty(data: map<string, string>, key: string, value: string): map<string, string>
  {
    if key == ProtoKey then data else data[key := value]
  }

  /** The assigned key, unless it is `__proto__`, now holds the value; every other key is as it was. */
  lemma SetPropertyAt(data: map<string, string>, key: string, value: string, k: string)
    ensures k == key && key != ProtoKey ==> k in SetProperty(data, key, value) && SetProperty(data, key, value)[k] == value
    ensures k != key || key == ProtoKey ==>
      (k in SetProperty(data, key, value) <==> k in data) &&
      (k in data ==> SetProperty(data, key, value)[k] == data[k])
  {
  }

  /**
   * The object `customData` after `attrs.forEach(...)` has visited `names`
   * in order: each name, prefix stripped, is set to its attribute's value.
   */
  function CustomData(target: seq<Attribute>, names: seq<string>): map<string, string>
    requires NamesOfMarkedAttributes(target, names)
    decreases |names|
  {
    if names == [] then map[]
    else
      var last := names[|names| - 1];
      SetProperty(CustomData(target, names[..|names| - 1]), Strip(last), GetAttribute(target, last).value)
  }

  /**
   * `customData` has exactly one key per visited name, the name with the prefix
   * removed, except `__proto__`, and that key maps to the value of the attribute so named.
   */
  lemma {:induction false} CustomDataContents(target: seq<Attribute>, names: seq<string>)
    requires NamesOfMarkedAttributes(target, names)
    ensures forall k :: k in CustomData(target, names) <==> Prefix + k in names && k != ProtoKey
    ensures forall k :: k in CustomData(target, names) ==>
              GetAttribute(target, Prefix + k) == Some(CustomData(target, names)[k])
    decreases |names|
  {
    if names != [] {
      var init, last := names[..|names| - 1], names[|names| - 1];
      assert names == init + [last];
      CustomDataContents(target, init);
      forall k
        ensures k in CustomData(target, names) <==> Prefix + k in names && k != ProtoKey
        ensures k in CustomData(target, names) ==>
                  GetAttribute(target, Prefix + k) == Some(CustomData(target, names)[k])
      {
        StripPrefix(last, k);
        SetPropertyAt(CustomData(target, init), Strip(last), GetAttribute(target, last).value, k);
      }
    }
  }

  /** `Array.isArray(event) ? 'mutation' : event.type`. */
  function EventType(event: Payload): (t: string)
    ensures event.Mutations? ==> t == "mutation"
    ensures event.DomEvent? ==> t == event.eventType
  {
    match event
    case Mutations(_) => "mutation"
    case DomEvent(t, _) => t
  }

  /** What a listener does with one signal. */
  datatype Reaction =
    | Dropped                   // returned without emitting
    | Emitted(record: TrackerEvent)  // emitted one record under 'track'
    | NoTarget                  // threw: the payload has no target element to inspect

  /** The records a reaction appends to the emitted stream. */
  function Emission(r: Reaction): (out: seq<TrackerEvent>)
    ensures |out| <= 1
    ensures |out| == 1 <==> r.Emitted?
    ensures r.Emitted? ==> out[0] == r.record
  {
    if r.Emitted? then [r.record] else []
  }

  /** `eventListener`: what it does with `event`, given the level and the paused flag. */
  function EventReaction(level: TrackingLevel, isPaused: bool, event: Payload,
                         timestamp: int, url: string, ua: string): Reaction
  {
    if isPaused then Dropped
    else match event
      case Mutations(_) => NoTarget
      case DomEvent(_, target) =>
        var attrs := MarkedNames(AttributeNames(target));
        if level == MARKED && |attrs| == 0 then Dropped
        else
          assert NamesOfMarkedAttributes(target, attrs);
          Emitted(TrackerEvent(timestamp, EventType(event), event, url, ua, CustomData(target, attrs)))
  }

  /** `mutationListener`: emits a 'mutation' record with empty data unless paused. */
  function MutationReaction(isPaused: bool, records: seq<MutationRecord>,
                            timestamp: int, url: string, ua: string): Reaction
  {
    if isPaused then Dropped
    else Emitted(TrackerEvent(timestamp, "mutation", Mutations(records), url, ua, map[]))
  }

  /** The target carries an attribute whose name has the reserved prefix. */
  predicate HasMarkedAttribute(target: seq<Attribute>)
  {
    exists i :: 0 <= i < |target| && IsMarked(target[i].name)
  }

  lemma MarkedNamesEmpty(target: seq<Attribute>)
    ensures |MarkedNames(AttributeNames(target))| == 0 <==> !HasMarkedAttribute(target)
  {
    var names := AttributeNames(target);
    if HasMarkedAttribute(target) {
      var i :| 0 <= i < |target| && IsMarked(target[i].name);
      assert names[i] in names;
      assert names[i] in MarkedNames(names);
    }
  }

  /**
   * The emission gate of `eventListener`: nothing is emitted while paused, nor in
   * MARKED level for a target without a marked attribute; a mutation batch has no
   * target and throws; every other signal emits exactly one record.
   */
  lemma EventGate(level: TrackingLevel, isPaused: bool, event: Payload,
                  timestamp: int, url: string, ua: string)
    ensures EventReaction(level, isPaused, event, timestamp, url, ua).Dropped? <==>
              isPaused || (event.DomEvent? && level == MARKED && !HasMarkedAttribute(event.target))
    ensures EventReaction(level, isPaused, event, timestamp, url, ua).NoTarget? <==>
              !isPaused && event.Mutations?
    ensures |Emission(EventReaction(level, isPaused, event, timestamp, url, ua))| == 1 <==>
              !isPaused && event.DomEvent? && (level != MARKED || HasMarkedAttribute(event.target))
  {
    if event.DomEvent? {
      MarkedNamesEmpty(event.target);
    }
  }

  /**
   * The record `eventListener` emits: the event's own type, the event itself and the
   * context, and data with one key per marked attribute name (prefix stripped, and
   * other than `__proto__`) mapped to that attribute's value; unmarked attributes
   * contribute nothing.
   */
  lemma EventRecord(level: TrackingLevel, isPaused: bool, event: Payload,
                    timestamp: int, url: string, ua: string)
    requires EventReaction(level, isPaused, event, timestamp, url, ua).Emitted?
    ensures var rec := EventReaction(level, isPaused, event, timestamp, url, ua).record;
      && event.DomEvent?
      && rec.eventType == event.eventType && rec.event == event
      && rec.timestamp == timestamp && rec.url == url && rec.ua == ua
      && (forall k :: k in rec.data <==> Prefix + k in AttributeNames(event.target) && k != ProtoKey)
      && (forall k :: k in rec.data ==> GetAttribute(event.target, Prefix + k) == Some(rec.data[k]))
  {
    var target := event.target;
    var attrs := MarkedNames(AttributeNames(target));
    CustomDataContents(target, attrs);
    forall k ensures Prefix + k in attrs <==> Prefix + k in AttributeNames(target) {
      StripPrefix(Prefix + k, k);
    }
  }

  /** A target whose only marked attribute is `track-__proto__` is emitted in MARKED level with empty data. */
  lemma ProtoAttributeNotStored(timestamp: int, url: string, ua: string)
    ensures var r := EventReaction(MARKED, false, DomEvent("click", [Attribute("track-__proto__", "x")]), timestamp, url, ua);
      r.Emitted? && r.record.data == map[]
  {
    var target := [Attribute("track-__proto__", "x")];
    assert "track-__proto__" == Prefix + ProtoKey;
    assert MarkedNames(AttributeNames(target)) == ["track-__proto__"];
    assert Strip("track-__proto__") == ProtoKey;
    var names := ["track-__proto__"];
    assert names[..0] == [];
    assert CustomData(target, names) == SetProperty(map[], ProtoKey, "x") == map[];
  }

  /**
   * `mutationListener` emits exactly one record unless paused, of type 'mutation',
   * carrying the batch and empty data whatever the level.
   */
  lemma MutationRecordShape(isPaused: bool, records: seq<MutationRecord>,
                            timestamp: int, url: string, ua: string)
    ensures |Emission(MutationReaction(isPaused, records, timestamp, url, ua))| == (if isPaused then 0 else 1)
    ensures !isPaused ==>
      var rec := MutationReaction(isPaused, records, timestamp, url, ua).record;
      rec.eventType == "mutation" && rec.data == map[] && rec.event == Mutations(records)
  {
  }
}
