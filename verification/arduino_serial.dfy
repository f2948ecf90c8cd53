/** The sensor service: it validates each line the serial parser delivers,
    tags the reading with the current session, emits it and hands it to the
    store's `insertSensorReading`; it also
    frames outgoing commands. Port discovery and opening are not modelled, only
    the two fields they set. */
module ArduinoSerial {
  import opened Common
  import Db

  /** What `JSON.parse` made of one line. For a JSON value other than `null`,
      `ekg` and `pressure` are `Number(obj.EKG)` and `Number(obj.Pressure)`,
      or `None` when the property is undefined (always so for a non-object). */
  datatype SensorLine =
    | NotJson
    | NullLine
    | JsonLine(ekg: Option<Number>, pressure: Option<Number>)

  /** `currentSessionId || undefined`: `null` and `0` both leave the reading
      untagged. */
  function SessionTag(current: Option<int>): (tag: Option<int>)
    ensures tag.Some? <==> current.Some? && current.value != 0
    ensures tag.Some? ==> tag == current
  {
    if current.Some? && current.value != 0 then current else None
  }

  /** The reading a line yields, if the line is JSON and has both fields. */
  function ReadingOf(line: SensorLine, now: Time, current: Option<int>): (r: Option<Db.SensorData>)
    ensures r.Some? <==> line.JsonLine? && line.ekg.Some? && line.pressure.Some?
    ensures r.Some? ==> r.value.ekg == line.ekg.value && r.value.pressure == line.pressure.value
    ensures r.Some? ==> r.value.timestamp == now && r.value.sessionId == SessionTag(current)
  {
    match line
    case JsonLine(Some(ekg), Some(pressure)) => Some(Db.SensorData(ekg, pressure, now, SessionTag(current)))
    case _ => None
  }

  /** The bytes `sendToArduino` writes for one message. */
  function Frame(message: string): (bytes: string)
    ensures |bytes| == |message| + 2
    ensures bytes[..|message|] == message && bytes[|message|] == '\r' && bytes[|message| + 1] == '\n'
  {
    message + "\r\n"
  }

  /** The bytes of several messages written in turn. */
  function Wire(messages: seq<string>): string {
    if messages == [] then [] else Frame(messages[0]) + Wire(messages[1..])
  }

  /** The first CR LF pair of `s`, if any. */
  function CrlfIndex(s: string): (r: Option<nat>)
    ensures r.Some? ==> r.value + 1 < |s| && s[r.value] == '\r' && s[r.value + 1] == '\n'
    ensures r.Some? ==> forall j | 0 <= j < r.value :: s[j] != '\r' || s[j + 1] != '\n'
    ensures r.None? ==> forall j | 0 <= j < |s| - 1 :: s[j] != '\r' || s[j + 1] != '\n'
  {
    if |s| < 2 then None
    else if s[0] == '\r' && s[1] == '\n' then Some(0)
    else match CrlfIndex(s[1..])
      case None => None
      case Some(i) => Some(i + 1)
  }

  /** A reader splitting at CR LF; text after the last delimiter stays
      buffered. Unlike the serial library's parser it also yields empty
      lines, such as the one the empty message is framed as. */
  function Lines(s: string): seq<string>
    decreases |s|
  {
    match CrlfIndex(s)
    case None => []
    case Some(i) => [s[..i]] + Lines(s[i + 2..])
  }

  /** A CR-free message framed and followed by anything reads back as that
      message first. */
  lemma FirstLine(message: string, rest: string)
    requires '\r' !in message
    ensures CrlfIndex(Frame(message) + rest) == Some(|message|)
  {
    var s := Frame(message) + rest;
    assert s[|message|] == '\r' && s[|message| + 1] == '\n';
  }

  /** The framing of `sendToArduino` is undone by a CR LF reader: messages
      without a carriage return come back one per line, in order. */
  lemma {:induction false} FramingRoundTrip(messages: seq<string>)
    requires forall k | 0 <= k < |messages| :: '\r' !in messages[k]
    ensures Lines(Wire(messages)) == messages
  {
    if messages != [] {
      var m := messages[0];
      var rest := Wire(messages[1..]);
      FirstLine(m, rest);
      var s := Frame(m) + rest;
      assert s[..|m|] == m;
      assert s[|m| + 2..] == rest;
      FramingRoundTrip(messages[1..]);
    }
  }

  class ArduinoSerialService {
    const store: Db.Store
    /** `portInstance` is set. */
    var portOpen: bool
    var isConnected: bool
    /** `number | null`. */
    var currentSessionId: Option<int>
    /** Every reading emitted on the sensor-data channel, oldest first. */
    var emitted: seq<Db.SensorData>
    /** Every chunk handed to the port's `write`, oldest first. */
    var written: seq<string>

    constructor (store: Db.Store)
      ensures this.store == store
      ensures !portOpen && !isConnected && currentSessionId == None
      ensures emitted == [] && written == []
    {
      this.store := store;
      portOpen, isConnected := false, false;
      currentSessionId := None;
      emitted, written := [], [];
    }

    /** The port of the Arduino that was found is created. */
    method OpenPort()
      modifies this`portOpen
      ensures portOpen
    {
      portOpen := true;
    }

    /** The delayed parser attachment: from now on lines are read. */
    method StartReading()
      requires portOpen
      modifies this`isConnected
      ensures isConnected
    {
      isConnected := true;
    }

    /** `handleSerialData`: a valid line is emitted and handed to
        `insertSensorReading` exactly once,
        tagged with the current session; anything else is dropped. A `null`
        line throws out of the handler before any effect. A failed insert is
        caught, so the store call is recorded in every case. */
    method HandleSerialData(line: SensorLine, now: Time) returns (escaped: bool)
      modifies this`emitted, store`calls
      ensures escaped <==> line.NullLine?
      ensures emitted == old(emitted) + ReadingOf(line, now, currentSessionId).ToSeq()
      ensures store.calls == old(store.calls)
                             + if ReadingOf(line, now, currentSessionId).Some?
                               then [Db.InsertSensorReading(ReadingOf(line, now, currentSessionId).value)]
                               else []
    {
      escaped := false;
      match line {
        case NotJson =>
          // JSON.parse threw: warned and dropped
        case NullLine =>
          // `obj.EKG` on null: TypeError
          escaped := true;
        case JsonLine(ekg, pressure) =>
          if ekg.None? || pressure.None? {
            // a field is missing: warned and dropped
          } else {
            var data := Db.SensorData(ekg.value, pressure.value, now, SessionTag(currentSessionId));
            emitted := emitted + [data];
            store.Record(Db.InsertSensorReading(data));
          }
      }
    }

    method SetSessionId(sessionId: int)
      modifies this`currentSessionId
      ensures currentSessionId == Some(sessionId)
      ensures SessionTag(currentSessionId) == if sessionId == 0 then None else Some(sessionId)
    {
      currentSessionId := Some(sessionId);
    }

    /** `sendToArduino`: nothing is written unless the port exists and is
        connected; otherwise exactly the message followed by CR LF. */
    method SendToArduino(message: string)
      modifies this`written
      ensures written == if portOpen && isConnected then old(written) + [Frame(message)] else old(written)
    {
      if !portOpen || !isConnected {
        return;
      }
      written := written + [Frame(message)];
    }
  }
}
