/** The session coordinator: a two-state machine (idle / active) over the
    active-session state, which drives the store, the sensor service and the
    capture server on start and stop, and hands a file record to the store's
    `insertSessionFile` for every typed frame delivered while a session is
    active. */
module SessionManager {
  import opened Common
  import Db
  import CppApi
  import ArduinoSerial

  /** `ActiveSessionState`. */
  datatype ActiveSessionState = ActiveSessionState(sessionId: Option<int>, sessionName: Option<string>, started: bool)

  /** The initial state, and the state after a stop. */
  const Idle := ActiveSessionState(None, None, false)

  /** `started` and a truthy `sessionId`: the guard of `stopSession` and of
      `handleNewFile`. */
  function HasActiveSession(s: ActiveSessionState): (active: bool)
    ensures active <==> s.started && ArduinoSerial.SessionTag(s.sessionId).Some?
  {
    s.started && s.sessionId.Some? && s.sessionId.value != 0
  }

  /** The pseudo file path `<sessionFolder>/<filename>`. */
  function FilePath(sessionFolder: string, filename: string): (path: string)
    ensures |path| == |sessionFolder| + 1 + |filename|
    ensures path[..|sessionFolder|] == sessionFolder && path[|sessionFolder|] == '/'
    ensures path[|sessionFolder| + 1..] == filename
  {
    sessionFolder + "/" + filename
  }

  /** The position of the last `/` of a path, if any. */
  function LastSlash(path: string): (r: Option<nat>)
    ensures r.Some? ==> r.value < |path| && path[r.value] == '/'
    ensures r.Some? ==> forall j | r.value < j < |path| :: path[j] != '/'
    ensures r.None? ==> '/' !in path
  {
    if path == [] then None
    else if path[|path| - 1] == '/' then Some(|path| - 1)
    else LastSlash(path[..|path| - 1])
  }

  /** A path split at its last `/` into folder and file name. */
  function SplitPath(path: string): Option<(string, string)> {
    match LastSlash(path)
    case None => None
    case Some(i) => Some((path[..i], path[i + 1..]))
  }

  /** A recorded path gives back the folder and the file name it was built from,
      as long as the file name has no `/` of its own. */
  lemma SplitFilePath(sessionFolder: string, filename: string)
    requires '/' !in filename
    ensures SplitPath(FilePath(sessionFolder, filename)) == Some((sessionFolder, filename))
  {
    var path := FilePath(sessionFolder, filename);
    assert path[|sessionFolder|] == '/';
  }

  /** The record `handleNewFile` stores, if any. */
  function FileRecord(s: ActiveSessionState, filename: string, fileType: string,
                      sessionFolder: string, now: Time): (r: Option<Db.SessionFile>)
    ensures r.Some? <==> HasActiveSession(s)
    ensures r.Some? ==> r.value.sessionId == s.sessionId.value && r.value.fileType == fileType
                        && r.value.createdAt == now
    ensures r.Some? ==> r.value.filePath == FilePath(sessionFolder, filename)
  {
    if HasActiveSession(s) then
      Some(Db.SessionFile(s.sessionId.value, FilePath(sessionFolder, filename), fileType, now))
    else None
  }

  /** A frame the manager hands to `handleNewFile`. */
  datatype IncomingFile = IncomingFile(filename: string, fileType: string, sessionFolder: string)

  /** The subscriptions to the typed channels: images keep their own type,
      every point cloud is a `pointcloud` file; the raw channel is not
      subscribed to. */
  function IncomingFileOf(e: CppApi.Emission): (f: Option<IncomingFile>)
    ensures f.Some? <==> !e.Raw?
    ensures f.Some? ==> f.value.fileType == (if e.Bmp? then "bmp" else if e.Jpg? then "jpg" else "pointcloud")
    ensures e.Bmp? || e.Jpg? ==> f == Some(IncomingFile(e.image.filename, f.value.fileType, e.image.session))
    ensures e.PointCloud? ==> f == Some(IncomingFile(e.cloud.filename, "pointcloud", e.cloud.session))
  {
    match e
    case Raw(_) => None
    case Bmp(image) => Some(IncomingFile(image.filename, "bmp", image.session))
    case Jpg(image) => Some(IncomingFile(image.filename, "jpg", image.session))
    case PointCloud(cloud) => Some(IncomingFile(cloud.filename, "pointcloud", cloud.session))
  }

  class SessionManagerService {
    const store: Db.Store
    const arduino: ArduinoSerial.ArduinoSerialService
    /** `activeSessionSubject.value`. */
    var state: ActiveSessionState
    /** Every command sent to the capture server, oldest first. */
    var commands: seq<CppApi.Command>

    /** `started` holds exactly when there is a session id and a name, and the
        sensor service tags with the active id, or with nothing while idle. */
    ghost predicate Valid()
      reads this, arduino
    {
      && state.started == state.sessionId.Some?
      && state.started == state.sessionName.Some?
      && (if state.started then arduino.currentSessionId == state.sessionId
          else arduino.currentSessionId == None || arduino.currentSessionId == Some(0))
    }

    constructor (store: Db.Store, arduino: ArduinoSerial.ArduinoSerialService)
      requires arduino.currentSessionId == None
      ensures this.store == store && this.arduino == arduino
      ensures state == Idle && commands == []
      ensures Valid()
    {
      this.store := store;
      this.arduino := arduino;
      state := Idle;
      commands := [];
    }

    /** `getActiveSessionState`. */
    function GetActiveSessionState(): (s: ActiveSessionState)
      reads this, arduino
      requires Valid()
      ensures s.started <==> s.sessionId.Some?
      ensures s.started <==> s.sessionName.Some?
    {
      state
    }

    /** `startSession`: the store is always asked for a session row. When it
        answers with an id, that id becomes the active session whatever the
        previous state was, the sensor service is told, and the capture server
        is asked to start the session and the streams. When it throws, nothing
        else happens. Command failures are only logged, so their outcome is not
        an input. */
    method StartSession(sessionName: string, now: Time, created: Option<int>)
      requires Valid()
      modifies this`state, this`commands, store`calls, arduino`currentSessionId
      ensures Valid()
      ensures store.calls == old(store.calls) + [Db.CreateSession(Db.Session(sessionName, now, None))]
      ensures created.None? ==> state == old(state) && commands == old(commands)
                                && arduino.currentSessionId == old(arduino.currentSessionId)
      ensures created.Some? ==> && state == ActiveSessionState(Some(created.value), Some(sessionName), true)
                                && arduino.currentSessionId == Some(created.value)
                                && commands == old(commands) + [CppApi.Command.StartSession(sessionName),
                                                                CppApi.Command.StartStreams]
    {
      store.Record(Db.CreateSession(Db.Session(sessionName, now, None)));
      match created {
        case None =>
          // createSession threw: logged
        case Some(sessionId) =>
          state := ActiveSessionState(Some(sessionId), Some(sessionName), true);
          arduino.SetSessionId(sessionId);
          commands := commands + [CppApi.Command.StartSession(sessionName)];
          commands := commands + [CppApi.Command.StartStreams];
      }
    }

    /** `stopSession`: without an active session nothing happens. Otherwise the
        capture server is asked to stop the session and the streams, the store
        is asked to end the session, and the state returns to idle whatever the
        store answers; the sensor service is then given the id 0. */
    method StopSession(now: Time)
      requires Valid()
      modifies this`state, this`commands, store`calls, arduino`currentSessionId
      ensures Valid()
      ensures !HasActiveSession(old(state)) ==> && state == old(state) && commands == old(commands)
                                                && store.calls == old(store.calls)
                                                && arduino.currentSessionId == old(arduino.currentSessionId)
      ensures HasActiveSession(old(state)) ==> && state == Idle
                                               && commands == old(commands) + [CppApi.Command.StopSession,
                                                                               CppApi.Command.StopStreams]
                                               && store.calls == old(store.calls)
                                                  + [Db.EndSession(old(state).sessionId.value, now)]
                                               && arduino.currentSessionId == Some(0)
    {
      if !HasActiveSession(state) {
        return;
      }
      var sessionId := state.sessionId.value;
      commands := commands + [CppApi.Command.StopSession];
      commands := commands + [CppApi.Command.StopStreams];
      store.Record(Db.EndSession(sessionId, now));
      state := Idle;
      arduino.SetSessionId(0);
    }

    /** `handleNewFile`: exactly one file record, tagged with the active id,
        while a session is active; nothing otherwise. A failed insert is
        caught, so the call is recorded either way. The payload is not used. */
    method HandleNewFile(filename: string, fileType: string, sessionFolder: string, now: Time)
      modifies store`calls
      ensures store.calls == old(store.calls)
                             + match FileRecord(state, filename, fileType, sessionFolder, now)
                               case None => []
                               case Some(file) => [Db.InsertSessionFile(file)]
    {
      var snapshot := state;
      if !snapshot.started || snapshot.sessionId.None? || snapshot.sessionId.value == 0 {
        return;
      }
      var filePath := sessionFolder + "/" + filename;
      store.Record(Db.InsertSessionFile(Db.SessionFile(snapshot.sessionId.value, filePath, fileType, now)));
    }

    /** One delivery on a channel the manager subscribes to. */
    method OnEmission(e: CppApi.Emission, now: Time)
      modifies store`calls
      ensures store.calls == old(store.calls)
                             + match IncomingFileOf(e)
                               case None => []
                               case Some(f) =>
                                 match FileRecord(state, f.filename, f.fileType, f.sessionFolder, now)
                                 case None => []
                                 case Some(file) => [Db.InsertSessionFile(file)]
    {
      match e {
        case Raw(_) =>
        case Bmp(image) => HandleNewFile(image.filename, "bmp", image.session, now);
        case Jpg(image) => HandleNewFile(image.filename, "jpg", image.session, now);
        case PointCloud(cloud) => HandleNewFile(cloud.filename, "pointcloud", cloud.session, now);
      }
    }

    /** `reconnectCamera`. */
    method ReconnectCamera()
      modifies this`commands
      ensures commands == old(commands) + [CppApi.Command.ReconnectCamera]
    {
      commands := commands + [CppApi.Command.ReconnectCamera];
    }

    /** While a session with a truthy id is active, a valid sensor line is
        handed to `insertSensorReading` under that id; while idle it is handed
        over untagged. */
    lemma ReadingsFollowSession(line: ArduinoSerial.SensorLine, now: Time)
      requires Valid()
      requires ArduinoSerial.ReadingOf(line, now, arduino.currentSessionId).Some?
      ensures var reading := ArduinoSerial.ReadingOf(line, now, arduino.currentSessionId).value;
              reading.sessionId == if HasActiveSession(state) then state.sessionId else None
    {
    }
  }
}
