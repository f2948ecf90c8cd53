/** The services wired together as the application injects them (one store
    shared by the session manager and the sensor service), driven through
    whole sessions. */
module Scenarios {
  import opened Common
  import Db
  import CppApi
  import ArduinoSerial
  import SessionManager

  /** Start a session called `trial1`, receive one sensor line and one JPEG
      frame for it, stop the session: the store is called to create the session,
      to insert the reading and the file tagged with the new id, and to end the
      session, in that order; the manager is idle again. */
  method TrialSession(sessionId: int, t0: Time, t1: Time, t2: Time, t3: Time)
    returns (calls: seq<Db.StoreCall>, final: SessionManager.ActiveSessionState)
    requires sessionId != 0
    ensures calls == [Db.CreateSession(Db.Session("trial1", t0, None)),
                      Db.InsertSensorReading(Db.SensorData(70.0, 120.0, t1, Some(sessionId))),
                      Db.InsertSessionFile(Db.SessionFile(sessionId, "trial1/a.jpg", "jpg", t2)),
                      Db.EndSession(sessionId, t3)]
    ensures final == SessionManager.Idle
  {
    var store := new Db.Store();
    var arduino := new ArduinoSerial.ArduinoSerialService(store);
    arduino.OpenPort();
    arduino.StartReading();
    var manager := new SessionManager.SessionManagerService(store, arduino);

    manager.StartSession("trial1", t0, Some(sessionId));
    var created := Db.CreateSession(Db.Session("trial1", t0, None));
    assert store.calls == [created];

    var escaped := arduino.HandleSerialData(ArduinoSerial.JsonLine(Some(70.0), Some(120.0)), t1);
    var reading := Db.InsertSensorReading(Db.SensorData(70.0, 120.0, t1, Some(sessionId)));
    assert store.calls == [created, reading];

    var msg := CppApi.WsMessage(Some("jpg"), Some("Zm9v"), Some("a.jpg"), Some("trial1"));
    var handled := CppApi.HandleWsMessage(CppApi.Json(CppApi.Envelope(msg)), NoCloud);
    JpgArrives(msg);
    assert SessionManager.FilePath("trial1", "a.jpg") == "trial1/a.jpg";
    manager.OnEmission(handled.emitted[1], t2);
    var file := Db.InsertSessionFile(Db.SessionFile(sessionId, "trial1/a.jpg", "jpg", t2));
    assert store.calls == [created, reading, file];

    manager.StopSession(t3);
    calls, final := store.calls, manager.state;
  }

  /** A payload parser that never succeeds; only images are sent here. */
  function NoCloud(payload: string): Option<CppApi.CloudJson> {
    None
  }

  /** The frame the scenario sends reaches the jpg channel, name and session
      intact. */
  lemma JpgArrives(msg: CppApi.WsMessage)
    requires msg == CppApi.WsMessage(Some("jpg"), Some("Zm9v"), Some("a.jpg"), Some("trial1"))
    ensures CppApi.HandleWsMessage(CppApi.Json(CppApi.Envelope(msg)), NoCloud).emitted
            == [CppApi.Raw(CppApi.Envelope(msg)), CppApi.Jpg(CppApi.ImageFrame("a.jpg", "Zm9v", "trial1"))]
  {
    CppApi.ImageDispatch(msg, NoCloud);
  }

  /** A second start while a session is active replaces the active id: the
      first session is never ended in the store, and the sensor service tags
      readings with the second id. */
  method RestartWithoutStop(first: int, second: int, t0: Time, t1: Time)
    returns (calls: seq<Db.StoreCall>, final: SessionManager.ActiveSessionState, tag: Option<int>)
    requires first != 0 && second != 0
    ensures calls == [Db.CreateSession(Db.Session("a", t0, None)), Db.CreateSession(Db.Session("b", t1, None))]
    ensures final == SessionManager.ActiveSessionState(Some(second), Some("b"), true)
    ensures tag == Some(second)
  {
    var store := new Db.Store();
    var arduino := new ArduinoSerial.ArduinoSerialService(store);
    var manager := new SessionManager.SessionManagerService(store, arduino);
    manager.StartSession("a", t0, Some(first));
    manager.StartSession("b", t1, Some(second));
    calls, final := store.calls, manager.state;
    tag := ArduinoSerial.SessionTag(arduino.currentSessionId);
  }

  /** After a session is stopped, sensor readings are still handed to
      `insertSensorReading`, untagged. */
  method ReadingAfterStop(sessionId: int, t0: Time, t1: Time, t2: Time)
    returns (last: Db.StoreCall)
    requires sessionId != 0
    ensures last == Db.InsertSensorReading(Db.SensorData(1.0, 2.0, t2, None))
  {
    var store := new Db.Store();
    var arduino := new ArduinoSerial.ArduinoSerialService(store);
    var manager := new SessionManager.SessionManagerService(store, arduino);
    manager.StartSession("s", t0, Some(sessionId));
    manager.StopSession(t1);
    var escaped := arduino.HandleSerialData(ArduinoSerial.JsonLine(Some(1.0), Some(2.0)), t2);
    last := store.calls[|store.calls| - 1];
  }
}
