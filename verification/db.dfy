/** The write path of the local store, seen from its callers: every call the
    session manager and the sensor service make is appended to a log. The
    storage engine behind it is not part of this model. */
module Db {
  import opened Common

  /** A row of the `sessions` table as handed to `createSession`. */
  datatype Session = Session(sessionName: string, startTime: Time, endTime: Option<Time>)

  /** A row of the `session_files` table. */
  datatype SessionFile = SessionFile(sessionId: int, filePath: string, fileType: string, createdAt: Time)

  /** `ArduinoSensorData`; `sessionId` is `None` when the reading is untagged. */
  datatype SensorData = SensorData(ekg: Number, pressure: Number, timestamp: Time, sessionId: Option<int>)

  /** One call into the store. */
  datatype StoreCall =
    | CreateSession(session: Session)
    | EndSession(sessionId: int, endTime: Time)
    | InsertSessionFile(file: SessionFile)
    | InsertSensorReading(reading: SensorData)

  /** The store shared by every service (a single injected instance). */
  class Store {
    /** Every call made so far, oldest first, whether or not it succeeded. */
    var calls: seq<StoreCall>

    constructor ()
      ensures calls == []
    {
      calls := [];
    }

    method Record(call: StoreCall)
      modifies this`calls
      ensures calls == old(calls) + [call]
    {
      calls := calls + [call];
    }
  }
}
