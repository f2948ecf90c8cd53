/** The client of the remote capture server: the demultiplexer that turns one
    socket message into emissions on the raw, bmp, jpg and point-cloud
    channels, and the request descriptors of the HTTP commands. */
module CppApi {
  import opened Common

  // ---------------------------------------------------------------------
  // Socket messages
  // ---------------------------------------------------------------------

  /** `CppWsMessage`: every field may be absent. */
  datatype WsMessage = WsMessage(fileType: Option<string>, payload: Option<string>,
                                 filename: Option<string>, session: Option<string>)

  /** A value `JSON.parse` can return for a message. A JSON value that is not an
      object and not `null` (a number, a string, an array) has none of the
      fields, so it is an `Envelope` whose fields are all absent. */
  datatype ParsedValue = NullValue | Envelope(msg: WsMessage)

  /** The outcome of `JSON.parse` on the text of one socket message. */
  datatype Decoded = NotJson | Json(value: ParsedValue)

  /** What `JSON.parse(payload)` returned for a `pointcloud-json` payload: an
      array of point records, or any other JSON value. */
  datatype CloudJson = PointArray(points: seq<Point>) | OtherValue

  /** The `data` of a point-cloud event: the raw text of a PLY payload or the
      parsed JSON of a `pointcloud-json` payload. */
  datatype CloudData = PlyText(text: string) | ParsedCloud(json: CloudJson)

  datatype ImageFrame = ImageFrame(filename: string, base64: string, session: string)

  datatype CloudFrame = CloudFrame(filename: string, session: string, data: CloudData)

  /** One `next` on one of the four channels. */
  datatype Emission =
    | Raw(value: ParsedValue)
    | Bmp(image: ImageFrame)
    | Jpg(image: ImageFrame)
    | PointCloud(cloud: CloudFrame)

  /** The emissions of one call of the handler, and whether an exception
      escaped from it. */
  datatype Handled = Handled(emitted: seq<Emission>, escaped: bool)

  /** The emission of the `switch` on `fileType`, after the check that
      `fileType` and `payload` are both present and non-empty. */
  function TypedEmission(msg: WsMessage, parseCloud: string -> Option<CloudJson>): (r: seq<Emission>)
    ensures |r| <= 1
    ensures r != [] ==> !r[0].Raw? && Truthy(msg.fileType) && Truthy(msg.payload)
  {
    if !Truthy(msg.fileType) || !Truthy(msg.payload) then []
    else
      var fileType := msg.fileType.value;
      var payload := msg.payload.value;
      var session := OrElse(msg.session, "");
      if fileType == "bmp" then
        [Bmp(ImageFrame(OrElse(msg.filename, "unknown.bmp"), payload, session))]
      else if fileType == "jpg" then
        [Jpg(ImageFrame(OrElse(msg.filename, "unknown.jpg"), payload, session))]
      else if fileType == "ply" then
        [PointCloud(CloudFrame(OrElse(msg.filename, "cloud.ply"), session, PlyText(payload)))]
      else if fileType == "pointcloud-json" then
        match parseCloud(payload)
        case None => []
        case Some(json) =>
          [PointCloud(CloudFrame(OrElse(msg.filename, "cloud.json"), session, ParsedCloud(json)))]
      else []
  }

  /** `handleWsMessage`: a message that is not JSON emits nothing; any other
      message is first emitted on the raw channel and then on at most one typed
      channel. Destructuring a `null` message throws after the raw emission. */
  function HandleWsMessage(data: Decoded, parseCloud: string -> Option<CloudJson>): (h: Handled)
    ensures data.NotJson? ==> h.emitted == []
    ensures data.Json? ==> 1 <= |h.emitted| <= 2 && h.emitted[0] == Raw(data.value)
    ensures forall i | 1 <= i < |h.emitted| :: !h.emitted[i].Raw?
    ensures h.escaped <==> data == Json(NullValue)
    ensures data == Json(NullValue) ==> h.emitted == [Raw(NullValue)]
  {
    match data
    case NotJson => Handled([], false)
    case Json(NullValue) => Handled([Raw(NullValue)], true)
    case Json(Envelope(msg)) => Handled([Raw(Envelope(msg))] + TypedEmission(msg, parseCloud), false)
  }

  /** The typed channels a handler call reached. */
  function TypedChannels(h: Handled): seq<Emission> {
    if h.emitted == [] then [] else h.emitted[1..]
  }

  /** A parse failure emits on no channel, raw included. */
  lemma NotJsonEmitsNothing(parseCloud: string -> Option<CloudJson>)
    ensures HandleWsMessage(NotJson, parseCloud) == Handled([], false)
  {
  }

  /** A message without a non-empty `fileType` or `payload` reaches the raw
      channel and nothing else. */
  lemma MissingFieldsOnlyRaw(msg: WsMessage, parseCloud: string -> Option<CloudJson>)
    requires !Truthy(msg.fileType) || !Truthy(msg.payload)
    ensures HandleWsMessage(Json(Envelope(msg)), parseCloud) == Handled([Raw(Envelope(msg))], false)
  {
  }

  /** `bmp` and `jpg` emit one image on their own channel, carrying the payload
      as base64, with `unknown.<ext>` and `""` as the defaults. */
  lemma ImageDispatch(msg: WsMessage, parseCloud: string -> Option<CloudJson>)
    requires msg.fileType == Some("bmp") || msg.fileType == Some("jpg")
    requires Truthy(msg.payload)
    ensures var isBmp := msg.fileType == Some("bmp");
            var frame := ImageFrame(OrElse(msg.filename, if isBmp then "unknown.bmp" else "unknown.jpg"),
                                    msg.payload.value, OrElse(msg.session, ""));
            TypedChannels(HandleWsMessage(Json(Envelope(msg)), parseCloud))
              == if isBmp then [Bmp(frame)] else [Jpg(frame)]
  {
  }

  /** `ply` emits one point-cloud event carrying the undecoded payload. */
  lemma PlyDispatch(msg: WsMessage, parseCloud: string -> Option<CloudJson>)
    requires msg.fileType == Some("ply") && Truthy(msg.payload)
    ensures TypedChannels(HandleWsMessage(Json(Envelope(msg)), parseCloud))
            == [PointCloud(CloudFrame(OrElse(msg.filename, "cloud.ply"), OrElse(msg.session, ""),
                                      PlyText(msg.payload.value)))]
  {
  }

  /** `pointcloud-json` emits one point-cloud event with the parsed payload, in
      full and in order, when the payload parses, and no typed event when it
      does not. */
  lemma PointCloudJsonDispatch(msg: WsMessage, parseCloud: string -> Option<CloudJson>)
    requires msg.fileType == Some("pointcloud-json") && Truthy(msg.payload)
    ensures var typed := TypedChannels(HandleWsMessage(Json(Envelope(msg)), parseCloud));
            match parseCloud(msg.payload.value)
            case None => typed == []
            case Some(json) =>
              typed == [PointCloud(CloudFrame(OrElse(msg.filename, "cloud.json"),
                                              OrElse(msg.session, ""), ParsedCloud(json)))]
  {
  }

  /** Any other `fileType` reaches no typed channel. */
  lemma UnknownTypeOnlyRaw(msg: WsMessage, parseCloud: string -> Option<CloudJson>)
    requires msg.fileType.Some?
    requires msg.fileType.value !in {"bmp", "jpg", "ply", "pointcloud-json"}
    ensures HandleWsMessage(Json(Envelope(msg)), parseCloud) == Handled([Raw(Envelope(msg))], false)
  {
  }

  // ---------------------------------------------------------------------
  // HTTP commands
  // ---------------------------------------------------------------------

  const HttpBaseUrl: string := "http://localhost:8080"

  datatype HttpMethod = Get | Post

  /** An HTTP call as the client issues it: verb, path below the base URL,
      query parameters. Every POST sends an empty JSON object as its body;
      GET sends none. */
  datatype Request = Request(verb: HttpMethod, path: string, params: seq<(string, string)>)

  /** The absolute URL of a request: the base URL, then the path. */
  function Url(r: Request): (u: string)
    ensures |u| == |HttpBaseUrl| + |r.path|
    ensures u[..|HttpBaseUrl|] == HttpBaseUrl && u[|HttpBaseUrl|..] == r.path
  {
    HttpBaseUrl + r.path
  }

  /** The REST wrappers of the client, one constructor each. */
  datatype Command =
    | StartStreams
    | StopStreams
    | StartSession(name: string)
    | StopSession
    | ReconnectCamera
    | SetHardwareTrigger(enable: bool)
    | SetLaser(on: bool)
    | GetStatus

  /** A boolean query parameter: `'1'` or `'0'`. */
  function Flag(b: bool): (s: string)
    ensures s == "1" || s == "0"
    ensures s == "1" <==> b
  {
    if b then "1" else "0"
  }

  /** The request each wrapper issues. */
  function RequestFor(c: Command): (r: Request)
    ensures r.verb == Get <==> c.GetStatus?
    ensures |r.params| <= 1
  {
    match c
    case StartStreams => Request(Post, "/start", [])
    case StopStreams => Request(Post, "/stop", [])
    case StartSession(name) => Request(Post, "/session/start", [("name", name)])
    case StopSession => Request(Post, "/session/stop", [])
    case ReconnectCamera => Request(Post, "/reconnect", [])
    case SetHardwareTrigger(enable) => Request(Post, "/trigger", [("enable", Flag(enable))])
    case SetLaser(on) => Request(Post, "/laser", [("on", Flag(on))])
    case GetStatus => Request(Get, "/status", [])
  }

  /** A boolean query parameter read back. */
  function ParseFlag(s: string): Option<bool> {
    if s == "1" then Some(true) else if s == "0" then Some(false) else None
  }

  /** How the server's endpoint table reads a request. */
  function CommandOf(r: Request): Option<Command> {
    match r.verb
    case Get =>
      if r.path == "/status" && r.params == [] then Some(GetStatus) else None
    case Post =>
      if r.params == [] then
        if r.path == "/start" then Some(StartStreams)
        else if r.path == "/stop" then Some(StopStreams)
        else if r.path == "/session/stop" then Some(StopSession)
        else if r.path == "/reconnect" then Some(ReconnectCamera)
        else None
      else if |r.params| == 1 then
        var key := r.params[0].0;
        var value := r.params[0].1;
        if r.path == "/session/start" && key == "name" then Some(StartSession(value))
        else if r.path == "/trigger" && key == "enable" && ParseFlag(value).Some? then
          Some(SetHardwareTrigger(ParseFlag(value).value))
        else if r.path == "/laser" && key == "on" && ParseFlag(value).Some? then
          Some(SetLaser(ParseFlag(value).value))
        else None
      else None
  }

  /** Every request the client builds is read back as the command that built
      it: the flag encoding, the session name parameter and the paths carry
      all of the command. */
  lemma {:induction false} RequestRoundTrip(c: Command)
    ensures CommandOf(RequestFor(c)) == Some(c)
  {
    match c
    case SetHardwareTrigger(enable) =>
      assert ParseFlag(Flag(enable)) == Some(enable);
    case SetLaser(on) =>
      assert ParseFlag(Flag(on)) == Some(on);
    case _ =>
  }

  /** The server reads the command back from the absolute URL: the path
      after the base URL, the verb and the query parameters. */
  lemma UrlRoundTrip(c: Command)
    ensures var r := RequestFor(c);
            CommandOf(Request(r.verb, Url(r)[|HttpBaseUrl|..], r.params)) == Some(c)
  {
    RequestRoundTrip(c);
  }

  /** Distinct commands produce distinct requests. */
  lemma RequestForInjective(c1: Command, c2: Command)
    requires RequestFor(c1) == RequestFor(c2)
    ensures c1 == c2
  {
    RequestRoundTrip(c1);
    RequestRoundTrip(c2);
  }
}
