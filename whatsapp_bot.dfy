/**
 * The WhatsApp bot pairing page (`WhatsAppBotClient`): the connection status
 * banner, the debug record (`socketId`, `botConnected`, `botNumber`,
 * `activeConnections`, `qrAvailable`), the QR code slot, the instruction list,
 * the append-only message log, and the events and replies that update them.
 *
 * The page's state is the class `WhatsappBotClient`. What each socket event,
 * REST reply and button does is given by a pure function on a snapshot of
 * that state (`Page`), and each method of the class applies that function to
 * the fields. The socket, `fetch`, the confirm dialog, `encodeURIComponent`
 * and the timers are not modelled: what they deliver is an input, and a timer
 * callback is an explicit call.
 */
module WhatsappBot {
  import opened Text

  datatype MessageKind = Info | Success | Warning | Error

  /** One log entry; its id and timestamp are not modelled. */
  datatype LogEntry = LogEntry(text: string, kind: MessageKind)

  datatype StatusClass = Connecting | Connected | Disconnected

  /** The status banner: its text and its colour class. */
  datatype Status = Status(text: string, className: StatusClass)

  datatype DebugInfo = DebugInfo(
    socketId: Option<string>,
    botConnected: bool,
    botNumber: Option<string>,
    activeConnections: int,
    qrAvailable: bool)

  /**
   * The QR code slot: the image links built from the QR data, or, when the
   * data could not be encoded into a link, the data alone to show as text.
   */
  datatype QrCode =
    | QrImage(data: string, processedData: string, length: nat, imageUrl: string, backupUrl: string)
    | QrFallback(data: string, length: nat)

  /** What `encodeURIComponent` gives for the QR data: its encoding, or the message of the error it throws. */
  datatype Encoding = Encoded(text: string) | EncodeThrew(message: string)

  /** A snapshot of the page's state; `emitted` lists the events sent to the server. */
  datatype Page = Page(
    status: Status,
    messages: seq<LogEntry>,
    instructions: seq<string>,
    qrCode: Option<QrCode>,
    debugInfo: DebugInfo,
    emitted: seq<string>)

  const InitialDebugInfo := DebugInfo(None, false, None, 0, false)
  const InitialPage := Page(Status("🔄 Connecting to server...", Connecting), [], ["Connecting to server..."],
                            None, InitialDebugInfo, [])

  const QrServerPrefix := "https://api.qrserver.com/v1/create-qr-code/?size=300x300&format=png&ecc=M&data="
  const ChartPrefix := "https://chart.googleapis.com/chart?chs=300x300&cht=qr&chl="

  // Payloads of the server's socket events and REST replies. A failed
  // request (`fetch` or `response.json()` throwing) carries the error's message.

  datatype PongData = BotStatusPong(connected: bool, botNumber: Option<string>, activeConnections: int) | PlainPong
  datatype BotStatus = BotStatus(connected: bool, botNumber: Option<string>, activeConnections: int, uptimeSeconds: int)
  datatype BotConnectedData = BotConnectedData(message: string, botNumber: Option<string>, activeConnections: int,
                                               instructions: seq<string>)
  datatype QrData = QrData(qr: string, instructions: Option<seq<string>>)
  datatype QrReply = QrFetched(success: bool, qr: string, instructions: seq<string>, message: string)
                   | QrFetchFailed(error: string)
  datatype GenerateReply = Generated(success: bool, message: string, action: string) | GenerateFailed(error: string)
  datatype RestartReply = Restarted(success: bool, message: string) | RestartFailed(error: string)
  datatype StatusReply = StatusFetched(status: string, botNumber: Option<string>, activeConnections: int, hasQR: bool)
                       | StatusFailed(error: string)

  /** `addMessage`: exactly one entry is appended at the end of the log, and nothing else changes. */
  function Log(p: Page, text: string, kind: MessageKind): (r: Page)
    ensures r.messages == p.messages + [LogEntry(text, kind)]
    ensures r.(messages := p.messages) == p
  {
    p.(messages := p.messages + [LogEntry(text, kind)])
  }

  /** The catch-all listener's note for a named event. */
  function EventNote(event: string): string
  {
    "🔔 Event: " + event
  }

  /** The catch-all listener logs every event the server sends, before the event's own handler runs. */
  function Received(p: Page, event: string): (r: Page)
    ensures r.messages == p.messages + [LogEntry(EventNote(event), Info)]
    ensures r.(messages := p.messages) == p
  {
    Log(p, EventNote(event), Info)
  }

  function ConnectedWord(connected: bool): string
  {
    if connected then "Connected" else "Disconnected"
  }

  /** A possibly absent bot number as a template literal shows it. */
  function ShowNumber(n: Option<string>): string
  {
    if n.Some? then n.value else "null"
  }

  /** `connect`: records the socket id and shows it in the banner. */
  function OnConnect(p: Page, id: string): (r: Page)
    ensures r.debugInfo == p.debugInfo.(socketId := Some(id))
    ensures r.status == Status("✅ Connected: " + id, Connected)
    ensures r.messages == p.messages + [LogEntry("✅ Connected to WebSocket server", Success)]
    ensures r.instructions == p.instructions && r.qrCode == p.qrCode && r.emitted == p.emitted
  {
    Log(p.(debugInfo := p.debugInfo.(socketId := Some(id)), status := Status("✅ Connected: " + id, Connected)),
        "✅ Connected to WebSocket server", Success)
  }

  /** `connect_error`: the banner and the log report the error; the debug record is kept. */
  function OnConnectError(p: Page, message: string): (r: Page)
    ensures r.status == Status("❌ Connection Error: " + message, Disconnected)
    ensures r.messages == p.messages + [LogEntry(r.status.text, Error)]
    ensures r.debugInfo == p.debugInfo && r.qrCode == p.qrCode && r.instructions == p.instructions
    ensures r.emitted == p.emitted
  {
    var text := "❌ Connection Error: " + message;
    Log(p.(status := Status(text, Disconnected)), text, Error)
  }

  /** `disconnect`: the banner and the log report the reason; the debug record, socket id included, is kept. */
  function OnDisconnect(p: Page, reason: string): (r: Page)
    ensures r.status == Status("❌ Disconnected: " + reason, Disconnected)
    ensures r.messages == p.messages + [LogEntry(r.status.text, Error)]
    ensures r.debugInfo == p.debugInfo && r.qrCode == p.qrCode && r.instructions == p.instructions
    ensures r.emitted == p.emitted
  {
    var text := "❌ Disconnected: " + reason;
    Log(p.(status := Status(text, Disconnected)), text, Error)
  }

  /** `message`: the server's text is logged and nothing else changes. */
  function OnMessage(p: Page, msg: string): (r: Page)
    ensures r.(messages := p.messages) == p
    ensures |r.messages| == |p.messages| + 2 && r.messages[..|p.messages|] == p.messages
    ensures r.messages[|p.messages| + 1] == LogEntry("📨 Server: " + msg, Info)
  {
    Log(Received(p, "message"), "📨 Server: " + msg, Info)
  }

  /** `pong`: a reply that carries the bot's status copies it into the debug record. */
  function OnPong(p: Page, data: PongData): (r: Page)
    ensures data.BotStatusPong? ==>
              r.debugInfo == p.debugInfo.(botConnected := data.connected, botNumber := data.botNumber,
                                          activeConnections := data.activeConnections)
    ensures data.PlainPong? ==> r.debugInfo == p.debugInfo
    ensures r.status == p.status && r.qrCode == p.qrCode && r.instructions == p.instructions && r.emitted == p.emitted
    ensures p.messages < r.messages
  {
    var p1 := Received(p, "pong");
    match data
    case BotStatusPong(connected, botNumber, active) =>
      var shown := if botNumber.Some? && botNumber.value != "" then botNumber.value else "N/A";
      Log(p1.(debugInfo := p1.debugInfo.(botConnected := connected, botNumber := botNumber, activeConnections := active)),
          "🏓 Pong: Bot " + ConnectedWord(connected) + " | Connections: " + IntToString(active) + " | Number: " + shown,
          Success)
    case PlainPong => Log(p1, "🏓 Pong received", Success)
  }

  /** `bot:status`: overwrites the bot's connection, number and connection count, and nothing else of the record. */
  function OnBotStatus(p: Page, s: BotStatus): (r: Page)
    ensures r.debugInfo.botConnected == s.connected && r.debugInfo.botNumber == s.botNumber
    ensures r.debugInfo.activeConnections == s.activeConnections
    ensures r.debugInfo.socketId == p.debugInfo.socketId && r.debugInfo.qrAvailable == p.debugInfo.qrAvailable
    ensures r.status == p.status && r.qrCode == p.qrCode && r.instructions == p.instructions && r.emitted == p.emitted
    ensures p.messages < r.messages
  {
    var p1 := Received(p, "bot:status");
    Log(p1.(debugInfo := p1.debugInfo.(botConnected := s.connected, botNumber := s.botNumber,
                                       activeConnections := s.activeConnections)),
        "🤖 Bot Status: " + ConnectedWord(s.connected) + " | Active Connections: " + IntToString(s.activeConnections)
        + " | Uptime: " + IntToString(s.uptimeSeconds) + "s", Info)
  }

  /** `bot:setup-instructions`: logs the message and replaces the instruction list. */
  function OnSetupInstructions(p: Page, message: string, instructions: seq<string>): (r: Page)
    ensures r.instructions == instructions
    ensures r.debugInfo == p.debugInfo && r.qrCode == p.qrCode && r.status == p.status && r.emitted == p.emitted
    ensures p.messages < r.messages && r.messages[|r.messages| - 1] == LogEntry("📋 " + message, Info)
  {
    Log(Received(p, "bot:setup-instructions"), "📋 " + message, Info).(instructions := instructions)
  }

  /** `bot:connected`: the bot is connected; its number, connection count and instructions are taken from the event. */
  function OnBotConnected(p: Page, d: BotConnectedData): (r: Page)
    ensures r.debugInfo == p.debugInfo.(botConnected := true, botNumber := d.botNumber,
                                        activeConnections := d.activeConnections)
    ensures r.instructions == d.instructions
    ensures r.qrCode == p.qrCode && r.status == p.status && r.emitted == p.emitted
    ensures p.messages < r.messages
  {
    var p1 := Received(p, "bot:connected");
    var p2 := p1.(debugInfo := p1.debugInfo.(botConnected := true, botNumber := d.botNumber,
                                             activeConnections := d.activeConnections));
    Log(p2, "✅ " + d.message + " | Bot Number: " + ShowNumber(d.botNumber) + " | Active Connections: "
            + IntToString(d.activeConnections), Success).(instructions := d.instructions)
  }

  /** The check `displayQRCode` makes for WhatsApp's own encoded format. */
  predicate LooksWhatsappEncoded(qr: string)
    ensures LooksWhatsappEncoded(qr) <==> Contains(qr, "@") && Contains(qr, ",") && Contains(qr, "=")
  {
    ContainsChar(qr, '@');
    ContainsChar(qr, ',');
    ContainsChar(qr, '=');

    '@' in qr && ',' in qr && '=' in qr
  }

  /**
   * The QR code slot for `qr`: both image links carry the same encoded data
   * after their service's fixed prefix; if the data cannot be encoded, the
   * slot holds the data alone.
   */
  function QrCodeFor(qr: string, enc: Encoding): (c: QrCode)
    ensures c.data == qr && c.length == |qr|
    ensures c.QrImage? <==> enc.Encoded?
    ensures c.QrImage? ==> c.processedData == qr
    ensures c.QrImage? ==>
              && QrServerPrefix <= c.imageUrl && c.imageUrl[|QrServerPrefix|..] == enc.text
              && ChartPrefix <= c.backupUrl && c.backupUrl[|ChartPrefix|..] == enc.text
  {
    match enc
    case Encoded(text) => QrImage(qr, qr, |qr|, QrServerPrefix + text, ChartPrefix + text)
    case EncodeThrew(_) => QrFallback(qr, |qr|)
  }

  /** `displayQRCode`: fills the QR code slot and logs the outcome; nothing else changes. */
  function DisplayQrCode(p: Page, qr: string, enc: Encoding): (r: Page)
    ensures r.qrCode == Some(QrCodeFor(qr, enc))
    ensures r.(messages := p.messages, qrCode := p.qrCode) == p
    ensures p.messages < r.messages
    ensures |r.messages| == |p.messages| + (if LooksWhatsappEncoded(qr) then 2 else 1)
    ensures r.messages[|r.messages| - 1]
         == (if enc.Encoded? then LogEntry("✅ QR Code generated successfully", Success)
             else LogEntry("❌ QR Code display error: " + enc.message, Error))
  {
    var p1 := if LooksWhatsappEncoded(qr) then Log(p, "🔍 Detected WhatsApp encoded QR data format", Info) else p;
    var p2 := p1.(qrCode := Some(QrCodeFor(qr, enc)));
    match enc
    case Encoded(_) => Log(p2, "✅ QR Code generated successfully", Success)
    case EncodeThrew(message) => Log(p2, "❌ QR Code display error: " + message, Error)
  }

  /**
   * `whatsapp:qr`: marks a QR code as available before looking at the
   * payload; only a payload with non-empty QR data is displayed.
   */
  function OnWhatsappQr(p: Page, data: Option<QrData>, enc: Encoding): (r: Page)
    ensures r.debugInfo == p.debugInfo.(qrAvailable := true)
    ensures data.Some? && data.value.qr != "" ==>
              && r.qrCode == Some(QrCodeFor(data.value.qr, enc))
              && r.instructions == (if data.value.instructions.Some? then data.value.instructions.value else [])
              && r.messages != [] && r.messages[|r.messages| - 1] == LogEntry("📱 QR Code received and displayed!", Success)
    ensures !(data.Some? && data.value.qr != "") ==>
              && r.qrCode == p.qrCode && r.instructions == p.instructions
              && r.messages == p.messages + [LogEntry(EventNote("whatsapp:qr"), Info),
                                             LogEntry("❌ QR Code data is invalid", Error)]
    ensures r.status == p.status && r.emitted == p.emitted && p.messages < r.messages
  {
    var p1 := Received(p, "whatsapp:qr");
    var p2 := p1.(debugInfo := p1.debugInfo.(qrAvailable := true));
    if data.Some? && data.value.qr != "" then
      var p3 := DisplayQrCode(p2, data.value.qr, enc);
      var p4 := p3.(instructions := if data.value.instructions.Some? then data.value.instructions.value else []);
      Log(p4, "📱 QR Code received and displayed!", Success)
    else
      Log(p2, "❌ QR Code data is invalid", Error)
  }

  /**
   * `requestQR`: asks the server for the QR code. A successful reply is
   * displayed with its instructions, but the debug record, `qrAvailable`
   * included, is left as it was.
   */
  function RequestQr(p: Page, reply: QrReply, enc: Encoding): (r: Page)
    ensures r.debugInfo == p.debugInfo && r.status == p.status && r.emitted == p.emitted
    ensures reply.QrFetched? && reply.success ==>
              r.qrCode == Some(QrCodeFor(reply.qr, enc)) && r.instructions == reply.instructions
    ensures !(reply.QrFetched? && reply.success) ==> r.qrCode == p.qrCode && r.instructions == p.instructions
    ensures p.messages < r.messages && r.messages[|p.messages|] == LogEntry("🔄 Requesting QR code from server...", Info)
  {
    var p1 := Log(p, "🔄 Requesting QR code from server...", Info);
    match reply
    case QrFetched(success, qr, instructions, message) =>
      if success then Log(DisplayQrCode(p1, qr, enc).(instructions := instructions), "✅ QR code fetched via API", Success)
      else Log(p1, "❌ " + message, Error)
    case QrFetchFailed(error) => Log(p1, "❌ Failed to fetch QR code: " + error, Error)
  }

  /**
   * The 15-second tick as written: its guard reads the debug record captured
   * when the page first rendered, never a later one, so it asks for a QR code
   * every time.
   */
  function AutoTickAsWritten(p: Page, reply: QrReply, enc: Encoding): (r: Page)
    ensures r == RequestQr(p, reply, enc)
  {
    var captured := InitialDebugInfo;
    if !captured.qrAvailable && !captured.botConnected then RequestQr(p, reply, enc) else p
  }

  /** The tick as its comment describes it: ask for a QR code only while none is available and the bot is not connected. */
  function AutoTick(p: Page, reply: QrReply, enc: Encoding): (r: Page)
    ensures r.debugInfo == p.debugInfo
    ensures r == p <==> p.debugInfo.qrAvailable || p.debugInfo.botConnected
    ensures !p.debugInfo.qrAvailable && !p.debugInfo.botConnected ==> r == RequestQr(p, reply, enc)
  {
    if !p.debugInfo.qrAvailable && !p.debugInfo.botConnected then
      var r := RequestQr(p, reply, enc);
      assert r.messages != p.messages;
      r
    else p
  }

  /** `generateQR`: asks the server to produce a new QR code and logs its answer; the state is otherwise untouched. */
  function GenerateQr(p: Page, reply: GenerateReply): (r: Page)
    ensures r.(messages := p.messages) == p
    ensures |r.messages| == |p.messages| + 2 && r.messages[..|p.messages|] == p.messages
    ensures r.messages[|p.messages|] == LogEntry("⚡ Forcing QR code generation...", Warning)
    ensures r.messages[|p.messages| + 1].kind == (if reply.Generated? && reply.success then Success else Error)
  {
    var p1 := Log(p, "⚡ Forcing QR code generation...", Warning);
    match reply
    case Generated(success, message, action) =>
      if success then Log(p1, "✅ " + message + " (Action: " + action + ")", Success)
      else Log(p1, "❌ " + message, Error)
    case GenerateFailed(error) => Log(p1, "❌ Failed to generate QR: " + error, Error)
  }

  /**
   * The timer `generateQR` starts after a successful reply. It tests the
   * `qrAvailable` of the render in which the button was pressed, given here.
   */
  function GenerateQrWait(p: Page, qrAvailableAtClick: bool): (r: Page)
    ensures r.(messages := p.messages) == p
    ensures r.messages == p.messages + (if qrAvailableAtClick then [] else [LogEntry("⏳ Waiting for QR code to generate...", Info)])
  {
    if !qrAvailableAtClick then Log(p, "⏳ Waiting for QR code to generate...", Info) else p
  }

  /**
   * `restartBot`: nothing happens unless the user confirms; a successful
   * restart forgets the bot and its QR code but keeps the socket id and the
   * connection count.
   */
  function RestartBot(p: Page, confirmed: bool, reply: RestartReply): (r: Page)
    ensures !confirmed ==> r == p
    ensures confirmed ==> p.messages < r.messages
    ensures confirmed && reply.Restarted? && reply.success ==>
              && r.debugInfo == p.debugInfo.(botConnected := false, botNumber := None, qrAvailable := false)
              && r.qrCode.None?
    ensures !(confirmed && reply.Restarted? && reply.success) ==> r.debugInfo == p.debugInfo && r.qrCode == p.qrCode
    ensures r.status == p.status && r.instructions == p.instructions && r.emitted == p.emitted
  {
    if !confirmed then p
    else
      var p1 := Log(p, "🔄 Restarting WhatsApp bot...", Warning);
      match reply
      case Restarted(success, message) =>
        if success then
          var p2 := Log(p1, "✅ " + message, Success);
          p2.(debugInfo := p2.debugInfo.(botConnected := false, botNumber := None, qrAvailable := false), qrCode := None)
        else Log(p1, "❌ " + message, Error)
      case RestartFailed(error) => Log(p1, "❌ Failed to restart bot: " + error, Error)
  }

  /** The timer a successful restart starts: one more log entry. */
  function RestartWait(p: Page): (r: Page)
    ensures r.messages == p.messages + [LogEntry("⏳ Waiting for bot to restart and generate QR...", Info)]
    ensures r.(messages := p.messages) == p
  {
    Log(p, "⏳ Waiting for bot to restart and generate QR...", Info)
  }

  /**
   * `checkBotStatus`: a status reply sets the bot as connected exactly when
   * its status is `"connected"`, and takes `qrAvailable` from `hasQR`; a
   * failed request only logs.
   */
  function CheckBotStatus(p: Page, reply: StatusReply): (r: Page)
    ensures reply.StatusFetched? ==>
              && (r.debugInfo.botConnected <==> reply.status == "connected")
              && r.debugInfo.qrAvailable == reply.hasQR
              && r.debugInfo.botNumber == reply.botNumber
              && r.debugInfo.activeConnections == reply.activeConnections
    ensures r.debugInfo.socketId == p.debugInfo.socketId
    ensures reply.StatusFailed? ==> r.debugInfo == p.debugInfo
    ensures r.status == p.status && r.qrCode == p.qrCode && r.instructions == p.instructions && r.emitted == p.emitted
    ensures |r.messages| == |p.messages| + 2 && r.messages[..|p.messages|] == p.messages
  {
    var p1 := Log(p, "📊 Checking bot status...", Info);
    match reply
    case StatusFetched(status, botNumber, active, hasQR) =>
      var p2 := p1.(debugInfo := p1.debugInfo.(botConnected := status == "connected", botNumber := botNumber,
                                               activeConnections := active, qrAvailable := hasQR));
      Log(p2, "📊 Bot Status: " + status + " | QR Available: " + (if hasQR then "Yes" else "No"), Info)
    case StatusFailed(error) => Log(p1, "❌ Failed to check bot status: " + error, Error)
  }

  /** `sendPing`: logs the ping and sends a `ping` event to the server. */
  function SendPing(p: Page): (r: Page)
    ensures r.emitted == p.emitted + ["ping"]
    ensures r.messages == p.messages + [LogEntry("🏓 Sending ping...", Info)]
    ensures r.(messages := p.messages, emitted := p.emitted) == p
  {
    Log(p, "🏓 Sending ping...", Info).(emitted := p.emitted + ["ping"])
  }

  /** `clearMessages`: empties the log and changes nothing else. */
  function ClearMessages(p: Page): (r: Page)
    ensures r.messages == []
    ensures r.(messages := p.messages) == p
  {
    p.(messages := [])
  }

  /**
   * Everything that can happen to the page, with what the outside world
   * delivers. `StaleTick` is the 15-second tick as the page runs it, `Tick`
   * the tick as its comment describes it. `OtherEvent` is a server event
   * with no handler of its own, which only the catch-all listener logs.
   */
  datatype Event =
    | Connect(id: string)
    | ConnectError(errorMessage: string)
    | Disconnect(reason: string)
    | ServerMessage(msg: string)
    | Pong(pong: PongData)
    | BotStatusEvent(botStatus: BotStatus)
    | SetupInstructions(setupMessage: string, setupInstructions: seq<string>)
    | BotConnectedEvent(connected: BotConnectedData)
    | WhatsappQr(qrData: Option<QrData>, qrEncoding: Encoding)
    | Tick(tickReply: QrReply, tickEncoding: Encoding)
    | StaleTick(staleReply: QrReply, staleEncoding: Encoding)
    | RequestQrClick(qrReply: QrReply, requestEncoding: Encoding)
    | GenerateQrClick(generateReply: GenerateReply)
    | GenerateQrTimer(qrAvailableAtClick: bool)
    | RestartClick(confirmed: bool, restartReply: RestartReply)
    | RestartTimer
    | CheckStatus(statusReply: StatusReply)
    | PingClick
    | ClearClick
    | OtherEvent(name: string)

  /** One event. Only clearing removes log entries, and only the ping button sends anything to the server. */
  function Step(p: Page, e: Event): (r: Page)
    ensures !e.ClearClick? ==> p.messages <= r.messages
    ensures !e.PingClick? ==> r.emitted == p.emitted
  {
    match e
    case Connect(id) => OnConnect(p, id)
    case ConnectError(message) => OnConnectError(p, message)
    case Disconnect(reason) => OnDisconnect(p, reason)
    case ServerMessage(msg) => OnMessage(p, msg)
    case Pong(data) => OnPong(p, data)
    case BotStatusEvent(s) => OnBotStatus(p, s)
    case SetupInstructions(message, instructions) => OnSetupInstructions(p, message, instructions)
    case BotConnectedEvent(d) => OnBotConnected(p, d)
    case WhatsappQr(data, enc) => OnWhatsappQr(p, data, enc)
    case Tick(reply, enc) => AutoTick(p, reply, enc)
    case StaleTick(reply, enc) => AutoTickAsWritten(p, reply, enc)
    case RequestQrClick(reply, enc) => RequestQr(p, reply, enc)
    case GenerateQrClick(reply) => GenerateQr(p, reply)
    case GenerateQrTimer(available) => GenerateQrWait(p, available)
    case RestartClick(confirmed, reply) => RestartBot(p, confirmed, reply)
    case RestartTimer => RestartWait(p)
    case CheckStatus(reply) => CheckBotStatus(p, reply)
    case PingClick => SendPing(p)
    case ClearClick => ClearMessages(p)
    case OtherEvent(name) => Received(p, name)
  }

  /** The page after a run of events, in order; without a ping, nothing is sent to the server. */
  function Run(p: Page, events: seq<Event>): (r: Page)
    ensures (forall i :: 0 <= i < |events| ==> !events[i].PingClick?) ==> r.emitted == p.emitted
    decreases |events|
  {
    if events == [] then p else Run(Step(p, events[0]), events[1..])
  }

  /** Every stale tick adds at least one log entry, so a run of them never settles, whatever the page holds. */
  lemma {:induction false} StaleTicksNeverSettle(p: Page, ticks: seq<Event>)
    requires forall i :: 0 <= i < |ticks| ==> ticks[i].StaleTick?
    ensures |Run(p, ticks).messages| >= |p.messages| + |ticks|
    decreases |ticks|
  {
    if ticks != [] {
      var q := Step(p, ticks[0]);
      assert |q.messages| > |p.messages|;
      StaleTicksNeverSettle(q, ticks[1..]);
    }
  }

  /** Across any run without a clear, the log only grows: earlier entries are never rewritten. */
  lemma {:induction false} LogOnlyGrows(p: Page, events: seq<Event>)
    requires forall i :: 0 <= i < |events| ==> !events[i].ClearClick?
    ensures p.messages <= Run(p, events).messages
    decreases |events|
  {
    if events != [] {
      var q := Step(p, events[0]);
      LogOnlyGrows(q, events[1..]);
      PrefixTransitive(p.messages, q.messages, Run(q, events[1..]).messages);
    }
  }

  lemma PrefixTransitive(a: seq<LogEntry>, b: seq<LogEntry>, c: seq<LogEntry>)
    requires a <= b && b <= c
    ensures a <= c
  {
    assert a == b[..|a|] && b == c[..|b|];
  }

  /** Only `connect` sets the socket id: no other event, disconnection included, touches it. */
  lemma {:induction false} SocketIdOnlyFromConnect(p: Page, events: seq<Event>)
    requires forall i :: 0 <= i < |events| ==> !events[i].Connect?
    ensures Run(p, events).debugInfo.socketId == p.debugInfo.socketId
    decreases |events|
  {
    if events != [] {
      SocketIdOnlyFromConnect(Step(p, events[0]), events[1..]);
    }
  }

  /** The events that can take `qrAvailable` back to false: a successful restart, or a status reply. */
  predicate MayResetQrFlag(e: Event)
  {
    || (e.RestartClick? && e.confirmed && e.restartReply.Restarted? && e.restartReply.success)
    || (e.CheckStatus? && e.statusReply.StatusFetched?)
  }

  /**
   * Once a QR code is known to be available it stays so until a restart or
   * a status reply: `bot:connected` in particular leaves the flag set.
   */
  lemma {:induction false} QrFlagSticks(p: Page, events: seq<Event>)
    requires p.debugInfo.qrAvailable
    requires forall i :: 0 <= i < |events| ==> !MayResetQrFlag(events[i])
    ensures Run(p, events).debugInfo.qrAvailable
    decreases |events|
  {
    if events != [] {
      QrFlagSticks(Step(p, events[0]), events[1..]);
    }
  }

  /** After a `whatsapp:qr` event, ticks no longer ask for a QR code, however many follow. */
  lemma {:induction false} TicksIdleOnceQrArrived(p: Page, ticks: seq<Event>)
    requires p.debugInfo.qrAvailable
    requires forall i :: 0 <= i < |ticks| ==> ticks[i].Tick?
    ensures Run(p, ticks) == p
    decreases |ticks|
  {
    if ticks != [] {
      TicksIdleOnceQrArrived(Step(p, ticks[0]), ticks[1..]);
    }
  }

  /** A QR payload, even an invalid one, marks a QR code as available, so the next tick stays idle. */
  lemma QrEventStopsTicks(p: Page, data: Option<QrData>, enc: Encoding, reply: QrReply, tickEnc: Encoding)
    ensures var q := OnWhatsappQr(p, data, enc);
      q.debugInfo.qrAvailable && AutoTick(q, reply, tickEnc) == q
  {
  }

  /**
   * The page as written keeps asking: right after a QR code has arrived, its
   * tick still requests another, where the intended tick does nothing.
   */
  lemma StaleTickRequestsDespiteQr(reply: QrReply, enc: Encoding)
    ensures var q := OnWhatsappQr(InitialPage, Some(QrData("2@abc", None)), enc);
      && q.debugInfo.qrAvailable
      && AutoTickAsWritten(q, reply, enc) != q
      && AutoTick(q, reply, enc) == q
  {
    var q := OnWhatsappQr(InitialPage, Some(QrData("2@abc", None)), enc);
    assert |AutoTickAsWritten(q, reply, enc).messages| > |q.messages|;
  }

  /** A bot that is connected is never sent a QR request by the intended tick. */
  lemma ConnectedBotIsNotAskedForQr(p: Page, d: BotConnectedData, reply: QrReply, enc: Encoding)
    ensures var q := OnBotConnected(p, d);
      AutoTick(q, reply, enc) == q
  {
  }

  /** Restarting resets exactly what `checkBotStatus` would refresh, apart from the connection count. */
  lemma RestartThenStatus(p: Page, message: string, reply: StatusReply)
    requires reply.StatusFetched?
    ensures var q := CheckBotStatus(RestartBot(p, true, Restarted(true, message)), reply);
      && q.debugInfo == p.debugInfo.(botConnected := reply.status == "connected", botNumber := reply.botNumber,
                                     activeConnections := reply.activeConnections, qrAvailable := reply.hasQR)
      && q.qrCode.None?
  {
  }

  /** The pairing page: its fields are the component's state. */
  class WhatsappBotClient {
    var status: Status
    var messages: seq<LogEntry>
    var instructions: seq<string>
    var qrCode: Option<QrCode>
    var debugInfo: DebugInfo
    var emitted: seq<string>

    function Snapshot(): Page
      reads this
    {
      Page(status, messages, instructions, qrCode, debugInfo, emitted)
    }

    constructor ()
      ensures Snapshot() == InitialPage
    {
      status := Status("🔄 Connecting to server...", Connecting);
      messages := [];
      instructions := ["Connecting to server..."];
      qrCode := None;
      debugInfo := InitialDebugInfo;
      emitted := [];
    }

    method AddMessage(text: string, kind: MessageKind)
      modifies this
      ensures Snapshot() == Log(old(Snapshot()), text, kind)
    {
      messages := messages + [LogEntry(text, kind)];
    }

    method Connect(id: string)
      modifies this
      ensures Snapshot() == OnConnect(old(Snapshot()), id)
    {
      debugInfo := debugInfo.(socketId := Some(id));
      status := Status("✅ Connected: " + id, Connected);
      AddMessage("✅ Connected to WebSocket server", Success);
    }

    method ConnectError(message: string)
      modifies this
      ensures Snapshot() == OnConnectError(old(Snapshot()), message)
    {
      status := Status("❌ Connection Error: " + message, Disconnected);
      AddMessage("❌ Connection Error: " + message, Error);
    }

    method Disconnect(reason: string)
      modifies this
      ensures Snapshot() == OnDisconnect(old(Snapshot()), reason)
    {
      status := Status("❌ Disconnected: " + reason, Disconnected);
      AddMessage("❌ Disconnected: " + reason, Error);
    }

    method Message(msg: string)
      modifies this
      ensures Snapshot() == OnMessage(old(Snapshot()), msg)
    {
      AddMessage(EventNote("message"), Info);
      AddMessage("📨 Server: " + msg, Info);
    }

    method HandlePong(data: PongData)
      modifies this
      ensures Snapshot() == OnPong(old(Snapshot()), data)
    {
      AddMessage(EventNote("pong"), Info);
      match data {
        case BotStatusPong(connected, botNumber, active) =>
          debugInfo := debugInfo.(botConnected := connected, botNumber := botNumber, activeConnections := active);
          var shown := if botNumber.Some? && botNumber.value != "" then botNumber.value else "N/A";
          AddMessage("🏓 Pong: Bot " + ConnectedWord(connected) + " | Connections: " + IntToString(active)
                     + " | Number: " + shown, Success);
        case PlainPong =>
          AddMessage("🏓 Pong received", Success);
      }
    }

    method HandleBotStatus(s: BotStatus)
      modifies this
      ensures Snapshot() == OnBotStatus(old(Snapshot()), s)
    {
      AddMessage(EventNote("bot:status"), Info);
      debugInfo := debugInfo.(botConnected := s.connected, botNumber := s.botNumber,
                              activeConnections := s.activeConnections);
      AddMessage("🤖 Bot Status: " + ConnectedWord(s.connected) + " | Active Connections: "
                 + IntToString(s.activeConnections) + " | Uptime: " + IntToString(s.uptimeSeconds) + "s", Info);
    }

    method HandleSetupInstructions(message: string, list: seq<string>)
      modifies this
      ensures Snapshot() == OnSetupInstructions(old(Snapshot()), message, list)
    {
      AddMessage(EventNote("bot:setup-instructions"), Info);
      AddMessage("📋 " + message, Info);
      instructions := list;
    }

    method HandleBotConnected(d: BotConnectedData)
      modifies this
      ensures Snapshot() == OnBotConnected(old(Snapshot()), d)
    {
      AddMessage(EventNote("bot:connected"), Info);
      debugInfo := debugInfo.(botConnected := true, botNumber := d.botNumber, activeConnections := d.activeConnections);
      AddMessage("✅ " + d.message + " | Bot Number: " + ShowNumber(d.botNumber) + " | Active Connections: "
                 + IntToString(d.activeConnections), Success);
      instructions := d.instructions;
    }

    method DisplayQRCode(qr: string, enc: Encoding)
      modifies this
      ensures Snapshot() == DisplayQrCode(old(Snapshot()), qr, enc)
    {
      if LooksWhatsappEncoded(qr) {
        AddMessage("🔍 Detected WhatsApp encoded QR data format", Info);
      }
      match enc {
        case Encoded(text) =>
          qrCode := Some(QrImage(qr, qr, |qr|, QrServerPrefix + text, ChartPrefix + text));
          AddMessage("✅ QR Code generated successfully", Success);
        case EncodeThrew(message) =>
          qrCode := Some(QrFallback(qr, |qr|));
          AddMessage("❌ QR Code display error: " + message, Error);
      }
    }

    method HandleWhatsappQr(data: Option<QrData>, enc: Encoding)
      modifies this
      ensures Snapshot() == OnWhatsappQr(old(Snapshot()), data, enc)
    {
      AddMessage(EventNote("whatsapp:qr"), Info);
      debugInfo := debugInfo.(qrAvailable := true);
      if data.Some? && data.value.qr != "" {
        DisplayQRCode(data.value.qr, enc);
        instructions := if data.value.instructions.Some? then data.value.instructions.value else [];
        AddMessage("📱 QR Code received and displayed!", Success);
      } else {
        AddMessage("❌ QR Code data is invalid", Error);
      }
    }

    method RequestQR(reply: QrReply, enc: Encoding)
      modifies this
      ensures Snapshot() == RequestQr(old(Snapshot()), reply, enc)
    {
      AddMessage("🔄 Requesting QR code from server...", Info);
      match reply {
        case QrFetched(success, qr, list, message) =>
          if success {
            DisplayQRCode(qr, enc);
            instructions := list;
            AddMessage("✅ QR code fetched via API", Success);
          } else {
            AddMessage("❌ " + message, Error);
          }
        case QrFetchFailed(error) =>
          AddMessage("❌ Failed to fetch QR code: " + error, Error);
      }
    }

    /** The 15-second tick as the page runs it: its guard reads the debug record of the first render. */
    method StaleQrTick(reply: QrReply, enc: Encoding)
      modifies this
      ensures Snapshot() == AutoTickAsWritten(old(Snapshot()), reply, enc)
    {
      var captured := InitialDebugInfo;
      if !captured.qrAvailable && !captured.botConnected {
        RequestQR(reply, enc);
      }
    }

    /** The 15-second tick as its comment describes it, with its guard read from the current debug record. */
    method AutoQrTick(reply: QrReply, enc: Encoding)
      modifies this
      ensures Snapshot() == AutoTick(old(Snapshot()), reply, enc)
    {
      if !debugInfo.qrAvailable && !debugInfo.botConnected {
        RequestQR(reply, enc);
      }
    }

    method GenerateQR(reply: GenerateReply)
      modifies this
      ensures Snapshot() == GenerateQr(old(Snapshot()), reply)
    {
      AddMessage("⚡ Forcing QR code generation...", Warning);
      match reply {
        case Generated(success, message, action) =>
          if success {
            AddMessage("✅ " + message + " (Action: " + action + ")", Success);
          } else {
            AddMessage("❌ " + message, Error);
          }
        case GenerateFailed(error) =>
          AddMessage("❌ Failed to generate QR: " + error, Error);
      }
    }

    method GenerateQRTimer(qrAvailableAtClick: bool)
      modifies this
      ensures Snapshot() == GenerateQrWait(old(Snapshot()), qrAvailableAtClick)
    {
      if !qrAvailableAtClick {
        AddMessage("⏳ Waiting for QR code to generate...", Info);
      }
    }

    method RestartBotClick(confirmed: bool, reply: RestartReply)
      modifies this
      ensures Snapshot() == RestartBot(old(Snapshot()), confirmed, reply)
    {
      if !confirmed {
        return;
      }
      AddMessage("🔄 Restarting WhatsApp bot...", Warning);
      match reply {
        case Restarted(success, message) =>
          if success {
            AddMessage("✅ " + message, Success);
            debugInfo := debugInfo.(botConnected := false, botNumber := None, qrAvailable := false);
            qrCode := None;
          } else {
            AddMessage("❌ " + message, Error);
          }
        case RestartFailed(error) =>
          AddMessage("❌ Failed to restart bot: " + error, Error);
      }
    }

    method RestartTimer()
      modifies this
      ensures Snapshot() == RestartWait(old(Snapshot()))
    {
      AddMessage("⏳ Waiting for bot to restart and generate QR...", Info);
    }

    method CheckStatus(reply: StatusReply)
      modifies this
      ensures Snapshot() == CheckBotStatus(old(Snapshot()), reply)
    {
      AddMessage("📊 Checking bot status...", Info);
      match reply {
        case StatusFetched(s, botNumber, active, hasQR) =>
          debugInfo := debugInfo.(botConnected := s == "connected", botNumber := botNumber,
                                  activeConnections := active, qrAvailable := hasQR);
          AddMessage("📊 Bot Status: " + s + " | QR Available: " + (if hasQR then "Yes" else "No"), Info);
        case StatusFailed(error) =>
          AddMessage("❌ Failed to check bot status: " + error, Error);
      }
    }

    method Ping()
      modifies this
      ensures Snapshot() == SendPing(old(Snapshot()))
    {
      AddMessage("🏓 Sending ping...", Info);
      emitted := emitted + ["ping"];
    }

    method Clear()
      modifies this
      ensures Snapshot() == ClearMessages(old(Snapshot()))
    {
      messages := [];
    }
  }
}
