/**
 * The decision logic of the home-theatre control client: the fixed device table,
 * the two senders (`irsend` for infrared, `cec-client` for HDMI-CEC), the MQTT
 * message handler that picks one of them and decides whether to publish a status
 * message, and the topic that the one-shot `send` command publishes to.
 *
 * Running the external programs is not modelled; their outcome is an input
 * (`Transport`), and the handler returns a `Decision` record that says which
 * sender it invoked, with what, which errors it logged and what it published.
 */
module Control {
  import opened Wrappers
  import opened GoStrings

  const DevtypeIr: string := "ir"
  const DevtypeCec: string := "cec"
  const DefaultTopicControl: string := "ht/control"
  const DefaultTopicStatus: string := "ht/status"

  /** The built-in table from device name to transport type. */
  function Devices(): (table: map<string, string>)
    ensures table.Keys == {"sonytv", "marantz", "lgtv"}
    ensures forall device :: device in table ==> table[device] in {DevtypeIr, DevtypeCec}
  {
    map["sonytv" := DevtypeIr, "marantz" := DevtypeIr, "lgtv" := DevtypeCec]
  }

  /** `devtype, ok := devices[device]`: the stored type, or Go's zero value "" when absent. */
  function DevType(devices: map<string, string>, device: string): (devtype: string)
    ensures device !in devices ==> devtype == ""
    ensures device in devices ==> devtype == devices[device]
  {
    if device in devices then devices[device] else ""
  }

  /** The built-in table: two infrared devices, one CEC device, nothing else. */
  lemma DevicesFixed(device: string)
    ensures device in Devices() <==> device in {"sonytv", "marantz", "lgtv"}
    ensures DevType(Devices(), device) == DevtypeIr <==> device == "sonytv" || device == "marantz"
    ensures DevType(Devices(), device) == DevtypeCec <==> device == "lgtv"
  {
  }

  /** Result of running an external program. */
  datatype Outcome = Ok | Err

  /**
   * What the outside world does when the handler runs a sender: whether `irsend`
   * succeeds, whether creating the stdin pipe of `cec-client` succeeds, and
   * whether `cec-client` itself succeeds.
   */
  datatype Transport = Transport(irsend: Outcome, cecPipe: Outcome, cecRun: Outcome)

  /** Which sender the handler invoked, and with what. */
  datatype Invocation =
    | NoSender
      /** `runIrsend`: the full command line of the `irsend` process. */
    | Irsend(argv: seq<string>)
      /**
       * `runCEC`: the directive for `cec-client`, and whether `cmd.Run` was called,
       * which happens exactly when the stdin pipe was created. A call of `cmd.Run`
       * does not mean a process started: Run can fail before that (the program
       * missing from PATH, say), and that failure is dropped like any other.
       */
    | Cec(input: string, runCalled: bool)

  /** An outbound MQTT message. */
  datatype Message = Message(topic: string, payload: string)

  /** Errors the handler logs. */
  datatype LogEntry =
    | InvalidDevice(device: string)
    | IrsendFailed(argv: seq<string>)
    | CecPipeFailed

  /** Everything one call of the handler does. */
  datatype Decision = Decision(errors: seq<LogEntry>, invoked: Invocation, status: Option<Message>)

  /** The payloads that produce a status message; each starts with "power". */
  predicate IsPowerAction(action: string)
    ensures IsPowerAction(action) ==> |action| > 5 && action[..5] == "power"
  {
    action == "poweron" || action == "poweroff"
  }

  /** The `irsend` command line for one button press. */
  function IrsendArgv(device: string, action: string): (argv: seq<string>)
    ensures |argv| == 4 && argv[0] == "irsend" && argv[1] == "send_once"
    ensures argv[2] == device && argv[3] == action
  {
    ["irsend", "send_once", device, action]
  }

  /** `runIrsend`: the action is passed through unchanged; the run's failure is the error. */
  function RunIrsend(device: string, action: string, run: Outcome): (r: (Invocation, Outcome))
    ensures r.0 == Irsend(IrsendArgv(device, action))
    ensures r.1 == Err <==> run == Err
  {
    (Irsend(IrsendArgv(device, action)), run)
  }

  /** The directive written to `cec-client`: power on, standby, or a harmless ping. */
  function CecInput(action: string): (input: string)
    ensures input == "on 0" <==> action == "poweron"
    ensures input == "standby 0" <==> action == "poweroff"
    ensures input == "ping" <==> !IsPowerAction(action)
  {
    match action
    case "poweron" => "on 0"
    case "poweroff" => "standby 0"
    case _ => "ping"
  }

  /**
   * `runCEC`: only a failure to create the stdin pipe is reported, and then `cmd.Run`
   * is not called; once the pipe exists the function reports success whatever
   * `cmd.Run` returned.
   */
  function RunCec(action: string, pipe: Outcome, run: Outcome): (r: (Invocation, Outcome))
    ensures r.0 == Cec(CecInput(action), pipe == Ok)
    ensures r.1 == Err <==> pipe == Err
  {
    match pipe
    case Err => (Cec(CecInput(action), false), Err)
    case Ok => (Cec(CecInput(action), true), Ok)
  }

  /** The outcome of the CEC process never reaches the caller of `runCEC`. */
  lemma RunCecIgnoresRun(action: string, pipe: Outcome)
    ensures RunCec(action, pipe, Ok) == RunCec(action, pipe, Err)
  {
  }

  /**
   * A topic the handler can take apart: it has at least three `/`-separated
   * segments, that is, at least two slashes.
   */
  predicate HasDeviceSegment(topic: string)
    ensures HasDeviceSegment(topic) <==> Count(topic, '/') >= 2
  {
    |Split(topic, '/')| >= 3
  }

  /** The device named by a topic: its third `/`-separated segment. */
  function DeviceName(topic: string): (device: string)
    requires HasDeviceSegment(topic)
    ensures '/' !in device
  {
    Split(topic, '/')[2]
  }

  /** A topic built from separator-free segments names its third segment. */
  lemma DeviceNameOfJoin(parts: seq<string>)
    requires |parts| >= 3
    requires forall i :: 0 <= i < |parts| ==> '/' !in parts[i]
    ensures HasDeviceSegment(Join(parts, '/'))
    ensures DeviceName(Join(parts, '/')) == parts[2]
  {
    SplitJoin(parts, '/');
  }

  /**
   * The server subscribes to `<control-topic>/#`. With the default control topic,
   * every topic below it is in the handler's domain, and the device is the first
   * level below the control topic.
   */
  lemma {:induction false} DeviceUnderControlTopic(suffix: string)
    ensures HasDeviceSegment(DefaultTopicControl + "/" + suffix)
    ensures DeviceName(DefaultTopicControl + "/" + suffix) == Split(suffix, '/')[0]
  {
    var topic := DefaultTopicControl + "/" + suffix;
    assert topic == "ht" + ['/'] + ("control" + ['/'] + suffix);
    SplitCons("ht", '/', "control" + ['/'] + suffix);
    SplitCons("control", '/', suffix);
  }

  /** `fmt.Sprintf("%s/%s", status_topic, device)`. */
  function StatusTopic(statusTopic: string, device: string): (topic: string)
    ensures |topic| == |statusTopic| + 1 + |device|
    ensures topic[..|statusTopic|] == statusTopic && topic[|statusTopic|] == '/'
    ensures topic[|statusTopic| + 1..] == device
  {
    statusTopic + "/" + device
  }

  /** Under the default status topic, the device can be read back from a status topic. */
  lemma StatusTopicNamesDevice(device: string)
    requires '/' !in device
    ensures HasDeviceSegment(StatusTopic(DefaultTopicStatus, device))
    ensures DeviceName(StatusTopic(DefaultTopicStatus, device)) == device
  {
    JoinThree("ht", "status", device, '/');
    assert StatusTopic(DefaultTopicStatus, device) == "ht" + ['/'] + "status" + ['/'] + device;
    DeviceNameOfJoin(["ht", "status", device]);
  }

  /** `strings.Replace(action, "power", "", 1)`. */
  function StatusPayload(action: string): (payload: string)
    ensures action == "poweron" ==> payload == "on"
    ensures action == "poweroff" ==> payload == "off"
  {
    assert "poweron" == "power" + "on";
    assert "poweroff" == "power" + "off";
    ReplaceLeading("power", "", "on");
    ReplaceLeading("power", "", "off");
    ReplaceFirst(action, "power", "")
  }

  /** The tail of the handler: publish a status only for a power action. */
  function Respond(errors: seq<LogEntry>, invoked: Invocation, action: string,
                   statusTopic: string, device: string): (d: Decision)
    ensures d.errors == errors && d.invoked == invoked
    ensures d.status.Some? <==> IsPowerAction(action)
    ensures d.status.Some? ==> d.status.value.topic == StatusTopic(statusTopic, device)
  {
    if IsPowerAction(action) then
      Decision(errors, invoked, Some(Message(StatusTopic(statusTopic, device), StatusPayload(action))))
    else
      Decision(errors, invoked, None)
  }

  /**
   * The message handler built by `makeMessageHandler(statusTopic)`, for one message.
   * An unknown device is logged but not rejected, the payload is never checked
   * against a vocabulary, a failed `irsend` suppresses the status, and a failed
   * `cec-client` run does not.
   */
  function Handle(topic: string, payload: string, statusTopic: string,
                  devices: map<string, string>, t: Transport): (d: Decision)
    requires HasDeviceSegment(topic)
    ensures var device := DeviceName(topic);
      && (InvalidDevice(device) in d.errors <==> device !in devices)
      && (DevType(devices, device) == DevtypeIr ==> d.invoked == Irsend(IrsendArgv(device, payload)))
      && (DevType(devices, device) == DevtypeCec ==> d.invoked == Cec(CecInput(payload), t.cecPipe == Ok))
      && (d.invoked == NoSender <==> DevType(devices, device) !in {DevtypeIr, DevtypeCec})
    ensures var devtype := DevType(devices, DeviceName(topic));
      d.status.Some? <==>
        && IsPowerAction(payload)
        && !(devtype == DevtypeIr && t.irsend == Err)
        && !(devtype == DevtypeCec && t.cecPipe == Err)
    ensures var devtype := DevType(devices, DeviceName(topic));
      d.errors == [] <==>
        && DeviceName(topic) in devices
        && !(devtype == DevtypeIr && t.irsend == Err)
        && !(devtype == DevtypeCec && t.cecPipe == Err)
    ensures d.status.Some? ==>
      d.status.value == Message(StatusTopic(statusTopic, DeviceName(topic)),
                                if payload == "poweron" then "on" else "off")
  {
    var action := payload;
    var device := DeviceName(topic);
    var errors := if device in devices then [] else [InvalidDevice(device)];
    var devtype := DevType(devices, device);
    if devtype == DevtypeIr then
      var (invoked, err) := RunIrsend(device, action, t.irsend);
      if err == Err then Decision(errors + [IrsendFailed(IrsendArgv(device, action))], invoked, None)
      else Respond(errors, invoked, action, statusTopic, device)
    else if devtype == DevtypeCec then
      var (invoked, err) := RunCec(action, t.cecPipe, t.cecRun);
      if err == Err then Decision(errors + [CecPipeFailed], invoked, None)
      else Respond(errors, invoked, action, statusTopic, device)
    else
      Respond(errors, NoSender, action, statusTopic, device)
  }

  /** With the built-in table, an unknown device is logged, nothing is run, and a power action is still reported. */
  lemma UnknownDeviceNotRejected(topic: string, payload: string, statusTopic: string, t: Transport)
    requires HasDeviceSegment(topic)
    requires DeviceName(topic) !in Devices()
    ensures var d := Handle(topic, payload, statusTopic, Devices(), t);
      && d.errors == [InvalidDevice(DeviceName(topic))]
      && d.invoked == NoSender
      && (d.status.Some? <==> IsPowerAction(payload))
  {
    DevicesFixed(DeviceName(topic));
  }

  /** The exit status of `cec-client` has no effect on what the handler does. */
  lemma HandleIgnoresCecRun(topic: string, payload: string, statusTopic: string,
                            devices: map<string, string>, irsend: Outcome, pipe: Outcome)
    requires HasDeviceSegment(topic)
    ensures Handle(topic, payload, statusTopic, devices, Transport(irsend, pipe, Ok))
         == Handle(topic, payload, statusTopic, devices, Transport(irsend, pipe, Err))
  {
  }

  /** For an infrared device any payload, "on" included, goes to `irsend` verbatim, and only power actions are reported. */
  lemma IrPayloadNotValidated(topic: string, payload: string, statusTopic: string, t: Transport)
    requires HasDeviceSegment(topic)
    requires DeviceName(topic) in {"sonytv", "marantz"}
    ensures var d := Handle(topic, payload, statusTopic, Devices(), t);
      && d.invoked == Irsend(["irsend", "send_once", DeviceName(topic), payload])
      && (t.irsend == Err ==> d.status == None && d.errors == [IrsendFailed(d.invoked.argv)])
      && (t.irsend == Ok ==> (d.status.Some? <==> IsPowerAction(payload)))
  {
    DevicesFixed(DeviceName(topic));
  }

  /**
   * A `cec` device whose stdin pipe cannot be created: the failure is logged,
   * `cmd.Run` is not called and no status is published, whatever the payload.
   */
  lemma CecPipeFailureLogged(topic: string, payload: string, statusTopic: string, t: Transport)
    requires HasDeviceSegment(topic)
    requires DeviceName(topic) == "lgtv" && t.cecPipe == Err
    ensures var d := Handle(topic, payload, statusTopic, Devices(), t);
      && d.errors == [CecPipeFailed]
      && d.invoked == Cec(CecInput(payload), false)
      && d.status == None
  {
    DevicesFixed(DeviceName(topic));
  }

  /** The status topics of the two scenarios below, spelt out. */
  lemma ScenarioStatusTopics()
    ensures StatusTopic(DefaultTopicStatus, "sonytv") == "ht/status/sonytv"
    ensures StatusTopic(DefaultTopicStatus, "lgtv") == "ht/status/lgtv"
  {
  }

  /** Under the default control topic, `ht/control/<device>` names that device. */
  lemma ControlTopicNamesDevice(device: string)
    requires '/' !in device
    ensures HasDeviceSegment(DefaultTopicControl + "/" + device)
    ensures DeviceName(DefaultTopicControl + "/" + device) == device
  {
    DeviceUnderControlTopic(device);
    SplitAtom(device, '/');
  }

  /** `ht/control/sonytv` with `poweron`: `irsend send_once sonytv poweron`, then `ht/status/sonytv` gets `on`. */
  lemma SonyPowerOn(t: Transport)
    requires t.irsend == Ok
    ensures HasDeviceSegment("ht/control/sonytv")
    ensures Handle("ht/control/sonytv", "poweron", DefaultTopicStatus, Devices(), t)
         == Decision([], Irsend(["irsend", "send_once", "sonytv", "poweron"]),
                     Some(Message("ht/status/sonytv", "on")))
  {
    assert "ht/control/sonytv" == DefaultTopicControl + "/" + "sonytv";
    ControlTopicNamesDevice("sonytv");
    ScenarioStatusTopics();
    DevicesFixed("sonytv");
  }

  /** `ht/control/lgtv` with `poweroff`: `cec-client` gets "standby 0", then `ht/status/lgtv` gets `off`. */
  lemma LgPowerOff(t: Transport)
    requires t.cecPipe == Ok
    ensures HasDeviceSegment("ht/control/lgtv")
    ensures Handle("ht/control/lgtv", "poweroff", DefaultTopicStatus, Devices(), t)
         == Decision([], Cec("standby 0", true), Some(Message("ht/status/lgtv", "off")))
  {
    assert "ht/control/lgtv" == DefaultTopicControl + "/" + "lgtv";
    ControlTopicNamesDevice("lgtv");
    ScenarioStatusTopics();
    DevicesFixed("lgtv");
  }

  /** `cli.Args.Get(i)`: the i-th argument, or "" when there are fewer. */
  function ArgAt(args: seq<string>, i: nat): (arg: string)
    ensures i < |args| ==> arg == args[i]
    ensures i >= |args| ==> arg == ""
  {
    if i < |args| then args[i] else ""
  }

  /** The one message `runSend` publishes for `send <device> <status>`; the status is not checked. */
  function SendMessage(statusTopic: string, args: seq<string>): (m: Message)
    ensures |args| >= 2 ==> m == Message(StatusTopic(statusTopic, args[0]), args[1])
    ensures |args| >= 1 ==> m.topic == StatusTopic(statusTopic, args[0])
    ensures |args| < 2 ==> m.payload == ""
    ensures |args| == 0 ==> m.topic == statusTopic + "/"
  {
    Message(StatusTopic(statusTopic, ArgAt(args, 0)), ArgAt(args, 1))
  }

  /**
   * `send <device> on|off` publishes exactly the message the server publishes after
   * it has powered that device on or off.
   */
  lemma SendMatchesHandler(topic: string, payload: string, statusTopic: string,
                           devices: map<string, string>, t: Transport)
    requires HasDeviceSegment(topic)
    ensures var status := Handle(topic, payload, statusTopic, devices, t).status;
      status.Some? ==> status.value == SendMessage(statusTopic, [DeviceName(topic), StatusPayload(payload)])
  {
  }

  /**
   * The "Invalid device" line as the handler writes it: the device is inside the
   * format string, so the `%s` verb has no argument and Go prints its placeholder.
   */
  function InvalidDeviceLineAsWritten(device: string): (line: string)
    ensures '%' in line
  {
    "Invalid device '%!s(MISSING)', device"
  }

  /** As written, the line is the same for every device: it cannot tell which one was unknown. */
  lemma InvalidDeviceLineLosesDevice(a: string, b: string)
    ensures InvalidDeviceLineAsWritten(a) == InvalidDeviceLineAsWritten(b)
  {
  }

  /** The intended "Invalid device" line, with the device quoted. */
  function InvalidDeviceLine(device: string): (line: string)
    ensures |line| == |device| + 17
    ensures line[16..16 + |device|] == device
  {
    "Invalid device '" + device + "'"
  }

  /** The intended line identifies the device: different devices give different lines. */
  lemma InvalidDeviceLineInjective(a: string, b: string)
    requires InvalidDeviceLine(a) == InvalidDeviceLine(b)
    ensures a == b
  {
  }

  /** The error line the handler logs for an entry, as the code writes it. */
  function LogLine(e: LogEntry): (line: string)
    ensures e.InvalidDevice? ==> line == InvalidDeviceLineAsWritten(e.device)
    ensures e.IrsendFailed? ==> line == "Error sending IR message: Failed to run command " + ArgvText(e.argv)
    ensures e.CecPipeFailed? ==> line == "Error sending CEC command: Failed to create stdin pipe"
  {
    match e
    case InvalidDevice(device) => InvalidDeviceLineAsWritten(device)
    case IrsendFailed(argv) => "Error sending IR message: Failed to run command " + ArgvText(argv)
    case CecPipeFailed => "Error sending CEC command: Failed to create stdin pipe"
  }

  /** The error line the handler should log: as `LogLine`, with the device quoted in the invalid-device line. */
  function IntendedLogLine(e: LogEntry): (line: string)
    ensures e.InvalidDevice? ==> line == InvalidDeviceLine(e.device)
    ensures !e.InvalidDevice? ==> line == LogLine(e)
  {
    match e
    case InvalidDevice(device) => InvalidDeviceLine(device)
    case _ => LogLine(e)
  }

  /** Go's `%v` rendering of a string slice: the elements, space-separated, in brackets. */
  function ArgvText(argv: seq<string>): (text: string)
    ensures |text| >= 2 && text[0] == '[' && text[|text| - 1] == ']'
    ensures text[1..|text| - 1] == Join(argv, ' ')
  {
    "[" + Join(argv, ' ') + "]"
  }

  /** A command line whose arguments hold no spaces can be read back from its rendering. */
  lemma ArgvTextReadBack(argv: seq<string>)
    requires |argv| >= 1
    requires forall i :: 0 <= i < |argv| ==> ' ' !in argv[i]
    ensures var text := ArgvText(argv); Split(text[1..|text| - 1], ' ') == argv
  {
    SplitJoin(argv, ' ');
  }
}
