# htcontrol: verified model of the control handler and the config store

`htcontrol` is a small home-theatre client. It watches the MQTT topics under a
control prefix (`ht/control` by default). For each message it runs `irsend` or
`cec-client` to send the device an infrared or HDMI-CEC command. For a power
command it then publishes the new state on the status prefix (`ht/status`).
Its `send` sub-command publishes one status message and exits. A separate
`config` package holds a key/value store backed by a map.

This project models two parts in Dafny:

- `control.dfy` (module `Control`) covers the decision logic of `main.go`:
  - the fixed device table;
  - `runIrsend` and `runCEC`, including the CEC action-to-directive mapping;
  - the handler built by `makeMessageHandler`;
  - the topic `runSend` publishes to.

  The handler is a total function. It takes the topic, the payload, the status
  topic, the device table and the outcome of the external programs
  (`Transport`). It returns a `Decision`: the errors it logged, the sender it
  invoked and with what, and the status message it published, if any.
- `config.dfy` (module `ConfigStore`) models `config.Config` as a class with a
  `map<string, Value>` field:
  - `New` and `Load` are the constructor and a static method;
  - `Get` and `GetString` are functions that read the object;
  - `Set` is a method that modifies it.
- `gostrings.dfy` (module `GoStrings`) gives the Go library behaviour the
  handler depends on: `strings.Split` with a one-character separator,
  `strings.Index`, and `strings.Replace` with a count of one.
- `wrappers.dfy` defines `Option`.

The model follows the code as written, and the code does less checking than a
cautious reading of the program's purpose would suggest:

- The payload is never checked against a vocabulary. For an infrared device,
  any payload goes to `irsend` verbatim.
- An unknown device is logged and not rejected. No sender runs, but a
  `poweron`/`poweroff` payload is still reported on the status topic.
- `runCEC` returns `nil` whatever `cec-client` did. Only a failure to create the
  stdin pipe suppresses the status.
- The device is always segment 2 of the topic, whatever the configured control
  topic is. With a deeper control topic such as `home/ht/control`, the handler
  reads `control` as the device name.
- The subscription is `<control-topic>/#`, which in MQTT also matches the
  control topic itself. That topic has only two segments, so indexing segment 2
  would panic. `Handle` therefore requires at least three segments.
- `config.Config` is not used by `main.go`. There is no layered merge of
  defaults, a file and overrides. Broker settings come from the command-line
  library's flags.

## Model

| member | source | states |
|---|---|---|
| `GoStrings.Split` | htcontrol/main.go:92 | `strings.Split` on `/`: one more segment than there are separators in the string, and no segment contains the separator |
| `GoStrings.JoinSplit` | htcontrol/main.go:92 | joining the segments of a split with the separator gives back the topic (round trip) |
| `GoStrings.SplitJoin` | htcontrol/main.go:92 | splitting a join of separator-free segments gives back the segments (the other round trip) |
| `GoStrings.Index` | htcontrol/main.go:118 | the index `strings.Replace` searches for is an occurrence of the pattern with no earlier occurrence; none means the pattern does not occur at all |
| `GoStrings.ReplaceFirst` | htcontrol/main.go:118 | `strings.Replace(s, old, new, 1)`: unchanged when `old == new` or `old` does not occur, otherwise the first occurrence and only it is replaced |
| `GoStrings.ReplaceLeading` | htcontrol/main.go:118 | replacing a pattern that starts the string swaps that prefix for the replacement |
| `Control.Devices` | htcontrol/main.go:38-42 | the table knows exactly `sonytv`, `marantz` and `lgtv`, and each maps to one of the two transport types `ir` and `cec` |
| `Control.DevType` | htcontrol/main.go:96 | a name missing from the table yields Go's zero value `""`, a present one its stored type |
| `Control.DevicesFixed` | htcontrol/main.go:38-42 | exactly `sonytv`, `marantz` and `lgtv` are known; the first two are infrared, `lgtv` is CEC |
| `Control.IsPowerAction` | htcontrol/main.go:116 | the payloads that produce a status, `poweron` and `poweroff`, both start with `power` and are longer than it |
| `Control.IrsendArgv` | htcontrol/main.go:45 | the command line is `irsend send_once <device> <action>` with the action verbatim |
| `Control.RunIrsend` | htcontrol/main.go:44-51 | `runIrsend` invokes that command line and fails exactly when the run fails |
| `Control.CecInput` | htcontrol/main.go:56-63 | `poweron` becomes `on 0`, `poweroff` becomes `standby 0`, every other action `ping`, each in both directions |
| `Control.RunCec` | htcontrol/main.go:53-81 | `runCEC` writes the mapped directive; it reports an error exactly when the stdin pipe cannot be created, and `cmd.Run` is called exactly when the pipe was created (whether a process then starts is not observed) |
| `Control.RunCecIgnoresRun` | htcontrol/main.go:75-80 | the exit status of `cec-client` never reaches the caller |
| `Control.HasDeviceSegment` | htcontrol/main.go:92-93 | indexing segment 2 of the split topic is safe exactly when the topic holds at least two `/` |
| `Control.DeviceName` | htcontrol/main.go:92-93 | the device is the third `/`-separated segment of the topic and holds no `/`; fewer segments are outside the domain |
| `Control.DeviceNameOfJoin` | htcontrol/main.go:92-93 | a topic made of separator-free segments names its third segment |
| `Control.DeviceUnderControlTopic` | htcontrol/main.go:145 | every topic strictly below the default `ht/control` prefix has a device segment, namely the first level below the prefix |
| `Control.ControlTopicNamesDevice` | htcontrol/main.go:91-93 | a message on `ht/control/<device>` names that device |
| `Control.StatusTopic` | htcontrol/main.go:117 | the status topic is the status prefix, a `/`, then the device |
| `Control.StatusTopicNamesDevice` | htcontrol/main.go:117 | under the default status prefix, the device can be read back from its status topic as segment 2 |
| `Control.StatusPayload` | htcontrol/main.go:118 | removing the first `power` turns `poweron` into `on` and `poweroff` into `off` |
| `Control.Respond` | htcontrol/main.go:114-120 | a status is published exactly for `poweron`/`poweroff`, on the device's status topic |
| `Control.Handle` | htcontrol/main.go:84-123 | an invalid-device error is logged exactly when the device is missing from the table. `irsend` gets the raw payload for an `ir` device and `cec-client` gets the mapped directive for a `cec` device; otherwise no sender runs. A status is published exactly for a power action, unless `irsend` failed on an `ir` device or the stdin pipe failed on a `cec` device. The status goes to `<status>/<device>` with payload `on`/`off` |
| `Control.UnknownDeviceNotRejected` | htcontrol/main.go:96-120 | an unknown device is logged once, nothing is invoked, and a power action still produces a status |
| `Control.HandleIgnoresCecRun` | htcontrol/main.go:107-111 | the handler's whole decision is the same whether `cec-client` succeeds or fails |
| `Control.CecPipeFailureLogged` | htcontrol/main.go:107-111 | for `lgtv`, a stdin pipe that cannot be created logs exactly that one error, `cmd.Run` is not called and no status is published, whatever the payload |
| `Control.IrPayloadNotValidated` | htcontrol/main.go:102-106 | for `sonytv`/`marantz` any payload goes to `irsend`; a failed run logs the command and suppresses the status; a successful one reports only power actions |
| `Control.SonyPowerOn` | htcontrol/main.go:84-123 | `ht/control/sonytv` + `poweron` runs `irsend send_once sonytv poweron` and publishes `on` on `ht/status/sonytv` |
| `Control.LgPowerOff` | htcontrol/main.go:53-123 | `ht/control/lgtv` + `poweroff` sends `standby 0` to `cec-client` and publishes `off` on `ht/status/lgtv`, with no error logged |
| `Control.ArgAt` | htcontrol/main.go:176-177 | a missing positional argument reads as `""` |
| `Control.SendMessage` | htcontrol/main.go:176-187 | `send <device> <status>` publishes the status unchecked on `<status-topic>/<device>`; with only the device given, on that device's topic with an empty payload; with no arguments, on `<status-topic>/` |
| `Control.SendMatchesHandler` | htcontrol/main.go:185 | the message `send <device> on/off` publishes equals the one the handler publishes after a power action on that device |
| `Control.InvalidDeviceLineAsWritten` | htcontrol/main.go:98 | the error line as written contains a format placeholder instead of the device |
| `Control.InvalidDeviceLineLosesDevice` | htcontrol/main.go:98 | as written, any two devices produce the same error line |
| `Control.InvalidDeviceLine` | htcontrol/main.go:98 | the intended line quotes the device at a fixed position |
| `Control.InvalidDeviceLineInjective` | htcontrol/main.go:98 | the intended line identifies the device: equal lines mean equal devices |
| `Control.LogLine` | htcontrol/main.go:98-110 | the error line logged for each entry, as written: the invalid-device line with its missing argument, the IR failure followed by its rendered command line, the CEC stdin-pipe failure |
| `Control.IntendedLogLine` | htcontrol/main.go:98-110 | the same lines with the invalid-device line quoting the device; the other two are unchanged |
| `Control.ArgvText` | htcontrol/main.go:48 | a command line is rendered as Go's `%v` prints a slice: the arguments joined by single spaces, between brackets |
| `Control.ArgvTextReadBack` | htcontrol/main.go:48 | when no argument holds a space, the arguments can be read back from the rendered line by splitting its inside on spaces |
| `ConfigStore.LoadErrorOf` | htcontrol/config/config.go:26-43 | each failing stage of `Load` maps to its own error, one to one |
| `ConfigStore.Config.constructor` | htcontrol/config/config.go:17-21 | `New` has no keys, so every `Get` returns the default, or nil without one |
| `ConfigStore.Config.FromParsed` | htcontrol/config/config.go:44 | the parsed map becomes the data |
| `ConfigStore.Config.Load` | htcontrol/config/config.go:23-45 | a parsed document gives a fresh Config holding that map and no error; a failed stage gives no Config and that stage's error |
| `ConfigStore.Config.Get` | htcontrol/config/config.go:52-67 | a present key yields its stored value whatever the default; an absent key yields the default, or nil |
| `ConfigStore.Config.GetStringDefined` | htcontrol/config/config.go:77-83 | where `GetString` does not panic: a string-valued key always works, a key holding any other non-nil value never does, and an absent or nil key works exactly when there is no default or a string default |
| `ConfigStore.Config.GetString` | htcontrol/config/config.go:70-84 | the string `Get` yields; when `Get` yields nil, the string default or `""`; defined only where Go's type assertions succeed |
| `ConfigStore.Config.Set` | htcontrol/config/config.go:93-95 | the key now holds the value under every default; the other keys and their values are unchanged |
| `ConfigStore.GetIgnoresDefault` | htcontrol/config/config.go:56-58 | a present key, nil included, yields the same value under any two defaults |
| `ConfigStore.NullKeyGetVersusGetString` | htcontrol/config/config.go:56-58 | for a key present with nil, `Get` returns nil despite a default, while `GetString` returns the default (or `""`) |
| `ConfigStore.GetStringAbsentOrNull` | htcontrol/config/config.go:73-81 | `GetString` gives the same result for an absent key and for a key holding nil |
| `ConfigStore.GetStringOfString` | htcontrol/config/config.go:83 | a key holding a string yields that string whatever the default |
| `ConfigStore.UpdateOnlyTouchesKey` | htcontrol/config/config.go:94 | after one update, the key yields the new value and every other key yields what it did before |
| `ConfigStore.LaterSetWins` | htcontrol/config/config.go:93-95 | two `Set` calls on one Config: the key yields the later value, and a different key yields what it did before both calls |

## Findings

| source | as written | input that shows it | evidently intended | confidence | as-written member | corrected member |
|---|---|---|---|---|---|---|
| htcontrol/main.go:98 | `log.Errorf("Invalid device '%s', device")` puts the device name inside the format string, so `%s` has no argument and the line reads `Invalid device '%!s(MISSING)', device` | a message on `ht/control/tv2` | `Invalid device 'tv2'` | high; not executed | `Control.InvalidDeviceLineAsWritten` (shown by `Control.InvalidDeviceLineLosesDevice`) | `Control.InvalidDeviceLine` (proved injective by `Control.InvalidDeviceLineInjective`; used by `Control.IntendedLogLine`) |

## Left out

- MQTT work: connecting, subscribing to `<control-topic>/#`, QoS and retain flags, waiting on publish tokens, keep-alive and disconnect (htcontrol/main.go:126-192). This is network I/O through a client library. The model returns the message to publish instead of publishing it.
- Running `irsend` and `cec-client`, and the goroutine that writes the directive to `cec-client`'s stdin (htcontrol/main.go:45-46, 65-75). These are OS processes and concurrency, so their outcomes are the `Transport` input.
- Command-line parsing, flag defaults, environment variables and the `Before` hook (htcontrol/main.go:195-258), and logger setup (htcontrol/main.go:260-273). These are the command-line library's behaviour. Only the default topic constants are used.
- Signal handling in server mode (htcontrol/main.go:127-128, 157).
- The info log of every message (htcontrol/main.go:89) and the debug logs. Only the handler's error lines are modelled.
- `Load`'s home-directory expansion, file reading and YAML decoding (htcontrol/config/config.go:26-43). These are library I/O and parsing, so each stage's result is the `LoadOutcome` input.
- `ConfigStore.Config.Load`: a YAML document that decodes to null (an empty file, say) leaves Go's map nil, and a later `Set` on that Config would panic. The model always receives a map, so it does not capture this.
- `Control.LogLine`: the IR and CEC failure lines end with `: <cause>`, the wrapped OS error, and the model stops before it. The OS error text is not part of this model.
- Value kinds: `Value.Other` stands for every non-string, non-nil YAML value (numbers, booleans, lists, maps). Only the difference between string, nil and the rest affects `Get` and `GetString`.
- Bytes: payloads and topics are taken as character strings. Go's byte-to-string conversion of the payload is the identity here.
