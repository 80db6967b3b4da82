# mqtt-to-libnotify in Dafny

A verified model of the core of mqtt-to-libnotify. The service listens to an MQTT broker for garage-door telemetry and keeps the last known door status. It also has a notification bus, a formatter that turns a door update into a desktop notification, and a `notify-send` sink for such notifications. The same MQTT code also exposes the display of a Raspberry Pi LED matrix as a Home Assistant switch. The switch advertises itself through a retained discovery document, and ON/OFF commands arrive on a command topic.

One Dafny module per core source file:

| module | file | form |
|---|---|---|
| `Door` | `door.dfy` | `data/door.py`: the door-status datatypes, `Resolve` (what `handle_message` decides) and the class `DoorDataResolver`, whose `data` field `HandleMessage` updates |
| `NotificationBus` | `notification_source.dfy` | `notify/notification_source.py`: the class `NotificationSource` with its `subscribers` list, plus `RemoveFirst`, the reference definition of `list.remove` |
| `NotifySend` | `notifysend.dfy` | `notify/notifysend.py`: the `DesktopNotification` record, the reference definition `Argv` of the command line and the method `NotifySend.Command` that builds it step by step |
| `Formatter` | `formatter.dfy` | `notify/formatter.py`: `FormatDoorStatus` and the class that subscribes to door updates and forwards notifications |
| `Display` | `display.dfy` | `samplebase.py`: the ON/OFF state machine of `turn_on`/`turn_off`, as values (`TurnOnSpec`, `TurnOffSpec`, `Run`) and as the class `SampleBase` with an `Event` object |
| `Mqtt` | `mqtt.dfy` | `mqtt.py`: the config, the topic builders, the discovery document, the give-up classifier, the command decode and the gates of `MqttServer` |
| `Wrappers` | `wrappers.dfy` | `Option` |

Modelling conventions:

- Timestamps are integers counting microseconds since the Unix epoch in UTC.
- The decoding of a door message (`json.loads`, then `strptime` on its timestamp) is the parameter `decode`. It yields `None` exactly where the source raises.
- `os.path.abspath` is the opaque parameter `absPath`.
- Notification sinks are object identities. Notifying returns the list of deliveries `(sink, argument)` in order, instead of awaiting each sink.
- Python's truthiness of an optional string is `Truthy`: present and non-empty. An f-string renders `None` as the text `None` (`Mqtt.Show`).
- `bytes.decode()` of a command payload is the opaque parameter `decode`, `None` where it raises UnicodeDecodeError. `str.upper` is modelled (`Mqtt.Upper`) on the ASCII letters and on the ligature U+FB00, which upper-cases to "FF". Every other character is kept as it is. The model assumes no other character upper-cases to a string made only of the letters O, N and F.

Behaviours of the code worth knowing:

- `handle_message` replaces `data` with every decoded message, whatever its timestamp, so `statusSince` can move backwards (`Door.DoorDataResolver.HandleMessage`).
- The door resolver and the notification bus are not connected. `handle_message` only decides whether an update is recent enough to announce (`Door.Outcome.recent`); it prints instead of passing the update on, and the hand-off to the bus is marked as still to be written. So the model keeps `Door`, `NotificationBus` and `Formatter` apart, as the code does. The MQTT loop itself only decodes command payloads. Offering a message to a receiver such as the door resolver is not part of this model.
- Giving up (`on_runtime_error`, with `raise_on_giveup=False`) only returns from `connect_and_listen_mqtt`; `serve_forever` then loops again while the shutdown event is unset. The backoff has no time or try limit.

## Model

| member | source | states |
|---|---|---|
| Door.StatusOf | data/door.py:41-49 | the status is Closed exactly for the state "closed", Open exactly for "open", and Unknown for anything else, a missing or non-string state included |
| Door.Resolve | data/door.py:31-62 | a message on another topic, or one without a bytes payload, is not consumed; a decode failure raises; otherwise the message is consumed, with the decoded status and timestamp, and is recent exactly when its timestamp is at most one minute before now |
| Door.DoorDataResolver.constructor | data/door.py:21-26 | a new resolver holds status Unknown since the construction time, for its topic |
| Door.DoorDataResolver.HandleMessage | data/door.py:31-62 | the outcome is `Resolve`'s; `data` changes only on a consumed message and then becomes its door information, even when the staleness gate marks it not recent |
| NotificationBus.RemoveFirst | notify/notification_source.py:13-14 | removing a subscriber drops exactly its first occurrence: one element fewer, the multiset less one copy, the prefix before it and the suffix after it unchanged |
| NotificationBus.AppendThenRemoveFirst | notify/notification_source.py:10-14 | subscribing a new sink and then unsubscribing it restores the list |
| NotificationBus.RemoveFirstKeepsLaterCopies | notify/notification_source.py:13-14 | a sink subscribed twice is still subscribed after one unsubscribe |
| NotificationBus.NotificationSource.constructor | notify/notification_source.py:7-8 | a new source has no subscribers |
| NotificationBus.NotificationSource.Subscribe | notify/notification_source.py:10-11 | the subscriber is appended at the end |
| NotificationBus.NotificationSource.Unsubscribe | notify/notification_source.py:13-14 | it succeeds exactly when the sink is subscribed, and then removes its first occurrence; otherwise (the source's ValueError) nothing changes |
| NotificationBus.NotificationSource.Notify | notify/notification_source.py:16-18 | subscribers are offered the argument once per subscription, in subscription order, until an await raises: that subscriber was offered it, none after it was, and the exception reaches the caller. Raising is per await, so a sink subscribed twice may return once and raise the second time. Without a raising await every subscriber gets it |
| NotifySend.WithSummary | notify/notifysend.py:9-15 | a notification built from a summary alone leaves body, urgency, expiry, application name and icon absent |
| NotifySend.DecimalString | notify/notifysend.py:29 | `str` of the expiry is non-empty and starts with '-' exactly for a negative number |
| NotifySend.DecimalStringRoundTrip | notify/notifysend.py:29 | the expiry passed with -t reads back as the same integer, read as an optional minus sign followed by decimal digits |
| NotifySend.FlagsMeaning | notify/notifysend.py:26-33 | the options appear in the fixed order -u, -t, -a, -i, each at most once. Urgency, application name and icon are passed exactly when non-empty, and the expiry whenever it is present (0 included). The icon is passed as an absolute path |
| NotifySend.WithOptionsWords | notify/notifysend.py:26-33 | the chain of `if` blocks appends exactly the words of the option list |
| NotifySend.ArgvShape | notify/notifysend.py:24-37 | the command line is the command, the option words, the summary and then the body when it is non-empty, so the body is the last word exactly when non-empty |
| NotifySend.NotifySend.constructor | notify/notifysend.py:18-19 | the command name is kept |
| NotifySend.NotifySend.Command | notify/notifysend.py:24-37 | the argument vector built step by step equals `Argv`, whose shape and options the two lemmas above state |
| Formatter.FormatDoorStatus | notify/formatter.py:16-29 | the notification is titled "Garage Status", says "Garage Opening" for an open door and "Garage Closing" otherwise, names the application and the garage icon under the icon path, and sets no urgency or expiry |
| Formatter.OnlyOpenDiffers | notify/formatter.py:17-20 | two door states give the same notification exactly when both or neither are Open: Closed and Unknown both read as closing |
| Formatter.DoorStatusNotificationFormatter.constructor | notify/formatter.py:8-11 | the icon path, source and sink are kept |
| Formatter.DoorStatusNotificationFormatter.Start | notify/formatter.py:13-14 | the formatter subscribes itself to the door-information source |
| Formatter.DoorStatusNotificationFormatter.Notify | notify/formatter.py:16-29 | each door update is forwarded to the sink as `FormatDoorStatus` of it |
| Display.TurnOnSpec | samplebase.py:44-49 | as written: turning on leaves the display on; from off, the event is set and kept |
| Display.TurnOnRearmedSpec | samplebase.py:44-49 | corrected: from off, the event is set and then dropped |
| Display.TurnOffSpec | samplebase.py:52-57 | turning off leaves the display off; from on, a fresh unset event is installed |
| Display.RunKeepsOffHasEvent | samplebase.py:44-57 | as written, any successful sequence of calls leaves an off display with its event, so the assert of `turn_on` never fails |
| Display.SecondTurnOffFails | samplebase.py:44-57 | as written, off, on, off leaves the event in place after the `turn_on`, and the second `turn_off` fails its assert |
| Display.NeverOffAgain | samplebase.py:44-57 | as written, once the display has been turned on from off, no sequence of calls that contains a `turn_off` gets through the asserts: it can never be turned off again |
| Display.RunRearmedNeverFails | samplebase.py:44-57 | corrected, every sequence of calls passes both asserts. The event exists exactly while the display is off, and the display ends in the state of the last call |
| Display.Event.constructor | samplebase.py:56 | a new event is unset |
| Display.Event.Set | samplebase.py:49 | setting an event sets it |
| Display.SampleBase.constructor | samplebase.py:36-37 | the display starts on, with no event |
| Display.SampleBase.TurnOn | samplebase.py:44-49 | as written: the fields change as `TurnOnSpec` says, and the field keeps the set event |
| Display.SampleBase.TurnOnRearmed | samplebase.py:44-49 | corrected: the fields change as `TurnOnRearmedSpec` says, after the waiting event was set; from on, the same event object stays in the field |
| Display.SampleBase.TurnOff | samplebase.py:52-57 | the fields change as `TurnOffSpec` says: from on, a newly allocated event; from off, the same event object the render loop waits on stays in the field |
| Mqtt.DiscoveryTopicLevels | mqtt.py:39-40 | with identifiers free of '/', the discovery topic has the levels prefix, "switch", node, object, "config" |
| Mqtt.DeviceTopicLevels | mqtt.py:42-49 | with identifiers free of '/', the state, command and availability topics have the levels prefix, node, object and "state", "cmd" or "available" |
| Mqtt.DiscoveryTopicIsSeparate | mqtt.py:39-49 | the discovery topic differs from the state, command and availability topics, whatever the identifiers |
| Mqtt.GetDiscoveryPayload | mqtt.py:51-62 | the switch is named after the object id. Its unique id and device derive from that id. It points at the state, command and availability topics, which are pairwise different |
| Mqtt.InheritedGiveUp | mqtt.py:64-66 | the give-up test is inherited: a derived exception gives up exactly when its class is RuntimeError or its base class gives up |
| Mqtt.KnownFailures | mqtt.py:64-66 | a failed assert, a payload that is not UTF-8 and any broker-client error (subclasses included) are retried; RuntimeError and its subclasses, such as RecursionError, give up |
| Mqtt.UpperIsOn | mqtt.py:139-140 | a payload upper-cases to "ON" exactly when it is "on" in any case |
| Mqtt.UpperIsOff | mqtt.py:139-143 | a payload upper-cases to "OFF" exactly when it is "off" in any case, or "o" followed by the ligature U+FB00 |
| Mqtt.DecodeCommand | mqtt.py:139-143 | the command is turn-on exactly for the spellings of "on", turn-off exactly for those of "off", and nothing otherwise |
| Mqtt.MqttServer.constructor | mqtt.py:69-71 | the config and the display are kept; nothing is scheduled |
| Mqtt.MqttServer.Start | mqtt.py:75-78 | one serving task is scheduled exactly when a hostname is configured |
| Mqtt.MqttServer.PublishDiscovery | mqtt.py:110-116 | nothing is published exactly when there is no discovery prefix. Otherwise the discovery document goes to the discovery topic with QoS 1, retained |
| Mqtt.MqttServer.HandleCommand | mqtt.py:138-143 | a payload that is not UTF-8 fails and leaves the display alone; otherwise "on" turns the display on and "off" turns it off, in any case, and other text changes nothing. The event exists exactly while the display is off, before and after. Whenever the state stays the same, the field keeps the same event object; "on" from off sets the event the render loop was waiting on; "off" from on installs a newly allocated event |

## Left out

- The broker connection itself is not modelled. This covers `serve_forever`, `connect_and_listen_mqtt` with its exponential backoff, the raced wait for messages, status updates and shutdown, and the `aiomqtt` client. These are asyncio scheduling and network I/O; the model keeps only their decisions (`Start`, `PublishDiscovery`, `HandleCommand`, `OnRuntimeError`).
- `publish_availability` and `status_update`, including the publication of queued states on the state topic, are not modelled. They forward their argument to the client or a queue unchanged.
- `DoorDataResolver.subscribe_to_topics` is not modelled; it is a single broker call.
- Running notify-send as a subprocess is not modelled. `NotifySend.NotifySend.Command` stops at the argument vector. The exception raised on a non-zero exit status appears only on the bus, as an await for which `fails` holds in `NotificationBus.NotificationSource.Notify`.
- `json.loads`, `strptime` and the JSON text of the discovery document are not modelled. The decode is an opaque parameter. The discovery document is a datatype whose absent object id stands for JSON `null`.
- Configuration and command-line parsing (`config_arg_parser`, `get_config`), the dependency wiring, the render loop of the display and the program entry points are not modelled. None of them holds logic of the core.
- The base class `NotificationSink` is not modelled; sinks are object identities.
- Mqtt.Upper: models `str.upper` only on ASCII letters and U+FB00. Besides o, n and f in either case, U+FB00 is the only character whose upper-case consists solely of O, N and F. All other characters are left as they are, so it is not the full Unicode case mapping, but the ON/OFF decision is the same.
- Mqtt.MqttServer.HandleCommand: drives the corrected `TurnOnRearmed` (see Findings), not the `turn_on` as written.

## Findings

| source | as written | input that shows it | evidently intended | confidence | as-written member | corrected member |
|---|---|---|---|---|---|---|
| samplebase.py:44-58 | `turn_on` sets `turn_on_event` but never resets the field to `None`, while `turn_off` asserts the field is `None` before installing a new event | `turn_off()`, `turn_on()`, `turn_off()`: the second `turn_off` fails the assert at samplebase.py:55 | `turn_on` drops the event from the field after setting it, so each `turn_off` installs a fresh one | not executed; high, since the render loop `main_loop` (samplebase.py:91-118) only waits on the event and nothing else in the file resets the field | Display.SecondTurnOffFails | Display.RunRearmedNeverFails |
