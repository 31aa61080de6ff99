# The Smart Gateway, verified

A Dafny model of the decisions that the Smart Gateway takes itself, with proofs about every
run of them. `dafny verify dfyconfig.toml` checks the whole project.

The gateway is an MQTT bus inside a home hub. Plugins hang on it as clients: device plugins
take commands and answer with events, comm plugins (the cloud connector) send commands and
take events. A phone application prints and parses the same topics, an ESP8266 board has its
own firmware, and LIFX bulbs are driven by binary packets.

| file | what it holds |
|---|---|
| `Topics.dfy` | topic levels, joining, and filter matching (sections 4.7.1.2, 4.7.1.3 and 4.7.3 of MQTT Version 3.1.1) |
| `InnerBus.dfy` | the bus client and the bus: functions on values, and the classes proved against them |
| `Routing.dfy` | whom a published topic reaches; the client list and the broadcast |
| `TopicParsing.dfy`, `Plugins.dfy` | the plugins' parsers, answers and acts |
| `Traffic.dfy` | bursts: messages in flight, delivered in any order |
| `Discovery.dfy` | the LIST request from the broadcast to the acts of the connector |
| `Replacement.dfy`, `Presence.dfy` | retained status, wills, sessions (sections 3.1.2.5, 3.3.1.3, 4.3.3 and 4.6 of MQTT Version 3.1.1) |
| `CloudClient.dfy` | the cloud connector's own MQTT client: confirmed subscriptions |
| `AndroidTopic.dfy` | the phone application's topics |
| `Slider.dfy` | the phone application's seek bar |
| `FirmwareQueue.dfy` | buffers, the shared message, the publish queue and its drain loop |
| `FirmwareLed.dfy` | the LED and its automatic turn-off |
| `FirmwareMic.dfy` | the microphone's pause on a counter that wraps |
| `FirmwareId.dfy` | the MAC address turned into hexadecimal in place |
| `Lifx.dfy` | the LIFX packet, its setters, its writer and a reader |
| `PluginContainer.dfy` | loading, starting, stopping and unloading plugin libraries |
| `Sequences.dfy`, `Options.dfy` | counting in sequences; missing values |

## How to read it

Where the code changes fields, there is a class with those fields. Each method is proved
equal to a function on the fields' values (`View`), and the theorems are about runs of those
functions. Every call and every callback is one step.

Seven results are conditions, because what one would expect does not hold of the code as it is:

- The status topic is prefix/id/status only if the prefix does not occur in "/" followed by
  the configured status name; otherwise the text replacement in `setListener` fires again
  (`StatusTopicExact`). A gateway called "status" gives its lamp the topic
  status/lamp/status/lamp (`StatusOfLamp`). The topics of different clients differ all the
  same (`StatusTopicsDiffer`).
- A retained "available" means an open session exactly if the configured will does not itself
  say "available" and the broker does not keep a status message of quality 2 until its
  release (`NoStalePresenceExactly`). The configuration in `core/InnerBus/config.properties`
  sets quality 2: at a broker that hands such messages on only at PUBREL (method A of section
  4.3.3 of MQTT Version 3.1.1), `disconnect` closes the connection before the farewell can be
  released, the will is discarded, and the client stays "available" (`LateRunGoesStale`).
  The order of the calls matters too: a client that is attached after it was initialised
  stays "available" under a topic that its will does not name (`LateListenerGoesStale`).
- Every burst on the bus ends exactly if commands and events have different names or there is
  no bulb plugin (`QuiescenceExactly`); otherwise a bulb plugin answers its own answers for
  ever (`EchoForever`). The configuration has different names.
- The firmware's buffer ledger holds exactly for the runs in which no other task writes to the
  shared `pub_msg` between a task's own writes and its send (`LedgerExactly`). Nothing in the
  code prevents it: if the control task turns the LED off while the interrupt task is about to
  send, one message is queued twice, to be freed twice, and the other is lost
  (`SharedMessageClobbered`, `ClobberedPlaces`).
- A library is unloaded only if it has a class that no later library has too
  (`NamedIffHasOwnClass`): an empty manifest, or an earlier build of the same plugin, stays
  loaded.
- The seek bar's step keeps all decimals of a value only if there is at most one, or if the
  whole part has at most two digits, three behind a minus sign (`StepKeepsFractionIff`):
  123.456 becomes 123.45.
- The cloud connector's MQTT client takes its first subscription for confirmed only if its
  own counter was in step with the library's numbers (`FirstTopicIff`, and `FirstTopicLost`
  for a counter that starts at 0); the counter is never set, and the connect callback
  publishes before it subscribes.

Three smaller differences: the LED's timeout is 15000 ms, but the bound that is met is 15100
ms, because the control task may be in its delay when the LED is turned on (`BoundIsTight`);
the fake plugin's escaping of quotes turns asterisks into quotes too (`EscapeQuotesChars`); and
a client that the user once disconnected is not reconnected after any later loss
(`ByUserExactly`).

Assumptions that the statements name: ids are slash-free, wildcard-free and differ from the
prefix; class names differ; each client is given one listener, before it is initialised. The
broker delivers in order per connection, its sessions are clean, and in a burst it delivers
each message once. Firmware command handlers run to their end before the control task goes on
(which is the assumption of the LED theorems only, not of the queue's), and a delay that is
over is acted on before time passes. `char` is unsigned on the board.

## Model

| member | source | states |
|---|---|---|
| BusModel.InnerBus.SetRoot | core/InnerBus/src/InnerBus.cpp:562-569 | the serial becomes the prefix and nothing else of the configuration changes |
| BusModel.InnerBus.CreateIBusClient | core/InnerBus/src/InnerBus.cpp:576-580 | a new client that carries the bus's configuration, under the prefix as its id |
| BusModel.InnerBus.AddClientToList | core/InnerBus/src/InnerBus.cpp:595-599 | the name is put at the end of the list |
| BusModel.InnerBus.DelClientFromList | core/InnerBus/src/InnerBus.cpp:601-605 | every occurrence of the name goes and the others keep their order |
| BusModel.RemoveAllOfConcat | core/InnerBus/src/InnerBus.cpp:601-605 | removal works part by part, so that what stays keeps its order |
| BusModel.InnerBusClient.PublishMessage | core/InnerBus/src/InnerBus.cpp:152-159 | one packet of the configured quality that is not retained, or none for a topic the library refuses |
| BusModel.InnerBusClient.SendStatus | core/InnerBus/src/InnerBus.cpp:222-224 | one retained packet of the will's quality on the status topic |
| BusModel.InnerBusClient.Subscribe | core/InnerBus/src/InnerBus.cpp:250-256 | one subscription for each filter, in order |
| BusModel.InnerBusClient.GenerateSubTopics | core/InnerBus/src/InnerBus.cpp:266-300 | the two filters of the client's kind; added to the old ones only for the root client |
| BusModel.InnerBusClient.SetConfig | core/InnerBus/src/InnerBus.cpp:363-374 | the whole state after a configuration: id, status topic and filters |
| BusModel.InnerBusClient.SetListener | core/InnerBus/src/InnerBus.cpp:376-385 | the whole state after a listener, and its name at the end of the bus list |
| BusModel.InnerBusClient.Init | core/InnerBus/src/InnerBus.cpp:335-350 | the will is fixed from the status topic and payload of that moment |
| BusModel.InnerBusClient.Disconnect | core/InnerBus/src/InnerBus.cpp:399-407 | the client is marked as disconnected by the user; the farewell is written with the will's quality, then the disconnect, and nothing can follow it |
| BusModel.InnerBusClient.Free | core/InnerBus/src/InnerBus.cpp:352-361 | a connected client says goodbye on the wire as by a disconnect, any other writes nothing; then the handle is released |
| BusModel.InnerBusClient.Destroy | core/InnerBus/src/InnerBus.cpp:90-97 | frees the client and takes its id off the bus list |
| BusModel.InnerBusClient.OnConnect | core/InnerBus/src/InnerBus.cpp:452-463 | subscribes and then announces; on an error code only marks itself unconnected |
| BusModel.InnerBusClient.OnDisconnect | core/InnerBus/src/InnerBus.cpp:465-476 | a reconnect is asked for exactly when the user did not disconnect |
| BusModel.InnerBusClient.SendCommand | core/InnerBus/src/InnerBus.cpp:162-195 | only comm plugins send commands: to the target, or without one to each listed client but the sender |
| BusModel.InnerBusClient.SendEvent | core/InnerBus/src/InnerBus.cpp:197-220 | a device plugin's event carries the sender level, a comm plugin's never does |
| BusModel.InnerBusClient.SendMessage | core/InnerBus/src/InnerBus.cpp:413-429 | a payload that is neither command nor event writes nothing |
| BusModel.BroadcastOfConcat | core/InnerBus/src/InnerBus.cpp:180-188 | broadcasting to two lists one after the other is broadcasting to both |
| BusModel.BroadcastOfOne | core/InnerBus/src/InnerBus.cpp:180-188 | a broadcast to one name is a command of the configured quality to it, and nothing to the sender itself |
| Routing.DeviceFiltersMatch | core/InnerBus/src/InnerBus.cpp:280-287 | against any topic below the prefix: one match exactly for id/command and id/x/command, never two |
| Routing.CommFiltersMatch | core/InnerBus/src/InnerBus.cpp:289-296 | against any topic below the prefix: one match exactly for two or three levels that end in the event name |
| Routing.RootFiltersMatch | core/InnerBus/src/InnerBus.cpp:269-275 | the root client's filters match exactly the two topics right below the prefix |
| Routing.CommandTopicLevels | core/InnerBus/src/InnerBus.cpp:177 | the levels of a command topic are the prefix's, the target's and the command name |
| Routing.EventTopicLevels | core/InnerBus/src/InnerBus.cpp:206-208 | the levels of an event topic, with and without a sender |
| Routing.CommandRouting | core/InnerBus/src/InnerBus.cpp:176-186 | a command with any target reaches the device plugin that the target names, with at most one level behind the name, once, and no other client |
| Routing.EventRouting | core/InnerBus/src/InnerBus.cpp:204-216 | an event reaches every comm plugin once and no device plugin, exactly when the sender is at most one level |
| Routing.RootReceivesNothing | core/InnerBus/src/InnerBus.cpp:269-275 | the root client is sent neither a plugin's command nor a plugin's event |
| Routing.BroadcastCopies | core/InnerBus/src/InnerBus.cpp:180-188 | a broadcast reaches a device plugin as often as the list names it, and never the sender |
| Routing.CommandPublishable | core/InnerBus/src/InnerBus.cpp:177-178 | the library takes a command exactly when its target has no wildcard |
| Routing.ClientListIsAttached | core/InnerBus/src/InnerBus.cpp:595-609 | after any history of attaching and destroying, the list holds exactly the attached clients, each once |
| Routing.BroadcastReachesEachOnce | core/InnerBus/src/InnerBus.cpp:180-188 | after any such history, the root's destruction included, a broadcast reaches each attached device plugin but the sender exactly once |
| TopicParsing.PluginOfMeaning | plugins/CloudConnector/src/CloudConnector.cpp:153-155 | for every string, the extraction gives the second level, or the whole of a one-level topic |
| TopicParsing.SerialOfMeaning | plugins/FakeDevicesPlugin/src/FakeDevicesPlugin.cpp:109-112 | for every string, the extraction gives the third level; with fewer levels the search wraps to the first |
| TopicParsing.ParsersUndoPrinter | plugins/NestDevicesPlugin/src/NestDevicesPlugin.cpp:140-143 | both extractions and the tokeniser read back the parts of every printed topic of three or four levels |
| Plugins.FakeDevicesPlugin.SendOccurrence | plugins/FakeDevicesPlugin/src/FakeDevicesPlugin.cpp:149-166 | sends the event without a sender level, whatever sender it is given |
| Plugins.FakeDevicesPlugin.ListDevices | plugins/FakeDevicesPlugin/src/FakeDevicesPlugin.cpp:83-102 | the escaped listing of the devices present, in slot order, without a separator at either end |
| Plugins.EscapeQuotesChars | plugins/FakeDevicesPlugin/src/FakeDevicesPlugin.cpp:101-102 | character by character: a quote becomes a backslash and a quote, and so does an asterisk |
| Plugins.ListingMeaning | plugins/FakeDevicesPlugin/src/FakeDevicesPlugin.cpp:85-99 | the listing is the records joined by the separator; only empty records at the front leave no trace |
| Plugins.FakeDevicesPlugin.ReplyForSerial | plugins/FakeDevicesPlugin/src/FakeDevicesPlugin.cpp:114-130 | one answer for each present device with the serial, in slot order |
| Plugins.FakeDevicesPlugin.ExecuteCommand | plugins/FakeDevicesPlugin/src/FakeDevicesPlugin.cpp:71-139 | writes exactly the answers that the specification lists for the message |
| Plugins.FakeDevicesPlugin.StopPlugin | plugins/FakeDevicesPlugin/src/FakeDevicesPlugin.cpp:184-201 | every slot is emptied, then the client has said goodbye and is released |
| Plugins.FakeAnswers | plugins/FakeDevicesPlugin/src/FakeDevicesPlugin.cpp:80-133 | one answer to LIST, one per device of the asked serial to PROPERTIES, each with the request's id as reference; otherwise silence |
| Plugins.FakePropertiesAnswers | plugins/FakeDevicesPlugin/src/FakeDevicesPlugin.cpp:107-133 | the answers to PROPERTIES in full: in slot order, one for exactly each present device of the asked serial, with that device's properties |
| Plugins.NestDevicesPlugin.ListDevices | plugins/NestDevicesPlugin/src/NestDevicesPlugin.cpp:94-133 | the listing of the devices of all types, in order |
| Plugins.NestDevicesPlugin.ReplyForSerial | plugins/NestDevicesPlugin/src/NestDevicesPlugin.cpp:145-175 | one answer for each device with the serial over all types, in order |
| Plugins.NestDevicesPlugin.ExecuteCommand | plugins/NestDevicesPlugin/src/NestDevicesPlugin.cpp:82-231 | writes exactly the answers that the specification lists for the message |
| Plugins.NestAnswers | plugins/NestDevicesPlugin/src/NestDevicesPlugin.cpp:91-177 | as for the fake plugin, with CAPABILITIES too and the serial as the sender level |
| Plugins.NestPropertiesAnswers | plugins/NestDevicesPlugin/src/NestDevicesPlugin.cpp:138-177 | the same in order of type and place, and with empty content for CAPABILITIES |
| Plugins.LifXBulbPlugin.ProcessDeviceSetCommand | plugins/LifXBulbPlugin/src/LifXBulbPlugin.cpp:143-162 | "on" anywhere sends one datagram that reads back as the command to set power 65535; otherwise "off" sends one for power 0; otherwise none is sent |
| Plugins.LifXBulbPlugin.ExecuteCommand | plugins/LifXBulbPlugin/src/LifXBulbPlugin.cpp:100-141 | writes exactly the specified answer; a SET with a device level sends the datagram for "on" or "off", anything else sends none |
| Plugins.LifxAnswersOnce | plugins/LifXBulbPlugin/src/LifXBulbPlugin.cpp:108-140 | every message gets exactly one answer with its id as reference; success exactly for GET and SET on at most four levels, with the device level as sender |
| Plugins.LifxAnswersSay | plugins/LifXBulbPlugin/src/LifXBulbPlugin.cpp:100-192 | the id, value and content of the answer in each case; a SET for a device gives its content back as properties |
| Plugins.CloudConnector.ExecuteCommand | plugins/CloudConnector/src/CloudConnector.cpp:138-169 | adds exactly the acts that the specification lists for the message |
| Plugins.CloudConnector.DiscoverSensors | plugins/CloudConnector/src/CloudConnector.cpp:525-545 | broadcasts the LIST command under the connector's own name |
| Plugins.CloudAcceptsOwnReplies | plugins/CloudConnector/src/CloudConnector.cpp:142-160 | a successful answer is acted on exactly when its reference is the connector's name: a list under the id of the plugin that sent it, with or without a sender level, properties as they are |
| Traffic.RepliesAreEvents | plugins/LifXBulbPlugin/src/LifXBulbPlugin.cpp:171-192 | whatever a plugin answers to whatever message is an event |
| Traffic.EventFanout | core/InnerBus/src/InnerBus.cpp:197-220 | an event in flight becomes one delivery for each cloud connector and none for anybody else |
| Traffic.CausedIsFinal | plugins/CloudConnector/src/CloudConnector.cpp:138-169 | with different names what a message sets off goes to cloud connectors only, and they set off nothing |
| Traffic.CausedAreEvents | core/InnerBus/src/InnerBus.cpp:197-220 | under any names, what a message sets off are events |
| Traffic.CausedIsSilent | core/InnerBus/src/InnerBus.cpp:483-501 | with different names or without a bulb plugin, what a message sets off sets off nothing more |
| Traffic.DeliverUsesOneUnit | core/InnerBus/src/InnerBus.cpp:483-501 | handling any message in flight lowers the work left by exactly one, and acts done plus acts to come stay the same |
| Traffic.BurstIsDetermined | core/InnerBus/src/InnerBus.cpp:413-501 | in every order a burst ends after the same number of steps and with the same acts |
| Traffic.BurstCanEnd | core/InnerBus/src/InnerBus.cpp:483-501 | from every state of a burst there is an order that ends it, so the fixed number of steps is reached |
| Traffic.EchoForever | plugins/LifXBulbPlugin/src/LifXBulbPlugin.cpp:108-117 | with one name, beside any other plugins, a bulb plugin that is sent one event has one on its way after every step of every run |
| Traffic.QuiescenceExactly | plugins/LifXBulbPlugin/src/LifXBulbPlugin.cpp:108-117 | for every set of plugins: all bursts are bounded exactly when the two names differ or there is no bulb plugin |
| Discovery.RequestReachesAll | plugins/CloudConnector/src/CloudConnector.cpp:525-545 | the LIST broadcast puts one request in flight for each device plugin and nothing else |
| Discovery.RequestYields | plugins/CloudConnector/src/CloudConnector.cpp:149-160 | what one request comes to: the asking connector's act under the answering plugin's id, or nothing |
| Discovery.DiscoveryIsComplete | plugins/CloudConnector/src/CloudConnector.cpp:138-169 | for every set of plugins and every order of delivery, the quiet bus has had the connector pass on exactly the lists there are |
| Discovery.FoundMeaning | plugins/CloudConnector/src/CloudConnector.cpp:151-160 | that result is one act for each plugin that keeps a list, by the asking connector and no other |
| CloudClient.MqttClient.DoSubscribe | plugins/CloudConnector/src/mqttclient.cpp:113-129 | the pending topics and the counter after the calls, up to the first that fails, and success exactly when none does |
| CloudClient.MqttClient.OnSubscribe | plugins/CloudConnector/src/mqttclient.cpp:188-203 | a number that is pending moves its topic to the confirmed ones, any other changes nothing |
| CloudClient.MqttClient.IsTopicSubscribed | plugins/CloudConnector/src/mqttclient.cpp:248-255 | whether the topic is among the confirmed ones |
| CloudClient.PendingFrom | plugins/CloudConnector/src/mqttclient.cpp:118-127 | from the second topic on, each is noted under the library's own number |
| CloudClient.FailureIsLast | plugins/CloudConnector/src/mqttclient.cpp:113-129 | the first call that fails still notes its topic, and none is tried behind it |
| CloudClient.ConfirmedMeaning | plugins/CloudConnector/src/mqttclient.cpp:198-203 | after any confirmations in any order, a topic is confirmed exactly when one came under its key |
| CloudClient.FirstTopicIff | plugins/CloudConnector/src/mqttclient.cpp:113-203 | with everything granted and confirmed, every topic but the first is taken for confirmed, and the first exactly when the counter was in step |
| CloudClient.FirstTopicLost | plugins/CloudConnector/src/mqttclient.cpp:156-170 | a counter at 0 and a library at 2: the first topic is lost, the second is not |
| Presence.StatusTopicExact | core/InnerBus/src/InnerBus.cpp:382 | the replaced status topic is prefix/id/status exactly when the prefix does not occur in "/status" |
| Presence.DoubledStatusTopic | core/InnerBus/src/InnerBus.cpp:382 | a gateway whose serial is the status name gives its plugins a doubled topic |
| Presence.StatusOfLamp | core/InnerBus/src/InnerBus.cpp:382 | the lamp of a gateway called "status", as an instance |
| Presence.StatusTopicsDiffer | core/InnerBus/src/InnerBus.cpp:367-382 | for every prefix, the status topics that clients with different ids really have are different |
| Presence.ActKeepsGood | core/InnerBus/src/InnerBus.cpp:222-244 | every call, callback, packet taken and connection lost keeps the invariant between client, session and retained status |
| Presence.AttachIsGood | core/InnerBus/src/InnerBus.cpp:376-385 | attaching a client that was not initialised puts it under its own status topic with the invariant |
| Presence.NetStepGood | core/InnerBus/src/InnerBus.cpp:352-385 | a step of one client, its destruction included, keeps the invariant of all clients |
| Presence.ByUserExactly | core/InnerBus/src/InnerBus.cpp:352-476 | over every run of one client: the disconnect callback stops asking for a reconnect exactly when the user has disconnected, or has released or destroyed the client while it was connected; nothing clears that again |
| Presence.NoStalePresence | core/InnerBus/src/InnerBus.cpp:399-476 | for every prefix, after every orderly run over all clients, a retained "available" means that the client's session is open |
| Presence.NoStalePresenceExactly | core/InnerBus/src/InnerBus.cpp:222-244 | that holds of all orderly runs exactly when the will does not say "available" and a status message is retained when the broker takes it |
| Presence.LateRunGoesStale | core/InnerBus/src/InnerBus.cpp:399-407 | with will quality 2 and a broker that waits for the release, a run from connecting to disconnecting that leaves "available" behind a closed session |
| Presence.SettleReleases | core/InnerBus/src/InnerBus.cpp:222-224 | of several status messages that wait for their release the last one ends up retained |
| Presence.LateListenerGoesStale | core/InnerBus/src/InnerBus.cpp:335-385 | a client attached after it was initialised, and then lost, stays "available" |
| Presence.ConnectAnnounces | core/InnerBus/src/InnerBus.cpp:452-463 | once the broker has taken what the connect callback wrote, and what waited is released, it keeps "available" and a subscription for each filter |
| Presence.DisconnectSaysGoodbye | core/InnerBus/src/InnerBus.cpp:399-407 | a user disconnect closes the session without the will, and the farewell is retained exactly if the broker does not wait for its release |
| AndroidTopic.Builder.FromTopic | AndroidSmartApp/app/src/main/java/com/globallogic/gl_smart/model/mqtt/Topic.java:74-82 | the builder's fields for every string, and failure exactly when there is no first part |
| AndroidTopic.Builder.SetType | AndroidSmartApp/app/src/main/java/com/globallogic/gl_smart/model/mqtt/Topic.java:99-102 | only the type changes |
| AndroidTopic.Builder.Build | AndroidSmartApp/app/src/main/java/com/globallogic/gl_smart/model/mqtt/Topic.java:109-145 | each of the three refusals, otherwise the joined levels |
| AndroidTopic.SplitMeaning | AndroidSmartApp/app/src/main/java/com/globallogic/gl_smart/model/type/TopicType.java:16 | splitting gives the levels without the empty ones at the end |
| AndroidTopic.RetargetSucceeds | AndroidSmartApp/app/src/main/java/com/globallogic/gl_smart/model/mqtt/Topic.java:74-112 | a builder made from a topic and given a type builds exactly when the first level is not empty |
| AndroidTopic.RetargetExact | AndroidSmartApp/app/src/main/java/com/globallogic/gl_smart/model/mqtt/Topic.java:74-145 | the result is the topic with only its last level replaced exactly for two levels, and for three or four whose last is not empty |
| AndroidTopic.RetargetReachesPlugin | AndroidSmartApp/app/src/main/java/com/globallogic/gl_smart/model/mqtt/Topic.java:74-145 | a plugin's or device's status topic turned into a command is the bus's own command topic, and reaches that plugin once and no other client |
| AndroidTopic.BuildParseRoundTrip | AndroidSmartApp/app/src/main/java/com/globallogic/gl_smart/model/mqtt/Topic.java:24-145 | gateway, plugin and sensor are read back; topic type and message type exactly under the two conditions it names |
| Slider.StepString | AndroidSmartApp/app/src/main/java/com/globallogic/gl_smart/utils/Utils.java:106-115 | the step's text for every value text |
| Slider.StepMeaning | AndroidSmartApp/app/src/main/java/com/globallogic/gl_smart/ui/view/AppSeekBar.java:74-84 | the step is a negative power of ten, the scale is its inverse, and as many decimals are printed as the step has |
| Slider.StepKeepsFractionIff | AndroidSmartApp/app/src/main/java/com/globallogic/gl_smart/utils/Utils.java:106-115 | the step has as many decimals as the value exactly under a condition on the number of digits |
| Slider.StepOfWholeText | AndroidSmartApp/app/src/main/java/com/globallogic/gl_smart/utils/Utils.java:106-115 | for a text without a point the step has three decimals more than there are characters, or five with a sign |
| Slider.PositionRoundTrip | AndroidSmartApp/app/src/main/java/com/globallogic/gl_smart/ui/view/AppSeekBar.java:148-154 | position to value to position is the identity |
| Slider.ValueLosesLessThanAStep | AndroidSmartApp/app/src/main/java/com/globallogic/gl_smart/ui/view/AppSeekBar.java:148-154 | value to position to value moves by less than one step |
| Slider.NeverAboveIff | AndroidSmartApp/app/src/main/java/com/globallogic/gl_smart/ui/view/AppSeekBar.java:148-150 | it never moves up exactly when the value is not below the shift or is a whole number of steps from it |
| Slider.KeptIffOnGrid | AndroidSmartApp/app/src/main/java/com/globallogic/gl_smart/ui/view/AppSeekBar.java:148-154 | a value is kept exactly when it is a whole number of steps from the shift |
| Slider.SignedHasDecimals | AndroidSmartApp/app/src/main/java/com/globallogic/gl_smart/utils/Utils.java:135 | the number that a text denotes has the decimals that are written in it |
| Slider.TextIsKept | AndroidSmartApp/app/src/main/java/com/globallogic/gl_smart/utils/Utils.java:103-139 | the number of a text with few enough digits survives the way to the bar and back |
| Slider.ShowText | AndroidSmartApp/app/src/main/java/com/globallogic/gl_smart/utils/Utils.java:103-139 | a bar set up with such a text, and a number in the range, shows exactly that number with all its decimals |
| Slider.InRangeIsNotClamped | AndroidSmartApp/app/src/main/java/com/globallogic/gl_smart/ui/view/AppSeekBar.java:148-150 | a value in the range is on the bar |
| Slider.DigitLost | AndroidSmartApp/app/src/main/java/com/globallogic/gl_smart/utils/Utils.java:106-115 | 123.456 is given two decimals and comes back as 123.45 |
| Slider.PositionsAreOrdered | AndroidSmartApp/app/src/main/java/com/globallogic/gl_smart/ui/view/AppSeekBar.java:148-150 | positions keep the order of values, and values not below the shift have positions not below 0 |
| Slider.AppSeekBar.SetStep | AndroidSmartApp/app/src/main/java/com/globallogic/gl_smart/ui/view/AppSeekBar.java:74-84 | the scale and the printed decimals for both kinds of bar, also for a step of nought on an integer bar |
| Slider.AppSeekBar.SetMax | AndroidSmartApp/app/src/main/java/com/globallogic/gl_smart/ui/view/AppSeekBar.java:86-88 | the maximum in positions, with the position brought back into the range |
| Slider.AppSeekBar.SetProgress | AndroidSmartApp/app/src/main/java/com/globallogic/gl_smart/ui/view/AppSeekBar.java:65-68 | the position for the value, kept between 0 and the maximum |
| Slider.AppSeekBar.GetValue | AndroidSmartApp/app/src/main/java/com/globallogic/gl_smart/ui/view/AppSeekBar.java:140-146 | the value of the position, cut to a whole number on an integer bar |
| Slider.AppSeekBar.SetWithProperty | AndroidSmartApp/app/src/main/java/com/globallogic/gl_smart/utils/Utils.java:94-140 | the whole bar after set-up from the value's text, for every range: scale, decimals, maximum, clamped position, and failure for a text that is no number |
| FirmwareQueue.KeepBothPlaces | HWPlugins/embgw_hw_plugin/embgw_hw_plugin.c:30-42 | two new buffers are in their task's hand and nowhere else |
| FirmwareQueue.FreeBothPlaces | HWPlugins/embgw_hw_plugin/embgw_hw_plugin.c:34-38 | what was allocated beside a failed allocation is freed, once |
| FirmwareQueue.StrandBothPlaces | HWPlugins/embgw_hw_plugin/embgw_hw_plugin.c:338-357 | what the interrupt task allocated before it gave up is in no place but the lost ones |
| FirmwareQueue.StatusPlaces | HWPlugins/embgw_hw_plugin/embgw_hw_plugin.c:404-423 | of a status message's three buffers each that was allocated is in the task's hand or freed, whichever allocations fail |
| FirmwareQueue.SendPlaces | HWPlugins/embgw_hw_plugin/embgw_hw_plugin.c:40-44 | a send moves the sender's buffers out of its hand, and what stands in `pub_msg` into the queue or the overflow |
| FirmwareQueue.StepPlaces | HWPlugins/embgw_hw_plugin/embgw_hw_plugin.c:245-264 | every other step of every task keeps each buffer in its number of places and puts a new one in one |
| FirmwareQueue.RunKeepsGood | HWPlugins/embgw_hw_plugin/embgw_hw_plugin.c:40-42 | after every run, a field of `pub_msg` holds what a task has put there exactly when that task wrote it last |
| FirmwareQueue.Ledger | HWPlugins/embgw_hw_plugin/embgw_hw_plugin.c:26-45 | after every undisturbed run each buffer ever allocated is in exactly one of a task's hand, queue, network task, freed and three ways of being lost |
| FirmwareQueue.DisturbedLoses | HWPlugins/embgw_hw_plugin/embgw_hw_plugin.c:359-364 | after every disturbed run some buffer is in no place and never will be again |
| FirmwareQueue.LedgerExactly | HWPlugins/embgw_hw_plugin/embgw_hw_plugin.c:40-42 | the ledger holds of all buffers exactly for the undisturbed runs |
| FirmwareQueue.SharedMessageClobbered | HWPlugins/embgw_hw_plugin/embgw_hw_plugin.c:359-389 | such a run: the control task sends while the interrupt task has filled `pub_msg` |
| FirmwareQueue.ClobberedPlaces | HWPlugins/embgw_hw_plugin/embgw_hw_plugin.c:359-389 | there the control task's two buffers are queued twice and the interrupt task's are nowhere |
| FirmwareQueue.PublishedBuffersAreLive | HWPlugins/embgw_hw_plugin/embgw_hw_plugin.c:250-264 | in an undisturbed run nothing is freed twice, and what is about to be published is not freed, lost, in a hand or queued |
| FirmwareQueue.StepKeepsOrder | HWPlugins/embgw_hw_plugin/embgw_hw_plugin.c:245-264 | every step keeps order and bound |
| FirmwareQueue.FifoSinceReset | HWPlugins/embgw_hw_plugin/embgw_hw_plugin.c:245-269 | after every run, disturbed or not, publications attempted since the reset, the item in hand and the queue are the accepted sends in order; the queue holds at most six |
| FirmwareQueue.LossesAddUp | HWPlugins/embgw_hw_plugin/embgw_hw_plugin.c:338-370 | entries are lost only by a full queue, a reset under them or a failed allocation in the interrupt task, and exactly so many |
| FirmwareQueue.EventAtOnce | HWPlugins/embgw_hw_plugin/embgw_hw_plugin.c:26-45 | an event that is not interrupted is one step: two new buffers in the queue or the overflow |
| FirmwareQueue.Board.Begin | HWPlugins/embgw_hw_plugin/embgw_hw_plugin.c:30-39 | both allocations, and the frees when one fails |
| FirmwareQueue.Board.BeginStatus | HWPlugins/embgw_hw_plugin/embgw_hw_plugin.c:404-411 | the same for a status message, with the properties' buffer freed last |
| FirmwareQueue.Board.BeginIrq | HWPlugins/embgw_hw_plugin/embgw_hw_plugin.c:338-370 | the same for an interrupt, with the two ways of giving up |
| FirmwareQueue.Board.WriteMessage | HWPlugins/embgw_hw_plugin/embgw_hw_plugin.c:361 | one field of `pub_msg` is written |
| FirmwareQueue.Board.WriteTopic | HWPlugins/embgw_hw_plugin/embgw_hw_plugin.c:362 | the other field is written |
| FirmwareQueue.Board.QueueSend | HWPlugins/embgw_hw_plugin/embgw_hw_plugin.c:42-43 | accepted exactly below the capacity of six, and then last in the queue |
| FirmwareQueue.Board.SendMessage | HWPlugins/embgw_hw_plugin/embgw_hw_plugin.c:419-423 | what stands in `pub_msg` is sent, whoever wrote it, and the properties' buffer is freed |
| FirmwareQueue.Board.ExecuteCommand | HWPlugins/embgw_hw_plugin/embgw_hw_plugin.c:26-45 | the whole code of a sender that is not interrupted |
| FirmwareQueue.Board.QueueReset | HWPlugins/embgw_hw_plugin/embgw_hw_plugin.c:245 | what is queued at a reset is dropped without being freed |
| FirmwareQueue.Board.DrainOne | HWPlugins/embgw_hw_plugin/embgw_hw_plugin.c:250-259 | the oldest item is received, published and freed |
| FirmwareQueue.Board.Drain | HWPlugins/embgw_hw_plugin/embgw_hw_plugin.c:250-264 | takes, publishes and frees a prefix of the queue, in order |
| FirmwareQueue.DrainCountMeaning | HWPlugins/embgw_hw_plugin/embgw_hw_plugin.c:257-263 | the loop stops early only behind the first publication that failed |
| FirmwareQueue.DrainIsRun | HWPlugins/embgw_hw_plugin/embgw_hw_plugin.c:250-264 | a pass of the loop is a run of the step system with the same result |
| FirmwareLed.LedBoard.CommandHandler | HWPlugins/embgw_hw_plugin/include/hw_config.h:261-279 | on writes 0 to pin and value, takes the time and gives the semaphore; off writes 1 to both and leaves the rest; anything else changes nothing |
| FirmwareLed.LedBoard.ControlStep | HWPlugins/embgw_hw_plugin/embgw_hw_plugin.c:374-389 | each step of the control task, and that it waits exactly when none is due |
| FirmwareLed.StepKeepsGuarded | HWPlugins/embgw_hw_plugin/embgw_hw_plugin.c:374-389 | every step keeps the timed invariant of pin, semaphore and place in the control task |
| FirmwareLed.LitExactly | HWPlugins/embgw_hw_plugin/include/hw_config.h:261-279 | after every run the LED is lit exactly when the last of the on and off commands and the task's own turn-offs was an on, and the value reported follows the pin |
| FirmwareLed.LedIsTurnedOff | HWPlugins/embgw_hw_plugin/embgw_hw_plugin.c:374-389 | at every point of every run a lit LED has its turn-off under way and has been on for at most 15100 ms |
| FirmwareLed.OnSinceMeaning | HWPlugins/embgw_hw_plugin/include/hw_config.h:261-271 | the time counted from is the last change from dark to lit |
| FirmwareLed.TaskNeverStuck | HWPlugins/embgw_hw_plugin/embgw_hw_plugin.c:376-389 | the control task can go on, or time can, or it waits with the LED dark |
| FirmwareLed.BoundIsTight | HWPlugins/embgw_hw_plugin/embgw_hw_plugin.c:377-384 | a run in which the LED is on for 15100 ms |
| FirmwareMic.MicPin.Handler | HWPlugins/embgw_hw_plugin/include/hw_config.h:322-339 | accepted exactly when the 32-bit difference exceeds 100, and only then remembered |
| FirmwareMic.Run | HWPlugins/embgw_hw_plugin/include/hw_config.h:322-339 | the handler over any sequence of interrupts accepts what the specification says |
| FirmwareMic.DeltaOfTimes | HWPlugins/embgw_hw_plugin/include/hw_config.h:325 | the 32-bit difference is the true one modulo 2^32, and never more |
| FirmwareMic.PrevIsLastAccepted | HWPlugins/embgw_hw_plugin/include/hw_config.h:326-329 | the remembered tick is that of the last accepted interrupt |
| FirmwareMic.AcceptedAreApart | HWPlugins/embgw_hw_plugin/include/hw_config.h:322-339 | accepted interrupts lie at least 101 ticks apart for each step between them, over any number of wraps |
| FirmwareMic.DecisionByTrueTime | HWPlugins/embgw_hw_plugin/include/hw_config.h:325-337 | an interrupt is rejected exactly when the true time since the last accepted one is at most 100 modulo 2^32 |
| FirmwareId.HexDigitMeaning | HWPlugins/embgw_hw_plugin/include/declarations.h:46-51 | a digit is the character at its place of the hexadecimal alphabet |
| FirmwareId.HexRoundTrip | HWPlugins/embgw_hw_plugin/include/declarations.h:45-52 | the bytes are read back from their digits |
| FirmwareId.HexInjective | HWPlugins/embgw_hw_plugin/include/declarations.h:35-56 | different addresses have different ids |
| FirmwareId.DeviceId.Expand | HWPlugins/embgw_hw_plugin/include/declarations.h:45-53 | the buffer ends as the digits of the bytes it began with and a NUL, although the digits overwrite the bytes |
| FirmwareId.DeviceId.GetMyId | HWPlugins/embgw_hw_plugin/include/declarations.h:35-56 | the id is made from the first address reported and then kept; without one the call fails and changes nothing |
| FirmwareId.IdIsStable | HWPlugins/embgw_hw_plugin/include/declarations.h:41-44 | a later call returns the id of the first, whatever the radio reports then |
| Lifx.LittleEndianRoundTrip | plugins/LifXBulbPlugin/src/messaging.cpp:51-53 | a number that fits its field is read back from its bytes |
| Lifx.LittleEndianDigit | plugins/LifXBulbPlugin/src/messaging.cpp:51-53 | byte i of a number is its digit i in base 256 |
| Lifx.SizeIsLength | plugins/LifXBulbPlugin/src/messaging.cpp:12-13 | the size field is the number of bytes written |
| Lifx.LayoutOnWire | plugins/LifXBulbPlugin/src/messaging.cpp:53-69 | the place of each field in the datagram |
| Lifx.PacketRoundTrip | plugins/LifXBulbPlugin/src/messaging.cpp:53-69 | a reader of the layout recovers every field and the data |
| Lifx.OwnBitOnly | plugins/LifXBulbPlugin/src/messaging.cpp:19-33 | a flag setter decides its own bit and leaves the seven others |
| Lifx.FlagsCommute | plugins/LifXBulbPlugin/src/messaging.cpp:19-33 | the two setters commute, and of two calls of one the second counts |
| Lifx.SettersGiveLastCalls | plugins/LifXBulbPlugin/src/messaging.cpp:3-37 | after any calls the size is 36 plus the data's, every field fits, protocol and addresses are the initial ones, and the packet says what the last call of each setter asked for |
| Lifx.WireSaysLastCalls | plugins/LifXBulbPlugin/src/messaging.cpp:3-71 | what is read from the wire after any calls is the initial protocol and addresses and what the last call of each setter asked for, under the length announced |
| Lifx.PowerRoundTrip | plugins/LifXBulbPlugin/include/messaging.h:204-209 | the low and the high byte give back the power level |
| Lifx.PowerOnWire | plugins/LifXBulbPlugin/include/messaging.h:192-210 | a power message is 38 bytes that read back as that type and level |
| Lifx.Write | plugins/LifXBulbPlugin/src/messaging.cpp:53-69 | what is written follows what was written before, within the buffer |
| Lifx.LifxMessage.GetService | plugins/LifXBulbPlugin/include/messaging.h:169-178 | what a service request says |
| Lifx.LifxMessage.GetPower | plugins/LifXBulbPlugin/include/messaging.h:180-190 | what a power request says |
| Lifx.LifxMessage.SetPower | plugins/LifXBulbPlugin/include/messaging.h:192-210 | what a power message says |
| Lifx.LifxMessage.SetPacketSource | plugins/LifXBulbPlugin/src/messaging.cpp:3-5 | only the source changes |
| Lifx.LifxMessage.SetPacketType | plugins/LifXBulbPlugin/src/messaging.cpp:35-37 | only the type changes |
| Lifx.LifxMessage.AcknowledgeRequired | plugins/LifXBulbPlugin/src/messaging.cpp:19-25 | only the acknowledgement bit changes |
| Lifx.LifxMessage.ResponseRequired | plugins/LifXBulbPlugin/src/messaging.cpp:27-33 | only the response bit changes |
| Lifx.LifxMessage.SetData | plugins/LifXBulbPlugin/src/messaging.cpp:11-17 | both sizes and the front of the data change, and what lies behind stays |
| Lifx.LifxMessage.SendMessage | plugins/LifXBulbPlugin/src/messaging.cpp:44-75 | the datagram is the encoding of the packet with the time of sending |
| PluginContainer.ListKeepsLast | src/plugincontainer.cpp:118-120 | of several libraries with one class the list names the last |
| PluginContainer.ListedIsFound | src/plugincontainer.cpp:108-130 | a class is in the list exactly when the class loader finds it |
| PluginContainer.NamedIffHasOwnClass | src/plugincontainer.cpp:118-120 | a library is named in the list exactly when it has a class that no later library has |
| PluginContainer.AllUnloadedIff | src/plugincontainer.cpp:179-189 | nothing stays loaded exactly when every library has such a class |
| PluginContainer.EarlierBuildStays | src/plugincontainer.cpp:118-120 | of two builds of one plugin the earlier stays loaded |
| PluginContainer.LoadedMeaning | src/plugincontainer.cpp:14-36 | the loaded libraries are those of exactly the files that load, once each and in file order |
| PluginContainer.FailuresMeaning | src/plugincontainer.cpp:132-150 | a file that fails is recorded with -1, and nothing else changes in the record |
| PluginContainer.Container.LoadPlugins | src/plugincontainer.cpp:14-36 | what is loaded, what is listed, and which files are recorded as failed |
| PluginContainer.Container.GeneratePluginList | src/plugincontainer.cpp:108-130 | the list over all libraries and all their classes |
| PluginContainer.Container.StartPlugin | src/plugincontainer.cpp:70-84 | one plugin: remembered when its start returns 0, recorded with -2 when it returns anything else, passed over when it throws |
| PluginContainer.Container.StartPlugins | src/plugincontainer.cpp:63-86 | exactly the listed plugins whose start returns 0 are remembered, once each, and the refused ones recorded |
| PluginContainer.Container.StopPlugins | src/plugincontainer.cpp:88-106 | each remembered plugin is stopped, in order, and none stays remembered |
| PluginContainer.Container.UnloadPlugins | src/plugincontainer.cpp:174-194 | stops first, then unloads each listed library once; both lists end empty |
| PluginContainer.Life | src/plugincontainer.cpp:63-194 | over the life of the container and all its files: each class of a loaded library whose start returned 0 is started once and stopped once, starts come before stops and these before unloads, a file's library is unloaded once exactly when it has a class that no later one has, and nothing stays loaded exactly when each has |

## Left out

- JSON: messages and device records are values here; parsing, printing and quoting of message bodies are the library's.
- REST calls, files, `system`, certificates and configuration files: the cloud connector's acts are recorded instead of carried out.
- `pubTopicList`, message counters, return codes and `getInfo`: they decide nothing on the bus.
- BusModel.InnerBusClient.PublishMessage: a message published while the connection is down leaves no packet; of the library's own queue only the repeated status message is represented, which is what presence depends on.
- A client that is created again under the id of one that was destroyed: in `Presence` each client lives once.
- The time between a connection's loss and the broker noticing it: a session that is still open at the broker counts as open.
- Threads inside a client: each call and each callback is one step.
- The rest of the cloud connector's own MQTT client: its fixed topics, its will, and `do_unsubscribe`, which names a topic behind the end of its list.
- The targeted loop of `connectSensors`: it parses an empty text, so only its closing broadcast is reached, and commands with a device level are covered by `CommandRouting`.
- Plugins.NestDevicesPlugin.ExecuteCommand: the writes of properties to the remote service are left out; they send nothing on the bus.
- Plugins.NestDevicesPlugin.ListDevices: a device's record is given with the device, so the running number inside the names is not counted.
- Only one kind of comm plugin answers in a burst, the cloud connector, which is the one the repository has.
- Bursts and discovery assume that every plugin is attached and connected; connections that come and go are in `Presence`.
- `addIBusClients`, a second `LoadPlugins` on one container, and plugins that throw while stopping: a stop counts when it is called.
- PluginContainer.Container.StartPlugins: the order in which a map is walked is left open, so what is proved holds for every order.
- The LED handler's token loop: a command is taken as already read to be on, off or neither, and the time to publish an answer is not counted.
- The network side of the firmware: connecting, WiFi, the will and the retained properties.
- The rounding of delays to timer ticks and the time that statements take: the LED bound is for prompt scheduling.
- FirmwareQueue.Board.Drain: no other task sends during the pass; sends between its rounds are in the step system.
- Buffers are numbered by allocation, so the reuse of an address by the allocator is not represented.
- The builder's remaining one-line setters and `Topic.get` of the phone application: `BuildParseRoundTrip` speaks of every combination of fields, however it was set.
- Rounding of `double` and the saturation of Java's cast: the seek bar is in exact numbers.
- Slider.AppSeekBar.SetWithProperty: of the texts that Java takes for a number only plain decimals are read, so that an exponent, a plus sign or a space counts as no number.
- Slider.AppSeekBar.SetStep: a step of nought on a decimal bar makes the original's scale infinite, which exact numbers do not have.
- `setPacketTarget`, which does nothing, the message factory's lookup of an unknown type, sockets and network interfaces.
