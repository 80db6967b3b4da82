/**
 * The pure parts of mqtt.py and the gates of its server: the topic names
 * derived from the discovery triple (prefix, node id, object id), the
 * discovery document, the classifier that makes the retry policy give up,
 * the hostname and discovery-prefix gates, and the decoding of ON/OFF
 * commands. Topic levels are the '/'-separated parts of a topic name, as in
 * section 4.7.1.1 of the MQTT 3.1.1 standard.
 */
module Mqtt {
  import opened Wrappers
  import opened Display

  datatype MqttConfig = MqttConfig(
    hostname: Option<string>,
    port: int,
    username: Option<string>,
    password: Option<string>,
    discoveryPrefix: Option<string>,
    discoveryNodeId: Option<string>,
    discoveryObjectId: Option<string>)

  /** How a Python f-string renders an optional string: None becomes "None". */
  function Show(s: Option<string>): string {
    match s
    case Some(text) => text
    case None => "None"
  }

  function DiscoveryTopic(config: MqttConfig): string {
    Show(config.discoveryPrefix) + "/switch/" + Show(config.discoveryNodeId) + "/"
      + Show(config.discoveryObjectId) + "/config"
  }

  function StateTopic(config: MqttConfig): string {
    Show(config.discoveryPrefix) + "/" + Show(config.discoveryNodeId) + "/" + Show(config.discoveryObjectId) + "/state"
  }

  function CmdTopic(config: MqttConfig): string {
    Show(config.discoveryPrefix) + "/" + Show(config.discoveryNodeId) + "/" + Show(config.discoveryObjectId) + "/cmd"
  }

  function AvailabilityTopic(config: MqttConfig): string {
    Show(config.discoveryPrefix) + "/" + Show(config.discoveryNodeId) + "/" + Show(config.discoveryObjectId) + "/available"
  }

  /** The '/'-separated levels of a topic name. */
  function Levels(topic: string): (r: seq<string>)
    ensures |r| >= 1
  {
    if topic == [] then [""]
    else if topic[0] == '/' then [""] + Levels(topic[1..])
    else var rest := Levels(topic[1..]); [[topic[0]] + rest[0]] + rest[1..]
  }

  lemma {:induction false} LevelsOfLevel(level: string)
    requires '/' !in level
    ensures Levels(level) == [level]
  {
    if level != [] {
      LevelsOfLevel(level[1..]);
      assert [level[0]] + level[1..] == level;
    }
  }

  lemma {:induction false} LevelsJoin(level: string, rest: string)
    requires '/' !in level
    ensures Levels(level + "/" + rest) == [level] + Levels(rest)
  {
    var topic := level + "/" + rest;
    if level == [] {
      assert topic == "/" + rest && topic[1..] == rest;
    } else {
      assert topic[0] == level[0] && topic[1..] == level[1..] + "/" + rest;
      LevelsJoin(level[1..], rest);
      assert [level[0]] + level[1..] == level;
    }
  }

  /** prefix/node/object/leaf splits into its four levels when none of them contains '/'. */
  lemma FourLevels(p: string, n: string, o: string, leaf: string)
    requires '/' !in p && '/' !in n && '/' !in o && '/' !in leaf
    ensures Levels(p + "/" + n + "/" + o + "/" + leaf) == [p, n, o, leaf]
  {
    LevelsOfLevel(leaf);
    LevelsJoin(o, leaf);
    LevelsJoin(n, o + "/" + leaf);
    LevelsJoin(p, n + "/" + (o + "/" + leaf));
    SlashAssociates(p, n, o, leaf);
  }

  lemma SlashAssociates(p: string, n: string, o: string, leaf: string)
    ensures p + "/" + n + "/" + o + "/" + leaf == p + "/" + (n + "/" + (o + "/" + leaf))
  {
  }

  /**
   * When none of the three identifiers contains '/', the discovery topic
   * splits into exactly prefix, switch, node, object and config.
   */
  lemma DiscoveryTopicLevels(config: MqttConfig)
    requires '/' !in Show(config.discoveryPrefix)
    requires '/' !in Show(config.discoveryNodeId)
    requires '/' !in Show(config.discoveryObjectId)
    ensures Levels(DiscoveryTopic(config))
         == [Show(config.discoveryPrefix), "switch", Show(config.discoveryNodeId), Show(config.discoveryObjectId), "config"]
  {
    var p, n, o := Show(config.discoveryPrefix), Show(config.discoveryNodeId), Show(config.discoveryObjectId);
    var rest := "switch" + "/" + n + "/" + o + "/" + "config";
    FourLevels("switch", n, o, "config");
    LevelsJoin(p, rest);
    assert DiscoveryTopic(config) == p + "/" + rest by {
      DiscoveryTopicShape(p, n, o);
    }
  }

  lemma DiscoveryTopicShape(p: string, n: string, o: string)
    ensures p + "/switch/" + n + "/" + o + "/config" == p + "/" + ("switch" + "/" + n + "/" + o + "/" + "config")
  {
  }

  lemma LeafShape(p: string, n: string, o: string, leaf: string)
    ensures p + "/" + n + "/" + o + ("/" + leaf) == p + "/" + n + "/" + o + "/" + leaf
  {
  }

  /**
   * When none of the three identifiers contains '/', the state, command and
   * availability topics split into prefix, node, object and their leaf.
   */
  lemma DeviceTopicLevels(config: MqttConfig)
    requires '/' !in Show(config.discoveryPrefix)
    requires '/' !in Show(config.discoveryNodeId)
    requires '/' !in Show(config.discoveryObjectId)
    ensures Levels(StateTopic(config)) == [Show(config.discoveryPrefix), Show(config.discoveryNodeId), Show(config.discoveryObjectId), "state"]
    ensures Levels(CmdTopic(config)) == [Show(config.discoveryPrefix), Show(config.discoveryNodeId), Show(config.discoveryObjectId), "cmd"]
    ensures Levels(AvailabilityTopic(config))
         == [Show(config.discoveryPrefix), Show(config.discoveryNodeId), Show(config.discoveryObjectId), "available"]
  {
    var p, n, o := Show(config.discoveryPrefix), Show(config.discoveryNodeId), Show(config.discoveryObjectId);
    FourLevels(p, n, o, "state");
    LeafShape(p, n, o, "state");
    assert "/state" == "/" + "state";
    FourLevels(p, n, o, "cmd");
    LeafShape(p, n, o, "cmd");
    assert "/cmd" == "/" + "cmd";
    FourLevels(p, n, o, "available");
    LeafShape(p, n, o, "available");
    assert "/available" == "/" + "available";
  }

  datatype Device = Device(identifiers: seq<Option<string>>, name: string)

  /** The discovery document; a None object id is JSON null. */
  datatype DiscoveryPayload = DiscoveryPayload(
    name: Option<string>,
    uniqueId: string,
    stateTopic: string,
    commandTopic: string,
    availabilityTopic: string,
    device: Device)

  /**
   * The discovery document names the switch after the object id, derives
   * its unique id and device from it, and points at the state, command and
   * availability topics, which are three different topics.
   */
  function GetDiscoveryPayload(config: MqttConfig): (p: DiscoveryPayload)
    ensures p.name == config.discoveryObjectId
    ensures p.uniqueId == "pixelperfectpi_" + Show(p.name)
    ensures p.device == Device([p.name], "pixelperfectpi")
    ensures p.stateTopic == StateTopic(config)
    ensures p.commandTopic == CmdTopic(config)
    ensures p.availabilityTopic == AvailabilityTopic(config)
    ensures p.stateTopic != p.commandTopic && p.commandTopic != p.availabilityTopic
    ensures p.stateTopic != p.availabilityTopic
  {
    DiscoveryPayload(
      name := config.discoveryObjectId,
      uniqueId := "pixelperfectpi_" + Show(config.discoveryObjectId),
      stateTopic := StateTopic(config),
      commandTopic := CmdTopic(config),
      availabilityTopic := AvailabilityTopic(config),
      device := Device([config.discoveryObjectId], "pixelperfectpi"))
  }

  /** The discovery topic is none of the other three, whatever the identifiers. */
  lemma DiscoveryTopicIsSeparate(config: MqttConfig)
    ensures DiscoveryTopic(config) != StateTopic(config)
    ensures DiscoveryTopic(config) != CmdTopic(config)
    ensures DiscoveryTopic(config) != AvailabilityTopic(config)
  {
  }

  /**
   * A Python exception, given by the names of the classes of its type's
   * method resolution order (`type(e).__mro__`), most derived first.
   */
  datatype PyException = PyException(classes: seq<string>)

  /** An exception of a class `name` derived from the class of `base`. */
  function Subclass(name: string, base: PyException): PyException {
    PyException([name] + base.classes)
  }

  const BaseExceptionClasses: seq<string> := ["Exception", "BaseException", "object"]

  const RuntimeErrorException: PyException := PyException(["RuntimeError"] + BaseExceptionClasses)
  const AssertionErrorException: PyException := PyException(["AssertionError"] + BaseExceptionClasses)
  const UnicodeDecodeErrorException: PyException :=
    PyException(["UnicodeDecodeError", "UnicodeError", "ValueError"] + BaseExceptionClasses)
  /** The broker client's error class, a direct subclass of Exception. */
  const MqttErrorException: PyException := PyException(["MqttError"] + BaseExceptionClasses)

  /** `on_runtime_error`: `isinstance(e, RuntimeError)`, the retry policy's give-up test. */
  predicate OnRuntimeError(e: PyException) {
    "RuntimeError" in e.classes
  }

  /**
   * Giving up is inherited: an exception of a derived class gives up
   * exactly when its class is RuntimeError itself or its base class gives up.
   */
  lemma InheritedGiveUp(name: string, base: PyException)
    ensures OnRuntimeError(Subclass(name, base)) <==> name == "RuntimeError" || OnRuntimeError(base)
  {
    assert Subclass(name, base).classes[0] == name;
    assert Subclass(name, base).classes[1..] == base.classes;
  }

  /**
   * The failures the connection loop meets are retried after a backoff
   * delay: a failed assert, a command payload that is not UTF-8, and any
   * error of the broker client, with its subclasses. A RuntimeError, and
   * any subclass of it such as RecursionError, gives up.
   */
  lemma KnownFailures(clientError: string)
    requires clientError != "RuntimeError"
    ensures !OnRuntimeError(AssertionErrorException)
    ensures !OnRuntimeError(UnicodeDecodeErrorException)
    ensures !OnRuntimeError(MqttErrorException)
    ensures !OnRuntimeError(Subclass(clientError, MqttErrorException))
    ensures OnRuntimeError(RuntimeErrorException)
    ensures OnRuntimeError(Subclass("RecursionError", RuntimeErrorException))
  {
    InheritedGiveUp(clientError, MqttErrorException);
    InheritedGiveUp("RecursionError", RuntimeErrorException);
  }

  /** What a command on the command topic asks of the display. */
  datatype Command = TurnOn | TurnOff | NoAction

  /** How a command message ends: its decoded command applied, or a failed decode. */
  datatype CommandOutcome = Applied(command: Command) | DecodeFailed

  /**
   * Python's `str.upper` on one character, for the letters it can produce
   * O, N or F from: ASCII lower case, and the ligature U+FB00 which becomes
   * "FF". Other characters are kept as they are.
   */
  function UpperChar(c: char): (r: string)
    ensures 1 <= |r| <= 2
  {
    if 'a' <= c <= 'z' then [(c as int - 32) as char]
    else if c == '\U{FB00}' then "FF"
    else [c]
  }

  /** `str.upper` on a whole string; it never shortens the string. */
  function Upper(s: string): (r: string)
    ensures |r| >= |s|
  {
    if s == [] then [] else UpperChar(s[0]) + Upper(s[1..])
  }

  /** A spelling of "on" in any case. */
  predicate IsOnSpelling(p: string) {
    |p| == 2 && p[0] in "oO" && p[1] in "nN"
  }

  /** A spelling of "off" in any case, including "o" followed by the ligature U+FB00 ("\U{FB00}"). */
  predicate IsOffSpelling(p: string) {
    |p| >= 2 && (p[0] == 'o' || p[0] == 'O') && IsDoubleF(p[1..])
  }

  /** For an upper-case ASCII letter `u`: a character upper-cases to `u` exactly when it is `u` in either case. */
  lemma UpperCharIs(c: char, u: char)
    requires 'A' <= u <= 'Z'
    ensures UpperChar(c) == [u] <==> c == u || c as int == u as int + 32
  {
  }

  /** A string upper-cases to one upper-case ASCII letter exactly when it is that letter in either case. */
  lemma UpperIsLetter(s: string, u: char)
    requires 'A' <= u <= 'Z'
    ensures Upper(s) == [u] <==> |s| == 1 && (s[0] == u || s[0] as int == u as int + 32)
  {
    if s != [] {
      UpperCharIs(s[0], u);
      assert Upper(s) == UpperChar(s[0]) + Upper(s[1..]);
    }
  }

  lemma UpperIsOn(s: string)
    ensures Upper(s) == "ON" <==> IsOnSpelling(s)
  {
    if s != [] {
      var h := UpperChar(s[0]);
      assert Upper(s) == h + Upper(s[1..]);
      UpperIsLetter(s[1..], 'N');
      UpperCharIs(s[0], 'O');
      if Upper(s) == "ON" {
        assert (h + Upper(s[1..]))[0] == h[0] == 'O';
        assert h != "FF" && |h| == 1;
        assert Upper(s[1..]) == (h + Upper(s[1..]))[1..] == "N";
      }
    }
  }

  lemma UpperIsOff(s: string)
    ensures Upper(s) == "OFF" <==> IsOffSpelling(s)
  {
    if s != [] {
      var h := UpperChar(s[0]);
      assert Upper(s) == h + Upper(s[1..]);
      UpperCharIs(s[0], 'O');
      UpperIsDoubleF(s[1..]);
      if Upper(s) == "OFF" {
        assert (h + Upper(s[1..]))[0] == h[0] == 'O';
        assert h != "FF" && |h| == 1;
        assert Upper(s[1..]) == (h + Upper(s[1..]))[1..] == "FF";
      }
    }
  }

  /** The strings that upper-case to "FF". */
  predicate IsDoubleF(s: string) {
    || (|s| == 2 && (s[0] == 'f' || s[0] == 'F') && (s[1] == 'f' || s[1] == 'F'))
    || (|s| == 1 && s[0] == '\U{FB00}')
  }

  lemma UpperIsDoubleF(s: string)
    ensures Upper(s) == "FF" <==> IsDoubleF(s)
  {
    if Upper(s) == "FF" {
      UpperDoubleFIsDoubleF(s);
    }
    if IsDoubleF(s) {
      var h := UpperChar(s[0]);
      assert Upper(s) == h + Upper(s[1..]);
      UpperIsLetter(s[1..], 'F');
    }
  }

  lemma UpperDoubleFIsDoubleF(s: string)
    requires Upper(s) == "FF"
    ensures IsDoubleF(s)
  {
    var h := UpperChar(s[0]);
    assert Upper(s) == h + Upper(s[1..]);
    assert (h + Upper(s[1..]))[0] == h[0] == 'F';
    if |h| == 1 {
      UpperCharIs(s[0], 'F');
      UpperIsLetter(s[1..], 'F');
      assert Upper(s[1..]) == (h + Upper(s[1..]))[1..] == "F";
    } else {
      assert h == "FF" && Upper(s[1..]) == [];
    }
  }

  /**
   * The command decode: the payload is upper-cased, "ON" turns the display
   * on, "OFF" turns it off, anything else does nothing.
   */
  function DecodeCommand(payload: string): (cmd: Command)
    ensures cmd == TurnOn <==> IsOnSpelling(payload)
    ensures cmd == TurnOff <==> IsOffSpelling(payload)
  {
    UpperIsOn(payload);
    UpperIsOff(payload);
    var upper := Upper(payload);
    if upper == "ON" then TurnOn
    else if upper == "OFF" then TurnOff
    else NoAction
  }

  /** A retained message the server publishes. */
  datatype DiscoveryMessage = DiscoveryMessage(topic: string, payload: DiscoveryPayload, qos: nat, retain: bool)

  class MqttServer {
    const config: MqttConfig
    const clock: SampleBase
    /** How many `serve_forever` tasks `start` has scheduled. */
    var serveTasks: nat

    constructor (config: MqttConfig, clock: SampleBase)
      ensures this.config == config && this.clock == clock && serveTasks == 0
    {
      this.config := config;
      this.clock := clock;
      serveTasks := 0;
    }

    /** Without a hostname the connection is disabled and nothing is scheduled. */
    method Start()
      modifies this
      ensures serveTasks == old(serveTasks) + (if config.hostname.None? then 0 else 1)
    {
      if config.hostname.None? {
        return;
      }
      serveTasks := serveTasks + 1;
    }

    /**
     * The discovery document, published retained with QoS 1 on the
     * discovery topic; nothing is published without a discovery prefix.
     */
    method PublishDiscovery() returns (sent: Option<DiscoveryMessage>)
      ensures sent.None? <==> config.discoveryPrefix.None?
      ensures sent.Some? ==>
        && sent.value.topic == DiscoveryTopic(config)
        && sent.value.payload == GetDiscoveryPayload(config)
        && sent.value.qos == 1 && sent.value.retain
    {
      if config.discoveryPrefix.None? {
        return None;
      }
      sent := Some(DiscoveryMessage(DiscoveryTopic(config), GetDiscoveryPayload(config), 1, true));
    }

    /**
     * One message on the command topic. `decode` is `bytes.decode()`, None
     * where it raises UnicodeDecodeError: the handler then stops with
     * `DecodeFailed` and the display is not touched. The display's turn-on
     * event exists exactly while it is off, and stays so.
     */
    method HandleCommand(payload: seq<bv8>, decode: seq<bv8> -> Option<string>) returns (outcome: CommandOutcome)
      requires EventIffOff(clock.View())
      modifies clock, clock.turnOnEvent
      ensures outcome.DecodeFailed? <==> decode(payload).None?
      ensures outcome.Applied? ==> outcome.command == DecodeCommand(decode(payload).value)
      ensures EventIffOff(clock.View())
      ensures clock.View() == match outcome
        case Applied(TurnOn) => TurnOnRearmedSpec(old(clock.View()))
        case Applied(TurnOff) => TurnOffSpec(old(clock.View()))
        case _ => old(clock.View())
      ensures clock.state == old(clock.state) ==> clock.turnOnEvent == old(clock.turnOnEvent)
      ensures outcome == Applied(TurnOn) && old(clock.state) == Off ==> old(clock.turnOnEvent).isSet
      ensures outcome == Applied(TurnOff) && old(clock.state) == On ==> fresh(clock.turnOnEvent)
    {
      var text := decode(payload);
      if text.None? {
        return DecodeFailed;
      }
      var cmd := Upper(text.value);
      if cmd == "ON" {
        clock.TurnOnRearmed();
        outcome := Applied(TurnOn);
      } else if cmd == "OFF" {
        clock.TurnOff();
        outcome := Applied(TurnOff);
      } else {
        outcome := Applied(NoAction);
      }
    }
  }
}
