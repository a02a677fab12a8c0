/**
 MQTT topics of events. The topic of a retained device event determines its device, its
 type and its probe, provided device identifiers contain no slash.
 */
module Topics {
  import opened Basics
  import opened Events

  function StripLeft(s: string): string {
    if |s| > 0 && s[0] == '/' then StripLeft(s[1..]) else s
  }

  function StripRight(s: string): string {
    if |s| > 0 && s[|s| - 1] == '/' then StripRight(s[..|s| - 1]) else s
  }

  function Strip(s: string): string {
    StripRight(StripLeft(s))
  }

  function Digit(n: nat): char
    requires n < 10
  {
    "0123456789"[n]
  }

  function Decimal(n: nat): string {
    if n < 10 then [Digit(n)] else Decimal(n / 10) + [Digit(n % 10)]
  }

  datatype TopicError = NeedsDevice | NeedsProbe

  function Part(kind: EventType): Option<string> {
    match kind
    case DeviceAvailability => Some("availability")
    case DeviceConnection => Some("connection")
    case ThermometerHeartbeat => Some("heartbeat")
    case Battery => Some("battery")
    case _ => None
  }

  /** What follows the device identifier in a device topic; events accept probe numbers 1 to 4 only. */
  function Tail(kind: EventType, probe: Option<int>): Result<string, TopicError> {
    if Part(kind).Some? then Ok(Part(kind).value)
    else if probe.None? || !(1 <= probe.value <= 4) then Err(NeedsProbe)
    else Ok("probes/" + Decimal(probe.value) + "/" + (if kind == ProbeAvailability then "availability" else "temperature"))
  }

  function ServiceTopic(base: string): string {
    Strip(base) + "/v1/service/availability"
  }

  function DevicePrefix(base: string): string {
    Strip(base) + "/v1/devices/"
  }

  function TopicFor(base: string, k: Key): Result<string, TopicError> {
    if k.kind == ServiceAvailability then Ok(ServiceTopic(base))
    else if k.device.None? then Err(NeedsDevice)
    else
      match Tail(k.kind, k.probe)
      case Err(e) => Err(e)
      case Ok(tail) => Ok(DevicePrefix(base) + k.device.value + "/" + tail)
  }

  predicate IsRetained(kind: EventType) {
    kind != ProbeTemperature
  }

  // ---------- Injectivity ----------

  predicate SlashFree(s: string) {
    '/' !in s
  }

  /** A key as the telemetry state publishes it: slash-free device, probe number only for probes. */
  predicate DeviceKey(k: Key) {
    && k.device.Some? && SlashFree(k.device.value)
    && (if k.kind == ProbeAvailability || k.kind == ProbeTemperature
        then k.probe.Some? && 1 <= k.probe.value <= 4
        else Part(k.kind).Some? && k.probe == None)
  }

  /** Text before the first slash and text after it are determined by the whole. */
  lemma SplitAtSlash(a: string, x: string, b: string, y: string)
    requires SlashFree(a) && SlashFree(b) && a + "/" + x == b + "/" + y
    ensures a == b && x == y
  {
    var s := a + "/" + x;
    var t := b + "/" + y;
    assert s[|a|] == '/' && t[|b|] == '/';
    assert forall i :: 0 <= i < |a| ==> s[i] == a[i];
    assert forall i :: 0 <= i < |b| ==> t[i] == b[i];
    assert |a| == |b|;
    assert a == s[..|a|] && b == t[..|b|];
    assert x == s[|a| + 1..] && y == t[|b| + 1..];
  }

  lemma DropPrefix(p: string, x: string, y: string)
    requires p + x == p + y
    ensures x == y
  {
    assert x == (p + x)[|p|..] && y == (p + y)[|p|..];
  }

  lemma OneDigit(n: nat)
    requires 1 <= n <= 4
    ensures Decimal(n) == [Digit(n)] && SlashFree(Decimal(n))
  {
  }

  function ProbeTail(n: nat, leaf: string): string {
    "probes/" + Decimal(n) + "/" + leaf
  }

  lemma ProbeTailsDiffer(n: nat, m: nat, a: string, b: string)
    requires 1 <= n <= 4 && 1 <= m <= 4 && ProbeTail(n, a) == ProbeTail(m, b)
    ensures n == m && a == b
  {
    OneDigit(n);
    OneDigit(m);
    assert ProbeTail(n, a) == "probes/" + (Decimal(n) + "/" + a);
    assert ProbeTail(m, b) == "probes/" + (Decimal(m) + "/" + b);
    DropPrefix("probes/", Decimal(n) + "/" + a, Decimal(m) + "/" + b);
    SplitAtSlash(Decimal(n), a, Decimal(m), b);
    assert Digit(n) == Decimal(n)[0] == Decimal(m)[0] == Digit(m);
  }

  lemma TailsDiffer(k: Key, l: Key)
    requires DeviceKey(k) && DeviceKey(l) && Tail(k.kind, k.probe) == Tail(l.kind, l.probe)
    ensures k.kind == l.kind && k.probe == l.probe
  {
    assert Tail(k.kind, k.probe).value[0] == 'p' <==> Part(k.kind).None?;
    assert Tail(l.kind, l.probe).value[0] == 'p' <==> Part(l.kind).None?;
    if Part(k.kind).Some? {
      assert Part(k.kind).value[0] == Part(l.kind).value[0];
    } else {
      var a := if k.kind == ProbeAvailability then "availability" else "temperature";
      var b := if l.kind == ProbeAvailability then "availability" else "temperature";
      assert Tail(k.kind, k.probe).value == ProbeTail(k.probe.value, a);
      assert Tail(l.kind, l.probe).value == ProbeTail(l.probe.value, b);
      ProbeTailsDiffer(k.probe.value, l.probe.value, a, b);
      assert a[0] == b[0];
    }
  }

  lemma TopicParts(base: string, k: Key)
    requires DeviceKey(k)
    ensures Tail(k.kind, k.probe).Ok?
    ensures TopicFor(base, k) ==
            Ok(DevicePrefix(base) + (k.device.value + "/" + Tail(k.kind, k.probe).value))
  {
    var tail := Tail(k.kind, k.probe).value;
    Regroup(DevicePrefix(base), k.device.value, "/", tail);
  }

  lemma Regroup(a: string, b: string, c: string, d: string)
    ensures a + b + c + d == a + (b + c + d)
  {
  }

  /** Different device keys have different topics. */
  lemma TopicDeterminesKey(base: string, k: Key, l: Key)
    requires DeviceKey(k) && DeviceKey(l) && TopicFor(base, k) == TopicFor(base, l)
    ensures TopicFor(base, k).Ok? && k == l
  {
    TopicParts(base, k);
    TopicParts(base, l);
    var kt := Tail(k.kind, k.probe).value;
    var lt := Tail(l.kind, l.probe).value;
    DropPrefix(DevicePrefix(base), k.device.value + "/" + kt, l.device.value + "/" + lt);
    SplitAtSlash(k.device.value, kt, l.device.value, lt);
    TailsDiffer(k, l);
  }

  /** No device topic is the service topic. */
  lemma ServiceTopicIsApart(base: string, k: Key)
    requires DeviceKey(k)
    ensures TopicFor(base, k).Ok? && TopicFor(base, k).value != ServiceTopic(base)
  {
    var n := |Strip(base)| + 4;
    var t := TopicFor(base, k).value;
    assert t[n] == DevicePrefix(base)[n] == 'd';
    assert ServiceTopic(base)[n] == 's';
  }

  /** With a slash in the identifier two devices can share a topic, so the proviso is needed. */
  lemma SlashesCollide(base: string, d: DeviceId)
    ensures var k := Key(Some(d + "/probes/1"), DeviceAvailability, None);
            var l := Key(Some(d), ProbeAvailability, Some(1));
            k != l && TopicFor(base, k) == TopicFor(base, l)
  {
    OneDigit(1);
    var p := DevicePrefix(base);
    assert p + (d + "/probes/1") + "/" + "availability" == p + d + "/" + ("probes/" + Decimal(1) + "/" + "availability");
  }

  // ---------- The documented topics ----------

  /** The topics of a device, and of the service, as they are documented. */
  lemma DocumentedTopics(base: string, d: DeviceId)
    ensures TopicFor(base, Key(Some(d), DeviceAvailability, None)) == Ok(Strip(base) + "/v1/devices/" + d + "/availability")
    ensures TopicFor(base, Key(Some(d), DeviceConnection, None)) == Ok(Strip(base) + "/v1/devices/" + d + "/connection")
    ensures TopicFor(base, Key(Some(d), ThermometerHeartbeat, None)) == Ok(Strip(base) + "/v1/devices/" + d + "/heartbeat")
    ensures TopicFor(base, Key(Some(d), Battery, None)) == Ok(Strip(base) + "/v1/devices/" + d + "/battery")
    ensures TopicFor(base, Key(None, ServiceAvailability, None)) == Ok(Strip(base) + "/v1/service/availability")
    ensures ServiceTopic(base) == Strip(base) + "/v1/service/availability"
  {
    var p := Strip(base) + "/v1/devices/" + d;
    assert p + "/availability" == p + "/" + "availability";
    assert p + "/connection" == p + "/" + "connection";
    assert p + "/heartbeat" == p + "/" + "heartbeat";
    assert p + "/battery" == p + "/" + "battery";
  }

  /** The two topics of a probe, with its number as one digit. */
  lemma DocumentedProbeTopics(base: string, d: DeviceId, n: int)
    requires 1 <= n <= 4
    ensures var probe := Strip(base) + "/v1/devices/" + d + "/probes/" + ["1234"[n - 1]];
            && TopicFor(base, Key(Some(d), ProbeAvailability, Some(n))) == Ok(probe + "/availability")
            && TopicFor(base, Key(Some(d), ProbeTemperature, Some(n))) == Ok(probe + "/temperature")
  {
    OneDigit(n);
    var digit := ["1234"[n - 1]];
    assert Decimal(n) == digit;
    assert DevicePrefix(base) == Strip(base) + "/v1/devices/";
    ProbeTopicParts(DevicePrefix(base), d, digit, "availability");
    ProbeTopicParts(DevicePrefix(base), d, digit, "temperature");
    assert "/" + "availability" == "/availability" && "/" + "temperature" == "/temperature";
    assert Tail(ProbeAvailability, Some(n)) == Ok("probes/" + digit + "/" + "availability");
    assert Tail(ProbeTemperature, Some(n)) == Ok("probes/" + digit + "/" + "temperature");
  }

  lemma ProbeTopicParts(prefix: string, d: DeviceId, digit: string, leaf: string)
    ensures prefix + d + "/" + ("probes/" + digit + "/" + leaf) == prefix + d + "/probes/" + digit + ("/" + leaf)
  {
    assert "/" + "probes/" == "/probes/";
  }

  /** There is no topic exactly for an event of a device without its identifier, or of a probe without its number. */
  lemma TopicErrors(base: string, k: Key)
    ensures TopicFor(base, k) == Err(NeedsDevice) <==> k.kind != ServiceAvailability && k.device == None
    ensures TopicFor(base, k) == Err(NeedsProbe) <==>
            && k.device.Some? && (k.probe.None? || !(1 <= k.probe.value <= 4))
            && k.kind !in {ServiceAvailability, DeviceAvailability, DeviceConnection, ThermometerHeartbeat, Battery}
  {
  }

  /** Slashes, and nothing else. */
  predicate AllSlashes(s: string) {
    forall i :: 0 <= i < |s| ==> s[i] == '/'
  }

  /** The base topic loses the slashes at its ends, all of them and nothing else. */
  lemma StripExactly(s: string)
    ensures Strip(s) != "" ==> Strip(s)[0] != '/' && Strip(s)[|Strip(s)| - 1] != '/'
    ensures exists left, right :: s == left + Strip(s) + right && AllSlashes(left) && AllSlashes(right)
  {
    var left := StripLeftExactly(s);
    var right := StripRightExactly(StripLeft(s));
    assert s == left + (Strip(s) + right) == left + Strip(s) + right;
    if Strip(s) != "" {
      assert StripLeft(s)[0] == (Strip(s) + right)[0] == Strip(s)[0];
    }
  }

  lemma {:induction false} StripLeftExactly(s: string) returns (left: string)
    ensures s == left + StripLeft(s) && AllSlashes(left)
    ensures StripLeft(s) != "" ==> StripLeft(s)[0] != '/'
    decreases |s|
  {
    left := "";
    if |s| > 0 && s[0] == '/' {
      left := StripLeftExactly(s[1..]);
      left := "/" + left;
    }
  }

  lemma {:induction false} StripRightExactly(s: string) returns (right: string)
    ensures s == StripRight(s) + right && AllSlashes(right)
    ensures StripRight(s) != "" ==> StripRight(s)[|StripRight(s)| - 1] != '/'
    decreases |s|
  {
    right := "";
    if |s| > 0 && s[|s| - 1] == '/' {
      right := StripRightExactly(s[..|s| - 1]);
      right := right + "/";
    }
  }
}
