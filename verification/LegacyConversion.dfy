/** One-way conversion of a legacy Heating configuration into a canonical payload and bindings, and the
    compilation of such a payload back into a runtime configuration. Durations are whole microseconds; canonical
    seconds are whatever a number format makes of them, so the codec is an arbitrary pair of functions. What the
    schema's own validators accept is arbitrary as well. */
module LegacyConversion {

  import opened Wrappers

  datatype Result<T> = Ok(value: T) | Err(error: Error)

  datatype Field =
    | ConfiguredDebugDuration | RateWindow | CriticalRateWindow | MaximumAge | FutureSkew | GracePeriod
    | ConfirmationDuration | MinimumOnTime | MinimumOffTime

  datatype Error =
    | DebugDurationsDiffer | SimpleSourceDisagrees | CustomSourceControlled | UnsupportedControlMode
    | UnmanagedWithActuator | AssistWithoutActuator | UnsupportedDeliveryMode
    | Inexact(field: Field) | InvalidPayload | NotReady | MissingLocator(role: Role)

  datatype Role = PrimaryTemperature | EnableTarget | DisableTarget | ReportedState | Actuator

  datatype Action = EnableHeating | DisableHeating

  datatype Call = Call(domain: string, service: string, target: string)

  datatype Recipient = Recipient(
    id: string, transport: string, target: string, enabled: bool, minimumLevel: nat, categories: seq<nat>)

  datatype Limits = Limits(maximum: int, criticalMaximum: int, history: int)

  /** A notification policy, with its windows as durations or as canonical seconds. */
  datatype Policy<W> = Policy(
    enabled: bool, recipients: seq<Recipient>, limits: Limits, rateWindow: W, criticalWindow: W)

  datatype Identity = Identity(sensorId: string, sensorName: string, zoneId: string, zoneName: string)

  /** The durations every configuration has, converted alike. */
  datatype Times<W> = Times(maxAge: W, futureSkew: W, grace: W, confirmation: W, minimumOn: W, minimumOff: W)

  datatype Control = Control(target: real, onDifferential: real, offDifferential: real, timeoutAction: Action)

  datatype Assist = Assist(ownership: string, policy: string, target: real)

  datatype Legacy = Legacy(
    identity: Identity, temperatureEntity: string, control: Control, times: Times<int>,
    enable: Call, disable: Call, controlMode: string, controlled: Option<string>,
    profile: string, debug: Option<int>, configuredDebug: int, profileBeforeDebug: string,
    deliveryMode: string, actuator: Option<string>, assist: Assist, notifications: Policy<int>)

  datatype ServiceCall = ServiceCall(domain: string, service: string, role: Role)

  datatype Diagnostics<S> = Diagnostics(profile: string, configuredSeconds: S, untilChanged: bool, before: string)

  datatype Payload<S> = Payload(
    identity: Identity, control: Control, times: Times<S>,
    sourceMode: string, enable: ServiceCall, disable: ServiceCall, reportedRole: Option<Role>,
    deliveryMode: string, actuatorRole: Option<Role>, assist: Assist,
    diagnostics: Diagnostics<S>, notifications: Policy<S>)

  /** A reference need not have a locator. */
  datatype Binding = Binding(role: Role, locator: Option<string>)

  datatype Canonical<S> = Canonical(payload: Payload<S>, bindings: seq<Binding>)

  /** How canonical seconds represent a duration, and how they are read back. */
  datatype Codec<!S> = Codec(toSeconds: int -> S, fromSeconds: S -> int)

  /** What the schema and the setup adapter accept. */
  datatype Rules<!S> = Rules(payload: Payload<S> -> bool, ready: Canonical<S> -> bool)

  const CONTROL_MODE_SIMPLE := "simple_switch"
  const CONTROL_MODE_CUSTOM := "custom_services"

  // ----- conversion

  /** `_exact_seconds`. */
  predicate Exact<S>(codec: Codec<S>, duration: int) {
    codec.fromSeconds(codec.toSeconds(duration)) == duration
  }

  function DebugUntilChanged(c: Legacy): Result<bool> {
    if c.debug.None? then Ok(true)
    else if c.debug.value != c.configuredDebug then Err(DebugDurationsDiffer)
    else Ok(false)
  }

  datatype SourceChoice = SourceChoice(mode: string, bindings: seq<Binding>, reportedRole: Option<Role>)

  function SourceConfiguration(c: Legacy): Result<SourceChoice> {
    if c.controlMode == CONTROL_MODE_SIMPLE then
      if c.controlled.Some? && c.enable == Call("switch", "turn_on", c.controlled.value)
         && c.disable == Call("switch", "turn_off", c.controlled.value) then
        var entity := c.controlled;
        Ok(SourceChoice(
          "simple", [Binding(EnableTarget, entity), Binding(DisableTarget, entity), Binding(ReportedState, entity)],
          Some(ReportedState)))
      else Err(SimpleSourceDisagrees)
    else if c.controlMode == CONTROL_MODE_CUSTOM then
      if c.controlled.Some? then Err(CustomSourceControlled)
      else Ok(SourceChoice(
        "custom", [Binding(EnableTarget, Some(c.enable.target)), Binding(DisableTarget, Some(c.disable.target))], None))
    else Err(UnsupportedControlMode)
  }

  datatype DeliveryChoice = DeliveryChoice(bindings: seq<Binding>, role: Option<Role>)

  function DeliveryConfiguration(c: Legacy): Result<DeliveryChoice> {
    if c.deliveryMode == "unmanaged" then
      if c.actuator.Some? then Err(UnmanagedWithActuator) else Ok(DeliveryChoice([], None))
    else if c.deliveryMode == "setpoint_assist" then
      if c.actuator.None? then Err(AssistWithoutActuator)
      else Ok(DeliveryChoice([Binding(Actuator, Some(c.actuator.value))], Some(Actuator)))
    else Err(UnsupportedDeliveryMode)
  }

  /** The first duration that canonical seconds cannot carry, in the order they are converted. */
  function FirstInexact<S>(codec: Codec<S>, c: Legacy): Option<Field> {
    if !Exact(codec, c.configuredDebug) then Some(ConfiguredDebugDuration)
    else if !Exact(codec, c.notifications.rateWindow) then Some(RateWindow)
    else if !Exact(codec, c.notifications.criticalWindow) then Some(CriticalRateWindow)
    else if !Exact(codec, c.times.maxAge) then Some(MaximumAge)
    else if !Exact(codec, c.times.futureSkew) then Some(FutureSkew)
    else if !Exact(codec, c.times.grace) then Some(GracePeriod)
    else if !Exact(codec, c.times.confirmation) then Some(ConfirmationDuration)
    else if !Exact(codec, c.times.minimumOn) then Some(MinimumOnTime)
    else if !Exact(codec, c.times.minimumOff) then Some(MinimumOffTime)
    else None
  }

  /** `sorted(set(...))` of the recipient schema. */
  function Inserted(x: nat, sorted: seq<nat>): seq<nat> {
    if sorted == [] then [x]
    else if x < sorted[0] then [x] + sorted
    else if x == sorted[0] then sorted
    else [sorted[0]] + Inserted(x, sorted[1..])
  }

  function SortedUnique(xs: seq<nat>): seq<nat> {
    if xs == [] then [] else Inserted(xs[0], SortedUnique(xs[1..]))
  }

  predicate Increasing(xs: seq<nat>) {
    forall i, j | 0 <= i < j < |xs| :: xs[i] < xs[j]
  }

  function Normalized(recipients: seq<Recipient>): seq<Recipient> {
    seq(|recipients|, i requires 0 <= i < |recipients| =>
      recipients[i].(categories := SortedUnique(recipients[i].categories)))
  }

  function MapTimes<V, W>(f: V -> W, t: Times<V>): Times<W> {
    Times(f(t.maxAge), f(t.futureSkew), f(t.grace), f(t.confirmation), f(t.minimumOn), f(t.minimumOff))
  }

  function MapPolicy<V, W>(f: V -> W, p: Policy<V>, recipients: seq<Recipient>): Policy<W> {
    Policy(p.enabled, recipients, p.limits, f(p.rateWindow), f(p.criticalWindow))
  }

  function PayloadOf<S>(codec: Codec<S>, c: Legacy, untilChanged: bool, source: SourceChoice, delivery: DeliveryChoice)
    : Payload<S>
  {
    Payload(
      c.identity, c.control, MapTimes(codec.toSeconds, c.times),
      source.mode,
      ServiceCall(c.enable.domain, c.enable.service, EnableTarget),
      ServiceCall(c.disable.domain, c.disable.service, DisableTarget),
      source.reportedRole, c.deliveryMode, delivery.role, c.assist,
      Diagnostics(c.profile, codec.toSeconds(c.configuredDebug), untilChanged, c.profileBeforeDebug),
      MapPolicy(codec.toSeconds, c.notifications, Normalized(c.notifications.recipients)))
  }

  function CanonicalOf<S>(codec: Codec<S>, c: Legacy, untilChanged: bool,
                          source: SourceChoice, delivery: DeliveryChoice)
    : Canonical<S>
  {
    Canonical(PayloadOf(codec, c, untilChanged, source, delivery),
              [Binding(PrimaryTemperature, Some(c.temperatureEntity))] + source.bindings + delivery.bindings)
  }

  /** `convert_legacy_heating_config`. */
  function Convert<S>(codec: Codec<S>, rules: Rules<S>, c: Legacy): Result<Canonical<S>> {
    var until := DebugUntilChanged(c);
    var source := SourceConfiguration(c);
    var delivery := DeliveryConfiguration(c);
    var inexact := FirstInexact(codec, c);
    if until.Err? then Err(until.error)
    else if source.Err? then Err(source.error)
    else if delivery.Err? then Err(delivery.error)
    else if inexact.Some? then Err(Inexact(inexact.value))
    else
      var k := CanonicalOf(codec, c, until.value, source.value, delivery.value);
      if !rules.payload(k.payload) then Err(InvalidPayload)
      else if !rules.ready(k) then Err(NotReady)
      else Ok(k)
  }

  // ----- compilation

  /** The locator of a role in the dictionary the bindings make: of equal roles the last. */
  function LocatorOf(bindings: seq<Binding>, role: Role): Option<string> {
    if bindings == [] then None
    else
      var last := bindings[|bindings| - 1];
      if last.role == role then last.locator else LocatorOf(bindings[..|bindings| - 1], role)
  }

  function RuntimeDiagnostics<S>(codec: Codec<S>, d: Diagnostics<S>): Option<int> {
    if d.untilChanged then None else Some(codec.fromSeconds(d.configuredSeconds))
  }

  function ControlModeOf(mode: string): string {
    if mode == "simple" then CONTROL_MODE_SIMPLE else CONTROL_MODE_CUSTOM
  }

  /** `compile_effective_heating_config`. */
  function Compile<S>(codec: Codec<S>, rules: Rules<S>, k: Canonical<S>): Result<Legacy> {
    var p := k.payload;
    var primary := LocatorOf(k.bindings, PrimaryTemperature);
    var enable := LocatorOf(k.bindings, p.enable.role);
    var disable := LocatorOf(k.bindings, p.disable.role);
    var reported := LocatorOf(k.bindings, ReportedState);
    var actuator := LocatorOf(k.bindings, Actuator);
    if !rules.payload(p) then Err(InvalidPayload)
    else if primary.None? then Err(MissingLocator(PrimaryTemperature))
    else if enable.None? then Err(MissingLocator(p.enable.role))
    else if disable.None? then Err(MissingLocator(p.disable.role))
    else if p.reportedRole.Some? && reported.None? then Err(MissingLocator(ReportedState))
    else if p.actuatorRole.Some? && actuator.None? then Err(MissingLocator(Actuator))
    else Ok(Legacy(
      p.identity, primary.value, p.control, MapTimes(codec.fromSeconds, p.times),
      Call(p.enable.domain, p.enable.service, enable.value),
      Call(p.disable.domain, p.disable.service, disable.value),
      ControlModeOf(p.sourceMode), if p.reportedRole.None? then None else reported,
      p.diagnostics.profile, RuntimeDiagnostics(codec, p.diagnostics),
      codec.fromSeconds(p.diagnostics.configuredSeconds), p.diagnostics.before,
      p.deliveryMode, if p.actuatorRole.None? then None else actuator, p.assist,
      MapPolicy(codec.fromSeconds, p.notifications, p.notifications.recipients)))
  }

  // ----- what every legacy configuration guarantees

  /** Recipients list their categories sorted and without repetition. */
  predicate WellFormed(c: Legacy) {
    forall r <- c.notifications.recipients :: Increasing(r.categories)
  }

  lemma {:induction false} SortedStaysAsItIs(xs: seq<nat>)
    requires Increasing(xs)
    ensures SortedUnique(xs) == xs
    decreases |xs|
  {
    if xs != [] {
      SortedStaysAsItIs(xs[1..]);
    }
  }

  /** And whatever the list, sorting keeps its members and leaves it increasing. */
  lemma {:induction false} SortedIsIncreasing(xs: seq<nat>)
    ensures Increasing(SortedUnique(xs)) && (forall x :: x in SortedUnique(xs) <==> x in xs)
    decreases |xs|
  {
    if xs != [] {
      SortedIsIncreasing(xs[1..]);
      InsertedStaysIncreasing(xs[0], SortedUnique(xs[1..]));
      assert xs == [xs[0]] + xs[1..];
    }
  }

  lemma {:induction false} InsertedStaysIncreasing(x: nat, s: seq<nat>)
    requires Increasing(s)
    ensures Increasing(Inserted(x, s)) && (forall y :: y in Inserted(x, s) <==> y == x || y in s)
    decreases |s|
  {
    if s != [] {
      assert s == [s[0]] + s[1..];
      forall y <- s[1..] ensures s[0] < y {
        var i :| 0 <= i < |s[1..]| && s[1..][i] == y;
        assert s[i + 1] == y;
      }
      if x < s[0] {
        ConsIncreases(x, s);
      } else if x > s[0] {
        InsertedStaysIncreasing(x, s[1..]);
        ConsIncreases(s[0], Inserted(x, s[1..]));
      }
    }
  }

  lemma ConsIncreases(x: nat, s: seq<nat>)
    requires Increasing(s) && forall y <- s :: x < y
    ensures Increasing([x] + s)
  {
    var t := [x] + s;
    forall i, j | 0 <= i < j < |t| ensures t[i] < t[j] {
      assert t[j] == s[j - 1] && s[j - 1] in s;
    }
  }

  lemma RecipientsSurvive(c: Legacy)
    requires WellFormed(c)
    ensures Normalized(c.notifications.recipients) == c.notifications.recipients
  {
    forall i | 0 <= i < |c.notifications.recipients|
      ensures Normalized(c.notifications.recipients)[i] == c.notifications.recipients[i]
    {
      assert c.notifications.recipients[i] in c.notifications.recipients;
      SortedStaysAsItIs(c.notifications.recipients[i].categories);
    }
  }

  lemma TimesSurvive<S>(codec: Codec<S>, c: Legacy)
    requires FirstInexact(codec, c).None?
    ensures MapTimes(codec.fromSeconds, MapTimes(codec.toSeconds, c.times)) == c.times
  {}

  lemma {:induction false} LocatorAfter(bindings: seq<Binding>, last: Binding, role: Role)
    ensures LocatorOf(bindings + [last], role) ==
      if last.role == role then last.locator else LocatorOf(bindings, role)
  {
    assert (bindings + [last])[..|bindings|] == bindings;
  }

  /** The bindings of an accepted configuration carry each of its entity ids under its own role. */
  predicate Bound(bindings: seq<Binding>, c: Legacy) {
    && LocatorOf(bindings, PrimaryTemperature) == Some(c.temperatureEntity)
    && LocatorOf(bindings, EnableTarget) == Some(c.enable.target)
    && LocatorOf(bindings, DisableTarget) == Some(c.disable.target)
    && LocatorOf(bindings, ReportedState) == c.controlled
    && LocatorOf(bindings, Actuator) == c.actuator
  }

  lemma SourceIsBound(c: Legacy, role: Role)
    requires SourceConfiguration(c).Ok?
    ensures var b := [Binding(PrimaryTemperature, Some(c.temperatureEntity))] + SourceConfiguration(c).value.bindings;
      LocatorOf(b, role) == (match role
        case PrimaryTemperature => Some(c.temperatureEntity)
        case EnableTarget => Some(c.enable.target)
        case DisableTarget => Some(c.disable.target)
        case ReportedState => c.controlled
        case Actuator => None)
  {
    var first := [Binding(PrimaryTemperature, Some(c.temperatureEntity))];
    var s := SourceConfiguration(c).value.bindings;
    assert first == [] + first && LocatorOf([], role).None?;
    LocatorAfter([], first[0], role);
    LocatorAfter(first, s[0], role);
    LocatorAfter(first + [s[0]], s[1], role);
    assert first + [s[0]] + [s[1]] == first + s[..2];
    if |s| == 3 {
      LocatorAfter(first + s[..2], s[2], role);
      assert first + s[..2] + [s[2]] == first + s;
    } else {
      assert s[..2] == s;
    }
  }

  lemma AcceptedIsBound(c: Legacy)
    requires SourceConfiguration(c).Ok? && DeliveryConfiguration(c).Ok?
    ensures Bound([Binding(PrimaryTemperature, Some(c.temperatureEntity))] + SourceConfiguration(c).value.bindings
                  + DeliveryConfiguration(c).value.bindings, c)
  {
    var b := [Binding(PrimaryTemperature, Some(c.temperatureEntity))] + SourceConfiguration(c).value.bindings;
    var d := DeliveryConfiguration(c).value.bindings;
    forall role: Role
      ensures LocatorOf(b + d, role) == if role.Actuator? then c.actuator else LocatorOf(b, role)
    {
      SourceIsBound(c, role);
      if d == [] {
        assert b + d == b;
      } else {
        LocatorAfter(b, d[0], role);
      }
    }
    SourceIsBound(c, PrimaryTemperature);
    SourceIsBound(c, EnableTarget);
    SourceIsBound(c, DisableTarget);
    SourceIsBound(c, ReportedState);
  }

  /** Whatever number format carries the seconds and whatever the schema accepts: a configuration the converter
      accepts compiles back, from its payload and bindings alone, to exactly itself. */
  lemma ConversionIsLossless<S>(codec: Codec<S>, rules: Rules<S>, c: Legacy)
    requires WellFormed(c) && Convert(codec, rules, c).Ok?
    ensures Compile(codec, rules, Convert(codec, rules, c).value) == Ok(c)
  {
    var until, source, delivery :=
      DebugUntilChanged(c).value, SourceConfiguration(c).value, DeliveryConfiguration(c).value;
    var k := CanonicalOf(codec, c, until, source, delivery);
    AcceptedIsBound(c);
    RecipientsSurvive(c);
    TimesSurvive(codec, c);
    SourceRoundTrip(c);
    PolicySurvives(codec, c);
  }

  lemma SourceRoundTrip(c: Legacy)
    requires SourceConfiguration(c).Ok? && DeliveryConfiguration(c).Ok?
    ensures ControlModeOf(SourceConfiguration(c).value.mode) == c.controlMode
    ensures SourceConfiguration(c).value.reportedRole.None? <==> c.controlled.None?
    ensures DeliveryConfiguration(c).value.role.None? <==> c.actuator.None?
  {}

  lemma PolicySurvives<S>(codec: Codec<S>, c: Legacy)
    requires WellFormed(c) && FirstInexact(codec, c).None?
    ensures var r := Normalized(c.notifications.recipients);
      MapPolicy(codec.fromSeconds, MapPolicy(codec.toSeconds, c.notifications, r), r) == c.notifications
  {
    RecipientsSurvive(c);
  }

  /** So two different configurations never convert to the same content. */
  lemma ConversionIsInjective<S>(codec: Codec<S>, rules: Rules<S>, c: Legacy, d: Legacy)
    requires WellFormed(c) && WellFormed(d)
    requires Convert(codec, rules, c).Ok? && Convert(codec, rules, c) == Convert(codec, rules, d)
    ensures c == d
  {
    ConversionIsLossless(codec, rules, c);
    ConversionIsLossless(codec, rules, d);
  }

  /** The configurations the converter can represent, apart from the schema's own rules. */
  predicate Representable<S>(codec: Codec<S>, c: Legacy) {
    && (c.debug.Some? ==> c.debug.value == c.configuredDebug)
    && (c.controlMode == CONTROL_MODE_SIMPLE || c.controlMode == CONTROL_MODE_CUSTOM)
    && (c.controlled.Some? <==> c.controlMode == CONTROL_MODE_SIMPLE)
    && (c.controlled.Some? ==>
          c.enable == Call("switch", "turn_on", c.controlled.value) &&
          c.disable == Call("switch", "turn_off", c.controlled.value))
    && (c.deliveryMode == "unmanaged" || c.deliveryMode == "setpoint_assist")
    && (c.actuator.Some? <==> c.deliveryMode == "setpoint_assist")
    && (forall t <- [c.configuredDebug, c.notifications.rateWindow, c.notifications.criticalWindow, c.times.maxAge,
                     c.times.futureSkew, c.times.grace, c.times.confirmation, c.times.minimumOn, c.times.minimumOff] ::
          Exact(codec, t))
  }

  /** The schema's own rules accept the content that stands for `c`, payload and bindings. */
  predicate SchemaAccepts<S>(codec: Codec<S>, rules: Rules<S>, c: Legacy) {
    var (until, source, delivery) := (DebugUntilChanged(c), SourceConfiguration(c), DeliveryConfiguration(c));
    until.Ok? && source.Ok? && delivery.Ok? ==>
      var k := CanonicalOf(codec, c, until.value, source.value, delivery.value);
      rules.payload(k.payload) && rules.ready(k)
  }

  /** Conversion fails for exactly the configurations it cannot represent, and for those whose content the schema
      refuses. */
  lemma RejectedIff<S>(codec: Codec<S>, rules: Rules<S>, c: Legacy)
    ensures Convert(codec, rules, c).Err? <==>
      !Representable(codec, c) || !SchemaAccepts(codec, rules, c)
    ensures Representable(codec, c) <==>
      DebugUntilChanged(c).Ok? && SourceConfiguration(c).Ok? && DeliveryConfiguration(c).Ok? &&
      FirstInexact(codec, c).None?
  {
    var ts := [c.configuredDebug, c.notifications.rateWindow, c.notifications.criticalWindow, c.times.maxAge,
               c.times.futureSkew, c.times.grace, c.times.confirmation, c.times.minimumOn, c.times.minimumOff];
    assert ts[0] in ts && ts[1] in ts && ts[2] in ts && ts[3] in ts && ts[4] in ts && ts[5] in ts && ts[6] in ts
           && ts[7] in ts && ts[8] in ts;
  }

  /** The reason given for a refusal is a true one. */
  lemma RejectionIsTrue<S>(codec: Codec<S>, rules: Rules<S>, c: Legacy)
    requires Convert(codec, rules, c).Err?
    ensures match Convert(codec, rules, c).error
      case DebugDurationsDiffer => c.debug.Some? && c.debug.value != c.configuredDebug
      case SimpleSourceDisagrees =>
        c.controlMode == CONTROL_MODE_SIMPLE &&
        (c.controlled.None? || c.enable != Call("switch", "turn_on", c.controlled.value)
         || c.disable != Call("switch", "turn_off", c.controlled.value))
      case CustomSourceControlled => c.controlMode == CONTROL_MODE_CUSTOM && c.controlled.Some?
      case UnsupportedControlMode => c.controlMode != CONTROL_MODE_SIMPLE && c.controlMode != CONTROL_MODE_CUSTOM
      case UnmanagedWithActuator => c.deliveryMode == "unmanaged" && c.actuator.Some?
      case AssistWithoutActuator => c.deliveryMode == "setpoint_assist" && c.actuator.None?
      case UnsupportedDeliveryMode => c.deliveryMode != "unmanaged" && c.deliveryMode != "setpoint_assist"
      case Inexact(field) => !Exact(codec, DurationOf(c, field))
      case _ => Representable(codec, c) && !SchemaAccepts(codec, rules, c)
  {
    RejectedIff(codec, rules, c);
  }

  function DurationOf(c: Legacy, field: Field): int {
    match field
    case ConfiguredDebugDuration => c.configuredDebug
    case RateWindow => c.notifications.rateWindow
    case CriticalRateWindow => c.notifications.criticalWindow
    case MaximumAge => c.times.maxAge
    case FutureSkew => c.times.futureSkew
    case GracePeriod => c.times.grace
    case ConfirmationDuration => c.times.confirmation
    case MinimumOnTime => c.times.minimumOn
    case MinimumOffTime => c.times.minimumOff
  }

  /** The locator of a role is that of its last binding, if it has any. */
  lemma {:induction false} LocatorIsTheLast(bindings: seq<Binding>, role: Role, i: nat)
    requires i < |bindings| && bindings[i].role == role && forall j | i < j < |bindings| :: bindings[j].role != role
    ensures LocatorOf(bindings, role) == bindings[i].locator
    decreases |bindings|
  {
    if i < |bindings| - 1 {
      LocatorIsTheLast(bindings[..|bindings| - 1], role, i);
    }
  }

  /** The last binding of the role has a locator. */
  predicate BoundIn(bindings: seq<Binding>, role: Role) {
    exists i | 0 <= i < |bindings| ::
      bindings[i].role == role && bindings[i].locator.Some? && forall j | i < j < |bindings| :: bindings[j].role != role
  }

  lemma {:induction false} BoundHasLocator(bindings: seq<Binding>, role: Role)
    ensures LocatorOf(bindings, role).Some? <==> BoundIn(bindings, role)
    decreases |bindings|
  {
    if bindings != [] {
      var n := |bindings| - 1;
      var before := bindings[..n];
      BoundHasLocator(before, role);
      if bindings[n].role != role {
        if BoundIn(before, role) {
          var i :| 0 <= i < n && before[i].role == role && before[i].locator.Some?
                   && forall j | i < j < n :: before[j].role != role;
          assert bindings[i].role == role && forall j | i < j <= n :: bindings[j].role != role;
        }
        if BoundIn(bindings, role) {
          var i :| 0 <= i <= n && bindings[i].role == role && bindings[i].locator.Some?
                   && forall j | i < j <= n :: bindings[j].role != role;
          assert before[i].role == role && forall j | i < j < n :: before[j].role != role;
        }
      }
    }
  }

  /** Any content, converted or not, compiles exactly if the schema accepts its payload and every role that it uses is
      bound; the reason given for a refusal names what is missing. */
  lemma CompiledIff<S>(codec: Codec<S>, rules: Rules<S>, k: Canonical<S>)
    ensures Compile(codec, rules, k).Ok? <==>
      && rules.payload(k.payload)
      && BoundIn(k.bindings, PrimaryTemperature)
      && BoundIn(k.bindings, k.payload.enable.role) && BoundIn(k.bindings, k.payload.disable.role)
      && (k.payload.reportedRole.Some? ==> BoundIn(k.bindings, ReportedState))
      && (k.payload.actuatorRole.Some? ==> BoundIn(k.bindings, Actuator))
    ensures Compile(codec, rules, k).Err? ==>
      match Compile(codec, rules, k).error
      case InvalidPayload => !rules.payload(k.payload)
      case MissingLocator(role) => rules.payload(k.payload) && !BoundIn(k.bindings, role)
      case _ => false
  {
    BoundHasLocator(k.bindings, PrimaryTemperature);
    BoundHasLocator(k.bindings, k.payload.enable.role);
    BoundHasLocator(k.bindings, k.payload.disable.role);
    BoundHasLocator(k.bindings, ReportedState);
    BoundHasLocator(k.bindings, Actuator);
  }

  /** Without the exactness guard the conversion would lose duration: a codec in whole seconds cannot tell one
      second from one second and a microsecond, and the guard is what rejects the latter. */
  lemma GuardRejectsWhatWouldBeLost(c: Legacy, rules: Rules<int>)
    requires c.times.maxAge == 1_000_001
    requires DebugUntilChanged(c).Ok? && SourceConfiguration(c).Ok? && DeliveryConfiguration(c).Ok?
    ensures var codec := Codec((t: int) => t / 1_000_000, (s: int) => s * 1_000_000);
      Convert(codec, rules, c).Err? && MapTimes(codec.fromSeconds, MapTimes(codec.toSeconds, c.times)) != c.times
  {
    var codec := Codec((t: int) => t / 1_000_000, (s: int) => s * 1_000_000);
    assert codec.fromSeconds(codec.toSeconds(1_000_001)) == 1_000_000;
    assert !Exact(codec, c.times.maxAge);
  }
}
