/**
 * JSON upcasters: a registry keyed by event type and source version with a
 * memoised top version per type, and the decode loop that steps an envelope up
 * one version at a time. JSON is abstract: an envelope is a map of fields, and
 * the final typed deserialisation is not modelled.
 */
module Upcast {
  import opened Common

  type Blob(!new)

  datatype Value = Text(text: string) | Number(number: nat) | Other(blob: Blob)

  type Fields = map<string, Value>

  /** The wire bytes as `serde_json` sees them. */
  datatype Wire = NotJson | NotObject | Object(fields: Fields)

  /** `None` is an upcaster's own error. */
  type Upcaster = Value -> Option<Value>

  datatype Registry = Registry(upcasters: map<(string, nat), Upcaster>, top: map<string, nat>)

  datatype Result =
    | Ok(fields: Fields)
    | JsonError
    | MalformedEnvelope
    | VersionOutOfRange(raw: nat)
    | Transform(from: nat)
    | UnsupportedVersion(version: nat, knownUpTo: nat)
    | GapInChain(stoppedAt: nat, knownUpTo: nat)

  const U32_MAX: nat := 0xFFFF_FFFF
  const U64_MAX: nat := 0xFFFF_FFFF_FFFF_FFFF

  const PAYLOAD := "payload"
  const VERSION := "schema_version"
  const TYPE := "event_type"

  predicate Registered(reg: Registry, t: string, v: nat) {
    (t, v) in reg.upcasters
  }

  /** The memoised top of a type is one past its largest registered version. */
  ghost predicate Valid(reg: Registry) {
    && (forall t, v: nat :: Registered(reg, t, v) ==> v < U32_MAX && t in reg.top && v < reg.top[t])
    && (forall t :: t in reg.top ==> 1 <= reg.top[t] && Registered(reg, t, reg.top[t] - 1))
  }

  /** `with_upcaster`. Registering at `u32::MAX` overflows in the source and is excluded. */
  function WithUpcaster(reg: Registry, t: string, from: nat, f: Upcaster): Registry {
    var reaches := from + 1;
    var top := if t in reg.top then Max(reg.top[t], reaches) else reaches;
    Registry(reg.upcasters[(t, from) := f], reg.top[t := top])
  }

  lemma RegistrationKeepsTop(reg: Registry, t: string, from: nat, f: Upcaster)
    requires Valid(reg) && from < U32_MAX
    ensures Valid(WithUpcaster(reg, t, from, f))
  {
    var reg' := WithUpcaster(reg, t, from, f);
    assert forall s, v: nat :: Registered(reg', s, v) <==> Registered(reg, s, v) || (s == t && v == from);
  }

  datatype Registration = Registration(t: string, from: nat, f: Upcaster)

  function Build(regs: seq<Registration>): Registry {
    if regs == [] then Registry(map[], map[])
    else
      var last := regs[|regs| - 1];
      WithUpcaster(Build(regs[..|regs| - 1]), last.t, last.from, last.f)
  }

  /** Whatever is registered, and however often, the memoised top stays one past the largest version. */
  lemma {:induction false} TopIsOnePastTheLargest(regs: seq<Registration>)
    requires forall i :: 0 <= i < |regs| ==> regs[i].from < U32_MAX
    ensures Valid(Build(regs))
  {
    if regs != [] {
      var last := regs[|regs| - 1];
      TopIsOnePastTheLargest(regs[..|regs| - 1]);
      RegistrationKeepsTop(Build(regs[..|regs| - 1]), last.t, last.from, last.f);
    }
  }

  // ---------------------------------------------------------------- reference: composing the chain

  /** The payload after every step from `v` to `top`, or nothing if a step is missing or fails. */
  function Compose(reg: Registry, t: string, v: nat, top: nat, payload: Value): Option<Value>
    requires v <= top
    decreases top - v
  {
    if v == top then Some(payload)
    else if !Registered(reg, t, v) then None
    else
      match reg.upcasters[(t, v)](payload)
      case None => None
      case Some(next) => Compose(reg, t, v + 1, top, next)
  }

  // ---------------------------------------------------------------- decode

  function Lifted(fields: Fields, payload: Value, version: nat): Fields {
    fields[PAYLOAD := payload][VERSION := Number(version)]
  }

  /** The decode loop from version `v`, then the two version checks. */
  function Lift(reg: Registry, t: string, v: nat, fields: Fields): Result
    requires Valid(reg)
    decreases if t in reg.top && v < reg.top[t] then reg.top[t] - v else 0
  {
    if Registered(reg, t, v) then
      if PAYLOAD !in fields then MalformedEnvelope
      else
        match reg.upcasters[(t, v)](fields[PAYLOAD])
        case None => Transform(v)
        case Some(next) => Lift(reg, t, v + 1, Lifted(fields, next, v + 1))
    else if t in reg.top && v > reg.top[t] then UnsupportedVersion(v, reg.top[t])
    else if t in reg.top && v < reg.top[t] then GapInChain(v, reg.top[t])
    else Ok(fields)
  }

  predicate HasHeader(fields: Fields) {
    && TYPE in fields && fields[TYPE].Text?
    && VERSION in fields && fields[VERSION].Number? && fields[VERSION].number <= U64_MAX
  }

  function DecodeSpec(reg: Registry, wire: Wire): Result
    requires Valid(reg)
  {
    match wire
    case NotJson => JsonError
    case NotObject => MalformedEnvelope
    case Object(fields) =>
      if !HasHeader(fields) then MalformedEnvelope
      else if fields[VERSION].number > U32_MAX then VersionOutOfRange(fields[VERSION].number)
      else Lift(reg, fields[TYPE].text, fields[VERSION].number, fields)
  }

  class VersionedJsonCodec {
    var registry: Registry

    constructor ()
      ensures Valid(registry) && registry == Registry(map[], map[])
    {
      registry := Registry(map[], map[]);
    }

    method Register(t: string, from: nat, f: Upcaster)
      requires Valid(registry) && from < U32_MAX
      modifies this
      ensures Valid(registry) && registry == WithUpcaster(old(registry), t, from, f)
      ensures registry.upcasters == old(registry).upcasters[(t, from) := f]
      ensures registry.top == old(registry).top[t := registry.top[t]]
      ensures registry.top[t] == if t in old(registry).top && old(registry).top[t] > from + 1 then old(registry).top[t] else from + 1
    {
      RegistrationKeepsTop(registry, t, from, f);
      var reaches := from + 1;
      var top := registry.top;
      if t in top {
        top := top[t := Max(top[t], reaches)];
      } else {
        top := top[t := reaches];
      }
      registry := Registry(registry.upcasters[(t, from) := f], top);
    }

    method Decode(wire: Wire) returns (result: Result)
      requires Valid(registry)
      ensures result == DecodeSpec(registry, wire)
    {
      if wire.NotJson? {
        return JsonError;
      }
      if wire.NotObject? {
        return MalformedEnvelope;
      }
      var obj := wire.fields;
      if !HasHeader(obj) {
        return MalformedEnvelope;
      }
      var t, raw := obj[TYPE].text, obj[VERSION].number;
      if raw > U32_MAX {
        return VersionOutOfRange(raw);
      }
      var version: nat := raw;
      while (t, version) in registry.upcasters
        invariant Lift(registry, t, version, obj) == Lift(registry, t, raw, wire.fields)
        decreases if t in registry.top && version < registry.top[t] then registry.top[t] - version else 0
      {
        assert Registered(registry, t, version);
        if PAYLOAD !in obj {
          return MalformedEnvelope;
        }
        var upgraded := registry.upcasters[(t, version)](obj[PAYLOAD]);
        if upgraded.None? {
          return Transform(version);
        }
        version := version + 1;
        obj := obj[PAYLOAD := upgraded.value][VERSION := Number(version)];
      }
      if t in registry.top {
        if version > registry.top[t] {
          return UnsupportedVersion(version, registry.top[t]);
        }
        if version < registry.top[t] {
          return GapInChain(version, registry.top[t]);
        }
      }
      return Ok(obj);
    }
  }

  // ---------------------------------------------------------------- what decoding means

  lemma LiftedAgain(fields: Fields, a: Value, v: nat, c: Value, w: nat)
    ensures Lifted(Lifted(fields, a, v), c, w) == Lifted(fields, c, w)
  {
  }

  /** The loop succeeds exactly when the whole chain up to the top does, and yields its in-order composition. */
  lemma {:induction false} LiftIsComposition(reg: Registry, t: string, v: nat, fields: Fields)
    requires Valid(reg) && t in reg.top && v < reg.top[t] && PAYLOAD in fields
    ensures var composed := Compose(reg, t, v, reg.top[t], fields[PAYLOAD]);
            var result := Lift(reg, t, v, fields);
            && (result.Ok? <==> composed.Some?)
            && (result.Ok? ==> result.fields == Lifted(fields, composed.value, reg.top[t]))
    decreases reg.top[t] - v
  {
    var top := reg.top[t];
    if Registered(reg, t, v) {
      match reg.upcasters[(t, v)](fields[PAYLOAD])
      case None =>
      case Some(next) =>
        if v + 1 < top {
          LiftIsComposition(reg, t, v + 1, Lifted(fields, next, v + 1));
          var rest := Compose(reg, t, v + 1, top, next);
          if rest.Some? {
            LiftedAgain(fields, next, v + 1, rest.value, top);
          }
        } else {
          assert !Registered(reg, t, top);
        }
    }
  }

  /**
   * How the loop fails, exactly: at a missing step, having composed everything
   * below it; at a step whose upcaster refuses what was composed below it; or
   * for want of a payload to upcast.
   */
  lemma {:induction false} LiftFailsExactly(reg: Registry, t: string, v: nat, fields: Fields)
    requires Valid(reg) && t in reg.top && v < reg.top[t]
    ensures var result, top := Lift(reg, t, v, fields), reg.top[t];
            match result
            case Ok(_) => PAYLOAD in fields
            case GapInChain(at, knownUpTo) =>
              && knownUpTo == top && v <= at < top && !Registered(reg, t, at)
              && (v < at ==> PAYLOAD in fields && Compose(reg, t, v, at, fields[PAYLOAD]).Some?)
            case Transform(at) =>
              && v <= at < top && Registered(reg, t, at) && PAYLOAD in fields
              && Compose(reg, t, v, at, fields[PAYLOAD]).Some?
              && reg.upcasters[(t, at)](Compose(reg, t, v, at, fields[PAYLOAD]).value) == None
            case MalformedEnvelope => PAYLOAD !in fields && Registered(reg, t, v)
            case _ => false
    decreases reg.top[t] - v
  {
    var top := reg.top[t];
    if Registered(reg, t, v) && PAYLOAD in fields {
      match reg.upcasters[(t, v)](fields[PAYLOAD])
      case None =>
      case Some(next) =>
        if v + 1 < top {
          LiftFailsExactly(reg, t, v + 1, Lifted(fields, next, v + 1));
        } else {
          assert !Registered(reg, t, top);
        }
    }
  }

  /** What is rejected before any version is looked at. */
  lemma BadEnvelopesAreRejected(reg: Registry, fields: Fields)
    requires Valid(reg)
    ensures DecodeSpec(reg, NotJson) == JsonError && DecodeSpec(reg, NotObject) == MalformedEnvelope
    ensures TYPE !in fields || !fields[TYPE].Text? ==> DecodeSpec(reg, Object(fields)) == MalformedEnvelope
    ensures VERSION !in fields || !fields[VERSION].Number? || fields[VERSION].number >= 0x1_0000_0000_0000_0000 ==>
              DecodeSpec(reg, Object(fields)) == MalformedEnvelope
    ensures HasHeader(fields) && fields[VERSION].number >= 0x1_0000_0000 ==>
              DecodeSpec(reg, Object(fields)) == VersionOutOfRange(fields[VERSION].number)
    ensures HasHeader(fields) <==>
              && TYPE in fields && fields[TYPE].Text?
              && VERSION in fields && fields[VERSION].Number? && fields[VERSION].number < 0x1_0000_0000_0000_0000
  {
  }

  /**
   * Decoding an envelope of a registered type gets past the version checks
   * exactly when its version is at most the top and every step up to the top is
   * registered and succeeds; the payload is then the composition of the steps.
   */
  lemma DecodeSucceedsExactly(reg: Registry, fields: Fields)
    requires Valid(reg) && HasHeader(fields) && fields[VERSION].number <= U32_MAX && fields[TYPE].text in reg.top
    ensures var t, v := fields[TYPE].text, fields[VERSION].number;
            var top, result := reg.top[t], DecodeSpec(reg, Object(fields));
            && (v > top ==> result == UnsupportedVersion(v, top))
            && (v == top ==> result == Ok(fields))
            && (v < top && PAYLOAD !in fields ==>
                  result == if Registered(reg, t, v) then MalformedEnvelope else GapInChain(v, top))
            && (v < top && PAYLOAD in fields ==>
                  var composed := Compose(reg, t, v, top, fields[PAYLOAD]);
                  && (result.Ok? <==> composed.Some?)
                  && (result.Ok? ==> result.fields == Lifted(fields, composed.value, top)))
  {
    var t, v := fields[TYPE].text, fields[VERSION].number;
    if v < reg.top[t] && PAYLOAD in fields {
      LiftIsComposition(reg, t, v, fields);
    }
    assert v >= reg.top[t] ==> !Registered(reg, t, v);
  }

  /** A type the registry does not know is passed through unchanged. */
  lemma UnknownTypesPassThrough(reg: Registry, fields: Fields)
    requires Valid(reg) && HasHeader(fields) && fields[VERSION].number <= U32_MAX && fields[TYPE].text !in reg.top
    ensures DecodeSpec(reg, Object(fields)) == Ok(fields)
  {
    assert !Registered(reg, fields[TYPE].text, fields[VERSION].number);
  }

  /** Decoding an envelope equals decoding its one-step upcast. */
  lemma DecodeAbsorbsOneStep(reg: Registry, fields: Fields, next: Value)
    requires Valid(reg) && HasHeader(fields) && fields[VERSION].number <= U32_MAX && PAYLOAD in fields
    requires Registered(reg, fields[TYPE].text, fields[VERSION].number)
    requires reg.upcasters[(fields[TYPE].text, fields[VERSION].number)](fields[PAYLOAD]) == Some(next)
    ensures DecodeSpec(reg, Object(fields)) == DecodeSpec(reg, Object(Lifted(fields, next, fields[VERSION].number + 1)))
  {
    assert TYPE != PAYLOAD && TYPE != VERSION;
  }
}
