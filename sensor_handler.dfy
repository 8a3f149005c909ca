/**
 * `SensorHandler` of the app: starts and stops the phone's sensors as the
 * server requires, instantiating a sensor class the first time it is needed,
 * and can disable all sensors temporarily and restore them later.
 *
 * An instantiated sensor is represented by whether its listener is
 * registered. Which sensors the phone has is the constant `present`; starting
 * a sensor the phone lacks throws `IOException` after the sensor has marked
 * itself registered.
 */
module SensorHandlers {
  import opened Common

  /** The `AbstractSensor` implementations there are. */
  datatype SensorClass = AccelerometerClass | GyroscopeClass

  /** `getClassForSensorType`: only the accelerometer and the gyroscope have an implementation. */
  function GetClassForSensorType(t: SensorType): (r: Result<SensorClass>)
    ensures r.Ok? <==> t == Accelerometer || t == Gyroscope
    ensures r.Err? ==> r.error == NoSuchMethod
  {
    match t
    case Accelerometer => Ok(AccelerometerClass)
    case Gyroscope => Ok(GyroscopeClass)
    case _ => Err(NoSuchMethod)
  }

  predicate Instantiable(t: SensorType) {
    GetClassForSensorType(t).Ok?
  }

  /** The position of a type in `SensorType.values()`, the iteration order of an `EnumMap`. */
  function Ordinal(t: SensorType): (i: nat)
    ensures i < |AllSensorTypes| && AllSensorTypes[i] == t
  {
    match t
    case Accelerometer => 0
    case Gyroscope => 1
    case Magnetometer => 2
    case LinearAcceleration => 3
    case RotationVector => 4
    case Orientation => 5
    case GameRotationVector => 6
    case Gravity => 7
  }

  lemma AllTypesListed()
    ensures forall t: SensorType :: t in AllSensorTypes
  {
    forall t: SensorType
      ensures t in AllSensorTypes
    {
      AllSensorTypesComplete(t);
    }
  }

  /** `getSensorActivationList` as a value: every type, true exactly for the required ones. */
  function ActivationList(required: seq<SensorType>): (m: map<SensorType, bool>)
    ensures forall t :: t in m && (m[t] <==> t in required)
  {
    AllTypesListed();
    map t: SensorType | t in AllSensorTypes :: t in required
  }

  /** The activation list depends only on which types are required, not on order or repetition. */
  lemma ActivationListOfSameTypes(a: seq<SensorType>, b: seq<SensorType>)
    requires forall t :: t in a <==> t in b
    ensures ActivationList(a) == ActivationList(b)
  {
  }

  /** The registration state of sensor t after `setSensor(t, enable)`; `None`: not instantiated. */
  function StateAfter(s: map<SensorType, bool>, present: set<SensorType>, t: SensorType, enable: bool): Option<bool> {
    if t in s then Some(enable)
    else if enable && Instantiable(t) && t in present then Some(true)
    else None
  }

  /** Whether `setSensor(t, enable)` reports success. */
  predicate SetSucceeds(s: map<SensorType, bool>, present: set<SensorType>, t: SensorType, enable: bool) {
    !enable || t in s || (Instantiable(t) && t in present)
  }

  /** The sensor map with the entry of t replaced by `StateAfter`. */
  function WithState(s: map<SensorType, bool>, t: SensorType, state: Option<bool>): map<SensorType, bool> {
    if state.Some? then s[t := state.value] else s - {t}
  }

  /** The registered sensors, in `EnumMap` order, as `temporarilyDisableSensors` lists them. */
  function Registered(s: map<SensorType, bool>): (r: seq<SensorType>)
    ensures forall t :: t in r <==> t in s && s[t]
  {
    AllTypesListed();
    Filter(AllSensorTypes, s)
  }

  function Filter(types: seq<SensorType>, s: map<SensorType, bool>): (r: seq<SensorType>)
    ensures forall t :: t in r <==> t in types && t in s && s[t]
  {
    if |types| == 0 then []
    else (if types[0] in s && s[types[0]] then [types[0]] else []) + Filter(types[1..], s)
  }

  /** The entries of `list` for the first `n` types have been applied to `s0` giving `cur`, the others not; `ok` says whether all succeeded. */
  ghost predicate AppliedTo(cur: map<SensorType, bool>, present: set<SensorType>, list: map<SensorType, bool>,
                            s0: map<SensorType, bool>, n: nat, ok: bool)
  {
    ListedApplied(cur, present, list, s0, n) && OthersKept(cur, list, s0, n) &&
    (ok <==> ListedSucceed(present, list, s0, n))
  }

  ghost predicate ListedApplied(cur: map<SensorType, bool>, present: set<SensorType>, list: map<SensorType, bool>,
                                s0: map<SensorType, bool>, n: nat)
  {
    forall t | t in list && Ordinal(t) < n ::
      (StateAfter(s0, present, t, list[t]).Some? <==> t in cur) &&
      (t in cur ==> cur[t] == StateAfter(s0, present, t, list[t]).value)
  }

  ghost predicate OthersKept(cur: map<SensorType, bool>, list: map<SensorType, bool>, s0: map<SensorType, bool>, n: nat) {
    forall t | !(t in list && Ordinal(t) < n) :: (t in cur <==> t in s0) && (t in cur ==> cur[t] == s0[t])
  }

  ghost predicate ListedSucceed(present: set<SensorType>, list: map<SensorType, bool>, s0: map<SensorType, bool>, n: nat) {
    forall t | t in list && Ordinal(t) < n :: SetSucceeds(s0, present, t, list[t])
  }

  /** Applying the entry of the n-th type extends `AppliedTo` by one type. */
  lemma AppliedStep(cur: map<SensorType, bool>, present: set<SensorType>, list: map<SensorType, bool>,
                    s0: map<SensorType, bool>, n: nat, ok: bool)
    requires n < |AllSensorTypes| && AppliedTo(cur, present, list, s0, n, ok)
    ensures var t := AllSensorTypes[n];
      t in list ==> AppliedTo(WithState(cur, t, StateAfter(cur, present, t, list[t])), present, list, s0, n + 1,
                              SetSucceeds(cur, present, t, list[t]) && ok)
    ensures AllSensorTypes[n] !in list ==> AppliedTo(cur, present, list, s0, n + 1, ok)
  {
    var t := AllSensorTypes[n];
    assert Ordinal(t) == n;
    assert (t in cur <==> t in s0) && (t in cur ==> cur[t] == s0[t]);
    if t in list {
      var cur' := WithState(cur, t, StateAfter(cur, present, t, list[t]));
      assert StateAfter(cur, present, t, list[t]) == StateAfter(s0, present, t, list[t]);
      assert SetSucceeds(cur, present, t, list[t]) == SetSucceeds(s0, present, t, list[t]);
      ListedStep(cur, present, list, s0, n);
      OthersStep(cur, cur', list, s0, n);
      SucceedStep(present, list, s0, n);
    } else {
      UnlistedStep(cur, present, list, s0, n);
    }
  }

  lemma ListedStep(cur: map<SensorType, bool>, present: set<SensorType>, list: map<SensorType, bool>,
                   s0: map<SensorType, bool>, n: nat)
    requires n < |AllSensorTypes| && AllSensorTypes[n] in list
    requires ListedApplied(cur, present, list, s0, n)
    requires StateAfter(cur, present, AllSensorTypes[n], list[AllSensorTypes[n]]) ==
             StateAfter(s0, present, AllSensorTypes[n], list[AllSensorTypes[n]])
    ensures var t := AllSensorTypes[n];
      ListedApplied(WithState(cur, t, StateAfter(cur, present, t, list[t])), present, list, s0, n + 1)
  {
    var t := AllSensorTypes[n];
    var cur' := WithState(cur, t, StateAfter(cur, present, t, list[t]));
    forall u | u in list && Ordinal(u) < n + 1
      ensures (StateAfter(s0, present, u, list[u]).Some? <==> u in cur')
      ensures u in cur' ==> cur'[u] == StateAfter(s0, present, u, list[u]).value
    {
      if u != t {
        assert Ordinal(u) != n;
      }
    }
  }

  lemma OthersStep(cur: map<SensorType, bool>, cur': map<SensorType, bool>, list: map<SensorType, bool>,
                   s0: map<SensorType, bool>, n: nat)
    requires n < |AllSensorTypes| && AllSensorTypes[n] in list
    requires OthersKept(cur, list, s0, n)
    requires forall u | u != AllSensorTypes[n] :: (u in cur' <==> u in cur) && (u in cur' ==> cur'[u] == cur[u])
    ensures OthersKept(cur', list, s0, n + 1)
  {
    var t := AllSensorTypes[n];
    assert Ordinal(t) == n;
    forall u | !(u in list && Ordinal(u) < n + 1)
      ensures (u in cur' <==> u in s0) && (u in cur' ==> cur'[u] == s0[u])
    {
      assert u != t;
    }
  }

  lemma SucceedStep(present: set<SensorType>, list: map<SensorType, bool>, s0: map<SensorType, bool>, n: nat)
    requires n < |AllSensorTypes| && AllSensorTypes[n] in list
    ensures ListedSucceed(present, list, s0, n + 1) <==>
      ListedSucceed(present, list, s0, n) && SetSucceeds(s0, present, AllSensorTypes[n], list[AllSensorTypes[n]])
  {
    assert Ordinal(AllSensorTypes[n]) == n;
  }

  lemma UnlistedStep(cur: map<SensorType, bool>, present: set<SensorType>, list: map<SensorType, bool>,
                     s0: map<SensorType, bool>, n: nat)
    requires n < |AllSensorTypes| && AllSensorTypes[n] !in list
    ensures ListedApplied(cur, present, list, s0, n + 1) == ListedApplied(cur, present, list, s0, n)
    ensures OthersKept(cur, list, s0, n + 1) == OthersKept(cur, list, s0, n)
    ensures ListedSucceed(present, list, s0, n + 1) == ListedSucceed(present, list, s0, n)
  {
    forall u | u in list
      ensures Ordinal(u) < n + 1 <==> Ordinal(u) < n
    {
      assert u != AllSensorTypes[n];
    }
  }

  class SensorHandler {
    /** The sensors the phone has. */
    const present: set<SensorType>
    /** `mSensors`: the instantiated sensors and whether each is registered. */
    var sensors: map<SensorType, bool>
    /** `mTemporarySensorActivationList` */
    var temporaryList: map<SensorType, bool>
    /** `mSensorsTempDisabled` */
    var tempDisabled: bool

    /** Only sensors with an implementation that the phone has are ever instantiated. */
    ghost predicate Valid()
      reads this
    {
      forall t | t in sensors :: Instantiable(t) && t in present
    }

    constructor (present: set<SensorType>)
      ensures Valid() && this.present == present
      ensures sensors == map[] && temporaryList == map[] && !tempDisabled
    {
      this.present := present;
      sensors := map[];
      temporaryList := map[];
      tempDisabled := false;
    }

    /** `getSensorActivationList(requiredSensors)`: all off, then the required ones on. */
    method GetSensorActivationList(required: seq<SensorType>) returns (m: map<SensorType, bool>)
      ensures m == ActivationList(required)
    {
      m := map[];
      for i := 0 to |AllSensorTypes|
        invariant forall t :: t in m <==> Ordinal(t) < i
        invariant forall t | t in m :: !m[t]
      {
        m := m[AllSensorTypes[i] := false];
      }
      for j := 0 to |required|
        invariant forall t :: t in m
        invariant forall t :: m[t] <==> t in required[..j]
      {
        m := m[required[j] := true];
      }
      assert required[..|required|] == required;
    }

    /**
     * `setSensor(sensorType, enable)`: an instantiated sensor is started or
     * stopped; an enable of a sensor not yet instantiated instantiates it, which
     * fails for a type without implementation or absent from the phone, and
     * then leaves it uninstantiated. Disabling never fails.
     */
    method SetSensor(t: SensorType, enable: bool) returns (ok: bool)
      requires Valid()
      modifies this
      ensures Valid() && temporaryList == old(temporaryList) && tempDisabled == old(tempDisabled)
      ensures sensors == WithState(old(sensors), t, StateAfter(old(sensors), present, t, enable))
      ensures ok == SetSucceeds(old(sensors), present, t, enable)
      ensures !enable ==> ok
      ensures enable && t !in old(sensors) && !Instantiable(t) ==> !ok && sensors == old(sensors)
    {
      if enable {
        if t in sensors {
          sensors := sensors[t := true];
        } else {
          var c := GetClassForSensorType(t);
          if c.Err? {
            return false;
          }
          if t !in present {
            return false;
          }
          sensors := sensors[t := true];
        }
      } else if t in sensors {
        sensors := sensors[t := false];
      }
      return true;
    }

    /**
     * `applySensorActivationList(activationList)`: every entry is applied, in
     * type order, even after a failure; true iff all succeeded.
     */
    method ApplySensorActivationList(list: map<SensorType, bool>) returns (ok: bool)
      requires Valid()
      modifies this
      ensures Valid() && temporaryList == old(temporaryList) && tempDisabled == old(tempDisabled)
      ensures forall t | t in list :: StateAfter(old(sensors), present, t, list[t]).Some? <==> t in sensors
      ensures forall t | t in list && t in sensors :: sensors[t] == StateAfter(old(sensors), present, t, list[t]).value
      ensures forall t | t !in list :: (t in sensors <==> t in old(sensors)) && (t in sensors ==> sensors[t] == old(sensors)[t])
      ensures ok <==> forall t | t in list :: SetSucceeds(old(sensors), present, t, list[t])
    {
      ok := true;
      for i := 0 to |AllSensorTypes|
        invariant Valid() && temporaryList == old(temporaryList) && tempDisabled == old(tempDisabled)
        invariant AppliedTo(sensors, present, list, old(sensors), i, ok)
      {
        ok := ApplyEntry(list, old(sensors), i, ok);
      }
    }

    /** One step of `applySensorActivationList`: the entry of the i-th type, if listed, is applied. */
    method ApplyEntry(list: map<SensorType, bool>, ghost s0: map<SensorType, bool>, i: nat, ok: bool) returns (ok': bool)
      requires i < |AllSensorTypes|
      requires Valid() && AppliedTo(sensors, present, list, s0, i, ok)
      modifies this
      ensures Valid() && temporaryList == old(temporaryList) && tempDisabled == old(tempDisabled)
      ensures AppliedTo(sensors, present, list, s0, i + 1, ok')
    {
      var t := AllSensorTypes[i];
      AppliedStep(sensors, present, list, s0, i, ok);
      ok' := ok;
      if t in list {
        var done := SetSensor(t, list[t]);
        ok' := done && ok;
      }
    }

    /**
     * `setRunning(requiredSensors)`: while temporarily disabled, only the list
     * to restore later changes and the result is true; otherwise the list is
     * applied at once.
     */
    method SetRunning(required: seq<SensorType>) returns (ok: bool)
      requires Valid()
      modifies this
      ensures Valid() && tempDisabled == old(tempDisabled)
      ensures old(tempDisabled) ==> ok && temporaryList == ActivationList(required) && sensors == old(sensors)
      ensures !old(tempDisabled) ==> temporaryList == old(temporaryList)
      ensures !old(tempDisabled) ==> forall t :: StateAfter(old(sensors), present, t, t in required).Some? <==> t in sensors
      ensures !old(tempDisabled) ==> forall t | t in sensors :: sensors[t] <==> t in required
      ensures !old(tempDisabled) ==> (ok <==> forall t | t in required :: t in old(sensors) || (Instantiable(t) && t in present))
    {
      var list := GetSensorActivationList(required);
      if tempDisabled {
        temporaryList := list;
        return true;
      }
      ok := ApplySensorActivationList(list);
    }

    /**
     * `temporarilyDisableSensors`: the registered sensors are remembered as
     * the list to restore, the flag is set and every sensor is stopped.
     */
    method TemporarilyDisableSensors()
      requires Valid()
      modifies this
      ensures Valid() && tempDisabled
      ensures temporaryList == ActivationList(Registered(old(sensors)))
      ensures sensors.Keys == old(sensors).Keys && forall t | t in sensors :: !sensors[t]
    {
      var required := RegisteredSensors();
      temporaryList := GetSensorActivationList(required);
      ActivationListOfSameTypes(required, Registered(sensors));
      tempDisabled := true;
      var none := GetSensorActivationList([]);
      var _ := ApplySensorActivationList(none);
    }

    /** The loop of `temporarilyDisableSensors` over the instantiated sensors. */
    method RegisteredSensors() returns (required: seq<SensorType>)
      ensures forall t :: t in required <==> t in sensors && sensors[t]
    {
      required := [];
      for i := 0 to |AllSensorTypes|
        invariant forall t :: t in required <==> Ordinal(t) < i && t in sensors && sensors[t]
      {
        var t := AllSensorTypes[i];
        assert Ordinal(t) == i;
        if t in sensors && sensors[t] {
          required := required + [t];
        }
      }
    }

    /** `enableTemporarilyDisabledSensors`: the remembered list is applied and the flag cleared. */
    method EnableTemporarilyDisabledSensors()
      requires Valid()
      modifies this
      ensures Valid() && !tempDisabled && temporaryList == old(temporaryList)
      ensures forall t | t in temporaryList :: StateAfter(old(sensors), present, t, temporaryList[t]).Some? <==> t in sensors
      ensures forall t | t in temporaryList && t in sensors :: sensors[t] == temporaryList[t]
      ensures forall t | t !in temporaryList :: (t in sensors <==> t in old(sensors)) && (t in sensors ==> sensors[t] == old(sensors)[t])
    {
      var _ := ApplySensorActivationList(temporaryList);
      tempDisabled := false;
    }
  }

  /** Disabling the sensors temporarily and enabling them again restores which sensors run. */
  method DisableThenEnable(h: SensorHandler)
    requires h.Valid()
    modifies h
    ensures h.Valid() && !h.tempDisabled
    ensures h.sensors == old(h.sensors)
  {
    h.TemporarilyDisableSensors();
    h.EnableTemporarilyDisabledSensors();
  }

  /** Sensors required while disabled start only when the sensors are enabled again. */
  method RequireWhileDisabled(h: SensorHandler, required: seq<SensorType>)
    requires h.Valid() && h.tempDisabled
    modifies h
    ensures h.Valid() && !h.tempDisabled
    ensures forall t | t in h.sensors :: h.sensors[t] <==> t in required
  {
    var ok := h.SetRunning(required);
    h.EnableTemporarilyDisabledSensors();
  }
}
