/** `Telemetry::getTelemetryData`: the recursive normaliser that turns a
    payload holding objects into plain PHP arrays and scalars. */
module Normalizer {
  import opened Wrappers
  import opened PhpValues

  /** The message of the exception raised for an object no branch handles. */
  function UnsupportedMessage(className: string): string {
    "TelemetryData Exception: " + className
    + " is an object that is not handled explicitly, does not implement"
    + " Arrayable or TelemetryData"
  }

  /** Normalises one value: scalars stay, arrays recurse, and objects are
      tried as TelemetryData, Arrayable, Carbon and UploadedFile, in that
      order; any other object is an error naming its class. */
  function NormalizeValue(v: Value): (r: Result<Value, Throwable>)
    ensures r.Ok? ==> Plain(r.value)
    decreases v, 1
  {
    match v
    case Arr(es) =>
      (match GetTelemetryData(es)
       case Ok(n) => Ok(Arr(n))
       case Err(e) => Err(e))
    case Obj(c, caps, shape, arr, _, _) =>
      if caps.isTelemetryData then
        (match GetTelemetryData(shape)
         case Ok(n) => Ok(Arr(n))
         case Err(e) => Err(e))
      else if caps.isArrayable then
        (match GetTelemetryData(arr)
         case Ok(n) => Ok(Arr(n))
         case Err(e) => Err(e))
      else if caps.carbonIso.Some? then Ok(Str(caps.carbonIso.value))
      else if caps.uploadClientName.Some? then Ok(Str(caps.uploadClientName.value))
      else Err(Throwable(Exception, UnsupportedMessage(c)))
    case _ => Ok(v)
  }

  /** `getTelemetryData($payload)`: every value of the array normalised, in
      order; the first failure (in iteration order, depth first) is thrown. */
  function GetTelemetryData(es: seq<Entry>): (r: Result<seq<Entry>, Throwable>)
    ensures r.Ok? ==> Keys(r.value) == Keys(es) && PlainEntries(r.value)
    decreases es, 0
  {
    if es == [] then Ok([])
    else
      match NormalizeValue(es[0].val)
      case Err(e) => Err(e)
      case Ok(v) =>
        match GetTelemetryData(es[1..])
        case Err(e) => Err(e)
        case Ok(rest) =>
          var r := [Entry(es[0].key, v)] + rest;
          assert r[1..] == rest;
          assert Keys(es) == [es[0].key] + Keys(es[1..]);
          Ok(r)
  }

  // ---------------------------------------------------------------- failure

  /** An object of class `c` that no branch of the normaliser handles is
      reachable from `v` along the paths the normaliser follows. */
  predicate Unhandled(v: Value, c: string)
    decreases v, 1
  {
    match v
    case Arr(es) => UnhandledIn(es, c)
    case Obj(cls, caps, shape, arr, _, _) =>
      if caps.isTelemetryData then UnhandledIn(shape, c)
      else if caps.isArrayable then UnhandledIn(arr, c)
      else caps.carbonIso.None? && caps.uploadClientName.None? && cls == c
    case _ => false
  }

  predicate UnhandledIn(es: seq<Entry>, c: string)
    decreases es, 0
  {
    exists i :: 0 <= i < |es| && Unhandled(es[i].val, c)
  }

  /** Normalisation fails exactly when an unhandled object is reachable, and
      the exception it throws is a plain `Exception` whose message names the
      class of such an object. */
  lemma {:induction false} NormalizeValueFailure(v: Value)
    ensures NormalizeValue(v).Err? <==> exists c :: Unhandled(v, c)
    ensures NormalizeValue(v).Err? ==>
      NormalizeValue(v).error.cls == Exception &&
      exists c :: Unhandled(v, c) && NormalizeValue(v).error.message == UnsupportedMessage(c)
    decreases v, 1
  {
    var inner: seq<Entry>;
    match v {
      case Arr(es) => inner := es;
      case Obj(cls, caps, shape, arr, _, _) =>
        if caps.isTelemetryData {
          inner := shape;
        } else if caps.isArrayable {
          inner := arr;
        } else {
          if caps.carbonIso.None? && caps.uploadClientName.None? {
            assert Unhandled(v, cls);
            assert NormalizeValue(v) == Err(Throwable(Exception, UnsupportedMessage(cls)));
            assert exists c :: Unhandled(v, c);
          } else {
            assert NormalizeValue(v).Ok?;
            assert forall c :: !Unhandled(v, c);
            assert !exists c :: Unhandled(v, c);
          }
          return;
        }
      case _ => return;
    }
    assert forall c :: Unhandled(v, c) <==> UnhandledIn(inner, c);
    assert NormalizeValue(v).Err? <==> GetTelemetryData(inner).Err?;
    GetTelemetryDataFailure(inner);
    if GetTelemetryData(inner).Err? {
      assert NormalizeValue(v).error == GetTelemetryData(inner).error;
      var c :| UnhandledIn(inner, c) && GetTelemetryData(inner).error.message == UnsupportedMessage(c);
      assert Unhandled(v, c);
      assert NormalizeValue(v).Err?;
      assert exists c' :: Unhandled(v, c');
    } else {
      forall c ensures !Unhandled(v, c) {
        assert !UnhandledIn(inner, c);
      }
    }
  }

  lemma {:induction false} GetTelemetryDataFailure(es: seq<Entry>)
    ensures GetTelemetryData(es).Err? <==> exists c :: UnhandledIn(es, c)
    ensures GetTelemetryData(es).Err? ==>
      GetTelemetryData(es).error.cls == Exception &&
      exists c :: UnhandledIn(es, c) && GetTelemetryData(es).error.message == UnsupportedMessage(c)
    decreases es, 0
  {
    if es != [] {
      NormalizeValueFailure(es[0].val);
      GetTelemetryDataFailure(es[1..]);
      forall c ensures UnhandledIn(es, c) <==> Unhandled(es[0].val, c) || UnhandledIn(es[1..], c) {
        if UnhandledIn(es[1..], c) {
          var i :| 0 <= i < |es[1..]| && Unhandled(es[1..][i].val, c);
          assert es[i + 1] == es[1..][i];
        }
        if UnhandledIn(es, c) {
          var i :| 0 <= i < |es| && Unhandled(es[i].val, c);
          if i > 0 { assert es[1..][i - 1] == es[i]; }
        }
      }
      if NormalizeValue(es[0].val).Err? {
        assert GetTelemetryData(es) == Err(NormalizeValue(es[0].val).error);
        var c :| Unhandled(es[0].val, c) && NormalizeValue(es[0].val).error.message == UnsupportedMessage(c);
        assert UnhandledIn(es, c);
      } else if GetTelemetryData(es[1..]).Err? {
        assert GetTelemetryData(es) == Err(GetTelemetryData(es[1..]).error);
        var c :| UnhandledIn(es[1..], c) && GetTelemetryData(es[1..]).error.message == UnsupportedMessage(c);
        assert UnhandledIn(es, c);
      } else {
        assert GetTelemetryData(es).Ok?;
        forall c ensures !UnhandledIn(es, c) {
          assert !Unhandled(es[0].val, c);
          assert !UnhandledIn(es[1..], c);
        }
      }
    }
  }

  // ---------------------------------------------------------------- dispatch

  /** TelemetryData is tested before Arrayable: an object that is both is
      normalised from `telemetryData()`, whatever `toArray()` returns. */
  lemma TelemetryDataBeforeArrayable(v: Value, otherArray: seq<Entry>)
    requires v.Obj? && v.caps.isTelemetryData
    ensures NormalizeValue(v) == NormalizeValue(v.(toArray := otherArray))
    ensures NormalizeValue(v).Ok? <==> GetTelemetryData(v.telemetryData).Ok?
    ensures NormalizeValue(v).Ok? ==> NormalizeValue(v).value == Arr(GetTelemetryData(v.telemetryData).value)
  {
  }

  /** An object that is only Arrayable is normalised from `toArray()`. */
  lemma ArrayableUsesToArray(v: Value, otherShape: seq<Entry>)
    requires v.Obj? && !v.caps.isTelemetryData && v.caps.isArrayable
    ensures NormalizeValue(v) == NormalizeValue(v.(telemetryData := otherShape))
    ensures NormalizeValue(v).Ok? <==> GetTelemetryData(v.toArray).Ok?
    ensures NormalizeValue(v).Ok? ==> NormalizeValue(v).value == Arr(GetTelemetryData(v.toArray).value)
  {
  }

  /** A Carbon instance becomes its ISO-8601 string, an UploadedFile its
      client original name, unless a capability tested earlier applies. */
  lemma LeafObjects(v: Value)
    requires v.Obj? && !v.caps.isTelemetryData && !v.caps.isArrayable
    ensures v.caps.carbonIso.Some? ==> NormalizeValue(v) == Ok(Str(v.caps.carbonIso.value))
    ensures v.caps.carbonIso.None? && v.caps.uploadClientName.Some? ==>
      NormalizeValue(v) == Ok(Str(v.caps.uploadClientName.value))
  {
  }

  // ---------------------------------------------------------------- shape

  /** The normalised array is the input with each value normalised on its
      own: same keys in the same order, and a scalar left as it is. */
  lemma {:induction false} NormalizeEntryWise(es: seq<Entry>)
    requires GetTelemetryData(es).Ok?
    ensures |GetTelemetryData(es).value| == |es|
    ensures forall i :: 0 <= i < |es| ==>
      GetTelemetryData(es).value[i].key == es[i].key &&
      NormalizeValue(es[i].val) == Ok(GetTelemetryData(es).value[i].val)
    ensures forall i :: 0 <= i < |es| && !es[i].val.Arr? && !es[i].val.Obj? ==>
      GetTelemetryData(es).value[i] == es[i]
  {
    if es != [] {
      NormalizeEntryWise(es[1..]);
      var r := GetTelemetryData(es).value;
      assert r[1..] == GetTelemetryData(es[1..]).value;
      forall i | 0 <= i < |es| ensures r[i].key == es[i].key && NormalizeValue(es[i].val) == Ok(r[i].val) {
        if i > 0 { assert es[1..][i - 1] == es[i]; }
      }
    }
  }

  /** A value that is already plain normalises to itself. */
  lemma {:induction false} NormalizePlainValue(v: Value)
    requires Plain(v)
    ensures NormalizeValue(v) == Ok(v)
    decreases v, 1
  {
    if v.Arr? { NormalizePlainIdentity(v.entries); }
  }

  /** Normalising a plain array changes nothing. */
  lemma {:induction false} NormalizePlainIdentity(es: seq<Entry>)
    requires PlainEntries(es)
    ensures GetTelemetryData(es) == Ok(es)
    decreases es, 0
  {
    if es != [] {
      NormalizePlainValue(es[0].val);
      assert PlainEntries(es[1..]) by {
        forall i | 0 <= i < |es[1..]| ensures Plain(es[1..][i].val) { assert es[1..][i] == es[i + 1]; }
      }
      NormalizePlainIdentity(es[1..]);
      assert [Entry(es[0].key, es[0].val)] + es[1..] == es;
    }
  }

  /** Normalising twice is normalising once. */
  lemma NormalizeIdempotent(es: seq<Entry>)
    requires GetTelemetryData(es).Ok?
    ensures GetTelemetryData(GetTelemetryData(es).value) == GetTelemetryData(es)
  {
    NormalizePlainIdentity(GetTelemetryData(es).value);
  }
}
