/** `Telemetry::getPayload`: the payload assembled from the builder's
    fields, normalised, obfuscated and given its index. */
module Assembly {
  import opened Wrappers
  import opened PhpValues
  import opened Settings
  import opened Sections
  import opened Normalizer
  import opened Obfuscator
  import opened IndexResolution

  /** The builder's fields: `event`, `data`, `requestData`,
      `responseData` and `withUser`, as `getPayload` reads them. */
  datatype Builder = Builder(
    event: Option<string>,
    data: seq<Entry>,
    requestData: Option<RequestArg>,
    responseData: seq<Entry>,
    withUser: Value)

  /** A new `Telemetry`: no event, no data, no request flag, no response
      and no user choice. */
  const NewBuilder: Builder := Builder(None, [], None, [], Null)

  function EventValue(event: Option<string>): Value {
    match event
    case Some(e) => Str(e)
    case None => Null
  }

  /** The four entries every payload starts with. */
  function Seed(config: Config, event: Option<string>, ambient: Ambient): (r: seq<Entry>)
    ensures Keys(r) == ["env", "event", "event_ts", "host"]
  {
    [Entry("env", config.appEnv),
     Entry("event", EventValue(event)),
     Entry("event_ts", Int(ambient.now)),
     Entry("host", Arr([Entry("name", Str(ambient.hostName)), Entry("ip", Str(ambient.hostIp))]))]
  }

  function UserValue(section: Option<seq<Entry>>): Option<Value> {
    match section
    case Some(d) => Some(Arr(d))
    case None => None
  }

  /** The payload before normalisation: the seed, then the request, the
      response, the user, the thread id and the data, each when present.
      Each of these keys is new to the array when it is assigned, so the
      assignment appends (`PutAppends`). */
  function Assembled(config: Config, b: Builder, ambient: Ambient): seq<Entry> {
    Seed(config, b.event, ambient)
    + SectionEntry("request", RequestSection(config, b.requestData, ambient.request))
    + SectionEntry("response", if b.responseData != [] then Some(Arr(b.responseData)) else None)
    + SectionEntry("user", UserValue(UserSection(config, b.withUser, ambient.authUser)))
    + SectionEntry("thread_id", ambient.threadId)
    + SectionEntry("data", if b.data != [] then Some(Arr(b.data)) else None)
  }

  /** The key the index is stored under, and the array stored there. */
  const MetadataKey: string := "@metadata"

  function Metadata(index: string): Value {
    Arr([Entry("index", Str(index))])
  }

  /** What `getIndex` throws when the event name is null: its parameter is
      typed `string`. */
  const NullEventError: Throwable :=
    Throwable(TypeError, "Telemetry::getIndex(): Argument #1 ($eventName) must be of type string, null given")

  /** `getPayload()`: the assembled payload, then `Finish`. */
  function Payload(config: Config, b: Builder, ambient: Ambient): Result<seq<Entry>, Throwable> {
    Finish(config, b.event, ambient, Assembled(config, b, ambient))
  }

  /** The rest of `getPayload()`: the assembled array normalised (which may
      throw), then obfuscated; then the index is resolved from the event
      name and that array, and stored under `@metadata` unless it is empty. */
  function Finish(config: Config, event: Option<string>, ambient: Ambient, assembled: seq<Entry>): (r: Result<seq<Entry>, Throwable>)
    ensures r.Ok? ==> PlainEntries(r.value)
  {
    match GetTelemetryData(assembled)
    case Err(e) => Err(e)
    case Ok(normalised) =>
      var masked := GetObfuscatedData(normalised, config.obfuscatedDataKeys);
      match event
      case None =>
        Err(NullEventError)
      case Some(e) =>
        match GetIndex(ambient.indexBinding, config.index, e, masked)
        case Err(err) => Err(err)
        case Ok(index) =>
          if EmptyString(index) then Ok(masked)
          else
            PutPlain(masked, MetadataKey, Metadata(index));
            Ok(Put(masked, MetadataKey, Metadata(index)))
  }

  /** Assigning a plain value keeps an array plain. */
  lemma {:induction false} PutPlain(es: seq<Entry>, k: string, v: Value)
    requires PlainEntries(es) && Plain(v)
    ensures PlainEntries(Put(es, k, v))
  {
    if es != [] {
      assert PlainEntries(es[1..]) by {
        forall i | 0 <= i < |es[1..]| ensures Plain(es[1..][i].val) { assert es[1..][i] == es[i + 1]; }
      }
      var r := Put(es, k, v);
      if es[0].key == k {
        assert r == [Entry(k, v)] + es[1..];
        forall i | 0 <= i < |r| ensures Plain(r[i].val) {
          if i > 0 { assert r[i] == es[i]; }
        }
      } else {
        PutPlain(es[1..], k, v);
        assert r == [es[0]] + Put(es[1..], k, v);
        forall i | 0 <= i < |r| ensures Plain(r[i].val) {
          if i > 0 { assert r[i] == Put(es[1..], k, v)[i - 1]; }
        }
      }
    }
  }

  // ---------------------------------------------------------------- keys

  /** The entry `$payload[$key] = $section` contributes when there is a
      section: one when it has a value, none otherwise. */
  function SectionEntry(key: string, section: Option<Value>): (r: seq<Entry>)
    ensures Keys(r) == if section.Some? then [key] else []
  {
    match section
    case Some(v) => [Entry(key, v)]
    case None => []
  }

  /** The keys of two arrays joined end to end. */
  lemma KeysConcat(a: seq<Entry>, b: seq<Entry>)
    ensures Keys(a + b) == Keys(a) + Keys(b)
  {
    var l, r := Keys(a + b), Keys(a) + Keys(b);
    assert |l| == |r|;
    forall i | 0 <= i < |l| ensures l[i] == r[i] {
      if i < |a| { assert (a + b)[i] == a[i]; assert r[i] == Keys(a)[i]; }
      else { assert (a + b)[i] == b[i - |a|]; assert r[i] == Keys(b)[i - |a|]; }
    }
  }

  /** A key absent from an array is absent from its first pair and from
      the rest. */
  lemma AbsentKeySplits(es: seq<Entry>, k: string)
    requires es != [] && k !in Keys(es)
    ensures es[0].key != k && k !in Keys(es[1..])
  {
    assert Keys(es) == [es[0].key] + Keys(es[1..]);
  }

  /** Assignment past a first pair with another key leaves that pair first. */
  lemma PutPastFirst(es: seq<Entry>, k: string, v: Value)
    requires es != [] && es[0].key != k
    ensures Put(es, k, v) == [es[0]] + Put(es[1..], k, v)
  {
  }

  lemma ConsSnoc(es: seq<Entry>, e: Entry)
    requires es != []
    ensures [es[0]] + (es[1..] + [e]) == es + [e]
  {
  }

  /** `$a[$k] = $v` on an array without `$k` appends the entry at the end. */
  lemma {:induction false} PutAppends(es: seq<Entry>, k: string, v: Value)
    requires k !in Keys(es)
    ensures Put(es, k, v) == es + [Entry(k, v)]
  {
    if es != [] {
      AbsentKeySplits(es, k);
      PutAppends(es[1..], k, v);
      PutPastFirst(es, k, v);
      ConsSnoc(es, Entry(k, v));
    }
  }

  /** `if (...) { $payload[$key] = $value; }`: assigns the section when
      there is one. */
  function PutSection(p: seq<Entry>, key: string, section: Option<Value>): seq<Entry> {
    match section
    case Some(v) => Put(p, key, v)
    case None => p
  }

  /** Assigning a section under a key the array does not hold appends its
      entry, if any. */
  lemma PutSectionAppends(p: seq<Entry>, key: string, section: Option<Value>)
    requires key !in Keys(p)
    ensures PutSection(p, key, section) == p + SectionEntry(key, section)
    ensures Keys(PutSection(p, key, section)) == Keys(p) + SectionKey(key, section)
  {
    if section.Some? { PutAppends(p, key, section.value); }
    KeysConcat(p, SectionEntry(key, section));
  }

  /** The key a section contributes: its own when it has a value. */
  function SectionKey(key: string, section: Option<Value>): seq<string> {
    if section.Some? then [key] else []
  }

  /** The keys of five sections appended to an array. */
  lemma SectionsKeysConcat(p: seq<Entry>, a: string, b: string, c: string, d: string, e: string,
                           sa: Option<Value>, sb: Option<Value>, sc: Option<Value>,
                           sd: Option<Value>, se: Option<Value>)
    ensures Keys(p + SectionEntry(a, sa) + SectionEntry(b, sb) + SectionEntry(c, sc) + SectionEntry(d, sd) + SectionEntry(e, se))
      == Keys(p) + SectionKey(a, sa) + SectionKey(b, sb) + SectionKey(c, sc) + SectionKey(d, sd) + SectionKey(e, se)
  {
    var ea, eb, ec, ed, ee := SectionEntry(a, sa), SectionEntry(b, sb), SectionEntry(c, sc), SectionEntry(d, sd), SectionEntry(e, se);
    KeysConcat(p, ea);
    KeysConcat(p + ea, eb);
    KeysConcat(p + ea + eb, ec);
    KeysConcat(p + ea + eb + ec, ed);
    KeysConcat(p + ea + eb + ec + ed, ee);
  }

  /** Appending a key not yet present keeps keys distinct. */
  lemma AppendFresh(ks: seq<string>, k: string)
    requires NoDuplicates(ks) && k !in ks
    ensures NoDuplicates(ks + [k])
  {
    var r := ks + [k];
    forall i, j | 0 <= i < j < |r| ensures r[i] != r[j] {
      if j == |ks| { assert r[i] == ks[i]; } else { assert r[i] == ks[i] && r[j] == ks[j]; }
    }
  }

  /** Appending one section's key, new to a list of distinct keys, keeps
      them distinct and adds at most that key. */
  lemma SectionKeyFresh(ks: seq<string>, key: string, section: Option<Value>)
    requires NoDuplicates(ks) && key !in ks
    ensures NoDuplicates(ks + SectionKey(key, section))
    ensures forall x :: x in ks + SectionKey(key, section) <==> x in ks || (section.Some? && x == key)
  {
    if section.Some? { AppendFresh(ks, key); } else { assert ks + SectionKey(key, section) == ks; }
  }

  /** Appending some of five distinct keys new to a list of distinct keys
      keeps them distinct. */
  lemma SectionKeysDistinct(ks: seq<string>, a: string, b: string, c: string, d: string, e: string,
                            sa: Option<Value>, sb: Option<Value>, sc: Option<Value>,
                            sd: Option<Value>, se: Option<Value>)
    requires NoDuplicates(ks)
    requires a !in ks && b !in ks && c !in ks && d !in ks && e !in ks
    requires a != b && a != c && a != d && a != e && b != c && b != d && b != e && c != d && c != e && d != e
    ensures var r := ks + SectionKey(a, sa) + SectionKey(b, sb) + SectionKey(c, sc) + SectionKey(d, sd) + SectionKey(e, se);
      NoDuplicates(r) && forall x :: x in r ==> x in ks || x == a || x == b || x == c || x == d || x == e
  {
    var k1 := ks + SectionKey(a, sa);
    SectionKeyFresh(ks, a, sa);
    assert b !in k1 && c !in k1 && d !in k1 && e !in k1;
    var k2 := k1 + SectionKey(b, sb);
    SectionKeyFresh(k1, b, sb);
    assert c !in k2 && d !in k2 && e !in k2;
    var k3 := k2 + SectionKey(c, sc);
    SectionKeyFresh(k2, c, sc);
    assert d !in k3 && e !in k3;
    var k4 := k3 + SectionKey(d, sd);
    SectionKeyFresh(k3, d, sd);
    assert e !in k4;
    SectionKeyFresh(k4, e, se);
  }

  /** The seed keys, the section keys and `@metadata` are all different. */
  lemma PayloadKeyNamesDistinct()
    ensures NoDuplicates(["env", "event", "event_ts", "host"])
    ensures var seed := ["env", "event", "event_ts", "host"];
      "request" !in seed && "response" !in seed && "user" !in seed && "thread_id" !in seed && "data" !in seed
      && MetadataKey !in seed
    ensures "request" != "response" && "request" != "user" && "request" != "thread_id" && "request" != "data"
      && "response" != "user" && "response" != "thread_id" && "response" != "data"
      && "user" != "thread_id" && "user" != "data" && "thread_id" != "data"
    ensures MetadataKey != "request" && MetadataKey != "response" && MetadataKey != "user"
      && MetadataKey != "thread_id" && MetadataKey != "data"
  {
  }

  /** Five assignments, in order, of sections under distinct keys that the
      array does not hold: together they append the sections' entries. */
  lemma SectionsAppend(p0: seq<Entry>, a: string, b: string, c: string, d: string, e: string,
                       sa: Option<Value>, sb: Option<Value>, sc: Option<Value>,
                       sd: Option<Value>, se: Option<Value>,
                       p1: seq<Entry>, p2: seq<Entry>, p3: seq<Entry>, p4: seq<Entry>, p5: seq<Entry>)
    requires a !in Keys(p0) && b !in Keys(p0) && c !in Keys(p0) && d !in Keys(p0) && e !in Keys(p0)
    requires a != b && a != c && a != d && a != e && b != c && b != d && b != e && c != d && c != e && d != e
    requires p1 == PutSection(p0, a, sa) && p2 == PutSection(p1, b, sb) && p3 == PutSection(p2, c, sc)
    requires p4 == PutSection(p3, d, sd) && p5 == PutSection(p4, e, se)
    ensures p5 == p0 + SectionEntry(a, sa) + SectionEntry(b, sb) + SectionEntry(c, sc)
                    + SectionEntry(d, sd) + SectionEntry(e, se)
  {
    PutSectionAppends(p0, a, sa);
    assert b !in Keys(p1) && c !in Keys(p1) && d !in Keys(p1) && e !in Keys(p1);
    PutSectionAppends(p1, b, sb);
    assert c !in Keys(p2) && d !in Keys(p2) && e !in Keys(p2);
    PutSectionAppends(p2, c, sc);
    assert d !in Keys(p3) && e !in Keys(p3);
    PutSectionAppends(p3, d, sd);
    assert e !in Keys(p4);
    PutSectionAppends(p4, e, se);
  }

  /** The section assignments of `getPayload()`, made one after the other
      on the seed, build `Assembled`. */
  lemma AssembledStepwise(config: Config, b: Builder, ambient: Ambient,
                          p1: seq<Entry>, p2: seq<Entry>, p3: seq<Entry>, p4: seq<Entry>, p5: seq<Entry>)
    requires p1 == PutSection(Seed(config, b.event, ambient), "request", RequestSection(config, b.requestData, ambient.request))
    requires p2 == PutSection(p1, "response", if b.responseData != [] then Some(Arr(b.responseData)) else None)
    requires p3 == PutSection(p2, "user", UserValue(UserSection(config, b.withUser, ambient.authUser)))
    requires p4 == PutSection(p3, "thread_id", ambient.threadId)
    requires p5 == PutSection(p4, "data", if b.data != [] then Some(Arr(b.data)) else None)
    ensures p5 == Assembled(config, b, ambient)
  {
    PayloadKeyNamesDistinct();
    SectionsAppend(Seed(config, b.event, ambient), "request", "response", "user", "thread_id", "data",
      RequestSection(config, b.requestData, ambient.request),
      if b.responseData != [] then Some(Arr(b.responseData)) else None,
      UserValue(UserSection(config, b.withUser, ambient.authUser)),
      ambient.threadId,
      if b.data != [] then Some(Arr(b.data)) else None,
      p1, p2, p3, p4, p5);
  }

  /** The keys of the assembled payload: the four seed keys first, then each
      optional section's key exactly when it has a value, in order; they
      are distinct and never `@metadata`. */
  lemma AssembledKeys(config: Config, b: Builder, ambient: Ambient)
    ensures Keys(Assembled(config, b, ambient)) ==
      ["env", "event", "event_ts", "host"]
      + SectionKey("request", RequestSection(config, b.requestData, ambient.request))
      + (if b.responseData != [] then ["response"] else [])
      + SectionKey("user", UserValue(UserSection(config, b.withUser, ambient.authUser)))
      + (if ambient.threadId.Some? then ["thread_id"] else [])
      + (if b.data != [] then ["data"] else [])
    ensures NoDuplicates(Keys(Assembled(config, b, ambient)))
    ensures MetadataKey !in Keys(Assembled(config, b, ambient))
  {
    var seed := Seed(config, b.event, ambient);
    var s1 := RequestSection(config, b.requestData, ambient.request);
    var s2 := if b.responseData != [] then Some(Arr(b.responseData)) else None;
    var s3 := UserValue(UserSection(config, b.withUser, ambient.authUser));
    var s4 := ambient.threadId;
    var s5 := if b.data != [] then Some(Arr(b.data)) else None;
    SectionsKeysConcat(seed, "request", "response", "user", "thread_id", "data", s1, s2, s3, s4, s5);
    PayloadKeyNamesDistinct();
    SectionKeysDistinct(Keys(seed), "request", "response", "user", "thread_id", "data", s1, s2, s3, s4, s5);
  }

  // ---------------------------------------------------------------- finish

  /** `unset` of a key that is not there changes nothing. */
  lemma {:induction false} UnsetAbsent(es: seq<Entry>, k: string)
    requires k !in Keys(es)
    ensures Unset(es, k) == es
  {
    if es != [] {
      assert Keys(es) == [es[0].key] + Keys(es[1..]);
      UnsetAbsent(es[1..], k);
      assert [es[0]] + es[1..] == es;
    }
  }

  /** `unset` of the last entry gives back the entries before it. */
  lemma {:induction false} UnsetLast(es: seq<Entry>, k: string, v: Value)
    requires k !in Keys(es)
    ensures Unset(es + [Entry(k, v)], k) == es
  {
    if es == [] {
      assert Unset([Entry(k, v)], k) == Unset([], k);
    } else {
      assert Keys(es) == [es[0].key] + Keys(es[1..]);
      UnsetLast(es[1..], k, v);
      assert (es + [Entry(k, v)])[1..] == es[1..] + [Entry(k, v)];
      assert [es[0]] + es[1..] == es;
    }
  }

  /** The published array, `@metadata` aside, is the assembled array
      normalised and then masked; it has the assembled keys, plus
      `@metadata` last exactly when the index resolved from the event name
      and that array is non-empty, holding that index. */
  lemma FinishShape(config: Config, event: Option<string>, ambient: Ambient, assembled: seq<Entry>)
    requires MetadataKey !in Keys(assembled)
    requires Finish(config, event, ambient, assembled).Ok?
    ensures var p := Finish(config, event, ambient, assembled).value;
      var body := Unset(p, MetadataKey);
      event.Some? &&
      GetTelemetryData(assembled).Ok? &&
      body == GetObfuscatedData(GetTelemetryData(assembled).value, config.obfuscatedDataKeys) &&
      PlainEntries(p) &&
      var index := GetIndex(ambient.indexBinding, config.index, event.value, body);
      index.Ok? &&
      Keys(p) == Keys(assembled) + (if EmptyString(index.value) then [] else [MetadataKey]) &&
      (!EmptyString(index.value) ==> p == body + [Entry(MetadataKey, Metadata(index.value))])
  {
    var normalised := GetTelemetryData(assembled).value;
    var masked := GetObfuscatedData(normalised, config.obfuscatedDataKeys);
    assert Keys(masked) == Keys(assembled);
    var index := GetIndex(ambient.indexBinding, config.index, event.value, masked).value;
    if EmptyString(index) {
      UnsetAbsent(masked, MetadataKey);
    } else {
      var m := Metadata(index);
      PutAppends(masked, MetadataKey, m);
      UnsetLast(masked, MetadataKey, m);
      assert Keys(masked + [Entry(MetadataKey, m)]) == Keys(masked) + [MetadataKey];
    }
  }

  /** `getPayload()` in full: see `FinishShape`, over the assembled payload. */
  lemma PayloadShape(config: Config, b: Builder, ambient: Ambient)
    requires Payload(config, b, ambient).Ok?
    ensures var p := Payload(config, b, ambient).value;
      var assembled := Assembled(config, b, ambient);
      var body := Unset(p, MetadataKey);
      b.event.Some? &&
      GetTelemetryData(assembled).Ok? &&
      body == GetObfuscatedData(GetTelemetryData(assembled).value, config.obfuscatedDataKeys) &&
      PlainEntries(p) &&
      var index := GetIndex(ambient.indexBinding, config.index, b.event.value, body);
      index.Ok? &&
      Keys(p) == Keys(assembled) + (if EmptyString(index.value) then [] else [MetadataKey]) &&
      (!EmptyString(index.value) ==> p == body + [Entry(MetadataKey, Metadata(index.value))])
  {
    AssembledKeys(config, b, ambient);
    FinishShape(config, b.event, ambient, Assembled(config, b, ambient));
  }

  /** Every value under a denylisted key, at any depth of the published
      array, is masked. */
  lemma FinishMasked(config: Config, event: Option<string>, ambient: Ambient, assembled: seq<Entry>)
    requires MetadataKey !in Keys(assembled)
    requires Finish(config, event, ambient, assembled).Ok?
    ensures GetTelemetryData(assembled).Ok?
    ensures Masked(GetTelemetryData(assembled).value,
                   Unset(Finish(config, event, ambient, assembled).value, MetadataKey),
                   config.obfuscatedDataKeys)
  {
    FinishShape(config, event, ambient, assembled);
    ObfuscationMasks(GetTelemetryData(assembled).value, config.obfuscatedDataKeys);
  }

  /** An object the normaliser cannot handle anywhere in the assembled
      array makes `getPayload` throw a plain `Exception` naming the class of
      such an object; no index is resolved then. */
  lemma UnhandledObjectFails(config: Config, event: Option<string>, ambient: Ambient, assembled: seq<Entry>, c: string)
    requires UnhandledIn(assembled, c)
    ensures Finish(config, event, ambient, assembled).Err?
    ensures Finish(config, event, ambient, assembled).error.cls == Exception
    ensures exists c' :: (UnhandledIn(assembled, c') &&
      Finish(config, event, ambient, assembled).error.message == UnsupportedMessage(c'))
  {
    GetTelemetryDataFailure(assembled);
    assert exists c' :: UnhandledIn(assembled, c');
  }

  /** An exception the bound resolver throws for the normalised, masked
      array is what `getPayload` throws. */
  lemma ResolverExceptionPropagates(config: Config, event: string, ambient: Ambient, assembled: seq<Entry>)
    requires ambient.indexBinding.Resolver? && GetTelemetryData(assembled).Ok?
    requires ambient.indexBinding.getIndex(event,
      GetObfuscatedData(GetTelemetryData(assembled).value, config.obfuscatedDataKeys)).Err?
    ensures Finish(config, Some(event), ambient, assembled) == Err(ambient.indexBinding.getIndex(event,
      GetObfuscatedData(GetTelemetryData(assembled).value, config.obfuscatedDataKeys)).error)
  {
  }

  /** A payload without an event name fails in `getIndex` with a
      `TypeError`, once normalisation has succeeded. */
  lemma NoEventNoIndex(config: Config, ambient: Ambient, assembled: seq<Entry>)
    requires GetTelemetryData(assembled).Ok?
    ensures Finish(config, None, ambient, assembled).Err?
    ensures Finish(config, None, ambient, assembled).error.cls == TypeError
  {
  }
}
