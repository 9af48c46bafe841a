/** PHP values as the telemetry code handles them: scalars, ordered arrays
    with string keys, and objects described by the capabilities the code
    tests with `instanceof`. Also the few PHP built-ins the code relies on
    (`empty`, `trim`, `implode`, `str_repeat`, string conversion, array
    assignment, `unset` and `array_merge`) and the throwables it raises. */
module PhpValues {
  import opened Wrappers

  /** A PHP value. Arrays keep insertion order; keys are strings. */
  datatype Value =
    | Null
    | Bool(b: bool)
    | Int(i: int)
    | Str(s: string)
    | Arr(entries: seq<Entry>)
      /** An object: its class name, the interfaces and classes it is an
          instance of, what its `telemetryData()` and `toArray()` return when
          it has them, its readable properties and the array-returning
          methods that can be called on it. */
    | Obj(className: string, caps: Capabilities, telemetryData: seq<Entry>, toArray: seq<Entry>,
          props: map<string, Value>, methods: map<string, seq<Entry>>)

  /** One key => value pair of a PHP array. */
  datatype Entry = Entry(key: string, val: Value)

  /** What `instanceof` answers for an object: TelemetryData, Arrayable,
      Carbon (with its ISO-8601 rendering) and UploadedFile (with its client
      original name). */
  datatype Capabilities = Capabilities(
    isTelemetryData: bool,
    isArrayable: bool,
    carbonIso: Option<string>,
    uploadClientName: Option<string>)

  /** The PHP throwable classes the core raises or lets through. Only the
      first four are `Exception`s; `TypeError` and `Error` are not.
      `ErrorException` is what Laravel's error handler turns a PHP warning
      into. */
  datatype ThrowableClass = Exception | TransportException | RedisConnectionException | ErrorException | TypeError | Error

  datatype Throwable = Throwable(cls: ThrowableClass, message: string) {
    /** Caught by `catch (Exception $e)`. */
    predicate IsException() {
      cls == Exception || cls == TransportException || cls == RedisConnectionException || cls == ErrorException
    }
  }

  // ---------------------------------------------------------------- empty()

  /** PHP's `empty()` on a string: "" and "0". */
  predicate EmptyString(s: string) {
    s == "" || s == "0"
  }

  /** PHP's `empty()` on a `null|string`. */
  predicate EmptyOptString(o: Option<string>) {
    o.None? || EmptyString(o.value)
  }

  /** PHP's `empty()`: null, false, 0, "", "0" and [] are empty; objects never. */
  predicate Empty(v: Value) {
    match v
    case Null => true
    case Bool(b) => !b
    case Int(i) => i == 0
    case Str(s) => EmptyString(s)
    case Arr(es) => es == []
    case Obj(_, _, _, _, _, _) => false
  }

  /** A value without objects at any depth: what can be encoded as JSON. */
  predicate Plain(v: Value) {
    match v
    case Arr(es) => PlainEntries(es)
    case Obj(_, _, _, _, _, _) => false
    case _ => true
  }

  predicate PlainEntries(es: seq<Entry>) {
    forall i :: 0 <= i < |es| ==> Plain(es[i].val)
  }

  // ---------------------------------------------------------------- arrays

  /** `array_keys`. */
  function Keys(es: seq<Entry>): (ks: seq<string>)
    ensures |ks| == |es|
    ensures forall i :: 0 <= i < |es| ==> ks[i] == es[i].key
  {
    if es == [] then [] else [es[0].key] + Keys(es[1..])
  }

  /** No string occurs twice. */
  predicate NoDuplicates(ks: seq<string>) {
    forall i, j :: 0 <= i < j < |ks| ==> ks[i] != ks[j]
  }

  /** PHP arrays never hold a key twice. */
  predicate DistinctKeys(es: seq<Entry>) {
    NoDuplicates(Keys(es))
  }

  /** `$a[$k]` when the key exists. */
  function Lookup(es: seq<Entry>, k: string): (r: Option<Value>)
    ensures r.None? <==> k !in Keys(es)
  {
    if es == [] then None
    else if es[0].key == k then Some(es[0].val)
    else Lookup(es[1..], k)
  }

  /** `$a[$k] ?? null`. */
  function Get(es: seq<Entry>, k: string): Value {
    Lookup(es, k).GetOr(Null)
  }

  /** `$a[$k] = $v`: overwrites in place when the key exists, appends otherwise. */
  function Put(es: seq<Entry>, k: string, v: Value): (r: seq<Entry>)
    ensures Keys(r) == if k in Keys(es) then Keys(es) else Keys(es) + [k]
    ensures Lookup(r, k) == Some(v)
    ensures forall k' :: k' != k ==> Lookup(r, k') == Lookup(es, k')
  {
    if es == [] then [Entry(k, v)]
    else if es[0].key == k then
      var r := [Entry(k, v)] + es[1..];
      assert r[1..] == es[1..];
      assert Keys(r) == [k] + Keys(es[1..]);
      r
    else
      var rest := Put(es[1..], k, v);
      var r := [es[0]] + rest;
      assert r[1..] == rest;
      assert Keys(es) == [es[0].key] + Keys(es[1..]);
      assert Keys(r) == [es[0].key] + Keys(rest);
      r
  }

  /** Assignment keeps an array's keys distinct. */
  lemma PutKeepsDistinct(es: seq<Entry>, k: string, v: Value)
    requires DistinctKeys(es)
    ensures DistinctKeys(Put(es, k, v))
  {
    var ks := Keys(es);
    if k !in ks {
      var ks' := ks + [k];
      forall i, j | 0 <= i < j < |ks'| ensures ks'[i] != ks'[j] {
        if j == |ks| { assert ks'[i] == ks[i]; }
      }
    }
  }

  /** The key sequence with `k` removed. */
  function KeysWithout(ks: seq<string>, k: string): (r: seq<string>)
    ensures forall x :: x in r <==> x in ks && x != k
  {
    if ks == [] then []
    else if ks[0] == k then KeysWithout(ks[1..], k)
    else [ks[0]] + KeysWithout(ks[1..], k)
  }

  /** `unset($a[$k])`: the other pairs stay, in order. */
  function Unset(es: seq<Entry>, k: string): (r: seq<Entry>)
    ensures Keys(r) == KeysWithout(Keys(es), k)
    ensures Lookup(r, k) == None
    ensures forall k' :: k' != k ==> Lookup(r, k') == Lookup(es, k')
  {
    if es == [] then []
    else
      var rest := Unset(es[1..], k);
      assert Keys(es) == [es[0].key] + Keys(es[1..]);
      if es[0].key == k then rest
      else
        var r := [es[0]] + rest;
        assert r[1..] == rest;
        r
  }

  /** `array_merge($a, $b)` for string keys: the pairs of `$b` are assigned
      into `$a` one after the other. */
  function Merge(a: seq<Entry>, b: seq<Entry>): (r: seq<Entry>)
    ensures forall k :: k in Keys(r) <==> k in Keys(a) || k in Keys(b)
    ensures forall k :: k !in Keys(b) ==> Lookup(r, k) == Lookup(a, k)
    decreases |b|
  {
    if b == [] then a
    else
      var r := Merge(Put(a, b[0].key, b[0].val), b[1..]);
      assert Keys(b) == [b[0].key] + Keys(b[1..]);
      r
  }

  /** Assignment keeps the keys already there first, in their order. */
  lemma PutKeepsKeyPrefix(a: seq<Entry>, k: string, v: Value)
    ensures |a| <= |Put(a, k, v)| && Keys(Put(a, k, v))[..|a|] == Keys(a)
  {
  }

  lemma MergeStep(a: seq<Entry>, b: seq<Entry>)
    requires b != []
    ensures Merge(a, b) == Merge(Put(a, b[0].key, b[0].val), b[1..])
  {
  }

  lemma PrefixOfPrefix(s: seq<string>, t: seq<string>, u: seq<string>)
    requires |u| <= |t| <= |s| && s[..|t|] == t && t[..|u|] == u
    ensures s[..|u|] == u
  {
    assert s[..|u|] == s[..|t|][..|u|];
  }

  /** `array_merge` keeps the keys of its first array first, in their order. */
  lemma {:induction false} MergeKeepsPrefix(a: seq<Entry>, b: seq<Entry>)
    ensures |a| <= |Merge(a, b)| && Keys(Merge(a, b))[..|a|] == Keys(a)
    decreases |b|
  {
    if b != [] {
      var a' := Put(a, b[0].key, b[0].val);
      MergeStep(a, b);
      MergeKeepsPrefix(a', b[1..]);
      PutKeepsKeyPrefix(a, b[0].key, b[0].val);
      PrefixOfPrefix(Keys(Merge(a, b)), Keys(a'), Keys(a));
    }
  }

  /** `array_merge`: the second array wins on every key it holds. */
  lemma {:induction false} MergeSecondWins(a: seq<Entry>, b: seq<Entry>, k: string)
    requires DistinctKeys(b) && k in Keys(b)
    ensures Lookup(Merge(a, b), k) == Lookup(b, k)
    decreases |b|
  {
    var a' := Put(a, b[0].key, b[0].val);
    assert Keys(b) == [b[0].key] + Keys(b[1..]);
    assert Keys(b[1..]) == Keys(b)[1..];
    if b[0].key == k {
      assert k !in Keys(b[1..]) by {
        forall j | 0 <= j < |b| - 1 ensures Keys(b[1..])[j] != k {
          assert Keys(b)[0] != Keys(b)[j + 1];
        }
      }
    } else {
      MergeSecondWins(a', b[1..], k);
    }
  }

  // ---------------------------------------------------------------- types

  /** The type name PHP uses in a TypeError message. */
  function TypeName(v: Value): string {
    match v
    case Null => "null"
    case Bool(_) => "bool"
    case Int(_) => "int"
    case Str(_) => "string"
    case Arr(_) => "array"
    case Obj(c, _, _, _, _, _) => c
  }

  /** A value passed (or returned) where `string` is declared, outside
      strict mode: bools and ints are converted, anything else is a
      TypeError naming `what` and saying the value was `verb`. */
  function StringParam(v: Value, what: string, verb: string): (r: Result<string, Throwable>)
    ensures r.Ok? <==> v.Bool? || v.Int? || v.Str?
    ensures r.Ok? ==> r.value == Text(v)
    ensures r.Err? ==> r.error.cls == TypeError
  {
    match v
    case Bool(_) => Ok(Text(v))
    case Int(_) => Ok(Text(v))
    case Str(s) => Ok(s)
    case _ => Err(Throwable(TypeError, what + " must be of type string, " + TypeName(v) + " " + verb))
  }

  /** A value passed where `null|string` is declared. */
  function NullableStringParam(v: Value, what: string): (r: Result<Option<string>, Throwable>)
    ensures r.Ok? <==> !v.Arr? && !v.Obj?
    ensures v.Null? ==> r == Ok(None)
    ensures r.Ok? && !v.Null? ==> r.value == Some(Text(v))
    ensures r.Err? ==> r.error.cls == TypeError
  {
    if v.Null? then Ok(None)
    else match StringParam(v, what, "given")
      case Ok(s) => Ok(Some(s))
      case Err(e) => Err(Throwable(TypeError, what + " must be of type ?string, " + TypeName(v) + " given"))
  }

  /** PHP 8's loose `$v == $s` for a string `s` that is not numeric, as a
      `switch` compares: a bool compares with the truth of `s`, null with
      "", an int with its decimal text, arrays and objects never match. */
  function LooseEqualsText(v: Value, s: string): (r: bool)
    ensures v.Str? ==> (r <==> v.s == s)
  {
    match v
    case Null => s == ""
    case Bool(b) => b == !EmptyString(s)
    case Int(i) => Decimal(i) == s
    case Str(t) => t == s
    case _ => false
  }

  // ---------------------------------------------------------------- strings

  function DigitChar(d: nat): char
    requires d < 10
  {
    "0123456789"[d]
  }

  function Digits(n: nat): (s: string)
    ensures |s| >= 1
    decreases n
  {
    if n < 10 then [DigitChar(n)] else Digits(n / 10) + [DigitChar(n % 10)]
  }

  /** The decimal rendering of an integer, as PHP's string conversion writes it. */
  function Decimal(i: int): string {
    if i < 0 then "-" + Digits(-i) else Digits(i)
  }

  /** PHP's string conversion of a value (`strval`, `.`, `strlen`'s argument):
      null and false are "", true is "1". Arrays render as "Array"; an object
      renders here as its class name. */
  function Text(v: Value): string {
    match v
    case Null => ""
    case Bool(b) => if b then "1" else ""
    case Int(i) => Decimal(i)
    case Str(s) => s
    case Arr(_) => "Array"
    case Obj(c, _, _, _, _, _) => c
  }

  /** The number of bytes a character takes in UTF-8. */
  function Utf8Width(c: char): (w: nat)
    ensures 1 <= w <= 4
  {
    if c as int < 0x80 then 1
    else if c as int < 0x800 then 2
    else if c as int < 0x10000 then 3
    else 4
  }

  /** `strlen`: PHP strings are UTF-8 bytes, so a character outside ASCII
      counts for more than one. */
  function ByteLength(s: string): (n: nat)
    ensures |s| <= n <= 4 * |s|
  {
    if s == [] then 0 else Utf8Width(s[0]) + ByteLength(s[1..])
  }

  /** `str_repeat('*', n)`. */
  function Stars(n: nat): (s: string)
    ensures |s| == n && forall i :: 0 <= i < n ==> s[i] == '*'
  {
    seq(n, _ => '*')
  }

  /** The characters PHP's `trim` strips by default: " \t\n\r\0\x0B". */
  predicate Blank(c: char) {
    c == ' ' || c == '\t' || c == '\n' || c == '\r' || c as int == 0 || c as int == 11
  }

  function TrimLeft(s: string): (r: string)
    ensures r == [] || !Blank(r[0])
    ensures |r| <= |s| && r == s[|s| - |r|..]
  {
    if s != [] && Blank(s[0]) then TrimLeft(s[1..]) else s
  }

  function TrimRight(s: string): (r: string)
    ensures r == [] || !Blank(r[|r| - 1])
    ensures |r| <= |s| && r == s[..|r|]
  {
    if s != [] && Blank(s[|s| - 1]) then TrimRight(s[..|s| - 1]) else s
  }

  /** `trim($s)`. */
  function Trim(s: string): (r: string)
    ensures r == [] || (!Blank(r[0]) && !Blank(r[|r| - 1]))
  {
    var l := TrimLeft(s);
    var r := TrimRight(l);
    assert r != [] ==> r[0] == l[0];
    r
  }

  /** `implode($sep, $parts)`. */
  function Implode(sep: string, parts: seq<string>): string {
    if parts == [] then ""
    else if |parts| == 1 then parts[0]
    else parts[0] + sep + Implode(sep, parts[1..])
  }
}
