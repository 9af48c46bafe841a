/** `Telemetry::getObfuscatedData`: masks, at every depth of the payload, the
    value of every key named in the configured denylist. */
module Obfuscator {
  import opened PhpValues

  /** `str_repeat('*', strlen($value))`: the mask keeps the byte length of
      the value's string form and nothing else. */
  function Mask(v: Value): (r: Value)
    ensures r.Str? && |r.s| == ByteLength(Text(v))
    ensures forall i :: 0 <= i < |r.s| ==> r.s[i] == '*'
  {
    Str(Stars(ByteLength(Text(v))))
  }

  /** One value under its key: arrays are always walked into, never masked;
      any other value is masked when its key is denylisted. */
  function ObfuscateValue(key: string, v: Value, deny: seq<string>): (r: Value)
    requires Plain(v)
    ensures Plain(r)
    ensures v.Arr? <==> r.Arr?
    ensures v.Arr? ==> Keys(r.entries) == Keys(v.entries)
    ensures !v.Arr? && key in deny ==> r == Mask(v)
    ensures !v.Arr? && key !in deny ==> r == v
    decreases v, 1
  {
    match v
    case Arr(es) => Arr(GetObfuscatedData(es, deny))
    case _ => if key in deny then Mask(v) else v
  }

  /** `getObfuscatedData($payload)` with the denylist `deny`; the payload has
      already been normalised, so it holds no objects. */
  function GetObfuscatedData(es: seq<Entry>, deny: seq<string>): (r: seq<Entry>)
    requires PlainEntries(es)
    ensures Keys(r) == Keys(es)
    ensures PlainEntries(r)
    decreases es, 0
  {
    if es == [] then []
    else
      assert PlainEntries(es[1..]) by {
        forall i | 0 <= i < |es[1..]| ensures Plain(es[1..][i].val) { assert es[1..][i] == es[i + 1]; }
      }
      var rest := GetObfuscatedData(es[1..], deny);
      var r := [Entry(es[0].key, ObfuscateValue(es[0].key, es[0].val, deny))] + rest;
      assert r[1..] == rest;
      assert Keys(es) == [es[0].key] + Keys(es[1..]);
      r
  }

  /** Each pair of the result is the pair at the same position of the input,
      its value obfuscated on its own under its own key. */
  lemma {:induction false} ObfuscateEntryWise(es: seq<Entry>, deny: seq<string>)
    requires PlainEntries(es)
    ensures |GetObfuscatedData(es, deny)| == |es|
    ensures forall i :: 0 <= i < |es| ==>
      GetObfuscatedData(es, deny)[i] == Entry(es[i].key, ObfuscateValue(es[i].key, es[i].val, deny))
  {
    if es != [] {
      assert PlainEntries(es[1..]) by {
        forall i | 0 <= i < |es[1..]| ensures Plain(es[1..][i].val) { assert es[1..][i] == es[i + 1]; }
      }
      ObfuscateEntryWise(es[1..], deny);
      var r := GetObfuscatedData(es, deny);
      forall i | 0 <= i < |es|
        ensures r[i] == Entry(es[i].key, ObfuscateValue(es[i].key, es[i].val, deny))
      {
        if i > 0 { assert es[1..][i - 1] == es[i]; }
      }
    }
  }

  /** With nothing denylisted the payload is returned as it is. */
  lemma {:induction false} EmptyDenylistIsIdentity(es: seq<Entry>)
    requires PlainEntries(es)
    ensures GetObfuscatedData(es, []) == es
    decreases es, 0
  {
    if es != [] {
      assert PlainEntries(es[1..]) by {
        forall i | 0 <= i < |es[1..]| ensures Plain(es[1..][i].val) { assert es[1..][i] == es[i + 1]; }
      }
      EmptyDenylistIsIdentity(es[1..]);
      if es[0].val.Arr? {
        EmptyDenylistIsIdentity(es[0].val.entries);
      }
      assert [es[0]] + es[1..] == es;
    }
  }

  /** A key that occurs nowhere in the denylist is never masked, at any
      depth: obfuscation with a denylist disjoint from every key of the
      payload is the identity. */
  predicate KeysAvoid(es: seq<Entry>, deny: seq<string>)
    decreases es
  {
    forall i :: 0 <= i < |es| ==>
      es[i].key !in deny && (es[i].val.Arr? ==> KeysAvoid(es[i].val.entries, deny))
  }

  lemma {:induction false} UnlistedKeysUntouched(es: seq<Entry>, deny: seq<string>)
    requires PlainEntries(es) && KeysAvoid(es, deny)
    ensures GetObfuscatedData(es, deny) == es
    decreases es
  {
    if es != [] {
      assert PlainEntries(es[1..]) && KeysAvoid(es[1..], deny) by {
        forall i | 0 <= i < |es[1..]| ensures es[1..][i] == es[i + 1] { }
      }
      UnlistedKeysUntouched(es[1..], deny);
      if es[0].val.Arr? {
        UnlistedKeysUntouched(es[0].val.entries, deny);
      }
      assert [es[0]] + es[1..] == es;
    }
  }

  /** Every non-array value under a denylisted key, at any depth, is a run of
      `*` as long (in bytes) as the value it replaced. */
  predicate Masked(orig: seq<Entry>, res: seq<Entry>, deny: seq<string>)
    decreases orig
  {
    |orig| == |res| &&
    forall i :: 0 <= i < |orig| ==>
      res[i].key == orig[i].key &&
      (orig[i].val.Arr? ==> res[i].val.Arr? && Masked(orig[i].val.entries, res[i].val.entries, deny)) &&
      (!orig[i].val.Arr? && orig[i].key in deny ==>
        res[i].val.Str? && |res[i].val.s| == ByteLength(Text(orig[i].val)) &&
        forall j :: 0 <= j < |res[i].val.s| ==> res[i].val.s[j] == '*') &&
      (!orig[i].val.Arr? && orig[i].key !in deny ==> res[i].val == orig[i].val)
  }

  lemma {:induction false} ObfuscationMasks(es: seq<Entry>, deny: seq<string>)
    requires PlainEntries(es)
    ensures Masked(es, GetObfuscatedData(es, deny), deny)
    decreases es
  {
    ObfuscateEntryWise(es, deny);
    var r := GetObfuscatedData(es, deny);
    forall i | 0 <= i < |es| && es[i].val.Arr?
      ensures r[i].val.Arr? && Masked(es[i].val.entries, r[i].val.entries, deny)
    {
      ObfuscationMasks(es[i].val.entries, deny);
    }
  }

  /** A mask is a run of ASCII `*`, so masking it again gives it back. */
  lemma {:induction false} StarsByteLength(n: nat)
    ensures ByteLength(Stars(n)) == n
  {
    if n > 0 {
      assert Stars(n)[1..] == Stars(n - 1);
      StarsByteLength(n - 1);
    }
  }

  /** Obfuscating twice is obfuscating once. */
  lemma {:induction false} ObfuscateIdempotent(es: seq<Entry>, deny: seq<string>)
    requires PlainEntries(es)
    ensures GetObfuscatedData(GetObfuscatedData(es, deny), deny) == GetObfuscatedData(es, deny)
    decreases es
  {
    if es != [] {
      var r := GetObfuscatedData(es, deny);
      assert PlainEntries(es[1..]) by {
        forall i | 0 <= i < |es[1..]| ensures Plain(es[1..][i].val) { assert es[1..][i] == es[i + 1]; }
      }
      ObfuscateIdempotent(es[1..], deny);
      assert r[1..] == GetObfuscatedData(es[1..], deny);
      var v := es[0].val;
      if v.Arr? {
        ObfuscateIdempotent(v.entries, deny);
      } else if es[0].key in deny {
        StarsByteLength(ByteLength(Text(v)));
      }
      assert [r[0]] + r[1..] == r;
    }
  }
}
