/** `Telemetry::getIndex`: the index a payload is filed under, from the
    application's resolver when one is bound, else from configuration. */
module IndexResolution {
  import opened Wrappers
  import opened PhpValues
  import opened Settings

  /** `getIndex($eventName, $payload)`. A bound value that is not a
      resolver, like a missing binding, falls back to the configured index,
      which the declared `string` return type converts (or rejects). A
      resolver's own exception passes through. */
  function GetIndex(binding: IndexBinding, configIndex: Value, eventName: string, payload: seq<Entry>)
    : (r: Result<string, Throwable>)
    ensures binding.Resolver? ==> r == binding.getIndex(eventName, payload)
    ensures r.Err? && !binding.Resolver? ==> r.error.cls == TypeError
  {
    match binding
    case Resolver(getIndex) => getIndex(eventName, payload)
    case _ => StringParam(configIndex, "Telemetry::getIndex(): Return value", "returned")
  }

  /** A bound resolver decides the index alone: the configured index plays
      no part. */
  lemma ResolverWins(getIndex: (string, seq<Entry>) -> Result<string, Throwable>, c1: Value, c2: Value,
                     eventName: string, payload: seq<Entry>)
    ensures GetIndex(Resolver(getIndex), c1, eventName, payload) == getIndex(eventName, payload)
    ensures GetIndex(Resolver(getIndex), c1, eventName, payload) == GetIndex(Resolver(getIndex), c2, eventName, payload)
  {
  }

  /** Without a usable resolver the index is the configured one, the same
      for every event and payload, whether nothing is bound or the binding
      is not a resolver. */
  lemma FallbackToConfig(binding: IndexBinding, configIndex: Value, e1: string, p1: seq<Entry>, e2: string, p2: seq<Entry>)
    requires !binding.Resolver?
    ensures GetIndex(binding, configIndex, e1, p1) == GetIndex(NoBinding, configIndex, e2, p2)
    ensures configIndex.Str? ==> GetIndex(binding, configIndex, e1, p1) == Ok(configIndex.s)
    ensures GetIndex(binding, configIndex, e1, p1).Ok? <==> configIndex.Bool? || configIndex.Int? || configIndex.Str?
  {
  }

  /** The resolver of the package's own tests: the event name, `::` and the
      payload's values joined with commas. */
  function JoiningResolver(eventName: string, payload: seq<Entry>): Result<string, Throwable> {
    Ok(eventName + "::" + Implode(",", seq(|payload|, i requires 0 <= i < |payload| => Text(payload[i].val))))
  }

  lemma JoiningResolverExample()
    ensures GetIndex(Resolver(JoiningResolver), Str("configured-index"), "the-event",
                     [Entry("0", Str("some")), Entry("1", Str("data"))])
            == Ok("the-event::some,data")
  {
    var p := [Entry("0", Str("some")), Entry("1", Str("data"))];
    var texts := seq(|p|, i requires 0 <= i < |p| => Text(p[i].val));
    assert texts == ["some", "data"];
    assert Implode(",", texts) == "some,data" by {
      assert texts[1..] == ["data"];
    }
    assert JoiningResolver("the-event", p) == Ok("the-event" + "::" + "some,data");
    assert "the-event" + "::" + "some,data" == "the-event::some,data";
  }
}
