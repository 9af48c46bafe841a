/** The sections `Telemetry::getRequestData` and `Telemetry::getUser` add to
    a payload, as functions of the builder's fields, the configuration and
    the ambient request and user. */
module Sections {
  import opened Wrappers
  import opened PhpValues
  import opened Settings

  // ---------------------------------------------------------------- request

  /** What `withRequestData` accepts: a flag, an array to use verbatim, or a
      request to read. The field is null (`None`) until it is called. */
  datatype RequestArg = Flag(b: bool) | Given(entries: seq<Entry>) | GivenRequest(request: Request)

  /** `empty($this->requestData)`. */
  predicate RequestDataEmpty(rd: Option<RequestArg>) {
    match rd
    case None => true
    case Some(Flag(b)) => !b
    case Some(Given(es)) => es == []
    case Some(GivenRequest(_)) => false
  }

  /** The configured names as the loops use them, each `trim`med. */
  function Trimmed(names: seq<string>): (r: seq<string>)
    ensures |r| == |names| && forall i :: 0 <= i < |names| ==> r[i] == Trim(names[i])
  {
    seq(|names|, i requires 0 <= i < |names| => Trim(names[i]))
  }

  lemma TrimmedSnoc(names: seq<string>)
    requires names != []
    ensures Trimmed(names) == Trimmed(names[..|names| - 1]) + [Trim(names[|names| - 1])]
  {
    var init := names[..|names| - 1];
    var a, b := Trimmed(names), Trimmed(init) + [Trim(names[|names| - 1])];
    forall i | 0 <= i < |a| ensures a[i] == b[i] {
      if i < |init| { assert init[i] == names[i]; }
    }
  }

  /** One wanted header: its values joined with commas when the request has
      it with at least one value. */
  function HeaderValue(headers: map<string, seq<string>>, name: string): Option<string> {
    if name in headers && headers[name] != [] then Some(Implode(",", headers[name])) else None
  }

  /** `$filteredHeaders` after the loop over the wanted header names. */
  function FilteredHeaders(names: seq<string>, headers: map<string, seq<string>>): seq<Entry>
    decreases |names|
  {
    if names == [] then []
    else
      var acc := FilteredHeaders(names[..|names| - 1], headers);
      var name := Trim(names[|names| - 1]);
      match HeaderValue(headers, name)
      case Some(v) => Put(acc, name, Str(v))
      case None => acc
  }

  /** The filtered headers hold exactly the trimmed wanted names the request
      has with a value, each once, each with its values joined by commas. */
  lemma {:induction false} FilteredHeadersContents(names: seq<string>, headers: map<string, seq<string>>)
    ensures var r := FilteredHeaders(names, headers);
      DistinctKeys(r) &&
      (forall k :: k in Keys(r) <==> k in Trimmed(names) && HeaderValue(headers, k).Some?) &&
      (forall k :: k in Keys(r) ==> Lookup(r, k) == Some(Str(HeaderValue(headers, k).value)))
    decreases |names|
  {
    if names != [] {
      var init := names[..|names| - 1];
      FilteredHeadersContents(init, headers);
      var acc := FilteredHeaders(init, headers);
      var name := Trim(names[|names| - 1]);
      var r := FilteredHeaders(names, headers);
      TrimmedSnoc(names);
      assert forall k :: k in Trimmed(names) <==> k in Trimmed(init) || k == name;
      match HeaderValue(headers, name) {
        case Some(v) =>
          assert r == Put(acc, name, Str(v));
          PutKeepsDistinct(acc, name, Str(v));
          assert forall k :: k in Keys(r) <==> k in Keys(acc) || k == name;
          forall k | k in Keys(r) ensures Lookup(r, k) == Some(Str(HeaderValue(headers, k).value)) {
            if k != name { assert Lookup(r, k) == Lookup(acc, k); }
          }
        case None =>
          assert r == acc;
      }
    }
  }

  /** The array built from a request: these six keys, in this order. */
  function RequestArray(req: Request, filtered: seq<Entry>): (r: seq<Entry>)
    ensures Keys(r) == ["uri", "method", "agent", "ip", "data", "headers"]
  {
    [Entry("uri", Str(req.fullUrl)),
     Entry("method", Str(req.httpMethod)),
     Entry("agent", match req.userAgent case Some(a) => Str(a) case None => Null),
     Entry("ip", match req.ip case Some(a) => Str(a) case None => Null),
     Entry("data", Arr(req.all)),
     Entry("headers", Arr(filtered))]
  }

  /** The request `getRequestData` reads when it reads one: the given
      request, else the current one. */
  function ChosenRequest(rd: Option<RequestArg>, current: Request): Request {
    if rd.Some? && rd.value.GivenRequest? then rd.value.request else current
  }

  /** The `request` section, or `None` when none is added. */
  function RequestSection(config: Config, rd: Option<RequestArg>, current: Request): Option<Value> {
    if Empty(config.requestIncluded) && RequestDataEmpty(rd) then None
    else if rd.Some? && rd.value.Given? && rd.value.entries != [] then Some(Arr(rd.value.entries))
    else
      var req := ChosenRequest(rd, current);
      Some(Arr(RequestArray(req, FilteredHeaders(config.requestHeaders, req.headers))))
  }

  /** No section exactly when both the configuration flag and the builder's
      field are empty; a non-empty array is used as it is; otherwise the
      section is the six-key request array. */
  lemma RequestSectionCases(config: Config, rd: Option<RequestArg>, current: Request)
    ensures RequestSection(config, rd, current).None? <==> Empty(config.requestIncluded) && RequestDataEmpty(rd)
    ensures rd.Some? && rd.value.Given? && rd.value.entries != [] ==>
      RequestSection(config, rd, current) == Some(Arr(rd.value.entries))
    ensures RequestSection(config, rd, current).Some? && !(rd.Some? && rd.value.Given? && rd.value.entries != []) ==>
      var s := RequestSection(config, rd, current).value;
      s.Arr? && Keys(s.entries) == ["uri", "method", "agent", "ip", "data", "headers"] &&
      Lookup(s.entries, "uri") == Some(Str(ChosenRequest(rd, current).fullUrl))
  {
  }

  /** `withRequestData(false)` does not leave the request out while the
      configuration includes it: the current request is read, as if the
      field were null or true. */
  lemma ExplicitFalseStillIncluded(config: Config, current: Request)
    requires !Empty(config.requestIncluded)
    ensures RequestSection(config, Some(Flag(false)), current) == RequestSection(config, None, current)
    ensures RequestSection(config, Some(Flag(false)), current) == RequestSection(config, Some(Flag(true)), current)
    ensures RequestSection(config, Some(Flag(false)), current).Some?
  {
  }

  // ---------------------------------------------------------------- user

  /** `$user->$name ?? null`: a readable property, else null (also when
      the user is not an object). */
  function Prop(user: Value, name: string): Value {
    if user.Obj? && name in user.props then user.props[name] else Null
  }

  /** `$data` after the loop over the configured attribute names. */
  function UserAttributes(names: seq<string>, user: Value): seq<Entry>
    decreases |names|
  {
    if names == [] then []
    else
      var name := Trim(names[|names| - 1]);
      Put(UserAttributes(names[..|names| - 1], user), name, Prop(user, name))
  }

  /** Every trimmed configured attribute is present once, with the user's
      value for it or null, and nothing else is. */
  lemma {:induction false} UserAttributesContents(names: seq<string>, user: Value)
    ensures var r := UserAttributes(names, user);
      DistinctKeys(r) &&
      (forall k :: k in Keys(r) <==> k in Trimmed(names)) &&
      (forall k :: k in Keys(r) ==> Lookup(r, k) == Some(Prop(user, k)))
    decreases |names|
  {
    if names != [] {
      var init := names[..|names| - 1];
      UserAttributesContents(init, user);
      var name := Trim(names[|names| - 1]);
      var acc := UserAttributes(init, user);
      var r := Put(acc, name, Prop(user, name));
      assert r == UserAttributes(names, user);
      PutKeepsDistinct(acc, name, Prop(user, name));
      TrimmedSnoc(names);
      assert forall k :: k in Keys(r) <==> k in Keys(acc) || k == name;
      forall k | k in Keys(r) ensures Lookup(r, k) == Some(Prop(user, k)) {
        if k != name { assert Lookup(r, k) == Lookup(acc, k); }
      }
    }
  }

  /** What the configured callback method returns when the user has it,
      else the empty array. */
  function CallbackData(callback: Value, user: Value): seq<Entry> {
    if !Empty(callback) && callback.Str? && user.Obj? && callback.s in user.methods
    then user.methods[callback.s]
    else []
  }

  /** The user `getUser` reads: the given one, or the authenticated one when
      the field is null. */
  function ResolvedUser(withUser: Value, authUser: Value): Value {
    if withUser.Null? then authUser else withUser
  }

  /** The `user` section as `getUser` would build it if `$data` started out
      as an empty array: the attributes, with the callback's array merged
      over them; `None` when nothing is added. */
  function UserSection(config: Config, withUser: Value, authUser: Value): Option<seq<Entry>> {
    if Empty(config.userIncluded) && withUser == Bool(false) then None
    else
      var user := ResolvedUser(withUser, authUser);
      if Empty(user) then None
      else
        var data := UserData(config, user);
        if data == [] then None else Some(data)
  }

  /** The attributes of `user`, with the callback's array merged over them. */
  function UserData(config: Config, user: Value): seq<Entry> {
    var attrs := UserAttributes(config.userAttributes, user);
    var callbackData := CallbackData(config.userCallback, user);
    if callbackData != [] then Merge(attrs, callbackData) else attrs
  }

  /** The message PHP 8 gives when `array_merge` receives null. */
  const MergeNullMessage: string := "array_merge(): Argument #1 must be of type array, null given"

  /** The warning PHP 8 gives when an undefined variable is read. */
  const UndefinedDataMessage: string := "Undefined variable $data"

  /** What reading the undefined `$data` into `array_merge` throws. PHP 8
      only warns on the read, and `array_merge` then rejects the null with a
      `TypeError`; under an error handler that turns warnings into
      `ErrorException`s (as Laravel's does) the read itself throws. */
  function UndefinedDataError(warningsThrow: bool): Throwable {
    if warningsThrow then Throwable(ErrorException, UndefinedDataMessage)
    else Throwable(TypeError, MergeNullMessage)
  }

  /** The `user` section as the source builds it: `$data` is only assigned
      inside the attribute loop, so with no configured attributes it is
      undefined when a non-empty callback result is merged into it, and
      the merge throws (see `UndefinedDataError`). */
  function UserSectionAsWritten(config: Config, withUser: Value, authUser: Value, warningsThrow: bool)
    : Result<Option<seq<Entry>>, Throwable>
  {
    if Empty(config.userIncluded) && withUser == Bool(false) then Ok(None)
    else
      var user := ResolvedUser(withUser, authUser);
      if Empty(user) then Ok(None)
      else
        var data: Option<seq<Entry>> :=
          if config.userAttributes == [] then None else Some(UserAttributes(config.userAttributes, user));
        var callbackData := CallbackData(config.userCallback, user);
        if callbackData != [] && data.None? then Err(UndefinedDataError(warningsThrow))
        else
          var merged := if callbackData != [] then Some(Merge(data.value, callbackData)) else data;
          if merged.None? || merged.value == [] then Ok(None) else Ok(merged)
  }

  /** The source and the corrected section agree except in one case: no
      configured attributes and a non-empty callback result, where the
      source throws. */
  lemma AsWrittenAgreesElsewhere(config: Config, withUser: Value, authUser: Value, warningsThrow: bool)
    ensures var w := UserSectionAsWritten(config, withUser, authUser, warningsThrow);
      var user := ResolvedUser(withUser, authUser);
      (w.Err? <==> !(Empty(config.userIncluded) && withUser == Bool(false)) && !Empty(user) &&
                   config.userAttributes == [] && CallbackData(config.userCallback, user) != []) &&
      (w.Err? ==> w.error == UndefinedDataError(warningsThrow)) &&
      (w.Ok? ==> w.value == UserSection(config, withUser, authUser))
  {
  }

  /** An input that shows the difference: no attributes, and a user whose
      callback returns `['plan' => 'pro']`. Under Laravel's error handler
      the code throws an `Exception` (which `fire` logs); without it, a
      `TypeError` (which escapes `fire`). */
  lemma MergeIntoUndefinedData()
    ensures var user := Obj("User", Capabilities(false, false, None, None), [], [], map[],
                            map["context" := [Entry("plan", Str("pro"))]]);
      var config := DefaultConfig(Str("production"), Null, Str("default"), Str("telemetry"))
                      .(userAttributes := [], userCallback := Str("context"));
      UserSectionAsWritten(config, Null, user, true) == Err(Throwable(ErrorException, UndefinedDataMessage)) &&
      UserSectionAsWritten(config, Null, user, true).error.IsException() &&
      UserSectionAsWritten(config, Null, user, false) == Err(Throwable(TypeError, MergeNullMessage)) &&
      !UserSectionAsWritten(config, Null, user, false).error.IsException() &&
      UserSection(config, Null, user) == Some([Entry("plan", Str("pro"))])
  {
  }

  /** `withUserData(false)` never yields a user section. */
  lemma ExplicitFalseNoUser(config: Config, authUser: Value)
    ensures UserSection(config, Bool(false), authUser).None?
  {
  }

  /** The configuration's `included` flag changes nothing: when it is empty
      the section is left out only for `withUserData(false)`, which leaves
      it out anyway, since false is empty. */
  lemma UserIncludedFlagIrrelevant(config: Config, included: Value, withUser: Value, authUser: Value)
    ensures UserSection(config, withUser, authUser) == UserSection(config.(userIncluded := included), withUser, authUser)
  {
  }

  /** A section, when added, holds every trimmed configured attribute (with
      the user's value or null) unless the callback's array overrides it,
      and the callback's value for every key it returns. */
  lemma UserSectionContents(config: Config, withUser: Value, authUser: Value)
    requires UserSection(config, withUser, authUser).Some?
    requires DistinctKeys(CallbackData(config.userCallback, ResolvedUser(withUser, authUser)))
    ensures var data := UserSection(config, withUser, authUser).value;
      var user := ResolvedUser(withUser, authUser);
      var callbackData := CallbackData(config.userCallback, user);
      !Empty(user) &&
      (forall k :: k in Trimmed(config.userAttributes) ==> k in Keys(data)) &&
      (forall k :: k in Trimmed(config.userAttributes) && k !in Keys(callbackData) ==>
         Lookup(data, k) == Some(Prop(user, k))) &&
      (forall k :: k in Keys(callbackData) ==> Lookup(data, k) == Lookup(callbackData, k))
  {
    var user := ResolvedUser(withUser, authUser);
    var attrs := UserAttributes(config.userAttributes, user);
    var callbackData := CallbackData(config.userCallback, user);
    UserAttributesContents(config.userAttributes, user);
    var data := UserSection(config, withUser, authUser).value;
    forall k | k in Keys(callbackData) ensures Lookup(data, k) == Lookup(callbackData, k) {
      MergeSecondWins(attrs, callbackData, k);
    }
  }
}
