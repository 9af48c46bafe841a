/** `RedisTransport`: the built-in transport, which pushes the JSON-encoded
    payload onto a Redis list. */
module RedisTransports {
  import opened Wrappers
  import opened PhpValues
  import Json

  /** A Redis list: the connection it lives on (null for the default one)
      and its key. */
  datatype ListKey = ListKey(connection: Option<string>, queue: string)

  /** A Redis list, a missing key reading as the empty list. */
  function ListOf(lists: map<ListKey, seq<string>>, k: ListKey): seq<string> {
    if k in lists then lists[k] else []
  }

  /** The Redis servers the application reaches, as the lists they hold. */
  class RedisServer {
    var lists: map<ListKey, seq<string>>

    constructor ()
      ensures lists == map[]
    {
      lists := map[];
    }

    /** The list under `k`; a missing key reads as the empty list. */
    function List(k: ListKey): seq<string>
      reads this
    {
      ListOf(lists, k)
    }

    /** `RPUSH k item`: appends and answers the new length. */
    method RPush(k: ListKey, item: string) returns (len: int)
      modifies this
      ensures lists == old(lists)[k := old(List(k)) + [item]]
      ensures len == |old(List(k))| + 1
    {
      lists := lists[k := List(k) + [item]];
      len := |lists[k]|;
    }
  }

  const InvalidConnection: string := "Invalid redis connection"
  const InvalidQueue: string := "Invalid redis queue"

  /** The transport's two constructor-set fields; nothing assigns them
      afterwards, so the transport is a value. */
  datatype RedisTransport = RedisTransport(connection: Option<string>, queue: Option<string>) {

    /** `validateConnection()`: the connection is checked before the
        queue; either one empty in PHP's sense (null, "" or "0") throws a
        `RedisConnectionException`. */
    function ValidateConnection(): (r: Option<Throwable>)
      ensures r.None? <==> !EmptyOptString(connection) && !EmptyOptString(queue)
      ensures EmptyOptString(connection) ==> r == Some(Throwable(RedisConnectionException, InvalidConnection))
      ensures !EmptyOptString(connection) && EmptyOptString(queue) ==>
        r == Some(Throwable(RedisConnectionException, InvalidQueue))
    {
      if EmptyOptString(connection) then Some(Throwable(RedisConnectionException, InvalidConnection))
      else if EmptyOptString(queue) then Some(Throwable(RedisConnectionException, InvalidQueue))
      else None
    }

    /** The list `publish` pushes onto: `queue` on `connection` (a null
        queue is passed to Redis as ""). */
    function Target(): ListKey {
      ListKey(connection, queue.GetOr(""))
    }

    /** What `publish($payload)` answers on lists `lists`, and the lists
        afterwards: `json_encode($payload)` is pushed onto the target list,
        and the list's new length is the answer. */
    function Pushed(payload: seq<Entry>, lists: map<ListKey, seq<string>>): (Value, map<ListKey, seq<string>>)
      requires PlainEntries(payload)
    {
      var before := ListOf(lists, Target());
      (Int(|before| + 1), lists[Target() := before + [Json.Serialize(Arr(payload))]])
    }

    /** `publish($payload)`: one push of `json_encode($payload)`, whose
        answer (the list's new length) is returned as it is. */
    method Publish(server: RedisServer, payload: seq<Entry>) returns (r: Value)
      requires PlainEntries(payload)
      modifies server
      ensures (r, server.lists) == Pushed(payload, old(server.lists))
    {
      var len := server.RPush(Target(), Json.Serialize(Arr(payload)));
      r := Int(len);
    }
  }

  /** Validation passes exactly when both fields are non-empty, and an empty
      connection is reported whatever the queue holds. */
  lemma ConnectionCheckedFirst(t: RedisTransport, q: Option<string>)
    requires EmptyOptString(t.connection)
    ensures t.ValidateConnection() == t.(queue := q).ValidateConnection()
  {
  }

  /** The two cases of the package's tests, a transport built without
      arguments and one built with a connection only, then a `"0"`
      connection (empty to PHP) and a valid pair. */
  lemma ValidationExamples()
    ensures RedisTransport(None, None).ValidateConnection() == Some(Throwable(RedisConnectionException, InvalidConnection))
    ensures RedisTransport(Some("the-connection"), None).ValidateConnection()
      == Some(Throwable(RedisConnectionException, InvalidQueue))
    ensures RedisTransport(Some("0"), Some("q")).ValidateConnection() == Some(Throwable(RedisConnectionException, InvalidConnection))
    ensures RedisTransport(Some("default"), Some("telemetry")).ValidateConnection().None?
  {
  }
}
