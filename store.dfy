/** The remote key-value store as the code uses it through
    `StringRedisTemplate`: string values with an optional time-to-live, and
    lists. Each method is one Redis command and is atomic. */
module Store {
  import opened Common

  /** A string value and the TTL it was written with (`None`: no expiry). */
  datatype Entry = Entry(value: string, ttl: Option<Ttl>)

  datatype ListEntry = ListEntry(items: seq<string>, ttl: Option<Ttl>)

  /** A server-side Lua script called with one key and one argument: its
      effect on the string keys and its numeric reply, as one atomic step. */
  type Script = (map<string, Entry>, string, string) -> (map<string, Entry>, int)

  class Redis {
    var strings: map<string, Entry>
    var lists: map<string, ListEntry>

    constructor ()
      ensures strings == map[] && lists == map[]
    {
      strings, lists := map[], map[];
    }

    /** GET: null when the key is absent. */
    method Get(key: string) returns (s: Option<string>)
      ensures s == if key in strings then Some(strings[key].value) else None
    {
      s := if key in strings then Some(strings[key].value) else None;
    }

    /** SET without expiry (also drops a TTL the key had). */
    method Set(key: string, value: string)
      modifies this`strings
      ensures strings == old(strings)[key := Entry(value, None)]
    {
      strings := strings[key := Entry(value, None)];
    }

    /** SET with EX/PX. */
    method SetWithTtl(key: string, value: string, ttl: Ttl)
      modifies this`strings
      ensures strings == old(strings)[key := Entry(value, Some(ttl))]
    {
      strings := strings[key := Entry(value, Some(ttl))];
    }

    /** SET NX with a TTL: writes only when the key is absent and says so. */
    method SetIfAbsent(key: string, value: string, ttl: Ttl) returns (written: bool)
      modifies this`strings
      ensures written <==> key !in old(strings)
      ensures strings == if written then old(strings)[key := Entry(value, Some(ttl))] else old(strings)
    {
      written := key !in strings;
      if written {
        strings := strings[key := Entry(value, Some(ttl))];
      }
    }

    /** DEL of a string key. */
    method Delete(key: string) returns (deleted: bool)
      modifies this`strings
      ensures deleted <==> key in old(strings)
      ensures strings == old(strings) - {key}
    {
      deleted := key in strings;
      strings := strings - {key};
    }

    /** LRANGE key 0 -1: the whole list, empty when the key is absent. */
    method Range(key: string) returns (items: seq<string>)
      ensures items == if key in lists then lists[key].items else []
    {
      items := if key in lists then lists[key].items else [];
    }

    /** RPUSH of several values: appended in order at the tail. */
    method RightPushAll(key: string, values: seq<string>) returns (length: nat)
      modifies this`lists
      ensures lists == old(lists)[key := if key in old(lists)
                                         then ListEntry(old(lists)[key].items + values, old(lists)[key].ttl)
                                         else ListEntry(values, None)]
      ensures length == |lists[key].items|
    {
      var entry := if key in lists then ListEntry(lists[key].items + values, lists[key].ttl)
                   else ListEntry(values, None);
      lists := lists[key := entry];
      length := |entry.items|;
    }

    /** EXPIRE: sets the TTL of an existing key, whatever it holds. */
    method Expire(key: string, ttl: Ttl) returns (set_: bool)
      modifies this
      ensures set_ <==> key in old(lists) || key in old(strings)
      ensures lists == if key in old(lists) then old(lists)[key := old(lists)[key].(ttl := Some(ttl))] else old(lists)
      ensures strings == if key !in old(lists) && key in old(strings)
                         then old(strings)[key := old(strings)[key].(ttl := Some(ttl))] else old(strings)
    {
      set_ := true;
      if key in lists {
        lists := lists[key := lists[key].(ttl := Some(ttl))];
      } else if key in strings {
        strings := strings[key := strings[key].(ttl := Some(ttl))];
      } else {
        set_ := false;
      }
    }

    /** EVAL of a script on one key with one argument. */
    method Eval(script: Script, key: string, arg: string) returns (reply: int)
      modifies this`strings
      ensures (strings, reply) == script(old(strings), key, arg)
    {
      var outcome := script(strings, key, arg);
      strings := outcome.0;
      reply := outcome.1;
    }
  }
}
