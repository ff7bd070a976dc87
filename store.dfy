/**
 * The durable key-value store shared by the three services. A value is one of
 * the JSON shapes the services write. Writes may fail (`writable == false`
 * stands for a storage that rejects `set`); reads and removals always succeed.
 */
module Store {
  import opened ContaModel
  import opened UserModel

  /** A single preference value (`[key: string]: any` narrowed to the scalars used). */
  datatype PrefValue = PrefStr(s: string) | PrefBool(b: bool) | PrefNum(n: int)

  datatype Value =
    | ContasValue(contas: seq<Conta>)
    | UsersValue(users: seq<User>)
    | UserValue(user: User)
    | TokenValue(token: string)
    | PrefsValue(prefs: map<string, PrefValue>)

  /** JavaScript truthiness of a stored value: arrays and objects are truthy, a string unless empty. */
  predicate Truthy(v: Value) {
    match v
    case TokenValue(t) => t != ""
    case _ => true
  }

  class Storage {
    var data: map<string, Value>
    var writable: bool

    constructor (initial: map<string, Value>, writable: bool)
      ensures data == initial && this.writable == writable
    {
      data := initial;
      this.writable := writable;
    }

    /** `set(key, value)`: stores `v` under `key`, or fails and stores nothing. */
    method Set(key: string, v: Value) returns (ok: bool)
      modifies this`data
      ensures ok == writable
      ensures data == if ok then old(data)[key := v] else old(data)
    {
      ok := writable;
      if ok {
        data := data[key := v];
      }
    }

    /** `remove(key)`. */
    method Remove(key: string)
      modifies this`data
      ensures data == old(data) - {key}
    {
      data := data - {key};
    }
  }
}
