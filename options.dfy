/** The host's key/value options table, restricted to what the plugin uses:
    get_option with a default, add_option (create if absent) and
    update_option (upsert). Values are integers: the plugin only ever stores
    and compares Unix timestamps and counts. */
module WpOptions {

  type Table = map<string, int>

  /** get_option(name, default): the stored value, or default when the name is absent. */
  function Get(t: Table, name: string, default: int): (v: int)
    ensures name in t ==> v == t[name]
    ensures name !in t ==> v == default
  {
    if name in t then t[name] else default
  }

  /** add_option(name, value): creates the option only if it does not exist yet. */
  function Add(t: Table, name: string, value: int): (r: Table)
    ensures r.Keys == t.Keys + {name}
    ensures forall k :: k in t ==> r[k] == t[k]
    ensures name !in t ==> r[name] == value
  {
    if name in t then t else t[name := value]
  }

  /** update_option(name, value): writes the value, creating the option when absent. */
  function Update(t: Table, name: string, value: int): (r: Table)
    ensures r.Keys == t.Keys + {name}
    ensures r[name] == value
    ensures forall k :: k in t && k != name ==> r[k] == t[k]
  {
    t[name := value]
  }

  /** Reading back what was just written gives the written value, whatever default is passed. */
  lemma GetAfterUpdate(t: Table, name: string, value: int, default: int)
    ensures Get(Update(t, name, value), name, default) == value
  {
  }

  /** Adding never changes what any existing option reads as. */
  lemma AddKeepsExisting(t: Table, name: string, value: int, other: string, default: int)
    requires other in t
    ensures Get(Add(t, name, value), other, default) == Get(t, other, default)
  {
  }

  /** The options table as a mutable object, the way the plugin sees the host's global table. */
  class Options {
    var table: Table

    constructor (initial: Table)
      ensures table == initial
    {
      table := initial;
    }

    method GetOption(name: string, default: int) returns (v: int)
      ensures v == Get(table, name, default)
    {
      if name in table {
        v := table[name];
      } else {
        v := default;
      }
    }

    method AddOption(name: string, value: int)
      modifies this
      ensures table == Add(old(table), name, value)
    {
      if name !in table {
        table := table[name := value];
      }
    }

    method UpdateOption(name: string, value: int)
      modifies this
      ensures table == Update(old(table), name, value)
    {
      table := table[name := value];
    }
  }
}
