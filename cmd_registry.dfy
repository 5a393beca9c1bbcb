/**
  The name registries of the console in source/cmd.c: aliases, commands
  and macros. Each C registry keeps its entries twice, on a list in
  definition order (for listing) and on hash chains (for lookup). Here a
  registry is the list, a sequence of named entries, and the hash index
  is a map from name to value that has to stay consistent with it.
 */
module CmdRegistry {
  import opened CmdText
  import opened CmdExpand

  /** A named registry entry: an alias and its text, a command and its
      handler (none for a placeholder), or a macro and the text it
      formats. */
  datatype Entry<V> = Entry(name: string, value: V)

  /** Position of the first entry called `name`, or |list|. */
  function Find<V>(list: seq<Entry<V>>, name: string): (k: nat)
    ensures k <= |list|
    ensures k < |list| ==> list[k].name == name
    ensures forall j :: 0 <= j < k ==> list[j].name != name
  {
    if list == [] then 0
    else if list[0].name == name then 0
    else Find(list[1..], name) + 1
  }

  function Lookup<V>(list: seq<Entry<V>>, name: string): Option<V> {
    var k := Find(list, name);
    if k < |list| then Some(list[k].value) else None
  }

  predicate Distinct<V>(list: seq<Entry<V>>) {
    forall i, j :: 0 <= i < j < |list| ==> list[i].name != list[j].name
  }

  function Names<V>(list: seq<Entry<V>>): set<string> {
    set k | 0 <= k < |list| :: list[k].name
  }

  /** The hash index holds exactly the listed names, each with its
      listed value. */
  ghost predicate Indexed<V>(list: seq<Entry<V>>, index: map<string, V>) {
    Distinct(list) && index.Keys == Names(list) &&
    forall k :: 0 <= k < |list| ==> index[list[k].name] == list[k].value
  }

  /** Defines `name`: an existing entry gets the new value where it
      stands, a new one goes to the end of the list. */
  function Define<V>(list: seq<Entry<V>>, name: string, value: V): seq<Entry<V>> {
    var k := Find(list, name);
    if k < |list| then list[k := Entry(name, value)] else list + [Entry(name, value)]
  }

  /** Deletes the entry called `name`, when there is one. */
  function Delete<V>(list: seq<Entry<V>>, name: string): seq<Entry<V>> {
    var k := Find(list, name);
    if k < |list| then list[..k] + list[k + 1..] else list
  }

  /** The walk of a registry list: the position of the first entry called
      `name`, or the length of the list. */
  method FindEntry<V>(list: seq<Entry<V>>, name: string) returns (k: nat)
    ensures k == Find(list, name)
  {
    k := 0;
    while k < |list| && list[k].name != name
      invariant k <= |list|
      invariant forall j :: 0 <= j < k ==> list[j].name != name
    {
      k := k + 1;
    }
    FindFirst(list, name, k);
  }

  // -----------------------------------------------------------------------
  // Lookups after a change

  lemma LookupIndexed<V>(list: seq<Entry<V>>, index: map<string, V>, name: string)
    requires Indexed(list, index)
    ensures Lookup(list, name) == if name in index then Some(index[name]) else None
  {
    var k := Find(list, name);
    if name in index {
      var j :| 0 <= j < |list| && list[j].name == name;
      assert k <= j;
    }
  }

  /** Find is the first match. */
  lemma FindFirst<V>(list: seq<Entry<V>>, name: string, k: nat)
    requires k <= |list| && (k < |list| ==> list[k].name == name)
    requires forall j :: 0 <= j < k ==> list[j].name != name
    ensures Find(list, name) == k
  {
  }

  /** After a definition the name stands for the new value, and every
      other name for what it stood for before. */
  lemma LookupAfterDefine<V>(list: seq<Entry<V>>, name: string, value: V, other: string)
    ensures Lookup(Define(list, name, value), name) == Some(value)
    ensures other != name ==> Lookup(Define(list, name, value), other) == Lookup(list, other)
  {
    var k := Find(list, name);
    var r := Define(list, name, value);
    FindFirst(r, name, k);
    if other != name {
      var j := Find(list, other);
      if j < |list| || k < |list| {
        FindFirst(r, other, j);
      } else {
        FindFirst(r, other, |r|);
      }
    }
  }

  /** Redefining an existing name adds no entry; a new name adds one. */
  lemma DefineLength<V>(list: seq<Entry<V>>, name: string, value: V)
    ensures |Define(list, name, value)| == |list| + (if Lookup(list, name).Some? then 0 else 1)
  {
  }

  /** Definitions keep the index consistent. */
  lemma DefineIndexed<V>(list: seq<Entry<V>>, index: map<string, V>, name: string, value: V)
    requires Indexed(list, index)
    ensures Indexed(Define(list, name, value), index[name := value])
  {
    var k := Find(list, name);
    var r := Define(list, name, value);
    if k < |list| {
      assert Names(r) == Names(list) by {
        forall n | n in Names(list) ensures n in Names(r) {
          var j :| 0 <= j < |list| && list[j].name == n;
          assert r[j].name == n;
        }
      }
    } else {
      assert name !in Names(list);
      assert Names(r) == Names(list) + {name} by {
        forall n | n in Names(list) ensures n in Names(r) {
          var j :| 0 <= j < |list| && list[j].name == n;
          assert r[j].name == n;
        }
        assert r[|list|].name == name;
      }
    }
  }

  /** After a deletion the name is gone and every other name keeps its
      value. */
  lemma LookupAfterDelete<V>(list: seq<Entry<V>>, name: string, other: string)
    requires Distinct(list)
    ensures Lookup(Delete(list, name), name) == None
    ensures other != name ==> Lookup(Delete(list, name), other) == Lookup(list, other)
  {
    var k := Find(list, name);
    var r := Delete(list, name);
    if k < |list| {
      Shifted(list, k, r);
      FindFirst(r, name, |r|);
      if other != name {
        var j := Find(list, other);
        if j < k {
          FindFirst(r, other, j);
        } else {
          FindFirst(r, other, j - 1);
        }
      }
    }
  }

  /** Deletions keep the index consistent. */
  lemma DeleteIndexed<V>(list: seq<Entry<V>>, index: map<string, V>, name: string)
    requires Indexed(list, index)
    ensures Indexed(Delete(list, name), index - {name})
  {
    var k := Find(list, name);
    if k < |list| {
      var r := Delete(list, name);
      Shifted(list, k, r);
      DeletedNames(list, k, r);
    }
  }

  /** The removal of `name` from a list and its hash index, as
      Cmd_RemoveCommand and Cmd_UnAlias_f do it: a hash lookup, then the
      entry is unlinked from both. Nothing changes when the name is not
      there. */
  method RemoveEntry<V>(list: seq<Entry<V>>, index: map<string, V>, name: string)
      returns (list': seq<Entry<V>>, index': map<string, V>, removed: bool)
    requires Indexed(list, index)
    ensures Indexed(list', index')
    ensures removed <==> Lookup(list, name).Some?
    ensures list' == Delete(list, name) && index' == index - {name}
    ensures Lookup(list', name) == None
    ensures forall other :: other != name ==> Lookup(list', other) == Lookup(list, other)
  {
    LookupIndexed(list, index, name);
    removed := name in index;
    list', index' := list, index;
    if removed {
      var k := FindEntry(list, name);
      list' := list[..k] + list[k + 1..];
      index' := index - {name};
    }
    assert list' == Delete(list, name) && index' == index - {name};
    DeleteIndexed(list, index, name);
    forall other {
      LookupAfterDelete(list, name, other);
    }
  }

  /** The definition of `name` in a list and its hash index: an existing
      entry gets the new value where it stands, a new one is appended and
      entered in the index. */
  method DefineEntry<V>(list: seq<Entry<V>>, index: map<string, V>, name: string, value: V)
      returns (list': seq<Entry<V>>, index': map<string, V>)
    requires Indexed(list, index)
    ensures Indexed(list', index')
    ensures list' == Define(list, name, value) && index' == index[name := value]
    ensures Lookup(list', name) == Some(value)
    ensures |list'| == |list| + (if Lookup(list, name).Some? then 0 else 1)
    ensures forall other :: other != name ==> Lookup(list', other) == Lookup(list, other)
  {
    LookupIndexed(list, index, name);
    DefineIndexed(list, index, name, value);
    DefineLength(list, name, value);
    forall other {
      LookupAfterDefine(list, name, value, other);
    }
    if name in index {
      var k := FindEntry(list, name);
      list' := list[k := Entry(name, value)];
    } else {
      list' := list + [Entry(name, value)];
    }
    index' := index[name := value];
  }

  lemma DeletedNames<V>(list: seq<Entry<V>>, k: nat, r: seq<Entry<V>>)
    requires Distinct(list) && k < |list| && |r| == |list| - 1
    requires forall j :: 0 <= j < |r| ==> r[j] == list[if j < k then j else j + 1]
    ensures Distinct(r) && Names(r) == Names(list) - {list[k].name}
  {
    forall n | n in Names(list) - {list[k].name} ensures n in Names(r) {
      var j :| 0 <= j < |list| && list[j].name == n;
      assert r[if j < k then j else j - 1].name == n;
    }
  }

  /** The entries after a deleted one move down by one. */
  lemma Shifted<V>(list: seq<Entry<V>>, k: nat, r: seq<Entry<V>>)
    requires k < |list| && r == list[..k] + list[k + 1..]
    ensures |r| == |list| - 1
    ensures forall j :: 0 <= j < |r| ==> r[j] == list[if j < k then j else j + 1]
  {
  }

  // -----------------------------------------------------------------------
  // Commands and macros

  /** A command's function. The console's own commands are named; the
      commands other subsystems register are told apart by a number. */
  datatype Handler =
    | CmdList | MacroList | Exec | Echo | ColoredEcho
    | AliasCmd | UnaliasCmd | Wait | Text | Complete
    | External(id: nat)

  /** A command entry: its handler, or none for a placeholder that
      `complete` created. */
  type Commands = seq<Entry<Option<Handler>>>

  /** The outcome of a registration. */
  datatype Registration = Added | Filled | RefusedCvar | RefusedExists

  /** A variable that is neither user-created nor volatile claims its name
      against commands and macros. */
  predicate ClaimedByCvar(cvars: map<string, Cvar>, name: string) {
    name in cvars && !cvars[name].custom && !cvars[name].volatile
  }

  datatype Registered<V> = Registered(list: seq<Entry<V>>, result: Registration)

  /** Cmd_RegCommand: refused for a name a variable claims or a command
      that has a handler; a placeholder gets the handler where it stands;
      a new name is appended. */
  function RegCommand(cmds: Commands, cvars: map<string, Cvar>, name: string, h: Handler)
    : Registered<Option<Handler>>
  {
    if ClaimedByCvar(cvars, name) then Registered(cmds, RefusedCvar)
    else
      var found: Option<Option<Handler>> := Lookup(cmds, name);
      if found.None? then Registered(Define(cmds, name, Some(h)), Added)
      else if found.value.Some? then Registered(cmds, RefusedExists)
      else Registered(Define(cmds, name, Some(h)), Filled)
  }

  /** Cmd_RegCommand on the command list and its hash index: the hash
      lookup decides, then the placeholder is filled where it stands or a
      new entry is appended. */
  method RegisterCommand(cmds: Commands, index: map<string, Option<Handler>>, cvars: map<string, Cvar>,
                         name: string, h: Handler)
      returns (cmds': Commands, index': map<string, Option<Handler>>, result: Registration)
    requires Indexed(cmds, index)
    ensures Indexed(cmds', index')
    ensures Registered(cmds', result) == RegCommand(cmds, cvars, name, h)
  {
    LookupIndexed(cmds, index, name);
    if ClaimedByCvar(cvars, name) {
      cmds', index', result := cmds, index, RefusedCvar;
    } else if name in index && index[name].Some? {
      cmds', index', result := cmds, index, RefusedExists;
    } else {
      cmds', index' := DefineEntry(cmds, index, name, Some(h));
      result := if name in index then Filled else Added;
    }
  }

  /** Cmd_Complete_f's registration: a placeholder for a name that is no
      variable (of any kind) and no command yet. */
  function AddPlaceholder(cmds: Commands, cvars: map<string, Cvar>, name: string)
    : Registered<Option<Handler>>
  {
    if name in cvars then Registered(cmds, RefusedCvar)
    else if Lookup(cmds, name).Some? then Registered(cmds, RefusedExists)
    else Registered(Define(cmds, name, None), Added)
  }

  /** Cmd_Complete_f on the command list and its hash index: refused for a
      variable's name, then for a name the hash lookup finds; otherwise a
      placeholder is appended. */
  method PlaceholderEntry(cmds: Commands, index: map<string, Option<Handler>>, cvars: map<string, Cvar>,
                          name: string)
      returns (cmds': Commands, index': map<string, Option<Handler>>, result: Registration)
    requires Indexed(cmds, index)
    ensures Indexed(cmds', index')
    ensures Registered(cmds', result) == AddPlaceholder(cmds, cvars, name)
  {
    LookupIndexed(cmds, index, name);
    if name in cvars {
      cmds', index', result := cmds, index, RefusedCvar;
    } else if name in index {
      cmds', index', result := cmds, index, RefusedExists;
    } else {
      cmds', index' := DefineEntry(cmds, index, name, None);
      result := Added;
    }
  }

  /** Cmd_AddMacro: refused for a name a variable claims or an existing
      macro; otherwise the macro goes to the front of the list. */
  function AddMacro(macros: seq<Entry<string>>, cvars: map<string, Cvar>, name: string, text: string)
    : Registered<string>
  {
    if ClaimedByCvar(cvars, name) then Registered(macros, RefusedCvar)
    else if Lookup(macros, name).Some? then Registered(macros, RefusedExists)
    else Registered([Entry(name, text)] + macros, Added)
  }

  /** A command registration either refuses and changes nothing, or makes
      `name` run `h` and leaves every other name as it was; filling a
      placeholder adds no entry. */
  lemma RegCommandEffect(cmds: Commands, cvars: map<string, Cvar>, name: string, h: Handler, other: string)
    ensures var r := RegCommand(cmds, cvars, name, h);
            (r.result == RefusedCvar <==> ClaimedByCvar(cvars, name)) &&
            (r.result == RefusedExists <==>
               !ClaimedByCvar(cvars, name) && Lookup(cmds, name).Some? && Lookup(cmds, name).value.Some?) &&
            (r.result == Filled <==> !ClaimedByCvar(cvars, name) && Lookup(cmds, name) == Some(None)) &&
            (r.result in {RefusedCvar, RefusedExists} ==> r.list == cmds) &&
            (r.result in {Added, Filled} ==>
               Lookup(r.list, name) == Some(Some(h)) &&
               (other != name ==> Lookup(r.list, other) == Lookup(cmds, other))) &&
            (r.result == Filled ==> |r.list| == |cmds|)
  {
    LookupAfterDefine(cmds, name, Some(h), other);
    DefineLength(cmds, name, Some(h));
  }

  /** `complete` adds a placeholder only for a fresh name. */
  lemma PlaceholderEffect(cmds: Commands, cvars: map<string, Cvar>, name: string, other: string)
    ensures var r := AddPlaceholder(cmds, cvars, name);
            (r.result == Added <==> name !in cvars && Lookup(cmds, name).None?) &&
            (r.result == Added ==>
               Lookup(r.list, name) == Some(None) && |r.list| == |cmds| + 1 &&
               (other != name ==> Lookup(r.list, other) == Lookup(cmds, other))) &&
            (r.result != Added ==> r.list == cmds)
  {
    LookupAfterDefine(cmds, name, None, other);
    DefineLength(cmds, name, None);
  }

  /** Where Cmd_ExecuteString sends a line whose first token is a name. */
  datatype Route = ToCommand(h: Handler) | ToPlaceholder | ToAlias(text: string) | ToCvar | ToServer

  /** The dispatch order: a command (its handler, or forwarding for a
      placeholder), then an alias, then a variable, then the server. */
  function RouteOf(cmds: Commands, aliases: seq<Entry<string>>, cvars: map<string, Cvar>, name: string)
    : (r: Route)
    ensures (r.ToCommand? || r.ToPlaceholder?) <==> Lookup(cmds, name).Some?
    ensures r.ToCommand? ==> Lookup(cmds, name) == Some(Some(r.h))
    ensures r.ToAlias? <==> Lookup(cmds, name).None? && Lookup(aliases, name).Some?
    ensures r.ToAlias? ==> Lookup(aliases, name) == Some(r.text)
    ensures r.ToCvar? <==> Lookup(cmds, name).None? && Lookup(aliases, name).None? && name in cvars
  {
    var c: Option<Option<Handler>> := Lookup(cmds, name);
    if c.Some? then (if c.value.Some? then ToCommand(c.value.value) else ToPlaceholder)
    else
      var a := Lookup(aliases, name);
      if a.Some? then ToAlias(a.value)
      else if name in cvars then ToCvar
      else ToServer
  }

  /** An alias defined under a name that no command has is what that name
      then runs. */
  lemma AliasReachable(cmds: Commands, aliases: seq<Entry<string>>, cvars: map<string, Cvar>,
                       name: string, text: string)
    requires Lookup(cmds, name).None?
    ensures RouteOf(cmds, Define(aliases, name, text), cvars, name) == ToAlias(text)
  {
    LookupAfterDefine(aliases, name, text, name);
  }

  /** A registered command takes the name over from an alias. */
  lemma CommandShadowsAlias(cmds: Commands, aliases: seq<Entry<string>>, cvars: map<string, Cvar>,
                            name: string, h: Handler)
    requires RegCommand(cmds, cvars, name, h).result in {Added, Filled}
    ensures RouteOf(RegCommand(cmds, cvars, name, h).list, aliases, cvars, name) == ToCommand(h)
  {
    LookupAfterDefine(cmds, name, Some(h), name);
  }

  /** A new macro is found under its name and is listed first; the names
      stay distinct. */
  lemma AddMacroEffect(macros: seq<Entry<string>>, cvars: map<string, Cvar>, name: string, text: string)
    requires Distinct(macros)
    ensures var r := AddMacro(macros, cvars, name, text);
            Distinct(r.list) &&
            (r.result == Added <==> !ClaimedByCvar(cvars, name) && Lookup(macros, name).None?) &&
            (r.result == Added ==> Lookup(r.list, name) == Some(text) && r.list[1..] == macros) &&
            (r.result != Added ==> r.list == macros)
  {
    var r := AddMacro(macros, cvars, name, text);
    if r.result == Added {
      FindFirst(r.list, name, 0);
      assert r.list[1..] == macros;
      assert forall j :: 0 <= j < |macros| ==> macros[j].name != name;
    }
  }
}
