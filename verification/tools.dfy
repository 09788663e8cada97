/**
 * The tool registry: named callables with descriptions, kept in two
 * dictionaries that always have the same names.
 */
module Tools {
  import opened Values

  /** What calling a tool does: return a value, or raise. */
  datatype ToolOutcome = ToolReturned(value: Value) | ToolRaised(message: string)

  /** The positional and keyword arguments of a call. */
  datatype Arguments = Arguments(positional: seq<Value>, keyword: map<string, Value>)

  type Tool = Arguments -> ToolOutcome

  class ToolRegistry {
    var tools: map<string, Tool>
    var descriptions: map<string, string>

    /** Only register writes the two tables, and it writes both. */
    ghost predicate Valid()
      reads this
    {
      tools.Keys == descriptions.Keys
    }

    constructor ()
      ensures tools == map[] && descriptions == map[]
      ensures Valid()
    {
      tools := map[];
      descriptions := map[];
    }

    /** register: stores the tool and its description under the name,
        replacing an earlier registration of that name. */
    method Register(name: string, func: Tool, description: string := "")
      modifies this
      ensures tools == old(tools)[name := func]
      ensures descriptions == old(descriptions)[name := description]
      ensures Get(name) == Some(func) && Exists(name)
      ensures forall other :: other != name ==> Get(other) == old(Get(other))
      ensures forall args :: Call(name, args) == func(args)
      ensures old(Valid()) ==> Valid()
    {
      tools := tools[name := func];
      descriptions := descriptions[name := description];
    }

    /** get: the tool registered under the name, or None. */
    function Get(name: string): (r: Option<Tool>)
      reads this
      ensures r.Some? <==> Exists(name)
      ensures r.Some? ==> r.value == tools[name]
    {
      if name in tools then Some(tools[name]) else None
    }

    /** call: an unknown name raises; a known one runs exactly that tool on the arguments. */
    function Call(name: string, args: Arguments): (r: ToolOutcome)
      reads this
      ensures Get(name).None? ==> r == ToolRaised("Tool '" + name + "' not found in registry")
      ensures Get(name).Some? ==> r == Get(name).value(args)
    {
      if name !in tools then ToolRaised("Tool '" + name + "' not found in registry")
      else tools[name](args)
    }

    /** list_tools: the descriptions, one per registered tool. */
    function ListTools(): (r: map<string, string>)
      reads this
      ensures r == descriptions
      ensures Valid() ==> forall name :: name in r <==> Exists(name)
    {
      descriptions
    }

    /** exists: whether a tool is registered under the name. */
    function Exists(name: string): (r: bool)
      reads this
      ensures r <==> name in tools
    {
      name in tools
    }
  }
}
