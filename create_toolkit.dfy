/** Building a toolkit's client and server sides from its shared configuration: the client side
    merges the configuration objects and builds one client tool per configured tool; the server side
    keeps the system prompt and builds, on each call, one server tool per tool the initializer returns. */
module CreateToolkit {
  import opened Wrappers
  import opened Records
  import opened Api

  /** The shared configuration: its plain fields (name, description, parameters, …) and the base
      configuration of each tool. */
  datatype ToolkitConfig<V, B> = ToolkitConfig(fields: Record<V>, tools: Record<B>)

  datatype ClientToolkit<V, T> = ClientToolkit(fields: Record<V>, tools: Record<T>)

  /** `tools(params, userId)` gives the built tools, null, or the initializer's error. */
  datatype ServerToolkit<!P, T> = ServerToolkit(systemPrompt: string, tools: (P, string) -> Result<Option<Record<T>>, ApiError>)

  /** The `reduce` over the tool names: each name assigned the tool built from its base
      configuration (undefined when the base has none) and its own configuration. */
  function BuildTools<B, C, T>(names: seq<string>, acc: Record<T>, base: Record<B>, configs: Record<C>,
                               build: (Option<B>, C) -> T): (r: Record<T>)
    requires forall n :: n in names ==> Get(configs, n).Some?
    ensures forall k :: k in names || Get(acc, k).Some? ==> Get(r, k).Some?
    decreases |names|
  {
    if names == [] then acc
    else
      var toolName := names[0];
      BuildTools(names[1..], Put(acc, toolName, build(Get(base, toolName), Get(configs, toolName).value)), base, configs, build)
  }

  /** After the fold, each folded name holds its built tool and every other key what it held. */
  lemma {:induction false} BuildToolsGet<B, C, T>(names: seq<string>, acc: Record<T>, base: Record<B>, configs: Record<C>,
                                                  build: (Option<B>, C) -> T)
    requires forall n :: n in names ==> Get(configs, n).Some?
    ensures forall k :: k in names ==>
      Get(BuildTools(names, acc, base, configs, build), k) == Some(build(Get(base, k), Get(configs, k).value))
    ensures forall k :: k !in names ==> Get(BuildTools(names, acc, base, configs, build), k) == Get(acc, k)
    decreases |names|
  {
    if names != [] {
      var toolName := names[0];
      var acc' := Put(acc, toolName, build(Get(base, toolName), Get(configs, toolName).value));
      BuildToolsGet(names[1..], acc', base, configs, build);
      assert forall k :: k in names <==> k == toolName || k in names[1..];
    }
  }

  lemma FreshTail(names: seq<string>, keys: seq<string>)
    requires names != [] && Distinct(names) && forall n :: n in names ==> n !in keys
    ensures Distinct(names[1..])
    ensures forall n :: n in names[1..] ==> n in names && n !in keys + [names[0]]
  {
    assert forall n :: n in names[1..] ==> n in names;
  }

  lemma AppendAssoc(a: seq<string>, b: seq<string>, c: seq<string>)
    ensures a + b + c == a + (b + c)
  {
  }

  /** Folding distinct new names appends them, in order, after the keys already there. */
  lemma {:induction false} BuildToolsKeys<B, C, T>(names: seq<string>, acc: Record<T>, base: Record<B>, configs: Record<C>,
                                                   build: (Option<B>, C) -> T)
    requires forall n :: n in names ==> Get(configs, n).Some?
    requires Distinct(names) && forall n :: n in names ==> n !in KeysOf(acc)
    ensures KeysOf(BuildTools(names, acc, base, configs, build)) == KeysOf(acc) + names
    decreases |names|
  {
    if names != [] {
      var toolName := names[0];
      var tool := build(Get(base, toolName), Get(configs, toolName).value);
      var acc' := Put(acc, toolName, tool);
      assert toolName in names;
      assert KeysOf(acc') == KeysOf(acc) + [toolName] by {
        PutKeys(acc, toolName, tool);
      }
      FreshTail(names, KeysOf(acc));
      assert BuildTools(names, acc, base, configs, build) == BuildTools(names[1..], acc', base, configs, build);
      BuildToolsKeys(names[1..], acc', base, configs, build);
      var ks := KeysOf(acc);
      assert names == [toolName] + names[1..];
      AppendAssoc(ks, [toolName], names[1..]);
    }
  }

  /** The client side: the base fields overridden by the client configuration's fields, `tools`
      replaced, and one client tool for each key of `toolConfigs`, in its order. */
  function CreateClientToolkit<V, B, C, T>(config: ToolkitConfig<V, B>, client: Record<V>, toolConfigs: Record<C>,
                                           build: (Option<B>, C) -> T): (r: ClientToolkit<V, T>)
    ensures Get(r.fields, "tools").None?
    ensures forall k :: k in KeysOf(toolConfigs) ==> Get(r.tools, k).Some?
  {
    ClientToolkit(Remove(Spread(config.fields, client), "tools"),
                  BuildTools(KeysOf(toolConfigs), [], config.tools, toolConfigs, build))
  }

  /** The client toolkit has a tool exactly for each configured tool name, in the configuration's
      order, built from that name's base and client configuration; a field set by the client
      configuration overrides the base one, and no plain field is called `tools`. */
  lemma ClientToolkitShape<V, B, C, T>(config: ToolkitConfig<V, B>, client: Record<V>, toolConfigs: Record<C>,
                                       build: (Option<B>, C) -> T)
    requires DistinctKeys(client) && DistinctKeys(toolConfigs)
    ensures var r := CreateClientToolkit(config, client, toolConfigs, build);
      && KeysOf(r.tools) == KeysOf(toolConfigs)
      && (forall k :: k in KeysOf(toolConfigs) ==>
            Get(r.tools, k) == Some(build(Get(config.tools, k), Get(toolConfigs, k).value)))
      && Get(r.fields, "tools").None?
      && (forall k :: k != "tools" ==> Get(r.fields, k) == Get(client, k).Or(Get(config.fields, k)))
  {
    var names := KeysOf(toolConfigs);
    BuildToolsGet(names, [], config.tools, toolConfigs, build);
    DistinctKeysOf(toolConfigs);
    BuildToolsKeys(names, [], config.tools, toolConfigs, build);
    assert KeysOf<T>([]) + names == names;
    forall k | k != "tools"
      ensures Get(CreateClientToolkit(config, client, toolConfigs, build).fields, k) == Get(client, k).Or(Get(config.fields, k))
    {
      SpreadGet(config.fields, client, k);
    }
  }

  /** One call of the server side's `tools`: the initializer's error or null passed on, else one
      server tool per returned key. */
  function ServerTools<B, C, T>(base: Record<B>, initialized: Result<Option<Record<C>>, ApiError>,
                                build: (Option<B>, C) -> T): (r: Result<Option<Record<T>>, ApiError>)
    ensures initialized.Err? <==> r.Err?
    ensures r.Err? ==> r.error == initialized.error
    ensures r == Ok(None) <==> initialized == Ok(None)
    ensures r.Ok? && r.value.Some? ==> var tools := initialized.value.value;
      && (forall k :: Get(r.value.value, k).Some? <==> Get(tools, k).Some?)
      && (forall k :: k in KeysOf(tools) ==> Get(r.value.value, k) == Some(build(Get(base, k), Get(tools, k).value)))
  {
    match initialized
    case Err(e) => Err(e)
    case Ok(None) => Ok(None)
    case Ok(Some(initializedToolsMap)) =>
      var names := KeysOf(initializedToolsMap);
      BuildToolsGet(names, [], base, initializedToolsMap, build);
      Ok(Some(BuildTools(names, [], base, initializedToolsMap, build)))
  }

  /** The server side keeps the system prompt, and its `tools` hands both arguments to the initializer. */
  function CreateServerToolkit<P(!new), V, B, C, T>(config: ToolkitConfig<V, B>, systemPrompt: string,
                                              initializeTools: (P, string) -> Result<Option<Record<C>>, ApiError>,
                                              build: (Option<B>, C) -> T): (r: ServerToolkit<P, T>)
    ensures r.systemPrompt == systemPrompt
    ensures forall params, userId :: r.tools(params, userId) == ServerTools(config.tools, initializeTools(params, userId), build)
  {
    ServerToolkit(systemPrompt, (params: P, userId: string) => ServerTools(config.tools, initializeTools(params, userId), build))
  }
}
