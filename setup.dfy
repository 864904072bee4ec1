/** Setting the integration up (custom_components/template_update/__init__.py):
    each validated block of the domain's configuration becomes one entity, or,
    for a `for_each` block, one entity per element, whose configuration is the
    block's template re-rendered against that element; the entities are then
    handed to the host's discovery service in one load. */
module Setup {
  import opened Py
  import opened Host
  import opened Update
  import opened Schema

  // ---------------------------------------------------------------------------
  // Expanding one entity template

  /** `_render_template_value`: the value rendering produced, None (`Nil`)
      whenever rendering raises, whatever the exception. */
  function RenderTemplateValue(render: Renderer, value: string, vars: Mapping): (r: Value)
    ensures render(Template(value), vars).RenderRaised? ==> r == Nil
    ensures render(Template(value), vars).Rendered? ==> r == render(Template(value), vars).value
  {
    match render(Template(value), vars)
    case Rendered(v) => v
    case RenderRaised(_) => Nil
  }

  /** What one field of the template becomes in the entity's configuration:
      a non-string value is copied unchanged, a string is replaced by its
      rendered value, and the field is dropped (None) when that is None. */
  function ExpandValue(render: Renderer, v: Value, vars: Mapping): (r: Option<Value>)
    ensures !v.Str? ==> r == Some(v)
    ensures v.Str? ==> (r.None? <==> RenderTemplateValue(render, v.s, vars) == Nil)
    ensures v.Str? && r.Some? ==> r.value == RenderTemplateValue(render, v.s, vars)
  {
    if !v.Str? then Some(v)
    else
      var rendered := RenderTemplateValue(render, v.s, vars);
      if rendered == Nil then None else Some(rendered)
  }

  /** The configuration `_process_template_config` builds from the fields of
      `t` taken in order. */
  function ExpandTemplate(render: Renderer, t: Mapping, vars: Mapping): (r: Mapping)
    decreases |t|
  {
    if t == [] then []
    else
      var prev := ExpandTemplate(render, t[..|t| - 1], vars);
      match ExpandValue(render, t[|t| - 1].1, vars)
      case None => prev
      case Some(v) => SetItem(prev, t[|t| - 1].0, v)
  }

  /** The expansion only holds keys of the template. */
  lemma {:induction false} ExpandTemplateKeys(render: Renderer, t: Mapping, vars: Mapping)
    ensures forall k | k in Keys(ExpandTemplate(render, t, vars)) :: k in Keys(t)
    decreases |t|
  {
    if t != [] {
      SplitLast(t);
      KeysSnoc(t[..|t| - 1], t[|t| - 1]);
      ExpandTemplateKeys(render, t[..|t| - 1], vars);
    }
  }

  /** A field the expansion keeps: present in the template, and not a string
      whose rendering yields None. */
  predicate Kept(render: Renderer, t: Mapping, vars: Mapping, k: string) {
    k in Keys(t) && ExpandValue(render, Get(t, k).value, vars).Some?
  }

  lemma PrefixDistinct(t: Mapping, n: nat)
    requires DistinctKeys(t) && n <= |t|
    ensures DistinctKeys(t[..n])
  {
    assert forall i | 0 <= i < n :: t[..n][i] == t[i];
  }

  /** The expanded configuration, key by key: a kept field holds its expanded
      value, every other key is absent. */
  lemma {:induction false} ExpandTemplateGet(render: Renderer, t: Mapping, vars: Mapping, k: string)
    requires DistinctKeys(t)
    ensures Get(ExpandTemplate(render, t, vars), k) ==
      if k in Keys(t) then ExpandValue(render, Get(t, k).value, vars) else None
    decreases |t|
  {
    if t != [] {
      var init := t[..|t| - 1];
      var last := t[|t| - 1];
      SplitLast(t);
      KeysSnoc(init, last);
      PrefixDistinct(t, |t| - 1);
      DistinctKeysOf(t);
      assert last.0 !in Keys(init);
      ExpandTemplateGet(render, init, vars, k);
      GetAppend(init, last.0, last.1, k);
    }
  }

  /** `_process_template_config(hass, update_template, template_vars)` */
  method ProcessTemplateConfig(render: Renderer, updateTemplate: Mapping, vars: Mapping)
    returns (entityConfig: Mapping)
    ensures entityConfig == ExpandTemplate(render, updateTemplate, vars)
  {
    entityConfig := [];
    for i := 0 to |updateTemplate|
      invariant entityConfig == ExpandTemplate(render, updateTemplate[..i], vars)
    {
      assert updateTemplate[..i + 1][..i] == updateTemplate[..i];
      var (key, value) := updateTemplate[i];
      if value.Str? {
        var renderedValue := RenderTemplateValue(render, value.s, vars);
        if renderedValue != Nil {
          entityConfig := SetItem(entityConfig, key, renderedValue);
        }
      } else {
        entityConfig := SetItem(entityConfig, key, value);
      }
    }
    assert updateTemplate[..|updateTemplate|] == updateTemplate;
  }

  // ---------------------------------------------------------------------------
  // Creating one entity

  /** The configuration `_create_entity_from_config` passes on: a missing
      `name` becomes `template_update_<item_id>` when `item_id` is truthy. */
  function WithDefaultName(config: Mapping, itemId: Value): (r: Mapping)
    ensures Truthy(itemId) && "name" !in Keys(config) ==>
      Get(r, "name") == Some(Str(DOMAIN + "_" + PyStr(itemId)))
    ensures "name" in Keys(config) || !Truthy(itemId) ==> r == config
  {
    if Truthy(itemId) && "name" !in Keys(config) then
      SetItem(config, "name", Str(DOMAIN + "_" + PyStr(itemId)))
    else config
  }

  /** The default name touches no other key. */
  lemma WithDefaultNameGet(config: Mapping, itemId: Value, k: string)
    requires k != "name"
    ensures Get(WithDefaultName(config, itemId), k) == Get(config, k)
  {
  }

  /** `_create_entity_from_config(hass, entity_config, item_id)` */
  method CreateEntityFromConfig(hass: ServiceRegistry, entityConfig: Mapping, itemId: Value)
    returns (r: Outcome<TemplateUpdateEntity>)
    ensures r.Raises? <==> ConstructionError(WithDefaultName(entityConfig, itemId)).Some?
    ensures r.Raises? ==> r.exc == ConstructionError(WithDefaultName(entityConfig, itemId)).value
    ensures r.Returns? ==>
      fresh(r.value) && r.value.BuiltFrom(WithDefaultName(entityConfig, itemId)) && r.value.services == hass
  {
    var config := entityConfig;
    if Truthy(itemId) && "name" !in Keys(config) {
      config := SetItem(config, "name", Str(DOMAIN + "_" + PyStr(itemId)));
    }
    r := Construct(hass, config);
  }

  // ---------------------------------------------------------------------------
  // for_each blocks

  /** The template variables of one element: `{"item": item}`. */
  function ItemVars(item: Value): Mapping {
    [("item", item)]
  }

  /** The configuration of the entity built for one element, or the exception
      building it raises: AttributeError when the element is not a dict (its
      `get` is missing), ValueError when the expansion lost a required template. */
  function ElementConfig(render: Renderer, t: Mapping, item: Value): (r: Outcome<Mapping>)
    ensures !item.Dict? ==> r == Raises(AttributeError)
    ensures r.Raises? && item.Dict? ==> r.exc.ValueError?
  {
    if !item.Dict? then Raises(AttributeError)
    else
      var config := WithDefaultName(ExpandTemplate(render, t, ItemVars(item)), GetOr(item.items, "device_id", Nil));
      match ConstructionError(config)
      case Some(e) => Raises(e)
      case None => Returns(config)
  }

  /** Building an element's entity raises exactly when the expansion lost a
      required template. */
  lemma ElementConfigKeys(render: Renderer, t: Mapping, item: Value)
    requires item.Dict?
    ensures ElementConfig(render, t, item).Raises? <==>
      !("installed_version" in Keys(ExpandTemplate(render, t, ItemVars(item)))
        && "latest_version" in Keys(ExpandTemplate(render, t, ItemVars(item))))
  {
    var expanded := ExpandTemplate(render, t, ItemVars(item));
    var itemId := GetOr(item.items, "device_id", Nil);
    WithDefaultNameGet(expanded, itemId, "installed_version");
    WithDefaultNameGet(expanded, itemId, "latest_version");
  }

  /** An element's entity configuration is the expanded template, apart from
      its default name. */
  lemma ElementConfigGet(render: Renderer, t: Mapping, item: Value, k: string)
    requires ElementConfig(render, t, item).Returns? && k != "name"
    ensures Get(ElementConfig(render, t, item).value, k) == Get(ExpandTemplate(render, t, ItemVars(item)), k)
  {
    WithDefaultNameGet(ExpandTemplate(render, t, ItemVars(item)), GetOr(item.items, "device_id", Nil), k);
  }

  /** For a template with distinct keys, an element's entity is built exactly
      when the element is a dict and the expansion keeps both required
      templates. */
  lemma ElementConfigReturns(render: Renderer, t: Mapping, item: Value)
    requires DistinctKeys(t)
    ensures ElementConfig(render, t, item).Returns? <==>
      && item.Dict?
      && Kept(render, t, ItemVars(item), "installed_version")
      && Kept(render, t, ItemVars(item), "latest_version")
  {
    if item.Dict? {
      ElementConfigKeys(render, t, item);
      ExpandTemplateGet(render, t, ItemVars(item), "installed_version");
      ExpandTemplateGet(render, t, ItemVars(item), "latest_version");
    }
  }

  /** What building each element's entity ends in, element by element. */
  function ElementOutcomes(render: Renderer, elements: seq<Value>, t: Mapping): (outs: seq<Outcome<Mapping>>)
    ensures |outs| == |elements|
    ensures forall i | 0 <= i < |elements| :: outs[i] == ElementConfig(render, t, elements[i])
  {
    seq(|elements|, i requires 0 <= i < |elements| => ElementConfig(render, t, elements[i]))
  }

  /** The configurations `_process_for_each_config` builds entities from: one
      per element in element order, or the exception of the first element
      that raises. */
  function ForEachConfigs(render: Renderer, elements: seq<Value>, t: Mapping): Outcome<seq<Mapping>> {
    Collect(ElementOutcomes(render, elements, t))
  }

  /** One configuration per element, in element order, when no element raises;
      otherwise the exception of the first element that raises. */
  lemma ForEachConfigsElements(render: Renderer, elements: seq<Value>, t: Mapping)
    ensures ForEachConfigs(render, elements, t).Returns? <==>
      forall i | 0 <= i < |elements| :: ElementConfig(render, t, elements[i]).Returns?
    ensures ForEachConfigs(render, elements, t).Returns? ==>
      && |ForEachConfigs(render, elements, t).value| == |elements|
      && forall i | 0 <= i < |elements| ::
           ElementConfig(render, t, elements[i]) == Returns(ForEachConfigs(render, elements, t).value[i])
    ensures ForEachConfigs(render, elements, t).Raises? ==>
      exists i | 0 <= i < |elements| ::
        && ElementConfig(render, t, elements[i]) == Raises(ForEachConfigs(render, elements, t).exc)
        && forall j | 0 <= j < i :: ElementConfig(render, t, elements[j]).Returns?
  {
    var outs := ElementOutcomes(render, elements, t);
    CollectReturns(outs);
    if Collect(outs).Raises? {
      CollectRaises(outs);
    }
  }

  lemma SplitLast<T>(s: seq<T>)
    requires s != []
    ensures s == s[..|s| - 1] + [s[|s| - 1]]
  {
  }

  lemma TakeOneMore<T>(s: seq<T>, i: nat)
    requires i < |s|
    ensures s[..i + 1] == s[..i] + [s[i]]
  {
  }

  /** The body of the loop of `_process_for_each_config` for one element:
      its configuration expanded from the template, then its entity. */
  method ProcessElement(hass: ServiceRegistry, render: Renderer, updateTemplate: Mapping, item: Value)
    returns (r: Outcome<TemplateUpdateEntity>)
    ensures r.Raises? <==> ElementConfig(render, updateTemplate, item).Raises?
    ensures r.Raises? ==> r.exc == ElementConfig(render, updateTemplate, item).exc
    ensures r.Returns? ==>
      && ElementConfig(render, updateTemplate, item) == Returns(r.value.config)
      && fresh(r.value) && r.value.BuiltFrom(r.value.config) && r.value.services == hass
  {
    var entityConfig := ProcessTemplateConfig(render, updateTemplate, ItemVars(item));
    if !item.Dict? {
      return Raises(AttributeError);
    }
    r := CreateEntityFromConfig(hass, entityConfig, GetOr(item.items, "device_id", Nil));
  }

  /** `_process_for_each_config(hass, loop_elements, update_template)`: one
      new entity per element, built from that element's configuration. */
  method ProcessForEachConfig(hass: ServiceRegistry, render: Renderer, loopElements: seq<Value>,
                              updateTemplate: Mapping)
    returns (r: Outcome<seq<TemplateUpdateEntity>>)
    ensures r.Raises? <==> ForEachConfigs(render, loopElements, updateTemplate).Raises?
    ensures r.Raises? ==> r.exc == ForEachConfigs(render, loopElements, updateTemplate).exc
    ensures r.Returns? ==>
      && BuiltFromEach(r.value, ForEachConfigs(render, loopElements, updateTemplate).value, hass)
      && forall e | e in r.value :: fresh(e)
  {
    var entities: seq<TemplateUpdateEntity> := [];
    ghost var outs := ElementOutcomes(render, loopElements, updateTemplate);
    ghost var configs: seq<Mapping> := [];
    for i := 0 to |loopElements|
      invariant Collect(outs[..i]) == Returns(configs)
      invariant BuiltFromEach(entities, configs, hass)
      invariant forall e | e in entities :: fresh(e)
    {
      CollectStep(outs, i, configs);
      var entity := ProcessElement(hass, render, updateTemplate, loopElements[i]);
      if entity.Raises? {
        CollectPrefixRaises(outs, i + 1);
        return Raises(entity.exc);
      }
      BuiltFromEachSnoc(entities, configs, entity.value, entity.value.config, hass);
      entities := entities + [entity.value];
      configs := configs + [entity.value.config];
    }
    assert outs[..|outs|] == outs;
    r := Returns(entities);
  }

  // ---------------------------------------------------------------------------
  // The domain's blocks

  lemma ItemLacksForEach(c: Mapping)
    requires KeysWithin(c, ITEM_KEYS)
    ensures "for_each" !in Keys(c)
  {
    assert "for_each" !in ITEM_KEYS;
  }

  lemma ForEachHasKey(c: Mapping)
    requires ValidForEach(c)
    ensures "for_each" in Keys(c)
  {
    assert Keys(c)[0] == "for_each";
  }

  /** An accepted block holds `for_each` exactly when it is a for_each block. */
  lemma ForEachKeyMarksBlock(b: Value)
    requires ValidBlock(b)
    ensures "for_each" in Keys(b.items) <==> ValidForEach(b.items)
  {
    if ValidForEach(b.items) {
      ForEachHasKey(b.items);
    } else {
      ItemLacksForEach(b.items);
    }
  }

  /** What the setup loop reads of a block without failing: a dict, and, when
      it holds `for_each`, a dict there with a list of `elements` and a dict
      `update`. */
  predicate BlockShape(b: Value) {
    && b.Dict?
    && ("for_each" in Keys(b.items) ==>
          var node := Get(b.items, "for_each").value;
          && node.Dict?
          && "elements" in Keys(node.items) && Get(node.items, "elements").value.List?
          && "update" in Keys(node.items) && Get(node.items, "update").value.Dict?)
  }

  /** Every block the schema accepts has that shape. */
  lemma ValidBlockShape(b: Value)
    requires ValidBlock(b)
    ensures BlockShape(b)
  {
    ForEachKeyMarksBlock(b);
    if ValidForEach(b.items) {
      assert b.items[0] == ("for_each", Get(b.items, "for_each").value);
    }
  }

  /** The configurations one block builds entities from: those of its
      elements for a for_each block, its own configuration otherwise. */
  function BlockConfigs(render: Renderer, b: Value): (r: Outcome<seq<Mapping>>)
    requires BlockShape(b)
  {
    if "for_each" in Keys(b.items) then
      var node := Get(b.items, "for_each").value.items;
      ForEachConfigs(render, Get(node, "elements").value.elems, Get(node, "update").value.items)
    else
      match ConstructionError(b.items)
      case Some(e) => Raises(e)
      case None => Returns([b.items])
  }

  /** The configurations of all blocks, concatenated in block order, or the
      exception of the first block that raises. */
  function SetupConfigs(render: Renderer, blocks: seq<Value>): (r: Outcome<seq<Mapping>>)
    requires AllShaped(blocks)
    decreases |blocks|
  {
    if blocks == [] then Returns([])
    else
      var init := blocks[..|blocks| - 1];
      assert forall i | 0 <= i < |blocks| - 1 :: init[i] == blocks[i];
      match SetupConfigs(render, init)
      case Raises(e) => Raises(e)
      case Returns(configs) =>
        match BlockConfigs(render, blocks[|blocks| - 1])
        case Raises(e) => Raises(e)
        case Returns(cs) => Returns(configs + cs)
  }

  /** The setup loop reads every block of the list without failing. */
  predicate AllShaped(blocks: seq<Value>) {
    forall i | 0 <= i < |blocks| :: BlockShape(blocks[i])
  }

  lemma ConcatShaped(xs: seq<Value>, ys: seq<Value>)
    requires AllShaped(xs) && AllShaped(ys)
    ensures AllShaped(xs + ys)
  {
    assert forall i | 0 <= i < |xs + ys| :: (xs + ys)[i] == if i < |xs| then xs[i] else ys[i - |xs|];
  }

  /** One more block at the end: its configurations follow, unless an
      earlier block or this one raises. */
  lemma SetupConfigsSnoc(render: Renderer, bs: seq<Value>, b: Value)
    requires AllShaped(bs) && BlockShape(b)
    ensures AllShaped(bs + [b])
    ensures SetupConfigs(render, bs + [b]) == Then(SetupConfigs(render, bs), BlockConfigs(render, b))
  {
    ConcatShaped(bs, [b]);
    assert (bs + [b])[..|bs|] == bs;
  }

  /** What setting up `xs` and then `ys` yields, from the two outcomes. */
  function Then(first: Outcome<seq<Mapping>>, second: Outcome<seq<Mapping>>): Outcome<seq<Mapping>> {
    match first
    case Raises(e) => Raises(e)
    case Returns(a) =>
      match second
      case Raises(e) => Raises(e)
      case Returns(b) => Returns(a + b)
  }

  lemma ThenAssociative(a: Outcome<seq<Mapping>>, b: Outcome<seq<Mapping>>, c: Outcome<seq<Mapping>>)
    ensures Then(Then(a, b), c) == Then(a, Then(b, c))
  {
    if a.Returns? && b.Returns? && c.Returns? {
      assert (a.value + b.value) + c.value == a.value + (b.value + c.value);
    }
  }

  /** Setting up two runs of blocks one after the other: the configurations
      concatenate, and the first run's exception wins. */
  lemma {:induction false} SetupConfigsConcat(render: Renderer, xs: seq<Value>, ys: seq<Value>)
    requires AllShaped(xs) && AllShaped(ys)
    ensures AllShaped(xs + ys)
    ensures SetupConfigs(render, xs + ys) == Then(SetupConfigs(render, xs), SetupConfigs(render, ys))
    decreases |ys|
  {
    ConcatShaped(xs, ys);
    if ys == [] {
      assert xs + ys == xs;
      if SetupConfigs(render, xs).Returns? {
        assert SetupConfigs(render, xs).value + [] == SetupConfigs(render, xs).value;
      }
    } else {
      var init := ys[..|ys| - 1];
      var last := ys[|ys| - 1];
      PrefixShaped(ys, |ys| - 1);
      SetupConfigsConcat(render, xs, init);
      ConcatStep(render, xs, init, last);
      assert ys == init + [last];
      assert xs + ys == (xs + init) + [last];
    }
  }

  lemma ConcatStep(render: Renderer, xs: seq<Value>, init: seq<Value>, last: Value)
    requires AllShaped(xs) && AllShaped(init) && BlockShape(last) && AllShaped(xs + init)
    requires SetupConfigs(render, xs + init) == Then(SetupConfigs(render, xs), SetupConfigs(render, init))
    ensures AllShaped((xs + init) + [last]) && AllShaped(init + [last])
    ensures SetupConfigs(render, (xs + init) + [last])
      == Then(SetupConfigs(render, xs), SetupConfigs(render, init + [last]))
  {
    SetupConfigsSnoc(render, xs + init, last);
    SetupConfigsSnoc(render, init, last);
    ThenAssociative(SetupConfigs(render, xs), SetupConfigs(render, init), BlockConfigs(render, last));
  }

  lemma PrefixShaped(bs: seq<Value>, n: nat)
    requires AllShaped(bs) && n <= |bs|
    ensures AllShaped(bs[..n])
  {
    assert forall i | 0 <= i < n :: bs[..n][i] == bs[i];
  }

  /** An item block builds exactly the entity of its own configuration. */
  lemma ItemBlockConfigs(render: Renderer, b: Value)
    requires b.Dict? && ValidItem(b.items)
    ensures BlockShape(b)
    ensures BlockConfigs(render, b) == Returns([b.items])
  {
    ItemLacksForEach(b.items);
    assert HasStr(b.items, "installed_version") && HasStr(b.items, "latest_version");
  }

  /** The configurations of a run of dict blocks, in order. */
  function ItemsOf(blocks: seq<Value>): seq<Mapping>
    requires forall i | 0 <= i < |blocks| :: blocks[i].Dict?
  {
    seq(|blocks|, i requires 0 <= i < |blocks| => blocks[i].items)
  }

  lemma ItemsOfSnoc(init: seq<Value>, b: Value)
    requires forall i | 0 <= i < |init| :: init[i].Dict?
    requires b.Dict?
    ensures forall i | 0 <= i < |init + [b]| :: (init + [b])[i].Dict?
    ensures ItemsOf(init + [b]) == ItemsOf(init) + [b.items]
  {
  }

  /** A configuration made of item blocks only: each block builds exactly the
      entity of its own configuration, in order. */
  lemma {:induction false} ItemBlocksConfigs(render: Renderer, blocks: seq<Value>)
    requires forall i | 0 <= i < |blocks| :: blocks[i].Dict? && ValidItem(blocks[i].items)
    ensures AllShaped(blocks)
    ensures SetupConfigs(render, blocks) == Returns(ItemsOf(blocks))
    decreases |blocks|
  {
    if blocks != [] {
      var init := blocks[..|blocks| - 1];
      var b := blocks[|blocks| - 1];
      SplitLast(blocks);
      assert forall i | 0 <= i < |init| :: init[i] == blocks[i];
      ItemBlocksConfigs(render, init);
      ItemBlockConfigs(render, b);
      SetupConfigsSnoc(render, init, b);
      ItemsOfSnoc(init, b);
    } else {
      assert ItemsOf(blocks) == [];
    }
  }

  // ---------------------------------------------------------------------------
  // Handing the entities to the host

  /** One call to `discovery.async_load_platform(hass, platform, domain,
      {"entities": entities}, config)`. */
  datatype PlatformLoad = PlatformLoad(platform: string, domain: string,
                                       entities: seq<TemplateUpdateEntity>, config: Mapping)

  /** The host's discovery service, reduced to the loads requested from it
      and to whether such a request raises. */
  class Discovery {
    var loads: seq<PlatformLoad>
    const raises: bool

    constructor (raises: bool)
      ensures loads == [] && this.raises == raises
    {
      loads := [];
      this.raises := raises;
    }

    /** Records the load; reports whether the host raised. */
    method AsyncLoadPlatform(platform: string, domain: string,
                             entities: seq<TemplateUpdateEntity>, config: Mapping)
      returns (raised: bool)
      modifies this
      ensures loads == old(loads) + [PlatformLoad(platform, domain, entities, config)]
      ensures raised == raises
    {
      loads := loads + [PlatformLoad(platform, domain, entities, config)];
      raised := raises;
    }
  }

  /** `_load_entities`: no load for an empty entity list; one load of the
      update platform otherwise, whose exception is swallowed. */
  method LoadEntities(discovery: Discovery, entities: seq<TemplateUpdateEntity>, config: Mapping)
    modifies discovery
    ensures entities == [] ==> discovery.loads == old(discovery.loads)
    ensures entities != [] ==>
      discovery.loads == old(discovery.loads) + [PlatformLoad("update", DOMAIN, entities, config)]
  {
    if entities == [] {
      return;
    }
    var raised := discovery.AsyncLoadPlatform("update", DOMAIN, entities, config);
  }

  /** The domain's list of blocks in a configuration CONFIG_SCHEMA accepted. */
  function DomainBlocks(config: Mapping): (blocks: seq<Value>)
    requires ValidConfig(config) && DOMAIN in Keys(config)
    ensures blocks == Get(config, DOMAIN).value.elems
    ensures AllShaped(blocks)
  {
    var blocks := Get(config, DOMAIN).value.elems;
    assert AllShaped(blocks) by {
      forall i | 0 <= i < |blocks| ensures BlockShape(blocks[i]) {
        assert blocks[i] in blocks;
        ValidBlockShape(blocks[i]);
      }
    }
    blocks
  }

  /** `async_setup(hass, config)` on a configuration CONFIG_SCHEMA accepted:
      True with nothing loaded when the domain is not configured; otherwise
      the entities of every block, concatenated in block order, loaded once
      (when there are any) and True, or the first exception building them
      raises. */
  method AsyncSetup(discovery: Discovery, hass: ServiceRegistry, render: Renderer, config: Mapping)
    returns (r: Outcome<bool>)
    requires ValidConfig(config)
    modifies discovery
    ensures r.Returns? ==> r.value
    ensures DOMAIN !in Keys(config) ==> r == Returns(true) && discovery.loads == old(discovery.loads)
    ensures DOMAIN in Keys(config) ==>
      var outcome := SetupConfigs(render, DomainBlocks(config));
      && (r.Raises? <==> outcome.Raises?)
      && (r.Raises? ==> r.exc == outcome.exc && discovery.loads == old(discovery.loads))
      && (r.Returns? && outcome.value == [] ==> discovery.loads == old(discovery.loads))
      && (r.Returns? && outcome.value != [] ==>
            && |discovery.loads| == |old(discovery.loads)| + 1
            && discovery.loads[..|old(discovery.loads)|] == old(discovery.loads)
            && var load := discovery.loads[|old(discovery.loads)|];
            && load.platform == "update" && load.domain == DOMAIN && load.config == config
            && BuiltFromEach(load.entities, outcome.value, hass)
            && forall e | e in load.entities :: fresh(e))
  {
    if DOMAIN !in Keys(config) {
      return Returns(true);
    }
    var entities := ProcessBlocks(hass, render, DomainBlocks(config));
    if entities.Raises? {
      return Raises(entities.exc);
    }
    LoadEntities(discovery, entities.value, config);
    r := Returns(true);
  }

  /** The loop of `async_setup` over the domain's blocks: the entities of
      every block, in block order, or the first exception. */
  method ProcessBlocks(hass: ServiceRegistry, render: Renderer, blocks: seq<Value>)
    returns (r: Outcome<seq<TemplateUpdateEntity>>)
    requires AllShaped(blocks)
    ensures r.Raises? <==> SetupConfigs(render, blocks).Raises?
    ensures r.Raises? ==> r.exc == SetupConfigs(render, blocks).exc
    ensures r.Returns? ==>
      && BuiltFromEach(r.value, SetupConfigs(render, blocks).value, hass)
      && forall e | e in r.value :: fresh(e)
  {
    var entities: seq<TemplateUpdateEntity> := [];
    ghost var configs: seq<Mapping> := [];
    for i := 0 to |blocks|
      invariant AllShaped(blocks[..i])
      invariant SetupConfigs(render, blocks[..i]) == Returns(configs)
      invariant BuiltFromEach(entities, configs, hass)
      invariant forall e | e in entities :: fresh(e)
    {
      var updateConfig := blocks[i];
      TakeOneMore(blocks, i);
      PrefixShaped(blocks, i + 1);
      SetupConfigsSnoc(render, blocks[..i], updateConfig);
      var blockEntities := ProcessBlock(hass, render, updateConfig);
      if blockEntities.Raises? {
        SetupRaisesFrom(render, blocks, i + 1);
        return Raises(blockEntities.exc);
      }
      ghost var cs := BlockConfigs(render, updateConfig).value;
      BuiltFromEachAppend(entities, configs, blockEntities.value, cs, hass);
      entities := entities + blockEntities.value;
      configs := configs + cs;
    }
    assert blocks[..|blocks|] == blocks;
    r := Returns(entities);
  }

  /** Each entity of `es` was built, for host `hass`, from the configuration
      at the same place in `cs`. */
  ghost predicate BuiltFromEach(es: seq<TemplateUpdateEntity>, cs: seq<Mapping>, hass: ServiceRegistry) {
    && |es| == |cs|
    && forall i | 0 <= i < |es| :: es[i].BuiltFrom(cs[i]) && es[i].services == hass
  }

  lemma BuiltFromEachSnoc(es: seq<TemplateUpdateEntity>, cs: seq<Mapping>,
                           e: TemplateUpdateEntity, c: Mapping, hass: ServiceRegistry)
    requires BuiltFromEach(es, cs, hass) && e.BuiltFrom(c) && e.services == hass
    ensures BuiltFromEach(es + [e], cs + [c], hass)
  {
  }

  lemma BuiltFromEachAppend(es: seq<TemplateUpdateEntity>, cs: seq<Mapping>,
                             fs: seq<TemplateUpdateEntity>, ds: seq<Mapping>, hass: ServiceRegistry)
    requires BuiltFromEach(es, cs, hass) && BuiltFromEach(fs, ds, hass)
    ensures BuiltFromEach(es + fs, cs + ds, hass)
  {
    forall i | 0 <= i < |es + fs|
      ensures (es + fs)[i].BuiltFrom((cs + ds)[i]) && (es + fs)[i].services == hass
    {
      if i < |es| {
        assert (es + fs)[i] == es[i] && (cs + ds)[i] == cs[i];
      } else {
        assert (es + fs)[i] == fs[i - |es|] && (cs + ds)[i] == ds[i - |es|];
      }
    }
  }

  /** The body of the setup loop for one block: the entities of its
      elements for a for_each block, the entity of its own configuration
      otherwise. */
  method ProcessBlock(hass: ServiceRegistry, render: Renderer, updateConfig: Value)
    returns (r: Outcome<seq<TemplateUpdateEntity>>)
    requires BlockShape(updateConfig)
    ensures r.Raises? <==> BlockConfigs(render, updateConfig).Raises?
    ensures r.Raises? ==> r.exc == BlockConfigs(render, updateConfig).exc
    ensures r.Returns? ==>
      && BuiltFromEach(r.value, BlockConfigs(render, updateConfig).value, hass)
      && forall e | e in r.value :: fresh(e)
  {
    if "for_each" in Keys(updateConfig.items) {
      var forEachNode := Get(updateConfig.items, "for_each").value.items;
      r := ProcessForEachConfig(hass, render,
        Get(forEachNode, "elements").value.elems, Get(forEachNode, "update").value.items);
    } else {
      var entity := CreateEntityFromConfig(hass, updateConfig.items, Nil);
      if entity.Raises? {
        return Raises(entity.exc);
      }
      assert BuiltFromEach([entity.value], [updateConfig.items], hass);
      r := Returns([entity.value]);
    }
  }

  /** Once the first `n` blocks raise, setting up all of them raises the same. */
  lemma SetupRaisesFrom(render: Renderer, blocks: seq<Value>, n: nat)
    requires AllShaped(blocks)
    requires n <= |blocks|
    requires SetupConfigs(render, blocks[..n]).Raises?
    ensures SetupConfigs(render, blocks) == SetupConfigs(render, blocks[..n])
  {
    assert blocks == blocks[..n] + blocks[n..];
    SetupConfigsConcat(render, blocks[..n], blocks[n..]);
  }

  // ---------------------------------------------------------------------------
  // A configured item without an install action

  /** An item configured without `install_action` supports no install feature,
      and installing it dispatches nothing. */
  lemma NoInstallActionNoInstall(render: Renderer, c: Mapping, version: Option<string>,
                                 shouldBackup: bool, kwargs: Mapping)
    requires ValidItem(c) && "install_action" !in Keys(c)
    ensures ConstructionError(c).None?
    ensures Features(c) & INSTALL == 0 && Features(c) & SPECIFIC_VERSION == 0
    ensures InstallPlan(render, c, version, shouldBackup, kwargs) == Returns(None)
  {
    assert HasStr(c, "installed_version") && HasStr(c, "latest_version");
    FeaturesBits(c);
  }
}
