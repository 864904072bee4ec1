/** The update entity of the integration (custom_components/template_update/update.py):
    its construction from one entity configuration, the read accessors that
    render a stored template on every read, the recursive rendering of the
    install action's data, and the install action itself. */
module Update {
  import opened Py
  import opened Host

  // UpdateEntityFeature flags of the host.
  const INSTALL: bv32 := 1
  const SPECIFIC_VERSION: bv32 := 2
  const RELEASE_NOTES: bv32 := 16

  /** The supported-feature mask the constructor derives from the configuration. */
  function Features(config: Mapping): bv32 {
    (if Truthy(GetOr(config, "install_action", Nil)) then INSTALL | SPECIFIC_VERSION else 0)
    | (if Truthy(GetOr(config, "release_notes", Nil)) then RELEASE_NOTES else 0)
  }

  /** INSTALL and SPECIFIC_VERSION are supported exactly when an install action
      is configured, RELEASE_NOTES exactly when release notes are; no other
      feature ever is. */
  lemma FeaturesBits(config: Mapping)
    ensures (Features(config) & INSTALL != 0) <==> Truthy(GetOr(config, "install_action", Nil))
    ensures (Features(config) & SPECIFIC_VERSION != 0) <==> Truthy(GetOr(config, "install_action", Nil))
    ensures (Features(config) & RELEASE_NOTES != 0) <==> Truthy(GetOr(config, "release_notes", Nil))
    ensures Features(config) & !(INSTALL | SPECIFIC_VERSION | RELEASE_NOTES) == 0
  {
  }

  /** `config_template(key, default=None)`: a template over `str(config[key] or "")`
      when the key is present, the default None otherwise. */
  function ConfigTemplate(config: Mapping, key: string): (t: Option<Template>)
    ensures t.Some? <==> key in Keys(config)
    ensures t.Some? && !Truthy(Get(config, key).value) ==> t.value.text == ""
    ensures t.Some? && Get(config, key).value.Str? ==> t.value.text == Get(config, key).value.s
    ensures t.Some? && Truthy(Get(config, key).value) ==> t.value.text == PyStr(Get(config, key).value)
  {
    match Get(config, key)
    case Some(v) => Some(Template(PyStr(OrEmpty(v))))
    case None => None
  }

  /** The exception construction raises, if any: `config_template` without a
      default raises ValueError for a missing installed or latest version. */
  function ConstructionError(config: Mapping): (e: Option<Exc>)
    ensures e.None? <==> "installed_version" in Keys(config) && "latest_version" in Keys(config)
    ensures e.Some? ==> e.value.ValueError?
  {
    if "installed_version" !in Keys(config) then
      Some(ValueError("Template for installed_version not found"))
    else if "latest_version" !in Keys(config) then
      Some(ValueError("Template for latest_version not found"))
    else None
  }

  /** The exceptions the read accessors catch. */
  predicate CaughtOnRead(e: Exc) {
    e.ValueError? || e == TypeError
  }

  /** One read accessor: `str(template.async_render())`, None when the template
      is not configured and None when rendering raises ValueError or TypeError. */
  function ReadString(render: Renderer, t: Option<Template>): (r: Outcome<Option<string>>)
    ensures t.None? ==> r == Returns(None)
    ensures t.Some? && render(t.value, []).RenderRaised? && CaughtOnRead(render(t.value, []).exc)
      ==> r == Returns(None)
    ensures r.Raises? <==> t.Some? && render(t.value, []).RenderRaised? && !CaughtOnRead(render(t.value, []).exc)
    ensures r.Raises? ==> r.exc == render(t.value, []).exc
    ensures r.Returns? && r.value.Some? ==>
      t.Some? && render(t.value, []).Rendered? && r.value.value == PyStr(render(t.value, []).value)
    ensures t.Some? && render(t.value, []).Rendered? ==> r == Returns(Some(PyStr(render(t.value, []).value)))
  {
    match t
    case None => Returns(None)
    case Some(tmpl) =>
      match render(tmpl, [])
      case Rendered(v) => Returns(Some(PyStr(v)))
      case RenderRaised(e) => if CaughtOnRead(e) then Returns(None) else Raises(e)
  }

  /** `_render_template`: None for a falsy source and None when rendering
      raises TemplateError; the host's Template constructor raises TypeError
      for a source that is not a string. */
  function RenderTemplate(render: Renderer, source: Value): (r: Outcome<Value>)
    ensures !Truthy(source) ==> r == Returns(Nil)
    ensures Truthy(source) && source.Str? && render(Template(source.s), []) == RenderRaised(TemplateError)
      ==> r == Returns(Nil)
    ensures r.Returns? && r.value != Nil ==>
      Truthy(source) && source.Str? && render(Template(source.s), []) == Rendered(r.value)
    ensures Truthy(source) && !source.Str? ==> r == Raises(TypeError)
    ensures r.Raises? ==> r.exc != TemplateError && Truthy(source)
    ensures Truthy(source) && source.Str? && render(Template(source.s), []).Rendered?
      ==> r == Returns(render(Template(source.s), []).value)
    ensures Truthy(source) && source.Str? && render(Template(source.s), []).RenderRaised?
      && render(Template(source.s), []).exc != TemplateError
      ==> r == Raises(render(Template(source.s), []).exc)
  {
    if !Truthy(source) then Returns(Nil)
    else if !source.Str? then Raises(TypeError)
    else
      match render(Template(source.s), [])
      case Rendered(v) => Returns(v)
      case RenderRaised(e) => if e == TemplateError then Returns(Nil) else Raises(e)
  }

  /** `out` is `data` with the same shape (dicts with the same keys in the
      same order, lists of the same length in the same order, other values
      unchanged) and each string leaf replaced by its `_render_template` result. */
  ghost predicate RenderedFrom(render: Renderer, data: Value, out: Value)
    decreases data
  {
    match data
    case List(es) =>
      && out.List? && |out.elems| == |es|
      && forall i | 0 <= i < |es| :: RenderedFrom(render, es[i], out.elems[i])
    case Dict(items) =>
      && out.Dict? && Keys(out.items) == Keys(items)
      && forall i | 0 <= i < |items| :: var it := items[i]; assert it.1 < it; RenderedFrom(render, it.1, out.items[i].1)
    case Str(_) => RenderTemplate(render, data) == Returns(out)
    case _ => out == data
  }

  /** Some string leaf of `data` makes `_render_template` raise. */
  ghost predicate LeafRaises(render: Renderer, data: Value)
    decreases data
  {
    match data
    case List(es) => exists i | 0 <= i < |es| :: LeafRaises(render, es[i])
    case Dict(items) => exists i | 0 <= i < |items| :: var it := items[i]; assert it.1 < it; LeafRaises(render, it.1)
    case Str(_) => RenderTemplate(render, data).Raises?
    case _ => false
  }

  /** `_render_dict_templates`: renders every string leaf of nested dicts and
      lists, depth first and in order; the first exception propagates. */
  function RenderData(render: Renderer, data: Value): (r: Outcome<Value>)
    ensures r.Raises? <==> LeafRaises(render, data)
    ensures r.Returns? ==> RenderedFrom(render, data, r.value)
    decreases data, 1
  {
    match data
    case List(es) =>
      (match RenderList(render, es)
       case Returns(rs) => Returns(List(rs))
       case Raises(e) => Raises(e))
    case Dict(items) =>
      (match RenderItems(render, items)
       case Returns(rs) => Returns(Dict(rs))
       case Raises(e) => Raises(e))
    case Str(_) => RenderTemplate(render, data)
    case _ => Returns(data)
  }

  function RenderList(render: Renderer, es: seq<Value>): (r: Outcome<seq<Value>>)
    ensures r.Raises? <==> exists i | 0 <= i < |es| :: LeafRaises(render, es[i])
    ensures r.Returns? ==>
      |r.value| == |es| && forall i | 0 <= i < |es| :: RenderedFrom(render, es[i], r.value[i])
    decreases es
  {
    if es == [] then Returns([])
    else
      match RenderData(render, es[0])
      case Raises(e) => Raises(e)
      case Returns(v) =>
        match RenderList(render, es[1..])
        case Raises(e) =>
          assert forall i | 1 <= i < |es| :: es[i] == es[1..][i - 1];
          Raises(e)
        case Returns(vs) =>
          assert forall i | 1 <= i < |es| :: es[i] == es[1..][i - 1];
          Returns([v] + vs)
  }

  function RenderItems(render: Renderer, items: Mapping): (r: Outcome<Mapping>)
    ensures r.Raises? <==> exists i | 0 <= i < |items| :: LeafRaises(render, items[i].1)
    ensures r.Returns? ==>
      && Keys(r.value) == Keys(items)
      && forall i | 0 <= i < |items| :: RenderedFrom(render, items[i].1, r.value[i].1)
    decreases items
  {
    if items == [] then Returns([])
    else
      assert items[0].1 < items[0];
      match RenderData(render, items[0].1)
      case Raises(e) => Raises(e)
      case Returns(v) =>
        match RenderItems(render, items[1..])
        case Raises(e) =>
          assert forall i | 1 <= i < |items| :: items[i] == items[1..][i - 1];
          Raises(e)
        case Returns(vs) =>
          var r := [(items[0].0, v)] + vs;
          assert forall i | 1 <= i < |items| :: items[i] == items[1..][i - 1] && r[i] == vs[i - 1];
          assert items == [items[0]] + items[1..];
          KeysCons(items[0], items[1..]);
          KeysCons((items[0].0, v), vs);
          Returns(r)
  }

  /** The renderings of `es`, one call per element, in order. */
  function RenderEach(render: Renderer, es: seq<Value>): seq<Outcome<Value>> {
    seq(|es|, i requires 0 <= i < |es| => RenderData(render, es[i]))
  }

  /** A list is rendered element after element: the rendered elements, or
      the exception of the first element that raises. */
  lemma {:induction false} RenderListCollect(render: Renderer, es: seq<Value>)
    ensures RenderList(render, es) == Collect(RenderEach(render, es))
    decreases es
  {
    if es != [] {
      assert RenderEach(render, es) == [RenderData(render, es[0])] + RenderEach(render, es[1..]);
      CollectCons(RenderData(render, es[0]), RenderEach(render, es[1..]));
      RenderListCollect(render, es[1..]);
    }
  }

  lemma RenderEachCons(render: Renderer, e: Value, es: seq<Value>)
    ensures RenderEach(render, [e] + es) == [RenderData(render, e)] + RenderEach(render, es)
  {
  }

  /** A dict is rendered value after value, in key order: the rendered
      values, or the exception of the first value that raises. */
  lemma {:induction false} RenderItemsCollect(render: Renderer, items: Mapping)
    ensures RenderItems(render, items).Raises? <==> Collect(RenderEach(render, Values(items))).Raises?
    ensures RenderItems(render, items).Raises? ==>
      RenderItems(render, items).exc == Collect(RenderEach(render, Values(items))).exc
    ensures RenderItems(render, items).Returns? ==>
      Values(RenderItems(render, items).value) == Collect(RenderEach(render, Values(items))).value
    decreases items
  {
    if items != [] {
      var first := items[0];
      var rest := items[1..];
      assert items == [first] + rest;
      ValuesCons(first, rest);
      RenderEachCons(render, first.1, Values(rest));
      CollectCons(RenderData(render, first.1), RenderEach(render, Values(rest)));
      RenderItemsCollect(render, rest);
      var out := RenderItems(render, items);
      if out.Returns? {
        var v := RenderData(render, first.1).value;
        var vs := RenderItems(render, rest).value;
        assert out.value == [(first.0, v)] + vs;
        ValuesCons((first.0, v), vs);
      }
    }
  }

  /** `_render_dict_templates` walks depth first, in order: a list or dict
      raises the exception of its first child that raises, and a string is
      rendered by `_render_template`. */
  lemma RenderDataCollect(render: Renderer, data: Value)
    ensures data.List? ==>
      RenderData(render, data) == match Collect(RenderEach(render, data.elems))
                                  case Raises(e) => Raises(e)
                                  case Returns(vs) => Returns(List(vs))
    ensures data.Dict? ==>
      (RenderData(render, data).Raises? <==> Collect(RenderEach(render, Values(data.items))).Raises?)
    ensures data.Dict? && RenderData(render, data).Raises? ==>
      RenderData(render, data).exc == Collect(RenderEach(render, Values(data.items))).exc
    ensures data.Str? ==> RenderData(render, data) == RenderTemplate(render, data)
  {
    match data
    case List(es) => RenderListCollect(render, es);
    case Dict(items) => RenderItemsCollect(render, items);
    case _ =>
  }

  /** `action.split(".", 1)` unpacked into two names: the text before the
      first dot and everything after it, which may hold further dots. A name
      without a dot does not unpack. */
  function SplitService(action: string): (r: Outcome<(string, string)>)
    ensures r.Raises? <==> '.' !in action
    ensures r.Raises? ==> r.exc.ValueError?
    ensures r.Returns? ==> action == r.value.0 + "." + r.value.1 && '.' !in r.value.0
  {
    if action == [] then Raises(ValueError("not enough values to unpack (expected 2, got 1)"))
    else if action[0] == '.' then
      assert action == "" + "." + action[1..];
      Returns(("", action[1..]))
    else
      assert action == [action[0]] + action[1..];
      match SplitService(action[1..])
      case Raises(e) => Raises(e)
      case Returns(p) =>
        assert action == ([action[0]] + p.0) + "." + p.1;
        Returns(([action[0]] + p.0, p.1))
  }

  /** The split is the only one whose first part holds no dot. */
  lemma {:induction false} SplitServiceUnique(domain: string, service: string)
    requires '.' !in domain
    ensures SplitService(domain + "." + service) == Returns((domain, service))
  {
    var action := domain + "." + service;
    if domain == [] {
      assert action[0] == '.' && action[1..] == service;
    } else {
      assert action[0] == domain[0] != '.';
      assert action[1..] == domain[1..] + "." + service;
      assert forall c | c in domain[1..] :: c in domain;
      SplitServiceUnique(domain[1..], service);
      assert [action[0]] + domain[1..] == domain;
    }
  }

  /** `{"version": version, "backup": should_backup, **kwargs}` */
  function BasePayload(version: Option<string>, shouldBackup: bool, kwargs: Mapping): Mapping {
    Update(CallItems(version, shouldBackup), kwargs)
  }

  /** `{"version": version, "backup": should_backup}` */
  function CallItems(version: Option<string>, shouldBackup: bool): Mapping {
    [("version", match version case Some(v) => Str(v) case None => Nil), ("backup", Bool(shouldBackup))]
  }

  lemma CallItemsKeys(version: Option<string>, shouldBackup: bool)
    ensures Keys(CallItems(version, shouldBackup)) == ["version", "backup"]
    ensures DistinctKeys(CallItems(version, shouldBackup))
  {
  }

  /** What the call's own parameters put in the payload, key by key. */
  lemma CallItemsGet(version: Option<string>, shouldBackup: bool, k: string)
    ensures Get(CallItems(version, shouldBackup), k) ==
      if k == "backup" then Some(Bool(shouldBackup))
      else if k == "version" then Some(match version case Some(v) => Str(v) case None => Nil)
      else None
  {
    CallItemsKeys(version, shouldBackup);
  }

  /** What `async_install` does with the entity's configuration: no call
      (Returns(None)), one service call, or an exception. */
  function InstallPlan(render: Renderer, config: Mapping, version: Option<string>,
                       shouldBackup: bool, kwargs: Mapping): (r: Outcome<Option<ServiceCall>>)
    ensures GetOr(config, "install_action", Nil) == Nil ==> r == Returns(None)
    ensures r.Returns? && r.value.Some? ==>
      var ia := GetOr(config, "install_action", Nil);
      && ia.Dict? && "action" in Keys(ia.items)
      && RenderTemplate(render, Get(ia.items, "action").value)
         == Returns(Str(r.value.value.domain + "." + r.value.value.service))
      && '.' !in r.value.value.domain
      && RenderData(render, GetOr(ia.items, "data", Dict([]))).Returns?
      && RenderData(render, GetOr(ia.items, "data", Dict([]))).value.Dict?
      && r.value.value.data
         == Update(BasePayload(version, shouldBackup, kwargs),
                   RenderData(render, GetOr(ia.items, "data", Dict([]))).value.items)
  {
    var ia := GetOr(config, "install_action", Nil);
    if ia == Nil then Returns(None)
    else if !ia.Dict? then Raises(TypeError)
    else if "action" !in Keys(ia.items) then Raises(KeyError("action"))
    else
      match RenderTemplate(render, Get(ia.items, "action").value)
      case Raises(e) => Raises(e)
      case Returns(action) =>
        if !Truthy(action) then Returns(None)
        else
          match RenderData(render, GetOr(ia.items, "data", Dict([])))
          case Raises(e) => Raises(e)
          case Returns(rendered) =>
            if !rendered.Dict? then Returns(None)
            else if !action.Str? then Raises(AttributeError)
            else
              match SplitService(action.s)
              case Raises(e) => Raises(e)
              case Returns(names) =>
                Returns(Some(ServiceCall(names.0, names.1,
                  Update(BasePayload(version, shouldBackup, kwargs), rendered.items))))
  }

  /** The install action makes no call exactly when no install action is
      configured, the rendered action is falsy, or the rendered data is not a dict. */
  lemma InstallNoCall(render: Renderer, config: Mapping, version: Option<string>,
                      shouldBackup: bool, kwargs: Mapping)
    ensures InstallPlan(render, config, version, shouldBackup, kwargs) == Returns(None) <==>
      var ia := GetOr(config, "install_action", Nil);
      || ia == Nil
      || (&& ia.Dict? && "action" in Keys(ia.items)
          && RenderTemplate(render, Get(ia.items, "action").value).Returns?
          && (|| !Truthy(RenderTemplate(render, Get(ia.items, "action").value).value)
              || (&& RenderData(render, GetOr(ia.items, "data", Dict([]))).Returns?
                  && !RenderData(render, GetOr(ia.items, "data", Dict([]))).value.Dict?)))
  {
  }

  /** The install action dispatches: with an action that renders to a string
      holding a dot and data that renders to a dict, the call goes to the
      service named by the split action, with the payload updated by the
      rendered data; the payload holds every key once. */
  lemma InstallCalls(render: Renderer, config: Mapping, version: Option<string>,
                     shouldBackup: bool, kwargs: Mapping, items: Mapping, action: string, rendered: Mapping)
    requires GetOr(config, "install_action", Nil) == Dict(items) && "action" in Keys(items)
    requires RenderTemplate(render, Get(items, "action").value) == Returns(Str(action))
    requires '.' in action
    requires RenderData(render, GetOr(items, "data", Dict([]))) == Returns(Dict(rendered))
    ensures SplitService(action).Returns?
    ensures InstallPlan(render, config, version, shouldBackup, kwargs) ==
      Returns(Some(ServiceCall(SplitService(action).value.0, SplitService(action).value.1,
                               Update(BasePayload(version, shouldBackup, kwargs), rendered))))
    ensures DistinctKeys(Update(BasePayload(version, shouldBackup, kwargs), rendered))
  {
    CallItemsKeys(version, shouldBackup);
    UpdateDistinct(CallItems(version, shouldBackup), kwargs);
    UpdateDistinct(BasePayload(version, shouldBackup, kwargs), rendered);
  }

  /** The exception the install action raises, guard by guard: TypeError for
      an install action that is not a dict, KeyError without `action`, the
      rendering's own exception for the action or the data, AttributeError
      for a rendered action that is not a string, ValueError for one without
      a dot. */
  lemma InstallRaises(render: Renderer, config: Mapping, version: Option<string>,
                      shouldBackup: bool, kwargs: Mapping)
    ensures var ia := GetOr(config, "install_action", Nil);
      ia != Nil && !ia.Dict? ==> InstallPlan(render, config, version, shouldBackup, kwargs) == Raises(TypeError)
    ensures var ia := GetOr(config, "install_action", Nil);
      ia.Dict? && "action" !in Keys(ia.items) ==>
        InstallPlan(render, config, version, shouldBackup, kwargs) == Raises(KeyError("action"))
    ensures var ia := GetOr(config, "install_action", Nil);
      ia.Dict? && "action" in Keys(ia.items) && RenderTemplate(render, Get(ia.items, "action").value).Raises? ==>
        InstallPlan(render, config, version, shouldBackup, kwargs)
        == Raises(RenderTemplate(render, Get(ia.items, "action").value).exc)
    ensures var ia := GetOr(config, "install_action", Nil);
      && ia.Dict? && "action" in Keys(ia.items)
      && RenderTemplate(render, Get(ia.items, "action").value).Returns?
      && Truthy(RenderTemplate(render, Get(ia.items, "action").value).value)
      && RenderData(render, GetOr(ia.items, "data", Dict([]))).Raises?
      ==> InstallPlan(render, config, version, shouldBackup, kwargs)
          == Raises(RenderData(render, GetOr(ia.items, "data", Dict([]))).exc)
    ensures var ia := GetOr(config, "install_action", Nil);
      && ia.Dict? && "action" in Keys(ia.items)
      && RenderTemplate(render, Get(ia.items, "action").value).Returns?
      && Truthy(RenderTemplate(render, Get(ia.items, "action").value).value)
      && RenderData(render, GetOr(ia.items, "data", Dict([]))).Returns?
      && RenderData(render, GetOr(ia.items, "data", Dict([]))).value.Dict?
      ==> var action := RenderTemplate(render, Get(ia.items, "action").value).value;
          && (!action.Str? ==> InstallPlan(render, config, version, shouldBackup, kwargs) == Raises(AttributeError))
          && (action.Str? && '.' !in action.s ==>
                InstallPlan(render, config, version, shouldBackup, kwargs).Raises?
                && InstallPlan(render, config, version, shouldBackup, kwargs).exc.ValueError?)
  {
  }

  /** The dispatched payload: a key of the rendered data takes its rendered
      value; otherwise a keyword argument's value; otherwise `backup` and
      `version` come from the call's own parameters. */
  lemma {:induction false} PayloadGet(version: Option<string>, shouldBackup: bool,
                                      kwargs: Mapping, rendered: Mapping, k: string)
    requires DistinctKeys(kwargs) && DistinctKeys(rendered)
    requires "version" !in Keys(kwargs)
    ensures Get(Update(BasePayload(version, shouldBackup, kwargs), rendered), k) ==
      if k in Keys(rendered) then Get(rendered, k)
      else if k in Keys(kwargs) then Get(kwargs, k)
      else if k == "backup" then Some(Bool(shouldBackup))
      else if k == "version" then Some(match version case Some(v) => Str(v) case None => Nil)
      else None
  {
    UpdateGet(BasePayload(version, shouldBackup, kwargs), rendered, k);
    UpdateGet(CallItems(version, shouldBackup), kwargs, k);
    CallItemsGet(version, shouldBackup, k);
  }

  /** The update entity. Its attributes are set once, at construction, and
      never reassigned; its templates are built then, and every read renders
      them again. */
  class TemplateUpdateEntity {
    /** The entity configuration `__init__` receives. */
    const config: Mapping
    /** `hass.services` of the host the entity belongs to. */
    const services: ServiceRegistry

    // The attributes `__init__` derives from the configuration; none is
    // reassigned afterwards.
    const name: Value := GetOr(config, "name", Nil)
    const uniqueId: Value := GetOr(config, "name", Nil)
    const supportedFeatures: bv32 := Features(config)
    const autoUpdate: Value := GetOr(config, "auto_update", Bool(false))
    const installedVersionTemplate: Option<Template> := ConfigTemplate(config, "installed_version")
    const latestVersionTemplate: Option<Template> := ConfigTemplate(config, "latest_version")
    const releaseNotesTemplate: Option<Template> := ConfigTemplate(config, "release_notes")
    const titleTemplate: Option<Template> := ConfigTemplate(config, "title")
    const entityPictureTemplate: Option<Template> := ConfigTemplate(config, "entity_picture")
    const availabilityTemplate: Option<Template> := ConfigTemplate(config, "availability")
    const installAction: Value := GetOr(config, "install_action", Dict([]))
    const deviceClass: Option<Value> :=
      if Truthy(GetOr(config, "device_class", Nil)) then Some(GetOr(config, "device_class", Nil)) else None

    /** Construction got past both required templates. */
    ghost predicate Valid() {
      installedVersionTemplate.Some? && latestVersionTemplate.Some?
    }

    /** The entity was constructed from configuration `c`. */
    ghost predicate BuiltFrom(c: Mapping) {
      config == c && Valid()
    }

    /** `__init__`, for a configuration that holds both required templates;
        `Construct` is the call that may raise. */
    constructor (hass: ServiceRegistry, c: Mapping)
      requires ConstructionError(c) == None
      ensures BuiltFrom(c) && services == hass
    {
      services := hass;
      config := c;
    }

    function InstalledVersion(render: Renderer): (r: Outcome<Option<string>>)
      requires Valid()
      ensures render(installedVersionTemplate.value, []).Rendered? ==>
        r == Returns(Some(PyStr(render(installedVersionTemplate.value, []).value)))
      ensures r == Returns(None) <==>
        render(installedVersionTemplate.value, []).RenderRaised? && CaughtOnRead(render(installedVersionTemplate.value, []).exc)
      ensures render(installedVersionTemplate.value, []).RenderRaised? && !CaughtOnRead(render(installedVersionTemplate.value, []).exc) ==>
        r == Raises(render(installedVersionTemplate.value, []).exc)
    {
      ReadString(render, installedVersionTemplate)
    }

    function LatestVersion(render: Renderer): (r: Outcome<Option<string>>)
      requires Valid()
      ensures render(latestVersionTemplate.value, []).Rendered? ==>
        r == Returns(Some(PyStr(render(latestVersionTemplate.value, []).value)))
      ensures r == Returns(None) <==>
        render(latestVersionTemplate.value, []).RenderRaised? && CaughtOnRead(render(latestVersionTemplate.value, []).exc)
      ensures render(latestVersionTemplate.value, []).RenderRaised? && !CaughtOnRead(render(latestVersionTemplate.value, []).exc) ==>
        r == Raises(render(latestVersionTemplate.value, []).exc)
    {
      ReadString(render, latestVersionTemplate)
    }

    function ReleaseNotes(render: Renderer): (r: Outcome<Option<string>>)
      ensures releaseNotesTemplate.None? ==> r == Returns(None)
      ensures r.Raises? ==> releaseNotesTemplate.Some?
      ensures releaseNotesTemplate.Some? && render(releaseNotesTemplate.value, []).Rendered? ==>
        r == Returns(Some(PyStr(render(releaseNotesTemplate.value, []).value)))
      ensures releaseNotesTemplate.Some? && render(releaseNotesTemplate.value, []).RenderRaised? ==>
        r == if CaughtOnRead(render(releaseNotesTemplate.value, []).exc) then Returns(None)
             else Raises(render(releaseNotesTemplate.value, []).exc)
    {
      ReadString(render, releaseNotesTemplate)
    }

    function Title(render: Renderer): (r: Outcome<Option<string>>)
      ensures titleTemplate.None? ==> r == Returns(None)
      ensures r.Raises? ==> titleTemplate.Some?
      ensures titleTemplate.Some? && render(titleTemplate.value, []).Rendered? ==>
        r == Returns(Some(PyStr(render(titleTemplate.value, []).value)))
      ensures titleTemplate.Some? && render(titleTemplate.value, []).RenderRaised? ==>
        r == if CaughtOnRead(render(titleTemplate.value, []).exc) then Returns(None)
             else Raises(render(titleTemplate.value, []).exc)
    {
      ReadString(render, titleTemplate)
    }

    function EntityPicture(render: Renderer): (r: Outcome<Option<string>>)
      ensures entityPictureTemplate.None? ==> r == Returns(None)
      ensures r.Raises? ==> entityPictureTemplate.Some?
      ensures entityPictureTemplate.Some? && render(entityPictureTemplate.value, []).Rendered? ==>
        r == Returns(Some(PyStr(render(entityPictureTemplate.value, []).value)))
      ensures entityPictureTemplate.Some? && render(entityPictureTemplate.value, []).RenderRaised? ==>
        r == if CaughtOnRead(render(entityPictureTemplate.value, []).exc) then Returns(None)
             else Raises(render(entityPictureTemplate.value, []).exc)
    {
      ReadString(render, entityPictureTemplate)
    }

    /** `available`: True without an availability template, the truth value
        of the rendered result otherwise, False when rendering raises
        ValueError or TypeError. */
    function Available(render: Renderer): (r: Outcome<bool>)
      ensures availabilityTemplate.None? ==> r == Returns(true)
      ensures availabilityTemplate.Some? && render(availabilityTemplate.value, []).RenderRaised? ==>
        r == if CaughtOnRead(render(availabilityTemplate.value, []).exc) then Returns(false)
             else Raises(render(availabilityTemplate.value, []).exc)
      ensures r == Returns(true) ==>
        availabilityTemplate.None? || Truthy(render(availabilityTemplate.value, []).value)
      ensures availabilityTemplate.Some? && render(availabilityTemplate.value, []).Rendered? ==>
        r == Returns(Truthy(render(availabilityTemplate.value, []).value))
    {
      match availabilityTemplate
      case None => Returns(true)
      case Some(t) =>
        match render(t, [])
        case Rendered(v) => Returns(Truthy(v))
        case RenderRaised(e) => if CaughtOnRead(e) then Returns(false) else Raises(e)
    }

    /** `async_install(version, should_backup=..., **kwargs)`: dispatches the
        service call `InstallPlan` describes, or none. */
    method AsyncInstall(render: Renderer, version: Option<string>, shouldBackup: bool, kwargs: Mapping)
      returns (r: Outcome<()>)
      modifies services
      ensures r.Raises? <==> InstallPlan(render, config, version, shouldBackup, kwargs).Raises?
      ensures r.Raises? ==> r.exc == InstallPlan(render, config, version, shouldBackup, kwargs).exc
      ensures services.calls == old(services.calls) +
        match InstallPlan(render, config, version, shouldBackup, kwargs)
        case Returns(Some(call)) => [call]
        case _ => []
    {
      var installAction := GetOr(config, "install_action", Nil);
      if installAction == Nil {
        return Returns(());
      }
      if !installAction.Dict? {
        return Raises(TypeError);
      }
      if "action" !in Keys(installAction.items) {
        return Raises(KeyError("action"));
      }
      var action := RenderTemplate(render, Get(installAction.items, "action").value);
      if action.Raises? {
        return Raises(action.exc);
      }
      if !Truthy(action.value) {
        return Returns(());
      }
      var templateData := GetOr(installAction.items, "data", Dict([]));
      var renderedData := RenderData(render, templateData);
      if renderedData.Raises? {
        return Raises(renderedData.exc);
      }
      var data := BasePayload(version, shouldBackup, kwargs);
      if !renderedData.value.Dict? {
        return Returns(());
      }
      // data.update(rendered_data)
      var rendered := renderedData.value.items;
      ghost var base := data;
      for i := 0 to |rendered|
        invariant Update(data, rendered[i..]) == Update(base, rendered)
      {
        assert rendered[i..][1..] == rendered[i + 1..];
        data := SetItem(data, rendered[i].0, rendered[i].1);
      }
      if !action.value.Str? {
        return Raises(AttributeError);
      }
      var names := SplitService(action.value.s);
      if names.Raises? {
        return Raises(names.exc);
      }
      services.AsyncCall(names.value.0, names.value.1, data);
      r := Returns(());
    }
  }

  /** Constructing the entity: ValueError when a required template is
      missing, otherwise a new entity built from the configuration. */
  method Construct(hass: ServiceRegistry, config: Mapping) returns (r: Outcome<TemplateUpdateEntity>)
    ensures r.Raises? <==> ConstructionError(config).Some?
    ensures r.Raises? ==> r.exc == ConstructionError(config).value
    ensures r.Returns? ==> fresh(r.value) && r.value.BuiltFrom(config) && r.value.services == hass
  {
    var err := ConstructionError(config);
    if err.Some? {
      return Raises(err.value);
    }
    var entity := new TemplateUpdateEntity(hass, config);
    r := Returns(entity);
  }
}
