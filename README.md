# template_update in Dafny

A model of the Home Assistant custom integration `template_update`. The
integration turns YAML configuration into update entities whose versions,
release notes, title, picture and availability come from templates, and whose
install action calls a host service built from templates.

The model has five modules:

- `Py` (py.dfy): the Python values the integration handles.
  - `None`, booleans, integers, strings, lists and dicts. Dicts are ordered lists of `(key, value)` pairs with string keys.
  - `dict.get`, `d[k] = v`, `dict.update` and `str()`.
  - The Python exceptions that matter here.
  - `Outcome`: returning a value or raising.
  - `Collect`: running calls in order until the first one raises.
- `Host` (host.dfy): the parts of Home Assistant the integration calls.
  - A template is its source text.
  - The renderer is a function parameter `(Template, variables) -> Rendered(value) | RenderRaised(exception)`.
  - `hass.services` records every `async_call` it receives.
- `Update` (update.py): the entity, with these parts:
  - construction, including the supported-feature mask and `config_template`;
  - the read accessors;
  - `_render_template` and `_render_dict_templates`;
  - `async_install`. A pure function `InstallPlan` specifies it, and the method is proved against that function.
- `Schema` (the schemas in `__init__.py`): which configurations CONFIG_SCHEMA accepts, and what it hands on.
- `Setup` (`__init__.py`):
  - `_render_template_value`;
  - `_process_template_config`, as a loop proved against `ExpandTemplate`;
  - `_create_entity_from_config`;
  - `_process_for_each_config`, as a loop proved against `ForEachConfigs`;
  - the block loop of `async_setup`, proved against `SetupConfigs`;
  - `_load_entities`. Discovery is a class that records each platform load.

The entity is a class. Its attributes are `const` fields that `__init__`
computes from the configuration. None of them is reassigned afterwards.

The loops of `async_setup`, `_process_for_each_config`,
`_process_template_config` and `async_install` are methods with `for` loops
and invariants. Each is proved against a pure function. Lemmas state what
those functions promise.

The model follows the code in these cases where it can raise:

- The accessors catch only ValueError and TypeError. Any other exception of the renderer propagates, for example TemplateError.
- `async_install` can raise in several cases:
  - TypeError when `install_action` is not a dict;
  - KeyError when `install_action` has no `action`;
  - the renderer's own exception, other than TemplateError, for the action or the data;
  - AttributeError when the rendered action is not a string;
  - ValueError when the rendered action holds no dot.
- `async_setup` returns True whenever it returns. It raises ValueError, though, when a `for_each` expansion loses `installed_version` or `latest_version` because that field's render gave None.
- `_process_for_each_config` raises AttributeError for an element that is not a dict. On a configuration CONFIG_SCHEMA accepted, every element is a dict, so `async_setup` never meets this case.

## Model

| member | source | states |
|---|---|---|
| Update.FeaturesBits | custom_components/template_update/update.py:43-52 | INSTALL and SPECIFIC_VERSION are supported exactly when `install_action` is truthy, and RELEASE_NOTES exactly when `release_notes` is truthy. No other feature bit is ever set. |
| Update.ConfigTemplate | custom_components/template_update/update.py:62-70 | A template exists exactly when the key is in the config. A falsy value gives the empty template. A truthy value gives its `str()`, so a string gives itself and, for example, `Int(2)` gives `"2"`. |
| Update.ConstructionError | custom_components/template_update/update.py:62-75 | Construction raises ValueError exactly when `installed_version` or `latest_version` is missing. |
| Update.Construct | custom_components/template_update/update.py:35-92 | Raises that ValueError. Otherwise it returns a new entity whose configuration is the given one, with both required templates present. |
| Update.TemplateUpdateEntity.constructor | custom_components/template_update/update.py:35-92 | Stores the host and the configuration. Every attribute follows from them: name, unique id, feature mask, auto_update with default False, templates with optional ones None, device class only when truthy. |
| Update.ReadString | custom_components/template_update/update.py:128-142 | None when there is no template. None when rendering raises ValueError or TypeError. Rendering's own exception when it raises anything else. Otherwise `str()` of the rendered value. |
| Update.TemplateUpdateEntity.InstalledVersion | custom_components/template_update/update.py:94-109 | `str()` of the rendered installed version when rendering succeeds. None exactly when rendering raises ValueError or TypeError. Any other exception of rendering propagates. |
| Update.TemplateUpdateEntity.LatestVersion | custom_components/template_update/update.py:110-125 | `str()` of the rendered latest version when rendering succeeds. None exactly when rendering raises ValueError or TypeError. Any other exception of rendering propagates. |
| Update.TemplateUpdateEntity.ReleaseNotes | custom_components/template_update/update.py:126-142 | None when release notes are not configured. Otherwise `str()` of the rendered notes; None when rendering raises ValueError or TypeError, and any other exception propagates. |
| Update.TemplateUpdateEntity.Title | custom_components/template_update/update.py:144-157 | None when no title is configured. Otherwise `str()` of the rendered title; None when rendering raises ValueError or TypeError, and any other exception propagates. |
| Update.TemplateUpdateEntity.EntityPicture | custom_components/template_update/update.py:159-175 | None when no picture is configured. Otherwise `str()` of the rendered picture; None when rendering raises ValueError or TypeError, and any other exception propagates. |
| Update.TemplateUpdateEntity.Available | custom_components/template_update/update.py:177-193 | True without an availability template. The truth value of the rendered result when rendering succeeds. False when rendering raises ValueError or TypeError; other exceptions propagate. |
| Update.RenderTemplate | custom_components/template_update/update.py:207-233 | None for a falsy source. TypeError for a truthy non-string source. For a truthy string: the rendered value when rendering succeeds, None when it raises TemplateError, and any other exception propagates. |
| Update.RenderData | custom_components/template_update/update.py:195-205 | Raises exactly when some string leaf's rendering raises. Otherwise the result has the same shape: dicts keep their keys in order, lists keep length and order, non-string leaves are unchanged, and each string leaf becomes its `_render_template` result. |
| Update.RenderList | custom_components/template_update/update.py:201-202 | A list of the same length, each element rendered from the element at its place. Raises exactly when some element raises. |
| Update.RenderItems | custom_components/template_update/update.py:197-200 | The same keys in the same order, each value rendered from the value at its place. Raises exactly when some value raises. |
| Update.RenderListCollect | custom_components/template_update/update.py:201-202 | A list is rendered element after element. The result is the rendered elements, or the exception of the first element that raises. |
| Update.RenderItemsCollect | custom_components/template_update/update.py:197-200 | A dict is rendered value after value, in key order. It raises exactly when that run raises, with the exception of the first value that raises; otherwise its values are the rendered values. |
| Update.RenderDataCollect | custom_components/template_update/update.py:195-205 | The walk is depth first and in order: a list or dict raises the exception of its first child that raises, a list otherwise becomes the list of rendered elements, and a string is rendered by `_render_template`. |
| Py.CollectCons | custom_components/template_update/update.py:197-202 | Running a first call and then the rest gives the first call's exception, or its value in front of the rest's run. |
| Update.SplitService | custom_components/template_update/update.py:286 | Raises ValueError exactly when the action holds no dot. Otherwise the action is `domain + "." + service`, and the domain holds no dot. |
| Update.SplitServiceUnique | custom_components/template_update/update.py:286 | Splitting `domain.service`, for a domain without a dot, gives back exactly that domain and that service, even when the service holds dots. |
| Update.InstallPlan | custom_components/template_update/update.py:249-294 | No call without an install action. Any call it makes has these properties: its `domain.service` is the rendered action, the rendered data is a dict, and the payload is `{version, backup, **kwargs}` updated with the rendered data. |
| Update.InstallCalls | custom_components/template_update/update.py:249-294 | With an action that renders to a string holding a dot and data that renders to a dict, the call is made: to the service named by splitting the action at its first dot, with `{version, backup, **kwargs}` updated by the rendered data. That payload holds every key once. |
| Update.InstallRaises | custom_components/template_update/update.py:249-294 | The exception of each guard: TypeError for an install action that is not a dict, KeyError without `action`, the rendering's own exception for the action or the data, AttributeError for a rendered action that is not a string, ValueError for one without a dot. |
| Update.InstallNoCall | custom_components/template_update/update.py:249-283 | No call and no exception, exactly when one of these holds: no install action is configured, the rendered action is falsy, or the rendered data is not a dict. |
| Update.PayloadGet | custom_components/template_update/update.py:268-275 | A payload key holds the first of these that has it: the rendered data, then the kwargs, then `backup` and `version` from the call. No other key is present. |
| Update.TemplateUpdateEntity.AsyncInstall | custom_components/template_update/update.py:236-294 | Raises exactly when `InstallPlan` raises, with the same exception. The host's service calls grow by exactly the call `InstallPlan` describes, or stay unchanged. The `data.update` loop is proved to compute `dict.update`. |
| Py.UpdateGet | custom_components/template_update/update.py:275 | After `m.update(o)`, a key of `o` holds its value in `o`, and every other key holds its value in `m`. |
| Py.SetItem | custom_components/template_update/__init__.py:173-176 | `d[k] = v`: an existing key keeps its place and a new key goes last. `k` then holds `v`, and every other key is unchanged. |
| Schema.ValidateItem | custom_components/template_update/__init__.py:50-63 | Accepts exactly the item configurations the item schema accepts. The result keeps every given key's value, holds `auto_update` (default False), and is a valid item. Its keys are the given keys in order, with `auto_update` appended when it was missing; no other key is added. |
| Schema.AppendAutoUpdate | custom_components/template_update/__init__.py:61 | Adding the `auto_update` default keeps an accepted item accepted, and changes no other key. |
| Schema.ValidateForEach | custom_components/template_update/__init__.py:65-74 | Accepts exactly a single `for_each` key holding only `elements` and `update`, where the elements after ensure_list are dicts and `update` is an accepted item. The result keeps that one key, with `elements` the ensure_list of the given value and `update` the validated item. |
| Schema.ValidateBlock | custom_components/template_update/__init__.py:80 | Accepts exactly a dict that the item schema or the for_each schema accepts. It hands on the item schema's result when that accepts, and the for_each schema's result otherwise. |
| Schema.ValidateBlocks | custom_components/template_update/__init__.py:78-81 | The list is accepted exactly when every entry is. Then the result has the same length, and each entry is the validated entry at its place. |
| Schema.ValidateConfig | custom_components/template_update/__init__.py:76-84 | A config without the domain passes unchanged. Otherwise it is accepted exactly when the domain's entry, after ensure_list, is accepted as a list of blocks. The domain then holds that validated list, and every other key is unchanged. |
| Setup.RenderTemplateValue | custom_components/template_update/__init__.py:149-160 | None whenever rendering raises, whatever the exception. Otherwise the rendered value. |
| Setup.ExpandValue | custom_components/template_update/__init__.py:169-177 | A non-string value is copied unchanged. A string becomes its rendered value, and the field is dropped exactly when that value is None. |
| Setup.ExpandTemplateKeys | custom_components/template_update/__init__.py:163-179 | The expanded configuration holds only keys of the template. |
| Setup.ExpandTemplateGet | custom_components/template_update/__init__.py:163-179 | For every key: a template key holds its expanded value, or is absent when that is dropped. A key outside the template is absent. |
| Setup.ProcessTemplateConfig | custom_components/template_update/__init__.py:163-179 | The key-by-key loop builds exactly `ExpandTemplate`. |
| Setup.WithDefaultName | custom_components/template_update/__init__.py:189-191 | `name` becomes `template_update_<item_id>` when `item_id` is truthy and `name` is absent. Otherwise the configuration is untouched. |
| Setup.WithDefaultNameGet | custom_components/template_update/__init__.py:189-191 | Supplying the default name changes no other key. |
| Setup.CreateEntityFromConfig | custom_components/template_update/__init__.py:182-194 | Raises exactly when the named configuration lacks a required template. Otherwise a new entity built from that configuration. |
| Setup.ElementConfig | custom_components/template_update/__init__.py:136-142 | AttributeError for an element that is not a dict. Otherwise only ValueError. |
| Setup.ElementConfigKeys | custom_components/template_update/__init__.py:139-142 | For a dict element, building raises exactly when the expansion lost `installed_version` or `latest_version`. |
| Setup.ElementConfigGet | custom_components/template_update/__init__.py:139-142 | Apart from `name`, an element's configuration is the expanded template. |
| Setup.ElementConfigReturns | custom_components/template_update/__init__.py:134-142 | An element yields an entity exactly when it is a dict and the expansion keeps both required templates. |
| Setup.ProcessElement | custom_components/template_update/__init__.py:134-143 | The loop body for one element raises exactly as `ElementConfig` does. Otherwise it returns a new entity built from the configuration `ElementConfig` gives. |
| Setup.ForEachConfigsElements | custom_components/template_update/__init__.py:134-146 | When no element raises: exactly one configuration per element, in element order. Otherwise the exception of the first element that raises, all earlier elements having succeeded. |
| Setup.ProcessForEachConfig | custom_components/template_update/__init__.py:123-146 | The loop raises exactly as `ForEachConfigs` does. Otherwise it returns new entities, the i-th built from the i-th element's configuration. |
| Setup.ForEachKeyMarksBlock | custom_components/template_update/__init__.py:100 | In an accepted block, `for_each` is present exactly when the block is a for_each block. |
| Setup.ItemBlockConfigs | custom_components/template_update/__init__.py:109-113 | A valid item block builds exactly one entity, from its own configuration. |
| Setup.ItemBlocksConfigs | custom_components/template_update/__init__.py:99-117 | A list of item blocks builds one entity per block, in block order, and never raises. |
| Setup.SetupConfigsConcat | custom_components/template_update/__init__.py:99-118 | Setting up two runs of blocks concatenates their configurations, and the first run's exception wins. |
| Setup.SetupRaisesFrom | custom_components/template_update/__init__.py:99-118 | Once some leading blocks raise, the whole setup raises the same exception. |
| Setup.ProcessBlock | custom_components/template_update/__init__.py:100-113 | A for_each block yields its elements' entities. Any other block yields the entity of its own configuration. Raises exactly as `BlockConfigs` does. |
| Setup.ProcessBlocks | custom_components/template_update/__init__.py:95-118 | The block loop raises exactly as `SetupConfigs` does. Otherwise it returns new entities, the i-th built from the i-th configuration of all blocks concatenated. |
| Setup.LoadEntities | custom_components/template_update/__init__.py:197-216 | No load for an empty entity list. Otherwise exactly one load of the `update` platform for the domain, with the entities and the config; an exception from discovery is swallowed. |
| Setup.AsyncSetup | custom_components/template_update/__init__.py:87-120 | True with nothing loaded when the domain is absent. Otherwise raises exactly as `SetupConfigs` does, loading nothing. If it succeeds, it returns True and performs one load of new entities built from the concatenated block configurations, or none when there are none. |
| Setup.NoInstallActionNoInstall | custom_components/template_update/update.py:45-49 | A valid item without `install_action` constructs, supports neither INSTALL nor SPECIFIC_VERSION, and its install makes no call. |

## Left out

- Logging (`_LOGGER.*`) is left out: it has no effect on results.
- async/await and event-loop scheduling are left out: nothing here runs concurrently.
- The template engine is a function parameter of the model. Its Jinja semantics and its parsing of rendered text into native types live inside that parameter.
- Template variables are modelled only for `_render_template_value`. The accessors and `_render_template` pass none, as the code does.
- The host's `Template` objects are represented by their text. `if not template` on a configured template is taken to be false, because a template object is truthy. The `isinstance(template_str, Template)` branch of `_render_template` is not modelled: it is never reached, since the action always comes from the configuration as text.
- `str()` of lists and dicts is a simplified repr without escaping. Floats and non-string dict keys are not part of the value model.
- `hass.services.async_call` is recorded, not run. An exception it raises is not modelled.
- `discovery.async_load_platform` is recorded, and whether it raises is a fixed property of the discovery object. The entity platform that receives the entities is not part of this model.
- `cv.string` and `cv.boolean` are modelled as type checks: a value that is already a string or a boolean. Their coercion of other types is not modelled. Within `vol.Or`, only the order item-then-for_each is modelled.
- `Setup.AsyncSetup` requires a configuration that CONFIG_SCHEMA accepted. The host validates the configuration before calling `async_setup`.
- `_create_entity_from_config` writes `name` into the caller's dict in place. The model works on the value. The write happens before the entity stores the dict, and the only other later read of that dict is a debug log.
- `custom_components/template_update/const.py` is not part of this model: its string literals are used directly.
- `CONF_ELEMENTS` is imported by `custom_components/template_update/__init__.py:22`, but `const.py` does not define it, so the package as written fails to import. The model assumes the key `"elements"`, after the constant's name; that key is an assumption, not something the source states.
- Setup.ElementConfig: the contract states the error cases only; `Setup.ElementConfigKeys`, `Setup.ElementConfigGet` and `Setup.ElementConfigReturns` state the rest.
