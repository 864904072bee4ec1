/** The configuration schema of the integration (CONFIG_SCHEMA and the schemas
    it is built from, in custom_components/template_update/__init__.py): which
    configurations it accepts and what it hands on, with `auto_update`
    defaulted and lists ensured. */
module Schema {
  import opened Py

  const DOMAIN: string := "template_update"

  const ACTION_KEYS: seq<string> := ["action", "data", "target"]

  const ITEM_KEYS: seq<string> :=
    ["name", "installed_version", "latest_version", "release_notes", "title",
     "entity_picture", "device_class", "availability", "install_action", "auto_update"]

  const FOR_EACH_KEYS: seq<string> := ["elements", "update"]

  predicate HasStr(m: Mapping, k: string) {
    Get(m, k).Some? && Get(m, k).value.Str?
  }

  predicate OptionalStr(m: Mapping, k: string) {
    Get(m, k).Some? ==> Get(m, k).value.Str?
  }

  predicate OptionalDict(m: Mapping, k: string) {
    Get(m, k).Some? ==> Get(m, k).value.Dict?
  }

  /** The per-key conditions of the item schema, stated on `get` alone. */
  predicate ItemFields(c: Mapping) {
    && HasStr(c, "name") && HasStr(c, "installed_version") && HasStr(c, "latest_version")
    && OptionalStr(c, "release_notes") && OptionalStr(c, "title") && OptionalStr(c, "entity_picture")
    && OptionalStr(c, "device_class") && OptionalStr(c, "availability")
    && (Get(c, "install_action").Some? ==> ActionAccepted(Get(c, "install_action").value))
    && (Get(c, "auto_update").Some? ==> Get(c, "auto_update").value.Bool?)
  }

  predicate KeysWithin(m: Mapping, allowed: seq<string>) {
    forall k | k in Keys(m) :: k in allowed
  }

  /** ACTION_SCHEMA: a dict with a string `action`, optional dict `data` and
      `target`, and no other key. */
  predicate ActionAccepted(v: Value) {
    && v.Dict? && DistinctKeys(v.items) && KeysWithin(v.items, ACTION_KEYS)
    && HasStr(v.items, "action") && OptionalDict(v.items, "data") && OptionalDict(v.items, "target")
  }

  /** TEMPLATE_UPDATE_ITEM_SCHEMA: required `name`, `installed_version` and
      `latest_version`; optional string templates, an optional install action
      and an optional boolean `auto_update`; no other key. */
  predicate ItemAccepted(c: Mapping) {
    DistinctKeys(c) && KeysWithin(c, ITEM_KEYS) && ItemFields(c)
  }

  /** An item configuration as the schema hands it on. */
  predicate ValidItem(c: Mapping) {
    ItemAccepted(c) && "auto_update" in Keys(c)
  }

  /** The per-key conditions hold of any dict that agrees with an accepted one
      on every key but `auto_update` and holds a boolean there. */
  lemma ItemFieldsAgree(c: Mapping, r: Mapping)
    requires ItemFields(c)
    requires forall k | k != "auto_update" :: Get(r, k) == Get(c, k)
    requires Get(r, "auto_update") == Some(Bool(false))
    ensures ItemFields(r)
  {
    assert Get(r, "name") == Get(c, "name");
    assert Get(r, "installed_version") == Get(c, "installed_version");
    assert Get(r, "latest_version") == Get(c, "latest_version");
    assert Get(r, "install_action") == Get(c, "install_action");
  }

  /** Appending a new key leaves the keys distinct. */
  lemma AppendDistinct(c: Mapping, k: string, v: Value)
    requires DistinctKeys(c) && k !in Keys(c)
    ensures DistinctKeys(c + [(k, v)])
  {
    var r := c + [(k, v)];
    KeysSnoc(c, (k, v));
    DistinctKeysOf(c);
    DistinctKeysOf(r);
  }

  /** Appending the `auto_update` default keeps every accepted item accepted. */
  lemma AppendAutoUpdate(c: Mapping)
    requires ItemAccepted(c) && "auto_update" !in Keys(c)
    ensures var r := c + [("auto_update", Bool(false))];
      && ValidItem(r)
      && (forall k | k != "auto_update" :: Get(r, k) == Get(c, k))
      && Get(r, "auto_update") == Some(Bool(false))
  {
    var r := c + [("auto_update", Bool(false))];
    KeysSnoc(c, ("auto_update", Bool(false)));
    forall k | k != "auto_update" ensures Get(r, k) == Get(c, k) {
      GetAppend(c, "auto_update", Bool(false), k);
    }
    GetAppend(c, "auto_update", Bool(false), "auto_update");
    ItemFieldsAgree(c, r);
    AppendDistinct(c, "auto_update", Bool(false));
  }

  /** TEMPLATE_UPDATE_ITEM_SCHEMA applied to one configuration. */
  function ValidateItem(c: Mapping): (r: Option<Mapping>)
    ensures r.Some? <==> ItemAccepted(c)
    ensures r.Some? ==> ValidItem(r.value)
    ensures r.Some? ==> forall k | k in Keys(c) :: Get(r.value, k) == Get(c, k)
    ensures r.Some? ==> Get(r.value, "auto_update") == Some(GetOr(c, "auto_update", Bool(false)))
    ensures r.Some? ==>
      Keys(r.value) == if "auto_update" in Keys(c) then Keys(c) else Keys(c) + ["auto_update"]
  {
    if !ItemAccepted(c) then None
    else if "auto_update" in Keys(c) then Some(c)
    else
      AppendAutoUpdate(c);
      KeysSnoc(c, ("auto_update", Bool(false)));
      Some(c + [("auto_update", Bool(false))])
  }

  /** `cv.ensure_list` */
  function EnsureList(v: Value): seq<Value> {
    match v
    case Nil => []
    case List(es) => es
    case _ => [v]
  }

  /** A for_each block as the schema hands it on: its single key `for_each`
      holds `elements`, a list of dicts, and `update`, a valid item. */
  predicate ValidForEach(c: Mapping) {
    && |c| == 1 && c[0].0 == "for_each" && c[0].1.Dict?
    && var node := c[0].1.items;
    && DistinctKeys(node) && KeysWithin(node, FOR_EACH_KEYS)
    && "elements" in Keys(node) && Get(node, "elements").value.List?
    && (forall e | e in Get(node, "elements").value.elems :: e.Dict?)
    && "update" in Keys(node) && Get(node, "update").value.Dict?
    && ValidItem(Get(node, "update").value.items)
  }

  /** What TEMPLATE_UPDATE_FOR_EACH_SCHEMA accepts: the single key `for_each`
      holding a dict with exactly the keys `elements` and `update`, where
      `elements`, once a list, holds only dicts and `update` is an accepted item. */
  predicate ForEachAccepted(c: Mapping) {
    && |c| == 1 && c[0].0 == "for_each" && c[0].1.Dict?
    && var node := c[0].1.items;
    && DistinctKeys(node) && KeysWithin(node, FOR_EACH_KEYS)
    && "elements" in Keys(node) && "update" in Keys(node)
    && (forall e | e in EnsureList(Get(node, "elements").value) :: e.Dict?)
    && Get(node, "update").value.Dict? && ItemAccepted(Get(node, "update").value.items)
  }

  /** TEMPLATE_UPDATE_FOR_EACH_SCHEMA applied to one configuration: `elements`
      becomes its `ensure_list` and `update` its validated item. */
  function ValidateForEach(c: Mapping): (r: Option<Mapping>)
    ensures r.Some? <==> ForEachAccepted(c)
    ensures r.Some? ==> ValidForEach(r.value) && Keys(r.value) == Keys(c)
    ensures r.Some? ==>
      var node := c[0].1.items;
      var out := r.value[0].1.items;
      && Get(out, "elements") == Some(List(EnsureList(Get(node, "elements").value)))
      && Get(out, "update") == Some(Dict(ValidateItem(Get(node, "update").value.items).value))
  {
    if !ForEachAccepted(c) then None
    else
      var node := c[0].1.items;
      var elements := EnsureList(Get(node, "elements").value);
      var u := ValidateItem(Get(node, "update").value.items).value;
      var node' := SetItem(SetItem(node, "elements", List(elements)), "update", Dict(u));
      SetItemDistinct(node, "elements", List(elements));
      SetItemDistinct(SetItem(node, "elements", List(elements)), "update", Dict(u));
      KeysOfSingle(c);
      KeysOfSingle([("for_each", Dict(node'))]);
      Some([("for_each", Dict(node'))])
  }

  /** One entry of the domain's list, as the schema hands it on. */
  predicate ValidBlock(b: Value) {
    b.Dict? && (ValidItem(b.items) || ValidForEach(b.items))
  }

  /** `vol.Or(TEMPLATE_UPDATE_ITEM_SCHEMA, TEMPLATE_UPDATE_FOR_EACH_SCHEMA)`:
      the item schema first, the for_each schema when it fails. */
  function ValidateBlock(b: Value): (r: Option<Value>)
    ensures r.Some? <==> b.Dict? && (ItemAccepted(b.items) || ForEachAccepted(b.items))
    ensures r.Some? ==> ValidBlock(r.value)
    ensures b.Dict? && ItemAccepted(b.items) ==> r == Some(Dict(ValidateItem(b.items).value))
    ensures b.Dict? && !ItemAccepted(b.items) && ForEachAccepted(b.items) ==>
      r == Some(Dict(ValidateForEach(b.items).value))
  {
    if !b.Dict? then None
    else
      match ValidateItem(b.items)
      case Some(c) => Some(Dict(c))
      case None =>
        match ValidateForEach(b.items)
        case Some(c) => Some(Dict(c))
        case None => None
  }

  /** `[vol.Or(...)]`: every entry validated, in order; the list is
      rejected when any entry is. */
  function ValidateBlocks(bs: seq<Value>): (r: Option<seq<Value>>)
    ensures r.Some? <==> forall i | 0 <= i < |bs| :: ValidateBlock(bs[i]).Some?
    ensures r.Some? ==> |r.value| == |bs|
    ensures r.Some? ==> forall i | 0 <= i < |bs| :: ValidBlock(r.value[i])
    ensures r.Some? ==> forall i | 0 <= i < |bs| :: r.value[i] == ValidateBlock(bs[i]).value
  {
    if forall i | 0 <= i < |bs| :: ValidateBlock(bs[i]).Some? then
      Some(seq(|bs|, i requires 0 <= i < |bs| => ValidateBlock(bs[i]).value))
    else None
  }

  /** A whole configuration as CONFIG_SCHEMA hands it on. */
  predicate ValidConfig(config: Mapping) {
    DOMAIN in Keys(config) ==>
      && Get(config, DOMAIN).value.List?
      && forall b | b in Get(config, DOMAIN).value.elems :: ValidBlock(b)
  }

  /** CONFIG_SCHEMA: the domain's entry, when present, becomes a list of
      validated blocks; every other key passes through. */
  function ValidateConfig(config: Mapping): (r: Option<Mapping>)
    ensures r.Some? ==> ValidConfig(r.value)
    ensures r.Some? ==> forall k | k != DOMAIN :: Get(r.value, k) == Get(config, k)
    ensures DOMAIN !in Keys(config) ==> r == Some(config)
    ensures DOMAIN in Keys(config) ==>
      (r.Some? <==> ValidateBlocks(EnsureList(Get(config, DOMAIN).value)).Some?)
    ensures DOMAIN in Keys(config) && r.Some? ==>
      Get(r.value, DOMAIN) == Some(List(ValidateBlocks(EnsureList(Get(config, DOMAIN).value)).value))
    ensures r.Some? ==> Keys(r.value) == Keys(config)
  {
    if DOMAIN !in Keys(config) then Some(config)
    else
      match ValidateBlocks(EnsureList(Get(config, DOMAIN).value))
      case None => None
      case Some(blocks) =>
        var r := SetItem(config, DOMAIN, List(blocks));
        assert forall b | b in blocks :: ValidBlock(b) by {
          forall b | b in blocks ensures ValidBlock(b) {
            var i :| 0 <= i < |blocks| && blocks[i] == b;
          }
        }
        Some(r)
  }
}
