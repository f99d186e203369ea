/**
 * `PromptTemplateService`: the prompt-template table and its create, read,
 * update and delete operations.
 */
module TemplateService {
  import opened Common
  import opened LlmModels

  const NAME_EXISTS := "Template with this name already exists"
  /** The start of the message of a failed commit; the exception text that follows it is not modelled. */
  const CREATE_FAILED := "Template creation failed: "
  const UPDATE_FAILED := "Template update failed: "
  const TEMPLATE_NOT_FOUND := "Template not found"
  const TEMPLATE_UPDATED := "Template updated successfully"
  const TEMPLATE_DELETED := "Template deleted successfully"

  /**
   * One keyword argument of `update_template`: a column of the template
   * with its new value (`None` when the caller passed none), or a key the
   * template has no attribute for.
   */
  datatype TemplateUpdate =
    | SetName(name: Option<string>)
    | SetDescription(description: Option<string>)
    | SetTemplate(template: Option<string>)
    | SetVariables(variables: Option<Config>)
    | SetModelConfig(modelConfig: Option<Config>)
    | SetCreatedBy(createdBy: Option<string>)
    | NoSuchAttribute(key: string)

  /** Whether the update is applied: the key names a column and the value is not `None`. */
  predicate Effective(u: TemplateUpdate)
  {
    match u
    case SetName(v) => v.Some?
    case SetDescription(v) => v.Some?
    case SetTemplate(v) => v.Some?
    case SetVariables(v) => v.Some?
    case SetModelConfig(v) => v.Some?
    case SetCreatedBy(v) => v.Some?
    case NoSuchAttribute(_) => false
  }

  /** One `setattr` of the update loop. */
  function ApplyUpdate(t: PromptTemplate, u: TemplateUpdate): PromptTemplate
  {
    match u
    case SetName(Some(v)) => t.(name := v)
    case SetDescription(Some(v)) => t.(description := Some(v))
    case SetTemplate(Some(v)) => t.(template := v)
    case SetVariables(Some(v)) => t.(variables := v)
    case SetModelConfig(Some(v)) => t.(modelConfig := v)
    case SetCreatedBy(Some(v)) => t.(createdBy := v)
    case _ => t
  }

  /** The template after the updates, applied in the order given. */
  function ApplyUpdates(t: PromptTemplate, us: seq<TemplateUpdate>): PromptTemplate
    decreases |us|
  {
    if |us| == 0 then t else ApplyUpdate(ApplyUpdates(t, us[..|us| - 1]), us[|us| - 1])
  }

  /** An update loop never changes the id or the timestamps. */
  lemma {:induction false} UpdatesKeepKeys(t: PromptTemplate, us: seq<TemplateUpdate>)
    ensures var r := ApplyUpdates(t, us); r.id == t.id && r.createdAt == t.createdAt && r.updatedAt == t.updatedAt
    decreases |us|
  {
    if |us| > 0 {
      UpdatesKeepKeys(t, us[..|us| - 1]);
    }
  }

  /** An update loop keeps the name, description and text unless an effective update names them. */
  lemma {:induction false} UpdatesKeepText(t: PromptTemplate, us: seq<TemplateUpdate>)
    ensures var r := ApplyUpdates(t, us);
      && ((forall k :: 0 <= k < |us| ==> !(us[k].SetName? && us[k].name.Some?)) ==> r.name == t.name)
      && ((forall k :: 0 <= k < |us| ==> !(us[k].SetDescription? && us[k].description.Some?)) ==> r.description == t.description)
      && ((forall k :: 0 <= k < |us| ==> !(us[k].SetTemplate? && us[k].template.Some?)) ==> r.template == t.template)
    decreases |us|
  {
    if |us| > 0 {
      var init := us[..|us| - 1];
      assert forall k :: 0 <= k < |init| ==> init[k] == us[k];
      UpdatesKeepText(t, init);
    }
  }

  /** An update loop keeps the variables, model configuration and creator unless an effective update names them. */
  lemma {:induction false} UpdatesKeepSettings(t: PromptTemplate, us: seq<TemplateUpdate>)
    ensures var r := ApplyUpdates(t, us);
      && ((forall k :: 0 <= k < |us| ==> !(us[k].SetVariables? && us[k].variables.Some?)) ==> r.variables == t.variables)
      && ((forall k :: 0 <= k < |us| ==> !(us[k].SetModelConfig? && us[k].modelConfig.Some?)) ==> r.modelConfig == t.modelConfig)
      && ((forall k :: 0 <= k < |us| ==> !(us[k].SetCreatedBy? && us[k].createdBy.Some?)) ==> r.createdBy == t.createdBy)
    decreases |us|
  {
    if |us| > 0 {
      var init := us[..|us| - 1];
      assert forall k :: 0 <= k < |init| ==> init[k] == us[k];
      UpdatesKeepSettings(t, init);
    }
  }

  /** The updates that are applied, in order. */
  function EffectiveUpdates(us: seq<TemplateUpdate>): (r: seq<TemplateUpdate>)
    ensures forall k :: 0 <= k < |r| ==> Effective(r[k])
    decreases |us|
  {
    if |us| == 0 then []
    else EffectiveUpdates(us[..|us| - 1]) + (if Effective(us[|us| - 1]) then [us[|us| - 1]] else [])
  }

  /** A `None` value or an unknown key changes nothing: only the effective updates matter. */
  lemma {:induction false} OnlyEffectiveUpdatesCount(t: PromptTemplate, us: seq<TemplateUpdate>)
    ensures ApplyUpdates(t, us) == ApplyUpdates(t, EffectiveUpdates(us))
    decreases |us|
  {
    if |us| > 0 {
      var init := us[..|us| - 1];
      var last := us[|us| - 1];
      OnlyEffectiveUpdatesCount(t, init);
      var f := EffectiveUpdates(init);
      if Effective(last) {
        assert (f + [last])[..|f|] == f;
      } else {
        assert f + [] == f;
      }
    }
  }

  /** The last effective update of a column wins. */
  lemma LastNameWins(t: PromptTemplate, us: seq<TemplateUpdate>, n: string, rest: seq<TemplateUpdate>)
    requires forall k :: 0 <= k < |rest| ==> !rest[k].SetName?
    ensures ApplyUpdates(t, us + [SetName(Some(n))] + rest).name == n
  {
    var pre := us + [SetName(Some(n))];
    ApplyUpdatesAppend(t, pre, rest);
    assert pre[..|pre| - 1] == us;
    UpdatesKeepText(ApplyUpdates(t, pre), rest);
  }

  /** Applying two batches of updates one after the other is applying their concatenation. */
  lemma {:induction false} ApplyUpdatesAppend(t: PromptTemplate, us: seq<TemplateUpdate>, vs: seq<TemplateUpdate>)
    ensures ApplyUpdates(t, us + vs) == ApplyUpdates(ApplyUpdates(t, us), vs)
    decreases |vs|
  {
    if |vs| == 0 {
      assert us + vs == us;
    } else {
      assert (us + vs)[..|us + vs| - 1] == us + vs[..|vs| - 1];
      ApplyUpdatesAppend(t, us, vs[..|vs| - 1]);
    }
  }

  predicate HasName(t: PromptTemplate, name: string) { t.name == name }

  predicate HasId(t: PromptTemplate, id: Id) { t.id == id }

  /** Replacing a template by one with the same id and a name no other template holds keeps ids and names unique. */
  lemma ReplaceKeepsValid(ts: seq<PromptTemplate>, k: nat, t: PromptTemplate, nextId: nat)
    requires TemplatesUnique(ts) && forall u :: u in ts ==> u.id < nextId
    requires k < |ts| && t.id == ts[k].id
    requires forall j :: 0 <= j < |ts| && ts[j].id != t.id ==> ts[j].name != t.name
    ensures TemplatesUnique(ts[k := t]) && forall u :: u in ts[k := t] ==> u.id < nextId
  {
    var ts' := ts[k := t];
    forall a, b | 0 <= a < b < |ts'| ensures ts'[a].id != ts'[b].id && ts'[a].name != ts'[b].name {
      if a == k {
        assert ts[b].id != t.id;
      } else if b == k {
        assert ts[a].id != t.id;
      }
    }
    forall u | u in ts' ensures u.id < nextId {
      var a :| 0 <= a < |ts'| && ts'[a] == u;
      assert ts[a] in ts;
    }
  }

  /** The prompt-template table, updated in place. */
  class TemplateStore {
    var templates: seq<PromptTemplate>
    var nextId: nat

    /** Ids and names are unique, and every id was handed out before. */
    ghost predicate Valid()
      reads this
    {
      TemplatesUnique(templates) && forall t :: t in templates ==> t.id < nextId
    }

    constructor ()
      ensures Valid() && templates == []
    {
      templates, nextId := [], 0;
    }

    /** `get_template_by_id`. */
    function GetTemplateById(id: Id): (r: Option<PromptTemplate>)
      reads this
      ensures r.Some? <==> exists t :: t in templates && t.id == id
      ensures r.Some? ==> r.value in templates && r.value.id == id
    {
      match FirstIndex(templates, (t: PromptTemplate) => HasId(t, id))
      case Some(k) => Some(templates[k])
      case None => None
    }

    /**
     * `create_template`: a taken name is refused; a missing creator makes
     * the commit fail (the column is not nullable); otherwise exactly one
     * template is added, with empty JSON objects for absent variables and
     * model configuration.
     */
    method CreateTemplate(name: string, template: string, description: Option<string>,
                          variables: Option<Config>, modelConfig: Option<Config>,
                          createdBy: Option<string>, now: Time)
      returns (r: Result<PromptTemplate>)
      requires Valid()
      modifies this
      ensures Valid()
      ensures r == Err(NAME_EXISTS) <==> exists t :: t in old(templates) && t.name == name
      ensures r == Err(CREATE_FAILED) <==> (forall t :: t in old(templates) ==> t.name != name) && createdBy.None?
      ensures r.Err? ==> templates == old(templates)
      ensures r.Ok? <==> (forall t :: t in old(templates) ==> t.name != name) && createdBy.Some?
      ensures r.Ok? ==>
        && createdBy.Some?
        && r.value == PromptTemplate(old(nextId), name, description, template, variables.GetOr(map[]),
                                     modelConfig.GetOr(map[]), createdBy.value, now, now)
        && templates == old(templates) + [r.value]
    {
      var existing := FirstIndex(templates, (t: PromptTemplate) => HasName(t, name));
      if existing.Some? {
        assert templates[existing.value] in templates;
        return Err(NAME_EXISTS);
      }
      if createdBy.None? {
        return Err(CREATE_FAILED);
      }
      var row := PromptTemplate(nextId, name, description, template, variables.GetOr(map[]),
                                modelConfig.GetOr(map[]), createdBy.value, now, now);
      ghost var before := templates;
      templates := templates + [row];
      nextId := nextId + 1;
      forall i, j | 0 <= i < j < |templates| ensures templates[i].id != templates[j].id && templates[i].name != templates[j].name {
        if j == |before| {
          assert templates[i] == before[i];
          assert before[i] in before;
        }
      }
      r := Ok(row);
    }

    /**
     * `update_template`: an unknown id is refused; otherwise the effective
     * updates are applied in order and `updated_at` is stamped, unless the
     * new name belongs to another template, in which case the commit fails
     * and nothing changes.
     */
    method UpdateTemplate(id: Id, updates: seq<TemplateUpdate>, now: Time) returns (r: Result<PromptTemplate>)
      requires Valid()
      modifies this
      ensures Valid()
      ensures r == Err(TEMPLATE_NOT_FOUND) <==> forall t :: t in old(templates) ==> t.id != id
      ensures r.Err? ==> templates == old(templates) && nextId == old(nextId)
      ensures r.Ok? || r == Err(TEMPLATE_NOT_FOUND) || r == Err(UPDATE_FAILED)
      ensures r.Ok? ==>
        exists k :: 0 <= k < |old(templates)| && old(templates)[k].id == id
          && r.value == ApplyUpdates(old(templates)[k], updates).(updatedAt := now)
          && templates == old(templates)[k := r.value]
      ensures r == Err(UPDATE_FAILED) ==>
        exists k, j :: 0 <= k < |old(templates)| && 0 <= j < |old(templates)| && j != k && old(templates)[k].id == id
          && old(templates)[j].name == ApplyUpdates(old(templates)[k], updates).name
    {
      var found := FirstIndex(templates, (t: PromptTemplate) => HasId(t, id));
      if found.None? {
        return Err(TEMPLATE_NOT_FOUND);
      }
      var k := found.value;
      var t := ApplyUpdatesInOrder(templates[k], updates);
      UpdatesKeepKeys(templates[k], updates);
      t := t.(updatedAt := now);
      var clash := FirstIndex(templates, (o: PromptTemplate) => HasName(o, t.name) && !HasId(o, id));
      if clash.Some? {
        var j := clash.value;
        assert templates[j].id != templates[k].id;
        return Err(UPDATE_FAILED);
      }
      assert forall j :: 0 <= j < |templates| && templates[j].id != id ==> templates[j].name != t.name;
      ReplaceKeepsValid(templates, k, t, nextId);
      templates := templates[k := t];
      r := Ok(t);
    }

    /** The loop of `update_template` over the updates, in the order given. */
    method ApplyUpdatesInOrder(t0: PromptTemplate, updates: seq<TemplateUpdate>) returns (t: PromptTemplate)
      ensures t == ApplyUpdates(t0, updates)
    {
      t := t0;
      var i := 0;
      while i < |updates|
        invariant 0 <= i <= |updates|
        invariant t == ApplyUpdates(t0, updates[..i])
      {
        assert updates[..i + 1][..i] == updates[..i];
        match updates[i] {
          case SetName(Some(v)) => t := t.(name := v);
          case SetDescription(Some(v)) => t := t.(description := Some(v));
          case SetTemplate(Some(v)) => t := t.(template := v);
          case SetVariables(Some(v)) => t := t.(variables := v);
          case SetModelConfig(Some(v)) => t := t.(modelConfig := v);
          case SetCreatedBy(Some(v)) => t := t.(createdBy := v);
          case _ =>
        }
        i := i + 1;
      }
      assert updates[..i] == updates;
    }

    /** `delete_template`: an unknown id is refused; otherwise exactly that template goes. */
    method DeleteTemplate(id: Id) returns (r: Result<string>)
      requires Valid()
      modifies this
      ensures Valid()
      ensures r.Err? <==> forall t :: t in old(templates) ==> t.id != id
      ensures r.Err? ==> r.error == TEMPLATE_NOT_FOUND && templates == old(templates)
      ensures r.Ok? ==>
        && r.value == TEMPLATE_DELETED
        && (exists k :: 0 <= k < |old(templates)| && old(templates)[k].id == id && templates == RemoveAt(old(templates), k))
        && forall t :: t in templates ==> t.id != id
      ensures nextId == old(nextId)
    {
      var found := FirstIndex(templates, (t: PromptTemplate) => HasId(t, id));
      if found.None? {
        return Err(TEMPLATE_NOT_FOUND);
      }
      var k := found.value;
      ghost var before := templates;
      templates := RemoveAt(templates, k);
      forall a, b | 0 <= a < b < |templates| ensures templates[a].id != templates[b].id && templates[a].name != templates[b].name {
        assert templates[a] == before[if a < k then a else a + 1];
        assert templates[b] == before[if b < k then b else b + 1];
      }
      forall u | u in templates ensures u.id < nextId && u.id != id {
        var a :| 0 <= a < |templates| && templates[a] == u;
        assert u == before[if a < k then a else a + 1];
      }
      r := Ok(TEMPLATE_DELETED);
    }
  }
}
