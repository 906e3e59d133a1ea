/** The settings drawer: named configurations (create, select, delete,
    save) and the user's model list (add, delete), as pure transitions.
    Fresh ids are parameters; deletions model the confirmed branch. */
module SettingsPanel {
  import opened Wrappers
  import opened Text
  import opened Types
  import opened Lists
  import Page

  /** The drawer's editable copy of the settings (`local`) together with
      the parent state it writes through its callbacks: the configuration
      list, the selected configuration and the last saved settings. */
  datatype Panel = Panel(configs: seq<ApiConfig>, selectedConfigId: Option<string>, local: Settings, saved: Settings)

  /** The effect run when new settings arrive: a missing model list becomes
      an empty one; anything else is taken as it is. */
  function Normalize(incoming: Settings): (r: Settings)
    ensures r.customModels.Some?
    ensures incoming.customModels.Some? ==> r == incoming
    ensures incoming.customModels.None? ==> r.customModels == Some([])
    ensures r.(customModels := incoming.customModels) == incoming
  {
    if incoming.customModels.None? then incoming.(customModels := Some([])) else incoming
  }

  /** Normalising twice is normalising once. */
  lemma NormalizeIdempotent(s: Settings)
    ensures Normalize(Normalize(s)) == Normalize(s)
  {
  }

  /** `handleSave`: publishes the edited settings and, when a configuration
      is selected, writes them into every configuration with that id. */
  function Save(p: Panel): (r: Panel)
    ensures r.saved == p.local && r.local == p.local && r.selectedConfigId == p.selectedConfigId
    ensures |r.configs| == |p.configs|
    ensures IsSetId(p.selectedConfigId) ==>
              forall i :: 0 <= i < |p.configs| ==>
                (p.configs[i].id == p.selectedConfigId.value ==> r.configs[i] == p.configs[i].(settings := p.local))
                && (p.configs[i].id != p.selectedConfigId.value ==> r.configs[i] == p.configs[i])
    ensures !IsSetId(p.selectedConfigId) ==> r.configs == p.configs
  {
    var configs :=
      if IsSetId(p.selectedConfigId) then
        var id := p.selectedConfigId.value;
        UpdateWhere(p.configs, (c: ApiConfig) => c.id == id, (c: ApiConfig) => c.(settings := p.local))
      else p.configs;
    p.(configs := configs, saved := p.local)
  }

  /** Saving again right after a save changes nothing. */
  lemma SaveIdempotent(p: Panel)
    ensures Save(Save(p)) == Save(p)
  {
    var once := Save(p);
    var twice := Save(once);
    if IsSetId(p.selectedConfigId) {
      assert forall i :: 0 <= i < |p.configs| ==> twice.configs[i] == once.configs[i];
    }
  }

  /** The settings the page publishes when the drawer hands it an id: the
      page's `handleSelectConfig` treats the empty id as no id and restores
      the defaults, loads the first configuration with a known id, and keeps
      its current settings for an unknown one. `configs` is the list the
      page's handler sees. */
  function Published(configs: seq<ApiConfig>, id: string, current: Settings): (r: Settings)
    ensures id == "" ==> r == EmptySettings
    ensures id != "" && (forall i :: 0 <= i < |configs| ==> configs[i].id != id) ==> r == current
    ensures id != "" ==>
              forall i :: 0 <= i < |configs| && configs[i].id == id
                          && (forall k :: 0 <= k < i ==> configs[k].id != id) ==>
                r == configs[i].settings
  {
    if id == "" then EmptySettings
    else
      match FindFirst(configs, (c: ApiConfig) => c.id == id)
      case Some(config) => config.settings
      case None => current
  }

  /** The drawer's view of the page's handler is the page's handler. */
  lemma PublishedIsPageSelect(st: Page.PageState, id: string)
    ensures Page.SelectConfig(st, Some(id)).settings == Published(st.configs, id, st.settings)
  {
  }

  /** `handleCreateConfig`: a blank name (after trimming) does nothing;
      otherwise a configuration with the trimmed name and empty settings is
      appended and selected, and the drawer shows its settings. The page's
      handler, called with the new id, still sees the list from before the
      append: a fresh non-empty id leaves the page's settings alone, the
      empty id restores the defaults, and an id already in use loads the
      older configuration's settings. */
  function CreateConfig(p: Panel, name: string, freshId: string): (r: Panel)
    ensures Trim(name) == "" ==> r == p
    ensures Trim(name) != "" ==>
              && |r.configs| == |p.configs| + 1
              && r.configs[..|p.configs|] == p.configs
              && r.configs[|p.configs|] == ApiConfig(freshId, Trim(name), EmptySettings)
              && r.selectedConfigId == Some(freshId)
              && r.local == EmptySettings
              && (freshId == "" ==> r.saved == EmptySettings)
              && (freshId != "" && (forall i :: 0 <= i < |p.configs| ==> p.configs[i].id != freshId) ==>
                    r.saved == p.saved)
              && (freshId != "" ==>
                    forall i :: 0 <= i < |p.configs| && p.configs[i].id == freshId
                                && (forall k :: 0 <= k < i ==> p.configs[k].id != freshId) ==>
                      r.saved == p.configs[i].settings)
  {
    if Trim(name) == "" then p
    else
      var config := ApiConfig(freshId, Trim(name), EmptySettings);
      p.(configs := p.configs + [config], selectedConfigId := Some(freshId), local := config.settings,
         saved := Published(p.configs, freshId, p.saved))
  }

  /** `handleSelectConfig`: only an id that exists changes anything; the
      first configuration with it is selected and loaded into the drawer.
      The page's handler, called with the id, searches the same list and
      publishes that configuration's settings, or the defaults for the empty
      id. */
  function SelectConfig(p: Panel, id: string): (r: Panel)
    ensures (forall i :: 0 <= i < |p.configs| ==> p.configs[i].id != id) ==> r == p
    ensures (exists i :: 0 <= i < |p.configs| && p.configs[i].id == id) ==>
              && r.configs == p.configs
              && r.selectedConfigId == Some(id)
              && exists i :: 0 <= i < |p.configs| && p.configs[i].id == id
                             && (forall k :: 0 <= k < i ==> p.configs[k].id != id)
                             && r.local == p.configs[i].settings
                             && r.saved == (if id == "" then EmptySettings else p.configs[i].settings)
  {
    match FindFirst(p.configs, (c: ApiConfig) => c.id == id)
    case None => p
    case Some(config) =>
      p.(selectedConfigId := Some(id), local := config.settings, saved := Published(p.configs, id, p.saved))
  }

  /** `handleDeleteConfig` after confirmation: exactly the configurations
      with the id go, every other one stays as often as it was there;
      deleting the selected one clears the selection, the drawer's settings
      and, through the page's handler called with no id, the page's
      settings too. */
  function DeleteConfig(p: Panel, id: string): (r: Panel)
    ensures forall i :: 0 <= i < |r.configs| ==> r.configs[i].id != id && r.configs[i] in p.configs
    ensures forall i :: 0 <= i < |p.configs| && p.configs[i].id != id ==> p.configs[i] in r.configs
    ensures forall c :: multiset(r.configs)[c] == if c.id != id then multiset(p.configs)[c] else 0
    ensures IsSubsequence(r.configs, p.configs)
    ensures p.selectedConfigId == Some(id) ==>
              r.selectedConfigId == None && r.local == EmptySettings && r.saved == EmptySettings
    ensures p.selectedConfigId != Some(id) ==>
              r.selectedConfigId == p.selectedConfigId && r.local == p.local && r.saved == p.saved
  {
    var keep := (c: ApiConfig) => c.id != id;
    FilterCount(p.configs, keep);
    var configs := Filter(p.configs, keep);
    if p.selectedConfigId == Some(id) then
      p.(configs := configs, selectedConfigId := None, local := EmptySettings, saved := EmptySettings)
    else
      p.(configs := configs)
  }

  /** Deleting a configuration just created under a fresh id restores the
      list it was created from. */
  lemma DeleteUndoesCreate(p: Panel, name: string, freshId: string)
    requires forall i :: 0 <= i < |p.configs| ==> p.configs[i].id != freshId
    ensures DeleteConfig(CreateConfig(p, name, freshId), freshId).configs == p.configs
  {
    var created := CreateConfig(p, name, freshId);
    var keep := (c: ApiConfig) => c.id != freshId;
    if Trim(name) == "" {
      assert forall i :: 0 <= i < |p.configs| ==> keep(p.configs[i]);
    } else {
      FilterDropsLast(p.configs, created.configs[|p.configs|], keep);
      assert created.configs == p.configs + [created.configs[|p.configs|]];
    }
  }

  lemma {:induction false} FilterDropsLast<T>(xs: seq<T>, x: T, keep: T -> bool)
    requires forall i :: 0 <= i < |xs| ==> keep(xs[i])
    requires !keep(x)
    ensures Filter(xs + [x], keep) == xs
  {
    if xs == [] {
      assert Filter([x], keep) == Filter([], keep);
    } else {
      assert (xs + [x])[1..] == xs[1..] + [x];
      FilterDropsLast(xs[1..], x, keep);
    }
  }

  // ---------------------------------------------------------------------
  // The model list

  /** `prev.customModels || []`. */
  function ModelsOf(s: Settings): seq<CustomModel> {
    s.customModels.GetOr([])
  }

  /** `handleAddModel`: a blank name does nothing; otherwise a model whose
      name and value are the trimmed text is appended, and it becomes the
      current model only when there were no models and no current model. */
  function AddModel(s: Settings, name: string, freshId: string): (r: Settings)
    ensures Trim(name) == "" ==> r == s
    ensures Trim(name) != "" ==>
              && r.customModels == Some(ModelsOf(s) + [CustomModel(freshId, Trim(name), Trim(name))])
              && (ModelsOf(s) == [] && s.model == "" ==> r.model == Trim(name))
              && (ModelsOf(s) != [] || s.model != "" ==> r.model == s.model)
              && r.(model := s.model, customModels := s.customModels) == s
  {
    if Trim(name) == "" then s
    else
      var modelName := Trim(name);
      var model := if ModelsOf(s) == [] && s.model == "" then modelName else s.model;
      s.(customModels := Some(ModelsOf(s) + [CustomModel(freshId, modelName, modelName)]), model := model)
  }

  /** `handleDeleteModel` after confirmation, on the normalised settings the
      drawer always holds: every model with the id goes; when the current
      model was the (first) deleted one's value, the first remaining model,
      or none, takes its place. */
  function DeleteModel(s: Settings, id: string): (r: Settings)
    requires s.customModels.Some?
    ensures var remaining := Filter(s.customModels.value, (m: CustomModel) => m.id != id);
            && r.customModels == Some(remaining)
            && r.(model := s.model, customModels := s.customModels) == s
    ensures var deleted := FindFirst(s.customModels.value, (m: CustomModel) => m.id == id);
            var remaining := r.customModels.value;
            && (deleted.Some? && s.model == deleted.value.value ==>
                  r.model == (if remaining != [] then remaining[0].value else ""))
            && (deleted.None? || s.model != deleted.value.value ==> r.model == s.model)
  {
    var models := s.customModels.value;
    var deleted := FindFirst(models, (m: CustomModel) => m.id == id);
    var remaining := Filter(models, (m: CustomModel) => m.id != id);
    var model :=
      if deleted.Some? && s.model == deleted.value.value then
        (if |remaining| > 0 then remaining[0].value else "")
      else s.model;
    s.(customModels := Some(remaining), model := model)
  }

  /** Deleting the model just added under a fresh id restores the model
      list, and the current model too unless the new model's value equals a
      current model the add did not set. */
  lemma DeleteModelUndoesAdd(s: Settings, name: string, freshId: string)
    requires s.customModels.Some?
    requires forall i :: 0 <= i < |s.customModels.value| ==> s.customModels.value[i].id != freshId
    requires Trim(name) != "" ==> s.model != Trim(name) || (s.customModels.value == [] && s.model == "")
    ensures DeleteModel(AddModel(s, name, freshId), freshId) == s
  {
    var models := s.customModels.value;
    if Trim(name) == "" {
      var keep := (m: CustomModel) => m.id != freshId;
      assert forall i :: 0 <= i < |models| ==> keep(models[i]);
      assert FindFirst(models, (m: CustomModel) => m.id == freshId).None?;
    } else {
      var t := Trim(name);
      var newModel := CustomModel(freshId, t, t);
      var added := s.(customModels := Some(models + [newModel]),
                      model := if models == [] && s.model == "" then t else s.model);
      assert AddModel(s, name, freshId) == added;
      DeleteFreshModel(added, models, newModel);
    }
  }

  /** Adding a model named like the current model and deleting it again
      restores the list, but not the current model: the delete sees the
      current model equal to the deleted model's value and falls back to the
      first listed model, or none. */
  lemma DeleteAddedCurrentName(s: Settings, name: string, freshId: string)
    requires s.customModels.Some?
    requires forall i :: 0 <= i < |s.customModels.value| ==> s.customModels.value[i].id != freshId
    requires Trim(name) != "" && s.model == Trim(name)
    ensures var models := s.customModels.value;
            DeleteModel(AddModel(s, name, freshId), freshId)
            == s.(model := if models != [] then models[0].value else "")
  {
    var models := s.customModels.value;
    var t := Trim(name);
    var added := s.(customModels := Some(models + [CustomModel(freshId, t, t)]));
    assert AddModel(s, name, freshId) == added;
    DeleteFreshModel(added, models, CustomModel(freshId, t, t));
  }

  /** Deleting the last model, whose id no other model has, removes just
      it; the current model falls back when it was that model's value. */
  lemma DeleteFreshModel(a: Settings, models: seq<CustomModel>, newModel: CustomModel)
    requires a.customModels == Some(models + [newModel])
    requires forall i :: 0 <= i < |models| ==> models[i].id != newModel.id
    ensures DeleteModel(a, newModel.id)
            == a.(customModels := Some(models),
                  model := if a.model == newModel.value then (if models != [] then models[0].value else "") else a.model)
  {
    var keep := (m: CustomModel) => m.id != newModel.id;
    var hit := (m: CustomModel) => m.id == newModel.id;
    FilterDropsLast(models, newModel, keep);
    assert forall i :: 0 <= i < |models| ==> !hit((models + [newModel])[i]);
    assert (models + [newModel])[|models|] == newModel;
    assert FindFirst(models + [newModel], hit) == Some(newModel);
  }
}
