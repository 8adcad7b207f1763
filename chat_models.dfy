/**
  The default chat-model selection rule of the chat-models query hook
  (src/hooks/queries/use-chat-models.ts). When the provider/model catalogue
  arrives and no model is selected yet, the hook picks one: the first model of
  the first provider, unless the first "google" entry offers models, in which
  case a Google model is taken, preferring a fixed list of names in order.
 */
module ChatModels {

  datatype Option<+T> = None | Some(value: T)

  /** One model offered by a provider. */
  datatype ModelInfo = ModelInfo(name: string, isToolCallUnsupported: bool)

  /** One entry of the catalogue served at /api/chat/models. */
  datatype ProviderEntry = ProviderEntry(provider: string, models: seq<ModelInfo>)

  /** The (provider, model) pair kept in the store as the selected chat model. */
  datatype ChatModel = ChatModel(provider: string, model: string)

  const Google: string := "google"

  /** The Google model names tried, most preferred first. */
  const Preferred: seq<string> := ["gemini-2.5-flash-lite", "gemini-2.5-flash", "gemini-2.0-flash-lite"]

  /** The names of a provider's models, in catalogue order. */
  function Names(models: seq<ModelInfo>): seq<string>
  {
    seq(|models|, i requires 0 <= i < |models| => models[i].name)
  }

  /** `Array.prototype.find`, as an index: the first position whose element satisfies `p`. */
  function FindIndex<T>(s: seq<T>, p: T -> bool): (r: Option<nat>)
    ensures r.Some? ==> r.value < |s| && p(s[r.value])
    ensures r.Some? ==> forall j :: 0 <= j < r.value ==> !p(s[j])
    ensures r.None? <==> forall j :: 0 <= j < |s| ==> !p(s[j])
  {
    if |s| == 0 then None
    else if p(s[0]) then Some(0)
    else match FindIndex(s[1..], p)
      case None => None
      case Some(i) => Some(i + 1)
  }

  /** `data.find(d => d.provider === name)`: the first entry of the catalogue with that provider name. */
  function FindProvider(data: seq<ProviderEntry>, name: string): (r: Option<nat>)
    ensures r.Some? ==> r.value < |data| && data[r.value].provider == name
    ensures r.Some? ==> forall j :: 0 <= j < r.value ==> data[j].provider != name
    ensures r.None? <==> forall j :: 0 <= j < |data| ==> data[j].provider != name
  {
    FindIndex(data, (d: ProviderEntry) => d.provider == name)
  }

  /** `models.find(m => m.name === name)`: the first model with that name. */
  function FindModel(models: seq<ModelInfo>, name: string): (r: Option<nat>)
    ensures r.Some? ==> r.value < |models| && models[r.value].name == name
    ensures r.None? <==> name !in Names(models)
  {
    var names := Names(models);
    assert forall i :: 0 <= i < |models| ==> names[i] == models[i].name;
    FindIndex(models, (m: ModelInfo) => m.name == name)
  }

  /** `prefs.map(name => models.find(m => m.name === name))`. */
  function LookupAll(prefs: seq<string>, models: seq<ModelInfo>): seq<Option<nat>>
  {
    seq(|prefs|, k requires 0 <= k < |prefs| => FindModel(models, prefs[k]))
  }

  /** `.find(Boolean)` over the looked-up models: the first lookup that found one. */
  function FirstFound(lookups: seq<Option<nat>>): (r: Option<nat>)
    ensures r.None? <==> forall k :: 0 <= k < |lookups| ==> lookups[k].None?
    ensures r.Some? ==> exists k :: 0 <= k < |lookups| && lookups[k] == r
                                    && forall j :: 0 <= j < k ==> lookups[j].None?
  {
    match FindIndex(lookups, (o: Option<nat>) => o.Some?)
    case None => None
    case Some(k) => lookups[k]
  }

  /** The indexing at the start of the rule (`data[0].models[0].name`) succeeds. */
  predicate HasDefault(data: seq<ProviderEntry>)
  {
    |data| > 0 && |data[0].models| > 0
  }

  /** The first model of the first provider: the choice when Google does not override it. */
  function FirstChoice(data: seq<ProviderEntry>): ChatModel
    requires HasDefault(data)
  {
    ChatModel(data[0].provider, data[0].models[0].name)
  }

  /** The first "google" entry exists and offers at least one model. */
  predicate GoogleUsable(data: seq<ProviderEntry>)
  {
    var g := FindProvider(data, Google);
    g.Some? && |data[g.value].models| > 0
  }

  /** The model chosen when nothing is selected yet. */
  function ChooseDefault(data: seq<ProviderEntry>): ChatModel
    requires HasDefault(data)
  {
    match FindProvider(data, Google)
    case None => FirstChoice(data)
    case Some(g) =>
      var models := data[g].models;
      if |models| == 0 then FirstChoice(data)
      else match FirstFound(LookupAll(Preferred, models))
        case Some(i) => ChatModel(Google, models[i].name)
        case None => ChatModel(Google, models[0].name)
  }

  /** Without a usable first Google entry the first model of the first provider is chosen. */
  lemma DefaultWithoutGoogle(data: seq<ProviderEntry>)
    requires HasDefault(data) && !GoogleUsable(data)
    ensures ChooseDefault(data) == ChatModel(data[0].provider, data[0].models[0].name)
  {
  }

  /**
    Only the first "google" entry is consulted: when it offers no models, a
    later "google" entry that does offer models does not rescue it, and the
    first provider's first model is chosen.
   */
  lemma FirstGoogleEntryOnly(data: seq<ProviderEntry>, g: nat, later: nat)
    requires HasDefault(data)
    requires g < later < |data|
    requires data[g].provider == Google && |data[g].models| == 0
    requires forall j :: 0 <= j < g ==> data[j].provider != Google
    requires data[later].provider == Google && |data[later].models| > 0
    ensures ChooseDefault(data) == ChatModel(data[0].provider, data[0].models[0].name)
  {
  }

  /**
    The chosen provider is "google" exactly when the first Google entry offers
    a model: a first provider named "google" is that entry itself.
   */
  lemma GoogleIffUsable(data: seq<ProviderEntry>)
    requires HasDefault(data)
    ensures ChooseDefault(data).provider == Google <==> GoogleUsable(data)
  {
  }

  /**
    Priority follows the preference list, not the order of the models: the
    chosen model is the earliest preferred name the first Google entry offers.
   */
  lemma PreferredByRank(data: seq<ProviderEntry>, g: nat, k: nat)
    requires HasDefault(data)
    requires FindProvider(data, Google) == Some(g)
    requires k < |Preferred| && Preferred[k] in Names(data[g].models)
    requires forall j :: 0 <= j < k ==> Preferred[j] !in Names(data[g].models)
    ensures ChooseDefault(data) == ChatModel(Google, Preferred[k])
  {
    var models := data[g].models;
    var lookups := LookupAll(Preferred, models);
    assert lookups[k].Some?;
    var found := FirstFound(lookups);
    var k' :| 0 <= k' < |lookups| && lookups[k'] == found && forall j :: 0 <= j < k' ==> lookups[j].None?;
    assert k' == k;
  }

  /** With none of the preferred names offered, the first Google model is chosen. */
  lemma FirstGoogleModelFallback(data: seq<ProviderEntry>, g: nat)
    requires HasDefault(data)
    requires FindProvider(data, Google) == Some(g) && |data[g].models| > 0
    requires forall k :: 0 <= k < |Preferred| ==> Preferred[k] !in Names(data[g].models)
    ensures ChooseDefault(data) == ChatModel(Google, data[g].models[0].name)
  {
  }

  /** The chosen pair names a model listed under an entry of that provider. */
  lemma ChoiceInCatalogue(data: seq<ProviderEntry>)
    requires HasDefault(data)
    ensures var c := ChooseDefault(data);
            exists i :: 0 <= i < |data| && data[i].provider == c.provider && c.model in Names(data[i].models)
  {
    var c := ChooseDefault(data);
    match FindProvider(data, Google)
    case None =>
      assert Names(data[0].models)[0] == c.model;
    case Some(g) =>
      var models := data[g].models;
      if |models| == 0 {
        assert Names(data[0].models)[0] == c.model;
      } else {
        match FirstFound(LookupAll(Preferred, models))
        case Some(i) =>
          var lookups := LookupAll(Preferred, models);
          var k :| 0 <= k < |lookups| && lookups[k] == Some(i) && forall j :: 0 <= j < k ==> lookups[j].None?;
          assert Names(models)[i] == c.model;
        case None =>
          assert Names(models)[0] == c.model;
      }
  }

  /**
    Once the catalogue already holds a "google" entry, entries appended after it
    (later "google" entries included) never change the choice.
   */
  lemma LaterEntriesIgnored(data: seq<ProviderEntry>, rest: seq<ProviderEntry>)
    requires HasDefault(data) && FindProvider(data, Google).Some?
    ensures HasDefault(data + rest) && ChooseDefault(data + rest) == ChooseDefault(data)
  {
    var g := FindProvider(data, Google).value;
    var all := data + rest;
    assert all[g] == data[g];
    assert forall j :: 0 <= j < g ==> all[j] == data[j];
    assert FindProvider(all, Google) == Some(g);
  }
}
