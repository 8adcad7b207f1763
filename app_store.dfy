/**
  The `onSuccess` callback of the chat-models query hook, acting on the one
  field of the global app store it touches: the selected chat model.
 */
module ChatModelStore {
  import opened ChatModels

  /** What one callback leaves behind: the store's chat model, and whether the call threw. */
  datatype Step = Step(chatModel: Option<ChatModel>, threw: bool)

  /**
    One callback on a catalogue `data` with `current` in the store. A selection
    already present is kept; otherwise the default is chosen, and a catalogue
    too short for the indexing of `data[0].models[0]` throws before the store
    is written.
   */
  function AfterSuccess(current: Option<ChatModel>, data: seq<ProviderEntry>): Step
  {
    if current.Some? then Step(current, false)
    else if !HasDefault(data) then Step(None, true)
    else Step(Some(ChooseDefault(data)), false)
  }

  /** The store's chat model after one callback per catalogue in `responses`, in order. */
  function Replay(current: Option<ChatModel>, responses: seq<seq<ProviderEntry>>): Option<ChatModel>
    decreases |responses|
  {
    if |responses| == 0 then current
    else Replay(AfterSuccess(current, responses[0]).chatModel, responses[1..])
  }

  /** Once a model is selected, no later catalogue changes it. */
  lemma {:induction false} SelectionIsSticky(m: ChatModel, responses: seq<seq<ProviderEntry>>)
    ensures Replay(Some(m), responses) == Some(m)
  {
    if |responses| > 0 {
      SelectionIsSticky(m, responses[1..]);
    }
  }

  /**
    Starting with no selection, the store ends up holding the default chosen
    from the first catalogue on which the rule does not throw.
   */
  lemma {:induction false} FirstWellFormedWins(responses: seq<seq<ProviderEntry>>, k: nat)
    requires k < |responses| && HasDefault(responses[k])
    requires forall j :: 0 <= j < k ==> !HasDefault(responses[j])
    ensures Replay(None, responses) == Some(ChooseDefault(responses[k]))
  {
    if k == 0 {
      SelectionIsSticky(ChooseDefault(responses[0]), responses[1..]);
    } else {
      FirstWellFormedWins(responses[1..], k - 1);
    }
  }

  /** Without any catalogue the rule can index, nothing is ever selected. */
  lemma {:induction false} NeverWellFormed(responses: seq<seq<ProviderEntry>>)
    requires forall j :: 0 <= j < |responses| ==> !HasDefault(responses[j])
    ensures Replay(None, responses) == None
  {
    if |responses| > 0 {
      NeverWellFormed(responses[1..]);
    }
  }

  /** The global app store, reduced to its `chatModel` field. */
  class Store {
    var chatModel: Option<ChatModel>

    constructor ()
      ensures chatModel == None
    {
      chatModel := None;
    }

    /** The `onSuccess` callback; `threw` reports the TypeError of an unindexable catalogue. */
    method OnSuccess(data: seq<ProviderEntry>) returns (threw: bool)
      modifies this
      ensures Step(chatModel, threw) == AfterSuccess(old(chatModel), data)
      ensures old(chatModel).Some? ==> !threw && chatModel == old(chatModel)
      ensures old(chatModel).None? ==> (threw <==> !HasDefault(data))
      ensures old(chatModel).None? && !threw ==> chatModel == Some(ChooseDefault(data))
    {
      threw := false;
      if chatModel.None? {
        if !HasDefault(data) {
          threw := true;
          return;
        }
        var provider := data[0].provider;
        var model := data[0].models[0].name;
        var googleEntry := FindProvider(data, Google);
        if googleEntry.Some? && |data[googleEntry.value].models| > 0 {
          var models := data[googleEntry.value].models;
          var found := FirstFound(LookupAll(Preferred, models));
          if found.Some? {
            provider := Google;
            model := models[found.value].name;
          } else {
            provider := Google;
            model := models[0].name;
          }
        }
        chatModel := Some(ChatModel(provider, model));
      }
    }
  }
}
