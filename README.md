# Default chat-model selection (gemini-desktop)

This project models the rule by which the chat-models query hook picks a chat
model for a user who has none selected yet. The hook fetches the
provider/model catalogue (a list of `{provider, models: [{name,
isToolCallUnsupported}]}` entries); when the catalogue arrives, its `onSuccess`
callback reads the global app store and, if the store holds no `chatModel`,
writes one:

- the default is the first model of the first provider;
- if the first entry whose provider is `"google"` offers any model, a Google
  model overrides it: the first of `gemini-2.5-flash-lite`,
  `gemini-2.5-flash`, `gemini-2.0-flash-lite` that the entry offers, or
  else the entry's first model;
- a store that already holds a `chatModel` is left untouched.

Two modules:

- `ChatModels` (`chat_models.dfy`): the catalogue datatypes, the searches the
  callback uses (`Array.prototype.find` over the catalogue and over a model
  list, and `.map(...).find(Boolean)` over the preference list), the pure
  chooser `ChooseDefault`, and the lemmas about it: priority order, fallback,
  the "first Google entry only" rule, and that the chosen pair is in the
  catalogue.
- `ChatModelStore` (`app_store.dfy`): a `Store` class holding the one store
  field the callback touches, the imperative `OnSuccess` callback proved
  against the step function `AfterSuccess`, and lemmas over a sequence of
  callbacks (`Replay`): a selection, once made, is never replaced, and the
  first catalogue the rule can index decides the selection.

The callback indexes `data[0].provider` and `data[0].models[0].name` before it
looks for Google, so an empty catalogue, or one whose first entry has no
models, makes it throw a TypeError even when a Google entry with models
exists. `ChooseDefault` requires `HasDefault` (both lists non-empty); the
throwing path is modelled in `AfterSuccess` and `Store.OnSuccess`, which report
`threw` and leave the store unchanged.

## Model

| member | source | states |
|---|---|---|
| `ChatModels.FindIndex` | src/hooks/queries/use-chat-models.ts:25-35 | `Array.prototype.find` as an index: the result is the first position satisfying the predicate, and none exists exactly when the result is `None` |
| `ChatModels.FindProvider` | src/hooks/queries/use-chat-models.ts:25 | the Google lookup yields the first catalogue entry with the given provider name, and `None` exactly when no entry has it |
| `ChatModels.FindModel` | src/hooks/queries/use-chat-models.ts:34 | the lookup of a preferred name yields a model with that name, and `None` exactly when the list offers no such name |
| `ChatModels.FirstFound` | src/hooks/queries/use-chat-models.ts:33-35 | `.find(Boolean)` over the per-name lookups yields the earliest successful lookup, and `None` exactly when every lookup failed |
| `ChatModels.DefaultWithoutGoogle` | src/hooks/queries/use-chat-models.ts:22-26 | with no `"google"` entry, or a first one without models, the choice is the first model of the first provider |
| `ChatModels.FirstGoogleEntryOnly` | src/hooks/queries/use-chat-models.ts:25-26 | a later `"google"` entry with models does not rescue an earlier empty one: the choice stays the first provider's first model |
| `ChatModels.GoogleIffUsable` | src/hooks/queries/use-chat-models.ts:22-43 | the chosen provider is `"google"` if and only if the first Google entry offers at least one model |
| `ChatModels.PreferredByRank` | src/hooks/queries/use-chat-models.ts:28-38 | when the first Google entry offers preferred name number k and none before it, the choice is `("google", Preferred[k])`, whatever the order of the models list |
| `ChatModels.FirstGoogleModelFallback` | src/hooks/queries/use-chat-models.ts:39-42 | when the first Google entry offers models but none of the preferred names, its first model is chosen |
| `ChatModels.ChoiceInCatalogue` | src/hooks/queries/use-chat-models.ts:22-43 | the chosen (provider, model) pair names a model listed under an entry with that provider name |
| `ChatModels.LaterEntriesIgnored` | src/hooks/queries/use-chat-models.ts:22-26 | once the catalogue holds a `"google"` entry, appending more entries never changes the choice |
| `ChatModelStore.SelectionIsSticky` | src/hooks/queries/use-chat-models.ts:19-20 | once a chat model is selected, any number of further callbacks, on any catalogues, leave it as it is |
| `ChatModelStore.FirstWellFormedWins` | src/hooks/queries/use-chat-models.ts:18-46 | from an empty store, the selection is the default of the first catalogue whose first entry has a model; earlier catalogues throw and write nothing |
| `ChatModelStore.NeverWellFormed` | src/hooks/queries/use-chat-models.ts:22-23 | if every catalogue throws at the initial indexing, nothing is ever selected |
| `ChatModelStore.Store.OnSuccess` | src/hooks/queries/use-chat-models.ts:18-48 | an existing selection is kept and nothing throws; otherwise the call throws exactly when `data` or `data[0].models` is empty, leaving the store empty, and else stores `ChooseDefault(data)` |

## Left out

- The SWR fetching configuration (the `/api/chat/models` key, the fetcher, the five-minute deduplication interval, `revalidateOnFocus`, `fallbackData`): caching and network plumbing inside a library whose behaviour is not part of this model. `Replay` only assumes that each successful fetch invokes the callback once, in order.
- What happens to the TypeError once it leaves the callback (the library's error handling) is not part of this model; `threw` only records that the store was not written.
- The global app store beyond its `chatModel` field, and its subscription mechanism: src/app/store is not part of this model.
- The `isToolCallUnsupported` flag is carried in `ModelInfo` but the rule never reads it.
- src/components/project-dropdown.tsx (rename/delete dialogs, redirects, cache invalidation through `ts-safe` chains and server actions whose code is not part of this model) and src/app/(chat)/project/[id]/page.tsx (the thread-creation and streaming page): UI code outside the selection rule.
- The thread-creation and streaming controller, the navigation latch and the title generator: their source is not part of this model.
