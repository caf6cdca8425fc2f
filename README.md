# Portfolio front end: modal store and query policy

This project models the two self-contained pieces of logic of the portfolio
monitoring front end:

- **The modal view-state store** (`src/stores/modal.ts`). A single record,
  `currentModal`, says which modal dialog is open (position, settings, alert
  or confirmation, or none), the data it shows, its active tab and the options
  it was opened with. `openModal` and `closeModal` replace the record;
  `setActiveTab` and `updateModalData` edit one field of it, and only while a
  modal is open. The position, settings, alert and confirmation helpers all go
  through `openModal`. The getters `isModalVisible`, `isPositionModalVisible`
  and `selectedPositionSymbol` are read from the record. In the model, the
  class `ModalStore.Store` holds the record as a `ModalState` value. Its
  methods are proved to leave exactly the state that a pure function gives:
  `AfterOpen`, `AfterClose`, `AfterSetActiveTab` or `AfterUpdateData`. The
  getters are functions of `ModalState`, and lemmas relate the getters to
  the transitions.
- **The query-policy layer** (`src/composables/usePortfolio.ts`). Each of the
  five composables (portfolio, risk analysis, ATR, broker status, health)
  hands the query library a key, a fixed caching policy and, for ATR, an
  `enabled` flag. The broker-status query also passes a capped exponential
  backoff, `min(1000 * 2^attemptIndex, 30000)` ms. The module
  `QueryPolicy` models these as pure functions. It proves that keys identify
  queries exactly and that `['portfolio']` is a prefix of every portfolio key
  and of no other key. It also proves the policy table and its ordering
  (staleTime < gcTime), and the bounds, monotonicity, doubling, cap and first
  values of the backoff.

Values the source types as `any` are small datatypes: `ModalData`, with
`NoData` standing for `null`, and `ModalOptions`, whose `activeTab` is
separated from the other options (which therefore never hold the key
`activeTab`). Callbacks are opaque handles. An option
that a composable does not pass is `None`: the query library's default then
applies, and that default is not part of this model.

`usePortfolio`, `useRiskAnalysis` and `useATRCalculation` pass no `retry`.
The model therefore has `None` for them: the library default applies, which
is not necessarily 0. The ATR key is the positional array
`['atr', symbol, period]`. `ResourceOf` and `ResourceName` are helpers of
`KeyOf`: the resource a query asks for, and the first string of its key.
In the modal store, `TypeName` and `TypeIsTruthy` are helpers.
`TypeName` gives the string of each modal type. `TypeIsTruthy` is
JavaScript truthiness of `type`, the test behind `isModalVisible` and the
guard of `setActiveTab` and `updateModalData`.

## Model

| member | source | states |
|---|---|---|
| `QueryPolicy.UsePortfolio` | src/composables/usePortfolio.ts:5 | a portfolio query uses the given parameters, or `{}` when none are given |
| `QueryPolicy.UseAtrCalculation` | src/composables/usePortfolio.ts:40 | an ATR query keeps its symbol; its period is the given one, or 20 when none is given |
| `QueryPolicy.KeyOf` | src/composables/usePortfolio.ts:9-64 | every key starts with its resource name; the portfolio key adds the parameter object, the ATR key adds symbol then period, the other keys have nothing else |
| `QueryPolicy.ResourceNameInjective` | src/composables/usePortfolio.ts:9-64 | the five resource names are pairwise distinct |
| `QueryPolicy.KeyOfInjective` | src/composables/usePortfolio.ts:42 | two queries get equal keys iff they are the same query; two ATR keys are equal iff symbol and period both are |
| `QueryPolicy.RefreshPortfolioKey` | src/composables/usePortfolio.ts:17-19 | the invalidation key is a prefix of the key of the portfolio query for every parameter object |
| `QueryPolicy.RefreshPortfolioKeyPrefix` | src/composables/usePortfolio.ts:18 | `['portfolio']` is a prefix of a query's key iff it is a portfolio query |
| `QueryPolicy.AtrEnabled` | src/composables/usePortfolio.ts:46 | `!!symbol` holds iff the symbol is non-empty |
| `QueryPolicy.EnabledOf` | src/composables/usePortfolio.ts:40-47 | only the ATR query passes `enabled`, and it is true iff its symbol is non-empty |
| `QueryPolicy.PolicyOf` | src/composables/usePortfolio.ts:11-68 | for every resource staleTime < gcTime and any refetch interval is below gcTime; only broker status has staleTime 0 and the custom backoff; only portfolio sets refetch-on-focus; every retry count set is 1 to 3 |
| `QueryPolicy.PolicyTable` | src/composables/usePortfolio.ts:11-68 | the table of staleTime, gcTime, refetchInterval, refetchOnWindowFocus, retry and backoff for each resource |
| `QueryPolicy.Pow2` | src/composables/usePortfolio.ts:58 | `2 ** n` is at least 1 |
| `QueryPolicy.Pow2Monotone` | src/composables/usePortfolio.ts:58 | `2 ** n` is non-decreasing in n |
| `QueryPolicy.RetryDelay` | src/composables/usePortfolio.ts:58 | the delay lies between 1000 and 30000 ms; it is the minimum of `1000 * 2^i` and the cap: never above either, and equal to one of them |
| `QueryPolicy.RetryDelayMonotone` | src/composables/usePortfolio.ts:58 | the delay is non-decreasing in the attempt index |
| `QueryPolicy.RetryDelayDoubles` | src/composables/usePortfolio.ts:58 | for attempts 0 to 3, the next delay is twice the current one |
| `QueryPolicy.RetryDelayFirstValues` | src/composables/usePortfolio.ts:58 | the delays for attempts 0 to 4 are 1000, 2000, 4000, 8000 and 16000 ms |
| `QueryPolicy.RetryDelayCapped` | src/composables/usePortfolio.ts:58 | from attempt index 5 on, the delay is 30000 ms |
| `QueryPolicy.DelaysBeforeRetries` | src/composables/usePortfolio.ts:57-58 | the schedule for n retries has n entries, and entry k is the delay for attempt index k |
| `QueryPolicy.IbkrStatusRetryDelays` | src/composables/usePortfolio.ts:57-58 | broker status retries 3 times with the custom backoff, waiting 1000, 2000 and 4000 ms |
| `ModalStore.IsModalVisible` | src/stores/modal.ts:24 | holds iff a modal is open: `!!type` is true exactly when the type is non-null, as every type name is non-empty |
| `ModalStore.IsPositionModalVisible` | src/stores/modal.ts:25 | holds iff the type is position |
| `ModalStore.SelectedPositionSymbol` | src/stores/modal.ts:26-28 | the data of an open position modal, and null for every other state |
| `ModalStore.VisibilityConsistent` | src/stores/modal.ts:24-28 | a visible position modal is a visible modal; with no modal open, no symbol is selected |
| `ModalStore.AfterOpen` | src/stores/modal.ts:31-38 | opening makes the modal visible with the given type, data and options; the active tab is `options.activeTab`, or 0 when that is missing |
| `ModalStore.AfterClose` | src/stores/modal.ts:40-47 | closing leaves no modal open, null data, tab 0 and empty options |
| `ModalStore.AfterSetActiveTab` | src/stores/modal.ts:49-53 | with no modal open the state is unchanged; otherwise the tab becomes the argument; type, data and options never change |
| `ModalStore.AfterUpdateData` | src/stores/modal.ts:55-59 | with no modal open the state is unchanged; otherwise the data becomes the argument; type, tab and options never change |
| `ModalStore.ClosedIsStable` | src/stores/modal.ts:40-59 | a closed store ignores `setActiveTab` and `updateModalData` |
| `ModalStore.SetActiveTabKeepsGetters` | src/stores/modal.ts:49-53 | changing tabs never changes any getter |
| `ModalStore.UpdateDataGetters` | src/stores/modal.ts:55-59 | updating data keeps both visibility getters; on an open position modal the selected symbol becomes the new data |
| `ModalStore.TabOptions` | src/stores/modal.ts:63 | the options `{ activeTab: tabIndex }` carry the tab and nothing else |
| `ModalStore.OpenPositionSelects` | src/stores/modal.ts:62-64 | after opening a position modal for a symbol and tab, that symbol is selected and that tab is active |
| `ModalStore.Store.constructor` | src/stores/modal.ts:16-21 | the initial state is the closed state |
| `ModalStore.Store.OpenModal` | src/stores/modal.ts:31-38 | the new state is `AfterOpen` of the arguments |
| `ModalStore.Store.CloseModal` | src/stores/modal.ts:40-47 | the new state is the closed state whatever the old one was, so closing twice changes nothing |
| `ModalStore.Store.SetActiveTab` | src/stores/modal.ts:49-53 | the new state is `AfterSetActiveTab` of the old state |
| `ModalStore.Store.UpdateModalData` | src/stores/modal.ts:55-59 | the new state is `AfterUpdateData` of the old state |
| `ModalStore.Store.OpenPositionModal` | src/stores/modal.ts:62-64 | opens a position modal whose data is the symbol; the selected symbol is that symbol and the active tab is the given one |
| `ModalStore.Store.OpenPosition` | src/stores/modal.ts:66-68 | has the same effect as `OpenPositionModal(position.symbol, tabIndex)` |
| `ModalStore.Store.OpenSettingsModal` | src/stores/modal.ts:70-72 | opens the settings modal with null data, tab 0 and empty options |
| `ModalStore.Store.OpenAlertModal` | src/stores/modal.ts:74-76 | opens an alert modal with data `{ message }` and the given options |
| `ModalStore.Store.OpenConfirmationModal` | src/stores/modal.ts:78-90 | opens a confirmation modal with title, message and both callbacks as data, tab 0 and empty options |

## Left out

- The query library (`@tanstack/vue-query`): caching, staleness checks, deduplication, garbage collection, refetch timers, refetch on focus, and the retry loop itself. It is not visible in this repository. The model covers only the keys, flags and policy values handed to it.
- `DelaysBeforeRetries` assumes that the library calls `retryDelay` with attempt indices 0, 1, … for successive retries. How the library actually calls it is not part of this model.
- Library defaults for the options a composable does not pass (`retry`, `retryDelay`, `refetchOnWindowFocus`, `refetchInterval`, `enabled`) are represented only as `None`.
- The `useQuery` calls, the fetch functions and the values returned to components, such as `portfolio`, `isLoading` and `refetch`: these are calls into the library and network I/O.
- `src/services/portfolioService.ts`, `src/services/apiClient.ts`, `src/main.ts` and `src/router/index.ts` are not part of this model: they are HTTP wrappers, app bootstrapping and routes.
- `src/types/api.ts` holds type declarations only. Of `Position`, only `symbol` is modelled.
- Vue reactivity (`ref`, `computed`): the getters are plain functions of the current state.
- `openModal` stores the caller's `data` and `options` objects by reference, so a caller that mutates them later changes what `currentModal` holds. The model stores them as values; no store action depends on that aliasing.
- The `onConfirm` and `onCancel` callbacks are stored as opaque handles and never invoked.
- JavaScript number semantics: tab indices and ATR periods are integers, and `2 ** attemptIndex` is exact on naturals. Fractional tab indices, non-numeric `activeTab` values and floating-point overflow for huge attempt indices are not modelled.
- Defaulted arguments of the store's actions (`data = null`, `options = {}`, `tabIndex = 0`) are passed explicitly by callers of `Store`. The composables' defaults are modelled by `UsePortfolio` and `UseAtrCalculation`.
