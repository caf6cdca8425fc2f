/**
 * The modal view-state store: one record, `currentModal`, saying which modal
 * dialog is open (if any), what it shows, which of its tabs is active and
 * the options it was opened with; the actions that replace or edit that
 * record; and the getters derived from it.
 *
 * Pure functions on `ModalState` give the getters and the state each action
 * leaves behind; the class `Store` holds the record and its methods are
 * proved to produce exactly those states.
 */
module ModalStore {
  import opened Wrappers

  /** The four kinds of modal (`'position' | 'settings' | 'alert' | 'confirmation'`). */
  datatype ModalType = PositionModal | SettingsModal | AlertModal | ConfirmationModal

  /** A value the store carries but never looks into. */
  datatype Opaque = Opaque(id: nat)

  /** A caller-supplied callback; the store stores it and never calls it. */
  datatype Callback = Callback(id: nat)

  /** The `data` of a modal, which the store types as `any`. */
  datatype ModalData =
    | NoData                                   // null
    | Text(text: string)                       // a string, e.g. a position's symbol
    | AlertPayload(message: string)            // { message }
    | ConfirmPayload(title: string, message: string,
                     onConfirm: Callback, onCancel: Option<Callback>)
    | OtherData(value: Opaque)                 // anything else a caller passes

  /** The properties of an `options` record other than `activeTab`. */
  type OtherOptions = m: map<string, Opaque> | "activeTab" !in m witness map[]

  /** The `options` record: its `activeTab` property and all the others. */
  datatype ModalOptions = ModalOptions(activeTab: Option<int>, others: OtherOptions)

  /** `{}`. */
  const NoOptions := ModalOptions(None, map[])

  /** The `currentModal` record; `kind` is `None` when no modal is open. */
  datatype ModalState = ModalState(
    kind: Option<ModalType>,
    data: ModalData,
    activeTab: int,
    options: ModalOptions)

  /** The broker position record; only its symbol is used by the store. */
  datatype Position = Position(symbol: string)

  // ---------------------------------------------------------------------------
  // Getters
  // ---------------------------------------------------------------------------

  /** The string literal the source uses for each modal type. */
  function TypeName(t: ModalType): string
  {
    match t
    case PositionModal => "position"
    case SettingsModal => "settings"
    case AlertModal => "alert"
    case ConfirmationModal => "confirmation"
  }

  /** JavaScript truthiness of `type`: null and the empty string are falsy. */
  predicate TypeIsTruthy(kind: Option<ModalType>)
  {
    kind.Some? && TypeName(kind.value) != ""
  }

  /** `isModalVisible` (`!!type`): every modal type is a non-empty string,
      so it holds exactly when a modal is open. */
  predicate IsModalVisible(s: ModalState): (b: bool)
    ensures b <==> s.kind.Some?
  {
    TypeIsTruthy(s.kind)
  }

  /** `isPositionModalVisible` (`type === 'position'`): no other type has
      that name, so it holds exactly when the position modal is open. */
  predicate IsPositionModalVisible(s: ModalState): (b: bool)
    ensures b <==> s.kind == Some(PositionModal)
  {
    s.kind.Some? && TypeName(s.kind.value) == "position"
  }

  /** `selectedPositionSymbol`: the data of an open position modal, else null. */
  function SelectedPositionSymbol(s: ModalState): (d: ModalData)
    ensures IsPositionModalVisible(s) ==> d == s.data
    ensures !IsPositionModalVisible(s) ==> d == NoData
  {
    if IsPositionModalVisible(s) then s.data else NoData
  }

  /** A visible position modal is a visible modal, and a closed store
      selects no symbol. */
  lemma VisibilityConsistent(s: ModalState)
    ensures IsPositionModalVisible(s) ==> IsModalVisible(s)
    ensures !IsModalVisible(s) ==> SelectedPositionSymbol(s) == NoData
  {
  }

  // ---------------------------------------------------------------------------
  // The state each action leaves behind
  // ---------------------------------------------------------------------------

  /** The state `openModal(kind, data, options)` installs: the active tab is
      `options.activeTab`, or 0 when that is missing. */
  function AfterOpen(kind: ModalType, data: ModalData, options: ModalOptions): (s: ModalState)
    ensures IsModalVisible(s) && s.kind == Some(kind)
    ensures s.data == data && s.options == options
    ensures options.activeTab.Some? ==> s.activeTab == options.activeTab.value
    ensures options.activeTab.None? ==> s.activeTab == 0
  {
    ModalState(Some(kind), data, options.activeTab.GetOr(0), options)
  }

  /** The state `closeModal` installs; it is also the initial state. */
  function AfterClose(): (s: ModalState)
    ensures !IsModalVisible(s)
    ensures s.data == NoData && s.activeTab == 0 && s.options == NoOptions
  {
    ModalState(None, NoData, 0, NoOptions)
  }

  /** `setActiveTab(tabIndex)`: nothing when no modal is open, otherwise
      only the active tab changes (the options keep their old `activeTab`). */
  function AfterSetActiveTab(s: ModalState, tabIndex: int): (t: ModalState)
    ensures !IsModalVisible(s) ==> t == s
    ensures IsModalVisible(s) ==> t.activeTab == tabIndex
    ensures t.kind == s.kind && t.data == s.data && t.options == s.options
  {
    if TypeIsTruthy(s.kind) then s.(activeTab := tabIndex) else s
  }

  /** `updateModalData(data)`: nothing when no modal is open, otherwise only
      the data changes. */
  function AfterUpdateData(s: ModalState, data: ModalData): (t: ModalState)
    ensures !IsModalVisible(s) ==> t == s
    ensures IsModalVisible(s) ==> t.data == data
    ensures t.kind == s.kind && t.activeTab == s.activeTab && t.options == s.options
  {
    if TypeIsTruthy(s.kind) then s.(data := data) else s
  }

  /** A closed store ignores `setActiveTab` and `updateModalData`. */
  lemma ClosedIsStable(tabIndex: int, data: ModalData)
    ensures AfterSetActiveTab(AfterClose(), tabIndex) == AfterClose()
    ensures AfterUpdateData(AfterClose(), data) == AfterClose()
  {
  }

  /** Changing tabs never changes what the getters report. */
  lemma SetActiveTabKeepsGetters(s: ModalState, tabIndex: int)
    ensures IsModalVisible(AfterSetActiveTab(s, tabIndex)) == IsModalVisible(s)
    ensures IsPositionModalVisible(AfterSetActiveTab(s, tabIndex)) == IsPositionModalVisible(s)
    ensures SelectedPositionSymbol(AfterSetActiveTab(s, tabIndex)) == SelectedPositionSymbol(s)
  {
  }

  /** Updating the data keeps the modal open or closed as it was; on an open
      position modal it changes the selected symbol to the new data. */
  lemma UpdateDataGetters(s: ModalState, data: ModalData)
    ensures IsModalVisible(AfterUpdateData(s, data)) == IsModalVisible(s)
    ensures IsPositionModalVisible(AfterUpdateData(s, data)) == IsPositionModalVisible(s)
    ensures IsPositionModalVisible(s) ==> SelectedPositionSymbol(AfterUpdateData(s, data)) == data
  {
  }

  /** The options `openPositionModal(symbol, tabIndex)` passes. */
  function TabOptions(tabIndex: int): (o: ModalOptions)
    ensures o.activeTab == Some(tabIndex) && o.others == map[]
  {
    ModalOptions(Some(tabIndex), map[])
  }

  /** Opening a position modal selects its symbol and shows the requested tab. */
  lemma OpenPositionSelects(symbol: string, tabIndex: int)
    ensures IsPositionModalVisible(AfterOpen(PositionModal, Text(symbol), TabOptions(tabIndex)))
    ensures SelectedPositionSymbol(AfterOpen(PositionModal, Text(symbol), TabOptions(tabIndex)))
      == Text(symbol)
    ensures AfterOpen(PositionModal, Text(symbol), TabOptions(tabIndex)).activeTab == tabIndex
  {
  }

  // ---------------------------------------------------------------------------
  // The store
  // ---------------------------------------------------------------------------

  /** The store instance: `currentModal` and its actions. Defaulted
      arguments of the source (`data = null`, `options = {}`,
      `tabIndex = 0`) are passed explicitly. */
  class Store {
    var current: ModalState

    constructor ()
      ensures current == AfterClose()
    {
      current := ModalState(None, NoData, 0, NoOptions);
    }

    method OpenModal(kind: ModalType, data: ModalData, options: ModalOptions)
      modifies this
      ensures current == AfterOpen(kind, data, options)
    {
      var tab := if options.activeTab.Some? then options.activeTab.value else 0;
      current := ModalState(Some(kind), data, tab, options);
    }

    /** Afterwards the state is the initial one whatever it was before, so a
        second call changes nothing. */
    method CloseModal()
      modifies this
      ensures current == AfterClose()
    {
      current := ModalState(None, NoData, 0, NoOptions);
    }

    method SetActiveTab(tabIndex: int)
      modifies this
      ensures current == AfterSetActiveTab(old(current), tabIndex)
    {
      if TypeIsTruthy(current.kind) {
        current := current.(activeTab := tabIndex);
      }
    }

    method UpdateModalData(data: ModalData)
      modifies this
      ensures current == AfterUpdateData(old(current), data)
    {
      if TypeIsTruthy(current.kind) {
        current := current.(data := data);
      }
    }

    method OpenPositionModal(symbol: string, tabIndex: int)
      modifies this
      ensures current == AfterOpen(PositionModal, Text(symbol), TabOptions(tabIndex))
      ensures IsPositionModalVisible(current)
      ensures SelectedPositionSymbol(current) == Text(symbol) && current.activeTab == tabIndex
    {
      OpenModal(PositionModal, Text(symbol), TabOptions(tabIndex));
    }

    /** The same as `OpenPositionModal(position.symbol, tabIndex)`. */
    method OpenPosition(position: Position, tabIndex: int)
      modifies this
      ensures current == AfterOpen(PositionModal, Text(position.symbol), TabOptions(tabIndex))
      ensures SelectedPositionSymbol(current) == Text(position.symbol)
      ensures current.activeTab == tabIndex
    {
      OpenPositionModal(position.symbol, tabIndex);
    }

    method OpenSettingsModal()
      modifies this
      ensures current == AfterOpen(SettingsModal, NoData, NoOptions)
      ensures current.kind == Some(SettingsModal) && current.data == NoData && current.activeTab == 0
    {
      OpenModal(SettingsModal, NoData, NoOptions);
    }

    method OpenAlertModal(message: string, options: ModalOptions)
      modifies this
      ensures current == AfterOpen(AlertModal, AlertPayload(message), options)
      ensures current.kind == Some(AlertModal) && current.data == AlertPayload(message)
      ensures !IsPositionModalVisible(current)
    {
      OpenModal(AlertModal, AlertPayload(message), options);
    }

    /** The callbacks are stored in the data and never invoked. */
    method OpenConfirmationModal(title: string, message: string,
                                 onConfirm: Callback, onCancel: Option<Callback>)
      modifies this
      ensures current == AfterOpen(ConfirmationModal,
                                   ConfirmPayload(title, message, onConfirm, onCancel), NoOptions)
      ensures current.kind == Some(ConfirmationModal) && current.activeTab == 0
    {
      OpenModal(ConfirmationModal, ConfirmPayload(title, message, onConfirm, onCancel), NoOptions);
    }
  }
}
