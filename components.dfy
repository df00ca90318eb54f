/**
 * The component registry (`components`): node descriptors with their own props (static, or
 * computed from an initial state), a projection `mapStateToProps(state, ownProps)` that spreads
 * the own props and overrides a few keys from the store state, slots with priorities, and an
 * optional child context.
 */
module ComponentRegistry {
  import opened Wrappers
  import opened Store
  import opened Commands

  /** The registered components, one constructor per key of `components`; `Name` gives the key. */
  datatype ComponentId =
    | DownloadButton | UndoButton | RedoButton | CopyButton | HighlightButton
    | HighlightSelectionButton | SearchButton | ZoomButton | SidebarButton
    | HeaderStart | HeaderCenter | HeaderEnd
    | PageControls | PageControlsContainer
    | TextSelectionMenuButtons | TextSelectionMenu
    | TopHeader | LeftPanelMain | LeftPanel | Thumbnails
    | SearchView | CommandMenuView | ZoomView | RightPanel

  /** The key a component is registered under, which is also its `id`. */
  function Name(c: ComponentId): string
  {
    match c
    case DownloadButton => "downloadButton"
    case UndoButton => "undoButton"
    case RedoButton => "redoButton"
    case CopyButton => "copyButton"
    case HighlightButton => "highlightButton"
    case HighlightSelectionButton => "highlightSelectionButton"
    case SearchButton => "searchButton"
    case ZoomButton => "zoomButton"
    case SidebarButton => "sidebarButton"
    case HeaderStart => "headerStart"
    case HeaderCenter => "headerCenter"
    case HeaderEnd => "headerEnd"
    case PageControls => "pageControls"
    case PageControlsContainer => "pageControlsContainer"
    case TextSelectionMenuButtons => "textSelectionMenuButtons"
    case TextSelectionMenu => "textSelectionMenu"
    case TopHeader => "topHeader"
    case LeftPanelMain => "leftPanelMain"
    case LeftPanel => "leftPanel"
    case Thumbnails => "thumbnails"
    case SearchView => "search"
    case CommandMenuView => "commandMenu"
    case ZoomView => "zoom"
    case RightPanel => "rightPanel"
  }

  /** The keys of `components`: the names slots may refer to. */
  const ComponentIds: set<string> :=
    {"downloadButton", "undoButton", "redoButton", "copyButton",
     "highlightButton", "highlightSelectionButton", "searchButton", "zoomButton",
     "sidebarButton", "headerStart", "headerCenter", "headerEnd",
     "pageControls", "pageControlsContainer", "textSelectionMenuButtons", "textSelectionMenu",
     "topHeader", "leftPanelMain", "leftPanel", "thumbnails",
     "search", "commandMenu", "zoom", "rightPanel"}

  /** A descriptor's `type`. */
  datatype ComponentType =
    | IconButtonType | GroupedItemsType | CustomType | FloatingType | HeaderType | PanelType | CommandMenuType

  /** The `type` string of each component type. */
  function TypeName(t: ComponentType): string
  {
    match t
    case IconButtonType => "iconButton"
    case GroupedItemsType => "groupedItems"
    case CustomType => "custom"
    case FloatingType => "floating"
    case HeaderType => "header"
    case PanelType => "panel"
    case CommandMenuType => "commandMenu"
  }

  /** The `type` of each registered component. */
  function TypeOf(c: ComponentId): ComponentType
  {
    match c
    case DownloadButton | UndoButton | RedoButton | CopyButton | HighlightButton
       | HighlightSelectionButton | SearchButton | ZoomButton | SidebarButton => IconButtonType
    case HeaderStart | HeaderCenter | HeaderEnd | TextSelectionMenuButtons => GroupedItemsType
    case PageControls | LeftPanelMain | Thumbnails | SearchView | ZoomView => CustomType
    case PageControlsContainer | TextSelectionMenu => FloatingType
    case TopHeader => HeaderType
    case LeftPanel | RightPanel => PanelType
    case CommandMenuView => CommandMenuType
  }

  /** The `render` key, for the components that name a renderer. */
  function Render(c: ComponentId): Option<string>
  {
    match c
    case PageControls => Some("pageControls")
    case PageControlsContainer => Some("pageControlsContainer")
    case TextSelectionMenu => Some("textSelectionMenu")
    case LeftPanelMain => Some("leftPanelMain")
    case Thumbnails => Some("thumbnails")
    case SearchView => Some("search")
    case ZoomView => Some("zoom")
    case _ => None
  }

  /** A placement of a child component inside a container. */
  datatype Slot = Slot(componentId: string, priority: int)

  /** The `slots` of each container, in their declared order; empty where none are declared. */
  function Slots(c: ComponentId): seq<Slot>
  {
    match c
    case HeaderStart =>
      [Slot("downloadButton", 1), Slot("sidebarButton", 2), Slot("zoomButton", 7), Slot("zoom", 8)]
    case HeaderCenter => [Slot("highlightButton", 0), Slot("undoButton", 3), Slot("redoButton", 4)]
    case HeaderEnd => [Slot("searchButton", 1)]
    case PageControlsContainer => [Slot("pageControls", 0)]
    case TextSelectionMenuButtons => [Slot("copyButton", 0), Slot("highlightSelectionButton", 1)]
    case TextSelectionMenu => [Slot("textSelectionMenuButtons", 0)]
    case TopHeader => [Slot("headerStart", 0), Slot("headerCenter", 1), Slot("headerEnd", 2)]
    case LeftPanelMain => [Slot("thumbnails", 0)]
    case LeftPanel => [Slot("leftPanelMain", 0), Slot("leftPanelAnnotationStyle", 1)]
    case RightPanel => [Slot("search", 0)]
    case _ => []
  }

  /** The static part of a descriptor: its `id`, `type`, `render` key and slots. */
  datatype Component = Component(id: string, kind: ComponentType, render: Option<string>, slots: seq<Slot>)

  /** The descriptor registered under `c`. */
  function Descriptor(c: ComponentId): Component
  {
    Component(Name(c), TypeOf(c), Render(c), Slots(c))
  }


  // ---------------------------------------------------------------------------
  // Own props
  // ---------------------------------------------------------------------------

  /** The `initialState` of the components that declare one, each with the fields its source types. */
  datatype InitialState =
    | PageControlsState(currentPage: real, pageCount: real)
    | LeftPanelMainState(visibleChild: string)
    | LeftPanelState(open: bool, visibleChild: string)
    | CommandMenuState(open: bool, activeCommand: Option<string>, triggerElement: Value,
                       position: Value, flatten: bool)
    | ZoomState(zoomLevel: real)
    | RightPanelState(open: bool, child: Option<string>)   // `visibleChild`, which may be null

  /** An initial state as the plain object the source writes. */
  function StateObject(i: InitialState): Props
  {
    match i
    case PageControlsState(currentPage, pageCount) =>
      NoProps.With(CurrentPage, Num(currentPage)).With(PageCount, Num(pageCount))
    case LeftPanelMainState(visibleChild) => NoProps.With(VisibleChild, Str(visibleChild))
    case LeftPanelState(open, visibleChild) => NoProps.With(Open, Bool(open)).With(VisibleChild, Str(visibleChild))
    case CommandMenuState(open, activeCommand, triggerElement, position, flatten) =>
      NoProps.With(Open, Bool(open)).With(ActiveCommand, NullableStr(activeCommand))
        .With(TriggerElement, triggerElement).With(Position, position).With(Flatten, Bool(flatten))
    case ZoomState(zoomLevel) => NoProps.With(ZoomLevel, Num(zoomLevel))
    case RightPanelState(open, child) => NoProps.With(Open, Bool(open)).With(VisibleChild, NullableStr(child))
  }

  /** `props(initialState)`: each such component's props function, applied to a state of its shape. */
  function PropsFromState(i: InitialState): Props
  {
    match i
    case PageControlsState(currentPage, pageCount) =>
      NoProps.With(CurrentPage, Num(currentPage)).With(PageCount, Num(pageCount))
        .With(NextPageCommandId, Str("nextPage")).With(PreviousPageCommandId, Str("previousPage"))
    case LeftPanelMainState(visibleChild) =>
      NoProps.With(VisibleChild, Str(visibleChild)).With(TabsCommandId, Str(""))
    case LeftPanelState(open, visibleChild) =>
      NoProps.With(Open, Bool(open)).With(VisibleChild, Str(visibleChild)).With(Location, Str("left"))
    case CommandMenuState(open, activeCommand, triggerElement, position, flatten) =>
      NoProps.With(Open, Bool(open)).With(ActiveCommand, NullableStr(activeCommand))
        .With(TriggerElement, triggerElement).With(Position, position).With(Flatten, Bool(flatten))
    case ZoomState(zoomLevel) =>
      NoProps.With(ZoomLevel, Num(zoomLevel)).With(CommandZoomIn, Str(ZoomInItem.id))
        .With(CommandZoomOut, Str(ZoomOutItem.id)).With(CommandZoomMenu, Str(ZoomItem.id))
        .With(ZoomMenuActive, Bool(false))
    case RightPanelState(open, child) =>
      NoProps.With(Open, Bool(open)).With(VisibleChild, NullableStr(child)).With(Location, Str("right"))
  }

  const PageControlsInitial: InitialState := PageControlsState(1.0, 1.0)
  const LeftPanelMainInitial: InitialState := LeftPanelMainState("thumbnails")
  const LeftPanelInitial: InitialState := LeftPanelState(false, "leftPanelMain")
  const CommandMenuInitial: InitialState := CommandMenuState(false, None, Undefined, Undefined, false)
  const ZoomInitial: InitialState := ZoomState(1.0)
  const RightPanelInitial: InitialState := RightPanelState(false, None)

  /** `initialState`, for the components that declare one. */
  function InitialStateOf(c: ComponentId): Option<InitialState>
  {
    match c
    case PageControls => Some(PageControlsInitial)
    case LeftPanelMain => Some(LeftPanelMainInitial)
    case LeftPanel => Some(LeftPanelInitial)
    case CommandMenuView => Some(CommandMenuInitial)
    case ZoomView => Some(ZoomInitial)
    case RightPanel => Some(RightPanelInitial)
    case _ => None
  }

  /** The icon of `zoomButton`, an SVG data URI; its base64 payload is not reproduced. */
  const ZoomButtonImg: string := "data:image/svg+xml;base64,"

  // The static `props` object of each component that declares one. Each chain is the literal's
  // properties with the last one written outermost: `Prop(k, v, p)` is `p.With(k, v)`.

  const DownloadButtonProps: Props :=
    Prop(Label, Str("Download"), Prop(Active, Bool(false), Prop(CommandId, Str("download"), NoProps)))
  const UndoButtonProps: Props :=
    Prop(Label, Str("Undo"), Prop(Disabled, Bool(false), Prop(CommandId, Str("undo"), NoProps)))
  const RedoButtonProps: Props :=
    Prop(Label, Str("Redo"), Prop(Disabled, Bool(false), Prop(CommandId, Str("redo"), NoProps)))
  const CopyButtonProps: Props :=
    Prop(Label, Str("Copy"), Prop(Active, Bool(false), Prop(CommandId, Str("copy"), NoProps)))
  const HighlightButtonProps: Props :=
    Prop(Color, Str("#ffcd45"), Prop(Label, Str("Highlight"), Prop(Active, Bool(false),
    Prop(CommandId, Str("highlight"), NoProps))))
  const HighlightSelectionButtonProps: Props :=
    Prop(Color, Str("#ffcd45"), Prop(CommandId, Str("highlightSelection"), NoProps))
  const SearchButtonProps: Props :=
    Prop(Label, Str("Search"), Prop(CommandId, Str("search"), Prop(Active, Bool(false), NoProps)))
  const ZoomButtonProps: Props :=
    Prop(Img, Str(ZoomButtonImg), Prop(Label, Str("Zoom"), Prop(CommandId, Str("zoom"), NoProps)))
  const SidebarButtonProps: Props :=
    Prop(Active, Bool(false), Prop(Label, Str("Sidebar"), Prop(CommandId, Str("sidebar"), NoProps)))
  const HeaderStartProps: Props := Prop(Gap, Num(10.0), NoProps)
  const HeaderCenterProps: Props := Prop(Gap, Num(10.0), NoProps)
  const HeaderEndProps: Props := Prop(Gap, Num(10.0), NoProps)
  const PageControlsContainerProps: Props := Prop(ScrollerPosition, Str("outside"), NoProps)
  const TextSelectionMenuButtonsProps: Props := Prop(Gap, Num(10.0), NoProps)
  const TextSelectionMenuProps: Props := Prop(ScrollerPosition, Str("inside"), Prop(Open, Bool(false), NoProps))
  const TopHeaderProps: Props :=
    Prop(Style, Obj(Prop(Gap, Str("10px"), Prop(BackgroundColor, Str("#ffffff"), NoProps))),
    Prop(Placement, Str("top"), NoProps))

  /**
   * The own props of each component: its static `props` object, or its `props(initialState)`
   * applied to its declared initial state; empty for the components that declare neither.
   */
  function OwnProps(c: ComponentId): Props
  {
    match c
    case DownloadButton => DownloadButtonProps
    case UndoButton => UndoButtonProps
    case RedoButton => RedoButtonProps
    case CopyButton => CopyButtonProps
    case HighlightButton => HighlightButtonProps
    case HighlightSelectionButton => HighlightSelectionButtonProps
    case SearchButton => SearchButtonProps
    case ZoomButton => ZoomButtonProps
    case SidebarButton => SidebarButtonProps
    case HeaderStart => HeaderStartProps
    case HeaderCenter => HeaderCenterProps
    case HeaderEnd => HeaderEndProps
    case PageControls => PropsFromState(PageControlsInitial)
    case PageControlsContainer => PageControlsContainerProps
    case TextSelectionMenuButtons => TextSelectionMenuButtonsProps
    case TextSelectionMenu => TextSelectionMenuProps
    case TopHeader => TopHeaderProps
    case LeftPanelMain => PropsFromState(LeftPanelMainInitial)
    case LeftPanel => PropsFromState(LeftPanelInitial)
    case Thumbnails => NoProps
    case SearchView => NoProps
    case CommandMenuView => PropsFromState(CommandMenuInitial)
    case ZoomView => PropsFromState(ZoomInitial)
    case RightPanel => PropsFromState(RightPanelInitial)
  }

  // ---------------------------------------------------------------------------
  // Projections and child contexts
  // ---------------------------------------------------------------------------

  /** The zoom menu is showing: the `zoom` or the `changeZoomLevel` menu is active. */
  function ZoomMenuShowing(s: State): bool
  {
    IsActive(ZoomItem, s) || IsActive(ChangeZoomLevelItem, s)
  }

  /** `position` as a prop: undefined when the command menu reports none. */
  function PositionValue(p: Option<string>): Value
  {
    match p
    case None => Undefined
    case Some(x) => Str(x)
  }

  /**
   * `mapStateToProps(state, ownProps)`: `{ ...ownProps, <overrides> }`, each override assigned
   * in the order the source writes it; `None` for the components that declare none.
   */
  function MapStateToProps(c: ComponentId, s: State, own: Props): Option<Props>
  {
    match c
    case DownloadButton => Some(own.With(Active, Bool(IsActive(DownloadItem, s))))
    case UndoButton => Some(own.With(Disabled, Bool(IsDisabled(UndoItem, s))))
    case RedoButton => Some(own.With(Disabled, Bool(IsDisabled(RedoItem, s))))
    case CopyButton => Some(own.With(Active, Bool(IsActive(CopyItem, s))))
    case HighlightButton =>
      Some(own.With(Active, Bool(IsActive(HighlightItem, s))).With(IconProps, IconPropsOf(HighlightItem, s)))
    case HighlightSelectionButton => Some(own.With(IconProps, IconPropsOf(HighlightSelectionItem, s)))
    case SearchButton => Some(own.With(Active, Bool(IsActive(SearchItem, s))))
    case ZoomButton => Some(own.With(Active, Bool(ZoomMenuShowing(s))))
    case SidebarButton => Some(own.With(Active, Bool(IsActive(SidebarItem, s))))
    case PageControls =>
      Some(own.With(CurrentPage, Num(s.currentPage as real)).With(PageCount, Num(DocumentPageCount(s) as real)))
    case TextSelectionMenu =>
      Some(own.With(IsScrolling, Bool(s.isScrolling)).With(Scale, Num(s.scale))
              .With(Open, Bool(s.selectionActive && !s.selecting)))
    case LeftPanelMain => Some(own.With(VisibleChild, Str(s.leftPanelMainChild)))
    case LeftPanel =>
      Some(own.With(Open, Bool(s.leftPanel.open)).With(VisibleChild, NullableStr(s.leftPanel.visibleChild)))
    case Thumbnails => Some(own.With(CurrentPage, Num(s.currentPage as real)))
    case SearchView =>
      Some(own.With(Flags, List(s.search.flags))
              .With(Results, List(s.search.results))
              .With(Total, Num(s.search.total as real))
              .With(ActiveResultIndex, Num(s.search.activeResultIndex as real))
              .With(Active, Bool(s.search.active))
              .With(Query, Str(s.search.query))
              .With(Loading, Bool(s.search.loading)))
    case CommandMenuView =>
      Some(own.With(Open, Bool(s.commandMenu.open))
              .With(ActiveCommand, NullableStr(s.commandMenu.activeCommand))
              .With(TriggerElement, s.commandMenu.triggerElement)
              .With(Position, PositionValue(s.commandMenu.position))
              .With(Flatten, Bool(s.commandMenu.flatten)))
    case ZoomView => Some(own.With(ZoomLevel, Num(s.zoomLevel)).With(ZoomMenuActive, Bool(ZoomMenuShowing(s))))
    case RightPanel =>
      Some(own.With(Open, Bool(s.rightPanel.open)).With(VisibleChild, NullableStr(s.rightPanel.visibleChild)))
    case _ => None
  }

  /** The object `{ direction: d }` a container passes to its children. */
  function DirectionContext(d: string): Props
  {
    NoProps.With(Direction, Str(d))
  }

  /** `getChildContext`, as a function of the container's props or a static object. */
  function ChildContext(c: ComponentId, props: Props): Option<Props>
  {
    match c
    case TopHeader =>
      Some(DirectionContext(if props.Get(Placement) == Str("top") || props.Get(Placement) == Str("bottom")
                            then "horizontal" else "vertical"))
    case TextSelectionMenu => Some(DirectionContext("horizontal"))
    case _ => None
  }

  // ---------------------------------------------------------------------------
  // Registry integrity
  // ---------------------------------------------------------------------------

  /** A command reference resolves when it is absent or a string naming a registered command. */
  predicate RefResolves(v: Value)
  {
    v == Undefined || (v.Str? && v.s in CommandIds)
  }

  /** Every command reference in a props object resolves: the keys whose values name a command. */
  predicate RefsResolveIn(p: Props)
  {
    && RefResolves(p.Get(CommandId))
    && RefResolves(p.Get(NextPageCommandId))
    && RefResolves(p.Get(PreviousPageCommandId))
    && RefResolves(p.Get(TabsCommandId))
    && RefResolves(p.Get(CommandZoomIn))
    && RefResolves(p.Get(CommandZoomOut))
    && RefResolves(p.Get(CommandZoomMenu))
  }

  /** Every slot of the component names a registered component. */
  predicate SlotsResolve(c: ComponentId)
  {
    forall i :: 0 <= i < |Slots(c)| ==> Slots(c)[i].componentId in ComponentIds
  }

  /** Every command reference in the component's own props resolves. */
  predicate CommandRefsResolve(c: ComponentId)
  {
    RefsResolveIn(OwnProps(c))
  }

  /** Every menu lists only registered commands as its children. */
  ghost predicate MenuChildrenIntact()
  {
    forall id :: id in MenuItems ==> forall child :: child in MenuItems[id].children ==> child in MenuItems
  }

  /** Whole-registry integrity: menu children, command references and slot references all resolve. */
  ghost predicate RegistryIntegrity()
  {
    && MenuChildrenIntact()
    && (forall c: ComponentId :: SlotsResolve(c) && CommandRefsResolve(c))
  }
}

/** What the component registry promises about its projections, contexts and references. */
module ComponentProperties {
  import opened Wrappers
  import opened Store
  import opened Commands
  import opened ComponentRegistry
  import opened CommandProperties

  /** The containers that declare no `mapStateToProps`. */
  predicate Unprojected(c: ComponentId)
  {
    c in {HeaderStart, HeaderCenter, HeaderEnd, PageControlsContainer, TextSelectionMenuButtons, TopHeader}
  }

  /** The keys each `mapStateToProps` names after its spread, listed independently of the projection. */
  function OverriddenKeys(c: ComponentId): set<Key>
  {
    match c
    case DownloadButton | CopyButton | SearchButton | ZoomButton | SidebarButton => {Active}
    case UndoButton | RedoButton => {Disabled}
    case HighlightButton => {Active, IconProps}
    case HighlightSelectionButton => {IconProps}
    case PageControls => {CurrentPage, PageCount}
    case TextSelectionMenu => {IsScrolling, Scale, Open}
    case LeftPanelMain => {VisibleChild}
    case LeftPanel | RightPanel => {Open, VisibleChild}
    case Thumbnails => {CurrentPage}
    case SearchView => {Flags, Results, Total, ActiveResultIndex, Active, Query, Loading}
    case CommandMenuView => {Open, ActiveCommand, TriggerElement, Position, Flatten}
    case ZoomView => {ZoomLevel, ZoomMenuActive}
    case _ => {}
  }

  /** Components are registered under distinct names, all of them keys of the table. */
  lemma NamesRegistered(c: ComponentId, d: ComponentId)
    ensures Name(c) in ComponentIds
    ensures Name(c) == Name(d) ==> c == d
    ensures Descriptor(c).id == Name(c)
  {
  }

  /** Every key of the table is the name of a registered component. */
  lemma TableKeysAreNames(n: string)
    ensures n in ComponentIds ==> exists c :: Name(c) == n
  {
    if n == "downloadButton" {
      assert Name(DownloadButton) == n;
    } else if n == "undoButton" {
      assert Name(UndoButton) == n;
    } else if n == "redoButton" {
      assert Name(RedoButton) == n;
    } else if n == "copyButton" {
      assert Name(CopyButton) == n;
    } else if n == "highlightButton" {
      assert Name(HighlightButton) == n;
    } else if n == "highlightSelectionButton" {
      assert Name(HighlightSelectionButton) == n;
    } else if n == "searchButton" {
      assert Name(SearchButton) == n;
    } else if n == "zoomButton" {
      assert Name(ZoomButton) == n;
    } else if n == "sidebarButton" {
      assert Name(SidebarButton) == n;
    } else if n == "headerStart" {
      assert Name(HeaderStart) == n;
    } else if n == "headerCenter" {
      assert Name(HeaderCenter) == n;
    } else if n == "headerEnd" {
      assert Name(HeaderEnd) == n;
    } else if n == "pageControls" {
      assert Name(PageControls) == n;
    } else if n == "pageControlsContainer" {
      assert Name(PageControlsContainer) == n;
    } else if n == "textSelectionMenuButtons" {
      assert Name(TextSelectionMenuButtons) == n;
    } else if n == "textSelectionMenu" {
      assert Name(TextSelectionMenu) == n;
    } else if n == "topHeader" {
      assert Name(TopHeader) == n;
    } else if n == "leftPanelMain" {
      assert Name(LeftPanelMain) == n;
    } else if n == "leftPanel" {
      assert Name(LeftPanel) == n;
    } else if n == "thumbnails" {
      assert Name(Thumbnails) == n;
    } else if n == "search" {
      assert Name(SearchView) == n;
    } else if n == "commandMenu" {
      assert Name(CommandMenuView) == n;
    } else if n == "zoom" {
      assert Name(ZoomView) == n;
    } else if n == "rightPanel" {
      assert Name(RightPanel) == n;
    }
  }

  /** The only components without a `mapStateToProps` are the six plain containers. */
  lemma ProjectedUnlessContainer(c: ComponentId, s: State, own: Props)
    ensures MapStateToProps(c, s, own).None? <==> Unprojected(c)
  {
  }

  /**
   * Every `mapStateToProps` returns the own props unchanged except for the keys it names: it
   * keeps every own property, adds the named ones, and leaves the value of every other key.
   */
  lemma SpreadThenOverride(c: ComponentId, s: State, own: Props)
    ensures MapStateToProps(c, s, own).Some? ==> MapStateToProps(c, s, own).value.SpreadOf(own, OverriddenKeys(c))
  {
    match c
    case DownloadButton | UndoButton | RedoButton | CopyButton | HighlightButton =>
      SpreadOverButtons(c, s, own);
    case HighlightSelectionButton | SearchButton | ZoomButton | SidebarButton | ZoomView | RightPanel =>
      SpreadOverMenuButtons(c, s, own);
    case PageControls | TextSelectionMenu | LeftPanelMain | LeftPanel | Thumbnails =>
      SpreadOverPanels(c, s, own);
    case CommandMenuView =>
      SpreadOverCommandMenu(s, own);
    case SearchView =>
      SearchKeepsOwnProps(s, own);
      SearchAddsResultKeys(s, own);
      SearchAddsQueryKeys(s, own);
      SearchAddsNothingElse(s, own);
    case _ =>
  }

  /** The first five header buttons override only their `active`, `disabled` or `iconProps`. */
  lemma SpreadOverButtons(c: ComponentId, s: State, own: Props)
    requires c in {DownloadButton, UndoButton, RedoButton, CopyButton, HighlightButton}
    ensures MapStateToProps(c, s, own).Some?
    ensures MapStateToProps(c, s, own).value.SpreadOf(own, OverriddenKeys(c))
  {
  }

  /** The remaining buttons, the zoom control and the right panel override only their named keys. */
  lemma SpreadOverMenuButtons(c: ComponentId, s: State, own: Props)
    requires c in {HighlightSelectionButton, SearchButton, ZoomButton, SidebarButton, ZoomView, RightPanel}
    ensures MapStateToProps(c, s, own).Some?
    ensures MapStateToProps(c, s, own).value.SpreadOf(own, OverriddenKeys(c))
  {
  }

  /** Page controls, the selection menu, the left panel and its views override only their named keys. */
  lemma SpreadOverPanels(c: ComponentId, s: State, own: Props)
    requires c in {PageControls, TextSelectionMenu, LeftPanelMain, LeftPanel, Thumbnails}
    ensures MapStateToProps(c, s, own).Some?
    ensures MapStateToProps(c, s, own).value.SpreadOf(own, OverriddenKeys(c))
  {
  }

  /** The command menu overrides only the five keys of its slice. */
  lemma SpreadOverCommandMenu(s: State, own: Props)
    ensures MapStateToProps(CommandMenuView, s, own).Some?
    ensures MapStateToProps(CommandMenuView, s, own).value.SpreadOf(own, OverriddenKeys(CommandMenuView))
  {
  }

  /** The search view keeps every own property, and the value of every key it does not name. */
  lemma SearchKeepsOwnProps(s: State, own: Props)
    ensures MapStateToProps(SearchView, s, own).Some?
    ensures forall k :: own.Has(k) ==> MapStateToProps(SearchView, s, own).value.Has(k)
    ensures forall k :: k !in OverriddenKeys(SearchView) ==>
              MapStateToProps(SearchView, s, own).value.Get(k) == own.Get(k)
  {
  }

  /** The search view defines `flags`, `results`, `total` and `activeResultIndex`. */
  lemma SearchAddsResultKeys(s: State, own: Props)
    ensures MapStateToProps(SearchView, s, own).Some?
    ensures forall k :: k in {Flags, Results, Total, ActiveResultIndex} ==> MapStateToProps(SearchView, s, own).value.Has(k)
  {
  }

  /** The search view defines `active`, `query` and `loading`. */
  lemma SearchAddsQueryKeys(s: State, own: Props)
    ensures MapStateToProps(SearchView, s, own).Some?
    ensures forall k :: k in {Active, Query, Loading} ==> MapStateToProps(SearchView, s, own).value.Has(k)
  {
  }

  /** The search view defines no property beyond its own props and the seven keys it names. */
  lemma SearchAddsNothingElse(s: State, own: Props)
    ensures MapStateToProps(SearchView, s, own).Some?
    ensures forall k :: MapStateToProps(SearchView, s, own).value.Has(k) ==> own.Has(k) || k in OverriddenKeys(SearchView)
  {
  }

  /** The command each icon button other than `zoomButton` is wired to, listed independently of its props. */
  function ButtonCommand(c: ComponentId): Command
    requires TypeOf(c) == IconButtonType && c != ZoomButton
  {
    match c
    case DownloadButton => DownloadItem
    case UndoButton => UndoItem
    case RedoButton => RedoItem
    case CopyButton => CopyItem
    case HighlightButton => HighlightItem
    case HighlightSelectionButton => HighlightSelectionItem
    case SearchButton => SearchItem
    case SidebarButton => SidebarItem
  }

  /** Each such button's `commandId` is the id of its command. */
  lemma ButtonCommandRegistered(c: ComponentId)
    requires TypeOf(c) == IconButtonType && c != ZoomButton
    ensures OwnProps(c).Get(CommandId) == Str(ButtonCommand(c).id)
  {
  }

  /** The command table holds each such button's command under that id. */
  lemma ButtonCommandInTable(c: ComponentId)
    requires TypeOf(c) == IconButtonType && c != ZoomButton
    ensures ButtonCommand(c).id in MenuItems && MenuItems[ButtonCommand(c).id] == ButtonCommand(c)
  {
    ButtonItemsStored();
    MenuButtonItemsStored();
  }

  /** Each such button's projection computes its `active`, `disabled` and `iconProps` from its command. */
  lemma ButtonProjection(c: ComponentId, s: State, own: Props)
    requires TypeOf(c) == IconButtonType && c != ZoomButton
    ensures MapStateToProps(c, s, own).Some?
    ensures var p := MapStateToProps(c, s, own).value;
            && (Active in OverriddenKeys(c) ==> p.Get(Active) == Bool(IsActive(ButtonCommand(c), s)))
            && (Disabled in OverriddenKeys(c) ==> p.Get(Disabled) == Bool(IsDisabled(ButtonCommand(c), s)))
            && (IconProps in OverriddenKeys(c) ==> p.Get(IconProps) == IconPropsOf(ButtonCommand(c), s))
  {
  }

  /**
   * Each icon button other than `zoomButton` names a registered command in its `commandId`
   * prop, and its projected `active`, `disabled` and `iconProps` are that command's.
   */
  lemma IconButtonsTrackTheirCommand(c: ComponentId, s: State, own: Props)
    requires TypeOf(c) == IconButtonType && c != ZoomButton
    ensures MapStateToProps(c, s, own).Some?
    ensures OwnProps(c).Get(CommandId).Str? && OwnProps(c).Get(CommandId).s in MenuItems
    ensures var cmd := MenuItems[OwnProps(c).Get(CommandId).s];
            var p := MapStateToProps(c, s, own).value;
            && (Active in OverriddenKeys(c) ==> p.Get(Active) == Bool(IsActive(cmd, s)))
            && (Disabled in OverriddenKeys(c) ==> p.Get(Disabled) == Bool(IsDisabled(cmd, s)))
            && (IconProps in OverriddenKeys(c) ==> p.Get(IconProps) == IconPropsOf(cmd, s))
  {
    ButtonCommandRegistered(c);
    ButtonCommandInTable(c);
    ButtonProjection(c, s, own);
  }

  /**
   * `highlightButton` and `highlightSelectionButton` project as `iconProps` the object
   * `{ primaryColor }` whose only property is the highlight tool's default colour.
   */
  lemma HighlightButtonsIconProps(s: State, own: Props)
    ensures MapStateToProps(HighlightButton, s, own).Some? && MapStateToProps(HighlightSelectionButton, s, own).Some?
    ensures var ip := MapStateToProps(HighlightButton, s, own).value.Get(IconProps);
            && ip.Obj? && (forall k :: ip.fields.Has(k) <==> k == PrimaryColor)
            && ip.fields.Get(PrimaryColor) == Str(s.highlightColor)
    ensures var ip := MapStateToProps(HighlightSelectionButton, s, own).value.Get(IconProps);
            && ip.Obj? && (forall k :: ip.fields.Has(k) <==> k == PrimaryColor)
            && ip.fields.Get(PrimaryColor) == Str(s.highlightColor)
  {
  }

  /** `undoButton` and `redoButton` are disabled exactly when nothing can be undone / redone. */
  lemma UndoRedoButtonsDisabled(s: State, own: Props)
    ensures MapStateToProps(UndoButton, s, own).Some? && MapStateToProps(RedoButton, s, own).Some?
    ensures MapStateToProps(UndoButton, s, own).value.Get(Disabled) == Bool(!s.canUndo)
    ensures MapStateToProps(RedoButton, s, own).value.Get(Disabled) == Bool(!s.canRedo)
  {
  }

  /** `downloadButton` and `copyButton` are never active: their commands define no `active`. */
  lemma DownloadAndCopyNeverActive(s: State, own: Props)
    ensures MapStateToProps(DownloadButton, s, own).Some? && MapStateToProps(CopyButton, s, own).Some?
    ensures MapStateToProps(DownloadButton, s, own).value.Get(Active) == Bool(false)
    ensures MapStateToProps(CopyButton, s, own).value.Get(Active) == Bool(false)
  {
  }

  /**
   * `zoomButton.active` and `zoom.zoomMenuActive` hold exactly when the active command is
   * `zoom` or `changeZoomLevel`; `zoom.zoomLevel` is the current zoom level.
   */
  lemma ZoomMenuActiveProps(s: State, own: Props)
    ensures MapStateToProps(ZoomButton, s, own).Some? && MapStateToProps(ZoomView, s, own).Some?
    ensures MapStateToProps(ZoomButton, s, own).value.Get(Active)
         == Bool(s.commandMenu.activeCommand == Some("zoom") || s.commandMenu.activeCommand == Some("changeZoomLevel"))
    ensures MapStateToProps(ZoomView, s, own).value.Get(ZoomMenuActive)
         == Bool(s.commandMenu.activeCommand == Some("zoom") || s.commandMenu.activeCommand == Some("changeZoomLevel"))
    ensures MapStateToProps(ZoomView, s, own).value.Get(ZoomLevel) == Num(s.zoomLevel)
  {
  }

  /** The panels override only `open` and `visibleChild`, copying their panel slice. */
  lemma PanelProjection(s: State, own: Props)
    ensures OverriddenKeys(LeftPanel) == {Open, VisibleChild} == OverriddenKeys(RightPanel)
    ensures MapStateToProps(LeftPanel, s, own).Some? && MapStateToProps(RightPanel, s, own).Some?
    ensures var p := MapStateToProps(LeftPanel, s, own).value;
            p.Get(Open) == Bool(s.leftPanel.open) && p.Get(VisibleChild) == NullableStr(s.leftPanel.visibleChild)
    ensures var p := MapStateToProps(RightPanel, s, own).value;
            p.Get(Open) == Bool(s.rightPanel.open) && p.Get(VisibleChild) == NullableStr(s.rightPanel.visibleChild)
  {
  }

  /**
   * `pageControls` overrides only `currentPage` and `pageCount`; the page count is the
   * document's, and 1 when there is no document or it reports none.
   */
  lemma PageControlsProjection(s: State, own: Props)
    ensures OverriddenKeys(PageControls) == {CurrentPage, PageCount}
    ensures MapStateToProps(PageControls, s, own).Some?
    ensures var p := MapStateToProps(PageControls, s, own).value;
            && p.Get(CurrentPage) == Num(s.currentPage as real)
            && (s.document == None || s.document.value.pageCount == None ==> p.Get(PageCount) == Num(1.0))
            && (s.document.Some? && s.document.value.pageCount.Some? ==>
                  p.Get(PageCount) == Num(s.document.value.pageCount.value as real))
  {
  }

  /** `leftPanelMain` copies its visible child from the store, `thumbnails` the current page. */
  lemma ViewProjections(s: State, own: Props)
    ensures MapStateToProps(LeftPanelMain, s, own).Some? && MapStateToProps(Thumbnails, s, own).Some?
    ensures MapStateToProps(LeftPanelMain, s, own).value.Get(VisibleChild) == Str(s.leftPanelMainChild)
    ensures MapStateToProps(Thumbnails, s, own).value.Get(CurrentPage) == Num(s.currentPage as real)
  {
  }

  /** `search` copies the search plugin state, its counts as numbers. */
  lemma SearchViewProjection(s: State, own: Props)
    ensures MapStateToProps(SearchView, s, own).Some?
    ensures var p := MapStateToProps(SearchView, s, own).value;
            && p.Get(Flags) == List(s.search.flags)
            && p.Get(Results) == List(s.search.results)
            && p.Get(Total) == Num(s.search.total as real)
            && p.Get(ActiveResultIndex) == Num(s.search.activeResultIndex as real)
            && p.Get(Active) == Bool(s.search.active)
            && p.Get(Query) == Str(s.search.query)
            && p.Get(Loading) == Bool(s.search.loading)
  {
  }

  /** `commandMenu` copies the command menu slice; a missing position reads as undefined. */
  lemma CommandMenuProjection(s: State, own: Props)
    ensures MapStateToProps(CommandMenuView, s, own).Some?
    ensures var p := MapStateToProps(CommandMenuView, s, own).value;
            && p.Get(Open) == Bool(s.commandMenu.open)
            && p.Get(ActiveCommand) == NullableStr(s.commandMenu.activeCommand)
            && p.Get(TriggerElement) == s.commandMenu.triggerElement
            && (s.commandMenu.position == None ==> p.Get(Position) == Undefined)
            && (s.commandMenu.position.Some? ==> p.Get(Position) == Str(s.commandMenu.position.value))
            && p.Get(Flatten) == Bool(s.commandMenu.flatten)
  {
  }

  /**
   * `topHeader` gives its children the direction `horizontal` exactly when its placement is
   * `top` or `bottom`, and `vertical` otherwise; with its own props (placement `top`) that is
   * `horizontal`.
   */
  lemma TopHeaderDirection(props: Props)
    ensures ChildContext(TopHeader, props).Some?
    ensures var ctx := ChildContext(TopHeader, props).value;
            (forall k :: ctx.Has(k) <==> k == Direction) &&
            (ctx.Get(Direction) == Str("horizontal") <==> props.Get(Placement) in {Str("top"), Str("bottom")}) &&
            (ctx.Get(Direction) == Str("vertical") <==> props.Get(Placement) !in {Str("top"), Str("bottom")})
    ensures ChildContext(TopHeader, OwnProps(TopHeader)) == Some(DirectionContext("horizontal"))
  {
  }

  /**
   * `textSelectionMenu` always gives the direction `horizontal`, is open exactly when a
   * selection is active and no longer being made, and copies the viewport's scrolling flag and
   * the document's scale.
   */
  lemma TextSelectionMenuProjection(props: Props, s: State, own: Props)
    ensures ChildContext(TextSelectionMenu, props) == Some(DirectionContext("horizontal"))
    ensures MapStateToProps(TextSelectionMenu, s, own).Some?
    ensures MapStateToProps(TextSelectionMenu, s, own).value.Get(Open) == Bool(s.selectionActive && !s.selecting)
    ensures MapStateToProps(TextSelectionMenu, s, own).value.Get(IsScrolling) == Bool(s.isScrolling)
    ensures MapStateToProps(TextSelectionMenu, s, own).value.Get(Scale) == Num(s.scale)
  {
  }

  /** The own props are `props(initialState)` applied to the declared initial state, where there is one. */
  lemma OwnPropsAreProps(c: ComponentId)
    ensures InitialStateOf(c).Some? ==> OwnProps(c) == PropsFromState(InitialStateOf(c).value)
  {
  }

  /** `props(initialState)` carries every field of any initial state over unchanged. */
  lemma PropsCarryState(i: InitialState)
    ensures forall k :: StateObject(i).Has(k) ==> PropsFromState(i).Has(k) && PropsFromState(i).Get(k) == StateObject(i).Get(k)
  {
  }

  /** Within each container, slots name distinct components and carry distinct priorities. */
  lemma SlotsDistinct(c: ComponentId)
    ensures forall i, j :: 0 <= i < j < |Slots(c)| ==>
              Slots(c)[i].componentId != Slots(c)[j].componentId && Slots(c)[i].priority != Slots(c)[j].priority
  {
  }

  /** Every menu's children resolve. */
  lemma MenuChildrenAreIntact()
    ensures MenuChildrenIntact()
  {
    forall id | id in MenuItems
      ensures forall child :: child in MenuItems[id].children ==> child in MenuItems
    {
      MenuChildrenResolve(id);
    }
  }

  /** Every slot of every container names a registered component, except `leftPanel`'s second. */
  lemma ResolvedSlotsIntact(c: ComponentId)
    ensures forall i :: 0 <= i < |Slots(c)| && !(c == LeftPanel && i == 1) ==> Slots(c)[i].componentId in ComponentIds
  {
  }

  /** Every command reference of every component other than `leftPanelMain` names a registered command. */
  lemma ResolvedRefsIntact(c: ComponentId)
    ensures c != LeftPanelMain ==> CommandRefsResolve(c)
  {
    match c
    case DownloadButton | UndoButton | RedoButton | CopyButton | HighlightButton =>
      ButtonRefsResolve(c);
    case HighlightSelectionButton | SearchButton | ZoomButton | SidebarButton =>
      MenuButtonRefsResolve(c);
    case PageControls | ZoomView =>
      ControlRefsResolve(c);
    case LeftPanel | CommandMenuView | RightPanel =>
      PanelRefsResolve(c);
    case HeaderStart | HeaderCenter | HeaderEnd | PageControlsContainer | TextSelectionMenuButtons =>
      ContainerRefsResolve(c);
    case TextSelectionMenu | TopHeader | Thumbnails | SearchView =>
      ViewRefsResolve(c);
    case LeftPanelMain =>
  }

  /** The first five header buttons name their own commands and nothing else. */
  lemma ButtonRefsResolve(c: ComponentId)
    requires c in {DownloadButton, UndoButton, RedoButton, CopyButton, HighlightButton}
    ensures CommandRefsResolve(c)
  {
  }

  /** The remaining buttons name their own commands and nothing else. */
  lemma MenuButtonRefsResolve(c: ComponentId)
    requires c in {HighlightSelectionButton, SearchButton, ZoomButton, SidebarButton}
    ensures CommandRefsResolve(c)
  {
  }

  /** The page controls name the page commands, the zoom control the zoom commands. */
  lemma ControlRefsResolve(c: ComponentId)
    requires c in {PageControls, ZoomView}
    ensures CommandRefsResolve(c)
  {
  }

  /** The panels and the command menu name no command. */
  lemma PanelRefsResolve(c: ComponentId)
    requires c in {LeftPanel, CommandMenuView, RightPanel}
    ensures CommandRefsResolve(c)
  {
  }

  /** The plain containers name no command. */
  lemma ContainerRefsResolve(c: ComponentId)
    requires c in {HeaderStart, HeaderCenter, HeaderEnd, PageControlsContainer, TextSelectionMenuButtons}
    ensures CommandRefsResolve(c)
  {
  }

  /** The selection menu, the header, the thumbnails and the search view name no command. */
  lemma ViewRefsResolve(c: ComponentId)
    requires c in {TextSelectionMenu, TopHeader, Thumbnails, SearchView}
    ensures CommandRefsResolve(c)
  {
  }

  /** `leftPanel`'s second slot names `leftPanelAnnotationStyle`, which is not a registered component. */
  lemma LeftPanelSlotUnresolved()
    ensures |Slots(LeftPanel)| == 2 && Slots(LeftPanel)[1].componentId == "leftPanelAnnotationStyle"
    ensures "leftPanelAnnotationStyle" !in ComponentIds
    ensures !SlotsResolve(LeftPanel)
  {
  }

  /** `leftPanelMain`'s `tabsCommandId` is the empty string, which names no command. */
  lemma TabsCommandIdUnresolved()
    ensures OwnProps(LeftPanelMain).Has(TabsCommandId) && OwnProps(LeftPanelMain).Get(TabsCommandId) == Str("")
    ensures "" !in CommandIds
    ensures !CommandRefsResolve(LeftPanelMain)
  {
  }

  /** Hence the shipped registry does not satisfy whole-registry integrity. */
  lemma ShippedRegistryFailsIntegrity()
    ensures !RegistryIntegrity()
  {
    LeftPanelSlotUnresolved();
  }
}
