/**
 * The command registry (`menuItems`): commands keyed by id, each an action or a menu, with
 * active / disabled / icon-props derivations from the store state and an action that looks up
 * an optional capability provider and issues requests on it.
 *
 * The table is data: each derivation and each action is a tagged rule that the functions
 * below interpret, so that the lemmas can check the table's own literals against each other.
 */
module Commands {
  import opened Wrappers
  import opened Store

  // ---------------------------------------------------------------------------
  // Capability providers
  // ---------------------------------------------------------------------------

  /** The plugin identifiers the actions look up. */
  datatype PluginId = ExportPlugin | ZoomPlugin | UiPlugin | ScrollPlugin | SelectionPlugin
                    | AnnotationPlugin | HistoryPlugin

  /** The capability object a loaded plugin provides. */
  datatype Capability = Capability(plugin: PluginId)

  /** The plugin registry: the plugins loaded so far (others are still booting or absent). */
  datatype PluginRegistry = PluginRegistry(loaded: set<PluginId>)

  /** `registry.getPlugin(id)?.provides()`. */
  function Provides(r: PluginRegistry, p: PluginId): (c: Option<Capability>)
    ensures c.Some? <==> p in r.loaded
    ensures c.Some? ==> c.value.plugin == p
  {
    if p in r.loaded then Some(Capability(p)) else None
  }

  // ---------------------------------------------------------------------------
  // Requests issued on capabilities
  // ---------------------------------------------------------------------------

  /** One selection range as the selection plugin formats it. */
  datatype FormattedSelection = FormattedSelection(pageIndex: nat, rect: Value, segmentRects: seq<Value>)

  /** One call an action makes on a capability object. */
  datatype Request =
    | Download
    | RequestZoom(level: real)
    | ZoomIn
    | ZoomOut
    | TogglePanel(panelId: string, visibleChild: string, open: Option<bool>)
    | ScrollToNextPage
    | ScrollToPreviousPage
    | CopyToClipboard
    | SetActiveVariant(variant: Option<string>)
    | GetHighlightToolDefaults
    | GetFormattedSelection
    | GetSelectedText
    | AwaitSelectedText(selection: FormattedSelection)   // registers the continuation for one range
    | Undo
    | Redo

  // ---------------------------------------------------------------------------
  // Commands
  // ---------------------------------------------------------------------------

  datatype CommandType = Action | Menu

  /** `active(storeState)`; `NoActive` where the command defines none. */
  datatype ActiveRule =
    | NoActive
    | ActiveCommandIs(menuId: string)
    | ZoomLevelIs(level: real)
    | PanelShows(panelId: string, child: string)
    | ActiveVariantIs(key: string)

  /** `disabled(storeState)`; `NoDisabled` where the command defines none. */
  datatype DisabledRule = NoDisabled | CannotUndo | CannotRedo

  /** `iconProps(storeState)`; `NoIconProps` where the command defines none. */
  datatype IconRule = NoIconProps | HighlightToolColor

  /** What `action(registry, state)` does; `NoAction` for menus. */
  datatype ActionRule =
    | NoAction
    | DownloadDocument
    | ZoomTo(level: real)
    | StepZoomIn
    | StepZoomOut
    | ToggleRightPanel(child: string)
    | ToggleSidebar
    | GoToNextPage
    | GoToPreviousPage
    | CopySelection
    | ToggleHighlight
    | HighlightSelection
    | UndoLast
    | RedoLast

  /** `label`: a fixed text, or the zoom-level text computed from the state. */
  datatype Caption = Text(text: string) | ZoomLevelText

  datatype Command = Command(
    id: string,
    caption: Caption,   // the `label` field
    icon: Option<string>,
    kind: CommandType,
    children: seq<string>,
    active: ActiveRule,
    disabled: DisabledRule,
    iconProps: IconRule,
    action: ActionRule)

  /**
   * The key `makeVariantKey(PdfAnnotationSubtype.HIGHLIGHT)` computes in the annotation plugin.
   * Its value is the plugin's business; nothing proved here depends on it.
   */
  const HighlightVariantKey: string := "9"

  function ActionCommand(id: string, caption: string, icon: Option<string>, active: ActiveRule,
                         disabled: DisabledRule, iconProps: IconRule, action: ActionRule): Command
  {
    Command(id, Text(caption), icon, Action, [], active, disabled, iconProps, action)
  }

  // Each entry of the table, under the name the source reads it by (`menuItems.<id>`).

  const DownloadItem: Command :=
    ActionCommand("download", "Download", Some("download"), NoActive, NoDisabled, NoIconProps, DownloadDocument)

  const ZoomItem: Command :=
    Command("zoom", Text("Zoom Controls"), Some("zoomIn"), Menu, ["changeZoomLevel"],
      ActiveCommandIs("zoom"), NoDisabled, NoIconProps, NoAction)

  const ChangeZoomLevelItem: Command :=
    Command("changeZoomLevel", ZoomLevelText, None, Menu,
      ["zoom50", "zoom100", "zoom150", "zoom200"],
      ActiveCommandIs("changeZoomLevel"), NoDisabled, NoIconProps, NoAction)

  const Zoom50Item: Command :=
    ActionCommand("zoom50", "50%", None, ZoomLevelIs(0.5), NoDisabled, NoIconProps, ZoomTo(0.5))

  const Zoom100Item: Command :=
    ActionCommand("zoom100", "100%", None, ZoomLevelIs(1.0), NoDisabled, NoIconProps, ZoomTo(1.0))

  const Zoom150Item: Command :=
    ActionCommand("zoom150", "150%", None, ZoomLevelIs(1.5), NoDisabled, NoIconProps, ZoomTo(1.5))

  const Zoom200Item: Command :=
    ActionCommand("zoom200", "200%", None, ZoomLevelIs(2.0), NoDisabled, NoIconProps, ZoomTo(2.0))

  const ZoomInItem: Command :=
    ActionCommand("zoomIn", "Zoom in", Some("zoomIn"), NoActive, NoDisabled, NoIconProps, StepZoomIn)

  const ZoomOutItem: Command :=
    ActionCommand("zoomOut", "Zoom out", Some("zoomOut"), NoActive, NoDisabled, NoIconProps, StepZoomOut)

  const SearchItem: Command :=
    ActionCommand("search", "Search", Some("search"), PanelShows("rightPanel", "search"),
      NoDisabled, NoIconProps, ToggleRightPanel("search"))

  const SidebarItem: Command :=
    ActionCommand("sidebar", "Sidebar", Some("sidebar"), PanelShows("leftPanel", "leftPanelMain"),
      NoDisabled, NoIconProps, ToggleSidebar)

  const NextPageItem: Command :=
    ActionCommand("nextPage", "Next page", Some("chevronRight"), NoActive, NoDisabled, NoIconProps, GoToNextPage)

  const PreviousPageItem: Command :=
    ActionCommand("previousPage", "Previous page", Some("chevronLeft"), NoActive, NoDisabled, NoIconProps, GoToPreviousPage)

  const CopyItem: Command :=
    ActionCommand("copy", "Copy", Some("copy"), NoActive, NoDisabled, NoIconProps, CopySelection)

  const HighlightItem: Command :=
    ActionCommand("highlight", "Highlight", Some("highlight"), ActiveVariantIs(HighlightVariantKey),
      NoDisabled, HighlightToolColor, ToggleHighlight)

  const HighlightSelectionItem: Command :=
    ActionCommand("highlightSelection", "Highlight Selection", Some("highlight"), NoActive,
      NoDisabled, HighlightToolColor, HighlightSelection)

  const UndoItem: Command :=
    ActionCommand("undo", "Undo", Some("arrowBackUp"), NoActive, CannotUndo, NoIconProps, UndoLast)

  const RedoItem: Command :=
    ActionCommand("redo", "Redo", Some("arrowForwardUp"), NoActive, CannotRedo, NoIconProps, RedoLast)

  /** The command table, keyed by command id. */
  const MenuItems: map<string, Command> := map[
    "download" := DownloadItem,
    "zoom" := ZoomItem,
    "changeZoomLevel" := ChangeZoomLevelItem,
    "zoom50" := Zoom50Item,
    "zoom100" := Zoom100Item,
    "zoom150" := Zoom150Item,
    "zoom200" := Zoom200Item,
    "zoomIn" := ZoomInItem,
    "zoomOut" := ZoomOutItem,
    "search" := SearchItem,
    "sidebar" := SidebarItem,
    "nextPage" := NextPageItem,
    "previousPage" := PreviousPageItem,
    "copy" := CopyItem,
    "highlight" := HighlightItem,
    "highlightSelection" := HighlightSelectionItem,
    "undo" := UndoItem,
    "redo" := RedoItem
  ]

  /** The ids of the commands (the keys of `menuItems`). */
  const CommandIds: set<string> :=
    {"download", "zoom", "changeZoomLevel", "zoom50", "zoom100", "zoom150", "zoom200", "zoomIn",
     "zoomOut", "search", "sidebar", "nextPage", "previousPage", "copy", "highlight",
     "highlightSelection", "undo", "redo"}

  // ---------------------------------------------------------------------------
  // Derivations from state
  // ---------------------------------------------------------------------------

  /** The panel slice named by a panel id (only the two panels exist). */
  function PanelOf(s: State, panelId: string): Option<Panel>
  {
    if panelId == "leftPanel" then Some(s.leftPanel)
    else if panelId == "rightPanel" then Some(s.rightPanel)
    else None
  }

  /** `isActive(command, state)`: the command's `active`, or false when it has none. */
  function IsActive(c: Command, s: State): bool
  {
    match c.active
    case NoActive => false
    case ActiveCommandIs(m) => s.commandMenu.activeCommand == Some(m)
    case ZoomLevelIs(l) => s.zoomLevel == l
    case PanelShows(p, child) =>
      PanelOf(s, p).Some? && PanelOf(s, p).value.open && PanelOf(s, p).value.visibleChild == Some(child)
    case ActiveVariantIs(k) => s.activeVariant == Some(k)
  }

  /** `isDisabled(command, state)`: the command's `disabled`, or false when it has none. */
  function IsDisabled(c: Command, s: State): bool
  {
    match c.disabled
    case NoDisabled => false
    case CannotUndo => !s.canUndo
    case CannotRedo => !s.canRedo
  }

  /** `getIconProps(command, state)`: the command's `iconProps`, or undefined when it has none. */
  function IconPropsOf(c: Command, s: State): Value
  {
    match c.iconProps
    case NoIconProps => Undefined
    case HighlightToolColor => Obj(NoProps.With(PrimaryColor, Str(s.highlightColor)))
  }

  // ---------------------------------------------------------------------------
  // Actions
  // ---------------------------------------------------------------------------

  /** The continuation highlightSelection registers for each formatted range, in order. */
  function AwaitEach(sels: seq<FormattedSelection>): (r: seq<Request>)
    ensures |r| == |sels|
  {
    if sels == [] then [] else [AwaitSelectedText(sels[0])] + AwaitEach(sels[1..])
  }

  /** The requests `action` issues with one provider `p`: `reqs` if `p` is loaded, else none. */
  function IfProvided(r: PluginRegistry, p: PluginId, reqs: seq<Request>): seq<Request>
  {
    if Provides(r, p).Some? then reqs else []
  }

  /**
   * Invoking a command: the requests its action issues, in order. `formatted` is what the
   * selection plugin's `getFormattedSelection()` returns; only highlightSelection reads it.
   */
  function Invoke(c: Command, r: PluginRegistry, s: State, formatted: seq<FormattedSelection>): seq<Request>
  {
    match c.action
    case NoAction => []
    case DownloadDocument => IfProvided(r, ExportPlugin, [Download])
    case ZoomTo(l) => IfProvided(r, ZoomPlugin, [RequestZoom(l)])
    case StepZoomIn => IfProvided(r, ZoomPlugin, [ZoomIn])
    case StepZoomOut => IfProvided(r, ZoomPlugin, [ZoomOut])
    case ToggleRightPanel(child) => IfProvided(r, UiPlugin, [TogglePanel("rightPanel", child, None)])
    case ToggleSidebar =>
      var open := if s.leftPanel.open == true && s.leftPanel.visibleChild == Some("leftPanelMain")
                  then false else true;
      IfProvided(r, UiPlugin, [TogglePanel("leftPanel", "leftPanelMain", Some(open))])
    case GoToNextPage => IfProvided(r, ScrollPlugin, [ScrollToNextPage])
    case GoToPreviousPage => IfProvided(r, ScrollPlugin, [ScrollToPreviousPage])
    case CopySelection => IfProvided(r, SelectionPlugin, [CopyToClipboard])
    case ToggleHighlight =>
      var variant := if s.activeVariant == Some(HighlightVariantKey) then None else Some(HighlightVariantKey);
      IfProvided(r, AnnotationPlugin, [SetActiveVariant(variant)])
    case HighlightSelection =>
      if Provides(r, SelectionPlugin).None? || Provides(r, AnnotationPlugin).None? then []
      else [GetHighlightToolDefaults, GetFormattedSelection, GetSelectedText] + AwaitEach(formatted)
    case UndoLast => IfProvided(r, HistoryPlugin, [Undo])
    case RedoLast => IfProvided(r, HistoryPlugin, [Redo])
  }

  /**
   * The `for (const sel of formattedSelection)` loop of highlightSelection: one continuation
   * registered per formatted range, in order.
   */
  method RegisterContinuations(formatted: seq<FormattedSelection>) returns (reqs: seq<Request>)
    ensures |reqs| == |formatted|
    ensures forall i :: 0 <= i < |formatted| ==> reqs[i] == AwaitSelectedText(formatted[i])
    ensures reqs == AwaitEach(formatted)
  {
    reqs := [];
    for i := 0 to |formatted|
      invariant |reqs| == i
      invariant forall j :: 0 <= j < i ==> reqs[j] == AwaitSelectedText(formatted[j])
    {
      reqs := reqs + [AwaitSelectedText(formatted[i])];
    }
    AwaitEachUnique(formatted, reqs);
  }

  /** Continuation `i` is the one for range `i`. */
  lemma {:induction false} AwaitEachAt(sels: seq<FormattedSelection>)
    ensures forall i :: 0 <= i < |sels| ==> AwaitEach(sels)[i] == AwaitSelectedText(sels[i])
  {
    if sels != [] {
      AwaitEachAt(sels[1..]);
      forall i | 0 <= i < |sels| ensures AwaitEach(sels)[i] == AwaitSelectedText(sels[i]) {
        if i > 0 { assert sels[1..][i - 1] == sels[i]; }
      }
    }
  }

  /** A request list with one continuation per range, in order, is `AwaitEach`. */
  lemma AwaitEachUnique(sels: seq<FormattedSelection>, reqs: seq<Request>)
    requires |reqs| == |sels|
    requires forall i :: 0 <= i < |sels| ==> reqs[i] == AwaitSelectedText(sels[i])
    ensures reqs == AwaitEach(sels)
  {
    AwaitEachAt(sels);
  }
}

/** What the command registry promises, stated over the table and its interpretation. */
module CommandProperties {
  import opened Wrappers
  import opened Store
  import opened Commands

  /** The four zoom presets, children of the `changeZoomLevel` menu. */
  const ZoomPresets: seq<string> := ["zoom50", "zoom100", "zoom150", "zoom200"]

  /**
   * The providers each action looks up, read off the action bodies independently of
   * `Invoke`: one plugin each, and both selection and annotation for highlightSelection.
   */
  function ActionPlugins(a: ActionRule): set<PluginId>
  {
    match a
    case NoAction => {}
    case DownloadDocument => {ExportPlugin}
    case ZoomTo(_) => {ZoomPlugin}
    case StepZoomIn => {ZoomPlugin}
    case StepZoomOut => {ZoomPlugin}
    case ToggleRightPanel(_) => {UiPlugin}
    case ToggleSidebar => {UiPlugin}
    case GoToNextPage => {ScrollPlugin}
    case GoToPreviousPage => {ScrollPlugin}
    case CopySelection => {SelectionPlugin}
    case ToggleHighlight => {AnnotationPlugin}
    case HighlightSelection => {SelectionPlugin, AnnotationPlugin}
    case UndoLast => {HistoryPlugin}
    case RedoLast => {HistoryPlugin}
  }

  /**
   * The effect this model takes the UI and annotation plugins to give the two requests whose
   * effect the toggle properties speak about; `None` for every request whose effect belongs
   * to a plugin outside the model. A panel toggle with an explicit `open` sets the panel to
   * that flag and child; one without closes the panel when it is open on that very child and
   * otherwise opens it on that child.
   */
  function Apply(s: State, q: Request): Option<State>
  {
    match q
    case SetActiveVariant(v) => Some(s.(activeVariant := v))
    case TogglePanel(p, child, open) =>
      if p == "leftPanel" then Some(s.(leftPanel := Toggled(s.leftPanel, child, open)))
      else if p == "rightPanel" then Some(s.(rightPanel := Toggled(s.rightPanel, child, open)))
      else None
    case _ => None
  }

  function Toggled(p: Panel, child: string, open: Option<bool>): Panel
  {
    match open
    case Some(o) => Panel(o, Some(child))
    case None =>
      if p.open && p.visibleChild == Some(child) then Panel(false, p.visibleChild)
      else Panel(true, Some(child))
  }

  /** Every command is stored under its own id, and the ids are exactly `CommandIds`. */
  lemma MenuItemsKeyedById(id: string)
    ensures id in MenuItems <==> id in CommandIds
    ensures id in MenuItems ==> MenuItems[id].id == id
  {
  }

  /** The header buttons' commands are held in the table under their own ids. */
  lemma ButtonItemsStored()
    ensures DownloadItem.id in MenuItems && MenuItems[DownloadItem.id] == DownloadItem
    ensures UndoItem.id in MenuItems && MenuItems[UndoItem.id] == UndoItem
    ensures RedoItem.id in MenuItems && MenuItems[RedoItem.id] == RedoItem
    ensures CopyItem.id in MenuItems && MenuItems[CopyItem.id] == CopyItem
  {
  }

  /** The remaining button commands are held in the table under their own ids. */
  lemma MenuButtonItemsStored()
    ensures HighlightItem.id in MenuItems && MenuItems[HighlightItem.id] == HighlightItem
    ensures HighlightSelectionItem.id in MenuItems && MenuItems[HighlightSelectionItem.id] == HighlightSelectionItem
    ensures SearchItem.id in MenuItems && MenuItems[SearchItem.id] == SearchItem
    ensures SidebarItem.id in MenuItems && MenuItems[SidebarItem.id] == SidebarItem
  {
  }

  /** The zoom commands are held in the table under their own ids. */
  lemma ZoomItemsStored()
    ensures ZoomItem.id in MenuItems && MenuItems[ZoomItem.id] == ZoomItem
    ensures ChangeZoomLevelItem.id in MenuItems && MenuItems[ChangeZoomLevelItem.id] == ChangeZoomLevelItem
    ensures Zoom50Item.id in MenuItems && MenuItems[Zoom50Item.id] == Zoom50Item
    ensures Zoom100Item.id in MenuItems && MenuItems[Zoom100Item.id] == Zoom100Item
    ensures Zoom150Item.id in MenuItems && MenuItems[Zoom150Item.id] == Zoom150Item
    ensures Zoom200Item.id in MenuItems && MenuItems[Zoom200Item.id] == Zoom200Item
    ensures ZoomInItem.id in MenuItems && MenuItems[ZoomInItem.id] == ZoomInItem
    ensures ZoomOutItem.id in MenuItems && MenuItems[ZoomOutItem.id] == ZoomOutItem
  {
  }

  /**
   * Menus list only existing command ids as children and have no action; actions have an
   * action and no children.
   */
  lemma MenuChildrenResolve(id: string)
    requires id in MenuItems
    ensures MenuItems[id].kind == Menu ==>
              |MenuItems[id].children| > 0 && MenuItems[id].action == NoAction &&
              forall child :: child in MenuItems[id].children ==> child in MenuItems
    ensures MenuItems[id].kind == Action ==> MenuItems[id].children == [] && MenuItems[id].action != NoAction
  {
  }

  /** Each menu is active exactly when the command menu's active command is its own id. */
  lemma MenuActiveIffActiveCommand(id: string, s: State)
    requires id in MenuItems && MenuItems[id].kind == Menu
    ensures IsActive(MenuItems[id], s) <==> s.commandMenu.activeCommand == Some(id)
  {
  }

  /** At most one zoom preset is active, whatever the zoom level. */
  lemma AtMostOneZoomPresetActive(s: State, a: string, b: string)
    requires a in ZoomPresets && b in ZoomPresets
    requires IsActive(MenuItems[a], s) && IsActive(MenuItems[b], s)
    ensures a == b
  {
  }

  /**
   * With the zoom capability loaded, a preset issues exactly one zoom request; the level it
   * requests is exactly the one its own `active` test checks for, so once that level is the
   * current one the preset is active and no other preset is.
   */
  lemma ZoomPresetRequestsOwnLevel(id: string, r: PluginRegistry, s: State, f: seq<FormattedSelection>)
    requires id in ZoomPresets && ZoomPlugin in r.loaded
    ensures |Invoke(MenuItems[id], r, s, f)| == 1
    ensures Invoke(MenuItems[id], r, s, f)[0].RequestZoom?
    ensures IsActive(MenuItems[id], s) <==> s.zoomLevel == Invoke(MenuItems[id], r, s, f)[0].level
    ensures forall other :: other in ZoomPresets ==>
              (IsActive(MenuItems[other], s.(zoomLevel := Invoke(MenuItems[id], r, s, f)[0].level)) <==> other == id)
  {
    ZoomItemsStored();
  }

  /**
   * With the UI capability loaded, `sidebar` toggles the left panel on `leftPanelMain`, and the
   * `open` flag it requests is the negation of its own `active` flag in the same state.
   */
  lemma SidebarRequestsNegatedActive(r: PluginRegistry, s: State, f: seq<FormattedSelection>)
    requires UiPlugin in r.loaded
    ensures Invoke(MenuItems["sidebar"], r, s, f)
         == [TogglePanel("leftPanel", "leftPanelMain", Some(!IsActive(MenuItems["sidebar"], s)))]
    ensures (!IsActive(MenuItems["sidebar"], s)) <==> !(s.leftPanel.open && s.leftPanel.visibleChild == Some("leftPanelMain"))
  {
  }

  /** Once the sidebar's request takes effect, its `active` flag has flipped. */
  lemma SidebarFlipsActive(r: PluginRegistry, s: State, f: seq<FormattedSelection>)
    requires UiPlugin in r.loaded
    ensures Apply(s, Invoke(MenuItems["sidebar"], r, s, f)[0]).Some?
    ensures IsActive(MenuItems["sidebar"], Apply(s, Invoke(MenuItems["sidebar"], r, s, f)[0]).value)
         == !IsActive(MenuItems["sidebar"], s)
  {
  }

  /**
   * A closed left panel opens on `leftPanelMain` when `sidebar` is invoked, and closes again
   * when it is invoked a second time.
   */
  lemma SidebarOpenThenClose(r: PluginRegistry, s: State, f: seq<FormattedSelection>)
    requires UiPlugin in r.loaded && !s.leftPanel.open
    ensures var s1 := Apply(s, Invoke(MenuItems["sidebar"], r, s, f)[0]).value;
            s1.leftPanel == Panel(true, Some("leftPanelMain")) &&
            !Apply(s1, Invoke(MenuItems["sidebar"], r, s1, f)[0]).value.leftPanel.open
  {
  }

  /** Once the `search` toggle takes effect, the `search` command's active flag has flipped. */
  lemma SearchFlipsActive(r: PluginRegistry, s: State, f: seq<FormattedSelection>)
    requires UiPlugin in r.loaded
    ensures Invoke(MenuItems["search"], r, s, f) == [TogglePanel("rightPanel", "search", None)]
    ensures IsActive(MenuItems["search"], Apply(s, Invoke(MenuItems["search"], r, s, f)[0]).value)
         == !IsActive(MenuItems["search"], s)
  {
  }

  /**
   * With the annotation capability loaded, `highlight` clears the active variant when it is
   * already the highlight key and sets it to that key otherwise; `highlight` is active exactly
   * when the variant is that key, so once the request takes effect the active flag has flipped.
   */
  lemma HighlightFlipsActive(r: PluginRegistry, s: State, f: seq<FormattedSelection>)
    requires AnnotationPlugin in r.loaded
    ensures IsActive(MenuItems["highlight"], s) <==> s.activeVariant == Some(HighlightVariantKey)
    ensures Invoke(MenuItems["highlight"], r, s, f)
         == [SetActiveVariant(if IsActive(MenuItems["highlight"], s) then None else Some(HighlightVariantKey))]
    ensures IsActive(MenuItems["highlight"], Apply(s, Invoke(MenuItems["highlight"], r, s, f)[0]).value)
         == !IsActive(MenuItems["highlight"], s)
  {
  }

  /** `undo` is disabled exactly when nothing can be undone, `redo` when nothing can be redone; no other command is ever disabled. */
  lemma UndoRedoDisabled(id: string, s: State)
    requires id in MenuItems
    ensures IsDisabled(MenuItems["undo"], s) <==> !s.canUndo
    ensures IsDisabled(MenuItems["redo"], s) <==> !s.canRedo
    ensures id != "undo" && id != "redo" ==> !IsDisabled(MenuItems[id], s)
  {
  }

  /**
   * A command issues requests exactly when it is an action and every provider its action looks
   * up is loaded: menus never issue anything, and an action whose provider is absent is a
   * silent no-op. Every action except highlightSelection issues at most one request.
   */
  lemma InvokeIssuesIffProvided(id: string, r: PluginRegistry, s: State, f: seq<FormattedSelection>)
    requires id in MenuItems
    ensures Invoke(MenuItems[id], r, s, f) != []
        <==> MenuItems[id].kind == Action && ActionPlugins(MenuItems[id].action) <= r.loaded
    ensures id != "highlightSelection" ==> |Invoke(MenuItems[id], r, s, f)| <= 1
  {
  }

  /**
   * highlightSelection returns early, issuing nothing, unless both the selection and the
   * annotation providers are loaded.
   */
  lemma HighlightSelectionGuard(r: PluginRegistry, s: State, f: seq<FormattedSelection>)
    ensures SelectionPlugin !in r.loaded || AnnotationPlugin !in r.loaded ==>
              Invoke(MenuItems["highlightSelection"], r, s, f) == []
  {
    MenuButtonItemsStored();
  }

  /**
   * With both providers loaded, highlightSelection reads the highlight defaults, the formatted
   * selection and the selected text, then registers one continuation per formatted range.
   */
  lemma HighlightSelectionRequests(r: PluginRegistry, s: State, f: seq<FormattedSelection>)
    requires SelectionPlugin in r.loaded && AnnotationPlugin in r.loaded
    ensures var q := Invoke(MenuItems["highlightSelection"], r, s, f);
            |q| == 3 + |f| && q[..3] == [GetHighlightToolDefaults, GetFormattedSelection, GetSelectedText] &&
            forall i :: 0 <= i < |f| ==> q[3 + i] == AwaitSelectedText(f[i])
  {
    MenuButtonItemsStored();
    var head := [GetHighlightToolDefaults, GetFormattedSelection, GetSelectedText];
    var q := head + AwaitEach(f);
    assert Invoke(MenuItems["highlightSelection"], r, s, f) == q;
    assert q[..3] == head;
    AwaitEachAt(f);
    forall i | 0 <= i < |f| ensures q[3 + i] == AwaitSelectedText(f[i]) {
      assert q[3 + i] == AwaitEach(f)[i];
    }
  }
}
