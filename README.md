# PDF container web component: command and component registries

This project models the core of the `pdf-container` web component in Dafny. The component is a
custom HTML element that embeds a PDF viewer. It is built from two declarative tables, and
a small bridge registers the element with the browser.

- **Command registry** (`menuItems`, module `Commands`). There are 18 commands, keyed by id. Each
  command is an *action* or a *menu* (the menus are `zoom` and `changeZoomLevel`).
  - A command says, from the viewer's store state, whether it is active, whether it is
    disabled and which icon props it has.
  - A command's action looks up an optional plugin capability and issues requests on it. An
    action whose plugin is not loaded does nothing.
  - Each field of the table is a tagged rule (`ActiveRule`, `DisabledRule`, `IconRule`,
    `ActionRule`). The functions `IsActive`, `IsDisabled`, `IconPropsOf` and `Invoke`
    interpret these rules. This lets the lemmas check the table's own literals against each
    other.
  - An action is modelled as the sequence of requests it issues, in order
    (`Commands.Request`).
  - The loop in `highlightSelection` is a method, `Commands.RegisterContinuations`, proved
    against the function `Commands.AwaitEach`.
- **Component registry** (`components`, module `ComponentRegistry`). There are 24 UI
  components. Each has a kind, slots, props or an initial state, and, for most of them, a
  `mapStateToProps` projection.
  - A props object is `Store.Props`: the property assignments that built it, most recent
    first. An assignment shadows every earlier one of the same key. `{ ...own, a: x }` is
    `own.With(a, x)`, and `Props.SpreadOf(own, keys)` states "spread `own`, then set
    `keys`".
  - Prop names are the 39 keys the registry uses (`Store.Key`, with `Store.KeyName` giving
    their spelling).
  - `getChildContext` is `ChildContext`.
  - The registry's cross-references are stated as predicates: slot ids, the command ids in
    props, and menu children. The lemmas prove which of these references resolve.
  - Two references in the shipped tables do not resolve:
    - `leftPanel` has a slot naming `leftPanelAnnotationStyle`, which is not a registered
      component.
    - `leftPanelMain` has `tabsCommandId: ''`, which names no command.
- **Element bridge** (module `Element`).
  - `definePDFContainer` registers the `pdf-container` class in a model of
    `window.customElements`. It does so only when a registry exists and the name is still
    free.
  - `PDFContainerElement` is a class. It attaches its shadow root once, in its constructor.
    Each connection renders into that root, using the `url` attribute or the default
    document.

The store's state is `Store.State`. It holds only the slices the two tables read:
- the left and right panels;
- the command menu;
- the left panel's main child;
- the zoom level, the current page, the document's page count and the scale;
- whether the viewer is scrolling;
- the annotation plugin's active variant and the highlight tool's colour;
- the history flags;
- the selection flags;
- the search slice.

Prop values are `Store.Value`, a model of the JavaScript values that occur.

## Model

| member | source | states |
|---|---|---|
| Store.Props.With | web-component/pdf-container-preact.tsx:443-446 | Assigning `v` to `k` defines `k` with value `v`, keeps every existing property, adds no other key, and leaves every other key's value as it was. |
| Store.AbsentReadsUndefined | web-component/pdf-container-preact.tsx:443-446 | Reading a property that was never assigned gives `undefined`. |
| Store.NullableStr | web-component/pdf-container-preact.tsx:709-713 | A `string \| null` slot becomes `null` exactly when it is absent, and the string otherwise. |
| Store.DocumentPageCount | web-component/pdf-container-preact.tsx:614 | The page count is the document's `pageCount`, and 1 when there is no document or it reports none. |
| Commands.Provides | web-component/pdf-container-preact.tsx:146 | `getPlugin(id)?.provides()` yields a capability exactly when that plugin is loaded, and the capability is that plugin's. |
| Commands.MenuItems | web-component/pdf-container-preact.tsx:139-431 | The command table, one entry per command, each field a tagged rule. No contract; its properties are in `CommandProperties`. |
| Commands.IsActive | web-component/pdf-container-preact.tsx:158-355 | `isActive`: the command's `active` rule evaluated in the state, false when it has none. No contract; its properties are in `CommandProperties`. |
| Commands.IsDisabled | web-component/pdf-container-preact.tsx:410-429 | `isDisabled`: the command's `disabled` rule evaluated in the state, false when it has none. No contract; its properties are in `CommandProperties.UndoRedoDisabled`. |
| Commands.IconPropsOf | web-component/pdf-container-preact.tsx:335-367 | `getIconProps`: the highlight tool's colour as `primaryColor` for the two highlight commands, `undefined` otherwise. No contract; its properties are in `ComponentProperties.HighlightButtonsIconProps`. |
| Commands.Invoke | web-component/pdf-container-preact.tsx:139-431 | The requests each `action` issues, in order. No contract; its properties are in `CommandProperties`. |
| Commands.AwaitEach | web-component/pdf-container-preact.tsx:377-395 | One continuation per formatted range: the result has as many requests as there are ranges. |
| Commands.AwaitEachAt | web-component/pdf-container-preact.tsx:377-395 | Request `i` of `AwaitEach` is the continuation for range `i`. |
| Commands.AwaitEachUnique | web-component/pdf-container-preact.tsx:377-395 | Any request list with one continuation per range, in range order, is `AwaitEach`. |
| Commands.RegisterContinuations | web-component/pdf-container-preact.tsx:377-395 | The `for (const sel of formattedSelection)` loop registers, in order, exactly one continuation per range, so the requests equal `AwaitEach(formatted)`. |
| CommandProperties.MenuItemsKeyedById | web-component/pdf-container-preact.tsx:139-431 | The table's keys are exactly the 18 command ids, and every command is stored under its own id. |
| CommandProperties.MenuChildrenResolve | web-component/pdf-container-preact.tsx:152-172 | A menu has a non-empty list of children, every child is a registered command, and a menu has no action. An action has an action and no children. |
| CommandProperties.MenuActiveIffActiveCommand | web-component/pdf-container-preact.tsx:156-172 | A menu is active if and only if the command menu's active command is that menu's own id. |
| CommandProperties.AtMostOneZoomPresetActive | web-component/pdf-container-preact.tsx:174-225 | At most one of the four zoom presets is active in any state. |
| CommandProperties.ZoomPresetRequestsOwnLevel | web-component/pdf-container-preact.tsx:174-225 | When the zoom plugin is loaded, a preset issues one `requestZoom`. The level it requests is the level its own `active` test checks. At that level this preset is active and no other preset is. |
| CommandProperties.SidebarRequestsNegatedActive | web-component/pdf-container-preact.tsx:268-290 | `sidebar` toggles `leftPanel` to `leftPanelMain`, and the `open` flag it requests is the negation of its own `active` flag. |
| CommandProperties.SidebarFlipsActive | web-component/pdf-container-preact.tsx:268-290 | Once the sidebar's request takes effect, `sidebar` has flipped from active to inactive or back. |
| CommandProperties.SidebarOpenThenClose | web-component/pdf-container-preact.tsx:268-290 | From a closed left panel, one invocation opens it on `leftPanelMain` and a second closes it. |
| CommandProperties.SearchFlipsActive | web-component/pdf-container-preact.tsx:252-267 | `search` toggles the right panel to `search` with no explicit flag. Once that takes effect, `search` has flipped from active to inactive or back. |
| CommandProperties.HighlightFlipsActive | web-component/pdf-container-preact.tsx:330-356 | `highlight` is active exactly when the active variant is the highlight key. It clears the variant when it is that key and sets it to that key otherwise, so its `active` flag flips. |
| CommandProperties.UndoRedoDisabled | web-component/pdf-container-preact.tsx:399-430 | `undo` is disabled exactly when nothing can be undone, and `redo` exactly when nothing can be redone. No other command is ever disabled. |
| CommandProperties.InvokeIssuesIffProvided | web-component/pdf-container-preact.tsx:139-431 | A command issues requests if and only if it is an action and every plugin its action looks up is loaded. Every action except `highlightSelection` issues at most one request. |
| CommandProperties.HighlightSelectionGuard | web-component/pdf-container-preact.tsx:368-371 | Without the selection or the annotation plugin, `highlightSelection` issues nothing. |
| CommandProperties.HighlightSelectionRequests | web-component/pdf-container-preact.tsx:368-396 | With both plugins, `highlightSelection` reads the tool defaults, the formatted selection and the selected text, then waits once per formatted range, in order. |
| ComponentRegistry.TypeName | web-component/pdf-container-preact.tsx:434-810 | The `type` string each component type is written as. No contract. |
| ComponentRegistry.TypeOf | web-component/pdf-container-preact.tsx:434-810 | Each descriptor's `type`. No contract; the button lemmas select the icon buttons by it. |
| ComponentRegistry.Render | web-component/pdf-container-preact.tsx:600-772 | Each descriptor's `render` key, where it names one. No contract. |
| ComponentRegistry.Descriptor | web-component/pdf-container-preact.tsx:434-810 | Each descriptor's `id`, `type`, `render` and `slots`. No contract; `ComponentProperties.NamesRegistered` states that its id is its key. |
| ComponentRegistry.Slots | web-component/pdf-container-preact.tsx:554-810 | Each container's `slots`, in declared order. No contract; its properties are in `ComponentProperties`. |
| ComponentRegistry.StateObject | web-component/pdf-container-preact.tsx:601-800 | A component's `initialState` as a props object. No contract; its properties are in `ComponentProperties.PropsCarryState`. |
| ComponentRegistry.PropsFromState | web-component/pdf-container-preact.tsx:605-800 | `props(initialState)` for the components that declare an initial state. No contract; its properties are in `ComponentProperties.PropsCarryState`. |
| ComponentRegistry.InitialStateOf | web-component/pdf-container-preact.tsx:601-800 | The declared `initialState`, where there is one. No contract; its properties are in `ComponentProperties.PropsCarryState`. |
| ComponentRegistry.OwnProps | web-component/pdf-container-preact.tsx:434-810 | Each component's own props: the static `props`, or `props(initialState)`. No contract; its properties are in `ComponentProperties`. |
| ComponentRegistry.MapStateToProps | web-component/pdf-container-preact.tsx:434-810 | Each `mapStateToProps`, or none for the plain containers. No contract; its properties are in `ComponentProperties`. |
| ComponentRegistry.ChildContext | web-component/pdf-container-preact.tsx:654-669 | Each `getChildContext`. No contract; its properties are in `ComponentProperties.TopHeaderDirection` and `TextSelectionMenuProjection`. |
| ComponentRegistry.RegistryIntegrity | web-component/pdf-container-preact.tsx:434-810 | Whole-registry integrity: menu children, command references and slot references all resolve. No contract; `ComponentProperties.ShippedRegistryFailsIntegrity` shows it fails. |
| ComponentProperties.NamesRegistered | web-component/pdf-container-preact.tsx:434-810 | The components are registered under 24 distinct names, and every descriptor carries the name it is registered under. |
| ComponentProperties.TableKeysAreNames | web-component/pdf-container-preact.tsx:434-810 | Every key of the table is the name of some registered component, so a slot id that is a key names a component. |
| ComponentProperties.ProjectedUnlessContainer | web-component/pdf-container-preact.tsx:554-670 | Exactly the six plain containers have no `mapStateToProps`. |
| ComponentProperties.SpreadThenOverride | web-component/pdf-container-preact.tsx:443-446 | Every projection keeps all own props, defines the keys its source lists, adds no other key, and leaves every other key's value as in the own props. |
| ComponentProperties.SpreadOverButtons | web-component/pdf-container-preact.tsx:435-499 | The download, undo, redo, copy and highlight buttons spread their own props and set only their `active`, `disabled` or `iconProps`. |
| ComponentProperties.SpreadOverMenuButtons | web-component/pdf-container-preact.tsx:502-809 | The highlight-selection, search, zoom and sidebar buttons, the zoom control and the right panel spread their own props and set only the keys they list. |
| ComponentProperties.SpreadOverPanels | web-component/pdf-container-preact.tsx:611-727 | The page controls, the selection menu, `leftPanelMain`, `leftPanel` and the thumbnails spread their own props and set only the keys they list. |
| ComponentProperties.SpreadOverCommandMenu | web-component/pdf-container-preact.tsx:760-767 | `commandMenu` spreads its own props and sets only the five keys of its slice. |
| ComponentProperties.SearchKeepsOwnProps | web-component/pdf-container-preact.tsx:732-741 | The search view keeps every own property, and the value of every key it does not list. |
| ComponentProperties.SearchAddsResultKeys | web-component/pdf-container-preact.tsx:734-737 | The search view defines `flags`, `results`, `total` and `activeResultIndex`. |
| ComponentProperties.SearchAddsQueryKeys | web-component/pdf-container-preact.tsx:738-740 | The search view defines `active`, `query` and `loading`. |
| ComponentProperties.SearchAddsNothingElse | web-component/pdf-container-preact.tsx:732-741 | The search view defines no property beyond its own props and the seven keys it lists. |
| ComponentProperties.ButtonCommandRegistered | web-component/pdf-container-preact.tsx:435-553 | Each icon button except `zoomButton` has the id of its command as its `commandId` prop. |
| ComponentProperties.ButtonProjection | web-component/pdf-container-preact.tsx:435-553 | Each such button's projected `active`, `disabled` and `iconProps` are computed from its command and the state. |
| ComponentProperties.IconButtonsTrackTheirCommand | web-component/pdf-container-preact.tsx:435-553 | Every icon button except `zoomButton` names a registered command in `commandId`. Its projected `active`, `disabled` and `iconProps` are that command's. |
| ComponentProperties.HighlightButtonsIconProps | web-component/pdf-container-preact.tsx:335-367 | `highlightButton` and `highlightSelectionButton` project as `iconProps` an object whose only property is `primaryColor`, the highlight tool's default colour. |
| ComponentProperties.UndoRedoButtonsDisabled | web-component/pdf-container-preact.tsx:448-473 | `undoButton` is disabled exactly when nothing can be undone, and `redoButton` exactly when nothing can be redone. |
| ComponentProperties.DownloadAndCopyNeverActive | web-component/pdf-container-preact.tsx:435-486 | `downloadButton` and `copyButton` are never active, because their commands define no `active`. |
| ComponentProperties.ZoomMenuActiveProps | web-component/pdf-container-preact.tsx:535-539 | `zoomButton.active` and `zoom.zoomMenuActive` hold exactly when the active command is `zoom` or `changeZoomLevel`. `zoom.zoomLevel` is the store's zoom level. |
| ComponentProperties.PanelProjection | web-component/pdf-container-preact.tsx:709-713 | `leftPanel` and `rightPanel` override only `open` and `visibleChild`, which come from their panel slice. |
| ComponentProperties.PageControlsProjection | web-component/pdf-container-preact.tsx:611-615 | `pageControls` overrides only `currentPage` and `pageCount`. The page count falls back to 1. |
| ComponentProperties.ViewProjections | web-component/pdf-container-preact.tsx:689-726 | `leftPanelMain` shows the store's visible child, and `thumbnails` the current page. |
| ComponentProperties.SearchViewProjection | web-component/pdf-container-preact.tsx:732-741 | The search view copies the seven fields of the search slice, its counts as numbers. |
| ComponentProperties.CommandMenuProjection | web-component/pdf-container-preact.tsx:760-767 | `commandMenu` copies the command menu slice. A missing position reads as `undefined`. |
| ComponentProperties.TopHeaderDirection | web-component/pdf-container-preact.tsx:666-669 | `topHeader` gives its children `horizontal` if and only if the placement is `top` or `bottom`, and `vertical` otherwise. Its own placement yields `horizontal`. |
| ComponentProperties.TextSelectionMenuProjection | web-component/pdf-container-preact.tsx:645-656 | `textSelectionMenu` always gives `horizontal`. It is open exactly when a selection is active and no longer being made. Its `isScrolling` is the viewport's scrolling flag and its `scale` the document's scale. |
| ComponentProperties.PropsCarryState | web-component/pdf-container-preact.tsx:605-608 | `props(initialState)` carries every field of any initial state over unchanged. |
| ComponentProperties.SlotsDistinct | web-component/pdf-container-preact.tsx:554-592 | Within every container, the slots name distinct components and have distinct priorities. |
| ComponentProperties.MenuChildrenAreIntact | web-component/pdf-container-preact.tsx:152-172 | Every menu's children are registered commands. |
| ComponentProperties.ResolvedSlotsIntact | web-component/pdf-container-preact.tsx:554-810 | Every slot of every container names a registered component, except the second slot of `leftPanel`. |
| ComponentProperties.ResolvedRefsIntact | web-component/pdf-container-preact.tsx:434-810 | Every component except `leftPanelMain` has only registered command ids in its props. |
| ComponentProperties.ButtonRefsResolve | web-component/pdf-container-preact.tsx:435-499 | The download, undo, redo, copy and highlight buttons name only registered commands. |
| ComponentProperties.MenuButtonRefsResolve | web-component/pdf-container-preact.tsx:502-553 | The highlight-selection, search, zoom and sidebar buttons name only registered commands. |
| ComponentProperties.ControlRefsResolve | web-component/pdf-container-preact.tsx:605-782 | The page controls name the page commands, and the zoom control the zoom commands, all registered. |
| ComponentProperties.PanelRefsResolve | web-component/pdf-container-preact.tsx:697-810 | `leftPanel`, `commandMenu` and `rightPanel` name only registered commands. |
| ComponentProperties.ContainerRefsResolve | web-component/pdf-container-preact.tsx:554-640 | The plain containers name only registered commands. |
| ComponentProperties.ViewRefsResolve | web-component/pdf-container-preact.tsx:641-742 | The selection menu, the header, the thumbnails and the search view name only registered commands. |
| ComponentProperties.LeftPanelSlotUnresolved | web-component/pdf-container-preact.tsx:714-717 | `leftPanel`'s second slot names `leftPanelAnnotationStyle`, which is not a registered component. |
| ComponentProperties.TabsCommandIdUnresolved | web-component/pdf-container-preact.tsx:687 | `leftPanelMain`'s `tabsCommandId` is the empty string, which names no command. |
| ComponentProperties.ShippedRegistryFailsIntegrity | web-component/pdf-container-preact.tsx:716 | As shipped, the registry does not satisfy whole-registry integrity. |
| Element.DefinedAfter | web-component/pdf-container-element.tsx:8-32 | The registry after one `definePDFContainer` call. No contract; its properties are in the three lemmas below. |
| Element.DefineRegistersOnlyWhenAbsent | web-component/pdf-container-element.tsx:30-32 | `pdf-container` is registered with the new class exactly when a registry exists and the name is free. An existing definition is kept. No other name changes. When a registry exists, the tag is defined afterwards. |
| Element.DefineUnsupportedNoChange | web-component/pdf-container-element.tsx:8 | Without `window` or `window.customElements`, nothing is defined. |
| Element.DefineIdempotent | web-component/pdf-container-element.tsx:30-32 | Calling `definePDFContainer` twice leaves the registry as calling it once. The second class is never registered. |
| Element.CustomElementRegistry.constructor | web-component/pdf-container-element.tsx:30 | A registry starts with no definitions. |
| Element.CustomElementRegistry.Get | web-component/pdf-container-element.tsx:30 | `customElements.get` yields the class defined under a name if and only if the name is defined. |
| Element.CustomElementRegistry.Define | web-component/pdf-container-element.tsx:31 | Defining a taken name raises `NotSupportedError` and changes nothing. Defining a free name adds exactly that entry. |
| Element.DefinePDFContainer | web-component/pdf-container-element.tsx:7-34 | Never raises, and leaves the registry as `DefinedAfter` says. |
| Element.AsciiLower | web-component/pdf-container-element.tsx:23 | An attribute name in ASCII lower case: the same length, each `A`-`Z` lower-cased and every other character kept, with no upper-case letter left. |
| Element.AsciiLowerIdempotent | web-component/pdf-container-element.tsx:23 | Lower-casing a lower-cased name changes nothing. |
| Element.GetAttribute | web-component/pdf-container-element.tsx:23 | `getAttribute` finds the attribute exactly when its lower-cased name is stored, and returns that value. |
| Element.RenderedUrl | web-component/pdf-container-element.tsx:23 | The `url` attribute when it is present and non-empty. The default ebook URL otherwise. |
| Element.RenderedUrlNeverEmpty | web-component/pdf-container-element.tsx:23 | The rendered URL is never empty, and it is the attribute or the default. |
| Element.UrlAttributeAnyCase | web-component/pdf-container-element.tsx:23 | A non-empty value set under any spelling of `url` (`URL`, `Url`, ...) is the URL the element renders. |
| Element.ShadowRoot.constructor | web-component/pdf-container-element.tsx:15 | A fresh shadow root has nothing rendered into it. |
| Element.PDFContainerElement.constructor | web-component/pdf-container-element.tsx:13-16 | A fresh shadow root, with nothing rendered yet, is attached exactly once. |
| Element.PDFContainerElement.SetAttribute | web-component/pdf-container-element.tsx:10-28 | Setting an attribute stores it under its name in ASCII lower case. It renders nothing and leaves the shadow root as it was, because the class observes no attributes. |
| Element.PDFContainerElement.RenderContainer | web-component/pdf-container-element.tsx:22-27 | Appends exactly one render of the current URL to the shadow root. |
| Element.PDFContainerElement.ConnectedCallback | web-component/pdf-container-element.tsx:18-20 | Each connection renders once into the same root. The element itself is unchanged, so the root is still attached once. |
| Element.ConnectTwice | web-component/pdf-container-element.tsx:18-20 | Two connections with no attribute change in between render the same URL twice into one root. |

## Left out

- The body of `PDFContainerPreact` is not modelled. This covers plugin configuration, the
  engine and its loading, the CSS queries on `className`, and the renderer functions. Only
  the two tables it passes to the UI plugin are modelled.
- The UI library's slot resolver, its menu and panel state machines, and the store's
  subscription mechanism are not modelled. This code is not in this repository.
  - `CommandProperties.Apply` states the effect the model takes a panel toggle and
    `setActiveVariant` to have. It is an assumption about that library, not code of this
    repository.
- The asynchronous part of `highlightSelection` is modelled only as the requests it issues:
  one `AwaitSelectedText` per range.
  - How the text promise resolves, the annotation it creates and then selects (the `uuidV4` id, the
    `new Date()` timestamp, the tool's colour and opacity), are left out. They depend on
    randomness, the clock and an external promise.
- `changeZoomLevel`'s label is computed with `toFixed(0)`. It is the abstract label
  `ZoomLevelText`; floating-point formatting is not modelled.
- The value of `makeVariantKey(PdfAnnotationSubtype.HIGHLIGHT)` comes from an external
  library. It is the constant `Commands.HighlightVariantKey`; the properties only use the
  fact that `highlight` compares against the same key it sets.
- `getToolDefaultsBySubtypeAndIntent` is an external lookup. It is the store field
  `highlightColor`.
- `getIconProps` is an external helper. For a command that declares no `iconProps`, its
  result is taken to be `undefined`.
- The `zoomButton` image is a base64 SVG `data:` URL. Only its prefix is kept
  (`ZoomButtonImg`).
- Search flags and results, and the command menu's trigger element, are opaque values. They are copied,
  not interpreted.
- `renderContainer` passes `url={url}` to a component that reads a `config` prop. The model
  records the URL each render uses. It does not model what the viewer does with the prop.
- `Preact`'s `render` into the shadow root is modelled as appending one entry to
  `ShadowRoot.rendered`. The DOM it produces is not modelled.
- `Element.CustomElementRegistry.Define` models only the browser's "name already defined"
  error. The other errors `customElements.define` can raise cannot arise with this tag and
  one class per call.
- Attribute names are lower-cased in ASCII only, as an HTML element does. Names in other
  documents (XML, SVG) keep their case there; that case is not modelled.
- The initializer (`pdf-container-initializer.ts`), the React and Preact wrappers, the demo
  page and the icon set are outside the modelled core.
- Property order is not modelled. A props object records its assignments, and a later
  assignment shadows an earlier one; `Object.keys` order and enumeration are left out.
- Prop names are interned as the 39 keys the registry uses. An arbitrary string key is not
  modelled, so a prop the registry never names cannot be stated.
- The responsive `className` of two `headerStart` slots is dropped: a slot is its
  component id and priority only. The CSS container queries belong to rendering.
