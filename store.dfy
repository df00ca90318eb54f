/**
 * The shared store state read by the command and component registries, restricted to the
 * slices those registries read, and the dynamic value type of component props.
 */
module Store {
  import opened Wrappers

  /** A JavaScript value as it can appear in a component's props. */
  datatype Value =
    | Undefined
    | Null
    | Bool(b: bool)
    | Num(n: real)
    | Str(s: string)
    | List(items: seq<Value>)
    | Obj(fields: Props)
    | Element(handle: nat)   // an opaque reference to a DOM element

  /** A property name, interned: `KeyName` gives its spelling. */
  newtype Key = k: int | 0 <= k < 39

  const Active: Key := 0
  const Disabled: Key := 1
  const Label: Key := 2
  const CommandId: Key := 3
  const Color: Key := 4
  const Img: Key := 5
  const Gap: Key := 6
  const ScrollerPosition: Key := 7
  const Open: Key := 8
  const Placement: Key := 9
  const Style: Key := 10
  const CurrentPage: Key := 11
  const PageCount: Key := 12
  const NextPageCommandId: Key := 13
  const PreviousPageCommandId: Key := 14
  const VisibleChild: Key := 15
  const TabsCommandId: Key := 16
  const Location: Key := 17
  const ActiveCommand: Key := 18
  const TriggerElement: Key := 19
  const Position: Key := 20
  const Flatten: Key := 21
  const ZoomLevel: Key := 22
  const CommandZoomIn: Key := 23
  const CommandZoomOut: Key := 24
  const CommandZoomMenu: Key := 25
  const ZoomMenuActive: Key := 26
  const IconProps: Key := 27
  const IsScrolling: Key := 28
  const Scale: Key := 29
  const Flags: Key := 30
  const Results: Key := 31
  const Total: Key := 32
  const ActiveResultIndex: Key := 33
  const Query: Key := 34
  const Loading: Key := 35
  const Direction: Key := 36
  const BackgroundColor: Key := 37
  const PrimaryColor: Key := 38

  /** The spelling of each property name, indexed by its key. */
  const KeyNames: seq<string> :=
    ["active", "disabled", "label", "commandId", "color", "img", "gap", "scrollerPosition",
     "open", "placement", "style", "currentPage", "pageCount", "nextPageCommandId",
     "previousPageCommandId", "visibleChild", "tabsCommandId", "location", "activeCommand",
     "triggerElement", "position", "flatten", "zoomLevel", "commandZoomIn", "commandZoomOut",
     "commandZoomMenu", "zoomMenuActive", "iconProps", "isScrolling", "scale", "flags",
     "results", "total", "activeResultIndex", "query", "loading", "direction",
     "backgroundColor", "primaryColor"]

  /** The property name a key stands for. */
  function KeyName(k: Key): string
  {
    KeyNames[k]
  }

  /**
   * A plain object, as the assignments that built it, the most recent first: an assignment
   * shadows every earlier one of the same key. An object literal `{ a: x, b: y }` is
   * `NoProps.With(a, x).With(b, y)`, and `{ ...p, a: x }` is `p.With(a, x)`.
   */
  datatype Props = NoProps | Prop(key: Key, value: Value, rest: Props)
  {
    /** `k in obj`: whether `k` is an own property. */
    predicate Has(k: Key)
    {
      match this
      case NoProps => false
      case Prop(k', _, rest) => k' == k || rest.Has(k)
    }

    /** Property access: a property that is not defined reads as `undefined`. */
    function Get(k: Key): Value
    {
      match this
      case NoProps => Undefined
      case Prop(k', w, rest) => if k' == k then w else rest.Get(k)
    }

    /**
     * This object is `{ ...own, <keys>: ... }`: it keeps every property of `own`, adds the
     * keys `keys`, and every other key reads as in `own`.
     */
    predicate SpreadOf(own: Props, keys: set<Key>)
    {
      && (forall k :: Has(k) <==> own.Has(k) || k in keys)
      && (forall k :: k !in keys ==> Get(k) == own.Get(k))
    }

    /** The object after assigning `v` to property `k`. */
    function With(k: Key, v: Value): (r: Props)
      ensures r.Has(k) && r.Get(k) == v
      ensures forall k' :: Has(k') ==> r.Has(k')
      ensures forall k' :: r.Has(k') ==> k' == k || Has(k')
      ensures forall k' :: k' != k ==> r.Get(k') == Get(k')
    {
      Prop(k, v, this)
    }
  }

  /** A key that was never assigned reads as `undefined`. */
  lemma {:induction false} AbsentReadsUndefined(p: Props, k: Key)
    ensures !p.Has(k) ==> p.Get(k) == Undefined
  {
    match p
    case NoProps =>
    case Prop(_, _, rest) => AbsentReadsUndefined(rest, k);
  }

  /** `string | null` as a prop value. */
  function NullableStr(o: Option<string>): (v: Value)
    ensures v == Null <==> o == None
    ensures o.Some? ==> v == Str(o.value)
  {
    match o
    case None => Null
    case Some(x) => Str(x)
  }

  /** The `ui.panel.<id>` slice: whether the panel is open and which child it shows. */
  datatype Panel = Panel(open: bool, visibleChild: Option<string>)

  /** The `ui.commandMenu.commandMenu` slice. */
  datatype CommandMenu = CommandMenu(
    open: bool,
    activeCommand: Option<string>,
    triggerElement: Value,
    position: Option<string>,
    flatten: bool)

  /** The document loaded into the core, whose page count may be unknown. */
  datatype Document = Document(pageCount: Option<int>)

  /** The `search` plugin slice; its flags and results are opaque values here. */
  datatype Search = Search(
    flags: seq<Value>,
    results: seq<Value>,
    total: int,
    activeResultIndex: int,
    active: bool,
    query: string,
    loading: bool)

  /**
   * The store state, one field per slice (or per field of a slice) that the registries read.
   * `highlightColor` is the colour the annotation plugin reports as the default of its
   * highlight tool.
   */
  datatype State = State(
    leftPanel: Panel,
    rightPanel: Panel,
    commandMenu: CommandMenu,
    leftPanelMainChild: string,
    zoomLevel: real,
    currentPage: int,
    document: Option<Document>,
    scale: real,
    isScrolling: bool,
    activeVariant: Option<string>,
    highlightColor: string,
    canUndo: bool,
    canRedo: bool,
    selectionActive: bool,
    selecting: bool,
    search: Search)

  /** `(core.document as { pageCount?: number })?.pageCount ?? 1`. */
  function DocumentPageCount(s: State): (n: int)
    ensures s.document == None ==> n == 1
    ensures s.document.Some? && s.document.value.pageCount == None ==> n == 1
    ensures s.document.Some? && s.document.value.pageCount.Some? ==> n == s.document.value.pageCount.value
  {
    match s.document
    case None => 1
    case Some(d) => d.pageCount.GetOr(1)
  }
}
