/**
 * The interactive check of tui/tui.go: a three-state machine
 * Listing -> Checking -> Showing driven by `model.Update`, plus the label and
 * rule-length arithmetic of its views.
 *
 * Update is a pure transition: the old model and a message in, the new model
 * and the effects it asks for out. The goroutine that runs the probe, the wait
 * on the result channel and the commands of the bubbles widgets appear as
 * effect tags. The widgets themselves (list, viewport, spinner) are library
 * code; their updates are inputs here (`Widgets`), each returning only the part
 * of the widget it owns.
 */
module Tui {
  import opened Wrappers

  datatype State = Listing | Checking | Showing

  /** The messages Update distinguishes. */
  datatype Msg =
    | KeyMsg(key: string)                     // tea.KeyMsg, by its String()
    | WindowSizeMsg(width: int, height: int)  // tea.WindowSizeMsg
    | ResponseMsg(text: string)               // the probe's JSON text, read from the channel
    | SpinnerTickMsg(id: int)                 // spinner.TickMsg
    | OtherMsg(id: int)                       // any other message (mouse events, ...)

  /** The list widget: its items (the endpoints) and the index of the cursor. */
  datatype ListView = ListView(items: seq<string>, cursor: int)

  /** The viewport widget: geometry, scroll offset and content. */
  datatype Viewport = Viewport(
    width: int,
    height: int,
    yPosition: int,
    yOffset: int,
    content: string,
    highPerformanceRendering: bool)

  /** The spinner widget, reduced to the frame it shows. */
  datatype Spinner = Spinner(frame: int)

  /**
   * spinner.New() with the dot spinner, as Launch and resetSpinner build it.
   * The id bubbles gives every new spinner (so that a fresh spinner ignores the
   * old one's ticks) is not modelled: the spinner is its frame alone.
   */
  const NewSpinner: Spinner := Spinner(0)

  const UseHighPerformanceRenderer: bool := false

  datatype Model = Model(
    list: ListView,
    spinner: Spinner,
    choice: string,
    quitting: bool,
    state: State,
    viewport: Viewport,
    ready: bool)

  datatype Widget = ListWidget | ViewportWidget | SpinnerWidget

  /** What an Update asks the runtime to do. */
  datatype Effect =
    | Quit                              // tea.Quit
    | SpawnProbe(endpoint: string)      // go checkServer(endpoint, m.sub)
    | SpinnerTick                       // m.spinner.Tick
    | WaitForActivity                   // waitForActivity(m.sub)
    | WidgetCmd(widget: Widget, tag: int) // a command a widget's own Update returned

  /** The bubbles widget operations Update calls; a `None` command is Go's nil. */
  datatype Widgets = Widgets(
    listUpdate: (ListView, Msg) -> (int, Option<int>),     // list.Model.Update: new cursor, command
    viewportUpdate: (Viewport, Msg) -> (int, Option<int>), // viewport.Model.Update: new YOffset, command
    viewDown: Viewport -> int,                             // viewport.ViewDown: new YOffset
    viewUp: Viewport -> int,                               // viewport.ViewUp: new YOffset
    setContent: (Viewport, string) -> int,                 // viewport.SetContent: YOffset afterwards
    spinnerUpdate: (Spinner, Msg) -> (Spinner, Option<int>))

  /** The heights lipgloss measures for the rendered header and footer. */
  datatype Chrome = Chrome(headerHeight: int, footerHeight: int)

  predicate IsQuitKey(k: string)
  {
    k == "ctrl+c" || k == "q" || k == "esc"
  }

  predicate IsSelectKey(k: string)
  {
    k == "enter" || k == "right" || k == "l"
  }

  predicate IsDownKey(k: string)
  {
    k == "down" || k == "j"
  }

  predicate IsUpKey(k: string)
  {
    k == "up" || k == "k"
  }

  predicate IsBackKey(k: string)
  {
    k == "left" || k == "h"
  }

  /** list.Model.SelectedItem: the item under the cursor, nil when there is none. */
  function SelectedItem(l: ListView): (r: Option<string>)
    ensures r.Some? <==> 0 <= l.cursor < |l.items|
    ensures r.Some? ==> r.value == l.items[l.cursor]
  {
    if 0 <= l.cursor < |l.items| then Some(l.items[l.cursor]) else None
  }

  /** Append a widget's command unless it is nil (tea.Batch drops nil commands). */
  function AppendCmd(cmds: seq<Effect>, widget: Widget, cmd: Option<int>): seq<Effect>
  {
    match cmd
    case None => cmds
    case Some(tag) => cmds + [WidgetCmd(widget, tag)]
  }

  /** viewport.New(width, height). */
  function NewViewport(width: int, height: int): Viewport
  {
    Viewport(width, height, 0, 0, "", false)
  }

  /** resetSpinner: a fresh spinner, nothing else changed. */
  function ResetSpinner(m: Model): (r: Model)
    ensures r.spinner == NewSpinner
    ensures r.(spinner := m.spinner) == m
  {
    m.(spinner := NewSpinner)
  }

  /** The WindowSizeMsg branch of Update, which runs in every state. */
  function Resize(m: Model, msg: Msg, w: Widgets, chrome: Chrome): (r: (Model, seq<Effect>))
    requires msg.WindowSizeMsg?
    ensures r.0.ready && r.0.(viewport := m.viewport, ready := m.ready) == m
    ensures r.0.viewport.width == msg.width
    ensures r.0.viewport.height == msg.height - (chrome.headerHeight + chrome.footerHeight)
    ensures !m.ready ==> r.0.viewport.yPosition == chrome.headerHeight + 1 && r.0.viewport.content == ""
    ensures m.ready ==> r.0.viewport.content == m.viewport.content && r.0.viewport.yPosition == m.viewport.yPosition
    ensures forall e :: e in r.1 ==> e.WidgetCmd? && e.widget == ViewportWidget
  {
    var verticalMarginHeight := chrome.headerHeight + chrome.footerHeight;
    var vp :=
      if !m.ready then
        NewViewport(msg.width, msg.height - verticalMarginHeight)
          .(yPosition := chrome.headerHeight + 1, highPerformanceRendering := UseHighPerformanceRenderer)
      else
        m.viewport.(width := msg.width, height := msg.height - verticalMarginHeight);
    var (yOffset, cmd) := w.viewportUpdate(vp, msg);
    (m.(viewport := vp.(yOffset := yOffset), ready := true), AppendCmd([], ViewportWidget, cmd))
  }

  /** Scroll the viewport to `yOffset`, then let the viewport handle the key itself. */
  function Scroll(m: Model, msg: Msg, yOffset: int, cmds: seq<Effect>, w: Widgets): (Model, seq<Effect>)
  {
    var vp := m.viewport.(yOffset := yOffset);
    var (yOffset', cmd) := w.viewportUpdate(vp, msg);
    (m.(viewport := vp.(yOffset := yOffset')), AppendCmd(cmds, ViewportWidget, cmd))
  }

  /** The Listing branch of Update, after the resize branch produced `cmds`. */
  function UpdateListing(m: Model, msg: Msg, cmds: seq<Effect>, w: Widgets): (r: (Model, seq<Effect>))
    requires m.state == Listing
    ensures var selects := msg.KeyMsg? && IsSelectKey(msg.key) && SelectedItem(m.list).Some?;
      r.0.state == (if selects then Checking else Listing) &&
      (selects ==> r.0 == m.(choice := m.list.items[m.list.cursor], state := Checking) &&
                   r.1 == [SpawnProbe(r.0.choice), SpinnerTick]) &&
      (!selects ==> r.0.(list := m.list) == m && r.0.list.items == m.list.items &&
                    forall e :: e in r.1 ==> e in cmds || e.WidgetCmd?)
  {
    match msg
    case KeyMsg(k) =>
      if IsSelectKey(k) then
        match SelectedItem(m.list)
        case Some(item) => (m.(choice := item, state := Checking), [SpawnProbe(item), SpinnerTick])
        case None => (m, cmds)
      else if IsDownKey(k) || IsUpKey(k) then
        var (cursor, cmd) := w.listUpdate(m.list, msg);
        (m.(list := m.list.(cursor := cursor)), AppendCmd(cmds, ListWidget, cmd))
      else (m, cmds)
    case _ => (m, cmds)
  }

  /** The Showing branch of Update, after the resize branch produced `cmds`. */
  function UpdateShowing(m: Model, msg: Msg, cmds: seq<Effect>, w: Widgets): (r: (Model, seq<Effect>))
    requires m.state == Showing
    ensures r.0.state == (if msg.KeyMsg? && IsBackKey(msg.key) then Listing else Showing)
    ensures r.0.(state := m.state, viewport := m.viewport) == m
    ensures r.0.viewport.(yOffset := m.viewport.yOffset) == m.viewport
    ensures forall e :: e in r.1 ==> e in cmds || (e.WidgetCmd? && e.widget == ViewportWidget)
  {
    match msg
    case KeyMsg(k) =>
      if IsBackKey(k) then (m.(state := Listing), cmds)
      else if IsDownKey(k) then Scroll(m, msg, w.viewDown(m.viewport), cmds, w)
      else if IsUpKey(k) then Scroll(m, msg, w.viewUp(m.viewport), cmds, w)
      else (m, cmds)
    case _ => (m, cmds)
  }

  /** The Checking branch of Update, after the resize branch produced `cmds`. */
  function UpdateChecking(m: Model, msg: Msg, cmds: seq<Effect>, w: Widgets): (r: (Model, seq<Effect>))
    requires m.state == Checking
    ensures r.0.state == (if msg.ResponseMsg? then Showing else Checking)
    ensures r.0.choice == m.choice && r.0.list == m.list && r.0.ready == m.ready
    ensures msg.ResponseMsg? ==>
      r.0.viewport.content == msg.text && r.0.spinner == NewSpinner &&
      |r.1| > 0 && r.1[|r.1| - 1] == WaitForActivity
    ensures msg.ResponseMsg? ==>
      r.0.(state := m.state, spinner := m.spinner, viewport := m.viewport) == m &&
      r.0.viewport.(content := m.viewport.content, yOffset := m.viewport.yOffset) == m.viewport &&
      forall i :: 0 <= i < |r.1| - 1 ==> r.1[i] in cmds || (r.1[i].WidgetCmd? && r.1[i].widget == ViewportWidget)
    ensures msg.SpinnerTickMsg? ==> r.0 == m.(spinner := r.0.spinner)
    ensures !msg.ResponseMsg? && !msg.SpinnerTickMsg? ==> r == (m, cmds)
    ensures !msg.ResponseMsg? ==> forall e :: e in r.1 ==> e in cmds || e.WidgetCmd?
  {
    match msg
    case ResponseMsg(text) =>
      var shown := ResetSpinner(m).(state := Showing);
      var vp := shown.viewport.(content := text, yOffset := w.setContent(shown.viewport, text));
      var (yOffset, cmd) := w.viewportUpdate(vp, msg);
      (shown.(viewport := vp.(yOffset := yOffset)), AppendCmd(cmds, ViewportWidget, cmd) + [WaitForActivity])
    case SpinnerTickMsg(_) =>
      var (s, cmd) := w.spinnerUpdate(m.spinner, msg);
      (m.(spinner := s), AppendCmd(cmds, SpinnerWidget, cmd))
    case _ => (m, cmds)
  }

  /** model.Update. */
  function Update(m: Model, msg: Msg, w: Widgets, chrome: Chrome): (r: (Model, seq<Effect>))
    ensures msg.KeyMsg? && IsQuitKey(msg.key) ==> r == (m, [Quit])
    ensures !(msg.KeyMsg? && IsQuitKey(msg.key)) ==> Quit !in r.1
    ensures r.0.list.items == m.list.items && r.0.quitting == m.quitting
  {
    if msg.KeyMsg? && IsQuitKey(msg.key) then (m, [Quit])
    else
      var (resized, cmds) := if msg.WindowSizeMsg? then Resize(m, msg, w, chrome) else (m, []);
      match resized.state
      case Listing => UpdateListing(resized, msg, cmds, w)
      case Showing => UpdateShowing(resized, msg, cmds, w)
      case Checking => UpdateChecking(resized, msg, cmds, w)
  }

  /** model.Init: the first wait on the result channel, and nothing else. */
  function InitEffects(): (effects: seq<Effect>)
    ensures Waits(effects) == 1 && Spawned(effects) == 0
  {
    [WaitForActivity]
  }

  /** The model Launch starts the program with. */
  function Initial(endpoints: seq<string>): (m: Model)
    ensures m.state == Listing && m.list.items == endpoints && !m.ready && m.choice == ""
    ensures endpoints != [] ==> SelectedItem(m.list) == Some(endpoints[0])
    ensures endpoints == [] ==> SelectedItem(m.list) == None
  {
    Model(ListView(endpoints, 0), NewSpinner, "", false, Listing, NewViewport(0, 0), false)
  }

  // ---------------------------------------------------------------------------
  // One step at a time

  /** Select in Listing with an item under the cursor: one probe for that item, then Checking. */
  lemma SelectStartsProbe(m: Model, k: string, w: Widgets, chrome: Chrome)
    requires m.state == Listing && IsSelectKey(k) && SelectedItem(m.list).Some?
    ensures var (m', effects) := Update(m, KeyMsg(k), w, chrome);
      m' == m.(choice := m.list.items[m.list.cursor], state := Checking) &&
      effects == [SpawnProbe(m'.choice), SpinnerTick]
  {
  }

  /** Select in Listing with no item under the cursor changes nothing. */
  lemma SelectWithoutItem(m: Model, k: string, w: Widgets, chrome: Chrome)
    requires m.state == Listing && IsSelectKey(k) && SelectedItem(m.list).None?
    ensures Update(m, KeyMsg(k), w, chrome) == (m, [])
  {
  }

  /** Navigation keys in Listing only move the list cursor. */
  lemma NavigateMovesCursor(m: Model, k: string, w: Widgets, chrome: Chrome)
    requires m.state == Listing && (IsDownKey(k) || IsUpKey(k))
    ensures var (m', effects) := Update(m, KeyMsg(k), w, chrome);
      m' == m.(list := m.list.(cursor := w.listUpdate(m.list, KeyMsg(k)).0)) &&
      forall e :: e in effects ==> e == WidgetCmd(ListWidget, w.listUpdate(m.list, KeyMsg(k)).1.value)
  {
  }

  /** In Listing, every message except a select with an item or a quit key keeps the state. */
  lemma ListingStaysListing(m: Model, msg: Msg, w: Widgets, chrome: Chrome)
    requires m.state == Listing
    requires !(msg.KeyMsg? && IsSelectKey(msg.key) && SelectedItem(m.list).Some?)
    ensures Update(m, msg, w, chrome).0.state == Listing
    ensures Update(m, msg, w, chrome).0.choice == m.choice
  {
  }

  /** While Checking, every key but a quit key is ignored outright. */
  lemma CheckingIgnoresKeys(m: Model, k: string, w: Widgets, chrome: Chrome)
    requires m.state == Checking && !IsQuitKey(k)
    ensures Update(m, KeyMsg(k), w, chrome) == (m, [])
  {
  }

  /** While Checking, a spinner tick changes only the spinner. */
  lemma CheckingTickMovesSpinner(m: Model, id: int, w: Widgets, chrome: Chrome)
    requires m.state == Checking
    ensures var (m', effects) := Update(m, SpinnerTickMsg(id), w, chrome);
      m' == m.(spinner := w.spinnerUpdate(m.spinner, SpinnerTickMsg(id)).0) &&
      forall e :: e in effects ==> e.WidgetCmd? && e.widget == SpinnerWidget
  {
  }

  /** The probe's response while Checking is shown: Showing, that very text, a fresh spinner, the wait re-armed. */
  lemma ResponseShows(m: Model, text: string, w: Widgets, chrome: Chrome)
    requires m.state == Checking
    ensures var (m', effects) := Update(m, ResponseMsg(text), w, chrome);
      m'.state == Showing && m'.viewport.content == text && m'.spinner == NewSpinner &&
      m'.choice == m.choice && m'.list == m.list && m'.ready == m.ready &&
      |effects| > 0 && effects[|effects| - 1] == WaitForActivity &&
      m'.(state := m.state, spinner := m.spinner, viewport := m.viewport) == m &&
      m'.viewport.(content := m.viewport.content, yOffset := m.viewport.yOffset) == m.viewport &&
      forall i :: 0 <= i < |effects| - 1 ==> effects[i].WidgetCmd? && effects[i].widget == ViewportWidget
  {
  }

  /** A response outside Checking changes nothing. */
  lemma ResponseIgnoredElsewhere(m: Model, text: string, w: Widgets, chrome: Chrome)
    requires m.state != Checking
    ensures Update(m, ResponseMsg(text), w, chrome) == (m, [])
  {
  }

  /** Back in Showing returns to Listing and nothing else. */
  lemma ShowingBack(m: Model, k: string, w: Widgets, chrome: Chrome)
    requires m.state == Showing && IsBackKey(k)
    ensures Update(m, KeyMsg(k), w, chrome) == (m.(state := Listing), [])
  {
  }

  /** Scroll keys in Showing move only the viewport's offset and stay in Showing. */
  lemma ShowingScrolls(m: Model, k: string, w: Widgets, chrome: Chrome)
    requires m.state == Showing && (IsDownKey(k) || IsUpKey(k))
    ensures var (m', effects) := Update(m, KeyMsg(k), w, chrome);
      m'.state == Showing &&
      m'.(viewport := m.viewport) == m &&
      m'.viewport.(yOffset := m.viewport.yOffset) == m.viewport
  {
  }

  /**
   * A resize sets `ready`, gives the viewport the window's width and its height
   * less the header and footer, and leaves the state and everything outside the
   * viewport unchanged; an already ready viewport keeps its content.
   */
  lemma ResizeGeometry(m: Model, width: int, height: int, w: Widgets, chrome: Chrome)
    ensures var (m', effects) := Update(m, WindowSizeMsg(width, height), w, chrome);
      m'.ready && m'.state == m.state &&
      m'.viewport.width == width &&
      m'.viewport.height == height - (chrome.headerHeight + chrome.footerHeight) &&
      m'.(viewport := m.viewport, ready := m.ready) == m &&
      (m.ready ==> m'.viewport.content == m.viewport.content)
  {
  }

  // ---------------------------------------------------------------------------
  // Runs of messages

  /** The messages processed one after the other; the effects in order. */
  function Run(m: Model, msgs: seq<Msg>, w: Widgets, chrome: Chrome): (Model, seq<Effect>)
    decreases |msgs|
  {
    if msgs == [] then (m, [])
    else
      var (m1, e1) := Update(m, msgs[0], w, chrome);
      var (m2, e2) := Run(m1, msgs[1..], w, chrome);
      (m2, e1 + e2)
  }

  lemma {:induction false} RunConcat(m: Model, a: seq<Msg>, b: seq<Msg>, w: Widgets, chrome: Chrome)
    ensures var (ma, ea) := Run(m, a, w, chrome);
      var (mb, eb) := Run(ma, b, w, chrome);
      Run(m, a + b, w, chrome) == (mb, ea + eb)
    decreases |a|
  {
    if a != [] {
      assert (a + b)[0] == a[0] && (a + b)[1..] == a[1..] + b;
      var (m1, e1) := Update(m, a[0], w, chrome);
      RunConcat(m1, a[1..], b, w, chrome);
      var (ma, ea) := Run(m1, a[1..], w, chrome);
      var eb := Run(ma, b, w, chrome).1;
      assert (e1 + ea) + eb == e1 + (ea + eb);
    } else {
      assert a + b == b;
      assert [] + Run(m, b, w, chrome).1 == Run(m, b, w, chrome).1;
    }
  }

  /** How many probes the effects start. */
  function Spawned(effects: seq<Effect>): nat
  {
    if effects == [] then 0 else (if effects[0].SpawnProbe? then 1 else 0) + Spawned(effects[1..])
  }

  lemma {:induction false} SpawnedConcat(a: seq<Effect>, b: seq<Effect>)
    ensures Spawned(a + b) == Spawned(a) + Spawned(b)
  {
    if a != [] {
      assert (a + b)[0] == a[0] && (a + b)[1..] == a[1..] + b;
      SpawnedConcat(a[1..], b);
    } else {
      assert a + b == b;
    }
  }

  lemma SpawnedAppendCmd(cmds: seq<Effect>, widget: Widget, cmd: Option<int>)
    ensures Spawned(AppendCmd(cmds, widget, cmd)) == Spawned(cmds)
  {
    if cmd.Some? {
      SpawnedConcat(cmds, [WidgetCmd(widget, cmd.value)]);
    }
  }

  /** 1 while a probe is outstanding (the model is Checking), else 0. */
  function InFlight(s: State): nat
  {
    if s == Checking then 1 else 0
  }

  /** 1 when `msg` hands an outstanding probe's result to the model. */
  function Consumes(m: Model, msg: Msg): nat
  {
    if m.state == Checking && msg.ResponseMsg? then 1 else 0
  }

  /** The results a run hands to the model while it waits for them. */
  function Consumed(m: Model, msgs: seq<Msg>, w: Widgets, chrome: Chrome): nat
    decreases |msgs|
  {
    if msgs == [] then 0
    else Consumes(m, msgs[0]) + Consumed(Update(m, msgs[0], w, chrome).0, msgs[1..], w, chrome)
  }

  lemma ResizeSpawnsNothing(m: Model, msg: Msg, w: Widgets, chrome: Chrome)
    requires msg.WindowSizeMsg?
    ensures Spawned(Resize(m, msg, w, chrome).1) == 0
    ensures Resize(m, msg, w, chrome).0.state == m.state
  {
  }

  lemma ListingSpawns(m: Model, msg: Msg, cmds: seq<Effect>, w: Widgets)
    requires m.state == Listing && Spawned(cmds) == 0
    ensures var (m', effects) := UpdateListing(m, msg, cmds, w);
      m'.state != Showing && Spawned(effects) == InFlight(m'.state)
  {
    if msg.KeyMsg? && IsSelectKey(msg.key) && SelectedItem(m.list).Some? {
      var started := [SpawnProbe(SelectedItem(m.list).value), SpinnerTick];
      assert started[1..] == [SpinnerTick] && started[1..][1..] == [];
      assert Spawned(started) == 1;
    } else if msg.KeyMsg? && !IsSelectKey(msg.key) && (IsDownKey(msg.key) || IsUpKey(msg.key)) {
      SpawnedAppendCmd(cmds, ListWidget, w.listUpdate(m.list, msg).1);
    }
  }

  lemma ShowingSpawns(m: Model, msg: Msg, cmds: seq<Effect>, w: Widgets)
    requires m.state == Showing && Spawned(cmds) == 0
    ensures var (m', effects) := UpdateShowing(m, msg, cmds, w);
      m'.state != Checking && Spawned(effects) == 0
  {
    if msg.KeyMsg? && !IsBackKey(msg.key) {
      if IsDownKey(msg.key) {
        var vp := m.viewport.(yOffset := w.viewDown(m.viewport));
        SpawnedAppendCmd(cmds, ViewportWidget, w.viewportUpdate(vp, msg).1);
      } else if IsUpKey(msg.key) {
        var vp := m.viewport.(yOffset := w.viewUp(m.viewport));
        SpawnedAppendCmd(cmds, ViewportWidget, w.viewportUpdate(vp, msg).1);
      }
    }
  }

  lemma CheckingSpawns(m: Model, msg: Msg, cmds: seq<Effect>, w: Widgets)
    requires m.state == Checking && Spawned(cmds) == 0
    ensures var (m', effects) := UpdateChecking(m, msg, cmds, w);
      m'.state == (if msg.ResponseMsg? then Showing else Checking) && Spawned(effects) == 0
  {
    match msg
    case ResponseMsg(text) =>
      var shown := ResetSpinner(m).(state := Showing);
      var vp := shown.viewport.(content := text, yOffset := w.setContent(shown.viewport, text));
      var cmd := w.viewportUpdate(vp, msg).1;
      SpawnedAppendCmd(cmds, ViewportWidget, cmd);
      SpawnedConcat(AppendCmd(cmds, ViewportWidget, cmd), [WaitForActivity]);
    case SpinnerTickMsg(_) =>
      SpawnedAppendCmd(cmds, SpinnerWidget, w.spinnerUpdate(m.spinner, msg).1);
    case _ =>
  }

  /** One step starts a probe exactly when it goes from Listing to Checking, and consumes one exactly when it leaves Checking. */
  lemma StepInFlight(m: Model, msg: Msg, w: Widgets, chrome: Chrome)
    ensures var (m', effects) := Update(m, msg, w, chrome);
      Spawned(effects) + InFlight(m.state) == Consumes(m, msg) + InFlight(m'.state) &&
      Spawned(effects) == (if m.state == Listing && m'.state == Checking then 1 else 0)
  {
    if !(msg.KeyMsg? && IsQuitKey(msg.key)) {
      var (resized, cmds) := if msg.WindowSizeMsg? then Resize(m, msg, w, chrome) else (m, []);
      if msg.WindowSizeMsg? {
        ResizeSpawnsNothing(m, msg, w, chrome);
      }
      match resized.state
      case Listing => ListingSpawns(resized, msg, cmds, w);
      case Showing => ShowingSpawns(resized, msg, cmds, w);
      case Checking => CheckingSpawns(resized, msg, cmds, w);
    }
  }

  /**
   * At most one probe is outstanding: over any run, the probes started less
   * the results consumed is 1 exactly when the run ends in Checking (counted
   * from a model that is not Checking).
   */
  lemma {:induction false} RunInFlight(m: Model, msgs: seq<Msg>, w: Widgets, chrome: Chrome)
    ensures var (m', effects) := Run(m, msgs, w, chrome);
      Spawned(effects) + InFlight(m.state) == Consumed(m, msgs, w, chrome) + InFlight(m'.state)
    decreases |msgs|
  {
    if msgs != [] {
      var (m1, e1) := Update(m, msgs[0], w, chrome);
      StepInFlight(m, msgs[0], w, chrome);
      RunInFlight(m1, msgs[1..], w, chrome);
      SpawnedConcat(e1, Run(m1, msgs[1..], w, chrome).1);
    }
  }

  /** From launch, a probe is outstanding (started and not yet consumed) exactly while the model is Checking. */
  lemma LaunchedSessionInFlight(endpoints: seq<string>, msgs: seq<Msg>, w: Widgets, chrome: Chrome)
    ensures var (m', effects) := Run(Initial(endpoints), msgs, w, chrome);
      Spawned(effects) == Consumed(Initial(endpoints), msgs, w, chrome) + InFlight(m'.state)
  {
    RunInFlight(Initial(endpoints), msgs, w, chrome);
  }

  /** How many waits on the result channel the effects arm. */
  function Waits(effects: seq<Effect>): nat
  {
    if effects == [] then 0 else (if effects[0].WaitForActivity? then 1 else 0) + Waits(effects[1..])
  }

  lemma {:induction false} WaitsConcat(a: seq<Effect>, b: seq<Effect>)
    ensures Waits(a + b) == Waits(a) + Waits(b)
  {
    if a != [] {
      assert (a + b)[0] == a[0] && (a + b)[1..] == a[1..] + b;
      WaitsConcat(a[1..], b);
    } else {
      assert a + b == b;
    }
  }

  lemma {:induction false} NoWaits(effects: seq<Effect>)
    requires forall e :: e in effects ==> !e.WaitForActivity?
    ensures Waits(effects) == 0
  {
    if effects != [] {
      assert effects[0] in effects;
      assert forall e :: e in effects[1..] ==> e in effects;
      NoWaits(effects[1..]);
    }
  }

  /** One step re-arms the wait on the channel exactly when it consumes a result. */
  lemma StepWaits(m: Model, msg: Msg, w: Widgets, chrome: Chrome)
    ensures Waits(Update(m, msg, w, chrome).1) == Consumes(m, msg)
  {
    var effects := Update(m, msg, w, chrome).1;
    if Consumes(m, msg) == 1 {
      var cmds := UpdateChecking(m, msg, [], w).1;
      assert effects == cmds;
      var body := cmds[..|cmds| - 1];
      assert cmds == body + [WaitForActivity];
      assert forall e :: e in body ==> e in cmds[..|cmds| - 1];
      assert forall e :: e in body ==> e.WidgetCmd?;
      NoWaits(body);
      WaitsConcat(body, [WaitForActivity]);
    } else if msg.WindowSizeMsg? {
      var resized := Resize(m, msg, w, chrome);
      assert forall e :: e in effects ==> e in resized.1 || e.WidgetCmd? || e.SpawnProbe? || e.SpinnerTick?;
      NoWaits(effects);
    } else {
      assert forall e :: e in effects ==> e.Quit? || e.WidgetCmd? || e.SpawnProbe? || e.SpinnerTick?;
      NoWaits(effects);
    }
  }

  /** Over any run, the waits armed on the result channel equal the results consumed. */
  lemma {:induction false} RunWaits(m: Model, msgs: seq<Msg>, w: Widgets, chrome: Chrome)
    ensures Waits(Run(m, msgs, w, chrome).1) == Consumed(m, msgs, w, chrome)
    decreases |msgs|
  {
    if msgs != [] {
      var (m1, e1) := Update(m, msgs[0], w, chrome);
      StepWaits(m, msgs[0], w, chrome);
      RunWaits(m1, msgs[1..], w, chrome);
      WaitsConcat(e1, Run(m1, msgs[1..], w, chrome).1);
    }
  }

  /**
   * From launch, counting Init's wait, exactly one wait on the result channel
   * is armed beyond the results consumed: the channel is always being read.
   */
  lemma LaunchedSessionWaits(endpoints: seq<string>, msgs: seq<Msg>, w: Widgets, chrome: Chrome)
    ensures Waits(InitEffects() + Run(Initial(endpoints), msgs, w, chrome).1) ==
      Consumed(Initial(endpoints), msgs, w, chrome) + 1
  {
    RunWaits(Initial(endpoints), msgs, w, chrome);
    WaitsConcat(InitEffects(), Run(Initial(endpoints), msgs, w, chrome).1);
  }

  /** Messages that browse the list: navigation keys and resizes. */
  predicate Browsing(msg: Msg)
  {
    (msg.KeyMsg? && (IsDownKey(msg.key) || IsUpKey(msg.key))) || msg.WindowSizeMsg?
  }

  /** Messages that do not end a check: anything but the response and the quit keys. */
  predicate Waiting(msg: Msg)
  {
    !msg.ResponseMsg? && !(msg.KeyMsg? && IsQuitKey(msg.key))
  }

  /** The list widget keeps its cursor on an item (bubbles' list clamps it). */
  ghost predicate CursorStaysOnItem(w: Widgets)
  {
    forall l: ListView, msg: Msg :: 0 <= l.cursor < |l.items| ==> 0 <= w.listUpdate(l, msg).0 < |l.items|
  }

  lemma {:induction false} BrowsingStaysListing(m: Model, msgs: seq<Msg>, w: Widgets, chrome: Chrome)
    requires m.state == Listing && 0 <= m.list.cursor < |m.list.items| && CursorStaysOnItem(w)
    requires forall i :: 0 <= i < |msgs| ==> Browsing(msgs[i])
    ensures var m' := Run(m, msgs, w, chrome).0;
      m'.state == Listing && m'.list.items == m.list.items && 0 <= m'.list.cursor < |m.list.items|
    decreases |msgs|
  {
    if msgs != [] {
      var m1 := Update(m, msgs[0], w, chrome).0;
      assert Browsing(msgs[0]);
      assert m1.state == Listing && m1.list.items == m.list.items && 0 <= m1.list.cursor < |m.list.items|;
      BrowsingStaysListing(m1, msgs[1..], w, chrome);
    }
  }

  lemma {:induction false} WaitingStaysChecking(m: Model, msgs: seq<Msg>, w: Widgets, chrome: Chrome)
    requires m.state == Checking
    requires forall i :: 0 <= i < |msgs| ==> Waiting(msgs[i])
    ensures var m' := Run(m, msgs, w, chrome).0;
      m'.state == Checking && m'.choice == m.choice
    decreases |msgs|
  {
    if msgs != [] {
      assert Waiting(msgs[0]);
      var m1 := Update(m, msgs[0], w, chrome).0;
      WaitingStaysChecking(m1, msgs[1..], w, chrome);
    }
  }

  /**
   * Any number of navigation keys and resizes, then select, then anything but
   * a quit key until the response: the model shows that response for the item
   * the cursor was on when select was pressed.
   */
  lemma SelectThenResponseShows(
    m: Model, browse: seq<Msg>, k: string, waiting: seq<Msg>, text: string, w: Widgets, chrome: Chrome)
    requires m.state == Listing && 0 <= m.list.cursor < |m.list.items| && CursorStaysOnItem(w)
    requires IsSelectKey(k)
    requires forall i :: 0 <= i < |browse| ==> Browsing(browse[i])
    requires forall i :: 0 <= i < |waiting| ==> Waiting(waiting[i])
    ensures var listed := Run(m, browse, w, chrome).0;
      var final := Run(m, browse + [KeyMsg(k)] + waiting + [ResponseMsg(text)], w, chrome).0;
      0 <= listed.list.cursor < |m.list.items| &&
      final.state == Showing && final.viewport.content == text &&
      final.choice == m.list.items[listed.list.cursor]
  {
    BrowsingStaysListing(m, browse, w, chrome);
    var listed := Run(m, browse, w, chrome).0;
    var checking := Update(listed, KeyMsg(k), w, chrome).0;
    SelectStartsProbe(listed, k, w, chrome);
    assert Run(listed, [KeyMsg(k)], w, chrome).0 == checking;
    WaitingStaysChecking(checking, waiting, w, chrome);
    var waited := Run(checking, waiting, w, chrome).0;
    ResponseShows(waited, text, w, chrome);
    assert Run(waited, [ResponseMsg(text)], w, chrome).0 == Update(waited, ResponseMsg(text), w, chrome).0;
    RunConcat(m, browse, [KeyMsg(k)], w, chrome);
    RunConcat(m, browse + [KeyMsg(k)], waiting, w, chrome);
    RunConcat(listed, [KeyMsg(k)], waiting, w, chrome);
    RunConcat(m, browse + [KeyMsg(k)] + waiting, [ResponseMsg(text)], w, chrome);
  }

  // ---------------------------------------------------------------------------
  // Views

  /** max(a, b). */
  function Max(a: int, b: int): (r: int)
    ensures r >= a && r >= b
    ensures r == a || r == b
  {
    if a > b then a else b
  }

  /** strings.Repeat of a one-character string; a negative count would panic. */
  function Repeat(c: char, n: int): (s: string)
    requires n >= 0
    ensures |s| == n && forall i :: 0 <= i < n ==> s[i] == c
  {
    seq(n, _ => c)
  }

  /**
   * The horizontal rule of headerView and footerView beside a label of
   * `labelWidth` cells: it fills the rest of the viewport's width, and is empty
   * when the label alone is as wide.
   */
  function Rule(viewportWidth: int, labelWidth: int): (line: string)
    ensures forall i :: 0 <= i < |line| ==> line[i] == '─'
    ensures labelWidth <= viewportWidth ==> labelWidth + |line| == viewportWidth
    ensures viewportWidth <= labelWidth ==> line == ""
  {
    Repeat('─', Max(0, viewportWidth - labelWidth))
  }

  /** The character of a decimal digit. */
  function DigitChar(d: int): (c: char)
    requires 0 <= d < 10
    ensures '0' <= c <= '9' && c as int - '0' as int == d
  {
    (('0' as int) + d) as char
  }

  predicate IsDigit(c: char)
  {
    '0' <= c <= '9'
  }

  /** The decimal numeral of n, without leading zeros. */
  function NatToDecimal(n: nat): (s: string)
    ensures |s| > 0 && forall i :: 0 <= i < |s| ==> IsDigit(s[i])
    ensures |s| > 1 ==> s[0] != '0'
  {
    if n < 10 then [DigitChar(n)] else NatToDecimal(n / 10) + [DigitChar(n % 10)]
  }

  /** fmt's %d of an int. */
  function FormatInt(i: int): string
  {
    if i < 0 then "-" + NatToDecimal(-i) else NatToDecimal(i)
  }

  /** The value of a string of decimal digits. */
  function ParseDecimal(s: string): nat
    requires forall i :: 0 <= i < |s| ==> IsDigit(s[i])
  {
    if s == [] then 0
    else
      assert IsDigit(s[|s| - 1]);
      10 * ParseDecimal(s[..|s| - 1]) + (s[|s| - 1] as int - '0' as int)
  }

  lemma {:induction false} DecimalRoundTrip(n: nat)
    ensures ParseDecimal(NatToDecimal(n)) == n
  {
    if n >= 10 {
      var s := NatToDecimal(n);
      assert s[..|s| - 1] == NatToDecimal(n / 10);
      DecimalRoundTrip(n / 10);
    }
  }

  /** itemDelegate.Render's text: "N. item" with N = index + 1, after "> " for the cursor's item. */
  function ItemLabel(index: int, item: string, cursor: int): (shown: string)
    ensures index == cursor <==> |shown| >= 2 && shown[..2] == "> "
    ensures |item| <= |shown| && shown[|shown| - |item|..] == item
  {
    var str := FormatInt(index + 1) + ". " + item;
    assert str[0] == FormatInt(index + 1)[0] != '>';
    if index == cursor then
      assert ("> " + str)[..2] == "> ";
      "> " + str
    else str
  }

  /** The length of the run of digits `s` starts with. */
  function DigitRun(s: string): (n: nat)
    ensures n <= |s|
    ensures forall i :: 0 <= i < n ==> IsDigit(s[i])
    ensures n < |s| ==> !IsDigit(s[n])
  {
    if s != [] && IsDigit(s[0]) then 1 + DigitRun(s[1..]) else 0
  }

  /** Read a label back: whether it is selected, its number and its item. */
  function ParseLabel(s: string): Option<(bool, nat, string)>
  {
    var selected := |s| >= 2 && s[..2] == "> ";
    var rest := if selected then s[2..] else s;
    var n := DigitRun(rest);
    if n == 0 || |rest| < n + 2 || rest[n..n + 2] != ". " then None
    else Some((selected, ParseDecimal(rest[..n]), rest[n + 2..]))
  }

  lemma {:induction false} DigitRunOfNumeral(digits: string, tail: string)
    requires |digits| > 0 && forall i :: 0 <= i < |digits| ==> IsDigit(digits[i])
    requires tail != [] && !IsDigit(tail[0])
    ensures DigitRun(digits + tail) == |digits|
  {
    if |digits| > 1 {
      assert (digits + tail)[1..] == digits[1..] + tail;
      DigitRunOfNumeral(digits[1..], tail);
    } else {
      assert (digits + tail)[1..] == tail;
    }
  }

  /** Every list label reads back as its selection mark, its 1-based number and its item. */
  lemma LabelRoundTrip(index: nat, item: string, cursor: int)
    ensures ParseLabel(ItemLabel(index, item, cursor)) == Some((index == cursor, index + 1, item))
  {
    var digits := NatToDecimal(index + 1);
    var str := digits + ". " + item;
    assert str == digits + (". " + item);
    DigitRunOfNumeral(digits, ". " + item);
    assert str[..|digits|] == digits;
    assert str[|digits|..|digits| + 2] == ". ";
    assert str[|digits| + 2..] == item;
    DecimalRoundTrip(index + 1);
    var shown := ItemLabel(index, item, cursor);
    if index == cursor {
      assert shown[..2] == "> " && shown[2..] == str;
    } else {
      assert shown == str && IsDigit(shown[0]);
      assert |shown| >= 2 ==> shown[..2][0] == shown[0] != '>';
    }
  }
}
