/**
 * Sequences of events reaching the settings panel, and what they do
 * together.
 *
 * An event is either a call from the host (edit an item, activate the
 * select tool, reload the configuration, show a new first badge number) or
 * a choice the user makes in one picker. A picker first shows the chosen
 * value and then emits its signal, which the panel has connected to the
 * matching slot.
 */
module Sessions {
  import opened Types
  import opened Configuration
  import opened SettingsSpec

  datatype Event =
    | EditItemCalled(item: AnnotationItem)
    | SelectToolActivated
    | ConfigReloaded
    | FirstBadgeNumberUpdated(number: int)
    | ToolPicked(tool: ToolType)
    | StylePicked(change: StyleChange)
    | BlurRadiusPicked(radius: int)
    | StickerPicked(sticker: string)
    | FirstNumberPicked(number: int)

  /** The pickers after the user's choice `e`, before its signal is handled. */
  function Picked(p: Panel, e: Event): Panel
  {
    match e
    case ToolPicked(t) => p.(tool := t)
    case StylePicked(change) =>
      (match change
       case ColorChange(c) => p.(color := c)
       case TextColorChange(c) => p.(textColor := c)
       case WidthChange(w) => p.(width := w)
       case FillTypeChange(f) => p.(fillType := f)
       case FontSizeChange(n) => p.(fontSize := n))
    case BlurRadiusPicked(radius) => p.(blurRadius := radius)
    case StickerPicked(sticker) => p.(sticker := sticker)
    case FirstNumberPicked(n) => p.(firstNumber := n)
    case _ => p
  }

  /** One event: the picker shows the choice, then the connected slot or the host's call runs. */
  function Dispatch(s: State, e: Event): (r: State)
    requires Valid(s)
    ensures Valid(r)
  {
    var s1 := s.(panel := Picked(s.panel, e));
    match e
    case EditItemCalled(item) => EditItem(s1, item)
    case SelectToolActivated => ActivateSelectTool(s1)
    case ConfigReloaded => LoadToolTypeFromConfig(s1)
    case FirstBadgeNumberUpdated(n) => UpdateFirstBadgeNumber(s1, n)
    case ToolPicked(t) => ToolTypeChanged(s1, t)
    case StylePicked(change) => ToolStyleChanged(s1, change)
    case BlurRadiusPicked(radius) => BlurRadiusChanged(s1, radius)
    case StickerPicked(sticker) => StickerChanged(s1, sticker)
    case FirstNumberPicked(n) => SaveFirstBadgeNumber(s1, n)
  }

  /** The events one after the other. */
  function Run(s: State, es: seq<Event>): (r: State)
    requires Valid(s)
    ensures Valid(r)
    decreases |es|
  {
    if es == [] then s else Run(Dispatch(s, es[0]), es[1..])
  }

  lemma {:induction false} RunSnoc(s: State, es: seq<Event>, e: Event)
    requires Valid(s)
    ensures Run(s, es + [e]) == Dispatch(Run(s, es), e)
    decreases |es|
  {
    if es == [] {
      assert es + [e] == [e];
      assert [e][1..] == [];
    } else {
      assert (es + [e])[0] == es[0];
      assert (es + [e])[1..] == es[1..] + [e];
      RunSnoc(Dispatch(s, es[0]), es[1..], e);
    }
  }

  /** Events that change a picker value without changing mode or tool. */
  predicate IsSettingEvent(e: Event)
  {
    e.StylePicked? || e.BlurRadiusPicked? || e.StickerPicked? || e.FirstNumberPicked? || e.FirstBadgeNumberUpdated?
  }

  /** The signals an edit session emits: one item notification per setting, the first number passed on. */
  function EditModeSignals(es: seq<Event>): seq<Signal>
  {
    if es == [] then []
    else
      var head :=
        match es[0]
        case StylePicked(_) => [ItemSettingChanged]
        case BlurRadiusPicked(_) => [ItemSettingChanged]
        case StickerPicked(_) => [ItemSettingChanged]
        case FirstNumberPicked(n) => [FirstBadgeNumberChanged(n)]
        case _ => [];
      head + EditModeSignals(es[1..])
  }

  /** The signals the same events emit outside edit mode: only the first number is passed on. */
  function DefaultsModeSignals(es: seq<Event>): seq<Signal>
  {
    if es == [] then []
    else
      var head := if es[0].FirstNumberPicked? then [FirstBadgeNumberChanged(es[0].number)] else [];
      head + DefaultsModeSignals(es[1..])
  }

  /** One setting change in edit mode: forwarded to the item, configuration untouched. */
  lemma EditModeSettingStep(s: State, e: Event)
    requires Valid(s) && s.editExisting && IsSettingEvent(e)
    ensures Dispatch(s, e).editExisting
    ensures Dispatch(s, e).config == s.config
    ensures Dispatch(s, e).log == s.log + EditModeSignals([e])
    ensures Dispatch(s, e).panel.tool == s.panel.tool
    ensures Dispatch(s, e).configuratorTool == s.configuratorTool
  {
  }

  /**
   * While an item is edited, no setting change reaches the configuration:
   * each is forwarded to the item instead, and the panel stays in edit mode.
   */
  lemma {:induction false} EditSessionLeavesConfig(s: State, es: seq<Event>)
    requires Valid(s) && s.editExisting
    requires forall i :: 0 <= i < |es| ==> IsSettingEvent(es[i])
    ensures Run(s, es).editExisting
    ensures Run(s, es).config == s.config
    ensures Run(s, es).log == s.log + EditModeSignals(es)
    ensures Run(s, es).panel.tool == s.panel.tool && Run(s, es).configuratorTool == s.configuratorTool
    decreases |es|
  {
    if es != [] {
      EditModeSettingStep(s, es[0]);
      var s1 := Dispatch(s, es[0]);
      assert Run(s, es) == Run(s1, es[1..]);
      EditSessionLeavesConfig(s1, es[1..]);
      assert EditModeSignals(es) == EditModeSignals([es[0]]) + EditModeSignals(es[1..]);
    }
  }

  /** One setting change outside edit mode: at most the shown tool's defaults or the blur radius change. */
  lemma DefaultsModeSettingStep(s: State, e: Event)
    requires Valid(s) && !s.editExisting && IsSettingEvent(e)
    ensures !Dispatch(s, e).editExisting
    ensures Dispatch(s, e).panel.tool == s.panel.tool
    ensures Dispatch(s, e).config.selectedTool == s.config.selectedTool
    ensures forall u :: u != s.panel.tool ==> Dispatch(s, e).config.styles[u] == s.config.styles[u]
    ensures Dispatch(s, e).log == s.log + DefaultsModeSignals([e])
  {
  }

  /**
   * Outside edit mode, setting changes write only the defaults of the tool
   * the tool picker shows, never the selected tool, and notify no item.
   */
  lemma {:induction false} DefaultsSessionWritesOnlyShownTool(s: State, es: seq<Event>)
    requires Valid(s) && !s.editExisting
    requires forall i :: 0 <= i < |es| ==> IsSettingEvent(es[i])
    ensures !Run(s, es).editExisting
    ensures Run(s, es).panel.tool == s.panel.tool
    ensures Run(s, es).config.selectedTool == s.config.selectedTool
    ensures forall u :: u != s.panel.tool ==> Run(s, es).config.styles[u] == s.config.styles[u]
    ensures Run(s, es).log == s.log + DefaultsModeSignals(es)
    decreases |es|
  {
    if es != [] {
      DefaultsModeSettingStep(s, es[0]);
      var s1 := Dispatch(s, es[0]);
      DefaultsSessionWritesOnlyShownTool(s1, es[1..]);
      assert DefaultsModeSignals(es) == DefaultsModeSignals([es[0]]) + DefaultsModeSignals(es[1..]);
    }
  }

  lemma {:induction false} NoItemNotification(es: seq<Event>)
    ensures ItemSettingChanged !in DefaultsModeSignals(es)
    decreases |es|
  {
    if es != [] {
      NoItemNotification(es[1..]);
    }
  }

  /** Outside edit mode, no run of setting changes notifies the item. */
  lemma DefaultsSessionNotifiesNoItem(s: State, es: seq<Event>)
    requires Valid(s) && !s.editExisting
    requires forall i :: 0 <= i < |es| ==> IsSettingEvent(es[i])
    ensures forall k :: |s.log| <= k < |Run(s, es).log| ==> Run(s, es).log[k] != ItemSettingChanged
  {
    DefaultsSessionWritesOnlyShownTool(s, es);
    NoItemNotification(es);
    var r := Run(s, es);
    forall k | |s.log| <= k < |r.log| ensures r.log[k] != ItemSettingChanged {
      assert r.log[k] == DefaultsModeSignals(es)[k - |s.log|];
    }
  }

  /**
   * The panel shows the defaults it edits: not in edit mode, the tool picker,
   * the configurator and the configuration agree on the tool, and the style
   * and blur pickers show that tool's stored defaults.
   */
  ghost predicate ShowsDefaults(s: State)
    requires Valid(s)
  {
    && !s.editExisting
    && s.panel.tool == s.config.selectedTool
    && s.configuratorTool == Some(s.panel.tool)
    && StyleShown(s.panel) == s.config.styles[s.panel.tool]
    && s.panel.blurRadius == s.config.blurRadius
  }

  /** Choosing a tool in the tool picker brings the panel in line with that tool's defaults, from any state. */
  lemma ToolPickShowsDefaults(s: State, t: ToolType)
    requires Valid(s)
    ensures ShowsDefaults(Dispatch(s, ToolPicked(t)))
    ensures Dispatch(s, ToolPicked(t)).panel.tool == t
  {
  }

  /** Events that keep the panel in line with the defaults: all but editing an item and activating Select. */
  predicate KeepsDefaultsShown(e: Event)
  {
    !e.EditItemCalled? && !e.SelectToolActivated?
  }

  /**
   * Once the panel shows the defaults of its tool, it keeps doing so through
   * any events other than editing an item and activating the select tool:
   * each user choice is written to exactly the default the picker shows.
   */
  lemma {:induction false} DefaultsStayShown(s: State, es: seq<Event>)
    requires Valid(s) && ShowsDefaults(s)
    requires forall i :: 0 <= i < |es| ==> KeepsDefaultsShown(es[i])
    ensures ShowsDefaults(Run(s, es))
    decreases |es|
  {
    if es != [] {
      var s1 := Dispatch(s, es[0]);
      assert ShowsDefaults(s1) by {
        match es[0]
        case StylePicked(change) =>
          assert Apply(s.config.styles[s.panel.tool], change) == StyleShown(Picked(s.panel, es[0]));
        case _ =>
      }
      DefaultsStayShown(s1, es[1..]);
    }
  }

  /** An event that takes the panel out of edit mode. */
  predicate LeavesEditMode(e: Event)
  {
    e.ToolPicked? || e.SelectToolActivated?
  }

  /**
   * Edit mode after a run, described without running the machine: some item
   * was edited and no later event left edit mode, or the run started in edit
   * mode and no event left it.
   */
  ghost predicate EditingAfter(start: bool, es: seq<Event>)
  {
    || (exists i :: 0 <= i < |es| && es[i].EditItemCalled? && forall j :: i < j < |es| ==> !LeavesEditMode(es[j]))
    || (start && forall j :: 0 <= j < |es| ==> !LeavesEditMode(es[j]))
  }

  /** An event that neither edits an item nor leaves edit mode does not change `EditingAfter`. */
  lemma EditingAfterNeutral(start: bool, front: seq<Event>, e: Event)
    requires !e.EditItemCalled? && !LeavesEditMode(e)
    ensures EditingAfter(start, front + [e]) <==> EditingAfter(start, front)
  {
    var es := front + [e];
    var n := |front|;
    assert forall j :: 0 <= j < n ==> es[j] == front[j];
    if EditingAfter(start, es) {
      if i :| 0 <= i < |es| && es[i].EditItemCalled? && forall j :: i < j < |es| ==> !LeavesEditMode(es[j]) {
        assert i < n && front[i].EditItemCalled?;
      }
    }
    if EditingAfter(start, front) {
      if i :| 0 <= i < n && front[i].EditItemCalled? && forall j :: i < j < n ==> !LeavesEditMode(front[j]) {
        assert es[i].EditItemCalled?;
      }
    }
  }

  /** The panel is in edit mode after a run exactly when `EditingAfter` says so. */
  lemma {:induction false} EditModeCharacterised(s: State, es: seq<Event>)
    requires Valid(s)
    ensures Run(s, es).editExisting <==> EditingAfter(s.editExisting, es)
    decreases |es|
  {
    if es != [] {
      var n := |es| - 1;
      var front, e := es[..n], es[n];
      assert es == front + [e];
      RunSnoc(s, front, e);
      EditModeCharacterised(s, front);
      if e.EditItemCalled? {
        assert es[n].EditItemCalled?;
      } else if LeavesEditMode(e) {
        assert LeavesEditMode(es[n]);
      } else {
        EditingAfterNeutral(s.editExisting, front, e);
      }
    }
  }
}
