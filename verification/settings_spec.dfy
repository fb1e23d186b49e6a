/**
 * The settings panel as a state machine on values.
 *
 * A `State` holds the edit-mode flag, the current tool of the widget
 * configurator, what each picker shows, the configuration and the signals
 * emitted so far. Each function below is one operation of the panel; its
 * contract says which part of the state it changes, which configuration
 * entries it writes and whether it emits a signal.
 *
 * Picker setters (`setColor`, `setNumber`, `setTool`, ...) are plain
 * assignments of the picker's value: they emit nothing.
 */
module SettingsSpec {
  import opened Types
  import opened Configuration

  /** What the pickers of the panel show. */
  datatype Panel = Panel(
    tool: ToolType,
    color: Color,
    textColor: Color,
    width: int,
    fillType: FillType,
    fontSize: int,
    firstNumber: int,
    blurRadius: int,
    sticker: string)

  /** The per-tool part of what the pickers show. */
  function StyleShown(p: Panel): ToolStyle
  {
    ToolStyle(p.color, p.textColor, p.width, p.fillType, p.fontSize)
  }

  datatype State = State(
    editExisting: bool,
    configuratorTool: Option<ToolType>,
    panel: Panel,
    config: ConfigState,
    log: seq<Signal>)

  ghost predicate Valid(s: State)
  {
    Total(s.config.styles)
  }

  /** Leave edit mode and put both the configurator and the tool picker on Select. */
  function ActivateSelectTool(s: State): (r: State)
    ensures !r.editExisting
    ensures r.configuratorTool == Some(Select)
    ensures r.panel == s.panel.(tool := Select)
    ensures r.config == s.config && r.log == s.log
  {
    s.(editExisting := false, configuratorTool := Some(Select), panel := s.panel.(tool := Select))
  }

  /**
   * Show the item's properties in the pickers. The font size is loaded only
   * from text properties and the blur radius only from blur properties.
   */
  function LoadFromItem(s: State, item: AnnotationItem): (r: State)
    ensures r.configuratorTool == Some(item.toolType)
    ensures r.panel.color == item.properties.color && r.panel.textColor == item.properties.textColor
    ensures r.panel.width == item.properties.width && r.panel.fillType == item.properties.fillType
    ensures item.properties.kind.TextProperties? ==> r.panel.fontSize == item.properties.kind.fontPointSize
    ensures !item.properties.kind.TextProperties? ==> r.panel.fontSize == s.panel.fontSize
    ensures item.properties.kind.BlurProperties? ==> r.panel.blurRadius == item.properties.kind.radius
    ensures !item.properties.kind.BlurProperties? ==> r.panel.blurRadius == s.panel.blurRadius
    ensures r.panel.tool == s.panel.tool && r.panel.firstNumber == s.panel.firstNumber
    ensures r.panel.sticker == s.panel.sticker
    ensures r.editExisting == s.editExisting && r.config == s.config && r.log == s.log
  {
    var props := item.properties;
    var p := s.panel.(color := props.color, textColor := props.textColor,
                      width := props.width, fillType := props.fillType);
    var p := if props.kind.TextProperties? then p.(fontSize := props.kind.fontPointSize) else p;
    var p := if props.kind.BlurProperties? then p.(blurRadius := props.kind.radius) else p;
    s.(configuratorTool := Some(item.toolType), panel := p)
  }

  /**
   * Start editing an existing item: the tool picker shows Select, the other
   * pickers show the item's properties, and edit mode is on.
   */
  function EditItem(s: State, item: AnnotationItem): (r: State)
    ensures r.editExisting
    ensures r.panel.tool == Select
    ensures r.configuratorTool == Some(item.toolType)
    ensures r.panel.color == item.properties.color && r.panel.textColor == item.properties.textColor
    ensures r.panel.width == item.properties.width && r.panel.fillType == item.properties.fillType
    ensures item.properties.kind.TextProperties? ==> r.panel.fontSize == item.properties.kind.fontPointSize
    ensures !item.properties.kind.TextProperties? ==> r.panel.fontSize == s.panel.fontSize
    ensures item.properties.kind.BlurProperties? ==> r.panel.blurRadius == item.properties.kind.radius
    ensures !item.properties.kind.BlurProperties? ==> r.panel.blurRadius == s.panel.blurRadius
    ensures r.panel.firstNumber == s.panel.firstNumber && r.panel.sticker == s.panel.sticker
    ensures r.config == s.config && r.log == s.log
  {
    LoadFromItem(ActivateSelectTool(s), item).(editExisting := true)
  }

  /** Put the tool picker on the configuration's selected tool; nothing else changes. */
  function LoadToolTypeFromConfig(s: State): (r: State)
    ensures r.panel == s.panel.(tool := s.config.selectedTool)
    ensures r.editExisting == s.editExisting && r.configuratorTool == s.configuratorTool
    ensures r.config == s.config && r.log == s.log
  {
    s.(panel := s.panel.(tool := s.config.selectedTool))
  }

  /**
   * Show the configuration's defaults for `tool`: its per-tool style and the
   * global blur radius.
   */
  function LoadFromConfig(s: State, tool: ToolType): (r: State)
    requires Valid(s)
    ensures r.configuratorTool == Some(tool)
    ensures StyleShown(r.panel) == s.config.styles[tool]
    ensures r.panel.blurRadius == s.config.blurRadius
    ensures r.panel.tool == s.panel.tool && r.panel.firstNumber == s.panel.firstNumber
    ensures r.panel.sticker == s.panel.sticker
    ensures r.editExisting == s.editExisting && r.config == s.config && r.log == s.log
  {
    var st := s.config.styles[tool];
    var p := s.panel.(color := st.color, textColor := st.textColor, width := st.width,
                      fillType := st.fillType, fontSize := st.fontSize,
                      blurRadius := s.config.blurRadius);
    s.(configuratorTool := Some(tool), panel := p)
  }

  /**
   * The slot for the tool picker. It clears edit mode before it tests it, so
   * the defaults for `tool` are loaded whatever the mode was before.
   */
  function ToolTypeChanged(s: State, tool: ToolType): (r: State)
    requires Valid(s)
    ensures Valid(r)
    ensures !r.editExisting
    ensures r.config == s.config.(selectedTool := tool)
    ensures r.configuratorTool == Some(tool)
    ensures StyleShown(r.panel) == s.config.styles[tool]
    ensures r.panel.blurRadius == s.config.blurRadius
    ensures r.panel.tool == s.panel.tool && r.panel.firstNumber == s.panel.firstNumber
    ensures r.panel.sticker == s.panel.sticker
    ensures r.log == s.log + [ToolChanged(tool)]
  {
    var s1 := s.(editExisting := false, config := s.config.(selectedTool := tool));
    var s2 := if !s1.editExisting then LoadFromConfig(s1, tool) else s1;
    s2.(log := s2.log + [ToolChanged(tool)])
  }

  /**
   * The slots for colour, text colour, width, fill type and font size. In
   * edit mode the change is forwarded to the item and the configuration is
   * left alone; otherwise it becomes the default of the tool the tool picker
   * shows, and the defaults of every other tool stay as they were.
   */
  function ToolStyleChanged(s: State, change: StyleChange): (r: State)
    requires Valid(s)
    ensures Valid(r)
    ensures r.editExisting == s.editExisting && r.configuratorTool == s.configuratorTool
    ensures r.panel == s.panel
    ensures s.editExisting ==> r.config == s.config && r.log == s.log + [ItemSettingChanged]
    ensures !s.editExisting ==> r.log == s.log
    ensures !s.editExisting ==> r.config.styles[s.panel.tool] == Apply(s.config.styles[s.panel.tool], change)
    ensures forall u :: u != s.panel.tool ==> r.config.styles[u] == s.config.styles[u]
    ensures r.config.blurRadius == s.config.blurRadius && r.config.selectedTool == s.config.selectedTool
  {
    if s.editExisting then
      s.(log := s.log + [ItemSettingChanged])
    else
      var tool := s.panel.tool;
      var styles := s.config.styles[tool := Apply(s.config.styles[tool], change)];
      s.(config := s.config.(styles := styles))
  }

  /**
   * The slot for the blur radius: forwarded to the item in edit mode,
   * otherwise stored as the one global blur radius.
   */
  function BlurRadiusChanged(s: State, radius: int): (r: State)
    ensures r.editExisting == s.editExisting && r.configuratorTool == s.configuratorTool
    ensures r.panel == s.panel
    ensures s.editExisting ==> r.config == s.config && r.log == s.log + [ItemSettingChanged]
    ensures !s.editExisting ==> r.config == s.config.(blurRadius := radius) && r.log == s.log
  {
    if s.editExisting then
      s.(log := s.log + [ItemSettingChanged])
    else
      s.(config := s.config.(blurRadius := radius))
  }

  /** The slot for the sticker: never written to the configuration, forwarded only in edit mode. */
  function StickerChanged(s: State, sticker: string): (r: State)
    ensures r.editExisting == s.editExisting && r.configuratorTool == s.configuratorTool
    ensures r.panel == s.panel && r.config == s.config
    ensures s.editExisting ==> r.log == s.log + [ItemSettingChanged]
    ensures !s.editExisting ==> r.log == s.log
  {
    if s.editExisting then s.(log := s.log + [ItemSettingChanged]) else s
  }

  /** The slot for the first-number picker: the number is passed on unchanged in both modes. */
  function SaveFirstBadgeNumber(s: State, number: int): (r: State)
    ensures r.log == s.log + [FirstBadgeNumberChanged(number)]
    ensures r.editExisting == s.editExisting && r.configuratorTool == s.configuratorTool
    ensures r.panel == s.panel && r.config == s.config
  {
    s.(log := s.log + [FirstBadgeNumberChanged(number)])
  }

  /** The host shows a new first badge number; nothing is emitted. */
  function UpdateFirstBadgeNumber(s: State, number: int): (r: State)
    ensures r.panel == s.panel.(firstNumber := number)
    ensures r.editExisting == s.editExisting && r.configuratorTool == s.configuratorTool
    ensures r.config == s.config && r.log == s.log
  {
    s.(panel := s.panel.(firstNumber := number))
  }
}
