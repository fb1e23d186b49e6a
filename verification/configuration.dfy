/**
 * The persisted configuration the settings panel reads its defaults from
 * and writes them to: per-tool style defaults, one global blur radius and
 * the tool that was last selected.
 *
 * Only the entries the panel touches are modelled. The configuration's
 * setters are plain writes of the stored value; each says which entry it
 * changes.
 */
module Configuration {
  import opened Types

  /** The defaults the configuration keeps for each tool. */
  datatype ToolStyle = ToolStyle(
    color: Color,
    textColor: Color,
    width: int,
    fillType: FillType,
    fontSize: int)

  /** One per-tool default, as the panel writes it: which entry, and its new value. */
  datatype StyleChange =
    | ColorChange(color: Color)
    | TextColorChange(textColor: Color)
    | WidthChange(width: int)
    | FillTypeChange(fillType: FillType)
    | FontSizeChange(fontSize: int)

  /** The style `st` with the one entry named by `change` replaced. */
  function Apply(st: ToolStyle, change: StyleChange): ToolStyle
  {
    match change
    case ColorChange(c) => st.(color := c)
    case TextColorChange(c) => st.(textColor := c)
    case WidthChange(w) => st.(width := w)
    case FillTypeChange(f) => st.(fillType := f)
    case FontSizeChange(n) => st.(fontSize := n)
  }

  /** The configuration answers for every tool. */
  ghost predicate Total(styles: map<ToolType, ToolStyle>)
  {
    forall t: ToolType :: t in styles
  }

  /** The value of a configuration at one moment. */
  datatype ConfigState = ConfigState(
    styles: map<ToolType, ToolStyle>,
    blurRadius: int,
    selectedTool: ToolType)

  /** The configuration object, shared by reference with the rest of the editor. */
  class Config {
    var styles: map<ToolType, ToolStyle>
    var blurRadius: int
    var selectedTool: ToolType

    ghost predicate Valid()
      reads this
    {
      Total(styles)
    }

    function Snapshot(): ConfigState
      reads this
    {
      ConfigState(styles, blurRadius, selectedTool)
    }

    /** Store `color` as the color default of `tool`; every other entry is kept. */
    method SetToolColor(color: Color, tool: ToolType)
      requires Valid()
      modifies this
      ensures Valid()
      ensures styles == old(styles)[tool := old(styles)[tool].(color := color)]
      ensures blurRadius == old(blurRadius) && selectedTool == old(selectedTool)
    {
      styles := styles[tool := styles[tool].(color := color)];
    }

    /** Store `color` as the textColor default of `tool`; every other entry is kept. */
    method SetToolTextColor(color: Color, tool: ToolType)
      requires Valid()
      modifies this
      ensures Valid()
      ensures styles == old(styles)[tool := old(styles)[tool].(textColor := color)]
      ensures blurRadius == old(blurRadius) && selectedTool == old(selectedTool)
    {
      styles := styles[tool := styles[tool].(textColor := color)];
    }

    /** Store `size` as the width default of `tool`; every other entry is kept. */
    method SetToolWidth(size: int, tool: ToolType)
      requires Valid()
      modifies this
      ensures Valid()
      ensures styles == old(styles)[tool := old(styles)[tool].(width := size)]
      ensures blurRadius == old(blurRadius) && selectedTool == old(selectedTool)
    {
      styles := styles[tool := styles[tool].(width := size)];
    }

    /** Store `fill` as the fillType default of `tool`; every other entry is kept. */
    method SetToolFillType(fill: FillType, tool: ToolType)
      requires Valid()
      modifies this
      ensures Valid()
      ensures styles == old(styles)[tool := old(styles)[tool].(fillType := fill)]
      ensures blurRadius == old(blurRadius) && selectedTool == old(selectedTool)
    {
      styles := styles[tool := styles[tool].(fillType := fill)];
    }

    /** Store `size` as the fontSize default of `tool`; every other entry is kept. */
    method SetToolFontSize(size: int, tool: ToolType)
      requires Valid()
      modifies this
      ensures Valid()
      ensures styles == old(styles)[tool := old(styles)[tool].(fontSize := size)]
      ensures blurRadius == old(blurRadius) && selectedTool == old(selectedTool)
    {
      styles := styles[tool := styles[tool].(fontSize := size)];
    }

    /** Store the one global blur radius; the per-tool entries and the selected tool are kept. */
    method SetBlurRadius(radius: int)
      modifies this
      ensures blurRadius == radius
      ensures styles == old(styles) && selectedTool == old(selectedTool)
    {
      blurRadius := radius;
    }

    /** Store the selected tool; the stored defaults are kept. */
    method SetSelectedToolType(tool: ToolType)
      modifies this
      ensures selectedTool == tool
      ensures styles == old(styles) && blurRadius == old(blurRadius)
    {
      selectedTool := tool;
    }
  }
}
