/**
 * The settings panel as the object it is: a class whose fields are the
 * edit-mode flag, the widget configurator's current tool, the value shown
 * by each picker and the signals emitted so far, holding a reference to the
 * shared configuration.
 *
 * Every method does what the corresponding member of the panel does, step
 * by step, and is proved to move the object from `old(Model())` to the
 * state the matching function of `SettingsSpec` describes; the routing
 * properties are stated and proved there.
 *
 * Picker setters are plain assignments of the picker field and emit
 * nothing. Configuration writes go through the setters of `Config`.
 */
module Annotator {
  import Types
  import opened Configuration
  import Spec = SettingsSpec

  class AnnotationSettings {
    const config: Config
    var editExistingItem: bool
    /** The tool the widget configurator was last told about; none before the first call. */
    var configuratorTool: Types.Option<Types.ToolType>
    var toolPicker: Types.ToolType
    var colorPicker: Types.Color
    var textColorPicker: Types.Color
    var widthPicker: int
    var fillTypePicker: Types.FillType
    var fontSizePicker: int
    var firstNumberPicker: int
    var blurRadiusPicker: int
    var stickerPicker: string
    /** The signals emitted so far, oldest first. */
    var emitted: seq<Types.Signal>

    ghost predicate Valid()
      reads this, config
    {
      config.Valid()
    }

    /** What the pickers show. */
    function Pickers(): Spec.Panel
      reads this
    {
      Spec.Panel(toolPicker, colorPicker, textColorPicker, widthPicker, fillTypePicker,
                 fontSizePicker, firstNumberPicker, blurRadiusPicker, stickerPicker)
    }

    ghost function Model(): Spec.State
      reads this, config
    {
      Spec.State(editExistingItem, configuratorTool, Pickers(), config.Snapshot(), emitted)
    }

    /**
     * A new panel over `config`. The pickers start with the values the freshly
     * built widgets hold (`widgets`); the tool picker then shows the
     * configuration's selected tool.
     */
    constructor (config: Config, widgets: Spec.Panel)
      requires config.Valid()
      ensures this.config == config && Valid()
      ensures !editExistingItem && ToolType() == config.selectedTool && emitted == []
      ensures Model() == Spec.LoadToolTypeFromConfig(Spec.State(false, Types.None, widgets, config.Snapshot(), []))
    {
      this.config := config;
      editExistingItem := false;
      configuratorTool := Types.None;
      toolPicker := widgets.tool;
      colorPicker := widgets.color;
      textColorPicker := widgets.textColor;
      widthPicker := widgets.width;
      fillTypePicker := widgets.fillType;
      fontSizePicker := widgets.fontSize;
      firstNumberPicker := widgets.firstNumber;
      blurRadiusPicker := widgets.blurRadius;
      stickerPicker := widgets.sticker;
      emitted := [];
      new;
      LoadToolTypeFromConfig();
    }

    method EditItem(item: Types.AnnotationItem)
      requires Valid()
      modifies this
      ensures Valid()
      ensures editExistingItem && ToolType() == Types.Select
      ensures Model() == Spec.EditItem(old(Model()), item)
    {
      ActivateSelectTool();
      LoadFromItem(item);
      editExistingItem := true;
    }

    method LoadFromItem(item: Types.AnnotationItem)
      requires Valid()
      modifies this
      ensures Valid()
      ensures Model() == Spec.LoadFromItem(old(Model()), item)
    {
      var properties := item.properties;
      configuratorTool := Types.Some(item.toolType);
      colorPicker := properties.color;
      textColorPicker := properties.textColor;
      widthPicker := properties.width;
      fillTypePicker := properties.fillType;
      if properties.kind.TextProperties? {
        fontSizePicker := properties.kind.fontPointSize;
      }
      if properties.kind.BlurProperties? {
        blurRadiusPicker := properties.kind.radius;
      }
    }

    method ActivateSelectTool()
      requires Valid()
      modifies this
      ensures Valid()
      ensures !editExistingItem && ToolType() == Types.Select && configuratorTool == Types.Some(Types.Select)
      ensures Model() == Spec.ActivateSelectTool(old(Model()))
    {
      editExistingItem := false;
      configuratorTool := Types.Some(Types.Select);
      toolPicker := Types.Select;
    }

    function ToolType(): Types.ToolType
      reads this
    {
      toolPicker
    }

    method LoadToolTypeFromConfig()
      requires Valid()
      modifies this
      ensures Valid()
      ensures Model() == Spec.LoadToolTypeFromConfig(old(Model()))
    {
      toolPicker := config.selectedTool;
    }

    method LoadFromConfig(tool: Types.ToolType)
      requires Valid()
      modifies this
      ensures Valid()
      ensures Model() == Spec.LoadFromConfig(old(Model()), tool)
    {
      configuratorTool := Types.Some(tool);
      colorPicker := config.styles[tool].color;
      textColorPicker := config.styles[tool].textColor;
      widthPicker := config.styles[tool].width;
      fillTypePicker := config.styles[tool].fillType;
      fontSizePicker := config.styles[tool].fontSize;
      blurRadiusPicker := config.blurRadius;
    }

    method ToolTypeChanged(toolType: Types.ToolType)
      requires Valid()
      modifies this, config
      ensures Valid()
      ensures !editExistingItem && config.selectedTool == toolType
      ensures emitted == old(emitted) + [Types.ToolChanged(toolType)]
      ensures Model() == Spec.ToolTypeChanged(old(Model()), toolType)
    {
      editExistingItem := false;
      config.SetSelectedToolType(toolType);
      if !editExistingItem {
        LoadFromConfig(toolType);
      }
      emitted := emitted + [Types.ToolChanged(toolType)];
    }

    method ToolColorChanged(color: Types.Color)
      requires Valid()
      modifies this, config
      ensures Valid()
      ensures old(editExistingItem) ==> emitted == old(emitted) + [Types.ItemSettingChanged] && config.Snapshot() == old(config.Snapshot())
      ensures !old(editExistingItem) ==> emitted == old(emitted) && toolPicker in config.styles && config.styles[toolPicker].color == color
      ensures Model() == Spec.ToolStyleChanged(old(Model()), ColorChange(color))
    {
      if editExistingItem {
        emitted := emitted + [Types.ItemSettingChanged];
      } else {
        config.SetToolColor(color, toolPicker);
      }
    }

    method ToolTextColorChanged(color: Types.Color)
      requires Valid()
      modifies this, config
      ensures Valid()
      ensures Model() == Spec.ToolStyleChanged(old(Model()), TextColorChange(color))
    {
      if editExistingItem {
        emitted := emitted + [Types.ItemSettingChanged];
      } else {
        config.SetToolTextColor(color, toolPicker);
      }
    }

    method ToolWidthChanged(size: int)
      requires Valid()
      modifies this, config
      ensures Valid()
      ensures Model() == Spec.ToolStyleChanged(old(Model()), WidthChange(size))
    {
      if editExistingItem {
        emitted := emitted + [Types.ItemSettingChanged];
      } else {
        config.SetToolWidth(size, toolPicker);
      }
    }

    method ToolFillTypeChanged(fill: Types.FillType)
      requires Valid()
      modifies this, config
      ensures Valid()
      ensures Model() == Spec.ToolStyleChanged(old(Model()), FillTypeChange(fill))
    {
      if editExistingItem {
        emitted := emitted + [Types.ItemSettingChanged];
      } else {
        config.SetToolFillType(fill, toolPicker);
      }
    }

    method ToolFontSizeChanged(size: int)
      requires Valid()
      modifies this, config
      ensures Valid()
      ensures Model() == Spec.ToolStyleChanged(old(Model()), FontSizeChange(size))
    {
      if editExistingItem {
        emitted := emitted + [Types.ItemSettingChanged];
      } else {
        config.SetToolFontSize(size, toolPicker);
      }
    }

    method SaveFirstBadgeNumber(number: int)
      requires Valid()
      modifies this
      ensures Valid()
      ensures Model() == Spec.SaveFirstBadgeNumber(old(Model()), number)
    {
      emitted := emitted + [Types.FirstBadgeNumberChanged(number)];
    }

    method BlurRadiusChanged(radius: int)
      requires Valid()
      modifies this, config
      ensures Valid()
      ensures Model() == Spec.BlurRadiusChanged(old(Model()), radius)
    {
      if editExistingItem {
        emitted := emitted + [Types.ItemSettingChanged];
      } else {
        config.SetBlurRadius(radius);
      }
    }

    method StickerChanged(sticker: string)
      requires Valid()
      modifies this
      ensures Valid()
      ensures Model() == Spec.StickerChanged(old(Model()), sticker)
    {
      if editExistingItem {
        emitted := emitted + [Types.ItemSettingChanged];
      }
    }

    function ToolColor(): Types.Color
      reads this
    {
      colorPicker
    }

    function TextColor(): Types.Color
      reads this
    {
      textColorPicker
    }

    function ToolWidth(): int
      reads this
    {
      widthPicker
    }

    function FillType(): Types.FillType
      reads this
    {
      fillTypePicker
    }

    function FontSize(): int
      reads this
    {
      fontSizePicker
    }

    function BlurRadius(): int
      reads this
    {
      blurRadiusPicker
    }

    function Sticker(): string
      reads this
    {
      stickerPicker
    }

    method UpdateFirstBadgeNumber(number: int)
      requires Valid()
      modifies this
      ensures Valid()
      ensures Model() == Spec.UpdateFirstBadgeNumber(old(Model()), number)
    {
      firstNumberPicker := number;
    }

    method ReloadConfig()
      requires Valid()
      modifies this
      ensures Valid()
      ensures ToolType() == config.selectedTool && editExistingItem == old(editExistingItem)
      ensures Model() == Spec.LoadToolTypeFromConfig(old(Model()))
    {
      LoadToolTypeFromConfig();
    }
  }
}
