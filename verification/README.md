# Settings routing of the kImageAnnotator settings panel

This project models `AnnotationSettings`, the side panel of the kImageAnnotator
editor. It holds a tool picker and pickers for colour, text colour, width,
fill type, font size, first badge number, blur radius and sticker.

One flag, `mEditExistingItem`, decides where a change made in the panel goes:

- In edit mode, the change is announced to the selected annotation item with
  an `itemSettingChanged` signal, and the configuration is not touched.
- Outside edit mode, the change becomes a stored default in the configuration.
  Colour, text colour, width, fill type and font size go to the entry of the
  tool the tool picker shows. The blur radius goes to one global entry.

`editItem` enters edit mode. `toolTypeChanged` and `activateSelectTool` leave
it. `reloadConfig` and `updateFirstBadgeNumber` only change what a picker
shows.

The model is in five modules:

- `Types` (types.dfy): tools, fill types, colours, the properties of an
  annotation item and the emitted signals. The tool and fill-type variants are
  the names in `translations/kImageAnnotator_ru.ts` (lines 135-143 and
  185-241). The enum files themselves are not part of this model.
- `Configuration` (configuration.dfy): the stored defaults, one `ToolStyle`
  per tool, the global blur radius and the selected tool. The class `Config`
  is the shared configuration object. Each of its setter methods
  (`SetToolColor`, …, `SetBlurRadius`, `SetSelectedToolType`) writes one stored
  entry and keeps every other one; the panel's slots call them.
- `SettingsSpec` (settings_spec.dfy): the panel as values. A `State` holds the
  flag, the widget configurator's current tool, what each picker shows, the
  configuration and the log of emitted signals. Each operation of the panel is
  one function, and its contract states the routing.
- `Sessions` (sessions.dfy): sequences of events. A user choice in a picker is
  modelled as the picker showing the value and then the slot it is connected
  to running (connections at `src/gui/annotator/AnnotationSettings.cpp:127-135`).
  Lemmas by induction state what whole edit sessions and default-editing
  sessions do. They also characterise exactly when the panel is in edit mode.
- `Annotator` (annotation_settings.dfy): the class `AnnotationSettings`. Its
  fields are the flag, the configurator's tool, one field per picker, the
  signal log and a reference to the `Config`. Each method follows the C++ body
  step by step. Each is proved to take `old(Model())` to the state the
  matching `SettingsSpec` function gives. The five style slots map to
  `ToolStyleChanged`. `ReloadConfig` and the constructor map to
  `LoadToolTypeFromConfig`.

The getters `toolType`, `toolColor`, `textColor`, `toolWidth`, `fillType`,
`fontSize`, `blurRadius` and `sticker` (lines 78-81 and 230-263) are the
class functions `ToolType`, `ToolColor`, `TextColor`, `ToolWidth`,
`FillType`, `FontSize`, `BlurRadius` and `Sticker`. They are plain field
reads of one picker each and carry no contract, so the table below has no
row for them.

Assumptions:

- Picker setters (`setColor`, `setNumber`, `setFillType`, `setTool`) are plain
  assignments of the picker's value. They emit no signal, so loading values
  into the pickers never re-enters a slot. Their implementations are not part
  of this model.
- The configuration's getters are plain reads of a stored entry, and its
  setters (`setToolColor`, …, `setBlurRadius`, `setSelectedToolType`) plain
  writes of one. The configuration holds an entry
  for every tool. Its implementation is not part of this model.
- The widget configurator's current tool is unset until the first
  `setCurrentTool` call (`Option` `None`). The constructor never sets it.
- The pickers' values right after `initGui` are a constructor parameter.

Observed behaviour the contracts make explicit:

- `toolTypeChanged` clears the flag one line before testing it. So the
  defaults for the new tool are always loaded, whatever the mode was before
  (`SettingsSpec.ToolTypeChanged`).
- `reloadConfig` during an edit leaves edit mode on. The tool picker then
  shows the configuration's selected tool rather than Select
  (`SettingsSpec.LoadToolTypeFromConfig`, `Sessions.EditModeCharacterised`).
- `activateSelectTool` does not reload the other pickers. Later default
  changes are written to the Select tool's entry
  (`Sessions.DefaultsSessionWritesOnlyShownTool`).

## Model

| member | source | states |
|---|---|---|
| `Configuration.Config.SetToolColor` | src/gui/annotator/AnnotationSettings.cpp:169 | only the given tool's stored colour changes; every other entry, the blur radius and the selected tool are kept |
| `Configuration.Config.SetToolTextColor` | src/gui/annotator/AnnotationSettings.cpp:178 | only the given tool's stored text colour changes; everything else is kept |
| `Configuration.Config.SetToolWidth` | src/gui/annotator/AnnotationSettings.cpp:187 | only the given tool's stored width changes; everything else is kept |
| `Configuration.Config.SetToolFillType` | src/gui/annotator/AnnotationSettings.cpp:196 | only the given tool's stored fill type changes; everything else is kept |
| `Configuration.Config.SetToolFontSize` | src/gui/annotator/AnnotationSettings.cpp:205 | only the given tool's stored font size changes; everything else is kept |
| `Configuration.Config.SetBlurRadius` | src/gui/annotator/AnnotationSettings.cpp:219 | only the global blur radius changes |
| `Configuration.Config.SetSelectedToolType` | src/gui/annotator/AnnotationSettings.cpp:157 | only the selected tool changes |
| `Annotator.AnnotationSettings.constructor` | src/gui/annotator/AnnotationSettings.cpp:24-30 | a new panel is not in edit mode, has emitted nothing, and its tool picker shows the configuration's selected tool |
| `Annotator.AnnotationSettings.EditItem` | src/gui/annotator/AnnotationSettings.cpp:46-51 | afterwards edit mode is on and `ToolType()` is Select; the new state is `SettingsSpec.EditItem` of the old |
| `Annotator.AnnotationSettings.LoadFromItem` | src/gui/annotator/AnnotationSettings.cpp:53-69 | the new state is `SettingsSpec.LoadFromItem` of the old |
| `Annotator.AnnotationSettings.ActivateSelectTool` | src/gui/annotator/AnnotationSettings.cpp:71-76 | edit mode off, configurator and tool picker both on Select, nothing else changed |
| `Annotator.AnnotationSettings.LoadToolTypeFromConfig` | src/gui/annotator/AnnotationSettings.cpp:138-141 | the new state is `SettingsSpec.LoadToolTypeFromConfig` of the old |
| `Annotator.AnnotationSettings.LoadFromConfig` | src/gui/annotator/AnnotationSettings.cpp:143-152 | the new state is `SettingsSpec.LoadFromConfig` of the old |
| `Annotator.AnnotationSettings.ToolTypeChanged` | src/gui/annotator/AnnotationSettings.cpp:154-162 | edit mode off, the configuration's selected tool is the new tool, `toolChanged` appended to the emitted signals |
| `Annotator.AnnotationSettings.ToolColorChanged` | src/gui/annotator/AnnotationSettings.cpp:164-171 | in edit mode: `itemSettingChanged` emitted and configuration unchanged; otherwise nothing emitted and the shown tool's stored colour is the new colour |
| `Annotator.AnnotationSettings.ToolTextColorChanged` | src/gui/annotator/AnnotationSettings.cpp:173-180 | the new state is `SettingsSpec.ToolStyleChanged` with a text-colour change |
| `Annotator.AnnotationSettings.ToolWidthChanged` | src/gui/annotator/AnnotationSettings.cpp:182-189 | the new state is `SettingsSpec.ToolStyleChanged` with a width change |
| `Annotator.AnnotationSettings.ToolFillTypeChanged` | src/gui/annotator/AnnotationSettings.cpp:191-198 | the new state is `SettingsSpec.ToolStyleChanged` with a fill-type change |
| `Annotator.AnnotationSettings.ToolFontSizeChanged` | src/gui/annotator/AnnotationSettings.cpp:200-207 | the new state is `SettingsSpec.ToolStyleChanged` with a font-size change |
| `Annotator.AnnotationSettings.SaveFirstBadgeNumber` | src/gui/annotator/AnnotationSettings.cpp:209-212 | the new state is `SettingsSpec.SaveFirstBadgeNumber` of the old |
| `Annotator.AnnotationSettings.BlurRadiusChanged` | src/gui/annotator/AnnotationSettings.cpp:214-221 | the new state is `SettingsSpec.BlurRadiusChanged` of the old |
| `Annotator.AnnotationSettings.StickerChanged` | src/gui/annotator/AnnotationSettings.cpp:223-228 | the new state is `SettingsSpec.StickerChanged` of the old |
| `Annotator.AnnotationSettings.UpdateFirstBadgeNumber` | src/gui/annotator/AnnotationSettings.cpp:265-268 | the new state is `SettingsSpec.UpdateFirstBadgeNumber` of the old |
| `Annotator.AnnotationSettings.ReloadConfig` | src/gui/annotator/AnnotationSettings.cpp:270-273 | the tool picker shows the configuration's selected tool; edit mode is kept as it was |
| `SettingsSpec.ActivateSelectTool` | src/gui/annotator/AnnotationSettings.cpp:71-76 | edit mode off; configurator and tool picker on Select; other pickers, configuration and signals unchanged |
| `SettingsSpec.LoadFromItem` | src/gui/annotator/AnnotationSettings.cpp:53-69 | colour, text colour, width and fill pickers show the item's values; font size changes only for text properties and blur radius only for blur properties, otherwise both keep their values; the configurator gets the item's tool; mode, configuration and signals unchanged |
| `SettingsSpec.EditItem` | src/gui/annotator/AnnotationSettings.cpp:46-51 | edit mode on; tool picker shows Select; configurator on the item's tool; colour, text colour, width and fill pickers hold the item's values; font size taken only from text properties and blur radius only from blur properties, each otherwise kept; first-number and sticker pickers kept; configuration and signals unchanged |
| `SettingsSpec.LoadToolTypeFromConfig` | src/gui/annotator/AnnotationSettings.cpp:138-141 | only the tool picker changes, to the configuration's selected tool; edit mode and every other picker are kept |
| `SettingsSpec.LoadFromConfig` | src/gui/annotator/AnnotationSettings.cpp:143-152 | the style pickers show the stored defaults of the given tool and the blur picker the global radius; the configurator gets the tool; tool picker, mode, configuration and signals unchanged |
| `SettingsSpec.ToolTypeChanged` | src/gui/annotator/AnnotationSettings.cpp:154-162 | whatever the previous mode: edit mode off, the new tool stored as selected, the stored defaults for it and the global blur radius loaded, `toolChanged(tool)` emitted, no stored default changed |
| `SettingsSpec.ToolStyleChanged` | src/gui/annotator/AnnotationSettings.cpp:164-207 | in edit mode: `itemSettingChanged` emitted and configuration unchanged; otherwise nothing emitted, the shown tool's entry gets the new value, every other tool's entry, the blur radius and the selected tool unchanged; pickers and mode never change |
| `SettingsSpec.BlurRadiusChanged` | src/gui/annotator/AnnotationSettings.cpp:214-221 | in edit mode: `itemSettingChanged` emitted and configuration unchanged; otherwise nothing emitted and only the global blur radius changes |
| `SettingsSpec.StickerChanged` | src/gui/annotator/AnnotationSettings.cpp:223-228 | the configuration is never written; `itemSettingChanged` is emitted exactly in edit mode |
| `SettingsSpec.SaveFirstBadgeNumber` | src/gui/annotator/AnnotationSettings.cpp:209-212 | in both modes the number is emitted unchanged as `firstBadgeNumberChanged`, and nothing else changes |
| `SettingsSpec.UpdateFirstBadgeNumber` | src/gui/annotator/AnnotationSettings.cpp:265-268 | only the first-number picker changes; nothing is emitted |
| `Sessions.Dispatch` | src/gui/annotator/AnnotationSettings.cpp:127-135 | a picker choice followed by its connected slot, or a host call, keeps an entry for every tool in the configuration |
| `Sessions.Run` | src/gui/annotator/AnnotationSettings.cpp:127-135 | any sequence of events keeps an entry for every tool in the configuration |
| `Sessions.EditModeSettingStep` | src/gui/annotator/AnnotationSettings.cpp:164-228 | one setting change in edit mode keeps edit mode, the tool and the configuration, and emits the edit-mode signal for it |
| `Sessions.EditSessionLeavesConfig` | src/gui/annotator/AnnotationSettings.cpp:164-228 | a whole run of setting changes in edit mode leaves the configuration as it was, stays in edit mode, and emits one `itemSettingChanged` per style, blur or sticker change, with first numbers passed on |
| `Sessions.DefaultsModeSettingStep` | src/gui/annotator/AnnotationSettings.cpp:164-221 | one setting change outside edit mode writes at most the shown tool's entry and the blur radius |
| `Sessions.DefaultsSessionWritesOnlyShownTool` | src/gui/annotator/AnnotationSettings.cpp:164-221 | a whole run of setting changes outside edit mode leaves every other tool's stored defaults and the selected tool unchanged, stays out of edit mode, and emits only the first numbers |
| `Sessions.DefaultsSessionNotifiesNoItem` | src/gui/annotator/AnnotationSettings.cpp:164-228 | outside edit mode, no run of setting changes emits `itemSettingChanged` |
| `Sessions.ToolPickShowsDefaults` | src/gui/annotator/AnnotationSettings.cpp:154-162 | from any state, choosing a tool leaves the panel out of edit mode and showing exactly that tool's stored defaults |
| `Sessions.DefaultsStayShown` | src/gui/annotator/AnnotationSettings.cpp:138-228 | once the pickers show the stored defaults of the shown tool, they keep doing so through any events other than editing an item and activating Select |
| `Sessions.EditModeCharacterised` | src/gui/annotator/AnnotationSettings.cpp:46-162 | after any run the panel is in edit mode if and only if some item was edited with no later tool choice or Select activation, or the run began in edit mode and contains neither |

## Left out

- Widget construction, layout, icons, translated strings and the signal/slot
  connections of `initGui` (lines 83-136). The values the fresh pickers show
  are a constructor parameter instead. The connections are used only as the
  picker-to-slot pairing in `Sessions.Dispatch`.
- The destructor (lines 32-44): it only frees widgets.
- `setStickers` (lines 275-278): it only forwards a list of paths to the
  sticker picker, whose implementation is not part of this model.
- Picker range clamping (font size 10-40, first number 1-100, blur radius
  1-20, lines 92, 95 and 97): it happens inside the number picker, which is not
  part of this model. Handler arguments are unconstrained integers.
- `QColor` and `QString` internals: a colour is an opaque ARGB value and a
  sticker a string. The dynamic casts to text and blur properties are modelled
  as a tag on the item's properties.
- What the widget configurator does with its current tool (showing or hiding
  pickers per tool). Only the tool it was last given is kept.
- Delivery of signals to listeners: the model keeps the emitted signals as an
  append-only log. What the annotation area does with them is outside the
  panel.
- Persistence and sharing of the configuration. Changes made to it by other
  components are not modelled as events. `ReloadConfig` reads whatever the
  shared `Config` object holds.
- `src/annotations/core/AnnotationArea.h`, `src/widgets/FillPicker.h` and
  `src/gui/cropper/CropHandles.h` hold only declarations; no behaviour of them
  is modelled. `translations/kImageAnnotator_ru.ts` holds only strings.
