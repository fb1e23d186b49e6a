/**
 * Value types shared by the settings panel of the annotation editor:
 * tools, fill modes, colours, the style properties an annotation item
 * carries, and the signals the panel emits.
 */
module Types {

  datatype Option<+T> = None | Some(value: T)

  /** The tools offered by the tool picker. Only `Select` is singled out by the panel's logic. */
  datatype ToolType =
    | Select
    | Pen
    | Number
    | MarkerRect
    | MarkerEllipse
    | MarkerPen
    | Text
    | Arrow
    | DoubleArrow
    | Line
    | Blur
    | Rect
    | Ellipse
    | NumberPointer
    | Sticker

  /** Border and fill visibility of a shape. */
  datatype FillType = BorderAndFill | BorderAndNoFill | NoBorderAndNoFill

  /** A colour, treated as an opaque ARGB value. */
  datatype Color = Argb(value: nat)

  /**
   * The kind of an item's property record: plain, text properties (which add
   * a font) or blur properties (which add a radius).
   */
  datatype PropertiesKind =
    | Plain
    | TextProperties(fontPointSize: int)
    | BlurProperties(radius: int)

  datatype ItemProperties = ItemProperties(
    color: Color,
    textColor: Color,
    width: int,
    fillType: FillType,
    kind: PropertiesKind)

  /** The part of an annotation item the settings panel reads: its tool and its properties. */
  datatype AnnotationItem = AnnotationItem(toolType: ToolType, properties: ItemProperties)

  /** The signals the settings panel emits towards the annotation area. */
  datatype Signal =
    | ItemSettingChanged
    | ToolChanged(tool: ToolType)
    | FirstBadgeNumberChanged(number: int)
}
