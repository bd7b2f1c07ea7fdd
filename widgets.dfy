/**
 * PDF form widgets as the PDF library describes them, the classifier that
 * maps an existing widget to one of the builder's six field kinds, and the
 * per-kind widget configuration written when the form is saved.
 */
module Widgets {
  import opened Wrappers
  import opened Geometry
  import opened Fields

  /** The widget types the classifier distinguishes; every other type is `OtherWidget`. */
  datatype WidgetKind =
    | TextWidget | CheckBoxWidget | RadioButtonWidget | ComboBoxWidget | ListBoxWidget | OtherWidget

  /** Field flag bit 13 of a text field: the text may span several lines. */
  const FLAG_MULTILINE: bv32 := 0x1000
  /** Field flag bit 25 of a text field: the text is laid out in equal cells. */
  const FLAG_COMB: bv32 := 0x100_0000

  /** A multiline text widget taller than this many points is a text area. */
  const TEXTAREA_MIN_HEIGHT: real := 50.0

  /**
   * An existing widget as read from a page. Attributes that the library may
   * report as absent are `Option`s: `flags` is `None` when the widget has no
   * flags attribute at all, and a colour is `None` when it is absent or an
   * empty list (both test false).
   */
  datatype Widget = Widget(
    kind: WidgetKind,
    flags: Option<bv32>,
    rect: Rect,
    fieldName: Option<string>,
    borderColor: Option<Rgb>,
    fillColor: Option<Rgb>,
    borderWidth: Option<real>,
    fontSize: Option<real>,
    textColor: Option<Rgb>,
    textMaxLen: Option<int>)

  /** Whether `bit` is set in the flags word; a missing flags attribute counts as 0. */
  predicate HasFlag(flags: Option<bv32>, bit: bv32): (b: bool)
    ensures flags.None? ==> !b
    ensures b ==> flags.Some? && flags.value & bit != 0
    ensures !b ==> flags.None? || flags.value & bit == 0
  {
    match flags
    case None => false
    case Some(f) => f & bit != 0
  }

  /**
   * The field kind of an existing widget. For a text widget the comb flag
   * wins over the multiline flag, and a multiline widget is a text area only
   * when it is strictly taller than 50 points. Combo boxes become single-line
   * text, list boxes text areas, and unknown types single-line text.
   */
  function Classify(w: Widget): (t: FieldType)
    ensures t == Comb <==> w.kind == TextWidget && HasFlag(w.flags, FLAG_COMB)
    ensures t == Multiline <==>
      && w.kind == TextWidget && !HasFlag(w.flags, FLAG_COMB) && HasFlag(w.flags, FLAG_MULTILINE)
      && Height(w.rect) <= TEXTAREA_MIN_HEIGHT
    ensures t == Textarea <==>
      || w.kind == ListBoxWidget
      || (&& w.kind == TextWidget && !HasFlag(w.flags, FLAG_COMB) && HasFlag(w.flags, FLAG_MULTILINE)
          && Height(w.rect) > TEXTAREA_MIN_HEIGHT)
    ensures t == Checkbox <==> w.kind == CheckBoxWidget
    ensures t == Radio <==> w.kind == RadioButtonWidget
    ensures t == Text <==>
      || w.kind in {ComboBoxWidget, OtherWidget}
      || (w.kind == TextWidget && !HasFlag(w.flags, FLAG_COMB) && !HasFlag(w.flags, FLAG_MULTILINE))
  {
    match w.kind
    case TextWidget =>
      if HasFlag(w.flags, FLAG_COMB) then Comb
      else if HasFlag(w.flags, FLAG_MULTILINE) then
        (if Height(w.rect) > TEXTAREA_MIN_HEIGHT then Textarea else Multiline)
      else Text
    case CheckBoxWidget => Checkbox
    case RadioButtonWidget => Radio
    case ComboBoxWidget => Text
    case ListBoxWidget => Textarea
    case OtherWidget => Text
  }

  /**
   * A widget as configured for saving, on the page it is attached to.
   * `None` in `flags`, `textMaxLen` or `fieldValue` means the save code
   * leaves that attribute unassigned.
   */
  datatype ExportedWidget = ExportedWidget(
    page: nat,
    fieldName: string,
    rect: Rect,
    borderWidth: real,
    borderColor: Rgb,
    fillColor: Rgb,
    textFont: string,
    fontSize: real,
    textColor: Rgb,
    kind: WidgetKind,
    flags: Option<bv32>,
    textMaxLen: Option<int>,
    fieldValue: Option<string>)

  /**
   * The widget saved for a field: name, rectangle, appearance and the
   * Helvetica font from the field, and a type-specific part.
   */
  function ExportField(f: FormField): (e: ExportedWidget)
    ensures e.page == f.pageNum && e.fieldName == f.name && e.rect == f.rect
    ensures e.borderWidth == f.style.borderWidth && e.fontSize == f.style.fontSize
    ensures e.borderColor == f.style.borderColor && e.fillColor == f.style.fillColor
    ensures e.textColor == f.style.fontColor && e.textFont == "helv"
    ensures e.kind == (match f.fieldType
                       case Checkbox => CheckBoxWidget
                       case Radio => RadioButtonWidget
                       case _ => TextWidget)
    ensures e.kind == TextWidget <==> e.textMaxLen.Some?
    ensures e.kind == TextWidget <==> e.fieldValue.None?
    ensures e.flags == (match f.fieldType
                        case Comb => Some(FLAG_COMB)
                        case Multiline => Some(FLAG_MULTILINE)
                        case Textarea => Some(FLAG_MULTILINE)
                        case _ => None)
    ensures e.textMaxLen.Some? ==> e.textMaxLen.value == (if f.fieldType == Comb then f.maxChars else 0)
    ensures e.fieldValue.Some? ==> e.fieldValue.value == "Off"
  {
    var (kind, flags, maxLen, value) :=
      match f.fieldType
      case Text => (TextWidget, None, Some(0), None)
      case Multiline => (TextWidget, Some(FLAG_MULTILINE), Some(0), None)
      case Textarea => (TextWidget, Some(FLAG_MULTILINE), Some(0), None)
      case Checkbox => (CheckBoxWidget, None, None, Some("Off"))
      case Comb => (TextWidget, Some(FLAG_COMB), Some(f.maxChars), None)
      case Radio => (RadioButtonWidget, None, None, Some("Off"));
    ExportedWidget(f.pageNum, f.name, f.rect, f.style.borderWidth, f.style.borderColor,
                   f.style.fillColor, "helv", f.style.fontSize, f.style.fontColor,
                   kind, flags, maxLen, value)
  }

  /**
   * The widget the PDF library reports for a saved widget when the saved
   * document is opened again: every attribute the save code assigned comes
   * back as written, and unassigned ones come back absent.
   */
  function Reread(e: ExportedWidget): Widget {
    Widget(e.kind, e.flags, e.rect, Some(e.fieldName), Some(e.borderColor), Some(e.fillColor),
           Some(e.borderWidth), Some(e.fontSize), Some(e.textColor), e.textMaxLen)
  }

  /** The kind a field has after it is saved and its widget classified again. */
  function ReimportedType(f: FormField): FieldType {
    match f.fieldType
    case Multiline | Textarea =>
      if Height(f.rect) > TEXTAREA_MIN_HEIGHT then Textarea else Multiline
    case t => t
  }

  /**
   * Saving a field and classifying the saved widget returns the field's own
   * kind for text, checkbox, radio and comb fields; multiline fields and text
   * areas come back as a text area exactly when taller than 50 points.
   */
  lemma ExportClassifyRoundTrip(f: FormField)
    ensures Classify(Reread(ExportField(f))) == ReimportedType(f)
    ensures f.fieldType in {Text, Checkbox, Radio, Comb} ==>
              Classify(Reread(ExportField(f))) == f.fieldType
    ensures f.fieldType in {Multiline, Textarea} ==>
              (Classify(Reread(ExportField(f))) == Textarea <==> Height(f.rect) > TEXTAREA_MIN_HEIGHT)
  {
  }
}
