/**
 * The form builder's one domain entity, `FormField`, and the default style
 * record that new fields take their appearance from.
 */
module Fields {
  import opened Wrappers
  import opened Geometry

  /** The six field kinds the builder offers. */
  datatype FieldType = Text | Multiline | Checkbox | Comb | Radio | Textarea

  /** The label used in the user interface and in generated field names. */
  function TypeName(t: FieldType): (s: string)
    ensures s != []
  {
    match t
    case Text => "text"
    case Multiline => "multiline"
    case Checkbox => "checkbox"
    case Comb => "comb"
    case Radio => "radio"
    case Textarea => "textarea"
  }

  /** Different kinds have different labels. */
  lemma TypeNameInjective(s: FieldType, t: FieldType)
    requires TypeName(s) == TypeName(t)
    ensures s == t
  {
  }

  /** A colour as red, green and blue components, each meant to lie in [0, 1]. */
  datatype Rgb = Rgb(r: real, g: real, b: real)

  /** The appearance attributes a field carries. */
  datatype Style = Style(borderColor: Rgb, fillColor: Rgb, borderWidth: real,
                         fontSize: real, fontColor: Rgb)

  /** Black border, white fill, border width 1, 12-point black text. */
  const DEFAULT_STYLE: Style := Style(Rgb(0.0, 0.0, 0.0), Rgb(1.0, 1.0, 1.0), 1.0,
                                      12.0, Rgb(0.0, 0.0, 0.0))

  /**
   * A form field: its kind, its rectangle in PDF points, its name, the
   * zero-based page it sits on, the comb cell count (0 unless meaningful)
   * and its appearance.
   */
  datatype FormField = FormField(fieldType: FieldType, rect: Rect, name: string,
                                 pageNum: nat, maxChars: int, style: Style)

  /** The preference file's keys, each present or absent. */
  datatype StyleConfig = StyleConfig(borderColor: Option<Rgb>, fillColor: Option<Rgb>,
                                     fontColor: Option<Rgb>, borderWidth: Option<real>,
                                     fontSize: Option<real>)

  /**
   * The default style at start-up. `config` is the parsed preference file,
   * `None` when the file is missing or could not be read; each key that the
   * file sets overrides the corresponding built-in default.
   */
  function LoadStyle(config: Option<StyleConfig>): (s: Style)
    ensures config.None? ==> s == DEFAULT_STYLE
    ensures config.Some? ==>
      && s.borderColor == config.value.borderColor.GetOr(DEFAULT_STYLE.borderColor)
      && s.fillColor == config.value.fillColor.GetOr(DEFAULT_STYLE.fillColor)
      && s.fontColor == config.value.fontColor.GetOr(DEFAULT_STYLE.fontColor)
      && s.borderWidth == config.value.borderWidth.GetOr(DEFAULT_STYLE.borderWidth)
      && s.fontSize == config.value.fontSize.GetOr(DEFAULT_STYLE.fontSize)
  {
    match config
    case None => DEFAULT_STYLE
    case Some(c) =>
      Style(c.borderColor.GetOr(DEFAULT_STYLE.borderColor),
            c.fillColor.GetOr(DEFAULT_STYLE.fillColor),
            c.borderWidth.GetOr(DEFAULT_STYLE.borderWidth),
            c.fontSize.GetOr(DEFAULT_STYLE.fontSize),
            c.fontColor.GetOr(DEFAULT_STYLE.fontColor))
  }
}
