# PDF form builder: the editing model

The PDF form builder is a desktop tool. The user draws rectangles over a
rendered PDF page, and the tool turns each rectangle into a fillable form
widget. The widget can be a single-line text box, a multiline text box, a
checkbox, a comb field (text in equal character cells), a radio button or a
text area. This project models the non-graphical core of `main.py`:

- the `FormField` record and the default style record (`Fields`);
- the coordinate mapping between canvas pixels and PDF points (`Geometry`).
  The page is rendered at the fixed scale 150/72. A drag's corners are put
  in order, then divided by the scale;
- the classifier that maps an existing widget's type, flags and height to
  one of the six field kinds. It sits beside the per-kind widget
  configuration written on save (`Widgets`);
- the scan that imports the widgets already in an opened PDF (`Import`);
- the editing state as a class (`Builder.FormBuilder`): the field list,
  the page on view, the selection, the drag start and the default style.
  The class has one method per user action. Those actions are: open,
  press, release, select, delete, clear all, rename, appearance update,
  page navigation and save.

Python's `str.strip()` and `str(n)` appear in `Strings`. The import scan's
inner loop over one page's widgets is its own method,
`FormBuilder.ImportPageWidgets`, called from the loop over pages.

Inputs that the program reads from the foreign PDF library or from entry
boxes become parameters:

- a page scan is a `PageScan`, and a widget is a `Widget` record;
- an entry's text arrives already parsed, with `None` for text that does
  not parse;
- the file dialogs become an `Option` that is `None` when the user cancels
  or the file cannot be opened;
- the confirmation dialog becomes a `bool`.

Coordinates, widths and colours are exact `real`s.

Some behaviour of `main.py` is easy to miss, and the model keeps it:

- The appearance update stores the new border width before it parses the
  font size (main.py:508-509). A bad font size therefore keeps the new
  border width, and `UpdateAppearance` models exactly that.
- Only drawn fields have their corners put in order (main.py:431-435).
  Imported rectangles are taken from the PDF as they are (main.py:938-944).
  So the class invariant does not claim `x0 <= x1` and `y0 <= y1`, and
  `DraggedField` proves it for drawn fields.
- Rename strips the entry before it tests for emptiness (main.py:494-495).
  A name made only of whitespace is therefore rejected too.
- A document with no pages counts as "no document" wherever the code tests
  `not self.pdf_doc`, because Python's truthiness goes through `len`. This
  is `FormBuilder.DocumentOpen`.
- Delete removes the row selected in the list box, not `selected_field_idx`
  (main.py:843-851).
- A page whose widget listing raises part-way still contributes the widgets
  it listed before it raised, and then the scan stops (main.py:903-905 run
  outside the inner `try`, inside the outer one at main.py:866-976).

## Model

| member | source | states |
|---|---|---|
| `Strings.SkipSpaceForward` | main.py:494 | the scan from the left stops at the first non-whitespace character, having passed only whitespace |
| `Strings.SkipSpaceBackward` | main.py:494 | the scan from the right stops after the last non-whitespace character, having passed only whitespace |
| `Strings.Strip` | main.py:494 | the stripped name is a contiguous slice of the entry and everything removed from either end is whitespace; it neither starts nor ends with whitespace; it is empty exactly when the entry is all whitespace |
| `Strings.StripIdempotent` | main.py:494 | stripping an already stripped name changes nothing |
| `Strings.NatToString` | main.py:445 | `str(n)` is a non-empty string of decimal digits with no leading zero |
| `Strings.DecimalRoundTrip` | main.py:445 | reading back the digits of `str(n)` gives `n` |
| `Strings.NatToStringInjective` | main.py:445 | different field positions give different name suffixes |
| `Geometry.Normalize` | main.py:431-435 | after the swaps the rectangle has `x0 <= x1` and `y0 <= y1`, and the x and y corner values are those of the drag |
| `Geometry.ToPdf` | main.py:437-442 | each PDF coordinate times 150/72 is the canvas coordinate it came from |
| `Geometry.ToCanvas` | main.py:364-371 | each canvas coordinate divided by 150/72 is the PDF coordinate it was drawn from |
| `Geometry.ScaleRoundTrip` | main.py:438-442 | drawing a converted rectangle gives back the canvas rectangle, and the reverse, exactly |
| `Geometry.ScaleKeepsOrder` | main.py:439-442 | dividing or multiplying by the positive scale keeps the corners in order, in both directions |
| `Geometry.DragRectangle` | main.py:427-442 | a released drag becomes an ordered PDF rectangle that is drawn back exactly over the ordered drag |
| `Fields.TypeName` | main.py:89-96 | each of the six kinds has a non-empty label |
| `Fields.TypeNameInjective` | main.py:89-96 | different kinds have different labels |
| `Fields.LoadStyle` | main.py:558-601 | a missing or unreadable preference file gives the built-in defaults; otherwise each key present in the file overrides its default and each absent key keeps it |
| `Widgets.HasFlag` | main.py:985-989 | a missing flags attribute sets no bit; a present one sets the bit exactly when the flags word has it |
| `Widgets.Classify` | main.py:979-1013 | for each of the six kinds, the exact inputs that give it: comb iff a text widget with the comb bit (whatever the multiline bit); multiline iff a text widget that has the multiline bit but not the comb bit and is at most 50 points tall; text area iff a list box or such a widget taller than 50; checkbox iff a checkbox; radio iff a radio button; text otherwise. A missing flags attribute counts as 0 |
| `Widgets.ExportField` | main.py:1044-1083 | the saved widget carries the field's page, name, rectangle and appearance and the Helvetica font; text kinds become text widgets with a maximum length (the comb count for comb fields, 0 otherwise) and no value, and only comb, multiline and text area set a flag; checkbox and radio become their widget types with value "Off" and no maximum length |
| `Widgets.ExportClassifyRoundTrip` | main.py:1058-1083 | classifying a saved widget gives back text, checkbox, radio and comb; multiline and text area come back as a text area iff the field is taller than 50 points |
| `Import.FallbackName` | main.py:908 | the name given to an unnamed widget is `field_` followed by decimal digits that read back as the detected count plus one |
| `Import.RealOr` | main.py:921-926 | a numeric attribute is kept when present and non-zero, and otherwise replaced by the default, which makes the result non-zero whenever the default is |
| `Import.NameOr` | main.py:908 | a name attribute is kept when present and non-empty, and otherwise replaced by the fallback, which makes the result non-empty whenever the fallback is |
| `Import.ImportField` | main.py:905-953 | an imported field has a name, the scanned page's index, the classifier's kind and the widget's rectangle; its comb count is the maximum length (absent read as 0) for text widgets and 0 for all others |
| `Import.ImportFieldName` | main.py:908 | a widget's own non-empty name is kept; an absent or empty one becomes `field_` followed by the detected count plus one |
| `Import.ImportFieldAppearance` | main.py:914-929 | an absent border, fill or text colour becomes black, white and black; an absent or zero border width becomes 1.0 and an absent or zero font size 12.0; present values are kept |
| `Import.ImportWidgets` | main.py:905-960 | every field from one page carries that page's index and a non-empty name |
| `Import.ImportPages` | main.py:893-956 | the fields of a scan, page after page: one field per readable widget the pages listed |
| `Import.ScanEnd` | main.py:893-905 | the scan visits every page when each one lists its widgets, and otherwise exactly the pages up to and including the first whose listing raises |
| `Import.ScanEndAtFailure` | main.py:893-905 | a scan that listed every earlier page in full ends at the page whose listing raised, or at the last page |
| `Import.ImportWidgetsFollowsReadables` | main.py:905-960 | an unreadable widget is skipped and nothing else happens: the k-th field of a page is made from the k-th readable widget with detected count `start + k` |
| `Import.ImportPagesFollowsReadables` | main.py:893-956 | the scan numbers the readable widgets consecutively across pages: the `k`-th field is made from the `k`-th readable widget of the scan, on its page, with detected count `k` |
| `Import.ImportPagesNames` | main.py:908 | the `k`-th imported field keeps its widget's non-empty name, and an unnamed one is called `field_` followed by `k + 1` |
| `Import.ImportPagesPlacement` | main.py:893-946 | every imported field has a name and the index of one of the scanned pages |
| `Import.ImportPagesInPageOrder` | main.py:893-955 | the imported fields come in page order |
| `Import.ExportImportRoundTrip` | main.py:1044-1083 | saving a named field with non-zero border width and font size and importing it again gives the same field, except that multiline kinds are reclassified by height and non-comb fields get comb count 0 |
| `Builder.RemoveAt` | main.py:847 | deleting index `i` keeps the fields before `i` in place, shifts the ones after it down by one, and removes exactly one occurrence of the deleted field |
| `Builder.DraggedField` | main.py:427-460 | a drawn field has the chosen kind, the current page and the default style; its rectangle is ordered and maps back to the ordered drag; its name is the kind's label and its 1-based position; its comb count is the parsed entry for comb fields and 0 otherwise |
| `Builder.DrawnCombExport` | main.py:1076-1079 | a comb field drawn with comb count `n` is saved as a text widget on its page with maximum length `n`, the comb flag set and the multiline flag clear |
| `Builder.FormBuilder.constructor` | main.py:30-47 | start-up: no document, no fields, no selection, no drag, single-line text chosen, and defaults loaded from the preference file |
| `Builder.FormBuilder.SetFieldType` | main.py:307-308 | choosing a kind sets the kind the next drag creates |
| `Builder.FormBuilder.ResetOnOpen` | main.py:316-319 | opening a document shows the first page with an empty field list and no selection |
| `Builder.FormBuilder.DocumentOpen` | main.py:398 | an open document has at least one page, and under the class invariant the page on view is one of them; no document, or one with no pages, tests false |
| `Builder.FormBuilder.ImportPageWidgets` | main.py:905-960 | the inner loop appends exactly one page's fields after the existing ones and advances the detected count by the number appended |
| `Builder.FormBuilder.ScanPage` | main.py:893-960 | one step of the loop over pages appends that page's fields after those of the earlier pages |
| `Builder.FormBuilder.ScanPages` | main.py:893-960 | the loop over pages appends exactly the fields of the pages the scan visits, and returns their number |
| `Builder.FormBuilder.DetectExistingFields` | main.py:861-976 | with a usable document the scan's fields are appended after the existing ones and the detected count equals the number appended; nothing happens with no usable document |
| `Builder.FormBuilder.OpenDocument` | main.py:310-329 | a cancelled open, or one where `fitz.open` raises, changes nothing; a successful one resets the state and then holds exactly the imported fields |
| `Builder.FormBuilder.Press` | main.py:397-403 | a press with a usable document records the drag start; otherwise nothing changes |
| `Builder.FormBuilder.Release` | main.py:421-463 | a release after a press appends exactly one drawn field at the end and clears the drag start, keeping all earlier fields; with no document, no press, or an unparsable comb count for a comb field, nothing changes |
| `Builder.FormBuilder.Select` | main.py:469-473 | selecting a row makes it the field being edited |
| `Builder.FormBuilder.DeleteSelected` | main.py:843-851 | deleting the selected row leaves the other fields in order and clears the selection; with no row selected nothing changes |
| `Builder.FormBuilder.ClearAll` | main.py:853-859 | a confirmed clear leaves no fields and no selection; an unconfirmed one changes nothing |
| `Builder.FormBuilder.Rename` | main.py:491-500 | with a selection and a non-blank stripped entry, only that field's name changes, to the stripped entry; a blank entry or no selection leaves every field unchanged |
| `Builder.FormBuilder.UpdateAppearance` | main.py:502-515 | with a selection, a parsed border width is stored first; the font size is stored as well only if it parses; an unparsable border width or no selection leaves every field unchanged |
| `Builder.FormBuilder.GoToPage` | main.py:1015-1026 | the view moves to page `n - 1` exactly when `1 <= n <= page count`; otherwise it reports invalid input, an out-of-range page or no document, and stays |
| `Builder.FormBuilder.SaveForm` | main.py:1028-1086 | with no usable document or no fields nothing is saved; otherwise one widget per field in list order, each configured from its field and placed on an existing page |

The class invariant `FormBuilder.Valid` is kept by every method except the
three loop pieces of the scan (`ImportPageWidgets`, `ScanPage` and
`ScanPages`), which neither require nor ensure it; `DetectExistingFields`,
which calls them, restores it. It says
that every field has a non-empty name and a page index below the page
count. It also says that the selection, when there is one, indexes an
existing field, and that the current page is within the document.

## Left out

- The tkinter user interface is not modelled: window layout, canvas
  drawing, the dashed drag rectangle, the list box text, the info label,
  the progress window and the message boxes.
- Rendering is not modelled: the pixmap of `render_page`, and the colour
  per kind and highlight width in `draw_fields`. Only the coordinate
  transform of `draw_fields` is modelled.
- PyMuPDF calls are replaced by data. Opening, listing widgets, building
  widgets, `add_widget` and saving become `PageScan` and `Widget` inputs
  and `ExportedWidget` outputs.
- `Widgets.Reread` is an assumption about the library, not a model of it.
  It assumes that a saved widget reads back with the attributes that were
  written.
- A failure while writing the output file is not modelled. This covers an
  exception in `add_widget` or `save`.
- The save file dialog is not modelled. `SaveForm` returns the widgets
  that would be written.
- The colour chooser (`choose_color`) is not modelled. It is a dialog
  followed by a floating-point `c / 255.0`.
- `rgb_to_hex` is not modelled. It is display-only and truncates a float
  with `int(c * 255)`.
- The default-style dialog (`open_style_settings`) is not modelled. This
  includes its save and reset buttons. Reading the preference file is
  modelled as `LoadStyle` over an already parsed file. Writing it
  (`save_default_styles`) is file output and is not modelled.
- `Fields.LoadStyle`: the preference values are typed in the model. In the
  code, a colour value that `tuple()` cannot convert (JSON `null`, a
  number) makes every key fall back to its default, which the model covers
  only as the `None` (unreadable file) input. A colour value that `tuple()`
  accepts but that is not a colour (a string), and any value at all for
  `border_width` or `font_size`, is stored unconverted (main.py:572-586);
  the model cannot represent such a value.
- `Builder.FormBuilder.OpenDocument`: an exception from `render_page` or
  `update_fields_list` (main.py:326-327) is caught after the state has been
  reset and the fields imported. Those two calls are display only, so the
  model's successful open covers that case too.
- Floating-point rounding is not modelled. The 150/72 scale is exact over
  reals. Python `float` parsing also accepts `nan` and `inf`, which the
  model does not treat specially.
- The unused `options` attribute of `FormField` is not modelled.
- `Widgets.Classify`: a flags attribute that is present but `None` makes
  the code raise inside the import loop. That case is covered only as an
  `Unreadable` widget, not by the classifier's `Option`, which means
  "attribute absent".
- `Strings.IsSpace` has Python's `str.isspace` set of code points for
  current Unicode. A later Unicode version could change that set.
