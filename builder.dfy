/**
 * The form builder's editing state: the open document, the list of fields
 * in display order, the page on view, the selection and the default style,
 * with the user actions that change them. Text typed into entry boxes
 * arrives already parsed: `None` stands for text that does not parse.
 */
module Builder {
  import opened Wrappers
  import opened Strings
  import opened Geometry
  import opened Fields
  import opened Widgets
  import opened Import

  /** How a property edit ended. */
  datatype EditOutcome = Applied | Rejected | NoSelection

  /** How a page change ended. */
  datatype PageOutcome = Moved | OutOfRange | InvalidInput | NoDocument

  /** `s` without its element at index `i`. */
  function RemoveAt<T>(s: seq<T>, i: nat): (r: seq<T>)
    requires i < |s|
    ensures |r| == |s| - 1
    ensures forall k :: 0 <= k < i ==> r[k] == s[k]
    ensures forall k :: i <= k < |r| ==> r[k] == s[k + 1]
    ensures multiset(r) + multiset{s[i]} == multiset(s)
  {
    assert s == s[..i] + [s[i]] + s[i + 1..];
    s[..i] + s[i + 1..]
  }

  /**
   * The field created when a drag from canvas point `start` to `end` is
   * released: the rectangle is the ordered drag converted to PDF points,
   * the name is the kind's label and the field's 1-based position, the comb
   * count is the parsed entry for a comb field and 0 otherwise.
   */
  function DraggedField(t: FieldType, start: Point, end: Point, existing: nat, page: nat,
                        combChars: Option<int>, style: Style): (f: FormField)
    requires t == Comb ==> combChars.Some?
    ensures f.fieldType == t && f.pageNum == page && f.style == style
    ensures IsNormal(f.rect) && ToCanvas(f.rect) == Normalize(start, end)
    ensures f.name == TypeName(t) + "_" + NatToString(existing + 1)
    ensures f.maxChars == (if t == Comb then combChars.value else 0)
  {
    DragRectangle(start, end);
    FormField(t, ToPdf(Normalize(start, end)), TypeName(t) + "_" + NatToString(existing + 1),
              page, if t == Comb then combChars.value else 0, style)
  }

  /**
   * A comb field drawn with a comb count of `n` is saved as a comb text
   * widget whose maximum length is `n` and whose multiline flag is clear.
   */
  lemma DrawnCombExport(start: Point, end: Point, existing: nat, page: nat, n: int, style: Style)
    ensures var e := ExportField(DraggedField(Comb, start, end, existing, page, Some(n), style));
            && e.kind == TextWidget && e.page == page && e.textMaxLen == Some(n)
            && HasFlag(e.flags, FLAG_COMB) && !HasFlag(e.flags, FLAG_MULTILINE)
  {
  }

  class FormBuilder {
    /** Whether a document has been opened. */
    var hasDocument: bool
    /** The open document's page count (0 when none is open). */
    var pageCount: nat
    var currentPage: nat
    var fields: seq<FormField>
    var currentFieldType: FieldType
    /** Where the current drag started, in canvas pixels. */
    var selectionStart: Option<Point>
    /** The field whose properties are being edited. */
    var selectedIdx: Option<nat>
    /** The style new fields take. */
    var defaults: Style

    /** The document tests true: it exists and has at least one page. */
    predicate DocumentOpen(): (b: bool)
      reads this
      ensures b ==> hasDocument && pageCount > 0
      ensures Valid() && b ==> currentPage < pageCount
      ensures !hasDocument || pageCount == 0 ==> !b
    {
      hasDocument && pageCount > 0
    }

    ghost predicate Valid()
      reads this
    {
      && (!hasDocument ==> pageCount == 0)
      && (currentPage < pageCount || currentPage == 0)
      && (forall i :: 0 <= i < |fields| ==> fields[i].pageNum < pageCount && fields[i].name != [])
      && (selectedIdx.Some? ==> selectedIdx.value < |fields|)
    }

    /** Start-up: no document, no fields, single-line text chosen, defaults from the preference file. */
    constructor (config: Option<StyleConfig>)
      ensures Valid()
      ensures !hasDocument && pageCount == 0 && currentPage == 0 && fields == []
      ensures currentFieldType == Text && selectionStart == None && selectedIdx == None
      ensures defaults == LoadStyle(config)
    {
      hasDocument := false;
      pageCount := 0;
      currentPage := 0;
      fields := [];
      currentFieldType := Text;
      selectionStart := None;
      selectedIdx := None;
      defaults := LoadStyle(config);
    }

    /** Choosing the kind of field the next drag creates. */
    method SetFieldType(t: FieldType)
      modifies this`currentFieldType
      ensures currentFieldType == t
    {
      currentFieldType := t;
    }

    /** A newly opened document with `n` pages: first page, no fields, no selection. */
    method ResetOnOpen(n: nat)
      requires Valid()
      modifies this`hasDocument, this`pageCount, this`currentPage, this`fields, this`selectedIdx
      ensures Valid()
      ensures hasDocument && pageCount == n && currentPage == 0 && fields == [] && selectedIdx == None
    {
      hasDocument := true;
      pageCount := n;
      currentPage := 0;
      fields := [];
      selectedIdx := None;
    }

    /**
     * The inner loop of the scan: appends the fields of one page's readable
     * widgets, numbering them from `detected`, and returns the new count.
     */
    method ImportPageWidgets(entries: seq<WidgetEntry>, page: nat, detected: nat) returns (count: nat)
      modifies this`fields
      ensures fields == old(fields) + ImportWidgets(entries, page, detected)
      ensures count == detected + |ImportWidgets(entries, page, detected)|
    {
      count := detected;
      var j := 0;
      while j < |entries|
        invariant j <= |entries|
        invariant fields == old(fields) + ImportWidgets(entries[..j], page, detected)
        invariant count == detected + |ImportWidgets(entries[..j], page, detected)|
      {
        ImportWidgetsStep(entries, j, page, detected);
        if entries[j].Readable? {
          fields := fields + [ImportField(entries[j].widget, page, count)];
          count := count + 1;
        }
        j := j + 1;
      }
      assert entries[..j] == entries;
    }

    /**
     * One step of the outer loop: appends the fields of page `p`'s readable
     * widgets after those of the pages before it.
     */
    method ScanPage(pages: seq<PageScan>, p: nat, detected: nat, ghost base: seq<FormField>) returns (count: nat)
      requires p < |pages|
      requires fields == base + ImportPages(pages[..p]) && detected == |ImportPages(pages[..p])|
      modifies this`fields
      ensures fields == base + ImportPages(pages[..p + 1])
      ensures count == |ImportPages(pages[..p + 1])|
    {
      ImportPagesStep(pages, p);
      count := ImportPageWidgets(pages[p].entries, p, detected);
    }

    /**
     * The outer loop of the scan: appends the fields of the pages' readable
     * widgets, page by page, until a page's widget listing raises; the
     * widgets that page listed before it raised are still taken. Returns
     * the number of fields appended.
     */
    method ScanPages(pages: seq<PageScan>) returns (detected: nat)
      modifies this`fields
      ensures fields == old(fields) + ImportPages(pages[..ScanEnd(pages)])
      ensures detected == |ImportPages(pages[..ScanEnd(pages)])|
    {
      detected := 0;
      var p := 0;
      while p < |pages|
        invariant p <= |pages|
        invariant forall i :: 0 <= i < p ==> pages[i].Scanned?
        invariant fields == old(fields) + ImportPages(pages[..p])
        invariant detected == |ImportPages(pages[..p])|
      {
        var failed := pages[p].ScanFailed?;
        detected := ScanPage(pages, p, detected, old(fields));
        p := p + 1;
        if failed {
          break;
        }
      }
      ScanEndAtFailure(pages, p);
    }

    /**
     * Appends a field for every readable widget the open document's pages
     * list, as `ScanPages` does; with no usable document nothing happens.
     */
    method DetectExistingFields(pages: seq<PageScan>) returns (detected: nat)
      requires Valid() && |pages| == pageCount
      modifies this`fields
      ensures Valid()
      ensures !DocumentOpen() ==> fields == old(fields) && detected == 0
      ensures DocumentOpen() ==> fields == old(fields) + ImportPages(pages[..ScanEnd(pages)])
      ensures detected == |fields| - |old(fields)|
    {
      detected := 0;
      if !DocumentOpen() {
        return;
      }
      detected := ScanPages(pages);
      ImportPagesPlacement(pages[..ScanEnd(pages)]);
    }

    /**
     * Opening a document. `doc` lists the result of listing each page's
     * widgets, or is `None` when no file was chosen or the file could not be
     * opened, in which case nothing changes.
     */
    method OpenDocument(doc: Option<seq<PageScan>>) returns (detected: nat)
      requires Valid()
      modifies this`hasDocument, this`pageCount, this`currentPage, this`fields, this`selectedIdx
      ensures Valid()
      ensures doc.None? ==>
        && detected == 0 && hasDocument == old(hasDocument) && pageCount == old(pageCount)
        && currentPage == old(currentPage) && fields == old(fields) && selectedIdx == old(selectedIdx)
      ensures doc.Some? ==>
        && hasDocument && pageCount == |doc.value| && currentPage == 0 && selectedIdx == None
        && fields == (if |doc.value| == 0 then [] else ImportPages(doc.value[..ScanEnd(doc.value)]))
        && detected == |fields|
    {
      detected := 0;
      if doc.Some? {
        ResetOnOpen(|doc.value|);
        detected := DetectExistingFields(doc.value);
      }
    }

    /** Pressing the mouse on the canvas starts a drag when a document is open. */
    method Press(x: real, y: real)
      modifies this`selectionStart
      ensures selectionStart == if DocumentOpen() then Some(Point(x, y)) else old(selectionStart)
    {
      if DocumentOpen() {
        selectionStart := Some(Point(x, y));
      }
    }

    /**
     * Releasing the mouse at canvas point `(x, y)` creates a field of the
     * chosen kind on the current page from the drag, appended at the end,
     * and ends the drag. `combChars` is the parsed comb count entry; when
     * it does not parse, a comb field is not created and the drag stays.
     */
    method Release(x: real, y: real, combChars: Option<int>)
      requires Valid()
      modifies this`fields, this`selectionStart
      ensures Valid()
      ensures var created := DocumentOpen() && old(selectionStart).Some?
                             && (currentFieldType == Comb ==> combChars.Some?);
        && (created ==>
              && fields == old(fields) + [DraggedField(currentFieldType, old(selectionStart).value,
                                                       Point(x, y), |old(fields)|, currentPage,
                                                       combChars, defaults)]
              && selectionStart == None)
        && (!created ==> fields == old(fields) && selectionStart == old(selectionStart))
    {
      if !DocumentOpen() || selectionStart.None? {
        return;
      }
      if currentFieldType == Comb && combChars.None? {
        return;
      }
      var f := DraggedField(currentFieldType, selectionStart.value, Point(x, y), |fields|,
                            currentPage, combChars, defaults);
      fields := fields + [f];
      selectionStart := None;
    }

    /** Selecting a row of the field list; `None` when no row is selected. */
    method Select(selection: Option<nat>)
      requires Valid()
      requires selection.Some? ==> selection.value < |fields|
      modifies this`selectedIdx
      ensures Valid()
      ensures selectedIdx == if selection.Some? then selection else old(selectedIdx)
    {
      if selection.Some? {
        selectedIdx := selection;
      }
    }

    /** Deleting the field at the selected row of the list and clearing the selection. */
    method DeleteSelected(selection: Option<nat>)
      requires Valid()
      requires selection.Some? ==> selection.value < |fields|
      modifies this`fields, this`selectedIdx
      ensures Valid()
      ensures selection.None? ==> fields == old(fields) && selectedIdx == old(selectedIdx)
      ensures selection.Some? ==>
        fields == RemoveAt(old(fields), selection.value) && selectedIdx == None
    {
      if selection.Some? {
        fields := RemoveAt(fields, selection.value);
        selectedIdx := None;
      }
    }

    /** Deleting every field once the user confirms. */
    method ClearAll(confirmed: bool)
      requires Valid()
      modifies this`fields, this`selectedIdx
      ensures Valid()
      ensures confirmed ==> fields == [] && selectedIdx == None
      ensures !confirmed ==> fields == old(fields) && selectedIdx == old(selectedIdx)
    {
      if confirmed {
        fields := [];
        selectedIdx := None;
      }
    }

    /**
     * Renaming the selected field to the entry's text with surrounding
     * whitespace removed; a blank name is rejected.
     */
    method Rename(entry: string) returns (outcome: EditOutcome)
      requires Valid()
      modifies this`fields
      ensures Valid()
      ensures selectedIdx.None? ==> outcome == NoSelection && fields == old(fields)
      ensures selectedIdx.Some? && Strip(entry) == [] ==> outcome == Rejected && fields == old(fields)
      ensures selectedIdx.Some? && Strip(entry) != [] ==>
        && outcome == Applied
        && fields == old(fields)[selectedIdx.value := old(fields)[selectedIdx.value].(name := Strip(entry))]
    {
      if selectedIdx.None? {
        return NoSelection;
      }
      var name := Strip(entry);
      if name == [] {
        return Rejected;
      }
      var i := selectedIdx.value;
      fields := fields[i := fields[i].(name := name)];
      outcome := Applied;
    }

    /**
     * Applying the border width and font size entries to the selected field.
     * The border width is stored before the font size is parsed, so a font
     * size that does not parse still leaves a valid new border width in place.
     */
    method UpdateAppearance(borderWidth: Option<real>, fontSize: Option<real>)
      returns (outcome: EditOutcome)
      requires Valid()
      modifies this`fields
      ensures Valid()
      ensures selectedIdx.None? ==> outcome == NoSelection && fields == old(fields)
      ensures selectedIdx.Some? && borderWidth.None? ==> outcome == Rejected && fields == old(fields)
      ensures selectedIdx.Some? && borderWidth.Some? ==>
        var i := selectedIdx.value;
        var bordered := old(fields)[i].style.(borderWidth := borderWidth.value);
        && outcome == (if fontSize.Some? then Applied else Rejected)
        && fields == old(fields)[i := old(fields)[i].(style :=
             if fontSize.Some? then bordered.(fontSize := fontSize.value) else bordered)]
    {
      if selectedIdx.None? {
        return NoSelection;
      }
      if borderWidth.None? {
        return Rejected;
      }
      var i := selectedIdx.value;
      fields := fields[i := fields[i].(style := fields[i].style.(borderWidth := borderWidth.value))];
      if fontSize.None? {
        return Rejected;
      }
      fields := fields[i := fields[i].(style := fields[i].style.(fontSize := fontSize.value))];
      outcome := Applied;
    }

    /**
     * Going to the 1-based page number typed into the page entry. Only a
     * number within the open document's pages moves the view.
     */
    method GoToPage(entry: Option<int>) returns (outcome: PageOutcome)
      requires Valid()
      modifies this`currentPage
      ensures Valid()
      ensures entry.None? ==> outcome == InvalidInput
      ensures entry.Some? && !hasDocument ==> outcome == NoDocument
      ensures entry.Some? && hasDocument ==>
        (outcome == Moved <==> 1 <= entry.value <= pageCount)
      ensures entry.Some? && hasDocument && outcome != Moved ==> outcome == OutOfRange
      ensures currentPage == if outcome == Moved then entry.value - 1 else old(currentPage)
    {
      if entry.None? {
        return InvalidInput;
      }
      var page := entry.value - 1;
      if !hasDocument {
        return NoDocument;
      }
      if 0 <= page < pageCount {
        currentPage := page;
        outcome := Moved;
      } else {
        outcome := OutOfRange;
      }
    }

    /**
     * The widgets written when the form is saved, one per field in list
     * order, each on its field's page; `None` when no document is open or
     * there are no fields to save.
     */
    method SaveForm() returns (widgets: Option<seq<ExportedWidget>>)
      requires Valid()
      ensures widgets.None? <==> !DocumentOpen() || fields == []
      ensures widgets.Some? ==>
        && |widgets.value| == |fields|
        && forall i :: 0 <= i < |fields| ==> widgets.value[i] == ExportField(fields[i])
      ensures widgets.Some? ==> forall i :: 0 <= i < |widgets.value| ==> widgets.value[i].page < pageCount
    {
      if !DocumentOpen() || fields == [] {
        return None;
      }
      var out: seq<ExportedWidget> := [];
      for i := 0 to |fields|
        invariant |out| == i
        invariant forall k :: 0 <= k < i ==> out[k] == ExportField(fields[k])
      {
        out := out + [ExportField(fields[i])];
      }
      widgets := Some(out);
    }
  }
}
