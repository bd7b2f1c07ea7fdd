/**
 * Turning the widgets already present in an opened PDF into form fields.
 * The scan visits the pages in order and the widgets of each page in order;
 * a widget whose attributes cannot be read is skipped, and a page whose
 * widget listing raises ends the whole scan after the widgets it listed.
 */
module Import {
  import opened Wrappers
  import opened Strings
  import opened Geometry
  import opened Fields
  import opened Widgets

  /** One widget of a page: readable, or one whose attributes raise when read. */
  datatype WidgetEntry = Readable(widget: Widget) | Unreadable

  /**
   * The outcome of listing a page's widgets: all of them, or the ones the
   * listing yielded before it raised (none when it raised at once).
   */
  datatype PageScan = Scanned(entries: seq<WidgetEntry>) | ScanFailed(entries: seq<WidgetEntry>)

  /** A readable widget of the scan together with the index of its page. */
  datatype Located = Located(page: nat, widget: Widget)

  /** The name given to the `n`-th detected widget (1-based) when it has none. */
  function FallbackName(detected: nat): (s: string)
    ensures |s| > 6 && s[..6] == "field_"
    ensures forall k :: 6 <= k < |s| ==> IsDigit(s[k])
    ensures DecimalValue(s[6..]) == detected + 1
  {
    var digits := NatToString(detected + 1);
    DecimalRoundTrip(detected + 1);
    assert ("field_" + digits)[6..] == digits;
    "field_" + digits
  }

  /** A real attribute, falling back to `default` when absent or zero (Python truthiness). */
  function RealOr(v: Option<real>, default: real): (r: real)
    ensures v.Some? && v.value != 0.0 ==> r == v.value
    ensures v.None? || v.value == 0.0 ==> r == default
    ensures default != 0.0 ==> r != 0.0
  {
    if v.Some? && v.value != 0.0 then v.value else default
  }

  /** A name attribute, falling back to `default` when absent or empty. */
  function NameOr(v: Option<string>, default: string): (r: string)
    ensures v.Some? && v.value != [] ==> r == v.value
    ensures v.None? || v.value == [] ==> r == default
    ensures default != [] ==> r != []
  {
    if v.Some? && v.value != [] then v.value else default
  }

  /**
   * The field made from a readable widget on page `page` when `detected`
   * widgets have been taken before it. Missing appearance attributes take
   * the built-in defaults; only text widgets carry a maximum length.
   */
  function ImportField(w: Widget, page: nat, detected: nat): (f: FormField)
    ensures f.name != [] && f.pageNum == page
    ensures f.fieldType == Classify(w) && f.rect == w.rect
    ensures f.maxChars == (if w.kind == TextWidget then w.textMaxLen.GetOr(0) else 0)
  {
    FormField(Classify(w), w.rect, NameOr(w.fieldName, FallbackName(detected)), page,
              if w.kind == TextWidget then w.textMaxLen.GetOr(0) else 0,
              Style(w.borderColor.GetOr(Rgb(0.0, 0.0, 0.0)),
                    w.fillColor.GetOr(Rgb(1.0, 1.0, 1.0)),
                    RealOr(w.borderWidth, 1.0),
                    RealOr(w.fontSize, 12.0),
                    w.textColor.GetOr(Rgb(0.0, 0.0, 0.0))))
  }

  /**
   * The name of an imported field: the widget's own name when it is
   * non-empty, otherwise `field_` followed by the 1-based detected count.
   */
  lemma ImportFieldName(w: Widget, page: nat, detected: nat)
    ensures w.fieldName.Some? && w.fieldName.value != [] ==> ImportField(w, page, detected).name == w.fieldName.value
    ensures w.fieldName.None? || w.fieldName.value == [] ==>
              ImportField(w, page, detected).name == "field_" + NatToString(detected + 1)
  {
  }

  /**
   * The appearance of an imported field: each absent attribute takes its
   * built-in default, and a border width or font size of zero counts as
   * absent.
   */
  lemma ImportFieldAppearance(w: Widget, page: nat, detected: nat)
    ensures ImportField(w, page, detected).style.borderColor == (if w.borderColor.Some? then w.borderColor.value else Rgb(0.0, 0.0, 0.0))
    ensures ImportField(w, page, detected).style.fillColor == (if w.fillColor.Some? then w.fillColor.value else Rgb(1.0, 1.0, 1.0))
    ensures ImportField(w, page, detected).style.fontColor == (if w.textColor.Some? then w.textColor.value else Rgb(0.0, 0.0, 0.0))
    ensures w.borderWidth.None? || w.borderWidth.value == 0.0 ==> ImportField(w, page, detected).style.borderWidth == 1.0
    ensures w.borderWidth.Some? && w.borderWidth.value != 0.0 ==> ImportField(w, page, detected).style.borderWidth == w.borderWidth.value
    ensures w.fontSize.None? || w.fontSize.value == 0.0 ==> ImportField(w, page, detected).style.fontSize == 12.0
    ensures w.fontSize.Some? && w.fontSize.value != 0.0 ==> ImportField(w, page, detected).style.fontSize == w.fontSize.value
  {
  }

  /** The readable widgets of a page, in order. */
  function Readables(entries: seq<WidgetEntry>): seq<Widget> {
    if entries == [] then []
    else
      var prev := Readables(entries[..|entries| - 1]);
      match entries[|entries| - 1]
      case Readable(w) => prev + [w]
      case Unreadable => prev
  }

  /**
   * The fields a page's widgets give, in order, when `start` widgets were
   * detected on earlier pages.
   */
  function ImportWidgets(entries: seq<WidgetEntry>, page: nat, start: nat): (r: seq<FormField>)
    ensures forall k :: 0 <= k < |r| ==> r[k].pageNum == page && r[k].name != []
  {
    if entries == [] then []
    else
      var prev := ImportWidgets(entries[..|entries| - 1], page, start);
      match entries[|entries| - 1]
      case Readable(w) => prev + [ImportField(w, page, start + |prev|)]
      case Unreadable => prev
  }

  /**
   * The fields a scan of `pages` gives. Page `i` contributes the fields of
   * the widgets it listed, numbered after those of the pages before it.
   */
  function ImportPages(pages: seq<PageScan>): (r: seq<FormField>)
    ensures |r| == |ScanReadables(pages)|
  {
    if pages == [] then []
    else
      var prev := ImportPages(pages[..|pages| - 1]);
      ImportWidgetsFollowsReadables(pages[|pages| - 1].entries, |pages| - 1, |prev|);
      prev + ImportWidgets(pages[|pages| - 1].entries, |pages| - 1, |prev|)
  }

  /** One more widget of a page: its field, if it is readable, goes after the earlier ones. */
  lemma ImportWidgetsStep(entries: seq<WidgetEntry>, j: nat, page: nat, start: nat)
    requires j < |entries|
    ensures ImportWidgets(entries[..j + 1], page, start)
            == ImportWidgets(entries[..j], page, start)
               + (if entries[j].Readable?
                  then [ImportField(entries[j].widget, page, start + |ImportWidgets(entries[..j], page, start)|)]
                  else [])
  {
    assert entries[..j + 1][..j] == entries[..j];
  }

  /** One more page: its fields go after those of the pages before it. */
  lemma ImportPagesStep(pages: seq<PageScan>, p: nat)
    requires p < |pages|
    ensures ImportPages(pages[..p + 1])
            == ImportPages(pages[..p]) + ImportWidgets(pages[p].entries, p, |ImportPages(pages[..p])|)
  {
    assert pages[..p + 1][..p] == pages[..p];
  }

  /**
   * How many pages the scan visits: all of them, or those up to and
   * including the first one whose widget listing raises.
   */
  function ScanEnd(pages: seq<PageScan>): (n: nat)
    ensures n <= |pages|
    ensures forall i :: 0 <= i < n - 1 ==> pages[i].Scanned?
    ensures n < |pages| ==> 0 < n && pages[n - 1].ScanFailed?
    ensures n == |pages| || pages[n - 1].ScanFailed?
  {
    if pages == [] then 0
    else if pages[0].ScanFailed? then 1
    else 1 + ScanEnd(pages[1..])
  }

  /**
   * Skipping is all an unreadable widget does: the `k`-th field of a page is
   * made from the page's `k`-th readable widget and numbered `start + k`.
   */
  lemma {:induction false} ImportWidgetsFollowsReadables(entries: seq<WidgetEntry>, page: nat, start: nat)
    ensures |ImportWidgets(entries, page, start)| == |Readables(entries)|
    ensures forall k :: 0 <= k < |Readables(entries)| ==>
              ImportWidgets(entries, page, start)[k] == ImportField(Readables(entries)[k], page, start + k)
  {
    if entries != [] {
      ImportWidgetsFollowsReadables(entries[..|entries| - 1], page, start);
    }
  }

  /** The readable widgets of the pages, in scan order, each with its page index. */
  function ScanReadables(pages: seq<PageScan>): seq<Located> {
    if pages == [] then []
    else ScanReadables(pages[..|pages| - 1]) + AtPage(Readables(pages[|pages| - 1].entries), |pages| - 1)
  }

  /** Pairs each widget with the page index `p`. */
  function AtPage(ws: seq<Widget>, p: nat): (r: seq<Located>)
    ensures |r| == |ws|
    ensures forall k :: 0 <= k < |ws| ==> r[k] == Located(p, ws[k])
  {
    if ws == [] then [] else [Located(p, ws[0])] + AtPage(ws[1..], p)
  }

  /**
   * The scan ends after `n` pages when the pages before the `n`-th were
   * listed in full and the `n`-th one raised, or when all pages were listed.
   */
  lemma {:induction false} ScanEndAtFailure(pages: seq<PageScan>, n: nat)
    requires n <= |pages|
    requires forall i :: 0 <= i < n - 1 ==> pages[i].Scanned?
    requires n == |pages| || (0 < n && pages[n - 1].ScanFailed?)
    ensures ScanEnd(pages) == n
  {
    if pages != [] && pages[0].Scanned? {
      if n == 0 {
        assert false;
      }
      ScanEndAtFailure(pages[1..], n - 1);
    }
  }

  /**
   * The whole scan numbers the readable widgets consecutively: there is one
   * field per readable widget, and the `k`-th field is made from the `k`-th
   * readable widget of the scan, on its page, with `k` widgets detected
   * before it.
   */
  lemma {:induction false} ImportPagesFollowsReadables(pages: seq<PageScan>)
    ensures forall k :: 0 <= k < |ScanReadables(pages)| ==>
              ImportPages(pages)[k] == ImportField(ScanReadables(pages)[k].widget, ScanReadables(pages)[k].page, k)
  {
    if pages != [] {
      var init := pages[..|pages| - 1];
      var p := |pages| - 1;
      ImportPagesFollowsReadables(init);
      ImportWidgetsFollowsReadables(pages[p].entries, p, |ImportPages(init)|);
    }
  }

  /**
   * A widget's own non-empty name is kept; an unnamed widget is named
   * `field_` followed by its 1-based position in the whole scan.
   */
  lemma ImportPagesNames(pages: seq<PageScan>)
    ensures forall k :: 0 <= k < |ImportPages(pages)| ==>
              var w := ScanReadables(pages)[k].widget;
              && (w.fieldName.Some? && w.fieldName.value != [] ==> ImportPages(pages)[k].name == w.fieldName.value)
              && (w.fieldName.None? || w.fieldName.value == [] ==>
                    ImportPages(pages)[k].name == "field_" + NatToString(k + 1))
  {
    ImportPagesFollowsReadables(pages);
  }

  /** Every imported field has a name and the index of one of the pages. */
  lemma {:induction false} ImportPagesPlacement(pages: seq<PageScan>)
    ensures forall i :: 0 <= i < |ImportPages(pages)| ==>
              ImportPages(pages)[i].pageNum < |pages| && ImportPages(pages)[i].name != []
  {
    if pages != [] {
      ImportPagesPlacement(pages[..|pages| - 1]);
    }
  }

  /** The imported fields come in page order. */
  lemma {:induction false} ImportPagesInPageOrder(pages: seq<PageScan>)
    ensures forall i, j :: 0 <= i < j < |ImportPages(pages)| ==>
              ImportPages(pages)[i].pageNum <= ImportPages(pages)[j].pageNum
  {
    if pages != [] {
      var init := pages[..|pages| - 1];
      ImportPagesInPageOrder(init);
      ImportPagesPlacement(init);
    }
  }

  /**
   * Saving a field and importing the saved widget gives the field back, up
   * to the classification of multiline fields by height and the comb count
   * kept only by comb fields, provided the field's border width and font
   * size are non-zero (the import reads zero as missing).
   */
  lemma ExportImportRoundTrip(f: FormField, detected: nat)
    requires f.name != []
    requires f.style.borderWidth != 0.0 && f.style.fontSize != 0.0
    ensures ImportField(Reread(ExportField(f)), f.pageNum, detected)
            == f.(fieldType := ReimportedType(f), maxChars := if f.fieldType == Comb then f.maxChars else 0)
  {
  }
}
