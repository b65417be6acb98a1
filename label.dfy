/** The decision logic of print_label: the label text and where the text,
    the barcode or the "no data" face go on the canvas.  Pixels, fonts and
    measuring are outside the model; the measured text height is an input. */
module Label {
  import opened Json
  import opened PyStr
  import opened Lookup
  import Barcode

  /** The canvas is always 400 by 800. */
  const Width: int := 400
  const Height: int := 800
  /** The text block starts 10 from the left and ends 215 above the bottom. */
  const TextLeft: int := 10
  const TextBottomMargin: int := 215
  /** The barcode is resized to the full width and a quarter of the height. */
  const BarcodeHeight: int := 200
  /** Where the face is drawn when the product is unknown. */
  const FaceX: int := 150
  const FaceY: int := 700

  /** The name fetch_upc_data gives a product the catalog does not know. */
  const UnknownName: Value := Str("Unknown Product")

  datatype Point = Point(x: int, y: int)
  datatype Extent = Extent(width: int, height: int)

  /** What goes in the band below the text. */
  datatype Mark =
    | BarcodeImage(file: string, size: Extent, at: Point)
    | SadFace(glyph: string, at: Point)

  /** A label as data: the canvas, the text and its origin, and the mark. */
  datatype Layout = Layout(canvas: Extent, text: string, textAt: Point, mark: Mark)

  /** The label's lines in order, as the f-strings of label_text write
      them; category and description are not among them.  `fmt` renders
      numbers and containers. */
  function LabelLines(info: Product, fmt: Value -> string): seq<string> {
    [ "Product: " + Show(info.name, fmt),
      "Price: " + Show(info.price, fmt),
      "UPC: " + info.upc,
      "Brand: " + Show(info.brand, fmt),
      "Model: " + Show(info.model, fmt),
      "Color: " + Show(info.color, fmt),
      "Size: " + Show(info.size, fmt),
      "Weight: " + Show(info.weight, fmt),
      "Highest Price: " + Show(info.highestPrice, fmt),
      "EAN: " + Show(info.ean, fmt),
      "ASIN: " + Show(info.asin, fmt) ]
  }

  /** Each line followed by a newline. */
  function Terminated(lines: seq<string>): string {
    if lines == [] then "" else lines[0] + "\n" + Terminated(lines[1..])
  }

  /** label_text: every line of the label ended by a newline. */
  function LabelText(info: Product, fmt: Value -> string): string {
    Terminated(LabelLines(info, fmt))
  }

  /** Newline-terminated lines joined form the lines plus an empty tail. */
  lemma {:induction false} TerminatedIsJoin(lines: seq<string>)
    ensures Terminated(lines) == Join(lines + [""], '\n')
  {
    if lines != [] {
      TerminatedIsJoin(lines[1..]);
      assert (lines + [""])[1..] == lines[1..] + [""];
    }
  }

  /** When no field's text holds a newline, the label text splits into
      exactly eleven lines, Product, Price, UPC, Brand, Model, Color, Size,
      Weight, Highest Price, EAN and ASIN, each ended by a newline. */
  lemma LabelTextLines(info: Product, fmt: Value -> string)
    requires forall l | l in LabelLines(info, fmt) :: '\n' !in l
    ensures |LabelLines(info, fmt)| == 11
    ensures Split(LabelText(info, fmt), '\n') == LabelLines(info, fmt) + [""]
  {
    var lines := LabelLines(info, fmt);
    TerminatedIsJoin(lines);
    SplitJoin(lines + [""], '\n');
  }

  /** The text does not depend on category or description. */
  lemma LabelTextIgnoresCategoryAndDescription(info: Product, category: Value, description: Value,
                                               fmt: Value -> string)
    ensures LabelText(info.(category := category, description := description), fmt)
         == LabelText(info, fmt)
  {
  }

  /** print_label's layout for a record whose label text measures
      `textHeight`: the text block ends 15 above the barcode band, the
      band is the bottom quarter at full width, and the face replaces the
      barcode exactly for the unknown product. */
  function LabelLayout(info: Product, textHeight: nat, fmt: Value -> string): (l: Layout)
    ensures l.canvas == Extent(Width, Height) && l.text == LabelText(info, fmt)
    ensures l.textAt.x == TextLeft && l.textAt.y + textHeight == Height - BarcodeHeight - 15
    ensures l.mark.SadFace? <==> info.name == UnknownName
    ensures l.mark.SadFace? ==> l.mark.glyph == ":(" && l.mark.at == Point(FaceX, FaceY)
    ensures l.mark.BarcodeImage? ==>
      && l.mark.file == Barcode.BarcodeFile
      && l.mark.at.x == 0 && l.mark.size.width == l.canvas.width
      && l.mark.at.y + l.mark.size.height == l.canvas.height
      && 4 * l.mark.size.height == l.canvas.height
  {
    var text := LabelText(info, fmt);
    var mark :=
      if info.name == UnknownName then SadFace(":(", Point(FaceX, FaceY))
      else BarcodeImage(Barcode.BarcodeFile, Extent(Width, BarcodeHeight), Point(0, Height - BarcodeHeight));
    Layout(Extent(Width, Height), text, Point(TextLeft, Height - textHeight - TextBottomMargin), mark)
  }

  /** An invalid code still gets its barcode; a code the catalog does not
      know gets the face instead. */
  lemma MarkForPlaceholderRecords(code: string, textHeight: nat, fmt: Value -> string)
    ensures LabelLayout(InvalidProduct(code), textHeight, fmt).mark.BarcodeImage?
    ensures LabelLayout(UnknownProduct(code), textHeight, fmt).mark.SadFace?
  {
  }
}
