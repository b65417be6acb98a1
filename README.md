# printerscanner label program, modelled in Dafny

`fetch_upc.py` reads scanned UPC codes from standard input. For each code it
looks the product up in the upcitemdb catalog and normalises the answer into
a fixed 13-field product record. It then has a Code128 barcode image written
and composes a 400x800 label: eleven text lines, then either the barcode or a
":(" face. The label is sent to a Zebra printer through CUPS.

This project models the decision logic of that program. The HTTP client, the
barcode library, PIL and CUPS are left outside.

- `results.dfy` (`Results`): `Option` and `Result`.
- `json.dfy` (`Json`): decoded JSON values, with Python truthiness (`Truthy`)
  and `str()` (`Show`). `Show` renders strings, `None` and booleans exactly.
  Numbers and containers go through a formatter that is passed in.
- `pystr.dfy` (`PyStr`): `str.strip()` with Python's `isspace` character set,
  and `str.split(sep)` / `sep.join` for a one-character separator. Split and
  join are proved to be inverses in both directions.
- `lookup.dfy` (`Lookup`): `fetch_upc_data` as a total function from the
  scanned code and an abstract HTTP response (a status code and a decoded
  body, or `None` when the body is not JSON) to a `Product` or to the
  exception Python would raise. Every error path after the response arrives
  is modelled:
  - `raise_for_status` for statuses 400–599 other than 400;
  - `JSONDecodeError`;
  - the `KeyError` or `TypeError` raised by `upc_data['items']` and
    `items[0]` on each JSON shape;
  - the `AttributeError` raised by `.get` when the first item is not a dict.

  `items[0]` runs only after `items` has tested truthy, so it never meets an
  empty list or string; `NeverIndexError` proves that `IndexError` cannot
  occur. A field table (`Field`, `SourceKey`, `Default`, `FieldOf`) is proved
  to agree with `InvalidProduct`, `UnknownProduct` and `FromItem`, the three
  record literals of the source.
- `barcode.dfy` (`Barcode`): the name `generate_barcode` saves the barcode
  under, `file_path.split('.')[0]`. A lemma shows that the saved name plus the
  writer's `.png` is the `barcode.png` that `print_label` opens.
- `label.dfy` (`Label`): the label text and the layout as data. The layout
  holds the canvas size, the text origin, and either the barcode's file, size
  and position or the face's glyph and position. The measured text height is
  an input.
- `scanner.dfy` (`Scanner`): `main`'s loop. `RunScanner` is a method with a
  `while` loop and `continue`/`break`, proved equal to the specification
  `Run`. Each code goes through `ProcessCode`: fetch, generate the barcode,
  print the label. `Run` records what the session does, in order: standard
  output lines, lookup requests, the `generate_barcode` call, the saved label
  and the print job. When an exception escapes, `Run` stops, as the source has
  no per-scan error handling. For the request number and URL, the catalog's
  answer comes from an oracle in `Env`. The text height comes from a
  measuring function in `Env`.

`print_label` has no word wrapping, no filtering of placeholder attribute
lines, no product photo and no dynamic canvas height. The canvas is always
400x800 (fetch_upc.py:87). All eleven lines are always printed
(fetch_upc.py:72-84). An invalid code still gets a barcode. Only the exact
name "Unknown Product" gets the face (fetch_upc.py:102).

The eleven-line shape of the label text holds only when no field's rendered
value contains a newline. `LabelTextLines` therefore requires that. A title
with an embedded newline produces more lines.

## Model

| member | source | states |
|---|---|---|
| `Lookup.FetchUpcData` | fetch_upc.py:9-65 | Status 400 gives the invalid-code record. The result is an HTTP error exactly when the status is in 400–599 and is not 400, and the error carries that status. A non-error status with an undecodable body gives a JSON decode error. Every record's upc is the scanned code. |
| `Lookup.Normalise` | fetch_upc.py:32-65 | A falsy document gives the unknown-product record, and so do falsy `items`. A truthy document that is not a dict gives `TypeError`. A non-empty dict without `items` gives `KeyError('items')`. Any record's upc is the code. |
| `Lookup.FromItemFields` | fetch_upc.py:34-50 | Each field of a record built from an item is the item's value under its source key when that key is present, even if the value is null, and the field's default otherwise. `title`, `lowest_recorded_price` and `highest_recorded_price` are read for name, price and highest_price. upc is the code, never the item's. |
| `Lookup.UnknownProductIsDefaults` | fetch_upc.py:51-65 | Every field of the unknown-product record is at its default. The record equals the record of an empty item. |
| `Lookup.InvalidProductFields` | fetch_upc.py:13-29 | The invalid-code record has name "Invalid UPC" and description "Invalid UPC code provided". Every other field, both 0.0 prices included, is at its "Unknown …" default, and upc is the code. |
| `Lookup.FirstItemRecord` | fetch_upc.py:34-50 | A successful response whose items list starts with a dict gives exactly the record of that dict. |
| `Lookup.OnlyFirstItemMatters` | fetch_upc.py:35 | The items after `items[0]` never change the outcome, whatever `items[0]` is. |
| `Lookup.NeverIndexError` | fetch_upc.py:34-35 | No response makes the lookup raise `IndexError`: `items[0]` is reached only with a non-empty list or string. |
| `Lookup.BodyErrors` | fetch_upc.py:31-50 | For a status that does not raise, the result is an error exactly when one of these holds: the body does not decode; the document is truthy but not a dict; it is a non-empty dict without `items`; or its `items` are truthy and are not a list starting with a dict. |
| `PyStr.TrimStart` | fetch_upc.py:126 | What lstrip leaves is no longer than the input and does not start with whitespace. |
| `PyStr.TrimEnd` | fetch_upc.py:126 | What rstrip leaves is no longer than the input and does not end with whitespace. |
| `PyStr.TrimStartSpec` | fetch_upc.py:126 | lstrip keeps a suffix of the input and removes only whitespace. |
| `PyStr.TrimEndSpec` | fetch_upc.py:126 | rstrip keeps a prefix of the input and removes only whitespace. |
| `PyStr.StripSpec` | fetch_upc.py:126 | strip leaves a slice of the input with only whitespace around it. The slice neither starts nor ends with whitespace. It is empty exactly when the line is all whitespace. |
| `PyStr.StripIdempotent` | fetch_upc.py:126 | Stripping an already stripped code changes nothing. |
| `PyStr.Split` | fetch_upc.py:69 | `split('.')` always yields at least one piece. |
| `PyStr.SplitPiecesFree` | fetch_upc.py:69 | No piece of a split contains the separator. |
| `PyStr.JoinSplit` | fetch_upc.py:69 | Joining the pieces of a split with the separator gives back the string. |
| `PyStr.SplitCons` | fetch_upc.py:69 | A leading non-separator character becomes the start of the first piece. |
| `PyStr.SplitPrefix` | fetch_upc.py:69 | A separator-free prefix becomes the start of the first piece. |
| `PyStr.SplitJoin` | fetch_upc.py:69 | Splitting the join of separator-free pieces gives back the pieces, so split and join are inverses both ways. |
| `Barcode.BaseName` | fetch_upc.py:69 | The saved name is a dot-free prefix of the path. It is the whole path when the path has no dot. Otherwise a dot follows it in the path. |
| `Barcode.BaseNameOfDotted` | fetch_upc.py:69 | A dot-free name followed by "." and an extension gives back the name. |
| `Barcode.BarcodeFileAgrees` | fetch_upc.py:107 | "barcode.png" gives "barcode". That name plus the writer's ".png" is the file `print_label` opens. |
| `Label.TerminatedIsJoin` | fetch_upc.py:72-84 | Lines each ended by a newline are the join of the lines plus an empty last piece. |
| `Label.LabelTextLines` | fetch_upc.py:72-84 | When no field's text contains a newline, the label text splits into exactly 11 newline-terminated lines, in this order: Product, Price, UPC, Brand, Model, Color, Size, Weight, Highest Price, EAN, ASIN. |
| `Label.LabelTextIgnoresCategoryAndDescription` | fetch_upc.py:72-84 | The label text does not depend on category or description. |
| `Label.LabelLayout` | fetch_upc.py:87-113 | The canvas is 400x800. The text starts at x=10 and its block ends at y=585, 15 above the barcode band. The face replaces the barcode exactly when name is "Unknown Product", and the face is ":(" at (150,700). Otherwise `barcode.png` is placed at x=0 at full width, in the bottom quarter of the canvas, ending at the bottom edge. |
| `Label.MarkForPlaceholderRecords` | fetch_upc.py:102-113 | The invalid-code record gets the barcode. The unknown-product record gets the face. |
| `Scanner.ScannedCodesAppend` | fetch_upc.py:125-128 | The codes scanned from two batches of lines are the first batch's codes followed by the second's, in input order. |
| `Scanner.ScannedCodesAreLines` | fetch_upc.py:125-128 | Every processed code is non-blank, already stripped, and the stripped form of some input line. |
| `Scanner.ScannedCodesComplete` | fetch_upc.py:125-128 | Every line that is non-blank after stripping is processed. |
| `Scanner.LookupEventsShape` | fetch_upc.py:10-14 | A lookup makes exactly one request, for the code's own URL, and no barcode or print job. |
| `Scanner.LabelEventsShape` | fetch_upc.py:116-133 | A printed label makes no request, exactly one barcode for its code saved as "barcode.png", and exactly one print job: "label.png", titled "Label", to the Zebra printer. |
| `Scanner.CodeEventsShape` | fetch_upc.py:129-133 | A code makes one request. It makes one barcode and one print job if its lookup succeeds and neither otherwise. The session fails exactly when the lookup raises, and with that lookup's exception. |
| `Scanner.ProcessCode` | fetch_upc.py:129-133 | The loop body for one code produces exactly that code's events and outcome: fetch, generate the barcode, lay out, save, print, prompt. |
| `Scanner.RunStopsAtFailure` | fetch_upc.py:125-133 | Once an exception has escaped, later input lines change nothing. |
| `Scanner.RunScanner` | fetch_upc.py:122-133 | The `for line in sys.stdin` loop, with `continue` on blank lines and termination on the first exception, produces exactly the events and outcome of the session specification. |
| `Scanner.RunScansCodes` | fetch_upc.py:125-133 | If nothing raises, the codes looked up are exactly the stripped non-blank lines, in order. If something raises, they are a prefix of those codes. |
| `Scanner.RunFailsInLastLookup` | fetch_upc.py:130 | A session that raised did so in the lookup of the last code it scanned, and with that lookup's exception. |
| `Scanner.RunTrace` | fetch_upc.py:125-133 | The k-th request of a session is for the k-th scanned code. Every code whose lookup did not raise gets one print job, always "label.png" to the Zebra printer. |
| `Scanner.RunBarcodes` | fetch_upc.py:125-133 | The k-th barcode of a session is generated for the k-th scanned code, as "barcode.png". There is one for each code whose lookup did not raise. |
| `Scanner.RunIsTranscript` | fetch_upc.py:122-133 | A session's events are the first prompt, then each scanned code's own events in scanning order: its lookup, then its barcode, label, print job and prompt when the lookup succeeded. No two codes' events interleave. |

## Left out

- Network: `requests.get` and URL construction are not modelled. Transport exceptions (connection errors, timeouts) and the percent-encoding requests applies to the URL are not modelled either. The response is an input from an oracle. The model assumes the oracle's answer depends only on the request number and the URL.
- JSON decoding: the body arrives decoded, or as `None` when response.json() would raise. The JSON values NaN and Infinity are not modelled. Floats are modelled as reals.
- Number and container formatting: Python's `str()` of ints, floats, lists and dicts in the label text is an abstract formatter. Strings, `None` and booleans are rendered exactly.
- Barcode library: Code128 encoding and rasterisation are not modelled. Their failure on characters Code128 cannot encode is not modelled either, so the session treats `generate_barcode` as always succeeding. That the image writer appends ".png" is an assumption about the library.
- PIL: font loading and its fallback, `textbbox` (replaced by the measuring function), drawing, colours, resizing, pasting and saving pixels are not modelled.
- CUPS: `printFile` is recorded as an event and never fails.
- Standard output is recorded as `Say` events. The traceback the interpreter prints when an exception escapes is not modelled. Standard input is the sequence of lines that iterating `sys.stdin` yields, newline endings included.
