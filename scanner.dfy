/** main: the scan loop.  Each non-blank stripped input line is looked up,
    barcoded, laid out and printed before the next line is read; an
    exception from the lookup ends the session. */
module Scanner {
  import opened Results
  import opened Json
  import opened PyStr
  import opened Lookup
  import opened Label
  import Barcode

  const PrinterName: string := "Zebra_Technologies_ZTC_ZD410_203dpi_ZPL_printserver"
  const LookupUrl: string := "https://api.upcitemdb.com/prod/trial/lookup?upc="
  const LabelFile: string := "label.png"
  const JobTitle: string := "Label"
  const FirstPrompt: string := "Please scan a UPC code:"
  const NextPrompt: string := "Please scan the next UPC code:"
  const Fetching: string := "Fetching product information..."

  /** What a session does to the outside world, in order. */
  datatype Event =
    | Say(line: string)                                   // a line on standard output
    | Request(url: string)                                // the catalog lookup
    | GenerateBarcode(code: string, filePath: string)     // generate_barcode(code, filePath)
    | SaveLabel(layout: Layout, path: string)             // label_image.save
    | PrintFile(printer: string, path: string, title: string)  // conn.printFile

  /** The collaborators outside the model: the catalog's answer to the n-th
      request, the measured height of a label text, and the printing of
      numbers and containers. */
  datatype Env = Env(respond: (nat, string) -> Response, measure: string -> nat, fmt: Value -> string)

  /** The state of a session: what it has done, the codes it has looked
      up, and the exception that ended it, if any. */
  datatype Session = Session(events: seq<Event>, scanned: seq<string>, failure: Option<Error>)

  /** The codes the loop processes when nothing fails: each line stripped,
      blank ones skipped, in input order. */
  function ScannedCodes(lines: seq<string>): seq<string> {
    if lines == [] then []
    else
      var code := Strip(lines[0]);
      (if code == [] then [] else [code]) + ScannedCodes(lines[1..])
  }

  /** Scanning two batches of lines is scanning each in turn. */
  lemma {:induction false} ScannedCodesAppend(a: seq<string>, b: seq<string>)
    ensures ScannedCodes(a + b) == ScannedCodes(a) + ScannedCodes(b)
  {
    if a != [] {
      ScannedCodesAppend(a[1..], b);
      assert (a + b)[1..] == a[1..] + b;
    } else {
      assert a + b == b;
    }
  }

  /** Every processed code is non-blank, already stripped, and the
      stripped form of some input line. */
  lemma {:induction false} ScannedCodesAreLines(lines: seq<string>, j: nat)
    requires j < |ScannedCodes(lines)|
    ensures ScannedCodes(lines)[j] != [] && Strip(ScannedCodes(lines)[j]) == ScannedCodes(lines)[j]
    ensures exists i :: 0 <= i < |lines| && Strip(lines[i]) == ScannedCodes(lines)[j]
  {
    var code := Strip(lines[0]);
    var rest := ScannedCodes(lines[1..]);
    if code != [] && j == 0 {
      StripIdempotent(lines[0]);
    } else {
      var j' := if code == [] then j else j - 1;
      ScannedCodesAreLines(lines[1..], j');
      var i' :| 0 <= i' < |lines[1..]| && Strip(lines[1..][i']) == rest[j'];
      assert Strip(lines[i' + 1]) == ScannedCodes(lines)[j];
    }
  }

  /** Every non-blank line is processed. */
  lemma {:induction false} ScannedCodesComplete(lines: seq<string>, i: nat)
    requires i < |lines| && Strip(lines[i]) != []
    ensures Strip(lines[i]) in ScannedCodes(lines)
  {
    if i > 0 {
      ScannedCodesComplete(lines[1..], i - 1);
      assert lines[1..][i - 1] == lines[i];
    }
  }

  /** The lookup's part of a code's events: the progress line, the
      request, and the notice fetch_upc_data prints for an invalid code. */
  function LookupEvents(code: string, resp: Response): seq<Event> {
    [Say(Fetching), Request(LookupUrl + code)]
      + (if resp.status == 400 then [Say("Invalid UPC code: " + code)] else [])
  }

  /** The events after a successful lookup: the barcode file, the label
      file, its print job and the prompt for the next code. */
  function LabelEvents(code: string, layout: Layout): seq<Event> {
    [GenerateBarcode(code, Barcode.BarcodeFile),
     SaveLabel(layout, LabelFile),
     PrintFile(PrinterName, LabelFile, JobTitle),
     Say(NextPrompt)]
  }

  /** print_label's layout, the text measured as the environment does. */
  function LabelFor(info: Product, env: Env): Layout {
    LabelLayout(info, env.measure(LabelText(info, env.fmt)), env.fmt)
  }

  /** What one scanned code causes: the lookup, then either the exception
      or the barcode, the label and its print job. */
  function CodeEvents(code: string, resp: Response, env: Env): (seq<Event>, Option<Error>) {
    match FetchUpcData(code, resp)
    case Err(e) => (LookupEvents(code, resp), Some(e))
    case Ok(info) => (LookupEvents(code, resp) + LabelEvents(code, LabelFor(info, env)), None)
  }

  /** One turn of the loop; after an exception nothing more is read. */
  function Step(s: Session, line: string, env: Env): Session {
    if s.failure.Some? then s
    else
      var code := Strip(line);
      if code == [] then s
      else
        var out := CodeEvents(code, env.respond(|s.scanned|, LookupUrl + code), env);
        Session(s.events + out.0, s.scanned + [code], out.1)
  }

  /** The session after reading `lines`. */
  function Run(lines: seq<string>, env: Env): Session
    decreases |lines|
  {
    if lines == [] then Session([Say(FirstPrompt)], [], None)
    else Step(Run(lines[..|lines| - 1], env), lines[|lines| - 1], env)
  }

  /** Once a session has failed, later lines change nothing. */
  lemma {:induction false} RunStopsAtFailure(lines: seq<string>, i: nat, env: Env)
    requires i <= |lines| && Run(lines[..i], env).failure.Some?
    ensures Run(lines, env) == Run(lines[..i], env)
    decreases |lines|
  {
    if i < |lines| {
      var init := lines[..|lines| - 1];
      assert init[..i] == lines[..i];
      RunStopsAtFailure(init, i, env);
    } else {
      assert lines[..i] == lines;
    }
  }

  /** One pass of the loop body for a non-blank code: fetch_upc_data,
      generate_barcode and print_label in turn. */
  method ProcessCode(code: string, requestIndex: nat, env: Env) returns (events: seq<Event>, failure: Option<Error>)
    ensures (events, failure) == CodeEvents(code, env.respond(requestIndex, LookupUrl + code), env)
  {
    var resp := env.respond(requestIndex, LookupUrl + code);
    events := LookupEvents(code, resp);
    var result := FetchUpcData(code, resp);
    if result.Err? {
      return events, Some(result.error);
    }
    var info := result.value;
    var text := LabelText(info, env.fmt);
    var layout := LabelLayout(info, env.measure(text), env.fmt);
    events := events + LabelEvents(code, layout);
    failure := None;
  }

  /** The loop of main over the lines standard input delivers. */
  method RunScanner(lines: seq<string>, env: Env) returns (events: seq<Event>, failure: Option<Error>)
    ensures events == Run(lines, env).events
    ensures failure == Run(lines, env).failure
  {
    events := [Say(FirstPrompt)];
    failure := None;
    var scanned: seq<string> := [];
    var i := 0;
    while i < |lines|
      invariant 0 <= i <= |lines|
      invariant Run(lines[..i], env) == Session(events, scanned, failure)
      invariant failure.None?
    {
      assert lines[..i + 1][..i] == lines[..i];
      var code := Strip(lines[i]);
      i := i + 1;
      if code == [] {
        continue;
      }
      var more, err := ProcessCode(code, |scanned|, env);
      events, scanned := events + more, scanned + [code];
      if err.Some? {
        failure := err;
        break;
      }
    }
    if failure.Some? {
      RunStopsAtFailure(lines, i, env);
    } else {
      assert lines[..i] == lines;
    }
  }

  /* What a session shows the outside: its lookups and its print jobs. */

  /** The URLs requested, in order. */
  function Lookups(events: seq<Event>): seq<string> {
    if events == [] then []
    else (if events[0].Request? then [events[0].url] else []) + Lookups(events[1..])
  }

  /** The print jobs submitted, in order. */
  function Jobs(events: seq<Event>): seq<Event> {
    if events == [] then []
    else (if events[0].PrintFile? then [events[0]] else []) + Jobs(events[1..])
  }

  /** The generate_barcode calls made, in order. */
  function Barcodes(events: seq<Event>): seq<Event> {
    if events == [] then []
    else (if events[0].GenerateBarcode? then [events[0]] else []) + Barcodes(events[1..])
  }

  lemma {:induction false} ProjectionsAppend(a: seq<Event>, b: seq<Event>)
    ensures Lookups(a + b) == Lookups(a) + Lookups(b)
    ensures Jobs(a + b) == Jobs(a) + Jobs(b)
    ensures Barcodes(a + b) == Barcodes(a) + Barcodes(b)
  {
    if a != [] {
      ProjectionsAppend(a[1..], b);
      assert (a + b)[1..] == a[1..] + b;
    } else {
      assert a + b == b;
    }
  }

  /** Output to standard output is no request, barcode or job. */
  lemma SayShape(msg: string)
    ensures Lookups([Say(msg)]) == [] && Jobs([Say(msg)]) == [] && Barcodes([Say(msg)]) == []
  {
    assert [Say(msg)][1..] == [];
  }

  /** The lookup makes one request, for the code's own URL, and no
      barcode or job. */
  lemma LookupEventsShape(code: string, resp: Response)
    ensures Lookups(LookupEvents(code, resp)) == [LookupUrl + code]
    ensures Jobs(LookupEvents(code, resp)) == []
    ensures Barcodes(LookupEvents(code, resp)) == []
  {
    var notice: seq<Event> := if resp.status == 400 then [Say("Invalid UPC code: " + code)] else [];
    ProjectionsAppend([Say(Fetching)], [Request(LookupUrl + code)]);
    ProjectionsAppend([Say(Fetching), Request(LookupUrl + code)], notice);
  }

  /** A printed label makes no request, one barcode for its code, and one
      job, of label.png to the label printer. */
  lemma LabelEventsShape(code: string, layout: Layout)
    ensures Lookups(LabelEvents(code, layout)) == []
    ensures Barcodes(LabelEvents(code, layout)) == [GenerateBarcode(code, Barcode.BarcodeFile)]
    ensures Jobs(LabelEvents(code, layout)) == [PrintFile(PrinterName, LabelFile, JobTitle)]
  {
    var tail := LabelEvents(code, layout);
    assert tail[3..] == [Say(NextPrompt)];
    SayShape(NextPrompt);
    assert tail[2..][1..] == tail[3..];
    assert Lookups(tail[2..]) == [] && Jobs(tail[2..]) == [tail[2]] && Barcodes(tail[2..]) == [];
    assert tail[1..][1..] == tail[2..];
  }

  /** A code makes exactly one request, for its own URL, and one barcode
      and one print job when its lookup succeeds, none otherwise; the
      session fails with the lookup's exception when there is one. */
  lemma CodeEventsShape(code: string, resp: Response, env: Env)
    ensures Lookups(CodeEvents(code, resp, env).0) == [LookupUrl + code]
    ensures Barcodes(CodeEvents(code, resp, env).0)
         == if FetchUpcData(code, resp).Ok? then [GenerateBarcode(code, Barcode.BarcodeFile)] else []
    ensures Jobs(CodeEvents(code, resp, env).0)
         == if FetchUpcData(code, resp).Ok? then [PrintFile(PrinterName, LabelFile, JobTitle)] else []
    ensures CodeEvents(code, resp, env).1.Some? <==> FetchUpcData(code, resp).Err?
    ensures CodeEvents(code, resp, env).1.Some? ==> CodeEvents(code, resp, env).1.value == FetchUpcData(code, resp).error
  {
    LookupEventsShape(code, resp);
    match FetchUpcData(code, resp)
    case Err(_) =>
    case Ok(info) =>
      LabelEventsShape(code, LabelFor(info, env));
      ProjectionsAppend(LookupEvents(code, resp), LabelEvents(code, LabelFor(info, env)));
  }

  /** Without an exception the session looks up exactly the scanned codes;
      with one, a prefix of them. */
  lemma {:induction false} RunScansCodes(lines: seq<string>, env: Env)
    ensures Run(lines, env).scanned <= ScannedCodes(lines)
    ensures Run(lines, env).failure.None? ==> Run(lines, env).scanned == ScannedCodes(lines)
    decreases |lines|
  {
    if lines != [] {
      var init := lines[..|lines| - 1];
      var line := lines[|lines| - 1];
      RunScansCodes(init, env);
      assert lines == init + [line];
      ScannedCodesAppend(init, [line]);
      var code := Strip(line);
      assert ScannedCodes([line]) == if code == [] then [] else [code];
    }
  }

  /** A session that raised did so in the lookup of the last code it
      scanned. */
  lemma {:induction false} RunFailsInLastLookup(lines: seq<string>, env: Env)
    requires Run(lines, env).failure.Some?
    ensures Run(lines, env).scanned != []
    ensures var s := Run(lines, env).scanned;
      FetchUpcData(s[|s| - 1], env.respond(|s| - 1, LookupUrl + s[|s| - 1]))
        == Err(Run(lines, env).failure.value)
    decreases |lines|
  {
    var init := lines[..|lines| - 1];
    var line := lines[|lines| - 1];
    var s := Run(init, env);
    if s.failure.Some? {
      RunFailsInLastLookup(init, env);
    } else {
      var code := Strip(line);
      var resp := env.respond(|s.scanned|, LookupUrl + code);
      CodeEventsShape(code, resp, env);
    }
  }

  /** The k-th request of a session is for the k-th scanned code, and it
      submits one print job, always of label.png to the label printer, for
      every code whose lookup did not raise. */
  lemma {:induction false} RunTrace(lines: seq<string>, env: Env)
    ensures |Lookups(Run(lines, env).events)| == |Run(lines, env).scanned|
    ensures forall k | 0 <= k < |Run(lines, env).scanned| ::
      Lookups(Run(lines, env).events)[k] == LookupUrl + Run(lines, env).scanned[k]
    ensures |Jobs(Run(lines, env).events)| + (if Run(lines, env).failure.Some? then 1 else 0)
         == |Run(lines, env).scanned|
    ensures forall e | e in Jobs(Run(lines, env).events) :: e == PrintFile(PrinterName, LabelFile, JobTitle)
    decreases |lines|
  {
    if lines == [] {
      SayShape(FirstPrompt);
    } else {
      var init := lines[..|lines| - 1];
      var line := lines[|lines| - 1];
      RunTrace(init, env);
      var s := Run(init, env);
      if s.failure.None? && Strip(line) != [] {
        var code := Strip(line);
        var out := CodeEvents(code, env.respond(|s.scanned|, LookupUrl + code), env);
        CodeEventsShape(code, env.respond(|s.scanned|, LookupUrl + code), env);
        ProjectionsAppend(s.events, out.0);
      }
    }
  }

  /** Every code whose lookup did not raise gets one generate_barcode call
      for that code and "barcode.png", in scanning order. */
  lemma {:induction false} RunBarcodes(lines: seq<string>, env: Env)
    ensures |Barcodes(Run(lines, env).events)| + (if Run(lines, env).failure.Some? then 1 else 0)
         == |Run(lines, env).scanned|
    ensures forall k | 0 <= k < |Barcodes(Run(lines, env).events)| ::
      Barcodes(Run(lines, env).events)[k] == GenerateBarcode(Run(lines, env).scanned[k], Barcode.BarcodeFile)
    decreases |lines|
  {
    if lines == [] {
      SayShape(FirstPrompt);
    } else {
      var init := lines[..|lines| - 1];
      var line := lines[|lines| - 1];
      RunBarcodes(init, env);
      var s := Run(init, env);
      if s.failure.None? && Strip(line) != [] {
        var code := Strip(line);
        var out := CodeEvents(code, env.respond(|s.scanned|, LookupUrl + code), env);
        CodeEventsShape(code, env.respond(|s.scanned|, LookupUrl + code), env);
        ProjectionsAppend(s.events, out.0);
      }
    }
  }

  /** The events of the scanned codes, one code after the other: the k-th
      code's lookup, barcode, label and job, then the next code's. */
  function Transcript(codes: seq<string>, env: Env): seq<Event>
    decreases |codes|
  {
    if codes == [] then []
    else
      var k := |codes| - 1;
      Transcript(codes[..k], env) + CodeEvents(codes[k], env.respond(k, LookupUrl + codes[k]), env).0
  }

  lemma Associative(a: seq<Event>, b: seq<Event>, c: seq<Event>)
    ensures a + b + c == a + (b + c)
  {
  }

  /** Scanning one more code appends that code's events. */
  lemma TranscriptSnoc(codes: seq<string>, code: string, env: Env)
    ensures Transcript(codes + [code], env)
         == Transcript(codes, env) + CodeEvents(code, env.respond(|codes|, LookupUrl + code), env).0
  {
    assert (codes + [code])[..|codes|] == codes;
  }

  /** A session is the first prompt followed by the events of each scanned
      code in turn; no code's events interleave with the next code's. */
  lemma {:induction false} RunIsTranscript(lines: seq<string>, env: Env)
    ensures Run(lines, env).events == [Say(FirstPrompt)] + Transcript(Run(lines, env).scanned, env)
    decreases |lines|
  {
    if lines != [] {
      var init := lines[..|lines| - 1];
      var line := lines[|lines| - 1];
      RunIsTranscript(init, env);
      var s := Run(init, env);
      if s.failure.None? && Strip(line) != [] {
        var code := Strip(line);
        var out := CodeEvents(code, env.respond(|s.scanned|, LookupUrl + code), env);
        assert Run(lines, env) == Session(s.events + out.0, s.scanned + [code], out.1);
        TranscriptSnoc(s.scanned, code, env);
        Associative([Say(FirstPrompt)], Transcript(s.scanned, env), out.0);
      }
    }
  }
}
