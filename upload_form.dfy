/** The editable metadata form of the upload page (`src/app/documents/upload/page.tsx`) and of the
    upload wizard (`src/components/document-upload-wizard.tsx`): the initial form, the pre-fill
    from an analysis, and the parsers that turn the text inputs back into lists and records. */
module UploadForm {
  import opened Common
  import opened Text
  import opened JsonValues

  /** `xs.map(s => s.trim())`. */
  function TrimAll(xs: seq<string>): (r: seq<string>)
    ensures |r| == |xs|
    ensures forall i :: 0 <= i < |xs| ==> r[i] == Trim(xs[i])
  {
    seq(|xs|, i requires 0 <= i < |xs| => Trim(xs[i]))
  }

  /** The trimmed pieces of a split are trimmed and free of the separator. */
  lemma TrimmedPieces(value: string, sep: char)
    ensures forall x :: x in TrimAll(Split(value, sep)) ==> IsTrimmed(x) && sep !in x
  {
    var pieces := Split(value, sep);
    forall i | 0 <= i < |pieces| ensures IsTrimmed(Trim(pieces[i])) && sep !in Trim(pieces[i]) {
      TrimIsTrimmed(pieces[i]);
      TrimKeepsAbsent(pieces[i], sep);
    }
  }

  /** `.filter(s => s.length > 0)` and `.filter(Boolean)` on strings. */
  predicate NonEmpty(s: string) {
    s != ""
  }

  /** Acts, accused and victim names on the page: `value.split(",").map(trim).filter(s =>
      s.length > 0)`. Every entry is trimmed, non-empty and free of commas. */
  function ParseList(value: string): (r: seq<string>)
    ensures forall x :: x in r ==> x != "" && IsTrimmed(x) && ',' !in x
  {
    TrimmedPieces(value, ',');
    Filter(TrimAll(Split(value, ',')), NonEmpty)
  }

  /** Sections on the page: split and trimmed, with empty entries kept. */
  function ParseSectionsKeepingEmpty(value: string): (r: seq<string>)
    ensures |r| == |Split(value, ',')|
    ensures forall x :: x in r ==> IsTrimmed(x) && ',' !in x
  {
    TrimmedPieces(value, ',');
    TrimAll(Split(value, ','))
  }

  /** Acts and sections in the wizard: `value ? value.split(",").map(trim).filter(Boolean) : []`. */
  function ParseListWizard(value: string): seq<string> {
    if value == "" then [] else Filter(TrimAll(Split(value, ',')), NonEmpty)
  }

  /** The wizard's guard for the empty input changes nothing: both parsers agree on every input,
      so an empty input yields `[]` in both. */
  lemma WizardParsesLikePage(value: string)
    ensures ParseListWizard(value) == ParseList(value)
    ensures ParseList("") == []
  {
    assert Split("", ',') == [""];
    assert TrimAll([""]) == [""];
    assert Filter([""], NonEmpty) == [];
  }

  /** The page drops nothing from the sections, so an emptied sections box yields one empty
      section, while the wizard yields none. */
  lemma SectionsKeepEmpty()
    ensures ParseSectionsKeepingEmpty("") == [""]
    ensures ParseListWizard("") == []
  {
    assert Split("", ',') == [""];
    assert TrimAll([""]) == [""];
  }

  /** `xs.join(", ").split(",")`: the first entry, then each later entry behind its space. */
  lemma SplitJoinedList(xs: seq<string>)
    requires |xs| >= 1
    requires forall x :: x in xs ==> ',' !in x
    ensures Split(Join(xs, ", "), ',') == [xs[0]] + PadEach(xs[1..], " ")
  {
    var ys := [xs[0]] + PadEach(xs[1..], " ");
    assert ", " == "," + " ";
    JoinPadded(xs, ",", " ");
    forall i | 0 <= i < |ys| ensures ',' !in ys[i] {
      if i > 0 {
        assert ys[i] == " " + xs[i] && xs[i] in xs;
      }
    }
    assert "," == [','];
    SplitJoin(ys, ',');
  }

  /** Trimming the pieces of a joined list of trimmed entries gives the entries back. */
  lemma TrimJoinedPieces(xs: seq<string>)
    requires |xs| >= 1
    requires forall x :: x in xs ==> IsTrimmed(x)
    ensures TrimAll([xs[0]] + PadEach(xs[1..], " ")) == xs
  {
    assert AllSpace(" ");
    forall i | 0 <= i < |xs| ensures IsTrimmed(xs[i]) {
      assert xs[i] in xs;
    }
    TrimPaddedPieces(xs, " ");
  }

  lemma TrimPaddedPieces(xs: seq<string>, pad: string)
    requires |xs| >= 1 && AllSpace(pad)
    requires forall i :: 0 <= i < |xs| ==> IsTrimmed(xs[i])
    ensures TrimAll([xs[0]] + PadEach(xs[1..], pad)) == xs
  {
    var pads := PadEach(xs[1..], pad);
    var ys := [xs[0]] + pads;
    var zs := TrimAll(ys);
    TrimmedFixed(xs[0]);
    forall i | 1 <= i < |xs| ensures zs[i] == xs[i] {
      assert ys[i] == pad + xs[i] by {
        assert ys[i] == pads[i - 1];
        assert xs[1..][i - 1] == xs[i];
      }
      TrimSpec(pad, xs[i]);
    }
    assert zs == xs;
  }

  /** A list that is shown as `join(", ")` and edited without change parses back to itself, when
      its entries are trimmed, non-empty and free of commas. */
  lemma ListRoundTrip(xs: seq<string>)
    requires forall x :: x in xs ==> x != "" && IsTrimmed(x) && ',' !in x
    ensures ParseList(Join(xs, ", ")) == xs
  {
    if xs == [] {
      WizardParsesLikePage("");
    } else {
      var pieces := Split(Join(xs, ", "), ',');
      SplitJoinedList(xs);
      TrimJoinedPieces(xs);
      ParseOfTrimmedPieces(Join(xs, ", "), xs);
    }
  }

  /** When the trimmed pieces of the input are all non-empty, they are the parsed list. */
  lemma ParseOfTrimmedPieces(value: string, xs: seq<string>)
    requires TrimAll(Split(value, ',')) == xs
    requires forall x :: x in xs ==> x != ""
    ensures ParseList(value) == xs
  {
    forall i | 0 <= i < |xs| ensures NonEmpty(xs[i]) {
      assert xs[i] in xs;
    }
    FilterAll(xs, NonEmpty);
  }

  /** `{ name: n }`. */
  function NameObject(n: string): Json {
    JObj(map["name" := JStr(n)])
  }

  function NameObjects(names: seq<string>): (r: seq<Json>)
    ensures |r| == |names|
    ensures forall i :: 0 <= i < |names| ==> r[i] == NameObject(names[i])
  {
    seq(|names|, i requires 0 <= i < |names| => NameObject(names[i]))
  }

  /** Accused and victim names as edited: one `{name}` per non-empty trimmed entry. */
  function ParseNames(value: string): seq<Json> {
    NameObjects(ParseList(value))
  }

  /** `a?.name` of a list entry, kept only when it is a non-empty string (`.filter(Boolean)`). */
  function ShownName(a: Json): seq<string> {
    if a.JObj? && "name" in a.fields && a.fields["name"].JStr? && a.fields["name"].s != ""
    then [a.fields["name"].s] else []
  }

  function ShownNames(list: seq<Json>): seq<string>
    decreases |list|
  {
    if list == [] then [] else ShownName(list[0]) + ShownNames(list[1..])
  }

  /** `list?.map(a => a?.name).filter(Boolean).join(", ") || ""`. */
  function NamesDisplay(list: seq<Json>): string {
    Join(ShownNames(list), ", ")
  }

  lemma {:induction false} ShownNamesOfObjects(names: seq<string>)
    requires forall x :: x in names ==> x != ""
    ensures ShownNames(NameObjects(names)) == names
    decreases |names|
  {
    if names != [] {
      assert forall x :: x in names[1..] ==> x in names;
      ShownNamesOfObjects(names[1..]);
      assert NameObjects(names)[1..] == NameObjects(names[1..]);
      assert names[0] in names;
    }
  }

  /** Names shown in the box and edited without change come back as the same `{name}` list. */
  lemma NamesRoundTrip(names: seq<string>)
    requires forall x :: x in names ==> x != "" && IsTrimmed(x) && ',' !in x
    ensures ParseNames(NamesDisplay(NameObjects(names))) == NameObjects(names)
  {
    ShownNamesOfObjects(names);
    ListRoundTrip(names);
  }

  /** One vehicle: a registration number and an optional type. */
  datatype Vehicle = Vehicle(regNo: string, kind: Option<string>)

  /** `{ reg_no, type }` with `type: null` when absent. */
  function VehicleJson(v: Vehicle): Json {
    JObj(map["reg_no" := JStr(v.regNo), "type" := if v.kind.Some? then JStr(v.kind.value) else JNull])
  }

  /** One line: `const [reg, type] = line.split("|").map(trim)`, then `reg || ""` and
      `type || null`; parts after the second are ignored. */
  function ParseVehicleLine(line: string): (v: Vehicle)
    ensures v.kind.Some? ==> v.kind.value != ""
  {
    var parts := TrimAll(Split(line, '|'));
    Vehicle(parts[0], if |parts| > 1 && parts[1] != "" then Some(parts[1]) else None)
  }

  function ParseVehicleLines(lines: seq<string>): (r: seq<Vehicle>)
    ensures |r| == |lines|
    ensures forall i :: 0 <= i < |lines| ==> r[i] == ParseVehicleLine(lines[i])
  {
    seq(|lines|, i requires 0 <= i < |lines| => ParseVehicleLine(lines[i]))
  }

  /** The vehicles box: one vehicle per non-blank line, each line trimmed first. */
  function ParseVehicles(value: string): seq<Vehicle> {
    ParseVehicleLines(Filter(TrimAll(Split(value, '\n')), NonEmpty))
  }

  /** `${v.reg_no || ""}${v.type ? ` | ${v.type}` : ""}`. */
  function VehicleLine(v: Vehicle): string {
    v.regNo + (if Present(v.kind) then " | " + v.kind.value else "")
  }

  function VehicleLines(vs: seq<Vehicle>): (r: seq<string>)
    ensures |r| == |vs|
    ensures forall i :: 0 <= i < |vs| ==> r[i] == VehicleLine(vs[i])
  {
    seq(|vs|, i requires 0 <= i < |vs| => VehicleLine(vs[i]))
  }

  /** `vehicle?.map(line).join("\n") || ""`. */
  function VehiclesDisplay(vs: seq<Vehicle>): string {
    Join(VehicleLines(vs), "\n")
  }

  /** A field that survives the box unchanged: trimmed, non-empty, and without `|` or a line
      break. */
  predicate CleanField(s: string) {
    s != "" && IsTrimmed(s) && '|' !in s && '\n' !in s
  }

  predicate CleanVehicle(v: Vehicle) {
    CleanField(v.regNo) && (v.kind.Some? ==> CleanField(v.kind.value))
  }

  /** The `|`-separated parts of a clean vehicle's line. */
  lemma VehicleLineParts(v: Vehicle)
    requires CleanVehicle(v)
    ensures v.kind.None? ==> Split(VehicleLine(v), '|') == [v.regNo]
    ensures v.kind.Some? ==> Split(VehicleLine(v), '|') == [v.regNo + " ", " " + v.kind.value]
  {
    if v.kind.None? {
      assert VehicleLine(v) == v.regNo;
      SplitNoSep(v.regNo, '|');
    } else {
      var a, b := v.regNo + " ", " " + v.kind.value;
      assert VehicleLine(v) == a + ['|'] + b;
      assert '|' !in a && '|' !in b;
      SplitAt(a, '|', b);
      SplitNoSep(b, '|');
    }
  }

  /** A clean vehicle's line is a non-blank trimmed line without a line break. */
  lemma VehicleLineShape(v: Vehicle)
    requires CleanVehicle(v)
    ensures VehicleLine(v) != "" && IsTrimmed(VehicleLine(v)) && '\n' !in VehicleLine(v)
  {
    var line := VehicleLine(v);
    if v.kind.Some? {
      var t := v.kind.value;
      assert line == v.regNo + " | " + t;
      assert line[0] == v.regNo[0];
      assert line[|line| - 1] == t[|t| - 1];
    }
  }

  /** A clean vehicle's line parses back to the vehicle. */
  lemma VehicleLineRoundTrip(v: Vehicle)
    requires CleanVehicle(v)
    ensures ParseVehicleLine(VehicleLine(v)) == v
  {
    VehicleLineParts(v);
    if v.kind.None? {
      TrimmedFixed(v.regNo);
      assert TrimAll([v.regNo]) == [v.regNo];
    } else {
      TrimSpaceAfter(v.regNo);
      TrimSpaceBefore(v.kind.value);
      TrimPair(v.regNo + " ", " " + v.kind.value, v.regNo, v.kind.value);
    }
  }

  lemma TrimmedFixed(s: string)
    requires IsTrimmed(s)
    ensures Trim(s) == s
  {
    assert TrimStart(s) == s;
    TrimEndTrimmed(s);
  }

  lemma TrimSpaceAfter(s: string)
    requires IsTrimmed(s)
    ensures Trim(s + " ") == s
  {
    TrimSurrounded("", s, " ");
    assert "" + s + " " == s + " ";
  }

  lemma TrimSpaceBefore(s: string)
    requires IsTrimmed(s)
    ensures Trim(" " + s) == s
  {
    TrimSpec(" ", s);
  }

  lemma TrimPair(x: string, y: string, r: string, t: string)
    requires Trim(x) == r && Trim(y) == t
    ensures TrimAll([x, y]) == [r, t]
  {
  }

  /** Vehicles shown one per line and edited without change parse back to the same list. */
  lemma VehiclesRoundTrip(vs: seq<Vehicle>)
    requires forall i :: 0 <= i < |vs| ==> CleanVehicle(vs[i])
    ensures ParseVehicles(VehiclesDisplay(vs)) == vs
  {
    var lines := VehicleLines(vs);
    if vs == [] {
      assert Split("", '\n') == [""];
      assert TrimAll([""]) == [""];
      assert Filter([""], NonEmpty) == [];
    } else {
      forall i | 0 <= i < |lines|
        ensures '\n' !in lines[i] && lines[i] != "" && Trim(lines[i]) == lines[i]
      {
        VehicleLineShape(vs[i]);
        TrimmedFixed(lines[i]);
      }
      var pieces := Split(VehiclesDisplay(vs), '\n');
      assert "\n" == ['\n'];
      SplitJoin(lines, '\n');
      assert pieces == lines;
      assert TrimAll(pieces) == lines;
      FilterAll(lines, NonEmpty);
      forall i | 0 <= i < |vs| ensures ParseVehicleLine(lines[i]) == vs[i] {
        VehicleLineRoundTrip(vs[i]);
      }
    }
  }

  /** `ParseVehicleLine` in terms of the raw parts of the line. */
  lemma ParseVehicleLineParts(line: string)
    ensures var parts := Split(line, '|');
      ParseVehicleLine(line)
      == Vehicle(Trim(parts[0]), if |parts| > 1 && Trim(parts[1]) != "" then Some(Trim(parts[1])) else None)
  {
  }

  /** Only the first two `|`-separated parts of a line count. */
  lemma VehicleExtraPartsIgnored(a: string, b: string, c: string)
    requires '|' !in a && '|' !in b
    ensures ParseVehicleLine(a + "|" + b + "|" + c) == ParseVehicleLine(a + "|" + b)
  {
    var long, short := a + "|" + b + "|" + c, a + "|" + b;
    assert long == a + ['|'] + (b + ['|'] + c);
    assert short == a + ['|'] + b;
    SplitAt(a, '|', b + ['|'] + c);
    SplitAt(b, '|', c);
    SplitAt(a, '|', b);
    SplitNoSep(b, '|');
    assert Split(long, '|')[..2] == [a, b];
    assert Split(short, '|') == [a, b];
    ParseVehicleLineParts(long);
    ParseVehicleLineParts(short);
  }

  const EmptyInformant: Json := JObj(map["name" := JStr(""), "phone" := JStr(""), "addr" := JStr("")])

  /** `createInitialFormData()`. */
  function InitialForm(): (r: Object)
    ensures r.Keys == {"acts", "sections", "informant"}
    ensures r["acts"] == JArr([]) && r["sections"] == JArr([]) && r["informant"] == EmptyInformant
  {
    map["acts" := JArr([]), "sections" := JArr([]), "informant" := EmptyInformant]
  }

  /** `Array.isArray(v) ? v : []`. */
  function ArrayOr(v: Option<Json>): Json {
    if v.Some? && v.value.JArr? then v.value else JArr([])
  }

  /** The wizard's pre-fill: the initial form, overlaid with the metadata's own fields, with the
      acts and sections forced to arrays and a missing informant replaced by the empty one. */
  function Prefill(metadata: Option<Json>): (r: Object)
    ensures r.Keys == Spread(metadata).Keys + {"acts", "sections", "informant"}
    ensures forall k :: k in Spread(metadata) && k != "acts" && k != "sections" && k != "informant" ==>
      r[k] == Spread(metadata)[k]
    ensures "acts" in Spread(metadata) && Spread(metadata)["acts"].JArr? ==> r["acts"] == Spread(metadata)["acts"]
    ensures !("acts" in Spread(metadata) && Spread(metadata)["acts"].JArr?) ==> r["acts"] == JArr([])
    ensures "sections" in Spread(metadata) && Spread(metadata)["sections"].JArr? ==>
      r["sections"] == Spread(metadata)["sections"]
    ensures !("sections" in Spread(metadata) && Spread(metadata)["sections"].JArr?) ==> r["sections"] == JArr([])
    ensures r["acts"].JArr? && r["sections"].JArr?
    ensures Truthy(Get(Spread(metadata), "informant")) ==> r["informant"] == Spread(metadata)["informant"]
    ensures !Truthy(Get(Spread(metadata), "informant")) ==> r["informant"] == EmptyInformant
  {
    var m := Spread(metadata);
    var overlay := map["sections" := ArrayOr(Get(m, "sections")),
                       "acts" := ArrayOr(Get(m, "acts")),
                       "informant" := Or(Get(m, "informant"), EmptyInformant)];
    assert overlay.Keys == {"acts", "sections", "informant"};
    InitialForm() + m + overlay
  }

  /** The page's `formData` after an analysis: `result.metadata || {}`, held as the properties
      it spreads into the edits that follow. */
  function FormOf(metadata: Option<Json>): (r: Object)
    ensures metadata.Some? && metadata.value.JObj? ==> r == metadata.value.fields
    ensures metadata.Some? && metadata.value.JStr? ==>
      forall i :: 0 <= i < |metadata.value.s| ==> Decimal(i) in r && r[Decimal(i)] == JStr([metadata.value.s[i]])
    ensures metadata.Some? && metadata.value.JArr? ==>
      forall i :: 0 <= i < |metadata.value.items| ==> Decimal(i) in r && r[Decimal(i)] == metadata.value.items[i]
    ensures !(metadata.Some? && (metadata.value.JObj? || metadata.value.JStr? || metadata.value.JArr?)) ==> r == map[]
  {
    if metadata.Some? && metadata.value.JStr? then
      IndexedSpec(Chars(metadata.value.s));
      Spread(metadata)
    else if metadata.Some? && metadata.value.JArr? then
      IndexedSpec(metadata.value.items);
      Spread(metadata)
    else
      Spread(metadata)
  }

  /** `{ ...form, [key]: { ...(form[key] || {}), [field]: v } }`, the shape of the informant and
      property edits: the edited field takes the new value, the nested object's other fields and
      the form's other entries are kept. */
  function EditNested(form: Object, key: string, field: string, v: string): (r: Object)
    ensures r.Keys == form.Keys + {key}
    ensures forall k :: k in form && k != key ==> r[k] == form[k]
    ensures r[key].JObj?
    ensures var before := Spread(Get(form, key));
      var after := r[key].fields;
      && after.Keys == before.Keys + {field}
      && after[field] == JStr(v)
      && forall k :: k in before && k != field ==> after[k] == before[k]
  {
    form[key := JObj(Spread(Get(form, key))[field := JStr(v)])]
  }

  /** A string under the edited key spreads its characters: editing the name of the informant
      `"ab"` gives `{0: "a", 1: "b", name: …}`. */
  lemma StringSpreadsItsCharacters(v: string)
    ensures EditNested(map["informant" := JStr("ab")], "informant", "name", v)["informant"].fields
            == map["0" := JStr("a"), "1" := JStr("b"), "name" := JStr(v)]
  {
    var chars := Chars("ab");
    assert chars == [JStr("a"), JStr("b")];
    assert chars[..1] == [JStr("a")] && chars[..1][..0] == [];
    assert Decimal(0) == "0" && Decimal(1) == "1";
    assert Indexed(chars) == map["0" := JStr("a"), "1" := JStr("b")];
  }

  /** Editing the same field twice keeps only the second value, and editing two different fields
      gives the same form in either order. */
  lemma NestedEditsCommute(form: Object, key: string, f1: string, v1: string, f2: string, v2: string)
    ensures EditNested(EditNested(form, key, f1, v1), key, f1, v2) == EditNested(form, key, f1, v2)
    ensures f1 != f2 ==>
      EditNested(EditNested(form, key, f1, v1), key, f2, v2)
      == EditNested(EditNested(form, key, f2, v2), key, f1, v1)
  {
    LastEditWins(form, key, f1, v1, v2);
    if f1 != f2 {
      EditsOfTwoFields(form, key, f1, v1, f2, v2);
    }
  }

  lemma LastEditWins(form: Object, key: string, f: string, v1: string, v2: string)
    ensures EditNested(EditNested(form, key, f, v1), key, f, v2) == EditNested(form, key, f, v2)
  {
    var inner := Spread(Get(form, key));
    var once := form[key := JObj(inner[f := JStr(v1)])];
    assert Spread(Get(once, key)) == inner[f := JStr(v1)];
    assert inner[f := JStr(v1)][f := JStr(v2)] == inner[f := JStr(v2)];
  }

  lemma EditsOfTwoFields(form: Object, key: string, f1: string, v1: string, f2: string, v2: string)
    requires f1 != f2
    ensures EditNested(EditNested(form, key, f1, v1), key, f2, v2)
      == EditNested(EditNested(form, key, f2, v2), key, f1, v1)
  {
    var inner := Spread(Get(form, key));
    var first1 := form[key := JObj(inner[f1 := JStr(v1)])];
    var first2 := form[key := JObj(inner[f2 := JStr(v2)])];
    assert Spread(Get(first1, key)) == inner[f1 := JStr(v1)];
    assert Spread(Get(first2, key)) == inner[f2 := JStr(v2)];
    assert inner[f1 := JStr(v1)][f2 := JStr(v2)] == inner[f2 := JStr(v2)][f1 := JStr(v1)];
  }

  /** `formData.title || uploadedFile.originalname`. */
  function SaveTitle(form: Object, originalName: string): (r: Json)
    ensures Truthy(Get(form, "title")) ==> r == form["title"]
    ensures !Truthy(Get(form, "title")) ==> r == JStr(originalName)
  {
    Or(Get(form, "title"), JStr(originalName))
  }

  /** The file chosen in the file input; only its name is used. */
  datatype SelectedFile = SelectedFile(name: string)

  /** The server's record of a temporarily uploaded file. */
  datatype UploadedFile = UploadedFile(path: string, originalName: string)

  /** `AnalysisResult`: the metadata the server extracted and the OCR output. Confidences are
      integers here. */
  datatype AnalysisResult = AnalysisResult(
    metadata: Option<Json>,
    ocrText: string,
    ocrPages: Json,
    totalPages: int,
    extractionConfidence: int)

  datatype OcrData = OcrData(text: string, pages: Json, totalPages: int, extractionConfidence: int)

  /** The body of `documents.save`. */
  datatype SaveRequest = SaveRequest(
    filePath: string,
    title: Json,
    folderId: Option<string>,
    metadata: Object,
    ocrData: OcrData)

  /** What both upload screens save: the uploaded path, the form's title or the file name, the
      form itself, and the OCR output of the analysis. */
  function SaveRequestFor(file: UploadedFile, result: AnalysisResult, form: Object, folderId: Option<string>): (r: SaveRequest)
    ensures r.filePath == file.path && r.metadata == form && r.folderId == folderId
    ensures r.title == SaveTitle(form, file.originalName)
    ensures r.ocrData.text == result.ocrText && r.ocrData.pages == result.ocrPages
    ensures r.ocrData.totalPages == result.totalPages
    ensures r.ocrData.extractionConfidence == result.extractionConfidence
  {
    SaveRequest(
      file.path, SaveTitle(form, file.originalName), folderId, form,
      OcrData(result.ocrText, result.ocrPages, result.totalPages, result.extractionConfidence))
  }

  function VehicleJsons(vs: seq<Vehicle>): (r: seq<Json>)
    ensures |r| == |vs|
    ensures forall i :: 0 <= i < |vs| ==> r[i] == VehicleJson(vs[i])
  {
    seq(|vs|, i requires 0 <= i < |vs| => VehicleJson(vs[i]))
  }

  /** A date input's stored value: `value ? new Date(value).toISOString() : null`, with the
      date library's conversion as a parameter. */
  function DateValue(value: string, toIso: string -> string): (r: Json)
    ensures value == "" <==> r == JNull
    ensures value != "" ==> r == JStr(toIso(value))
  {
    if value != "" then JStr(toIso(value)) else JNull
  }

  /** The FIR year input: `parseInt(value) || null`, where `parsed` is `parseInt`'s result
      (`None` for `NaN`). Zero and `NaN` are both stored as `null`. */
  function YearValue(parsed: Option<int>): (r: Json)
    ensures r != JNull <==> parsed.Some? && parsed.value != 0
    ensures r != JNull ==> r == JNum(parsed.value)
  {
    if parsed.Some? && parsed.value != 0 then JNum(parsed.value) else JNull
  }
}
