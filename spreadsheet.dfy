/** The spreadsheet row validator (`validateSpreadsheetData`): it walks the
    parsed rows in order, collects one numbered error per blank required
    column, and trims the clean rows into the output list. */
module Spreadsheet {
  import opened Wrappers
  import opened Text
  import Scans

  /** One parsed record as the CSV or Excel reader hands it over; any column
      may be absent. */
  datatype RawRow = RawRow(
    titulo: Option<string>,
    subtitulo: Option<string>,
    texto: Option<string>,
    image_url: Option<string>,
    target_phone: Option<string>)

  /** A clean row (`ContentRow`); `image_url` is absent when there is no image. */
  datatype ContentRow = ContentRow(
    titulo: string,
    subtitulo: string,
    texto: string,
    image_url: Option<string>,
    target_phone: string)

  datatype ValidationResult = ValidationResult(valid: bool, errors: seq<string>, data: seq<ContentRow>)

  const EmptySheetError: string := "A planilha está vazia"

  /** The three required columns, in the order the validator checks them. */
  datatype Field = Titulo | Texto | TargetPhone

  function Rank(f: Field): nat {
    match f
    case Titulo => 0
    case Texto => 1
    case TargetPhone => 2
  }

  function FieldValue(row: RawRow, f: Field): Option<string> {
    match f
    case Titulo => row.titulo
    case Texto => row.texto
    case TargetPhone => row.target_phone
  }

  function Label(f: Field): string {
    match f
    case Titulo => "Título"
    case Texto => "Texto"
    case TargetPhone => "Target phone"
  }

  /** `!v || v.trim() === ''`: the column is absent, empty or only whitespace. */
  predicate Blank(v: Option<string>) {
    v.None? || Trim(v.value) == ""
  }

  /** The required columns of `row` that are blank, in checking order. */
  function MissingFields(row: RawRow): (fs: seq<Field>)
    ensures forall f :: f in fs <==> Blank(FieldValue(row, f))
    ensures forall i, j :: 0 <= i < j < |fs| ==> Rank(fs[i]) < Rank(fs[j])
  {
    (if Blank(row.titulo) then [Titulo] else [])
    + (if Blank(row.texto) then [Texto] else [])
    + (if Blank(row.target_phone) then [TargetPhone] else [])
  }

  /** The row has at least one blank required column. */
  predicate RowFails(row: RawRow) {
    Blank(row.titulo) || Blank(row.texto) || Blank(row.target_phone)
  }

  /** The message for a blank column of the row at position `index`; the
      number shown is `index + 2` (one for the header line, one because
      spreadsheet lines count from 1). */
  function ErrorMessage(index: nat, f: Field): string {
    "Linha " + NatToString(index + 2) + ": " + Label(f) + " é obrigatório"
  }

  /** The errors the row at position `index` produces. */
  function RowErrors(row: RawRow, index: nat): (errs: seq<string>)
    ensures |errs| <= 3
    ensures errs == [] <==> !RowFails(row)
  {
    (if Blank(row.titulo) then [ErrorMessage(index, Titulo)] else [])
    + (if Blank(row.texto) then [ErrorMessage(index, Texto)] else [])
    + (if Blank(row.target_phone) then [ErrorMessage(index, TargetPhone)] else [])
  }

  /** A row yields one error per blank required column, in the order
      titulo, texto, target_phone, each naming the row's sheet line. */
  lemma RowErrorsSpec(row: RawRow, index: nat)
    ensures |RowErrors(row, index)| == |MissingFields(row)|
    ensures forall k :: 0 <= k < |RowErrors(row, index)| ==>
              RowErrors(row, index)[k] == ErrorMessage(index, MissingFields(row)[k])
    ensures RowFails(row) <==> MissingFields(row) != []
  {
    var m0 := if Blank(row.titulo) then [Titulo] else [];
    var m1 := if Blank(row.texto) then [Texto] else [];
    var m2 := if Blank(row.target_phone) then [TargetPhone] else [];
    var e0 := if Blank(row.titulo) then [ErrorMessage(index, Titulo)] else [];
    var e1 := if Blank(row.texto) then [ErrorMessage(index, Texto)] else [];
    var e2 := if Blank(row.target_phone) then [ErrorMessage(index, TargetPhone)] else [];
    assert MissingFields(row) == m0 + m1 + m2;
    assert RowErrors(row, index) == e0 + e1 + e2;
    MapParts(index, m0, e0, m1, e1, m2, e2);
  }

  lemma MapParts(index: nat, m0: seq<Field>, e0: seq<string>, m1: seq<Field>, e1: seq<string>,
                 m2: seq<Field>, e2: seq<string>)
    requires |m0| == |e0| && forall k :: 0 <= k < |m0| ==> e0[k] == ErrorMessage(index, m0[k])
    requires |m1| == |e1| && forall k :: 0 <= k < |m1| ==> e1[k] == ErrorMessage(index, m1[k])
    requires |m2| == |e2| && forall k :: 0 <= k < |m2| ==> e2[k] == ErrorMessage(index, m2[k])
    ensures |m0 + m1 + m2| == |e0 + e1 + e2|
    ensures forall k :: 0 <= k < |e0 + e1 + e2| ==> (e0 + e1 + e2)[k] == ErrorMessage(index, (m0 + m1 + m2)[k])
  {
  }

  /** A trimmed field: trimming it changes nothing. */
  predicate Trimmed(s: string) {
    Trim(s) == s
  }

  /** What the validator guarantees of every row it returns. */
  predicate Normalized(c: ContentRow) {
    && c.titulo != "" && Trimmed(c.titulo)
    && c.texto != "" && Trimmed(c.texto)
    && c.target_phone != "" && Trimmed(c.target_phone)
    && Trimmed(c.subtitulo)
    && (c.image_url.Some? ==> c.image_url.value != "" && Trimmed(c.image_url.value))
  }

  /** `v?.trim() || ''`: the trimmed column, or empty when it is absent. */
  function FieldText(v: Option<string>): string {
    if v.None? then "" else Trim(v.value)
  }

  /** The clean row the validator builds; the source builds it only for a
      row without errors, where `row.titulo.trim()` is `FieldText(row.titulo)`
      and likewise for `texto` and `target_phone`. */
  function Normalize(row: RawRow): (c: ContentRow)
    ensures c.subtitulo == "" <==> Blank(row.subtitulo)
    ensures c.image_url.None? <==> Blank(row.image_url)
    ensures c.image_url.Some? ==> c.image_url.value != ""
  {
    ContentRow(
      FieldText(row.titulo),
      FieldText(row.subtitulo),
      FieldText(row.texto),
      if Blank(row.image_url) then None else Some(Trim(row.image_url.value)),
      FieldText(row.target_phone))
  }

  lemma TrimPresent(v: Option<string>)
    ensures v.Some? ==> Trimmed(Trim(v.value))
  {
    if v.Some? { TrimIdempotent(v.value); }
  }

  /** The clean form of a row without errors: the required columns trimmed
      (and so non-empty), `subtitulo` trimmed or `""` when absent or blank,
      `image_url` trimmed or absent when absent or blank. */
  lemma NormalizeSpec(row: RawRow)
    requires !RowFails(row)
    ensures var c := Normalize(row);
      && Normalized(c)
      && c.titulo == Trim(row.titulo.value)
      && c.texto == Trim(row.texto.value)
      && c.target_phone == Trim(row.target_phone.value)
      && c.subtitulo == (if Blank(row.subtitulo) then "" else Trim(row.subtitulo.value))
      && c.image_url == (if Blank(row.image_url) then None else Some(Trim(row.image_url.value)))
  {
    TrimPresent(row.titulo);
    TrimPresent(row.texto);
    TrimPresent(row.target_phone);
    TrimPresent(row.subtitulo);
    TrimPresent(row.image_url);
  }

  /** The errors of all rows, grouped by row in input order. */
  function AllErrors(rows: seq<RawRow>, n: nat): seq<string>
    requires n <= |rows|
  {
    Scans.Concat(rows, RowErrors, n)
  }

  /** The clean forms of the passing rows among the first `n`, in input order. */
  function CleanRows(rows: seq<RawRow>, n: nat): seq<ContentRow>
    requires n <= |rows|
  {
    Scans.Kept(rows, RowFails, Normalize, n)
  }

  /** What `validateSpreadsheetData` returns. As in the source, `data` keeps
      the clean rows even when other rows failed. */
  function Validate(rows: seq<RawRow>): (r: ValidationResult)
    ensures rows == [] ==> r == ValidationResult(false, [EmptySheetError], [])
    ensures r.valid <==> r.errors == []
  {
    if rows == [] then ValidationResult(false, [EmptySheetError], [])
    else
      var errors := AllErrors(rows, |rows|);
      ValidationResult(errors == [], errors, CleanRows(rows, |rows|))
  }

  /** `validateSpreadsheetData`: a single pass that appends each row's errors
      or its clean form, with an early return for an empty sheet. */
  method ValidateSpreadsheetData(rows: seq<RawRow>) returns (r: ValidationResult)
    ensures r == Validate(rows)
  {
    var errors: seq<string> := [];
    var validData: seq<ContentRow> := [];
    if |rows| == 0 {
      errors := errors + [EmptySheetError];
      return ValidationResult(false, errors, []);
    }
    var index := 0;
    while index < |rows|
      invariant 0 <= index <= |rows|
      invariant errors == AllErrors(rows, index)
      invariant validData == CleanRows(rows, index)
    {
      var row := rows[index];
      var rowErrors := CheckRow(row, index);
      assert AllErrors(rows, index + 1) == AllErrors(rows, index) + rowErrors;
      if |rowErrors| > 0 {
        errors := errors + rowErrors;
        assert CleanRows(rows, index + 1) == CleanRows(rows, index);
      } else {
        validData := validData + [Normalize(row)];
        assert CleanRows(rows, index + 1) == CleanRows(rows, index) + [Normalize(row)];
      }
      index := index + 1;
    }
    return ValidationResult(|errors| == 0, errors, validData);
  }

  /** The per-row checks of `validateSpreadsheetData`: one message pushed
      for each blank required column, in checking order. */
  method CheckRow(row: RawRow, index: nat) returns (rowErrors: seq<string>)
    ensures rowErrors == RowErrors(row, index)
  {
    rowErrors := [];
    if Blank(row.titulo) {
      rowErrors := rowErrors + [ErrorMessage(index, Titulo)];
    }
    if Blank(row.texto) {
      rowErrors := rowErrors + [ErrorMessage(index, Texto)];
    }
    if Blank(row.target_phone) {
      rowErrors := rowErrors + [ErrorMessage(index, TargetPhone)];
    }
  }

  /** The positions of the rows that fail (`fails`) or pass (`!fails`), in
      increasing order. */
  function Selected(rows: seq<RawRow>, fails: bool): seq<nat> {
    Scans.Positions(rows, RowFails, fails, |rows|)
  }

  /** A row appears in `data` exactly when it produced no error, `data`
      keeps input order, and the output rows and the failing rows together
      account for every input row, whether or not the sheet is valid. */
  lemma DataIsPassingRows(rows: seq<RawRow>)
    ensures var d := Validate(rows).data;
      var pass := Selected(rows, false);
      && |d| + |Selected(rows, true)| == |rows|
      && |d| == |pass|
      && (forall k :: 0 <= k < |d| ==>
            pass[k] < |rows| && !RowFails(rows[pass[k]]) && d[k] == Normalize(rows[pass[k]]))
      && (forall i, j :: 0 <= i < j < |d| ==> pass[i] < pass[j])
      && (forall i :: 0 <= i < |rows| ==> (i in pass <==> !RowFails(rows[i])))
  {
    Scans.KeptAtPositions(rows, RowFails, Normalize, |rows|);
    Scans.PositionsSpec(rows, RowFails, false, |rows|);
    Scans.PositionsPartition(rows, RowFails, |rows|);
  }

  /** The failing rows are exactly those with a blank required column. */
  lemma FailingRows(rows: seq<RawRow>)
    ensures forall i :: i in Selected(rows, true) <==> 0 <= i < |rows| && RowFails(rows[i])
  {
    Scans.PositionsSpec(rows, RowFails, true, |rows|);
  }

  /** No errors are collected exactly when every row passes. */
  lemma AllErrorsEmpty(rows: seq<RawRow>, n: nat)
    requires n <= |rows|
    ensures AllErrors(rows, n) == [] <==> forall i :: 0 <= i < n ==> !RowFails(rows[i])
  {
    Scans.ConcatEmpty(rows, RowErrors, n);
    assert forall i :: 0 <= i < n ==> (RowErrors(rows[i], i) == [] <==> !RowFails(rows[i]));
  }

  /** The sheet is valid exactly when it is non-empty and no row fails. */
  lemma ValidIffAllRowsPass(rows: seq<RawRow>)
    ensures Validate(rows).valid <==> rows != [] && forall i :: 0 <= i < |rows| ==> !RowFails(rows[i])
  {
    AllErrorsEmpty(rows, |rows|);
  }

  /** A non-empty sheet whose rows all have a non-blank titulo, texto and
      target_phone is valid, and every row comes back normalised, in order. */
  lemma AllFilledIsValid(rows: seq<RawRow>)
    requires rows != []
    requires forall i :: 0 <= i < |rows| ==>
      !Blank(rows[i].titulo) && !Blank(rows[i].texto) && !Blank(rows[i].target_phone)
    ensures Validate(rows).valid
    ensures |Validate(rows).data| == |rows|
    ensures forall i :: 0 <= i < |rows| ==> Validate(rows).data[i] == Normalize(rows[i])
  {
    AllErrorsEmpty(rows, |rows|);
    Scans.KeptAll(rows, RowFails, Normalize, |rows|);
  }

  /** The errors of the first rows come first: for every position `i`, the
      errors of the rows before `i` followed by those of row `i` open the list. */
  lemma ErrorsInRowOrder(rows: seq<RawRow>, i: nat)
    requires i < |rows|
    ensures AllErrors(rows, i) + RowErrors(rows[i], i) <= Validate(rows).errors
  {
    Scans.ConcatInOrder(rows, RowErrors, i, |rows|);
  }

  /** A clean row fed back in as a raw record, as the import screen sends it. */
  function ToRaw(c: ContentRow): RawRow {
    RawRow(Some(c.titulo), Some(c.subtitulo), Some(c.texto), c.image_url, Some(c.target_phone))
  }

  function ToRawRows(cs: seq<ContentRow>): (rs: seq<RawRow>)
    ensures |rs| == |cs| && forall k :: 0 <= k < |cs| ==> rs[k] == ToRaw(cs[k])
  {
    seq(|cs|, k requires 0 <= k < |cs| => ToRaw(cs[k]))
  }

  /** A normalised row passes again and normalises to itself. */
  lemma NormalizeFixesClean(c: ContentRow)
    requires Normalized(c)
    ensures !RowFails(ToRaw(c)) && Normalize(ToRaw(c)) == c
  {
  }

  /** Validating the returned rows again gives a valid sheet with the same
      rows: normalisation is idempotent. */
  lemma RevalidateIsIdentity(rows: seq<RawRow>)
    requires Validate(rows).data != []
    ensures Validate(ToRawRows(Validate(rows).data)) == ValidationResult(true, [], Validate(rows).data)
  {
    var d := Validate(rows).data;
    var raws := ToRawRows(d);
    DataIsPassingRows(rows);
    forall k | 0 <= k < |d| ensures !RowFails(raws[k]) && Normalize(raws[k]) == d[k] {
      NormalizeSpec(rows[Selected(rows, false)[k]]);
      NormalizeFixesClean(d[k]);
    }
    AllErrorsEmpty(raws, |raws|);
    Scans.KeptAll(raws, RowFails, Normalize, |raws|);
  }

  /** A failing row does not empty `data`: a sheet of a failing row and a
      passing row is invalid, reports only the first row's errors, and still
      returns the second row normalised. */
  lemma {:induction false} FailureKeepsCleanRows(bad: RawRow, good: RawRow)
    requires RowFails(bad) && !RowFails(good)
    ensures var r := Validate([bad, good]);
      && !r.valid
      && r.errors == RowErrors(bad, 0)
      && r.data == [Normalize(good)]
  {
    var rows := [bad, good];
    assert AllErrors(rows, 2) == AllErrors(rows, 1) + RowErrors(good, 1);
    assert AllErrors(rows, 1) == AllErrors(rows, 0) + RowErrors(bad, 0);
    assert CleanRows(rows, 1) == CleanRows(rows, 0) + [];
    assert CleanRows(rows, 2) == CleanRows(rows, 1) + [Normalize(good)];
  }
}
