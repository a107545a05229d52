/**
  The one-off import of existing Matomo site IDs (whmcs-plugin/sql/matomo-import.sql):
  every row of the input is judged, and either all blank mappings are filled in one
  transaction or nothing changes.
 */
module MatomoImport {
  import opened Prelude
  import opened MatomoIds

  /** One row of the input, as text. */
  datatype Input = Input(service: string, matomo: string)

  /** The same row after the text test; NULL where it failed. */
  datatype Row = Row(service: Option<nat>, matomo: Option<nat>)

  /** What the import reads besides the mappings: each service's product type, if it is known. */
  type Hosting = map<nat, Option<string>>

  /** mod_moddhosting_services: the Matomo ID of each service that has a row. */
  type Mappings = map<nat, Option<nat>>

  const MODULE := "moddhosting"

  function CheckedRow(input: Input): Row {
    Row(Checked(input.service), Checked(input.matomo))
  }

  function CheckedRows(inputs: seq<Input>): (rows: seq<Row>)
    ensures |rows| == |inputs| && forall i :: 0 <= i < |rows| ==> rows[i] == CheckedRow(inputs[i])
  {
    seq(|inputs|, i requires 0 <= i < |inputs| => CheckedRow(inputs[i]))
  }

  /** The WHERE clause of the problem count. */
  predicate Problem(row: Row, hosting: Hosting, mappings: Mappings) {
    || row.service.None? || row.matomo.None?
    || row.service.value !in hosting || hosting[row.service.value] != Some(MODULE)
    || (row.service.value in mappings && mappings[row.service.value].Some? && mappings[row.service.value] != row.matomo)
  }

  ghost predicate Distinct(rows: seq<Row>) {
    forall i, j :: 0 <= i < j < |rows| && rows[i].service.Some? ==> rows[i].service != rows[j].service
  }

  /** The input is not empty, names known services once each, and contradicts no mapping. */
  ghost predicate Acceptable(rows: seq<Row>, hosting: Hosting, mappings: Mappings) {
    && rows != [] && Distinct(rows)
    && forall i :: 0 <= i < |rows| ==> !Problem(rows[i], hosting, mappings)
  }

  /** The text is a Matomo ID or a service ID: a positive uint32, with spaces around it. */
  predicate Numeral(text: string, n: nat) {
    1 <= n <= 4294967295 && Trim(text) == Decimal(n)
  }

  /** Both texts are IDs, the service is of this module, and its mapping is free or this one. */
  ghost predicate Importable(input: Input, hosting: Hosting, mappings: Mappings) {
    exists service: nat, matomo: nat ::
      && Numeral(input.service, service) && Numeral(input.matomo, matomo)
      && service in hosting && hosting[service] == Some("moddhosting")
      && (service in mappings && mappings[service].Some? ==> mappings[service] == Some(matomo))
  }

  /** Two inputs name one service. */
  ghost predicate SameService(a: Input, b: Input) {
    exists service: nat :: Numeral(a.service, service) && Numeral(b.service, service)
  }

  /** A non-empty list of importable inputs, each of another service. */
  ghost predicate Faultless(inputs: seq<Input>, hosting: Hosting, mappings: Mappings) {
    && inputs != []
    && (forall i :: 0 <= i < |inputs| ==> Importable(inputs[i], hosting, mappings))
    && (forall i, j :: 0 <= i < j < |inputs| ==> !SameService(inputs[i], inputs[j]))
  }

  /** Every listed service has the ID it is listed with. */
  ghost predicate Carried(inputs: seq<Input>, mappings: Mappings) {
    forall i, service: nat, matomo: nat ::
      0 <= i < |inputs| && Numeral(inputs[i].service, service) && Numeral(inputs[i].matomo, matomo) ==>
        service in mappings && mappings[service] == Some(matomo)
  }

  lemma NumeralIsChecked(text: string)
    ensures forall n: nat :: Numeral(text, n) <==> Checked(text) == Some(n)
  {
    CheckedIff(text);
  }

  lemma ProblemIff(input: Input, hosting: Hosting, mappings: Mappings)
    ensures Problem(CheckedRow(input), hosting, mappings) <==> !Importable(input, hosting, mappings)
  {
    NumeralIsChecked(input.service);
    NumeralIsChecked(input.matomo);
    var row := CheckedRow(input);
    if !Problem(row, hosting, mappings) {
      assert Numeral(input.service, row.service.value) && Numeral(input.matomo, row.matomo.value);
    }
  }

  /** What is imported, read off the input: nothing else passes, and nothing of this kind is refused. */
  lemma AcceptableIff(inputs: seq<Input>, hosting: Hosting, mappings: Mappings)
    ensures Acceptable(CheckedRows(inputs), hosting, mappings) <==> Faultless(inputs, hosting, mappings)
  {
    var rows := CheckedRows(inputs);
    forall i | 0 <= i < |inputs|
      ensures Problem(rows[i], hosting, mappings) <==> !Importable(inputs[i], hosting, mappings)
      ensures forall n: nat :: Numeral(inputs[i].service, n) <==> rows[i].service == Some(n)
    {
      ProblemIff(inputs[i], hosting, mappings);
      NumeralIsChecked(inputs[i].service);
    }
    forall i, j | 0 <= i < j < |inputs|
      ensures SameService(inputs[i], inputs[j]) <==> rows[i].service.Some? && rows[i].service == rows[j].service
    {
      if rows[i].service.Some? && rows[i].service == rows[j].service {
        assert Numeral(inputs[i].service, rows[i].service.value) && Numeral(inputs[j].service, rows[i].service.value);
      }
    }
  }

  predicate Vacant(mappings: Mappings, service: nat) {
    service !in mappings || mappings[service].None?
  }

  function FillOne(mappings: Mappings, row: Row): Mappings {
    if row.service.Some? && Vacant(mappings, row.service.value)
    then mappings[row.service.value := row.matomo]
    else mappings
  }

  function Fill(mappings: Mappings, rows: seq<Row>): Mappings {
    if rows == [] then mappings else FillOne(Fill(mappings, rows[..|rows| - 1]), rows[|rows| - 1])
  }

  /** The row names a service and an ID, and the service has no other. */
  predicate Fits(row: Row, mappings: Mappings) {
    && row.service.Some? && row.matomo.Some?
    && (row.service.value in mappings && mappings[row.service.value].Some? ==>
          mappings[row.service.value] == row.matomo)
  }

  /** Filling gives each listed service its ID and touches nothing else: no stored ID ever changes. */
  lemma {:induction false} FillMeans(mappings: Mappings, rows: seq<Row>)
    requires Distinct(rows) && forall i :: 0 <= i < |rows| ==> Fits(rows[i], mappings)
    ensures
      var filled := Fill(mappings, rows);
      && (forall i :: 0 <= i < |rows| ==>
            rows[i].service.Some? && rows[i].service.value in filled && filled[rows[i].service.value] == rows[i].matomo)
      && (forall k :: k in mappings ==> k in filled && (mappings[k].Some? ==> filled[k] == mappings[k]))
      && (forall k :: k in filled && Some(k) !in Services(rows) ==> k in mappings && filled[k] == mappings[k])
  {
    if rows != [] {
      var n := |rows| - 1;
      FillMeans(mappings, rows[..n]);
      assert Fits(rows[n], mappings);
      assert Services(rows) == Services(rows[..n]) + [rows[n].service];
      assert Some(rows[n].service.value) !in Services(rows[..n]);
    }
  }

  function Services(rows: seq<Row>): (s: seq<Option<nat>>)
    ensures |s| == |rows| && forall i :: 0 <= i < |rows| ==> s[i] == rows[i].service
  {
    seq(|rows|, i requires 0 <= i < |rows| => rows[i].service)
  }

  /** After an import every row already matches, so importing again is admitted and changes nothing. */
  lemma ImportIsIdempotent(mappings: Mappings, rows: seq<Row>, hosting: Hosting)
    requires Acceptable(rows, hosting, mappings)
    ensures Acceptable(rows, hosting, Fill(mappings, rows))
    ensures Fill(Fill(mappings, rows), rows) == Fill(mappings, rows)
  {
    assert forall i :: 0 <= i < |rows| ==> !Problem(rows[i], hosting, mappings);
    FillMeans(mappings, rows);
    NothingToFill(Fill(mappings, rows), rows);
  }

  lemma {:induction false} NothingToFill(mappings: Mappings, rows: seq<Row>)
    requires forall i :: 0 <= i < |rows| ==> rows[i].service.Some? && !Vacant(mappings, rows[i].service.value)
    ensures Fill(mappings, rows) == mappings
  {
    if rows != [] {
      NothingToFill(mappings, rows[..|rows| - 1]);
    }
  }

  /** After the import every listed service has the ID it is listed with. */
  lemma FilledAsAsked(inputs: seq<Input>, hosting: Hosting, mappings: Mappings)
    requires Acceptable(CheckedRows(inputs), hosting, mappings)
    ensures Carried(inputs, Fill(mappings, CheckedRows(inputs)))
  {
    var rows := CheckedRows(inputs);
    assert forall i :: 0 <= i < |rows| ==> !Problem(rows[i], hosting, mappings);
    FillMeans(mappings, rows);
    forall i | 0 <= i < |inputs|
      ensures forall n: nat :: Numeral(inputs[i].service, n) <==> rows[i].service == Some(n)
      ensures forall n: nat :: Numeral(inputs[i].matomo, n) <==> rows[i].matomo == Some(n)
    {
      NumeralIsChecked(inputs[i].service);
      NumeralIsChecked(inputs[i].matomo);
    }
  }

  // ------------------------------------------------------------------- the procedure

  datatype Result = Applied | PreviewOnly | Aborted | SqlError

  class Database {
    var mappings: Mappings
    var undo: Option<Mappings>  // the state at START TRANSACTION

    constructor (initial: Mappings)
      ensures mappings == initial && undo.None?
    {
      mappings, undo := initial, None;
    }

    /** Ends the transaction as if it had never begun. */
    method Rollback()
      requires undo.Some?
      modifies this
      ensures mappings == old(undo.value) && undo.None?
    {
      mappings, undo := undo.value, None;
    }

    /**
      moddhosting_import_matomo.  All or nothing: the mappings change only if the whole
      input is acceptable and the changes are to be applied, and then to exactly the
      filled ones; a preview, an objection or an error at any statement leaves them alone.
     */
    method ImportMatomo(
      inputs: seq<Input>, hosting: Hosting, transactional: bool, applyChanges: bool, healthy: bool)
      returns (r: Result)
      requires undo.None?
      modifies this
      ensures undo.None?
      ensures r.Applied? ==> transactional && Faultless(inputs, hosting, old(mappings)) && applyChanges
      ensures r.PreviewOnly? ==> transactional && Faultless(inputs, hosting, old(mappings)) && !applyChanges
      ensures r.Aborted? ==> !transactional || !Faultless(inputs, hosting, old(mappings))
      ensures r.SqlError? ==> transactional && !healthy
      ensures r.Applied? ==> mappings == Fill(old(mappings), CheckedRows(inputs)) && Carried(inputs, mappings)
      ensures !r.Applied? ==> mappings == old(mappings)
    {
      if !transactional {
        return Aborted;
      }
      var rows := CheckRows(inputs);
      AcceptableIff(inputs, hosting, mappings);
      var duplicates := HasDuplicates(rows);
      undo := Some(mappings);
      var failing: bool := *;
      if failing && !healthy {
        Rollback();
        return SqlError;
      }
      var problems := CountProblems(rows, hosting);
      if problems > 0 || duplicates || rows == [] {
        Rollback();
        return Aborted;
      }
      if !applyChanges {
        Rollback();
        return PreviewOnly;
      }
      FilledAsAsked(inputs, hosting, mappings);
      var ok := InsertRows(rows, healthy);
      failing := *;
      if !ok || (failing && !healthy) {
        Rollback();
        return SqlError;
      }
      undo := None;
      return Applied;
    }

    static method CheckRows(inputs: seq<Input>) returns (rows: seq<Row>)
      ensures rows == CheckedRows(inputs)
    {
      rows := [];
      for i := 0 to |inputs|
        invariant rows == CheckedRows(inputs)[..i]
      {
        rows := rows + [CheckedRow(inputs[i])];
      }
    }

    /** GROUP BY service_id HAVING COUNT(*) > 1. */
    static method HasDuplicates(rows: seq<Row>) returns (r: bool)
      ensures r <==> !Distinct(rows)
    {
      var seen: set<nat> := {};
      for i := 0 to |rows|
        invariant forall k :: k in seen <==> Some(k) in Services(rows)[..i]
        invariant Distinct(rows[..i])
      {
        if rows[i].service.Some? {
          if rows[i].service.value in seen {
            var j :| 0 <= j < i && Services(rows)[..i][j] == rows[i].service;
            assert rows[j].service == rows[i].service;
            return true;
          }
          seen := seen + {rows[i].service.value};
        }
        assert Services(rows)[..i + 1] == Services(rows)[..i] + [rows[i].service];
        forall j | 0 <= j < i && rows[j].service.Some?
          ensures rows[j].service != rows[i].service
        {
          assert Services(rows)[..i][j] == rows[j].service;
        }
        assert rows[..i + 1] == rows[..i] + [rows[i]];
      }
      assert rows[..|rows|] == rows;
      return false;
    }

    method CountProblems(rows: seq<Row>, hosting: Hosting) returns (n: nat)
      ensures n == 0 <==> forall i :: 0 <= i < |rows| ==> !Problem(rows[i], hosting, mappings)
      ensures n == 0 <==> forall i :: 0 <= i < |rows| ==>
                            && rows[i].matomo.Some? && rows[i].service.Some?
                            && rows[i].service.value in hosting
                            && hosting[rows[i].service.value] == Some("moddhosting")
                            && (rows[i].service.value in mappings && mappings[rows[i].service.value].Some? ==>
                                  mappings[rows[i].service.value] == rows[i].matomo)
    {
      n := 0;
      for i := 0 to |rows|
        invariant n == 0 <==> forall j :: 0 <= j < i ==> !Problem(rows[j], hosting, mappings)
      {
        if Problem(rows[i], hosting, mappings) {
          n := n + 1;
        }
      }
    }

    /** The INSERT, row by row; a failure may leave any part of it behind. */
    method InsertRows(rows: seq<Row>, healthy: bool) returns (ok: bool)
      requires forall i :: 0 <= i < |rows| ==> rows[i].service.Some?
      modifies `mappings
      ensures ok ==> mappings == Fill(old(mappings), rows)
      ensures healthy ==> ok
    {
      for i := 0 to |rows|
        invariant mappings == Fill(old(mappings), rows[..i])
      {
        var failing: bool := *;
        if failing && !healthy {
          return false;
        }
        if Vacant(mappings, rows[i].service.value) {
          mappings := mappings[rows[i].service.value := rows[i].matomo];
        }
        assert rows[..i + 1][..i] == rows[..i];
      }
      assert rows[..|rows|] == rows;
      return true;
    }
  }
}
