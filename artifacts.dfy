/**
 * The naming and loading loop of `cargar_modelos`. The directory and
 * `joblib.load` are outside the model: a file is named by its file name
 * alone, the existence check is a predicate passed in, and a loaded object is
 * represented by the file it came from.
 */
module Artifacts {

  /** The keys of the dictionary `cargar_modelos` fills: 'modelo',
      'escalador', 'imputador' and 'agrupamiento'. */
  datatype Role = Modelo | Escalador | Imputador | Agrupamiento

  /** The object `joblib.load` returns for a file; its contents are opaque. */
  datatype Artifact = Artifact(file: string)

  /** The order in which the loop visits the required artifacts. */
  const Order: seq<Role> := [Modelo, Escalador, Imputador, Agrupamiento]

  /** The position of an artifact in the loading order. */
  function Position(r: Role): (i: nat)
    ensures i < |Order| && Order[i] == r
  {
    match r
    case Modelo => 0
    case Escalador => 1
    case Imputador => 2
    case Agrupamiento => 3
  }

  /** The base file name of each artifact. */
  function BaseName(r: Role): (name: string) {
    match r
    case Modelo => "bosque_aleatorio.joblib"
    case Escalador => "escalador.joblib"
    case Imputador => "imputador.joblib"
    case Agrupamiento => "agrupamiento.joblib"
  }

  /** The file-name prefix for a property type. */
  function Prefix(tipo: string): (p: string)
    ensures p == "renta_" <==> tipo == "Departamento"
    ensures p == "" <==> tipo != "Departamento"
  {
    if tipo == "Departamento" then "renta_" else ""
  }

  /** The file holding an artifact for a property type. */
  function FileName(tipo: string, r: Role): (path: string) {
    Prefix(tipo) + BaseName(r)
  }

  /** The dictionary after the first `n` artifacts of the order were loaded. */
  function LoadedUpTo(tipo: string, n: nat): (models: map<Role, Artifact>)
    requires n <= |Order|
  {
    if n == 0 then map[]
    else LoadedUpTo(tipo, n - 1)[Order[n - 1] := Artifact(FileName(tipo, Order[n - 1]))]
  }

  /** After `n` steps the dictionary holds exactly the first `n` artifacts
      of the order, each loaded from its own file. */
  lemma {:induction false} LoadedUpToContents(tipo: string, n: nat)
    requires n <= |Order|
    ensures forall r :: r in LoadedUpTo(tipo, n) <==> Position(r) < n
    ensures forall r :: r in LoadedUpTo(tipo, n) ==> LoadedUpTo(tipo, n)[r] == Artifact(FileName(tipo, r))
  {
    if n > 0 {
      LoadedUpToContents(tipo, n - 1);
      assert Position(Order[n - 1]) == n - 1;
    }
  }

  /** The files of the first `n` artifacts of the order exist. */
  predicate PrefixExists(tipo: string, fileExists: string -> bool, n: nat)
    requires n <= |Order|
  {
    forall j :: 0 <= j < n ==> fileExists(FileName(tipo, Order[j]))
  }

  function FirstMissingFrom(tipo: string, fileExists: string -> bool, i: nat): (n: nat)
    requires i <= |Order| && PrefixExists(tipo, fileExists, i)
    ensures i <= n <= |Order| && PrefixExists(tipo, fileExists, n)
    ensures n < |Order| ==> !fileExists(FileName(tipo, Order[n]))
    decreases |Order| - i
  {
    if i == |Order| || !fileExists(FileName(tipo, Order[i])) then i
    else FirstMissingFrom(tipo, fileExists, i + 1)
  }

  /** The position of the first required file that does not exist, or 4 when all do. */
  function FirstMissing(tipo: string, fileExists: string -> bool): (n: nat)
    ensures n <= |Order| && PrefixExists(tipo, fileExists, n)
    ensures n < |Order| ==> !fileExists(FileName(tipo, Order[n]))
  {
    FirstMissingFrom(tipo, fileExists, 0)
  }

  /** What `cargar_modelos` returns: the artifacts before the first missing file. */
  function Loaded(tipo: string, fileExists: string -> bool): (models: map<Role, Artifact>) {
    LoadedUpTo(tipo, FirstMissing(tipo, fileExists))
  }

  /** `cargar_modelos`: loads the four files in order, stops at the first
      missing one, reports the failure, and returns what it loaded so far.
      `failed` stands for the error message the application displays, and
      `fileExists` for a file that exists and loads without raising. */
  method LoadModels(tipo: string, fileExists: string -> bool) returns (models: map<Role, Artifact>, failed: bool)
    ensures models == Loaded(tipo, fileExists)
    ensures failed <==> !PrefixExists(tipo, fileExists, |Order|)
  {
    var prefix := Prefix(tipo);
    models := map[];
    failed := false;
    var i := 0;
    while i < |Order| && !failed
      invariant 0 <= i <= |Order|
      invariant prefix == Prefix(tipo)
      invariant models == LoadedUpTo(tipo, i)
      invariant PrefixExists(tipo, fileExists, i)
      invariant failed ==> i < |Order| && !fileExists(FileName(tipo, Order[i]))
      decreases |Order| - i, if failed then 0 else 1
    {
      var role := Order[i];
      var path := prefix + BaseName(role);
      if fileExists(path) {
        PrefixExistsStep(tipo, fileExists, i);
        models := models[role := Artifact(path)];
        i := i + 1;
      } else {
        failed := true;
      }
    }
    FirstMissingUnique(tipo, fileExists, i);
  }

  lemma PrefixExistsStep(tipo: string, fileExists: string -> bool, i: nat)
    requires i < |Order| && PrefixExists(tipo, fileExists, i)
    requires fileExists(FileName(tipo, Order[i]))
    ensures PrefixExists(tipo, fileExists, i + 1)
  {
  }

  /** The first missing position is the only one with every earlier file
      present and its own file absent. */
  lemma FirstMissingUnique(tipo: string, fileExists: string -> bool, i: nat)
    requires i <= |Order| && PrefixExists(tipo, fileExists, i)
    requires i < |Order| ==> !fileExists(FileName(tipo, Order[i]))
    ensures i == FirstMissing(tipo, fileExists)
  {
  }

  /** A key is in the dictionary exactly when its file and the files of all
      artifacts before it exist: a missing file hides every later one. */
  lemma LoadedHas(tipo: string, fileExists: string -> bool, r: Role)
    ensures r in Loaded(tipo, fileExists) <==> PrefixExists(tipo, fileExists, Position(r) + 1)
  {
    var n := FirstMissing(tipo, fileExists);
    LoadedUpToContents(tipo, n);
    if Position(r) < n {
      assert PrefixExists(tipo, fileExists, Position(r) + 1);
    } else {
      assert !fileExists(FileName(tipo, Order[n]));
    }
  }

  /** All four keys are present exactly when all four files exist. */
  lemma LoadedComplete(tipo: string, fileExists: string -> bool)
    ensures (forall r :: r in Loaded(tipo, fileExists)) <==> PrefixExists(tipo, fileExists, |Order|)
  {
    LoadedHas(tipo, fileExists, Agrupamiento);
    if PrefixExists(tipo, fileExists, |Order|) {
      forall r ensures r in Loaded(tipo, fileExists) {
        LoadedHas(tipo, fileExists, r);
      }
    }
  }

  /** The sale and the rental artifact sets share no file. */
  lemma FileSetsDisjoint(tipo: string, r: Role, s: Role)
    requires tipo != "Departamento"
    ensures FileName("Departamento", r) != FileName(tipo, s)
  {
    assert FileName("Departamento", r)[0] == 'r';
    assert FileName(tipo, s) == BaseName(s);
    assert BaseName(s)[0] != 'r';
  }

}
