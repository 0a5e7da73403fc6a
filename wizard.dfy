/**
 * The three-step wizard of the application, driven by `st.session_state`.
 * The session dictionary has one entry per key the script uses; each entry
 * here is an `Option`, `None` while the key is absent (before
 * initialisation, after the reset). Each widget interaction or button press
 * is an event; `Apply` says what an event does to the session, and the
 * `Session` class performs the same updates in place. What the outside
 * services return (address suggestions, geocoding, the models) enters as
 * parameters.
 */
module Wizard {
  import opened Options
  import Validators
  import opened Artifacts
  import Estimation

  /** The session dictionary; `None` is a missing key. A coordinate that is
      present but holds Python's `None` is `Some(None)`. */
  datatype Data = Data(
    entradaDireccion: Option<string>,
    sugerencias: Option<seq<string>>,
    direccionSeleccionada: Option<string>,
    mostrarMapa: Option<bool>,
    lastInput: Option<string>,
    step: Option<int>,
    tipoPropiedad: Option<string>,
    terreno: Option<int>,
    construccion: Option<int>,
    habitaciones: Option<int>,
    banos: Option<real>,
    latitud: Option<Option<real>>,
    longitud: Option<Option<real>>,
    nombre: Option<string>,
    apellido: Option<string>,
    correo: Option<string>,
    telefono: Option<string>,
    interesVenta: Option<string>)

  /** A session in which no key is set. */
  const Empty := Data(None, None, None, None, None, None, None, None, None,
                      None, None, None, None, None, None, None, None, None)

  /** Lines 246-281: the value each key receives when it is missing. */
  const Defaults := Data(Some(""), Some([]), Some(""), Some(false), Some(""), Some(1),
                         Some("Casa"), Some(0), Some(0), Some(0), Some(0.0),
                         Some(None), Some(None),
                         Some(""), Some(""), Some(""), Some(""), Some(""))

  /** Every key is present. */
  predicate Complete(m: Data) {
    m.entradaDireccion.Some? && m.sugerencias.Some? && m.direccionSeleccionada.Some? &&
    m.mostrarMapa.Some? && m.lastInput.Some? && m.step.Some? && m.tipoPropiedad.Some? &&
    m.terreno.Some? && m.construccion.Some? && m.habitaciones.Some? && m.banos.Some? &&
    m.latitud.Some? && m.longitud.Some? && m.nombre.Some? && m.apellido.Some? &&
    m.correo.Some? && m.telefono.Some? && m.interesVenta.Some?
  }

  /** The values present are those the script can store: `step` is one of the
      three pages, there are at most the five suggestions Nominatim is asked
      for, and the number inputs have minimum 0. */
  predicate Sound(m: Data) {
    (m.step.Some? ==> 1 <= m.step.value <= 3) &&
    (m.sugerencias.Some? ==> |m.sugerencias.value| <= 5) &&
    (m.terreno.Some? ==> m.terreno.value >= 0) &&
    (m.construccion.Some? ==> m.construccion.value >= 0) &&
    (m.habitaciones.Some? ==> m.habitaciones.value >= 0) &&
    (m.banos.Some? ==> m.banos.value >= 0.0)
  }

  /** The state every page of the wizard runs in, once initialised. */
  predicate Valid(m: Data) {
    Complete(m) && Sound(m)
  }

  /** The entry after one missing-key test: kept when present, the default
      otherwise. */
  function Fill<T>(present: Option<T>, default: Option<T>): (r: Option<T>) {
    if present.Some? then present else default
  }

  /** `result` is `given` when that is present, and `default` otherwise. */
  predicate Overlays<T(==)>(given: Option<T>, default: Option<T>, result: Option<T>) {
    if given.Some? then result == given else result == default
  }

  /** Lines 246-281: each missing key receives its default; a present key
      keeps its value. */
  function InitDefaults(m: Data): (r: Data)
    ensures Complete(r)
    ensures Overlays(m.entradaDireccion, Defaults.entradaDireccion, r.entradaDireccion)
    ensures Overlays(m.sugerencias, Defaults.sugerencias, r.sugerencias)
    ensures Overlays(m.direccionSeleccionada, Defaults.direccionSeleccionada, r.direccionSeleccionada)
    ensures Overlays(m.mostrarMapa, Defaults.mostrarMapa, r.mostrarMapa)
    ensures Overlays(m.lastInput, Defaults.lastInput, r.lastInput)
    ensures Overlays(m.step, Defaults.step, r.step)
    ensures Overlays(m.tipoPropiedad, Defaults.tipoPropiedad, r.tipoPropiedad)
    ensures Overlays(m.terreno, Defaults.terreno, r.terreno)
    ensures Overlays(m.construccion, Defaults.construccion, r.construccion)
    ensures Overlays(m.habitaciones, Defaults.habitaciones, r.habitaciones)
    ensures Overlays(m.banos, Defaults.banos, r.banos)
    ensures Overlays(m.latitud, Defaults.latitud, r.latitud)
    ensures Overlays(m.longitud, Defaults.longitud, r.longitud)
    ensures Overlays(m.nombre, Defaults.nombre, r.nombre)
    ensures Overlays(m.apellido, Defaults.apellido, r.apellido)
    ensures Overlays(m.correo, Defaults.correo, r.correo)
    ensures Overlays(m.telefono, Defaults.telefono, r.telefono)
    ensures Overlays(m.interesVenta, Defaults.interesVenta, r.interesVenta)
  {
    Data(Fill(m.entradaDireccion, Defaults.entradaDireccion),
         Fill(m.sugerencias, Defaults.sugerencias),
         Fill(m.direccionSeleccionada, Defaults.direccionSeleccionada),
         Fill(m.mostrarMapa, Defaults.mostrarMapa),
         Fill(m.lastInput, Defaults.lastInput),
         Fill(m.step, Defaults.step),
         Fill(m.tipoPropiedad, Defaults.tipoPropiedad),
         Fill(m.terreno, Defaults.terreno),
         Fill(m.construccion, Defaults.construccion),
         Fill(m.habitaciones, Defaults.habitaciones),
         Fill(m.banos, Defaults.banos),
         Fill(m.latitud, Defaults.latitud),
         Fill(m.longitud, Defaults.longitud),
         Fill(m.nombre, Defaults.nombre),
         Fill(m.apellido, Defaults.apellido),
         Fill(m.correo, Defaults.correo),
         Fill(m.telefono, Defaults.telefono),
         Fill(m.interesVenta, Defaults.interesVenta))
  }

  /** Initialisation of a session whose values the script could have stored
      yields a valid state. */
  lemma InitValid(m: Data)
    requires Sound(m)
    ensures Valid(InitDefaults(m))
  {
  }

  /** Initialisation leaves a session with every key present unchanged. */
  lemma InitKeepsComplete(m: Data)
    requires Complete(m)
    ensures InitDefaults(m) == m
  {
  }

  /** Initialisation is idempotent: a second run assigns nothing. */
  lemma InitIdempotent(m: Data)
    ensures InitDefaults(InitDefaults(m)) == InitDefaults(m)
  {
    InitKeepsComplete(InitDefaults(m));
  }

  /** After every key has been deleted, initialisation yields exactly the
      defaults: page 1, "Casa", zeros, empty strings, no coordinates. */
  lemma InitAfterReset()
    ensures InitDefaults(Empty) == Defaults
    ensures Defaults.step == Some(1) && Defaults.tipoPropiedad == Some("Casa")
    ensures Defaults.latitud == Some(None) && Defaults.longitud == Some(None)
  {
  }

  // ---------------------------------------------------------------------
  // The gates of the buttons that move between pages
  // ---------------------------------------------------------------------

  /** Lines 383-384: an address has been chosen and the four numbers are
      non-zero. The coordinates are not looked at. */
  predicate DetailsComplete(m: Data)
    requires Complete(m)
  {
    m.direccionSeleccionada.value != "" && m.terreno.value != 0 && m.construccion.value != 0 &&
    m.habitaciones.value != 0 && m.banos.value != 0.0
  }

  /** The message the "Estimar" button shows, in the order it checks. */
  datatype ContactError = MissingName | InvalidEmail | InvalidPhone | MissingInterest

  /** Lines 442-451: the first failing check, or `None` when all pass. */
  function ContactCheck(nombre: string, apellido: string, correo: string, telefono: string,
                        interes: string): (e: Option<ContactError>)
    ensures e == Some(MissingName) <==> nombre == "" || apellido == ""
    ensures e == Some(InvalidEmail) <==>
      nombre != "" && apellido != "" && !Validators.EmailSpec(correo)
    ensures e == Some(InvalidPhone) <==>
      nombre != "" && apellido != "" && Validators.EmailSpec(correo) && !Validators.PhoneSpec(telefono)
    ensures e == Some(MissingInterest) <==>
      nombre != "" && apellido != "" && Validators.EmailSpec(correo) &&
      Validators.PhoneSpec(telefono) && interes == ""
    ensures e == None <==>
      nombre != "" && apellido != "" && Validators.EmailSpec(correo) &&
      Validators.PhoneSpec(telefono) && interes != ""
  {
    Validators.EmailCharacterization(correo);
    Validators.PhoneCharacterization(telefono);
    if nombre == "" || apellido == "" then Some(MissingName)
    else if !Validators.IsValidEmail(correo) then Some(InvalidEmail)
    else if !Validators.IsValidPhone(telefono) then Some(InvalidPhone)
    else if interes == "" then Some(MissingInterest)
    else None
  }

  /** The contact check applied to the values stored in the session. */
  function ContactOf(m: Data): (error: Option<ContactError>)
    requires Complete(m)
  {
    ContactCheck(m.nombre.value, m.apellido.value, m.correo.value, m.telefono.value, m.interesVenta.value)
  }

  // ---------------------------------------------------------------------
  // Events
  // ---------------------------------------------------------------------

  /** One interaction with the page, with whatever the outside services
      returned for it. */
  datatype Event =
    | TypeChosen(tipo: string)                                // lines 304-307
    | AddressTyped(current: string, fetched: seq<string>)     // lines 313-321
    | SuggestionPicked(choice: string)                        // lines 323-331
    | Geocoded(found: Option<(real, real)>, toggle: bool)     // lines 334-342
    | DetailsEntered(terreno: nat, construccion: nat, habitaciones: nat, banos: real) // 355-381
    | NextPressed                                             // lines 383-388
    | ContactEntered(nombre: string, apellido: string, correo: string,
                     telefono: string, interes: string)       // lines 394-431
    | BackPressed                                             // lines 435-437
    | EstimatePressed                                         // lines 441-452

  /** Lines 420-430: the five levels the interest box offers; none is empty. */
  const InterestLevels: seq<string> := [
    "Solo estoy explorando el valor de mi propiedad por curiosidad.",
    "Podría considerar vender/alquilar en el futuro.",
    "Estoy interesado/a en vender/alquilar, pero no tengo prisa.",
    "Estoy buscando activamente vender/alquilar mi propiedad.",
    "Necesito vender/alquilar mi propiedad lo antes posible."]

  /** Whether the widget of an event is on the page shown for `m.step`, and
      what that widget can deliver: the type box offers "Casa" and
      "Departamento", Nominatim returns at most five suggestions, the dropdown
      offers the current suggestions, the bathroom input has minimum 0 and the
      interest box offers its five levels. */
  predicate Enabled(m: Data, e: Event)
    requires Valid(m)
  {
    match e
    case TypeChosen(tipo) => m.step.value == 1 && (tipo == "Casa" || tipo == "Departamento")
    case AddressTyped(_, fetched) => m.step.value == 1 && |fetched| <= 5
    case SuggestionPicked(choice) =>
      m.step.value == 1 && (m.sugerencias.value != [] ==> choice in m.sugerencias.value)
    case Geocoded(_, _) => m.step.value == 1
    case DetailsEntered(_, _, _, banos) => m.step.value == 1 && banos >= 0.0
    case NextPressed => m.step.value == 1
    case ContactEntered(_, _, _, _, interes) => m.step.value == 2 && interes in InterestLevels
    case BackPressed => m.step.value == 2
    case EstimatePressed => m.step.value == 2
  }

  /** Geocoding succeeded in the sense of `if latitud and longitud:`, which
      also treats a coordinate of exactly 0.0 as a failure. */
  predicate Located(found: Option<(real, real)>) {
    found.Some? && found.value.0 != 0.0 && found.value.1 != 0.0
  }

  /** The effect of an event on the session; an event whose widget is not on
      the current page changes nothing. */
  function Apply(m: Data, e: Event): (r: Data)
    requires Valid(m)
    ensures Valid(r)
  {
    if !Enabled(m, e) then m
    else match e
      case TypeChosen(tipo) => m.(tipoPropiedad := Some(tipo))
      case AddressTyped(current, fetched) =>
        var typed := m.(entradaDireccion := Some(current));
        if current != m.lastInput.value && |current| >= 3 then
          typed.(lastInput := Some(current), sugerencias := Some(fetched))
        else typed
      case SuggestionPicked(choice) =>
        if m.sugerencias.value != [] && choice != "" then m.(direccionSeleccionada := Some(choice))
        else m
      case Geocoded(found, toggle) =>
        if m.direccionSeleccionada.value != "" && Located(found) then
          var placed := m.(latitud := Some(Some(found.value.0)), longitud := Some(Some(found.value.1)));
          if toggle then placed.(mostrarMapa := Some(!m.mostrarMapa.value)) else placed
        else m
      case DetailsEntered(t, c, h, b) =>
        m.(terreno := Some(t), construccion := Some(c), habitaciones := Some(h), banos := Some(b))
      case NextPressed => if DetailsComplete(m) then m.(step := Some(2)) else m
      case ContactEntered(n, a, c, t, i) =>
        m.(nombre := Some(n), apellido := Some(a), correo := Some(c), telefono := Some(t),
           interesVenta := Some(i))
      case BackPressed => m.(step := Some(1))
      case EstimatePressed => if ContactOf(m) == None then m.(step := Some(3)) else m
  }

  /** The session after a sequence of events. */
  function Run(m: Data, es: seq<Event>): (r: Data)
    requires Valid(m)
    ensures Valid(r)
    decreases |es|
  {
    if es == [] then m else Apply(Run(m, es[..|es| - 1]), es[|es| - 1])
  }

  // ---------------------------------------------------------------------
  // Properties of the events
  // ---------------------------------------------------------------------

  /** "Siguiente" moves from page 1 to page 2 exactly when the details are
      complete, and otherwise changes nothing. */
  lemma NextGate(m: Data)
    requires Valid(m) && m.step == Some(1)
    ensures DetailsComplete(m) ==> Apply(m, NextPressed) == m.(step := Some(2))
    ensures !DetailsComplete(m) ==> Apply(m, NextPressed) == m
  {
  }

  /** A zero in the land area keeps the wizard on page 1. */
  lemma ZeroLandBlocks(m: Data)
    requires Valid(m) && m.step == Some(1) && m.terreno == Some(0)
    ensures Apply(m, NextPressed) == m
  {
  }

  /** The coordinates play no part in the page-1 gate: whatever they hold,
      "Siguiente" lands on the same page. */
  lemma NextIgnoresCoordinates(m: Data, lat: Option<real>, lon: Option<real>)
    requires Valid(m) && m.step == Some(1)
    ensures Apply(m.(latitud := Some(lat), longitud := Some(lon)), NextPressed).step ==
            Apply(m, NextPressed).step
  {
  }

  /** "Anterior" goes back to page 1 and keeps everything entered. */
  lemma BackKeepsFields(m: Data)
    requires Valid(m) && m.step == Some(2)
    ensures Apply(m, BackPressed) == m.(step := Some(1))
  {
  }

  /** "Estimar" moves to page 3 exactly when every contact check passes, and
      otherwise changes nothing. */
  lemma EstimateGate(m: Data)
    requires Valid(m) && m.step == Some(2)
    ensures Apply(m, EstimatePressed).step == Some(3) <==>
      m.nombre.value != "" && m.apellido.value != "" && Validators.EmailSpec(m.correo.value) &&
      Validators.PhoneSpec(m.telefono.value) && m.interesVenta.value != ""
    ensures Apply(m, EstimatePressed).step != Some(3) ==> Apply(m, EstimatePressed) == m
  {
  }

  /** Once the contact page has delivered its inputs, the interest check
      cannot fail: the box offers no empty level. */
  lemma InterestNeverMissing(m: Data, n: string, a: string, c: string, t: string, i: string)
    requires Valid(m) && Enabled(m, ContactEntered(n, a, c, t, i))
    ensures ContactOf(Apply(m, ContactEntered(n, a, c, t, i))) != Some(MissingInterest)
  {
  }

  /** The coordinates change only on a successful geocode of a chosen
      address, on page 1. */
  lemma CoordinatesOnlyFromGeocoding(m: Data, e: Event)
    requires Valid(m)
    ensures Apply(m, e).latitud != m.latitud || Apply(m, e).longitud != m.longitud ==>
      e.Geocoded? && Located(e.found) && m.direccionSeleccionada.value != "" && m.step == Some(1)
  {
  }

  /** A geocode that finds nothing changes nothing, so the previous
      coordinates stay. */
  lemma FailedGeocodeKeepsState(m: Data, found: Option<(real, real)>, toggle: bool)
    requires Valid(m) && !Located(found)
    ensures Apply(m, Geocoded(found, toggle)) == m
  {
  }

  /** Suggestions are fetched again only for a new input of at least three
      characters, and then replace the old ones. */
  lemma SuggestionRefresh(m: Data, current: string, fetched: seq<string>)
    requires Valid(m) && m.step == Some(1) && |fetched| <= 5
    ensures var r := Apply(m, AddressTyped(current, fetched));
      r.entradaDireccion == Some(current) &&
      (current != m.lastInput.value && |current| >= 3 ==>
        r.sugerencias == Some(fetched) && r.lastInput == Some(current)) &&
      (current == m.lastInput.value || |current| < 3 ==>
        r.sugerencias == m.sugerencias && r.lastInput == m.lastInput)
  {
  }

  /** Each event moves at most one page, and only through its gate: 1 to 2 by
      "Siguiente" with complete details, 2 to 1 by "Anterior", 2 to 3 by
      "Estimar" with every contact check passing. */
  lemma StepMoves(m: Data, e: Event)
    requires Valid(m)
    ensures var s, s' := m.step.value, Apply(m, e).step.value;
      s' == s ||
      (s == 1 && s' == 2 && e == NextPressed && DetailsComplete(m)) ||
      (s == 2 && s' == 1 && e == BackPressed) ||
      (s == 2 && s' == 3 && e == EstimatePressed && ContactOf(m) == None)
  {
  }

  /** The results page is only ever reached through an "Estimar" press on
      page 2 whose contact checks all pass. */
  lemma {:induction false} ResultsNeedContact(m: Data, es: seq<Event>)
    requires Valid(m) && m.step != Some(3) && Run(m, es).step == Some(3)
    ensures exists i :: 0 <= i < |es| && es[i] == EstimatePressed &&
                        Run(m, es[..i]).step == Some(2) && ContactOf(Run(m, es[..i])) == None
    decreases |es|
  {
    assert es != [];
    var n := |es| - 1;
    var before := Run(m, es[..n]);
    StepMoves(before, es[n]);
    if before.step == Some(3) {
      ResultsNeedContact(m, es[..n]);
      var i :| 0 <= i < n && es[..n][i] == EstimatePressed &&
        Run(m, es[..n][..i]).step == Some(2) && ContactOf(Run(m, es[..n][..i])) == None;
      assert es[..n][..i] == es[..i];
    } else {
      assert es[n] == EstimatePressed && Run(m, es[..n]).step == Some(2);
    }
  }

  // ---------------------------------------------------------------------
  // The session, updated in place
  // ---------------------------------------------------------------------

  class Session {
    var state: Data

    ghost predicate Ready()
      reads this
    {
      Valid(state)
    }

    /** A fresh browser session: no key is set. */
    constructor ()
      ensures state == Empty
    {
      state := Empty;
    }

    /** Lines 246-281: one missing-key test per key, in the script's order. */
    method Initialize()
      requires Sound(state)
      modifies this
      ensures state == InitDefaults(old(state))
      ensures Ready()
    {
      InitAddressKeys();
      InitPropertyKeys();
      InitContactKeys();
    }

    /** Lines 246-257: the keys of the address search and the page number. */
    method InitAddressKeys()
      modifies this
      ensures state == old(state).(
        entradaDireccion := Fill(old(state).entradaDireccion, Defaults.entradaDireccion),
        sugerencias := Fill(old(state).sugerencias, Defaults.sugerencias),
        direccionSeleccionada := Fill(old(state).direccionSeleccionada, Defaults.direccionSeleccionada),
        mostrarMapa := Fill(old(state).mostrarMapa, Defaults.mostrarMapa),
        lastInput := Fill(old(state).lastInput, Defaults.lastInput),
        step := Fill(old(state).step, Defaults.step))
    {
      if state.entradaDireccion.None? { state := state.(entradaDireccion := Some("")); }
      if state.sugerencias.None? { state := state.(sugerencias := Some([])); }
      if state.direccionSeleccionada.None? { state := state.(direccionSeleccionada := Some("")); }
      if state.mostrarMapa.None? { state := state.(mostrarMapa := Some(false)); }
      if state.lastInput.None? { state := state.(lastInput := Some("")); }
      if state.step.None? { state := state.(step := Some(1)); }
    }

    /** Lines 258-271: the property keys. */
    method InitPropertyKeys()
      modifies this
      ensures state == old(state).(
        tipoPropiedad := Fill(old(state).tipoPropiedad, Defaults.tipoPropiedad),
        terreno := Fill(old(state).terreno, Defaults.terreno),
        construccion := Fill(old(state).construccion, Defaults.construccion),
        habitaciones := Fill(old(state).habitaciones, Defaults.habitaciones),
        banos := Fill(old(state).banos, Defaults.banos),
        latitud := Fill(old(state).latitud, Defaults.latitud),
        longitud := Fill(old(state).longitud, Defaults.longitud))
    {
      if state.tipoPropiedad.None? { state := state.(tipoPropiedad := Some("Casa")); }
      if state.terreno.None? { state := state.(terreno := Some(0)); }
      if state.construccion.None? { state := state.(construccion := Some(0)); }
      if state.habitaciones.None? { state := state.(habitaciones := Some(0)); }
      if state.banos.None? { state := state.(banos := Some(0.0)); }
      if state.latitud.None? { state := state.(latitud := Some(None)); }
      if state.longitud.None? { state := state.(longitud := Some(None)); }
    }

    /** Lines 272-281: the contact keys. */
    method InitContactKeys()
      modifies this
      ensures state == old(state).(
        nombre := Fill(old(state).nombre, Defaults.nombre),
        apellido := Fill(old(state).apellido, Defaults.apellido),
        correo := Fill(old(state).correo, Defaults.correo),
        telefono := Fill(old(state).telefono, Defaults.telefono),
        interesVenta := Fill(old(state).interesVenta, Defaults.interesVenta))
    {
      if state.nombre.None? { state := state.(nombre := Some("")); }
      if state.apellido.None? { state := state.(apellido := Some("")); }
      if state.correo.None? { state := state.(correo := Some("")); }
      if state.telefono.None? { state := state.(telefono := Some("")); }
      if state.interesVenta.None? { state := state.(interesVenta := Some("")); }
    }

    /** Lines 304-307: the property-type box writes `tipo_propiedad`. */
    method ChooseType(tipo: string)
      requires Ready() && Enabled(state, TypeChosen(tipo))
      modifies this
      ensures state == Apply(old(state), TypeChosen(tipo))
    {
      state := state.(tipoPropiedad := Some(tipo));
    }

    /** Lines 313-321: the address box, and the suggestion refresh for a new
        input of at least three characters. */
    method TypeAddress(current: string, fetched: seq<string>)
      requires Ready() && Enabled(state, AddressTyped(current, fetched))
      modifies this
      ensures state == Apply(old(state), AddressTyped(current, fetched))
    {
      state := state.(entradaDireccion := Some(current));
      if current != state.lastInput.value && |current| >= 3 {
        state := state.(lastInput := Some(current));
        state := state.(sugerencias := Some(fetched));
      }
    }

    /** Lines 323-331: the suggestion dropdown, shown when there are
        suggestions. */
    method PickSuggestion(choice: string)
      requires Ready() && Enabled(state, SuggestionPicked(choice))
      modifies this
      ensures state == Apply(old(state), SuggestionPicked(choice))
    {
      if state.sugerencias.value != [] {
        if choice != "" {
          state := state.(direccionSeleccionada := Some(choice));
        }
      }
    }

    /** Lines 334-342: geocoding the chosen address; `toggle` is the map
        button. */
    method Geocode(found: Option<(real, real)>, toggle: bool)
      requires Ready() && Enabled(state, Geocoded(found, toggle))
      modifies this
      ensures state == Apply(old(state), Geocoded(found, toggle))
    {
      if state.direccionSeleccionada.value != "" {
        if found.Some? && found.value.0 != 0.0 && found.value.1 != 0.0 {
          state := state.(latitud := Some(Some(found.value.0)));
          state := state.(longitud := Some(Some(found.value.1)));
          if toggle {
            state := state.(mostrarMapa := Some(!state.mostrarMapa.value));
          }
        }
      }
    }

    /** Lines 355-381: the four number inputs. */
    method EnterDetails(terreno: nat, construccion: nat, habitaciones: nat, banos: real)
      requires Ready() && Enabled(state, DetailsEntered(terreno, construccion, habitaciones, banos))
      modifies this
      ensures state == Apply(old(state), DetailsEntered(terreno, construccion, habitaciones, banos))
    {
      state := state.(terreno := Some(terreno));
      state := state.(construccion := Some(construccion));
      state := state.(habitaciones := Some(habitaciones));
      state := state.(banos := Some(banos));
    }

    /** Lines 383-388: "Siguiente". */
    method Next()
      requires Ready() && Enabled(state, NextPressed)
      modifies this
      ensures state == Apply(old(state), NextPressed)
    {
      if state.direccionSeleccionada.value == "" || state.terreno.value == 0 ||
         state.construccion.value == 0 || state.habitaciones.value == 0 || state.banos.value == 0.0 {
        // the error message is shown and nothing changes
      } else {
        state := state.(step := Some(2));
      }
    }

    /** Lines 394-431: the five contact inputs. */
    method EnterContact(nombre: string, apellido: string, correo: string, telefono: string, interes: string)
      requires Ready() && Enabled(state, ContactEntered(nombre, apellido, correo, telefono, interes))
      modifies this
      ensures state == Apply(old(state), ContactEntered(nombre, apellido, correo, telefono, interes))
    {
      state := state.(nombre := Some(nombre));
      state := state.(apellido := Some(apellido));
      state := state.(correo := Some(correo));
      state := state.(telefono := Some(telefono));
      state := state.(interesVenta := Some(interes));
    }

    /** Lines 435-437: "Anterior". */
    method Back()
      requires Ready() && Enabled(state, BackPressed)
      modifies this
      ensures state == Apply(old(state), BackPressed)
    {
      state := state.(step := Some(1));
    }

    /** Lines 441-452: "Estimar", which reports the first failing check. */
    method Estimate() returns (error: Option<ContactError>)
      requires Ready() && Enabled(state, EstimatePressed)
      modifies this
      ensures error == ContactOf(old(state))
      ensures state == Apply(old(state), EstimatePressed)
    {
      error := ContactOf(state);
      if error == None {
        state := state.(step := Some(3));
      }
    }

    /** Lines 455-465: the results page for the stored property type. The
        file-existence test, the preprocessing outcome, the regressor output
        and the two band factors are inputs. */
    method ShowResults(fileExists: string -> bool, transformOk: bool, raw: Option<real>, lo: real, hi: real)
      returns (outcome: Estimation.Outcome)
      requires Ready() && state.step == Some(3)
      requires 0.0 < lo < 1.0 && 1.0 <= hi
      ensures outcome == Estimation.Results(Loaded(state.tipoPropiedad.value, fileExists), transformOk, raw, lo, hi)
    {
      var models, _ := LoadModels(state.tipoPropiedad.value, fileExists);
      outcome := Estimation.Results(models, transformOk, raw, lo, hi);
    }

    /** Lines 510-513: "Nueva Estimación" deletes every key. The button is
        drawn only in a run of the results page that shows an estimate
        (lines 464-466), under the same inputs `ShowResults` receives. */
    method NewEstimate(fileExists: string -> bool, transformOk: bool, raw: Option<real>, lo: real, hi: real)
      requires Ready() && 0.0 < lo < 1.0 && 1.0 <= hi
      requires EstimateShown(state, fileExists, transformOk, raw, lo, hi)
      modifies this
      ensures state == Empty
    {
      state := Empty;
    }
  }

  /** The results page shows an estimate for these inputs, so the
      "Nueva Estimación" button is on it. */
  predicate EstimateShown(m: Data, fileExists: string -> bool, transformOk: bool, raw: Option<real>,
                          lo: real, hi: real)
    requires Complete(m) && 0.0 < lo < 1.0 && 1.0 <= hi
  {
    m.step == Some(3) &&
    Estimation.Results(Loaded(m.tipoPropiedad.value, fileExists), transformOk, raw, lo, hi).Shown?
  }

  /** No page-1 or page-2 event does anything on the results page: the only
      way off it is "Nueva Estimación", which a failed estimate does not
      offer (lines 514-517). */
  lemma ResultsPageIgnoresEvents(m: Data, e: Event)
    requires Valid(m) && m.step == Some(3)
    ensures Apply(m, e) == m
  {
  }

  /** Once on the results page, every further sequence of events stays
      there unchanged. */
  lemma {:induction false} ResultsPageFinal(m: Data, es: seq<Event>)
    requires Valid(m) && m.step == Some(3)
    ensures Run(m, es) == m
    decreases |es|
  {
    if es != [] {
      ResultsPageFinal(m, es[..|es| - 1]);
      ResultsPageIgnoresEvents(m, es[|es| - 1]);
    }
  }

  /** A new estimate followed by the rerun that initialises the session again
      starts over from the defaults. */
  method Restart(session: Session, fileExists: string -> bool, transformOk: bool, raw: Option<real>,
                 lo: real, hi: real)
    requires session.Ready() && 0.0 < lo < 1.0 && 1.0 <= hi
    requires EstimateShown(session.state, fileExists, transformOk, raw, lo, hi)
    modifies session
    ensures session.state == Defaults
    ensures session.Ready()
  {
    session.NewEstimate(fileExists, transformOk, raw, lo, hi);
    session.Initialize();
    InitAfterReset();
  }

  /** Reloading the browser page opens a new session, which the first run
      initialises to the defaults; this is the only way off a results page
      that shows an error. */
  method Reload() returns (session: Session)
    ensures fresh(session)
    ensures session.state == Defaults && session.Ready()
  {
    session := new Session();
    session.Initialize();
    InitAfterReset();
  }
}
