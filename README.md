# Property estimate wizard: a Dafny model

This project models the core of a Streamlit application that estimates the
sale price of a house, or the monthly rent of an apartment, in Mexico. The
application is a three-page wizard:

1. The user chooses the property type, types an address and picks one of the
   suggested matches. The address is geocoded, and the user enters the land
   area, built area, rooms and bathrooms.
2. The user enters their name, surname, e-mail address, phone number and
   level of interest.
3. The results page loads the trained artifacts for the property type, runs
   the regressor and shows a rounded price with a band around it.

The model is written in six modules:

- `Options`: the `Option` datatype.
- `Validators`: `validar_correo` and `validar_telefono`. Each anchored
  regular expression is a finite automaton over the characters of the
  input. Each automaton is proved to accept exactly the strings that a
  plain-words description allows, including the one trailing line feed that
  Python's `$` tolerates.
- `Pricing`: what `predecir_precio` does after the regressor call. The raw
  prediction is dampened by 0.63 and floored to a multiple of 1000, for sale
  prices and monthly rents alike. A band is then derived from it: the low end
  is floored at 0 and the high end is rounded up. A raw prediction of
  1,000,000 gives 630000 within [599000, 672000].
- `Artifacts`: `cargar_modelos`. It builds the file name of each artifact
  from the property type, visits the four artifacts in their fixed order and
  stops at the first missing file. It returns the partial dictionary. When
  the two transforms succeed, a missing clustering file alone does not stop
  the estimate.
- `Estimation`: the results page. A partial dictionary determines which
  stage fails: preprocessing, prediction, or neither.
- `Wizard`: the session dictionary.
  - It is a record with one `Option` per key; `None` means the key is absent.
  - `InitDefaults` is the missing-key initialisation.
  - `Apply` and `Run` handle one event or a sequence of events: a widget
    value or a button press.
  - The `Session` class updates the same state in place.

Some inputs come from outside the script. The model takes each of them as a
parameter:

- the existence test for a file;
- whether the imputer and scaler transforms succeed;
- the regressor's raw output;
- the two band factors;
- the geocoder's answer;
- the address suggestions.

## Model

| member | source | states |
|---|---|---|
| Validators.EmailCharacterization | streamlit_app.py:228-230 | The automaton accepts a string iff it is a non-empty run of `[\w.-]`, then one '@', then a domain, optionally followed by a single line feed. The domain is a run of `[\w.-]` that has a non-initial '.' followed only by word characters. |
| Validators.EmailHasOneAt | streamlit_app.py:229 | Every accepted address holds exactly one '@'. |
| Validators.EmailAcceptsPlaceholder | streamlit_app.py:410 | The placeholder `usuario@ejemplo.com` is accepted. |
| Validators.EmailAcceptsLineFeed | streamlit_app.py:229-230 | `a@b.c` followed by a line feed is accepted, because `$` also matches before a final line feed. |
| Validators.EmailRejectsExamples | streamlit_app.py:229 | A domain without a '.' is rejected, and so is a second '@'. |
| Validators.EmailRejectsEmpty | streamlit_app.py:229 | The empty string is rejected. |
| Validators.PhoneCharacterization | streamlit_app.py:232-234 | The automaton accepts a string iff it has an optional '+', then 2 to 15 ASCII digits that do not start with '0', then at most one trailing line feed. |
| Validators.PhoneAcceptsPlaceholder | streamlit_app.py:416 | The placeholder `9214447277` is accepted. |
| Validators.PhoneRejectsLeadingZero | streamlit_app.py:233 | A leading '0' is rejected, with or without '+'. |
| Validators.PhoneRejectsLength | streamlit_app.py:233 | One digit is rejected, and so are sixteen. |
| Pricing.Ceil | streamlit_app.py:221 | `math.ceil`: the least integer not below its argument. |
| Pricing.RoundedPrice | streamlit_app.py:215 | The result is a multiple of 1000, at most `raw * 0.63`, and within 1000 of it. |
| Pricing.LogDefinedIffNonNegative | streamlit_app.py:218 | For a multiple of 1000, the argument of `math.log` is positive iff the price is not negative. |
| Pricing.LowEnd | streamlit_app.py:220 | A multiple of 1000 between 0 and the price; the largest one not above `price * lo`. |
| Pricing.HighEnd | streamlit_app.py:221 | A multiple of 1000 not below the price; the smallest one not below `price * hi`. |
| Pricing.Band | streamlit_app.py:220-223 | The band keeps the price, has both ends on multiples of 1000, satisfies `0 <= low <= price <= high`, and lies within 1000 of the scaled prices. |
| Pricing.PredictPrice | streamlit_app.py:210-226 | `None` when the regressor raised. Otherwise a result iff the rounded price is not negative, and that result is the rounded price with its band. |
| Pricing.EstimateShape | streamlit_app.py:215-223 | Every estimate consists of multiples of 1000, with `0 <= low <= price <= high`. |
| Pricing.NegativePriceFails | streamlit_app.py:218-226 | A negative dampened prediction rounds to at most -1000. `math.log` then fails and the function returns nothing. |
| Pricing.MillionExample | streamlit_app.py:213-223 | A raw prediction of 1,000,000 gives 630000 within [599000, 672000]. |
| Artifacts.Position | streamlit_app.py:137-142 | Each artifact's index in the loading order. |
| Artifacts.Prefix | streamlit_app.py:134 | The prefix is `renta_` iff the type is "Departamento", and empty otherwise. |
| Artifacts.LoadedUpToContents | streamlit_app.py:144-147 | After `n` steps the dictionary maps exactly the first `n` artifacts to their prefixed files. |
| Artifacts.FirstMissingFrom | streamlit_app.py:144-150 | The index at which the loop stops: every file before it exists, and the file at it is missing. |
| Artifacts.FirstMissing | streamlit_app.py:144-150 | The first index whose file is missing, or 4. |
| Artifacts.LoadModels | streamlit_app.py:131-154 | The loop returns the dictionary of every artifact before the first missing file. It reports failure iff some file is missing. |
| Artifacts.FirstMissingUnique | streamlit_app.py:144-150 | Only one index has all earlier files present and its own file missing. |
| Artifacts.LoadedHas | streamlit_app.py:144-154 | A key is loaded iff its own file and the files of every earlier artifact exist. |
| Artifacts.LoadedComplete | streamlit_app.py:137-154 | All four keys are loaded iff all four files exist. |
| Artifacts.FileSetsDisjoint | streamlit_app.py:134-145 | The sale files and the rental files never share a name. |
| Estimation.Results | streamlit_app.py:457-517 | The "could not process" error appears iff the imputer or the scaler is missing, or a transform fails. The estimate is shown iff preprocessing succeeds, the regressor is loaded and returns a value, and that value rounds to a non-negative price. |
| Estimation.ShownNeedsFirstThreeFiles | streamlit_app.py:190-213 | An estimate is shown only when the regressor, scaler and imputer files all exist. |
| Estimation.MissingClustererTolerated | streamlit_app.py:180-188 | When the two transforms succeed, a missing clustering file does not stop the estimate: the imputer receives no group. |
| Estimation.MissingRegressorBlocks | streamlit_app.py:144-150 | A missing regressor file leaves the dictionary empty, and the data are never processed. |
| Wizard.InitDefaults | streamlit_app.py:246-281 | The result is complete. For each of the eighteen keys, a present key keeps its value and a missing key gets its default. |
| Wizard.InitKeepsComplete | streamlit_app.py:246-281 | A session in which every key is present is unchanged. |
| Wizard.InitValid | streamlit_app.py:246-281 | Initialising a session of storable values gives a valid state. |
| Wizard.InitIdempotent | streamlit_app.py:246-281 | A second initialisation assigns nothing. |
| Wizard.InitAfterReset | streamlit_app.py:246-281 | After every key is deleted, initialisation gives exactly the defaults: page 1, "Casa", no coordinates. |
| Wizard.ContactCheck | streamlit_app.py:442-451 | The first failing check, in the source's order, each stated as an iff over the plain-words validator descriptions. The result is `None` iff every check passes. |
| Wizard.Apply | streamlit_app.py:297-452 | Every event keeps the session valid: page in 1..3, at most five suggestions, non-negative numbers. |
| Wizard.Run | streamlit_app.py:297-452 | Every sequence of events keeps the session valid. |
| Wizard.NextGate | streamlit_app.py:383-388 | "Siguiente" moves to page 2 iff the address is chosen and the four numbers are non-zero. Otherwise the session is unchanged. |
| Wizard.ZeroLandBlocks | streamlit_app.py:384-385 | A land area of 0 keeps the wizard on page 1. |
| Wizard.NextIgnoresCoordinates | streamlit_app.py:384 | The page-1 gate does not depend on the coordinates. |
| Wizard.BackKeepsFields | streamlit_app.py:435-437 | "Anterior" returns to page 1 and changes nothing else. |
| Wizard.EstimateGate | streamlit_app.py:441-452 | "Estimar" reaches page 3 iff the name and surname are non-empty, the e-mail and phone match their patterns, and an interest level is set. Otherwise the session is unchanged. |
| Wizard.InterestNeverMissing | streamlit_app.py:420-448 | Once the contact inputs have been delivered, the interest check cannot fail. |
| Wizard.CoordinatesOnlyFromGeocoding | streamlit_app.py:334-338 | The coordinates change only on page 1, through a successful geocode of a chosen address. |
| Wizard.FailedGeocodeKeepsState | streamlit_app.py:336-349 | A geocode that finds nothing, or that returns a 0.0 coordinate, changes nothing. |
| Wizard.SuggestionRefresh | streamlit_app.py:315-321 | Suggestions are fetched again only for a new input of at least three characters, and then replace the old ones. |
| Wizard.StepMoves | streamlit_app.py:383-452 | An event moves at most one page, and only through its gate. |
| Wizard.ResultsNeedContact | streamlit_app.py:441-455 | Every run that reaches the results page contains an "Estimar" press on page 2 at which every contact check passes. |
| Wizard.Session.constructor | streamlit_app.py:246 | A new browser session has no keys. |
| Wizard.Session.Initialize | streamlit_app.py:246-281 | The in-place initialisation yields `InitDefaults` of the old state. |
| Wizard.Session.InitAddressKeys | streamlit_app.py:246-257 | Fills in the six address and page keys that are missing; no other key changes. |
| Wizard.Session.InitPropertyKeys | streamlit_app.py:258-271 | Fills in the seven property keys that are missing; no other key changes. |
| Wizard.Session.InitContactKeys | streamlit_app.py:272-281 | Fills in the five contact keys that are missing; no other key changes. |
| Wizard.Session.ChooseType | streamlit_app.py:306-307 | The new state is `Apply` of the type event. |
| Wizard.Session.TypeAddress | streamlit_app.py:315-321 | The new state is `Apply` of the address event. |
| Wizard.Session.PickSuggestion | streamlit_app.py:323-331 | The new state is `Apply` of the dropdown event. |
| Wizard.Session.Geocode | streamlit_app.py:334-342 | The new state is `Apply` of the geocoding event. |
| Wizard.Session.EnterDetails | streamlit_app.py:355-381 | The new state is `Apply` of the four number inputs. |
| Wizard.Session.Next | streamlit_app.py:383-388 | The new state is `Apply` of "Siguiente". |
| Wizard.Session.EnterContact | streamlit_app.py:394-431 | The new state is `Apply` of the five contact inputs. |
| Wizard.Session.Back | streamlit_app.py:435-437 | The new state is `Apply` of "Anterior". |
| Wizard.Session.Estimate | streamlit_app.py:441-452 | The reported error is `ContactCheck` of the stored values, and the new state is `Apply` of "Estimar". |
| Wizard.Session.ShowResults | streamlit_app.py:455-466 | The outcome is `Results` applied to the dictionary that `cargar_modelos` returns for the stored type. |
| Wizard.Session.NewEstimate | streamlit_app.py:464-513 | Every key is deleted. The button exists only on a results page that shows an estimate, so the method requires `EstimateShown`. |
| Wizard.Restart | streamlit_app.py:464-513 | From a results page that shows an estimate, a new estimate followed by the rerun's initialisation gives exactly the defaults. |
| Wizard.ResultsPageIgnoresEvents | streamlit_app.py:455-517 | On the results page no event changes the session. |
| Wizard.ResultsPageFinal | streamlit_app.py:455-517 | No sequence of events leaves the results page or changes the session there. |
| Wizard.Reload | streamlit_app.py:246-281 | A browser reload opens a new session whose state is exactly the defaults, on page 1. |

## Left out

- Rendering is not modelled: markdown, tooltips, the map, the bar chart, button labels and error texts. Errors are modelled only as which message is chosen.
- `save_to_sheets` and the Google Sheets credentials are left out. They are I/O, and their result does not affect the wizard.
- The Nominatim geocoder is network I/O and is not modelled. Its answers enter as event parameters: a found pair of coordinates, or nothing, and up to five suggestions.
- `os.path.exists` is modelled as the `fileExists` parameter. The loaded objects themselves are opaque, and so are `joblib.load`, the directory join and the `@st.cache_resource` caching.
- `Artifacts.LoadModels`: `fileExists` stands for "the file exists and `joblib.load` on it does not raise". A load that raises (line 147) ends the loop through the same `except` (line 151) as a missing file, and the model does not tell the two apart.
- The clustering model, the imputer, the scaler and the regressor are opaque. Whether the two transforms succeed is a parameter, and so is the regressor's output.
- `Pricing.LowEnd`, `Pricing.HighEnd`: `math.exp(-0.05)` and `math.exp(0.01 * math.log(p / 1000 + 1))` are not computed. The band factors are parameters with the bounds those expressions have, `0 < lo < 1` and `hi >= 1`.
- Floating-point arithmetic is modelled on exact reals, including the literal 0.63. Near a multiple of 1000, a rounding boundary can fall on the other side in binary floating point.
- Python's `\w` and `\d` also match non-ASCII letters and digits; the model keeps them ASCII. No Unicode normalisation is modelled.
- `Artifacts.LoadModels` ends its loop through a flag where the source raises `FileNotFoundError` and catches it. Logging and the error banner are not modelled.
- `Wizard.Session.NewEstimate` is one assignment of the empty session. It stands for the loop that deletes the keys one by one. The keys' order is not observable.
- `on_address_change` (lines 236-241) is never registered as a widget callback, so it is not part of the wizard.
- Page 1 loads the models for the chosen type (line 308) and discards them. The results page loads them again, and only that load is modelled.
- Widget binding is simplified:
  - each widget's value is delivered as one event;
  - Streamlit's rerun that runs the script is not modelled;
  - values of a widget not on the current page are ignored.
- Streamlit refuses an assignment to `st.session_state.<key>` after a widget with that key has been created in the same run, and raises `StreamlitAPIException`. The script does this at lines 360, 367, 374, 381, 398, 403, 411, 417 and 431. The model treats each assignment as storing the widget's value and does not model the exception.
- Streamlit deletes the state of a keyed widget that is not drawn in a run. On page 2 this would remove `entrada_direccion`, `terreno`, `construccion`, `habitaciones` and `banos`, and lines 247-268 would then store their defaults again. The model keeps every key across pages and does not model this cleanup.
- A results page that shows an error (lines 514-517) has no button. `Wizard.ResultsPageFinal` states that no event leaves it, so the suggested retry ("intente nuevamente") needs a browser reload, which starts a new session (`Wizard.Reload`).
- The bathroom count defaults to the real 0.0 where the source stores the integer 0. The two are equal and both are false as a condition.
