# Rockfall Prediction System — a verified model of its decision logic

The Rockfall Prediction System watches open-pit mine slopes. Collectors
gather rainfall and seismic data per site. A prediction service scores the
rockfall risk of a site. An alert manager e-mails the site's contacts when
the risk is high enough. A dashboard shows the hazard zones on a satellite
map. This project models the parts of that system that decide something,
and proves what they promise:

- `map_overlay.dfy` (`MapOverlay`): the dashboard map component. It covers
  the one-shot mount guarded by the mutable map reference, and the map it
  builds: a view, a tile layer, one polygon per risk zone, one marker per
  incident and a scale control. It also covers the layer and popup contents
  built from each record, and the cleanup that removes the map and clears
  the reference.
- `risk_rules.dfy` (`RiskRules`): the threshold rules of both rule-based
  predictors. One variant compares NULL columns unguarded. The other guards
  each rule by the column's truthiness. The module also covers the
  'high'/'low' label, the `/predict/{site_id}` handler and its 404s, and
  the selection of the latest feature row. The model-backed
  `PredictionService` is covered for its column selection and its
  HIGH/MEDIUM/LOW tiering.
- `alert_throttle.dfy` (`AlertThrottle`): the throttling of repeated alerts
  over the alerts table. It also covers the life of an alert record, which
  starts "pending" and ends "sent" or "error".
- `alert_dispatch.dfy` (`AlertDispatch`): the alert endpoint of the alert
  manager service. It covers the SMTP credential guard, the alert e-mail,
  and the threshold gate. It also covers the comma-separated recipient
  list, with one send attempt per stripped piece, and the history row
  written only when a send succeeded.
- `seismic_features.dfy` (`SeismicFeatures`): the catalogue query and the
  per-event records. It also folds an event list into the four seismic
  features: count, maximum magnitude, recency- and proximity-weighted
  magnitude, and minutes since the last M3+ event.
- `training_data.dfy` (`TrainingData`): the model trainer's text features,
  written "col: value." per column. It also covers the `prepare_data`
  dispatch on the model type with its errors, and the indexing of the text
  dataset.
- `text.dfy` (`Text`), `tables.dfy` (`Tables`) and `wrappers.dfy`
  (`Wrappers`): shared pieces. `Text` holds Python's `strip`, `upper`,
  `split` and `join`. `Tables` holds the "first row that matches" of a
  database query. `Wrappers` holds `Option` and `Result`.

Databases are sequences of records. The clock is a parameter: integer
seconds in the alert code, real seconds in the seismic code. Every outcome
of the outside world is a parameter of the operation that consumes it:
- the SMTP session result;
- the e-mail/SMS delivery outcome;
- the distance function;
- the trained model's probability;
- the scaler.

Rule inputs are `real`, so every comparison is exact.

Facts about the code that shape the model:

- `MapSection.js` builds the map once, from its own hardcoded arrays. It
  takes each record's colour as given, validates nothing and never re-syncs
  layers. The model has mount, layer construction and cleanup, and nothing
  else.
- `SimpleRockfallPredictor.calculate_risk` in `predictor.py` has no None
  guard. A NULL rule input in the latest row raises `TypeError`. The
  message names the operator of the first rule, in evaluation order, whose
  input is None: `>` for rainfall and humidity, `>=` for magnitude.
  `RiskRules.PredictSimple` returns that error. `SimplePredictor.calculate_risk`
  in the service's `main.py` guards each rule, and
  `RiskRules.CalculateRiskGuarded` models it.
- The Python services cannot be imported as shipped:
  - `alerts.py:10` imports `Alert` and `Prediction` from
    `services/common/models.py`, which does not define them.
  - The `Settings` of `services/common/config.py:2-9` has only host and port
    fields. It has no `SMTP_*`, `TWILIO_*`, `ALERT_THROTTLE_HIGH`/`_MEDIUM`
    or `PREDICTION_THRESHOLD_HIGH`/`_MEDIUM`.
  - `predictor.py:94` calls `get_settings()` without importing it, and the
    file also uses `Model`, `desc`, `joblib`, `setup_logging`, `Optional`,
    `Prediction`, `Site`, `uuid` and `timezone` without importing them.
  - `Site` (`models.py:9-20`) has no `contact_email` or `contact_phone`,
    which `alerts.py:158` and `alerts.py:163` read.
  - `AlertHistory` (`models.py:80`) declares `relationship("Prediction")`,
    a class `models.py` never defines, so SQLAlchemy's mapper
    configuration fails on the first query; the same class also declares
    `site` twice (`models.py:78` and `models.py:81`).
  - `services/common/database.py:10` calls
    `create_engine(settings.database_url)`, and `Settings` has no
    `database_url`. Every module that imports `get_db` therefore fails at
    import, among them `prediction_service/main.py` and
    `alert_manager/main.py`.
  - `get_db` is a `@contextmanager` (`database.py:15`), yet the handlers
    take it as `Depends(get_db)` (`prediction_service/main.py:58`,
    `alert_manager/main.py:85`). The handler receives the context manager
    rather than a `Session`, so its first `db.query` raises
    `AttributeError` and FastAPI answers 500.

  The model takes the evident intent: the missing settings (throttle
  windows, prediction thresholds) are parameters, the missing tables are
  records, and the delivery outcome to the site's contacts is a single
  given outcome that does not depend on those contact fields, and the
  handlers work on the tables through a working session.

## Model

| member | source | states |
|---|---|---|
| Text.TrimStart | services/alert_manager/main.py:72 | never longer than the input; the result does not start with white space |
| Text.TrimStartSuffix | services/alert_manager/main.py:72 | what is removed from the front is a run of white space, and the rest is kept unchanged |
| Text.TrimEnd | services/alert_manager/main.py:72 | never longer than the input; the result does not end with white space |
| Text.TrimEndPrefix | services/alert_manager/main.py:72 | what is removed from the end is a run of white space, and the rest is kept unchanged |
| Text.Strip | services/alert_manager/main.py:72 | `str.strip()`: never longer than the input; the result neither starts nor ends with a character Python counts as white space |
| Text.StripFrame | services/alert_manager/main.py:72 | stripping text framed by white space gives back exactly the text, if it has non-space ends |
| Text.Upper | services/alert_manager/main.py:64 | same length; no ASCII lower-case letter remains, each one becomes its upper-case letter, and every other character is unchanged |
| Text.UpperIdempotent | services/alert_manager/main.py:64 | upper-casing an upper-cased text changes nothing |
| Text.Split | services/alert_manager/main.py:109 | `str.split(',')`: one piece more than the separator count; joined back with the separator they give the input; no piece holds the separator |
| Text.SplitJoin | services/alert_manager/main.py:109 | splitting a join of separator-free pieces gives the pieces back |
| Tables.FirstWhere | services/alert_manager/alerts.py:106-111 | `.first()` of a filtered query: None exactly when no row matches, otherwise the index of the first matching row |
| RiskRules.MaxOf | services/prediction_service/predictor.py:44 | `max` of a non-empty list: an element of the list that no element exceeds |
| RiskRules.CalculateRisk | services/prediction_service/predictor.py:18-44 | the appended factors give exactly the reference risk `Score`, the largest fired factor capped at 1.0, or 0.1 |
| RiskRules.ScoreValues | services/prediction_service/predictor.py:18-21 | the risk is one of 0.1, 0.4, 0.6, 0.7, 0.8, so within (0, 1] as documented |
| RiskRules.ScoreBaseline | services/prediction_service/predictor.py:39-41 | the risk is the 0.1 baseline exactly when no rule fires |
| RiskRules.LargestFiredFactor | services/prediction_service/predictor.py:23-44 | a rule fires iff some factor was collected; the risk is then a collected factor, at least every collected factor and at most 1.0 |
| RiskRules.ScoreMonotone | services/prediction_service/predictor.py:26-44 | raising any input never lowers the risk |
| RiskRules.RiskLabelIff | services/prediction_service/predictor.py:72 | the label is 'high' iff the probability is at least 0.6, 'low' otherwise |
| RiskRules.HighIffStrongRule | services/prediction_service/main.py:31-49 | the label is 'high' iff a rainfall rule or the magnitude rule fires; humidity alone never gives 'high' |
| RiskRules.LatestFor | services/prediction_service/predictor.py:50-54 | None iff the site has no row; otherwise a row of the site whose timestamp no row of the site exceeds |
| RiskRules.FirstNoneOperator | services/prediction_service/predictor.py:26-37 | for a row with a NULL rule input, the comparison that meets None first: `>=` exactly when both rainfall inputs are present and the magnitude is NULL, `>` otherwise |
| RiskRules.PredictSimple | services/prediction_service/predictor.py:26-75 | ValueError "No data available for site …" iff the site has no row; TypeError iff a rule input of the latest row is NULL, with the message naming the first failing comparison's operator; Ok iff the latest row has all four inputs, and then that row's four inputs, their risk and its label, "high" from 0.6 on and "low" below |
| RiskRules.MissingMagnitudeMessage | services/prediction_service/predictor.py:26-37 | a latest row with the rainfall inputs present and the magnitude NULL fails with "'>=' not supported between instances of 'NoneType' and 'float'" |
| RiskRules.CalculateRiskGuarded | services/prediction_service/main.py:26-49 | the guarded rules give exactly `Score` of the row with NULLs read as zero |
| RiskRules.MissingNeverFires | services/prediction_service/main.py:31-41 | a NULL or zero column never fires its rule |
| RiskRules.GuardedAgreesWhenPresent | services/prediction_service/main.py:26-49 | on a row without NULLs the guarded and the unguarded predictors give the same risk |
| RiskRules.GuardIsTruthiness | services/prediction_service/main.py:31-41 | each guarded rule fires iff its column is truthy and the unguarded comparison holds |
| RiskRules.HandlePredict | services/prediction_service/main.py:57-89 | 404 "Site not found" iff the site is unknown; 404 "No feature data available" iff it is known without rows; a prediction iff the site is known and has rows, carrying the guarded risk of the latest row, its label ("high" from 0.6 on, "low" below), and the four inputs echoed unchanged |
| RiskRules.SelectColumns | services/prediction_service/predictor.py:131-135 | keys are exactly the configured columns the row has; values unchanged |
| RiskRules.LatestFeatures | services/prediction_service/predictor.py:121-137 | None iff the site has no row; otherwise the column selection of its latest row |
| RiskRules.TierIff | services/prediction_service/predictor.py:157-162 | HIGH iff p ≥ high; MEDIUM iff medium ≤ p < high; LOW otherwise |
| RiskRules.PredictTiered | services/prediction_service/predictor.py:139-162 | ValueError "No features available for site …" iff there is no row or no selected column; otherwise the model's probability for the selected features and its tier |
| MapOverlay.RiskZones | frontend/src/components/MapSection.js:22-51 | four zones of four vertices each, all within latitude/longitude bounds |
| MapOverlay.Incidents | frontend/src/components/MapSection.js:80-109 | four incidents, all within latitude/longitude bounds |
| MapOverlay.ZoneOverlayCounts | frontend/src/components/MapSection.js:54-77 | the zone loop yields one polygon per zone and no marker |
| MapOverlay.IncidentOverlayCounts | frontend/src/components/MapSection.js:111-143 | the incident loop yields one marker per incident and no polygon |
| MapOverlay.OneLayerPerRecord | frontend/src/components/MapSection.js:54-143 | the map gets exactly one polygon per zone and one marker per incident |
| MapOverlay.LayerOrder | frontend/src/components/MapSection.js:16-150 | tile layer (maxZoom 18) first, then the polygons and the markers in array order, the scale control last |
| MapOverlay.PolygonStyles | frontend/src/components/MapSection.js:54-76 | every polygon is a zone's outline, stroked and filled in its colour with fill opacity 0.4, weight 3, opacity 0.8; its popup holds the label, the upper-cased risk and the description |
| MapOverlay.MarkerIcons | frontend/src/components/MapSection.js:111-142 | every marker sits on an incident, with a 32×32 icon anchored at (16, 16); its popup holds icon, type, severity, details and coordinates |
| MapOverlay.HardcodedRiskLevels | frontend/src/components/MapSection.js:69 | the four zone popups show HIGH, CRITICAL, SAFE and MEDIUM |
| MapOverlay.LeafletMap.constructor | frontend/src/components/MapSection.js:13 | a new map has no view and nothing attached |
| MapOverlay.LeafletMap.SetView | frontend/src/components/MapSection.js:13 | sets the view and nothing else |
| MapOverlay.LeafletMap.Add | frontend/src/components/MapSection.js:16-19 | appends one layer and changes nothing else |
| MapOverlay.LeafletMap.Remove | frontend/src/components/MapSection.js:155 | the map is disposed of and holds no layers |
| MapOverlay.AttachZones | frontend/src/components/MapSection.js:54-77 | the zone loop appends one polygon per zone, in order, and changes nothing else of the map |
| MapOverlay.AttachIncidents | frontend/src/components/MapSection.js:111-143 | the incident loop appends one marker per incident, in order, and changes nothing else of the map |
| MapOverlay.MapSection.constructor | frontend/src/components/MapSection.js:7-8 | no map is held initially |
| MapOverlay.MapSection.Mount | frontend/src/components/MapSection.js:10-151 | with a container and no held map: a new map at (24.27, 80.17), zoom 12, holding exactly the overlays in order; otherwise the held reference is unchanged |
| MapOverlay.MapSection.Cleanup | frontend/src/components/MapSection.js:153-158 | the held map, if any, is removed and the reference becomes null; with none held nothing happens |
| MapOverlay.RemountAfterCleanup | frontend/src/components/MapSection.js:10-158 | mount, cleanup twice, mount: a second, fully built map, with the first one removed |
| AlertThrottle.ShouldAlert | services/alert_manager/alerts.py:91-113 | false for LOW; KeyError for a level outside the table; for HIGH/MEDIUM true iff no sent alert of the same site and level was created at or after now minus the level's window |
| AlertThrottle.OnlySentAlertsThrottle | services/alert_manager/alerts.py:106-111 | an alert that is not "sent", or is for another site or level, never changes the decision |
| AlertThrottle.SentAlertThrottles | services/alert_manager/alerts.py:102-113 | a sent alert inside the window suppresses the next one of its site and level |
| AlertThrottle.ScreenAdmits | services/alert_manager/alerts.py:119-137 | an alert gets past the checks iff the prediction exists, its site exists and `should_alert` is true; the prediction is then HIGH or MEDIUM |
| AlertThrottle.AlertLifecycle | services/alert_manager/alerts.py:140-185 | a new alert is "pending" on ["email", "sms"]; it ends "sent" with sent_at iff both channels succeed, else "error" with a message; nothing else of the record changes |
| AlertThrottle.AlertManager.constructor | services/alert_manager/alerts.py:16-26 | the manager starts with the given settings and alerts table |
| AlertThrottle.AlertManager.ProcessPrediction | services/alert_manager/alerts.py:115-192 | a missing or LOW prediction, a missing site or a throttled alert leaves the table unchanged; otherwise one record is added and settled from the delivery outcome, and a delivery exception is raised again |
| AlertThrottle.SecondAlertIsThrottled | services/alert_manager/alerts.py:99-169 | after a fully delivered HIGH alert, the same prediction within the window is throttled |
| AlertDispatch.SendEmail | services/alert_manager/main.py:29-51 | without both a username and a password nothing is sent and the result is false |
| AlertDispatch.AlertMessageShape | services/alert_manager/main.py:53-73 | subject "Rockfall Risk Alert - " + site name; the body is the template lines, from the site line to the closing sentence, without the surrounding indentation |
| AlertDispatch.Recipients | services/alert_manager/main.py:109-111 | one recipient per comma-separated piece, each the stripped piece |
| AlertDispatch.RecipientsShape | services/alert_manager/main.py:109-111 | one recipient more than the commas; none has white space at either end |
| AlertDispatch.RecipientsOfJoin | services/alert_manager/main.py:109-111 | a list written as stripped, comma-free addresses joined by commas gives those addresses back |
| AlertDispatch.Decide | services/alert_manager/main.py:88-102 | unknown site iff no site has the id; no config iff the site exists without a config; sending only at probability ≥ threshold (inclusive); with one config per site (`unique=True` at `models.py:55`), the gate opens iff the probability is at least that config's threshold and is below-threshold iff it is under it |
| AlertDispatch.DeliveredWithinIff | services/alert_manager/main.py:109-115 | some of the first n sends succeeded iff the credentials are set and the session succeeded for one of those recipients |
| AlertDispatch.AnyDeliveredIff | services/alert_manager/main.py:105-115 | `alert_sent` is true iff some recipient's send succeeded; never without credentials |
| AlertDispatch.SendToEach | services/alert_manager/main.py:105-115 | the loop sends once per piece, to the stripped piece, in order; it opens a session only with credentials; the flag is true iff some send succeeded |
| AlertDispatch.NotifyRecipients | services/alert_manager/main.py:105-115 | one send per stripped comma-separated piece, in order; a session only with credentials; the flag is true iff some send succeeded |
| AlertDispatch.AlertService.constructor | services/alert_manager/main.py:22-27 | the service starts with the given SMTP settings and history |
| AlertDispatch.AlertService.ProcessAlert | services/alert_manager/main.py:81-140 | 404 for an unknown site; the no-config and below-threshold replies send nothing; with e-mail off or no recipients nothing is sent and the reply is "No alerts were sent"; a history row is added iff a send succeeded and the commit did not fail, with a 500 on a failed commit |
| SeismicFeatures.Query | services/data_collector/seismic_collector.py:24-38 | the window is `hours` hours ending now; radius 100 km in degrees at 111 km per degree; minimum magnitude 1.0 |
| SeismicFeatures.EventRecords | services/data_collector/seismic_collector.py:40-51 | IndexError iff some event lacks an origin or a magnitude; otherwise one record per event, in catalogue order, with its first origin's time, first magnitude and distance |
| SeismicFeatures.MaxMagnitude | services/data_collector/seismic_collector.py:107 | the largest magnitude: attained by an event and exceeded by none |
| SeismicFeatures.LatestM3 | services/data_collector/seismic_collector.py:88-92 | None iff no event has magnitude ≥ 3.0; otherwise the time of an M3+ event no M3+ event follows |
| SeismicFeatures.CalculateSeismicFeatures | services/data_collector/seismic_collector.py:73-110 | no events: 0, 0.0, 0.0, ∞; otherwise the count of events, the maximum magnitude, ∞ iff no M3+ event (else minutes since the latest), and the weighted sum `WeightedSum` of the events, a number iff every weight that divides by zero meets a zero magnitude (between zero and the plain magnitude sum for past events, by `WeightedSumBound`) |
| SeismicFeatures.WeightedSumFinite | services/data_collector/seismic_collector.py:96-108 | the weighted magnitude is a number exactly when every event whose hours_ago + 1 or distance + 1 is zero has magnitude 0 |
| SeismicFeatures.NaNTermSkipped | services/data_collector/seismic_collector.py:96-108 | an event one hour in the future with magnitude 0 has an infinite time weight; its NaN term is skipped by the sum, which is that of the other events |
| SeismicFeatures.TermBound | services/data_collector/seismic_collector.py:96-103 | for a past event at non-negative distance and magnitude the weighted term is between 0 and the magnitude |
| SeismicFeatures.WeightedSumBound | services/data_collector/seismic_collector.py:96-108 | for such events the weighted magnitude is between 0 and the plain sum of the magnitudes |
| TrainingData.TextFeature | services/model_trainer/data_manager.py:121-125 | "" with no feature columns; the text neither starts nor ends with white space |
| TrainingData.RawTextJoin | services/model_trainer/data_manager.py:122-124 | the built text is the "col: value." items in column order, joined by single spaces, with one trailing space |
| TrainingData.TextFeatureShape | services/model_trainer/data_manager.py:122-125 | when the first column name does not start with white space, the text is exactly the items joined by single spaces |
| TrainingData.TextFeatures | services/model_trainer/data_manager.py:118-126 | one text per row |
| TrainingData.TextFeatureAt | services/model_trainer/data_manager.py:118-126 | the text at position i is the text of row i |
| TrainingData.TextFeaturesPointwise | services/model_trainer/data_manager.py:118-126 | every text is the text of the row at the same position |
| TrainingData.BuildText | services/model_trainer/data_manager.py:122-124 | the inner loop builds exactly the "col: value. " items of the row, in column order |
| TrainingData.RowText | services/model_trainer/data_manager.py:121-125 | the built text, stripped, is the row's text |
| TrainingData.CreateTextFeatures | services/model_trainer/data_manager.py:118-126 | the row loop returns exactly the texts of the rows, in row order |
| TrainingData.PyIndex | services/model_trainer/data_manager.py:24-25 | an index resolves iff it is within [-n, n); negatives count from the end |
| TrainingData.GetItem | services/model_trainer/data_manager.py:22-26 | an item iff the index is valid for both texts and labels, pairing texts[idx] with labels[idx]; IndexError otherwise, the text lookup first |
| TrainingData.PrepareData | services/model_trainer/data_manager.py:52-104 | 'custom': the scaled split and the feature names; 'huggingface': ValueError without a text column, else datasets of the rows' texts and labels; any other type: ValueError "Unknown model type: …" |
| TrainingData.TransformerSamples | services/model_trainer/data_manager.py:19-26 | a transformer training set has one sample per row, pairing that row's text with its target, also under negative indexing |

## Left out

- Leaflet rendering is not modelled: tile fetching, the scale control's drawing, the divIcon HTML and CSS classes, popup markup and the legend. Popups are the records of what they show.
- The popups' clock-derived strings (`toLocaleTimeString`, `toLocaleString`) and `toFixed(4)` are not modelled. Incident popups hold the raw coordinates.
- MapOverlay.MapSection.Mount: React's scheduling of the effect and the cleanup is not modelled. The client `RemountAfterCleanup` runs them in React's development-mode order (setup, cleanup, setup) with one extra cleanup, which shows that a repeated cleanup does nothing.
- Text.Upper: only ASCII letters are upper-cased. Python's `str.upper` (applied to the POSTed `risk_level` at `services/alert_manager/main.py:64`) also maps letters of other alphabets, and ones such as `ß` to several characters; the model leaves those unchanged.
- Python's `{:.1f}` formatting and `strftime`: `AlertDispatch.Rendering` takes the rendered probability and time as given text.
- The SMTP session, Twilio SMS and the IRIS FDSN client are external I/O. Their outcomes are parameters: `transport`, `Delivery` and the catalogue sequence. Exceptions inside `send_email` show up as a false result.
- The `AlertManager` of `services/alert_manager/alerts.py` sends through `send_email`, `send_sms` and `format_alert_message` (lines 28-89). The model takes the two channel outcomes as given, so that message text and those sessions are not modelled.
- RiskRules.Columns, RiskRules.SelectColumns, RiskRules.LatestFeatures: a row's attributes are only its six float columns. The row's other attributes (`id`, `site_id`, `timestamp`, `source`, `created_at`) are left out, so a configured column naming one of them is dropped by the model.
- RiskRules.PredictTiered: model loading (`_load_latest_model`), `predict_proba`, the stored `Prediction` row and the inference timing are not modelled. The thresholds are parameters, and the model's probability is the `model` function.
- SeismicFeatures.CalculateSeismicFeatures: floating-point rounding and overflow are not modelled. The arithmetic is exact on reals. A weight that divides by zero is an infinity in pandas. With magnitude 0 the term is `0 * inf`, a NaN that `sum()` skips, and the model adds nothing for it. With any other magnitude the term is infinite and the sum is an infinity, or a NaN when infinities of both signs meet; `NotFinite` stands for all of these without distinguishing them.
- SeismicFeatures.CalculateSeismicFeatures: event times and `now` are modelled on one clock. The code subtracts each event's origin time (`event.origins[0].time.datetime`, line 42, which obspy returns without a time zone) from the time-zone-aware `datetime.now(timezone.utc)` (line 87) at lines 92 and 96. Python refuses to subtract a naive datetime from an aware one with a `TypeError`, so for a non-empty event list the code as written fails. The model computes the evidently intended difference of the two instants.
- The haversine distance (`calculate_distance`) is a parameter. `collect_all_sites` and its error logging are not modelled.
- `update_site_features` is not modelled. It passes the keys of `calculate_seismic_features` (`quake_count_72h`, `weighted_magnitude_72h`, `minutes_since_m3`) as `SiteFeature` columns at lines 115-119, and `SiteFeature` (`models.py:27-49`) has no such columns, so the SQLAlchemy constructor rejects them and no row is written.
- RiskRules.PredictSimple, RiskRules.HandlePredict: the `timestamp` field of the result (`datetime.utcnow().isoformat()`, `predictor.py:73` and `services/prediction_service/main.py:82`) is clock output and is left out of `Prediction` and `Response`.
- TrainingData.CreateTextFeatures: `str(row[col])` rendering is taken as given. A row maps each column to its rendered value.
- TrainingData.PrepareData: `load_data`, `_handle_missing_values` and `train_test_split` are not modelled; the split is an input. `StandardScaler` is the `standardize` parameter. `DataLoader` batching and shuffling are not modelled: the loaders are the datasets they wrap. The `text_column` setting is only checked for truthiness, because the code uses it nowhere else.
- TrainingData.GetItem: the labels tensor's 64-bit integer type is not modelled (labels are unbounded integers), and the tensor's error message is kept as its index and size.
- RiskRules.HandlePredict, AlertDispatch.AlertService.ProcessAlert: these two handlers are modelled with a working database session, as the evident intent. As shipped, `database.py:10` fails at import and `Depends(get_db)` hands them a context manager instead of a session (see above), so neither handler answers anything but an error.
- FastAPI routing, SQLAlchemy sessions and the 500 error raised when an exception escapes a handler are not modelled, apart from the cases the handlers themselves return. Logging is not modelled.
- The static dashboard components, the JWT gateway, the weather collector, feature engineering, the model factory and the training scripts contain no logic this model states anything about.
