/**
 * The alert manager of `alerts.py`: throttling of repeated alerts over the
 * alerts table, and the life of one alert record, created "pending" and then
 * marked "sent" or "error" by the outcome of its e-mail and SMS delivery.
 */
module AlertThrottle {
  import opened Wrappers
  import opened Tables

  /** A row of the alerts table; times are seconds on the service clock. */
  datatype AlertRecord = AlertRecord(
    predictionId: string,
    siteId: string,
    riskLevel: string,
    status: string,
    channels: seq<string>,
    createdAt: int,
    sentAt: Option<int>,
    errorMessage: Option<string>)

  datatype Prediction = Prediction(id: string, siteId: string, riskLevel: string, probability: real)

  /** The configured throttle windows, in minutes. */
  datatype ThrottleSettings = ThrottleSettings(highMinutes: int, mediumMinutes: int)

  datatype Error = KeyError(key: string) | DeliveryFailure(message: string)

  /** The throttle table of `should_alert`. */
  function ThrottleTable(settings: ThrottleSettings): map<string, int> {
    map["HIGH" := settings.highMinutes, "MEDIUM" := settings.mediumMinutes, "LOW" := 0]
  }

  /** A record that withholds a new alert: same site, same level, sent, and
      created at or after the cutoff. */
  predicate Suppresses(a: AlertRecord, siteId: string, level: string, cutoff: int) {
    a.siteId == siteId && a.riskLevel == level && a.createdAt >= cutoff && a.status == "sent"
  }

  predicate NoneSuppresses(history: seq<AlertRecord>, siteId: string, level: string, cutoff: int) {
    forall i :: 0 <= i < |history| ==> !Suppresses(history[i], siteId, level, cutoff)
  }

  /** The cutoff of a throttled level: `now` minus its window. */
  function Cutoff(now: int, level: string, settings: ThrottleSettings): int
    requires level == "HIGH" || level == "MEDIUM"
  {
    now - ThrottleTable(settings)[level] * 60
  }

  /** `should_alert`: never for LOW; a KeyError for a level outside the
      table; otherwise true exactly when no recent sent alert of the same
      site and level exists. */
  function ShouldAlert(siteId: string, level: string, history: seq<AlertRecord>, now: int,
                       settings: ThrottleSettings): (r: Result<bool, Error>)
    ensures level == "LOW" ==> r == Ok(false)
    ensures level !in {"HIGH", "MEDIUM", "LOW"} ==> r == Err(KeyError(level))
    ensures level == "HIGH" || level == "MEDIUM" ==>
              r.Ok? && (r.value <==> NoneSuppresses(history, siteId, level, Cutoff(now, level, settings)))
  {
    if level == "LOW" then Ok(false)
    else if level !in ThrottleTable(settings) then Err(KeyError(level))
    else
      var cutoff := now - ThrottleTable(settings)[level] * 60;
      var recent := FirstWhere(history, (a: AlertRecord) => Suppresses(a, siteId, level, cutoff));
      Ok(recent.None?)
  }

  /** A record that is not "sent", or is for another site or level, never
      changes the throttling decision. */
  lemma OnlySentAlertsThrottle(siteId: string, level: string, history: seq<AlertRecord>, a: AlertRecord,
                               now: int, settings: ThrottleSettings)
    requires a.status != "sent" || a.siteId != siteId || a.riskLevel != level
    ensures ShouldAlert(siteId, level, history + [a], now, settings) == ShouldAlert(siteId, level, history, now, settings)
  {
    if level == "HIGH" || level == "MEDIUM" {
      var cutoff := Cutoff(now, level, settings);
      assert NoneSuppresses(history + [a], siteId, level, cutoff) <==> NoneSuppresses(history, siteId, level, cutoff) by {
        assert forall i :: 0 <= i < |history| ==> (history + [a])[i] == history[i];
        assert (history + [a])[|history|] == a;
      }
    }
  }

  /** A sent alert withholds the next alert of its site and level for as long
      as its creation time is within the window. */
  lemma SentAlertThrottles(history: seq<AlertRecord>, a: AlertRecord, now: int, settings: ThrottleSettings)
    requires a.status == "sent" && (a.riskLevel == "HIGH" || a.riskLevel == "MEDIUM")
    requires a.createdAt >= Cutoff(now, a.riskLevel, settings)
    ensures ShouldAlert(a.siteId, a.riskLevel, history + [a], now, settings) == Ok(false)
  {
    assert (history + [a])[|history|] == a;
  }

  /** Where an alert attempt stops before a record is written. */
  datatype Skip = NoPrediction | LowRisk | NoSite | Throttled

  datatype Outcome = Skipped(why: Skip) | Finished(status: string) | Raised(error: Error)

  /** What formatting and sending produced: the two channel results, or an
      exception raised on the way. */
  datatype Delivery = Delivered(emailOk: bool, smsOk: bool) | Failed(message: string)

  /** The gate in front of alert creation, in the order the source checks. */
  datatype Screening = Proceed(prediction: Prediction, site: Site) | Stop(outcome: Outcome)

  function Screen(predictionId: string, predictions: seq<Prediction>, sites: seq<Site>,
                  history: seq<AlertRecord>, now: int, settings: ThrottleSettings): Screening
  {
    match FirstWhere(predictions, (p: Prediction) => p.id == predictionId)
    case None => Stop(Skipped(NoPrediction))
    case Some(pi) =>
      var prediction := predictions[pi];
      if prediction.riskLevel == "LOW" then Stop(Skipped(LowRisk))
      else match FirstWhere(sites, (s: Site) => s.id == prediction.siteId)
        case None => Stop(Skipped(NoSite))
        case Some(si) =>
          var site := sites[si];
          match ShouldAlert(site.id, prediction.riskLevel, history, now, settings)
          case Err(e) => Stop(Raised(e))
          case Ok(go) => if go then Proceed(prediction, site) else Stop(Skipped(Throttled))
  }

  /** Prediction `i` is the first one with the id, site `j` is its site, and
      `should_alert` lets its level through. */
  predicate Admits(predictionId: string, predictions: seq<Prediction>, sites: seq<Site>,
                   history: seq<AlertRecord>, now: int, settings: ThrottleSettings, i: int, j: int)
  {
    0 <= i < |predictions| && 0 <= j < |sites| &&
    predictions[i].id == predictionId && sites[j].id == predictions[i].siteId &&
    (forall k :: 0 <= k < i ==> predictions[k].id != predictionId) &&
    ShouldAlert(sites[j].id, predictions[i].riskLevel, history, now, settings) == Ok(true)
  }

  /** The gate lets an alert through exactly for the first prediction with the
      id, when its site exists and `should_alert` is true for its level; the
      level is then HIGH or MEDIUM. */
  lemma ScreenAdmits(predictionId: string, predictions: seq<Prediction>, sites: seq<Site>,
                     history: seq<AlertRecord>, now: int, settings: ThrottleSettings)
    ensures Screen(predictionId, predictions, sites, history, now, settings).Proceed? <==>
              exists i, j :: Admits(predictionId, predictions, sites, history, now, settings, i, j)
    ensures Screen(predictionId, predictions, sites, history, now, settings).Proceed? ==>
              var s := Screen(predictionId, predictions, sites, history, now, settings);
              s.prediction in predictions && s.site in sites && s.prediction.id == predictionId &&
              s.site.id == s.prediction.siteId &&
              (s.prediction.riskLevel == "HIGH" || s.prediction.riskLevel == "MEDIUM")
  {
    var sc := Screen(predictionId, predictions, sites, history, now, settings);
    var pi := FirstWhere(predictions, (p: Prediction) => p.id == predictionId);
    if sc.Proceed? {
      var si := FirstWhere(sites, (s: Site) => s.id == predictions[pi.value].siteId);
      assert Admits(predictionId, predictions, sites, history, now, settings, pi.value, si.value);
    }
    if exists i, j :: Admits(predictionId, predictions, sites, history, now, settings, i, j) {
      var i, j :| Admits(predictionId, predictions, sites, history, now, settings, i, j);
      assert pi == Some(i);
      var p := predictions[i];
      var si := FirstWhere(sites, (s: Site) => s.id == p.siteId);
      assert si.Some? && sites[si.value].id == sites[j].id;
    }
  }

  /** The record as first written. */
  function PendingAlert(prediction: Prediction, site: Site, now: int): AlertRecord {
    AlertRecord(prediction.id, site.id, prediction.riskLevel, "pending", ["email", "sms"], now, None, None)
  }

  /** The record once delivery is over. */
  function Settled(alert: AlertRecord, delivery: Delivery, now: int): AlertRecord {
    match delivery
    case Failed(message) => alert.(status := "error", errorMessage := Some(message))
    case Delivered(emailOk, smsOk) =>
      if emailOk && smsOk then alert.(status := "sent", sentAt := Some(now))
      else alert.(status := "error", errorMessage := Some("Failed to send some notifications"))
  }

  /** The status of a record the manager writes. */
  predicate WellFormed(a: AlertRecord) {
    (a.status == "pending" || a.status == "sent" || a.status == "error") &&
    (a.sentAt.Some? <==> a.status == "sent") &&
    (a.errorMessage.Some? <==> a.status == "error")
  }

  /** A new alert is pending, on both channels; it ends "sent", with its send
      time, exactly when both channels succeed, and "error" with a message
      otherwise; only the status, send time and message change. */
  lemma AlertLifecycle(prediction: Prediction, site: Site, now: int, delivery: Delivery)
    ensures var a := PendingAlert(prediction, site, now);
            WellFormed(a) && a.status == "pending" && a.channels == ["email", "sms"]
    ensures var b := Settled(PendingAlert(prediction, site, now), delivery, now);
            WellFormed(b) &&
            (b.status == "sent" <==> delivery == Delivered(true, true)) &&
            (b.status == "sent" ==> b.sentAt == Some(now)) &&
            (b.status != "sent" ==> b.status == "error" && b.errorMessage.Some?) &&
            b.(status := "pending", sentAt := None, errorMessage := None) == PendingAlert(prediction, site, now)
  {
  }

  function OutcomeOf(delivery: Delivery): Outcome {
    match delivery
    case Failed(message) => Raised(DeliveryFailure(message))
    case Delivered(emailOk, smsOk) => Finished(if emailOk && smsOk then "sent" else "error")
  }

  /** The manager of `alerts.py`; its state is the alerts table. */
  class AlertManager {
    var alerts: seq<AlertRecord>
    const settings: ThrottleSettings

    constructor (settings: ThrottleSettings, alerts: seq<AlertRecord>)
      ensures this.settings == settings && this.alerts == alerts
    {
      this.settings := settings;
      this.alerts := alerts;
    }

    /** `process_prediction`: through the gate, a pending record is added,
        and then set from the delivery outcome; otherwise the table is left
        as it was. A delivery exception marks the record and is raised again. */
    method ProcessPrediction(predictionId: string, predictions: seq<Prediction>, sites: seq<Site>,
                             now: int, delivery: Delivery) returns (outcome: Outcome)
      modifies this
      ensures var s := Screen(predictionId, predictions, sites, old(alerts), now, settings);
              if s.Stop? then alerts == old(alerts) && outcome == s.outcome
              else alerts == old(alerts) + [Settled(PendingAlert(s.prediction, s.site, now), delivery, now)] &&
                   outcome == OutcomeOf(delivery)
    {
      var pi := FirstWhere(predictions, (p: Prediction) => p.id == predictionId);
      if pi.None? {
        return Skipped(NoPrediction);
      }
      var prediction := predictions[pi.value];
      if prediction.riskLevel == "LOW" {
        return Skipped(LowRisk);
      }
      var si := FirstWhere(sites, (s: Site) => s.id == prediction.siteId);
      if si.None? {
        return Skipped(NoSite);
      }
      var site := sites[si.value];
      var should := ShouldAlert(site.id, prediction.riskLevel, alerts, now, settings);
      if should.Err? {
        return Raised(should.error);
      }
      if !should.value {
        return Skipped(Throttled);
      }

      var alert := AlertRecord(prediction.id, site.id, prediction.riskLevel, "pending", ["email", "sms"], now, None, None);
      alerts := alerts + [alert];
      var k := |alerts| - 1;

      match delivery {
        case Failed(message) =>
          alert := alert.(status := "error", errorMessage := Some(message));
          alerts := alerts[k := alert];
          outcome := Raised(DeliveryFailure(message));
        case Delivered(emailOk, smsOk) =>
          if emailOk && smsOk {
            alert := alert.(status := "sent", sentAt := Some(now));
          } else {
            alert := alert.(status := "error", errorMessage := Some("Failed to send some notifications"));
          }
          alerts := alerts[k := alert];
          outcome := Finished(alert.status);
      }
    }
  }

  /** Once an alert is sent, the same prediction processed again within the
      window is throttled and leaves the table unchanged. */
  method SecondAlertIsThrottled(settings: ThrottleSettings, prediction: Prediction, site: Site, now: int, later: int)
    returns (first: Outcome, second: Outcome)
    requires prediction.riskLevel == "HIGH" && site.id == prediction.siteId
    requires now <= later <= now + settings.highMinutes * 60
    ensures first == Finished("sent") && second == Skipped(Throttled)
  {
    var manager := new AlertManager(settings, []);
    first := manager.ProcessPrediction(prediction.id, [prediction], [site], now, Delivered(true, true));
    SentAlertThrottles([], manager.alerts[0], later, settings);
    assert [] + [manager.alerts[0]] == manager.alerts;
    second := manager.ProcessPrediction(prediction.id, [prediction], [site], later, Delivered(true, true));
  }
}
