/**
 * The alert endpoint of the alert-manager service (`alert_manager/main.py`):
 * the SMTP credential guard, the alert message, and `process_alert`, which
 * checks the site's threshold, sends one e-mail per configured recipient and
 * writes a history row when at least one of them went out.
 */
module AlertDispatch {
  import opened Wrappers
  import opened Text
  import opened Tables

  /** SMTP settings; username and password come from the environment and may be unset. */
  datatype SmtpSettings = SmtpSettings(server: string, port: int, username: Option<string>, password: Option<string>)

  /** `all([smtp_username, smtp_password])`. */
  predicate CredentialsConfigured(smtp: SmtpSettings) {
    Truthy(smtp.username) && Truthy(smtp.password)
  }

  /** `send_email`. `transport` is the outcome of the SMTP session for a
      recipient, subject and body (true when no exception was raised); it is
      consulted only when the credentials are configured. */
  function SendEmail(smtp: SmtpSettings, to: string, subject: string, body: string,
                     transport: (string, string, string) -> bool): (ok: bool)
    ensures !CredentialsConfigured(smtp) ==> !ok
  {
    if !CredentialsConfigured(smtp) then false else transport(to, subject, body)
  }

  datatype AlertMessage = AlertMessage(subject: string, body: string)

  /** The rendered timestamp (`strftime`) and probability (`{:.1f}`), which
      the model takes as given text. */
  datatype Rendering = Rendering(formattedTime: string, probabilityText: string)

  /** The indentation of the template: a line break and eight spaces. */
  const Indent: string := "\n        "

  const BodyHead: string := "Rockfall Risk Alert for "
  const BodyTail: string := "Please take necessary precautions."

  /** The template's lines between the site name and the closing sentence. */
  function BodyMiddle(siteName: string, riskLevel: string, r: Rendering): string {
    siteName +
    Indent + Indent + "Time: " + r.formattedTime +
    Indent + "Risk Level: " + Upper(riskLevel) +
    Indent + "Probability: " + r.probabilityText +
    "%" + Indent + Indent
  }

  /** The body template after its first line break and indentation and
      before its last ones. */
  function BodyText(siteName: string, riskLevel: string, r: Rendering): string {
    BodyHead + BodyMiddle(siteName, riskLevel, r) + BodyTail
  }

  /** The body template before stripping: the text between an opening and a
      closing indentation, as the triple-quoted string lays it out. */
  function RawBody(siteName: string, riskLevel: string, r: Rendering): string {
    Indent + BodyText(siteName, riskLevel, r) + Indent
  }

  /** `format_alert_message`. */
  function FormatAlertMessage(siteName: string, riskLevel: string, r: Rendering): AlertMessage {
    AlertMessage("Rockfall Risk Alert - " + siteName, Strip(RawBody(siteName, riskLevel, r)))
  }

  /** The subject names the site; the body is the template without its
      opening and closing indentation, starting with the site line and
      ending with the closing sentence. */
  lemma AlertMessageShape(siteName: string, riskLevel: string, r: Rendering)
    ensures FormatAlertMessage(siteName, riskLevel, r).subject == "Rockfall Risk Alert - " + siteName
    ensures FormatAlertMessage(siteName, riskLevel, r).body == BodyText(siteName, riskLevel, r)
  {
    var inner := BodyText(siteName, riskLevel, r);
    assert inner[0] == BodyHead[0] == 'R';
    assert inner[|inner| - 1] == BodyTail[|BodyTail| - 1] == '.';
    assert AllSpace(Indent) by {
      forall i | 0 <= i < |Indent| ensures IsSpace(Indent[i]) {
        assert Indent[i] as int == 10 || Indent[i] as int == 32;
      }
    }
    StripFrame(Indent, inner, Indent);
  }

  /** The recipients of a comma-separated list: each piece, stripped. */
  function Recipients(list: string): (rs: seq<string>)
    ensures |rs| == |Split(list, ',')|
    ensures forall i :: 0 <= i < |rs| ==> rs[i] == Strip(Split(list, ',')[i])
  {
    var pieces := Split(list, ',');
    seq(|pieces|, i requires 0 <= i < |pieces| => Strip(pieces[i]))
  }

  /** `f` applied to each piece, built up in order as the loop does. */
  function Each(f: string -> string, pieces: seq<string>): seq<string> {
    if pieces == [] then [] else Each(f, pieces[..|pieces| - 1]) + [f(pieces[|pieces| - 1])]
  }

  lemma {:induction false} EachPointwise(f: string -> string, pieces: seq<string>)
    ensures |Each(f, pieces)| == |pieces|
    ensures forall k :: 0 <= k < |pieces| ==> Each(f, pieces)[k] == f(pieces[k])
  {
    if pieces != [] {
      var init := pieces[..|pieces| - 1];
      EachPointwise(f, init);
      assert forall k :: 0 <= k < |init| ==> pieces[k] == init[k];
    }
  }

  /** One more piece of the loop adds its image at the end. */
  lemma EachPrefixStep(f: string -> string, pieces: seq<string>, i: nat)
    requires i < |pieces|
    ensures Each(f, pieces[..i + 1]) == Each(f, pieces[..i]) + [f(pieces[i])]
  {
    assert pieces[..i + 1][..i] == pieces[..i];
  }

  lemma EachStripIsRecipients(list: string)
    ensures Each(Strip, Split(list, ',')) == Recipients(list)
  {
    EachPointwise(Strip, Split(list, ','));
    RecipientsPointwise(list, Each(Strip, Split(list, ',')));
  }

  lemma RecipientsPointwise(list: string, xs: seq<string>)
    requires |xs| == |Split(list, ',')|
    requires forall k :: 0 <= k < |xs| ==> xs[k] == Strip(Split(list, ',')[k])
    ensures xs == Recipients(list)
  {
  }

  /** One recipient per comma-separated piece, none with white space at
      either end. */
  lemma RecipientsShape(list: string)
    ensures |Recipients(list)| == Occurrences(list, ',') + 1
    ensures forall i :: 0 <= i < |Recipients(list)| ==> Trimmed(Recipients(list)[i])
  {
  }

  /** A list written as recipients joined by commas gives them back. */
  lemma RecipientsOfJoin(rs: seq<string>)
    requires |rs| >= 1
    requires forall i :: 0 <= i < |rs| ==> ',' !in rs[i] && Strip(rs[i]) == rs[i]
    ensures Recipients(Join(rs, ',')) == rs
  {
    SplitJoin(rs, ',');
  }

  datatype AlertConfig = AlertConfig(siteId: string, threshold: real, emailEnabled: bool, emailRecipients: Option<string>)

  /** The prediction posted to the endpoint; `timestamp` is the parsed ISO time. */
  datatype PredictionPayload = PredictionPayload(probability: real, riskLevel: string, timestamp: int)

  datatype HistoryRecord = HistoryRecord(siteId: string, alertType: string, probability: real, riskLevel: string, timestamp: int)

  datatype Response = NotFound(detail: string) | Reply(message: string) | ServerError(detail: string)

  /** How far the endpoint gets before sending. */
  datatype Gate = UnknownSite | NoConfig | BelowThreshold | Open(site: Site, config: AlertConfig)

  /** `alert_configs.site_id` is declared unique: at most one config per site. */
  predicate ConfigPerSite(configs: seq<AlertConfig>) {
    forall i, j :: 0 <= i < j < |configs| ==> configs[i].siteId != configs[j].siteId
  }

  /** The gate of `process_alert`: the site lookup, the config lookup, then
      the inclusive threshold test on the first config of the site. */
  function Decide(siteId: string, prediction: PredictionPayload, sites: seq<Site>, configs: seq<AlertConfig>): (g: Gate)
    ensures g == UnknownSite <==> forall i :: 0 <= i < |sites| ==> sites[i].id != siteId
    ensures g == NoConfig <==>
              (exists i :: 0 <= i < |sites| && sites[i].id == siteId) &&
              forall j :: 0 <= j < |configs| ==> configs[j].siteId != siteId
    ensures g.Open? ==> g.site in sites && g.site.id == siteId && g.config in configs &&
                        g.config.siteId == siteId && prediction.probability >= g.config.threshold
    ensures g == BelowThreshold ==>
              exists c :: c in configs && c.siteId == siteId && prediction.probability < c.threshold
    ensures ConfigPerSite(configs) && (exists i :: 0 <= i < |sites| && sites[i].id == siteId) ==>
              forall c :: c in configs && c.siteId == siteId ==>
                (g.Open? <==> prediction.probability >= c.threshold) &&
                (g == BelowThreshold <==> prediction.probability < c.threshold)
  {
    match FirstWhere(sites, (s: Site) => s.id == siteId)
    case None => UnknownSite
    case Some(si) =>
      match FirstWhere(configs, (c: AlertConfig) => c.siteId == siteId)
      case None => NoConfig
      case Some(ci) =>
        if prediction.probability >= configs[ci].threshold then Open(sites[si], configs[ci])
        else BelowThreshold
  }

  /** E-mail is attempted only when enabled and the recipient list is set and not empty. */
  predicate EmailOn(config: AlertConfig) {
    config.emailEnabled && Truthy(config.emailRecipients)
  }

  function Attempts(config: AlertConfig): seq<string> {
    if EmailOn(config) then Recipients(config.emailRecipients.value) else []
  }

  /** Whether some call of `send_email` for the first `n` recipients succeeded. */
  predicate DeliveredWithin(smtp: SmtpSettings, recipients: seq<string>, n: nat, message: AlertMessage,
                            transport: (string, string, string) -> bool)
    requires n <= |recipients|
  {
    n > 0 &&
    (DeliveredWithin(smtp, recipients, n - 1, message, transport) ||
     SendEmail(smtp, recipients[n - 1], message.subject, message.body, transport))
  }

  predicate AnyDelivered(smtp: SmtpSettings, recipients: seq<string>, message: AlertMessage,
                         transport: (string, string, string) -> bool)
  {
    DeliveredWithin(smtp, recipients, |recipients|, message, transport)
  }

  /** Some call succeeded exactly when some recipient's call succeeds; so
      without credentials no e-mail goes out, whoever the recipients are. */
  lemma {:induction false} DeliveredWithinIff(smtp: SmtpSettings, recipients: seq<string>, n: nat, message: AlertMessage,
                                              transport: (string, string, string) -> bool)
    requires n <= |recipients|
    ensures DeliveredWithin(smtp, recipients, n, message, transport) <==>
              exists j :: 0 <= j < n && CredentialsConfigured(smtp) &&
                transport(recipients[j], message.subject, message.body)
  {
    if n > 0 {
      DeliveredWithinIff(smtp, recipients, n - 1, message, transport);
    }
  }

  /** Appending a recipient leaves the earlier outcomes as they were. */
  lemma {:induction false} DeliveredWithinPrefix(smtp: SmtpSettings, recipients: seq<string>, extra: seq<string>, n: nat,
                                                 message: AlertMessage, transport: (string, string, string) -> bool)
    requires n <= |recipients|
    ensures DeliveredWithin(smtp, recipients + extra, n, message, transport) ==
              DeliveredWithin(smtp, recipients, n, message, transport)
  {
    if n > 0 {
      DeliveredWithinPrefix(smtp, recipients, extra, n - 1, message, transport);
      assert (recipients + extra)[n - 1] == recipients[n - 1];
    }
  }

  lemma DeliveredWithinExtend(smtp: SmtpSettings, recipients: seq<string>, email: string,
                              message: AlertMessage, transport: (string, string, string) -> bool)
    ensures DeliveredWithin(smtp, recipients + [email], |recipients| + 1, message, transport) <==>
              DeliveredWithin(smtp, recipients, |recipients|, message, transport) ||
              SendEmail(smtp, email, message.subject, message.body, transport)
  {
    DeliveredWithinPrefix(smtp, recipients, [email], |recipients|, message, transport);
  }

  lemma AnyDeliveredIff(smtp: SmtpSettings, recipients: seq<string>, message: AlertMessage,
                        transport: (string, string, string) -> bool)
    ensures AnyDelivered(smtp, recipients, message, transport) <==>
              exists j :: 0 <= j < |recipients| &&
                CredentialsConfigured(smtp) && transport(recipients[j], message.subject, message.body)
    ensures !CredentialsConfigured(smtp) ==> !AnyDelivered(smtp, recipients, message, transport)
  {
    DeliveredWithinIff(smtp, recipients, |recipients|, message, transport);
  }

  /** The recipient loop of `process_alert` over the pieces of the list:
      strips each piece and calls `send_email` once per piece, in order;
      `sent` records whether any call succeeded. */
  method SendToEach(smtp: SmtpSettings, pieces: seq<string>, message: AlertMessage,
                    transport: (string, string, string) -> bool)
    returns (sent: bool, attempted: seq<string>, contacted: seq<string>)
    ensures attempted == Each(Strip, pieces)
    ensures contacted == (if CredentialsConfigured(smtp) then attempted else [])
    ensures sent <==> AnyDelivered(smtp, attempted, message, transport)
  {
    sent, attempted, contacted := false, [], [];
    var i := 0;
    while i < |pieces|
      invariant 0 <= i <= |pieces| && |attempted| == i
      invariant attempted == Each(Strip, pieces[..i])
      invariant contacted == (if CredentialsConfigured(smtp) then attempted else [])
      invariant sent <==> DeliveredWithin(smtp, attempted, i, message, transport)
    {
      var email := Strip(pieces[i]);
      if CredentialsConfigured(smtp) {
        contacted := contacted + [email];
      }
      var ok := SendEmail(smtp, email, message.subject, message.body, transport);
      DeliveredWithinExtend(smtp, attempted, email, message, transport);
      EachPrefixStep(Strip, pieces, i);
      attempted := attempted + [email];
      if ok {
        sent := true;
      }
      i := i + 1;
    }
    assert pieces[..i] == pieces;
  }

  /** The recipient handling of `process_alert`: splits the list on commas
      and sends to each stripped piece, in order. */
  method NotifyRecipients(smtp: SmtpSettings, list: string, message: AlertMessage,
                          transport: (string, string, string) -> bool)
    returns (sent: bool, attempted: seq<string>, contacted: seq<string>)
    ensures attempted == Recipients(list)
    ensures contacted == (if CredentialsConfigured(smtp) then attempted else [])
    ensures sent <==> AnyDelivered(smtp, attempted, message, transport)
  {
    sent, attempted, contacted := SendToEach(smtp, Split(list, ','), message, transport);
    EachStripIsRecipients(list);
  }

  /** The service; its state is the alert history table. */
  class AlertService {
    var history: seq<HistoryRecord>
    const smtp: SmtpSettings

    constructor (smtp: SmtpSettings, history: seq<HistoryRecord>)
      ensures this.smtp == smtp && this.history == history
    {
      this.smtp := smtp;
      this.history := history;
    }

    /** `process_alert`. `attempted` lists the recipients `send_email` was
        called with, in order; `contacted` those for which an SMTP session
        was opened. `commitError` is the failure of the final commit, if any. */
    method ProcessAlert(siteId: string, prediction: PredictionPayload, sites: seq<Site>, configs: seq<AlertConfig>,
                        rendering: Rendering, transport: (string, string, string) -> bool, commitError: Option<string>)
      returns (response: Response, attempted: seq<string>, contacted: seq<string>)
      modifies this
      ensures var g := Decide(siteId, prediction, sites, configs);
              (g == UnknownSite ==> response == NotFound("Site not found")) &&
              (g == NoConfig ==> response == Reply("No alert configuration found")) &&
              (g == BelowThreshold ==> response == Reply("Alert threshold not exceeded")) &&
              (!g.Open? ==> attempted == [] && contacted == [] && history == old(history))
      ensures var g := Decide(siteId, prediction, sites, configs);
              g.Open? ==>
                var message := FormatAlertMessage(g.site.name, prediction.riskLevel, rendering);
                var sent := AnyDelivered(smtp, attempted, message, transport);
                var row := HistoryRecord(siteId, "risk_threshold", prediction.probability, prediction.riskLevel, prediction.timestamp);
                attempted == Attempts(g.config) &&
                contacted == (if CredentialsConfigured(smtp) then attempted else []) &&
                history == old(history) + (if sent && commitError.None? then [row] else []) &&
                response == (if !sent then Reply("No alerts were sent")
                             else if commitError.None? then Reply("Alert processed and sent successfully")
                             else ServerError("Failed to log alert: " + commitError.value))
    {
      attempted, contacted := [], [];
      var g := Decide(siteId, prediction, sites, configs);
      if g == UnknownSite {
        return NotFound("Site not found"), attempted, contacted;
      }
      if g == NoConfig {
        return Reply("No alert configuration found"), attempted, contacted;
      }
      if g == BelowThreshold {
        return Reply("Alert threshold not exceeded"), attempted, contacted;
      }
      var site, config := g.site, g.config;
      var message := FormatAlertMessage(site.name, prediction.riskLevel, rendering);
      var alertSent := false;

      if config.emailEnabled && Truthy(config.emailRecipients) {
        alertSent, attempted, contacted := NotifyRecipients(smtp, config.emailRecipients.value, message, transport);
      }

      if alertSent {
        var row := HistoryRecord(siteId, "risk_threshold", prediction.probability, prediction.riskLevel, prediction.timestamp);
        var before := history;
        history := history + [row];
        if commitError.None? {
          return Reply("Alert processed and sent successfully"), attempted, contacted;
        }
        history := before;
        return ServerError("Failed to log alert: " + commitError.value), attempted, contacted;
      }
      return Reply("No alerts were sent"), attempted, contacted;
    }
  }
}
