/** The application state of app/main.py: the configuration globals and the
    PayU client they build, the settings store, the transaction ledger, the
    admin login and the payment workflow of `create_payment`. */
module PaymentApp {
  import opened Base
  import Settings
  import Amount
  import PayU

  const PosIdKey := "PAYU_POS_ID"
  const ClientSecretKey := "PAYU_CLIENT_SECRET"
  const AppBaseUrlKey := "APP_BASE_URL"
  const AdminSessionKey := "admin_session"
  const AdminPasswordKey := "ADMIN_PASSWORD"
  const DefaultBaseUrl := "http://localhost:8000"
  const DefaultDescription := "Order"

  /** The error raised by `create_payment` when no client is configured. */
  const NotConfigured := HttpError(503, "PayU credentials not set. Please configure in /admin.")

  /** Python's `s or default` on strings. */
  function OrElse(s: string, default: string): string {
    if s == "" then default else s
  }

  /** `form.get(key, default)` on a submitted form. */
  function FormGet(form: map<string, string>, key: string, default: string): string {
    if key in form then form[key] else default
  }

  // ----- Configuration -----

  /** The globals `POS_ID`, `CLIENT_SECRET`, `APP_BASE_URL`. */
  datatype Config = Config(posId: string, clientSecret: string, appBaseUrl: string) {
    /** The condition under which a client is built. */
    predicate Complete() {
      posId != "" && clientSecret != ""
    }
  }

  /** `load_settings`: the three stored values, an empty base URL reading as
      "http://localhost:8000". */
  function LoadSettings(store: Settings.Store): (c: Config)
    ensures c.posId == Settings.Get(store, PosIdKey)
    ensures c.clientSecret == Settings.Get(store, ClientSecretKey)
    ensures c.appBaseUrl != ""
    ensures Settings.Get(store, AppBaseUrlKey) != "" ==> c.appBaseUrl == Settings.Get(store, AppBaseUrlKey)
    ensures Settings.Get(store, AppBaseUrlKey) == "" ==> c.appBaseUrl == DefaultBaseUrl
  {
    Config(Settings.Get(store, PosIdKey), Settings.Get(store, ClientSecretKey),
           OrElse(Settings.Get(store, AppBaseUrlKey), DefaultBaseUrl))
  }

  /** `save_settings`: writes the three keys. */
  function SaveSettings(store: Settings.Store, c: Config): (saved: Settings.Store)
    ensures saved.Keys == store.Keys + {PosIdKey, ClientSecretKey, AppBaseUrlKey}
    ensures Settings.Get(saved, PosIdKey) == c.posId
    ensures Settings.Get(saved, ClientSecretKey) == c.clientSecret
    ensures Settings.Get(saved, AppBaseUrlKey) == c.appBaseUrl
  {
    Settings.Set(Settings.Set(Settings.Set(store, PosIdKey, c.posId), ClientSecretKey, c.clientSecret),
                 AppBaseUrlKey, c.appBaseUrl)
  }

  /** Loading after saving gives back what was saved (an empty base URL reads as
      the default), and no other key changes. */
  lemma SaveThenLoad(store: Settings.Store, c: Config)
    ensures LoadSettings(SaveSettings(store, c)) == Config(c.posId, c.clientSecret, OrElse(c.appBaseUrl, DefaultBaseUrl))
    ensures forall key :: key != PosIdKey && key != ClientSecretKey && key != AppBaseUrlKey ==>
              Settings.Get(SaveSettings(store, c), key) == Settings.Get(store, key)
  {
  }

  /** Writing the admin keys does not change the loaded configuration. */
  lemma AdminKeysLeaveConfig(store: Settings.Store, key: string, value: string)
    requires key == AdminSessionKey || key == AdminPasswordKey
    ensures LoadSettings(Settings.Set(store, key, value)) == LoadSettings(store)
  {
  }

  // ----- Admin session -----

  /** `is_admin_logged_in`: the cookie and the stored session are both
      non-empty and equal (the constant-time comparison is plain equality here). */
  predicate IsAdminLoggedIn(cookie: Option<string>, store: Settings.Store)
    ensures IsAdminLoggedIn(cookie, store) <==>
              cookie == Some(Settings.Get(store, AdminSessionKey)) && Settings.Get(store, AdminSessionKey) != ""
  {
    cookie.Some? && cookie.value != "" && Settings.Get(store, AdminSessionKey) != ""
    && cookie.value == Settings.Get(store, AdminSessionKey)
  }

  /** Without a stored session nobody is logged in, and a logged-in cookie is
      the stored session. */
  lemma LoggedInOnlyWithStoredSession(cookie: Option<string>, store: Settings.Store)
    ensures Settings.Get(store, AdminSessionKey) == "" ==> !IsAdminLoggedIn(cookie, store)
    ensures IsAdminLoggedIn(cookie, store) ==> cookie == Some(Settings.Get(store, AdminSessionKey))
  {
  }

  // ----- Payments -----

  /** A row of the transaction ledger (its id and creation time are assigned by the database). */
  datatype Record = Record(orderId: Option<string>, amount: int, description: string, status: string)

  /** What `create_payment` answers: a 303 redirect to the gateway's page with
      the `payu_order_id` cookie, or an HTTP error. */
  datatype PaymentResponse = SeeOther(location: string, orderCookie: string) | Refused(error: HttpError)

  /** One classified attempt that reached the gateway: the record written and the response. */
  datatype Attempt = Attempt(record: Record, response: PaymentResponse)

  /** How `f"{status}"` prints the status code: "None" when there is none. */
  function StatusText(code: Option<string>): string {
    if code.Some? then code.value else "None"
  }

  /** `res.get("status", {}).get("statusCode")`, with a `status` that is not an
      object read like a missing one. */
  function StatusCode(body: PayU.OrderBody): (code: Option<string>)
    ensures code.Some? ==> body.status.StatusObject?
    ensures body.status.StatusObject? ==> code == body.status.statusCode
  {
    if body.status.StatusObject? then body.status.statusCode else None
  }

  /** The outcome of an attempt that reached the gateway, from the gateway's
      reply: exactly one record, whose amount is the parsed grosze and whose
      description is the text as submitted, and a response that redirects
      exactly when the record says SUCCESS. */
  function Classify(grosze: int, description: string, reply: Result<PayU.OrderBody, string>): (a: Attempt)
    ensures a.record.amount == grosze && a.record.description == description
    ensures a.response.SeeOther? <==> a.record.status == "SUCCESS"
    ensures a.response.SeeOther? <==>
              && reply.Ok? && StatusCode(reply.value) == Some("SUCCESS")
              && reply.value.redirectUri.Some? && reply.value.redirectUri.value != ""
    ensures a.response.Refused? ==> a.response.error.code == 502
    ensures reply.Err? ==> a.record.orderId == None
    ensures reply.Ok? ==> a.record.orderId == reply.value.orderId
    ensures a.response.SeeOther? ==>
              a.response.location == reply.value.redirectUri.value && a.response.orderCookie == reply.value.orderId.GetOr("")
  {
    match reply
    case Err(message) =>
      assert ("ERROR: " + message)[0] == 'E';
      Attempt(Record(None, grosze, description, "ERROR: " + message), Refused(HttpError(502, "PayU error: " + message)))
    case Ok(body) =>
      var code := StatusCode(body);
      if code != Some("SUCCESS") then
        var status := "PayU status: " + StatusText(code);
        assert status[0] == 'P';
        Attempt(Record(body.orderId, grosze, description, status), Refused(HttpError(502, status)))
      else if body.redirectUri.None? || body.redirectUri.value == "" then
        Attempt(Record(body.orderId, grosze, description, "Missing redirectUri"),
                Refused(HttpError(502, "Missing redirectUri from PayU")))
      else
        Attempt(Record(body.orderId, grosze, description, "SUCCESS"),
                SeeOther(body.redirectUri.value, body.orderId.GetOr("")))
  }

  /** The three failure records carry the gateway's message or status code. */
  lemma ClassifyFailureRecords(grosze: int, description: string, reply: Result<PayU.OrderBody, string>)
    ensures reply.Err? ==> Classify(grosze, description, reply).record.status == "ERROR: " + reply.error
    ensures reply.Ok? && StatusCode(reply.value) != Some("SUCCESS") ==>
              Classify(grosze, description, reply).record.status == "PayU status: " + StatusText(StatusCode(reply.value))
    ensures reply.Ok? && StatusCode(reply.value) == Some("SUCCESS") && reply.value.redirectUri.GetOr("") == "" ==>
              Classify(grosze, description, reply).record.status == "Missing redirectUri"
  {
  }

  /** The post-gateway part of `create_payment` as written: reading
      `res.get("status", {}).get("statusCode")` raises when `status` is present
      but not an object, outside the `try`, so the request fails with 500 and
      no record is written (`None` here). */
  function ClassifyAsWritten(grosze: int, description: string, reply: Result<PayU.OrderBody, string>): (a: Option<Attempt>)
    ensures a.Some? ==> a.value.record.amount == grosze && a.value.record.description == description
  {
    if reply.Ok? && reply.value.status.StatusNotObject? then None
    else Some(Classify(grosze, description, reply))
  }

  /** The as-written flow loses the record of an order the gateway accepted when
      its `status` member is not an object. */
  lemma AsWrittenLosesRecord(grosze: int, description: string, orderId: string, redirectUri: string)
    ensures ClassifyAsWritten(grosze, description,
              Ok(PayU.OrderBody(PayU.StatusNotObject, Some(orderId), Some(redirectUri)))) == None
  {
  }

  /** Classify differs from the as-written flow only there: everywhere else the
      two write the same record and give the same response. */
  lemma ClassifyAgreesWithAsWritten(grosze: int, description: string, reply: Result<PayU.OrderBody, string>)
    ensures ClassifyAsWritten(grosze, description, reply).None? <==> reply.Ok? && reply.value.status.StatusNotObject?
    ensures ClassifyAsWritten(grosze, description, reply).Some? ==>
              ClassifyAsWritten(grosze, description, reply) == Some(Classify(grosze, description, reply))
  {
  }

  /** The response to the admin login form. */
  datatype LoginResponse = LoggedIn(sessionCookie: string) | Unauthorized

  /** The process-wide state of the application. */
  class App {
    /** The settings table. */
    var settings: Settings.Store
    /** The transaction table, oldest first. */
    var ledger: seq<Record>
    /** `POS_ID`, `CLIENT_SECRET`, `APP_BASE_URL`. */
    var config: Config
    /** `payu`: null when the credentials are incomplete. */
    var payu: PayU.Client?

    /** The globals are the loaded settings, and a client exists, built from
        them, exactly when both credentials are non-empty. */
    ghost predicate Valid()
      reads this
    {
      && config == LoadSettings(settings)
      && (payu != null <==> config.Complete())
      && (payu != null ==>
            && payu.Valid()
            && payu.posId == config.posId && payu.clientSecret == config.clientSecret
            && payu.appBaseUrl == PayU.StripTrailingSlashes(config.appBaseUrl))
    }

    /** The client rebuild of module start-up and `admin_save`. */
    static method BuildClient(c: Config) returns (client: PayU.Client?)
      ensures client != null <==> c.Complete()
      ensures client != null ==>
                && fresh(client) && client.Valid() && client.Cache() == PayU.InitialCache
                && client.posId == c.posId && client.clientSecret == c.clientSecret
                && client.appBaseUrl == PayU.StripTrailingSlashes(c.appBaseUrl)
    {
      client := null;
      if c.posId != "" && c.clientSecret != "" {
        client := new PayU.Client(c.posId, c.clientSecret, c.appBaseUrl);
      }
    }

    /** Module start-up: load the settings and build the client. */
    constructor (settings: Settings.Store, ledger: seq<Record>)
      ensures Valid() && this.settings == settings && this.ledger == ledger
      ensures payu != null ==> fresh(payu) && payu.Cache() == PayU.InitialCache
    {
      var c := LoadSettings(settings);
      var client := BuildClient(c);
      this.settings := settings;
      this.ledger := ledger;
      config := c;
      payu := client;
    }

    /** `admin_login`: while no password is stored the submitted one is stored
        and accepted; a matching password stores `sessionToken` (the random
        session token) as the only session that is logged in. */
    method AdminLogin(form: map<string, string>, sessionToken: string) returns (r: LoginResponse)
      requires Valid()
      modifies this
      ensures Valid()
      ensures ledger == old(ledger) && config == old(config) && payu == old(payu)
      ensures var stored := Settings.Get(old(settings), AdminPasswordKey);
              var password := FormGet(form, "password", "");
              && (stored == "" ==>
                    r == LoggedIn(sessionToken)
                    && settings == Settings.Set(Settings.Set(old(settings), AdminPasswordKey, password),
                                                AdminSessionKey, sessionToken))
              && (stored != "" && password == stored ==>
                    r == LoggedIn(sessionToken) && settings == Settings.Set(old(settings), AdminSessionKey, sessionToken))
              && (stored != "" && password != stored ==> r == Unauthorized && settings == old(settings))
      ensures r.LoggedIn? ==> (IsAdminLoggedIn(Some(sessionToken), settings) <==> sessionToken != "")
      ensures r.LoggedIn? ==> forall cookie :: IsAdminLoggedIn(cookie, settings) ==> cookie == Some(sessionToken)
    {
      var password := FormGet(form, "password", "");
      var adminPassword := Settings.Get(settings, AdminPasswordKey);
      if adminPassword == "" {
        AdminKeysLeaveConfig(settings, AdminPasswordKey, password);
        settings := Settings.Set(settings, AdminPasswordKey, password);
        adminPassword := password;
      }
      if password == adminPassword {
        AdminKeysLeaveConfig(settings, AdminSessionKey, sessionToken);
        settings := Settings.Set(settings, AdminSessionKey, sessionToken);
        r := LoggedIn(sessionToken);
      } else {
        r := Unauthorized;
      }
    }

    /** `admin_save`: a logged-in admin's form is saved, the globals reloaded and
        the client rebuilt (dropping any cached token); otherwise nothing changes.
        The answer is the redirect target. */
    method AdminSave(cookie: Option<string>, form: map<string, string>) returns (location: string)
      requires Valid()
      modifies this
      ensures Valid() && ledger == old(ledger)
      ensures !IsAdminLoggedIn(cookie, old(settings)) ==>
                location == "/admin/login" && settings == old(settings) && config == old(config) && payu == old(payu)
      ensures IsAdminLoggedIn(cookie, old(settings)) ==>
                var submitted := Config(FormGet(form, "pos_id", ""), FormGet(form, "client_secret", ""),
                                        FormGet(form, "app_base_url", DefaultBaseUrl));
                && location == "/admin"
                && settings == SaveSettings(old(settings), submitted)
                && config == Config(submitted.posId, submitted.clientSecret, OrElse(submitted.appBaseUrl, DefaultBaseUrl))
                && (payu != null ==> fresh(payu) && payu.Cache() == PayU.InitialCache)
    {
      if !IsAdminLoggedIn(cookie, settings) {
        return "/admin/login";
      }
      var submitted := Config(FormGet(form, "pos_id", ""), FormGet(form, "client_secret", ""),
                              FormGet(form, "app_base_url", DefaultBaseUrl));
      SaveThenLoad(settings, submitted);
      settings := SaveSettings(settings, submitted);
      config := LoadSettings(settings);
      payu := BuildClient(config);
      location := "/admin";
    }

    /** `create_payment`: refuses with 503 without a client and with 400 for an
        invalid amount, writing nothing; otherwise sends the order (with
        `description or "Order"` as description and product name) and appends
        exactly the one record Classify gives for the reply. */
    method CreatePayment(amountText: string, description: string, now: real,
                         authServer: PayU.TokenRequest -> PayU.TokenResponse, gateway: PayU.Gateway)
      returns (r: PaymentResponse)
      requires Valid()
      modifies this, payu
      ensures Valid()
      ensures settings == old(settings) && config == old(config) && payu == old(payu)
      ensures old(payu) == null ==> r == Refused(NotConfigured) && ledger == old(ledger)
      ensures old(payu) != null && Amount.PlnToGrosze(amountText).Err? ==>
                r == Refused(Amount.InvalidAmount) && ledger == old(ledger) && payu.Cache() == old(payu.Cache())
      ensures old(payu) != null && Amount.PlnToGrosze(amountText).Ok? ==>
                var grosze := Amount.PlnToGrosze(amountText).value;
                var step := PayU.TokenStep(old(payu.Cache()), now, authServer(payu.AuthorizationRequest()));
                var orderDescription := OrElse(description, DefaultDescription);
                var payload := payu.Payload(grosze, orderDescription, PayU.DefaultCustomerIp,
                                            orderDescription, PayU.DefaultCurrency);
                var attempt := Classify(grosze, description, PayU.OrderCall(step.result, payload, gateway));
                && payu.Cache() == step.cache
                && ledger == old(ledger) + [attempt.record]
                && r == attempt.response
    {
      if payu == null {
        return Refused(NotConfigured);
      }
      var amount := Amount.PlnToGrosze(amountText);
      if amount.Err? {
        return Refused(amount.error);
      }
      var grosze := amount.value;
      var orderDescription := OrElse(description, DefaultDescription);
      var reply := payu.CreateOrder(grosze, orderDescription, PayU.DefaultCustomerIp, orderDescription,
                                    PayU.DefaultCurrency, now, authServer, gateway);
      var attempt := Classify(grosze, description, reply);
      ledger := ledger + [attempt.record];
      r := attempt.response;
    }
  }
}
