# PayU Starter: verified model of the gateway client and payment workflow

This project models the sequential logic of a small merchant integration with the PayU
sandbox gateway, written in Dafny. It covers:

- **The PayU client** (`PayU`, payu.dfy). `PayU.Client` has the credentials fixed at
  construction and the two token-cache fields `token` and `tokenExpiry`.
  - `GetAccessToken` returns the cached token while it is non-empty and more than 30 seconds
    from expiry. Otherwise it performs the OAuth 2.0 client-credentials grant (section 4.4 of
    RFC 6749), authenticated with HTTP Basic credentials (RFC 7617).
  - `CreateOrder` builds the order payload and sends it with a Bearer token (section 2.1 of
    RFC 6750).
  - The token endpoint and the orders endpoint are function parameters. `TokenStep` is the
    pure specification of one token call, and the lemmas about reuse and refresh are stated
    over it.
- **The amount conversion** (`Amount`, amount.dfy). `pln_to_grosze` parses a decimal text
  exactly, quantizes it to two fractional digits with half-to-even rounding (the default
  decimal context) and multiplies by 100. Malformed text gives the 400 "Invalid amount"
  error.
- **Decimal numerals** (`Numerals`, numerals.dfy). Their value, `str(n)` for integers and
  the matching `int(s)`.
- **The settings table** (`Settings`, settings.dfy). A key/value map in which a missing key
  reads as `""` and a write is an upsert.
- **The application** (`PaymentApp`, app.dfy). `PaymentApp.App` holds the settings map, the
  ledger of transaction records, the configuration globals and the optional client.
  - Start-up and `admin_save` reload the configuration and rebuild the client.
  - `admin_login` bootstraps and checks the admin password and stores the session token.
  - `create_payment` refuses without a client (503) or with a bad amount (400), and writes
    nothing in either case. Otherwise it calls the gateway and appends exactly one ledger
    record, chosen by `Classify` from the gateway's reply. `Classify` is the corrected
    reading of the reply described under "## Findings". The code as written is
    `ClassifyAsWritten`.

The clock (`now`), the session token's randomness and both HTTP endpoints are parameters.

Behaviours of the code worth noting, all kept by the model (apart from the one under "## Findings"):

- The amount grammar also accepts `"1."` and `".5"`, as `Decimal` does.
- A coefficient of more than 28 digits is refused with 400, because `quantize` raises there.
- The token is stored before `expires_in` is converted. A non-integer `expires_in` therefore
  leaves the new token with the old expiry, and the call raises.
- A missing `redirectUri` and an empty one are both treated as missing.

## Model

| member | source | states |
|---|---|---|
| Numerals.NatToString | app/payu.py:54 | `str(n)` of a non-negative integer is a non-empty digit string without leading zero whose value is n |
| Numerals.IntToString | app/payu.py:54 | `str(n)` of any integer is canonical (a minus sign exactly when n < 0, then digits without leading zero, never "-0") and reads back as n under `int` |
| Numerals.ParseInt | app/payu.py:54 | `int(s)` on a sign and digits: a digit string reads as its value, "-" + digits as minus that value, and a negative result only comes from a leading '-' |
| Numerals.CanonicalIntIsIntToString | app/payu.py:54 | every canonical integer text is `str` of the integer it reads as, so with IntToString's ensures the canonical texts and `str`'s outputs are the same set, one per integer |
| Numerals.IntToStringInjective | app/payu.py:54 | distinct amounts serialise to distinct strings |
| Amount.ParseNumeral | app/main.py:319 | every accepted text is a well-formed numeral (sign, digits, at most one point, at least one digit) that renders back to exactly that text |
| Amount.ParseRender | app/main.py:319 | every well-formed numeral is accepted from its own text, so the accepted texts are exactly the rendered numerals |
| Amount.PlnToGrosze | app/main.py:317-322 | every failure is 400 "Invalid amount"; a success comes from a well-formed numeral and is smaller than 10^28 in size (its value: PlnToGroszeRoundsHundredfold) |
| Amount.RoundHalfEven | app/main.py:319 | the result is within half a unit of n/d, and on a tie it is even |
| Amount.HalfEvenRoundingUnique | app/main.py:319 | any integer within half a unit of n/d, even on ties, equals RoundHalfEven: the rounding is determined |
| Amount.MagnitudeRounds | app/main.py:319-320 | the unsigned grosze are 100 × the written magnitude rounded half to even, exact with at most two fractional digits |
| Amount.GroszeRoundsHundredfold | app/main.py:319-320 | with its sign, the conversion is 100 × the value rounded half to even, exact with at most two fractional digits |
| Amount.PlnToGroszeRoundsHundredfold | app/main.py:317-322 | a successful `pln_to_grosze` returns 100 × the value rounded half to even, exact for at most two fractional digits, and smaller than 10^28 |
| Amount.PlnToGroszeFailsOnlyWhenInvalid | app/main.py:317-322 | the conversion fails exactly for malformed text or an oversized coefficient, and then with 400 "Invalid amount" |
| Amount.PlnToGroszeAcceptsNumerals | app/main.py:317-320 | every well-formed numeral of fitting size is converted to its signed grosze |
| Amount.PlnToGroszeTwelveThirtyFour | app/main.py:317-320 | "12.34" gives 1234 |
| Amount.PlnToGroszeOneTenth | app/main.py:317-320 | "0.1" gives 10 |
| Amount.PlnToGroszeTieToEven | app/main.py:319 | "-0.125" gives -12 (the tie goes to the even neighbour) |
| Amount.PlnToGroszeRefusesText | app/main.py:321-322 | "abc" and "" give 400 "Invalid amount" |
| Settings.Get | app/db.py:43-47 | a key not stored reads as "", a stored key reads as its value |
| Settings.Set | app/db.py:49-58 | a write adds the key if absent and keeps every other key |
| Settings.GetAfterSet | app/db.py:43-58 | after a write the key reads as the value written and every other key reads as before |
| PayU.StripTrailingSlashes | app/payu.py:15 | the result is the longest prefix not ending in '/', and everything removed is '/' |
| PayU.StripTrailingSlashesIdempotent | app/payu.py:15 | stripping twice gives the same as stripping once |
| PayU.BasicUserPassSplits | app/payu.py:24 | the `pos_id:client_secret` user-pass splits back into both credentials when the POS id has no colon |
| PayU.TokenStep | app/payu.py:19-35 | a returned token is always the one left in the cache; the token changes only on a refresh that got a grant; the expiry changes only on a refresh that returns a token |
| PayU.TokenStepRefreshesIffNotReusable | app/payu.py:19-22 | the token endpoint is called exactly when the cache is not reusable; a reusable cache is returned unchanged |
| PayU.FirstCallRefreshes | app/payu.py:16-21 | the first call on a new client (no token, expiry 0) always refreshes |
| PayU.ExpiringTokenRefreshes | app/payu.py:21 | from 30 seconds before expiry on, every call refreshes |
| PayU.SuccessfulRefresh | app/payu.py:32-35 | a grant caches the token until now + expires_in (300 when absent) and returns it |
| PayU.FailedRefreshKeepsCache | app/payu.py:30-33 | an HTTP failure or a missing `access_token` raises and leaves both cache fields unchanged |
| PayU.UnreadableLifetimeKeepsExpiry | app/payu.py:33-34 | a non-integer `expires_in` raises after storing the new token, keeping the old expiry |
| PayU.OneRefreshWithinLifetime | app/payu.py:21-35 | after a refresh granting a non-empty token, a call before now + expires_in - 30 does not refresh and returns the same token |
| PayU.EmptyTokenNeverReused | app/payu.py:21 | a missing or empty token is never reused, including one just granted |
| PayU.OrderCall | app/payu.py:63-69 | a token error is raised before any request; otherwise the answer is the gateway's to a POST on the orders URL with "Bearer " + token, a JSON content type, the payload and a 20 s timeout |
| PayU.Client.constructor | app/payu.py:12-17 | the base URL is stored without trailing slashes, and the new client has no token and expiry 0 |
| PayU.Client.GetAccessToken | app/payu.py:19-35 | the new cache and the returned token (or raised message) are those of TokenStep on the old cache |
| PayU.Client.Payload | app/payu.py:47-62 | the URLs are the base URL + "/payu/notify" and + "/return"; the POS id is the merchant id; the amount string is canonical (`str` of the amount: a minus sign only for negatives, no leading zero) and reads back as the amount, which fixes it as IntToString of the amount; there is exactly one product with unit price = total and quantity "1" |
| PayU.Client.CreateOrder | app/payu.py:37-69 | the token step as in GetAccessToken; a token failure is returned, otherwise the gateway's answer to the payload sent with the Bearer header |
| PaymentApp.LoadSettings | app/main.py:14-18 | the configuration is the stored POS id and secret, and the base URL is never empty (an empty one reads as "http://localhost:8000") |
| PaymentApp.SaveSettings | app/main.py:20-23 | the three keys are stored (added when absent) and read back as the values given |
| PaymentApp.SaveThenLoad | app/main.py:14-23 | loading after saving gives back what was saved (empty base URL as default), and other keys are untouched |
| PaymentApp.AdminKeysLeaveConfig | app/main.py:108-115 | writing the admin password or session key does not change the loaded configuration |
| PaymentApp.IsAdminLoggedIn | app/main.py:70-72 | logged in exactly when a session is stored and the cookie is that session |
| PaymentApp.LoggedInOnlyWithStoredSession | app/main.py:70-72 | nobody is logged in while no session is stored; a logged-in cookie equals the stored session |
| PaymentApp.StatusCode | app/main.py:340 | a status code is read only from a `status` object, and from one it is that object's `statusCode`; any other `status` reads as missing (the corrected reading of the Findings row) |
| PaymentApp.Classify | app/main.py:330-354 | one record with the parsed amount and the raw description; it redirects iff the status is SUCCESS and redirectUri is non-empty, iff the record says "SUCCESS"; every other outcome is 502; the order id is recorded from the reply (none on an exception); the cookie is `order_id or ""` |
| PaymentApp.ClassifyFailureRecords | app/main.py:336-349 | failure records read "ERROR: " + message, "PayU status: " + code ("None" when absent), or "Missing redirectUri" |
| PaymentApp.ClassifyAsWritten | app/main.py:340 | the as-written reply handling: a record with the parsed amount and raw description whenever one is written |
| PaymentApp.AsWrittenLosesRecord | app/main.py:340 | as written, a reply whose `status` is not an object writes no record |
| PaymentApp.ClassifyAgreesWithAsWritten | app/main.py:340-354 | the corrected classification differs from the as-written one only for a `status` that is not an object |
| PaymentApp.App.BuildClient | app/main.py:26-28 | a fresh client exists iff POS id and secret are both non-empty, built from the configuration with no token |
| PaymentApp.App.constructor | app/main.py:25-28 | after start-up the configuration is the loaded settings and a client exists iff both credentials are non-empty |
| PaymentApp.App.AdminLogin | app/main.py:104-118 | while no password is stored, any password is stored and accepted; otherwise only the stored one is accepted (401 else); a successful login stores the new session, which becomes the only logged-in cookie |
| PaymentApp.App.AdminSave | app/main.py:203-218 | without a login nothing changes; otherwise the form is saved, the configuration reloaded and the client rebuilt with an empty cache, keeping "client iff both credentials" |
| PaymentApp.App.CreatePayment | app/main.py:325-354 | no client: 503 and the ledger unchanged; bad amount: 400 and the ledger unchanged; otherwise the gateway receives `description or "Order"` and exactly the record Classify (the corrected reading) gives is appended |

## Left out

- HTML pages, FastAPI routing, cookies' `httponly` and `max_age` attributes, the logout route and the transaction list page are presentation.
- The notify webhook is left out: it acknowledges every request and changes nothing.
- The HTTP calls, `raise_for_status` and JSON decoding are not modelled. Their results are the `TokenResponse` and `Gateway` inputs, and their exceptions are reduced to a message.
- The base64 encoding of the Basic credentials is a library call. The model keeps the user-pass before encoding.
- `time.time()` is the `now: real` parameter. `secrets.token_urlsafe` is the `sessionToken` parameter.
- `secrets.compare_digest` is plain string equality. Its constant-time behaviour is not modelled, and neither is its `TypeError` on non-ASCII text.
- Only the `Decimal` input forms sign, digits and an optional point are modelled. Exponents, whitespace, underscores, NaN, Infinity and non-ASCII digits fall outside this grammar and are refused.
- JSON values of unexpected types are not modelled. In the order reply: a numeric `statusCode`, a non-string `orderId` or `redirectUri`, or a body that is not an object. In the token grant: a null or non-string `access_token` (which would be cached and sent as "Bearer None"), or a body that is not an object.
- The ledger's auto-increment id, its `created_at` timestamp and the newest-first ordering of the listing are left out. All three are done by the database.
- Concurrent requests sharing the token cache, the settings and the ledger are not modelled.

- PaymentApp.App.CreatePayment: applies the corrected classification `Classify`, not the code as written. For a reply whose `status` is present but not an object, it appends "PayU status: None" and answers 502. The code as written answers 500 and writes no record; that behaviour is `ClassifyAsWritten` (see "## Findings").

## Findings

| source | as written | input that shows it | evidently intended | confidence | as-written member | corrected member |
|---|---|---|---|---|---|---|
| app/main.py:340 | `res.get("status", {}).get("statusCode")` sits outside the `try`; when `status` is present but not an object, the call raises and the request fails with 500 without a ledger record, although the order reached the gateway | a gateway reply `{"status": null, "orderId": "X", "redirectUri": "https://…"}` | every attempt that reached the gateway writes exactly one record; here it would be "PayU status: None" with a 502 | low (not executed; PayU normally sends an object) | PaymentApp.ClassifyAsWritten | PaymentApp.Classify |
