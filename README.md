# Request admission and cart translation of the Mercado Pago integration service

This project models, in Dafny, the two pieces of deterministic logic of a small
Django microservice that sits between an e-commerce backend and the Mercado Pago
payment gateway:

* **Request admission** (`mp_integration/security_middleware.py`).
  `SecurityMiddleware` rejects mutating requests (POST, PUT, PATCH, DELETE) whose
  non-empty `Origin` is not exactly an allowed origin, or whose non-empty `Referer`
  starts with no allowed origin. This happens only outside debug mode. On a pass it
  sets five fixed security headers on the inner handler's response.
  `RateLimitMiddleware` keeps a table from client identifier to request timestamps.
  Outside debug mode, on every request from any method, it first drops every client
  with no timestamp inside the 60-unit window. It then rejects the request when the
  client already has 100 in-window requests. Otherwise it stores the client's
  in-window timestamps followed by `now`. Both classes take the client identifier
  from the first comma-separated field of `X-Forwarded-For`, untrimmed, or else
  from `REMOTE_ADDR`.
* **Cart translation** (`payment_service/services.py`).
  `process_cart_to_items` turns the cart's `productos` list into provider line items.
  Missing fields take defaults and the currency is always `ARS`. If any entry fails
  to convert, the result is the empty list. `create_preference` builds the
  preference payload with four fixed entries and two optional ones.

Modules:
`Optional` holds the Option type and `dict.get`.
`PythonValues` models JSON scalars, Python truthiness of strings, `str()` and `int()`.
`SecurityMiddleware` holds both middlewares. Django's `Response` is a class whose
header map is updated in place. `RateLimitMiddleware` is a class whose `ipRequests`
field the `Call` method rebuilds and updates.
`Services` holds the cart translation and the payload builder, both as methods.

Requests are their method plus the `META` map. The `DEBUG` setting, the clock `now`
(an integer) and the backend URL setting are parameters. The inner handler is
represented by the response it would produce. On rejection that response is left
untouched and a fresh 403 is returned in its place.

Behaviour of the code that the model keeps as written, though a reader might expect otherwise:

* The client identifier is not trimmed (see `ClientIpNotTrimmed`).
* The rate limiter applies to every method, not only mutating ones.
* The window test is strict (`t > now - 60`) and has no upper bound, so
  timestamps later than `now` also count.
* Rejected responses carry no security headers.
* The Referer test is a plain text-prefix test. A referer such as
  `https://ispcfood.netlify.app.example.net/...` passes it (`LookalikeRefererPasses`).
* A request that has neither `X-Forwarded-For` nor `REMOTE_ADDR` is keyed by
  `None` in the rate-limit table. The model keeps this: `ClientId` is `Option<string>`.

## Model

| member | source | states |
|---|---|---|
| SecurityMiddleware.FirstField | mercadopago_service/mp_integration/security_middleware.py:58 | the result is a prefix of the header that contains no comma and is followed either by a comma or by the end of the header |
| SecurityMiddleware.ClientIp | mercadopago_service/mp_integration/security_middleware.py:54-61 | `get_client_ip` (identical at lines 100-107): with a non-empty X-Forwarded-For the id is a comma-free prefix of it; otherwise it is REMOTE_ADDR as looked up, possibly None |
| SecurityMiddleware.FirstFieldOf | mercadopago_service/mp_integration/security_middleware.py:58 | for a comma-free `first` followed by nothing or by a comma, `split(',')[0]` is exactly `first` |
| SecurityMiddleware.ForwardedClientIp | mercadopago_service/mp_integration/security_middleware.py:54-61 | with a non-empty X-Forwarded-For, the client id is its first comma-separated field, untrimmed; the same function serves both classes (lines 100-107 are identical) |
| SecurityMiddleware.RemoteAddrFallback | mercadopago_service/mp_integration/security_middleware.py:59-60 | with X-Forwarded-For absent or empty, the client id is REMOTE_ADDR, and None when that is missing too |
| SecurityMiddleware.ClientIpNotTrimmed | mercadopago_service/mp_integration/security_middleware.py:58 | blanks around the first field are kept |
| SecurityMiddleware.StartsWithAny | mercadopago_service/mp_integration/security_middleware.py:36 | true iff some allowed string is a prefix of the referer |
| SecurityMiddleware.OriginCheck | mercadopago_service/mp_integration/security_middleware.py:26-38 | the decision is pass, forbidden for the origin, or forbidden for the referer, and nothing else |
| SecurityMiddleware.PassIffAcceptable | mercadopago_service/mp_integration/security_middleware.py:26-38 | the filter passes a request iff it is non-mutating, or debug is on, or its non-empty Origin is exactly allowed and its non-empty Referer has an allowed prefix |
| SecurityMiddleware.SafeOrDebugPasses | mercadopago_service/mp_integration/security_middleware.py:26-31 | GET-like methods, and every method with DEBUG on, always pass |
| SecurityMiddleware.ForeignOriginRejected | mercadopago_service/mp_integration/security_middleware.py:32-34 | a mutating request with a non-empty Origin not in the list is rejected with the origin message regardless of its Referer, so the Origin check takes precedence |
| SecurityMiddleware.RefererDecides | mercadopago_service/mp_integration/security_middleware.py:36-38 | when the Origin does not reject, the referer message is given iff the Referer is non-empty and starts with no allowed string |
| SecurityMiddleware.NoHeadersPass | mercadopago_service/mp_integration/security_middleware.py:32-40 | absent or empty Origin and Referer together pass |
| SecurityMiddleware.LookalikeRefererPasses | mercadopago_service/mp_integration/security_middleware.py:36 | a referer on a host whose name merely begins with the allowed origin's text passes the prefix test |
| SecurityMiddleware.Response.constructor | mercadopago_service/mp_integration/security_middleware.py:34-38 | a new response, such as the 403 built for a rejection, has the given status and body and no headers |
| SecurityMiddleware.Decorated | mercadopago_service/mp_integration/security_middleware.py:43-51 | the decorated map carries each of the five fixed values under its name and keeps every other header's value |
| SecurityMiddleware.AssignmentsDecorate | mercadopago_service/mp_integration/security_middleware.py:43-51 | the five header assignments in sequence give the original map overwritten by the fixed header set |
| SecurityMiddleware.DecorationIdempotent | mercadopago_service/mp_integration/security_middleware.py:43-51 | decorating twice gives the same header map as decorating once |
| SecurityMiddleware.DecorationContents | mercadopago_service/mp_integration/security_middleware.py:43-51 | the decorated map holds exactly the fixed value under each of the five names and keeps every other header unchanged |
| SecurityMiddleware.AddSecurityHeaders | mercadopago_service/mp_integration/security_middleware.py:43-51 | the response's header map becomes its decorated form in place |
| SecurityMiddleware.Call | mercadopago_service/mp_integration/security_middleware.py:24-52 | on pass the inner handler's response is returned, decorated; on rejection a fresh undecorated 403 with the reason is returned and the inner response is untouched |
| SecurityMiddleware.Recent | mercadopago_service/mp_integration/security_middleware.py:85-88 | the kept timestamps are exactly those of the list strictly later than now - 60, each kept as many times as it occurs in the list, so the length compared with 100 is the true in-window count; together with the three lemmas below (order, whole and empty cases) this fixes the filter |
| SecurityMiddleware.RecentAppend | mercadopago_service/mp_integration/security_middleware.py:85-88 | the window filter distributes over concatenation, so the original order is kept |
| SecurityMiddleware.RecentAllInWindow | mercadopago_service/mp_integration/security_middleware.py:85-88 | a list entirely inside the window is kept whole |
| SecurityMiddleware.RecentAllStale | mercadopago_service/mp_integration/security_middleware.py:85-88 | a list entirely at or before now - 60 is dropped, so a limited client is admitted again once the window has moved on |
| SecurityMiddleware.AnyRecent | mercadopago_service/mp_integration/security_middleware.py:80 | the sweep's `any` test holds iff the window filter leaves something |
| SecurityMiddleware.Sweep | mercadopago_service/mp_integration/security_middleware.py:78-81 | the swept table keeps exactly the clients with at least one in-window timestamp, with their lists unchanged |
| SecurityMiddleware.RateLimitMiddleware.constructor | mercadopago_service/mp_integration/security_middleware.py:68-70 | the table starts empty |
| SecurityMiddleware.RateLimitMiddleware.Call | mercadopago_service/mp_integration/security_middleware.py:72-98 | with DEBUG on the table is untouched and the request passes; otherwise the request is rejected iff the client has at least 100 in-window timestamps; the new keys are the swept keys plus the client; other surviving lists are unchanged; a rejected client's list is as before; an admitted client's list is its in-window timestamps followed by now; every list stays non-empty and at most 100 long |
| SecurityMiddleware.BurstStep | mercadopago_service/mp_integration/security_middleware.py:78-88 | during a burst of fewer than 100 requests inside the window, the sweep keeps the table and every earlier request counts |
| SecurityMiddleware.SendBurst | mercadopago_service/mp_integration/security_middleware.py:72-98 | 100 requests from one client at ten per time unit are all admitted and all stored |
| SecurityMiddleware.BurstScenario | mercadopago_service/mp_integration/security_middleware.py:72-98 | the 100th request is admitted, the 101st at time 15 is rejected, another client at time 15 is admitted, and the first client is admitted again at time 69 |
| PythonValues.ToStr | mercadopago_service/payment_service/services.py:131 | `str` keeps a string and gives "None" for a missing id |
| PythonValues.ToInt | mercadopago_service/payment_service/services.py:134 | `int` keeps an integer and fails on None and on the empty string |
| PythonValues.NatToDigits | mercadopago_service/payment_service/services.py:131 | the decimal numeral of a natural number is non-empty, all digits, and without a leading zero |
| PythonValues.IntToString | mercadopago_service/payment_service/services.py:131 | `str(n)` is non-empty, all digits for n >= 0, and a minus sign followed by digits for n < 0 |
| PythonValues.ParseIntText | mercadopago_service/payment_service/services.py:134 | `int` on a string succeeds only on a non-empty string, reads a digit string as its decimal value and a minus-signed one as its negation |
| PythonValues.StrIntRoundTrip | mercadopago_service/payment_service/services.py:131 | reading back the string form of an integer id gives the integer |
| PythonValues.NonNumericTextFails | mercadopago_service/payment_service/services.py:134 | `int` fails on a string with a character that is neither a digit nor a leading sign |
| Optional.Get | mercadopago_service/mp_integration/security_middleware.py:27-28 | `dict.get(k)` is Some exactly when the key is present, with the stored value |
| Optional.Option.GetOr | mercadopago_service/payment_service/services.py:131-135 | `dict.get(k, default)` gives the stored value when present and the default otherwise |
| Services.ToItem | mercadopago_service/payment_service/services.py:130-137 | a converted item comes from a dictionary entry, carries the currency "ARS", and has the quantity `int` reads from the given or default quantity |
| Services.ToItemFailsIff | mercadopago_service/payment_service/services.py:130-137 | an entry fails to convert iff it is not a dictionary or its quantity cannot be read by `int` |
| Services.EmptyProductDefaults | mercadopago_service/payment_service/services.py:131-136 | the entry with every field missing gives the all-defaults item: title "Producto", description "", quantity 1, unit price 0, id "None", currency "ARS" |
| Services.ToItemFields | mercadopago_service/payment_service/services.py:131-136 | for every converted dictionary entry: id is `str` of the given id (or of None), title, description and unit price are the given value or their defaults "Producto", "" and 0, the quantity is what `int` reads from the given quantity or 1, the currency is "ARS", and an integer id reads back from the id string |
| Services.ProcessCartToItems | mercadopago_service/payment_service/services.py:113-143 | a cart that is not an object, or lacks a `productos` list, gives []; otherwise one item per product in order when all convert, and [] (never a partial list) when any fails |
| Services.BackUrls | mercadopago_service/payment_service/services.py:87-91 | exactly the keys success, failure and pending, mapped to the backend URL followed by /payment/success, /payment/failure and /payment/pending respectively |
| Services.BuildPreferenceData | mercadopago_service/payment_service/services.py:84-103 | the payload holds items, the string form of the external reference, the three back URLs and auto_return "approved"; notification_url is present iff its argument is truthy, payer is present iff the email is truthy, and there are no other keys |

## Left out

- `CartService.get_cart` and `CartService.confirm_order`: HTTP calls to the main backend with timeouts and JSON decoding; network I/O is not modelled. What `get_cart` returns is the `CartData` input.
- `MercadoPagoService.create_preference` beyond the payload, and `get_payment`: calls into the provider's SDK, foreign code. The `try`/`except` around the SDK call is not modelled either.
- `float(precio)`: unit prices are floating point in the source; the model passes the `precio` value (or the default 0) through unchanged, so a price that `float` would reject does not make the conversion fail.
- `PythonValues.ToInt`: does not model all of Python's `int()` grammar. Surrounding whitespace, underscores, non-ASCII digits and JSON floats or booleans are left out. A string is accepted only as an optional sign followed by ASCII digits.
- `PythonValues.ToStr`: covers None, integers and strings only; other JSON values are not part of the scalar model.
- `time.time()`: a floating-point wall clock; the model takes `now` as an integer parameter.
- Logging calls: side effects with no behavioural content.
- Django: header names in a Django response are case-insensitive and `HttpResponseForbidden` carries a default Content-Type header; the model uses a plain map that starts empty.
- The inner handler `get_response` is foreign code; it is represented by the response it would return.
- Concurrency: `ip_requests` is shared unsynchronised between worker threads; the model covers sequential calls only.
- The order of the two middlewares in the Django settings is not part of this model, so their composition is not modelled.
- `payment_service/urls.py`: only a route table.
