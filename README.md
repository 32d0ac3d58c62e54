# Per-address request limiter of the Flask greeting service

The service in `flask/app.py` answers a greeting at `/` and throttles callers
by their source address with an in-memory `RateLimiter`: an object holding an
integer `limit` and a dictionary `counts` from address to the number of
accepted requests. `allow(ip)` enters an unseen address with count 0, accepts
the request exactly when that count is below `limit`, and increments the count
only on acceptance. The greeting route turns a refusal into status 429 and an
acceptance into a 200 greeting; the `/rate_limit` route reports the limit on
GET and overwrites it on POST. The service starts with a limit of 10.

The project has two modules:

- `LimiterSpec` (`limiter_spec.dfy`) states the decision rule on values:
  `Step` is one call of `allow`, `Run` a sequence of calls under a fixed
  limit, and `Capped` a closed form for the count one address reaches. The
  lemmas connect them: per-address counts depend only on that address's own
  requests, refusals are free, counts stay bounded, and there is no reset.
- `FlaskApp` (`flask_app.dfy`) is the program: the class `RateLimiter` with
  mutable `limit` and `counts` fields, whose `Allow` method updates the
  dictionary in place and is proved against `Step`, and the two route handlers
  as methods over the shared limiter.

Three things follow from the code that a reader might expect otherwise:

- There are no time windows. `time` is imported but never used, so an address
  that has used its quota is refused for as long as the process lives, unless
  the limit is raised above its count.
- A refused request does not consume anything.
- The limit is not validated. Zero and negative values are stored as posted.

Two consequences of the code that the proofs make explicit:

- A newly seen address is stored with count 0 even when it is refused. With a
  negative limit that count is above the limit, so the bound that `Allow`
  keeps is `max(limit, 0)`, not `limit` (`RunKeepsBound`, `Within`).
- Lowering the limit below an address's count leaves that count in place.
  That address is then refused until the limit is raised above its count
  again, because counts never go down (`ExhaustedStaysRefused`).

## Model

| member | source | states |
|---|---|---|
| LimiterSpec.Step | flask/app.py:9-17 | one call of `allow`: accepted exactly when the address's count before the call (0 if unseen) is below the limit; the address is present afterwards; its count goes up by one on acceptance and is unchanged on refusal; no other address's count changes; no count exceeds the larger of its old value and the limit |
| LimiterSpec.Run | flask/app.py:9-17 | a sequence of calls under a fixed limit yields exactly one decision per request |
| LimiterSpec.RunCount | flask/app.py:10-14 | after any sequence of calls, an address's count equals the closed form `Capped` of its old count and the number of requests for it: requests for other addresses and refused requests never change it |
| LimiterSpec.RunDecision | flask/app.py:13-17 | the i-th request of a sequence is accepted exactly when its address's count, advanced by that address's own earlier requests, is below the limit; other addresses' requests do not influence it |
| LimiterSpec.RunKeys | flask/app.py:10-11 | after a sequence of calls the dictionary holds exactly its old addresses plus every requested address |
| LimiterSpec.RunKeepsBound | flask/app.py:13-14 | if every stored count is at most `max(limit, 0)`, every count stays at most that after any sequence of calls under that limit |
| LimiterSpec.RunOtherKeys | flask/app.py:9-17 | a sequence of calls with no request for an address leaves that address's presence and count unchanged |
| LimiterSpec.ExhaustedStaysRefused | flask/app.py:13-17 | once an address's count is at or above the limit, while the limit stays fixed, every later request for it is refused and its count never changes: there is no reset |
| LimiterSpec.FreshKeyQuota | flask/app.py:9-17 | for an unseen address and a fixed limit, exactly the first `limit` requests are accepted, every later one is refused, and the stored count ends at the number of requests or the limit, whichever is smaller (0 for a limit at or below 0) |
| FlaskApp.RateLimiter.constructor | flask/app.py:5-7 | a new limiter holds the given limit (10 by default) and an empty dictionary |
| FlaskApp.RateLimiter.Allow | flask/app.py:9-17 | returns true exactly when the address's old count is below the limit; the new dictionary is the one `Step` gives; the limit is unchanged; the bound `Within` is preserved |
| FlaskApp.CreateLimiter | flask/app.py:21 | the service's shared limiter starts with limit 10 and no counts |
| FlaskApp.IndexResponse | flask/app.py:27-30 | status 429 with an error body exactly when the request was refused, 200 with the greeting exactly when it was accepted |
| FlaskApp.Index | flask/app.py:23-30 | answers 429 exactly when the caller's count before the request is at or above the limit and 200 exactly when it is below; the limiter's state changes as `Step` says |
| FlaskApp.GetLimit | flask/app.py:34-35 | reports the limiter's current limit |
| FlaskApp.RateLimitRoute | flask/app.py:32-41 | GET reports the current limit and changes nothing; POST stores the posted limit unvalidated and leaves all counts alone; a POST body without a "limit" field raises and changes nothing |
| FlaskApp.SetThenGet | flask/app.py:35-39 | a POST of a new limit followed by a GET reports exactly the posted value, with the counts untouched |

## Left out

- Flask routing, `request.remote_addr`, `request.json` parsing and `jsonify`: the address and the posted limit are plain arguments, and a response is a status code with its one JSON field.
- Non-integer limits: the posted JSON value is stored as is, so a float or a string could end up in `limit`; the model's limit is an integer.
- The framework's answer to a handler that raises (a server error page): `RateLimitRoute` returns `KeyError("limit")` and stops there.
- Concurrency: the dictionary is shared by the framework's request threads without a lock; the model runs one request at a time.
- The `/info` header echo and the `/flask-health-check` route: pass-through I/O with no logic.
- `app.py` at the repository root: it configures the external `flask_limiter` library, whose algorithm is not part of this model.
