# Donations notification gateway — Dafny model

The gateway sits in front of a donations backend and offers three routes
(`app.py`):

- `GET /filteredDonations` reads the backend's donation list and keeps the
  donations whose `category`, `city` and `condition` equal the query
  parameters that were supplied (module `FilteredDonations`). The Python
  `for` loop with its early `continue`s is the method
  `GetFilteredDonations`, proved equal to the specification function
  `Filter`. Lemmas about `Filter` show that the result is an
  order-preserving subsequence, that it is sound and complete, that it keeps
  each record's count, that it is the identity when no parameter is given,
  and that it is idempotent.
- `POST /sendNotification` validates the body, mails the donor, then marks
  the donation unavailable with a PUT (module `Notification`). Whether
  `mail.send` and `requests.put` raise are inputs. `SendNotification`
  returns the response together with the external calls it attempted, in
  order, and its contract states the ordering and the no-call guarantees.
- `GET /proxy-image/<filename>` forwards one uploaded file (module
  `ImageProxy`). `ProxyImage` returns the address it reads beside its
  answer. Every backend status other than 200 becomes the same 404 text.

Module `Backend` holds the backend address strings. A caller's identifier or
file name is spliced into the string verbatim and can be read back from it.
`Wrappers` holds `Option`.

Behaviour of the code worth noting, all of it modelled as the code has it:

- A null or empty `email`/`id` returns the error body with no status, so
  Flask answers 200 (app.py:115-116). The route's own API description lists
  400 for "Not enough information" (app.py:106-107).
- A body with no `description` key raises `KeyError` at app.py:124. The read
  comes after validation and before `mail.send`, so the framework answers 500
  and no call is made. A JSON `null` description is sent and prints as `None`.
- The not-found answer of the image proxy is a plain Python string, which
  Flask serves as `text/html; charset=utf-8`.

## Model

| member | source | states |
|---|---|---|
| FilteredDonations.Supplied | app.py:67 | a query parameter constrains the result only when it is truthy: neither absent nor `""` |
| FilteredDonations.Passes | app.py:67-72 | a field passes one parameter when the parameter is not supplied or equals the field exactly |
| FilteredDonations.Matches | app.py:67-72 | a donation is kept when it passes all three tests that lead to `continue` |
| FilteredDonations.NoneSupplied | app.py:58-60 | none of the three query parameters is truthy |
| FilteredDonations.Filter | app.py:64-74 | the filtered list is never longer than the backend list |
| FilteredDonations.GetFilteredDonations | app.py:58-76 | the loop with its three `continue`s returns exactly `Filter` of the backend list under the three query parameters, with status 200 |
| FilteredDonations.FilterSnoc | app.py:66-74 | one more backend donation adds itself to the result exactly when it matches |
| FilteredDonations.FilterSubsequence | app.py:64-74 | the result is the input read at strictly increasing positions (backend order, no repetition), and a position is picked if and only if its donation matches |
| FilteredDonations.FilterSound | app.py:67-72 | every returned donation equals each supplied (non-null, non-empty) parameter in the corresponding field |
| FilteredDonations.FilterComplete | app.py:66-74 | every backend donation that matches all supplied parameters is returned |
| FilteredDonations.FilterCounts | app.py:64-74 | each record occurs in the result as often as in the input if it matches, and not at all otherwise |
| FilteredDonations.FilterNoCriteria | app.py:58-74 | with every parameter absent or `""` the result is the backend list itself |
| FilteredDonations.FilterIdempotent | app.py:64-76 | filtering the result again with the same parameters returns it unchanged |
| FilteredDonations.BogotaExample | app.py:66-74 | `city=Bogota` over a Bogota record and a Cali record keeps only the Bogota record |
| Notification.Truthy | app.py:115 | a present body member is truthy when it is a non-empty string; null and `""` are false |
| Notification.Proceeds | app.py:115-124 | the route gets past validation and the `description` read exactly when `email` and `id` are truthy and `description` is present |
| Notification.Text | app.py:122-124 | a string member is embedded in the mail as it is; a JSON null prints as `None` |
| Notification.Plan | app.py:118-133 | a complete run makes two calls: first the mail to `email` carrying `description`, then the update addressed to `id` |
| Notification.SendNotification | app.py:111-138 | attempted calls are always a prefix of the plan; missing `email`/`id` key gives 500 with no call; null/empty `email` or `id` gives the insufficient-information body with the default 200 and no call; missing `description` gives 500 with no call; the mail is attempted if and only if the body is complete; the PUT is attempted if and only if the mail did not raise; 400/delivery-failed if and only if the mail raised; update-failed (500, mail already sent) if and only if only the PUT raised; sent (200, both calls) if and only if neither raised, whatever HTTP status the PUT got |
| Notification.UpdatesTargetDistinctDonations | app.py:133 | two requests whose availability updates used the same address string carried the same `id` |
| ImageProxy.ProxyImage | app.py:142-148 | the read addresses the uploads prefix followed by the file name as it came; status is 200 or 404, and 200 exactly when the backend said 200; on 200 the bytes and `Content-Type` pass through unchanged; otherwise the body is exactly "Imagen no encontrada" with 404 |
| ImageProxy.ProxyImageRecoversContent | app.py:145-146 | a 200 answer determines the backend's content and content type |
| ImageProxy.ProxyImageCollapsesFailures | app.py:147-148 | any two non-200 backend replies give the same response, whatever file was asked for |
| Backend.ResourceUrl | app.py:133 | an address is its prefix followed by the caller's segment, which can be read back from it |
| Backend.AvailabilityUrl | app.py:133 | the update address is the donations prefix followed by the id verbatim |
| Backend.UploadUrl | app.py:142 | the upload address is the uploads prefix followed by the file name verbatim |
| Backend.ResourceUrlInjective | app.py:142 | distinct segments give distinct address strings |

## Left out

- Flask application set-up, routing, Swagger text, CORS, environment and mail
  configuration (app.py:1-28, 151-152): framework wiring.
- The HTTP calls and SMTP delivery (app.py:62, 128, 133, 143) are not
  performed. The backend list, the backend's image reply, and whether
  `mail.send` or `requests.put` raise are inputs.
- A backend list request that raises (backend unreachable, time-out), or a
  reply body that is not valid JSON (app.py:62): an uncaught exception that
  the framework answers with 500. The backend's HTTP status is never looked
  at, so a non-2xx reply with a JSON body is parsed like any other.
- A backend reply that is a JSON object, a string, or a list whose elements
  are not records, such as `{"error": "db"}`: the loop walks its keys,
  characters or elements. With no truthy parameter the tests at
  app.py:67-71 short-circuit and the route returns them with 200
  (`["error"]` here). With a truthy parameter, indexing them raises and the
  framework answers 500. A scalar reply (`null`, a number, a boolean) cannot
  be iterated: app.py:66 raises `TypeError`, and the framework answers 500.
  The model takes the parsed list of records as given.
- Donation records without a `category`, `city` or `condition` key, or with
  non-string values there: the model's `Donation` always has those three
  string fields. Other backend-defined fields are represented only by `id`.
- A request body that is not a JSON object, and values other than null or a
  string for any of `email`, `id` and `description`: the model's `Field` is
  missing, null or a string. Numbers, booleans, lists and objects have their
  own Python truthiness, and a non-string `description` is printed with
  Python's `str()` (`true` becomes "True").
- The subject, sender and fixed wording of the mail (app.py:119-122): only the
  recipient and the embedded description are recorded.
- ImageProxy.ProxyImage: a `requests.get` that raises (backend unreachable,
  time-out) gives a framework 500, not the 404 text (app.py:143). The model
  has no input for this case, so 200 and 404 are the answers to a backend
  that replied, not every answer of the route.
- ImageProxy.ProxyImage: a 200 reply without a `Content-Type` header raises
  `KeyError` in the source (a framework 500); the model's `Upstream` always
  carries a content type.
- What the HTTP client does with an address string is not modelled: it may
  quote characters, it sends only the path and query, so it splits at `?`
  and drops a `#fragment`. An id such as `"1#x"` therefore reaches the same
  path as `"1"`. The lemmas about addresses speak of address strings only.
- Bearer-token authentication and request metrics do not occur in `app.py`,
  so there is nothing of them to model.
