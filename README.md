# Lantern analytics client: a Dafny model

This project models the core of the `analytics` package from getlantern. The
package reports hits (page views, events and session starts) to Google
Analytics over the Measurement Protocol.

- A `Payload` object describes one hit.
- `collectArgs` turns the payload into a `url.Values` multimap of form
  parameters. It writes the protocol version, five optional fields (client
  version, tracking id, client id, screen resolution, language), the hostname
  and the hit type, and the event fields for an event hit. Last come the
  payload's non-empty custom variables. `url.Values.Add` appends, so a custom
  variable whose name is also a schema name adds its value after whatever the
  schema wrote under that name, if anything.
- `SendRequest` posts those parameters to the collection endpoint.
  `UIEvent` sends a payload as it is. `SessionEvent` first fills in the
  default tracking id when the payload has none, and always overwrites the
  client id with the default one.

The model has three modules:

- `Wrappers`: `Option` and `Result`.
- `UrlValues`: the `url.Values` multimap (`map<string, seq<string>>`), its
  `Add` and `Get`, and the facts about them the rest relies on.
- `Analytics`: the payload, the parameter mapper and the senders.

`Payload` is a class, because `SessionEvent` updates its fields in place. A
nil `*Event` is `None`.

The mapper is specified by an emission table. For every parameter name,
`StandardValues` gives the values the fixed schema writes and
`CustomValues` the value of the custom variable of that name; the ghost
function `Params` collects the names with a non-empty row. `CollectArgs`
builds the multimap imperatively, section by section, and a `while` loop
visits the custom variables in an unspecified order (each step picks any
name not yet visited). Its postcondition is that the result equals `Params`
whatever order was taken. The properties are then lemmas about `Params`.

The HTTP client is a parameter: a function from a request to a response or
a transport error.

## Model

| member | source | states |
|---|---|---|
| UrlValues.Add | src/github.com/getlantern/analytics/analytics.go:76 | adding appends the value after those already under the key; a multimap with no empty entry keeps that shape |
| UrlValues.AddKeepsOtherKeys | src/github.com/getlantern/analytics/analytics.go:76-112 | adding under one key leaves the values and the presence of every other key unchanged |
| UrlValues.SameValuesSameMultimap | src/github.com/getlantern/analytics/analytics.go:73 | two multimaps without empty entries that agree on every key's values are equal |
| Analytics.Payload.constructor | src/github.com/getlantern/analytics/analytics.go:45-69 | a new payload holds exactly the twelve field values given |
| Analytics.SectionRow | src/github.com/getlantern/analytics/analytics.go:75-106 | each schema name is written by exactly one section (default, hit or event), so its row is that section's row; any other name gets nothing from the schema |
| Analytics.Params | src/github.com/getlantern/analytics/analytics.go:72-115 | the parameter multimap holds under each name exactly the schema's values followed by the custom variable's, and has no empty entry |
| Analytics.AddIfNonEmpty | src/github.com/getlantern/analytics/analytics.go:77-91 | a value is appended under the key exactly when it is non-empty; every other key is untouched |
| Analytics.DefaultParams | src/github.com/getlantern/analytics/analytics.go:73-91 | the fresh multimap holds `v` = "1" and `_v`, `tid`, `cid`, `sr`, `ul` each with its field value exactly when that field is non-empty, and nothing else |
| Analytics.AddHitParams | src/github.com/getlantern/analytics/analytics.go:93-95 | `dh` and `t` are appended with the hostname and hit type, even when empty; no other key changes |
| Analytics.AddEventParams | src/github.com/getlantern/analytics/analytics.go:97-106 | for an event hit with an event, category and action are appended, label and value only when non-empty; otherwise nothing changes |
| Analytics.AddCustomVars | src/github.com/getlantern/analytics/analytics.go:108-112 | whatever order the custom variables are visited in, each non-empty one is appended under its own name and empty ones are skipped; nothing else changes |
| Analytics.CollectArgs | src/github.com/getlantern/analytics/analytics.go:72-115 | the multimap built equals the emission table `Params` of the payload |
| Analytics.InParams | src/github.com/getlantern/analytics/analytics.go:72-115 | a name is present exactly when its table row is non-empty, and then holds that row |
| Analytics.SchemaOnly | src/github.com/getlantern/analytics/analytics.go:76-106 | when no custom variable of that very name has a non-empty value, a name is present exactly when its schema row is non-empty, and then holds that row |
| Analytics.ProtocolVersionAlwaysSent | src/github.com/getlantern/analytics/analytics.go:13 | `v` is always present and its first value is the protocol version "1" |
| Analytics.OptionalFieldsSentIffNonEmpty | src/github.com/getlantern/analytics/analytics.go:77-91 | for each name separately, unless a non-empty custom variable of that same name exists, `_v`, `tid`, `cid`, `sr`, `ul` are present exactly when their field is non-empty, and then hold exactly that field value |
| Analytics.IdsSentFirst | src/github.com/getlantern/analytics/analytics.go:80-85 | a non-empty tracking id and client id are always sent, each as the first value under `tid` and `cid`, whatever the custom variables add |
| Analytics.HostnameAndHitTypeAlwaysSent | src/github.com/getlantern/analytics/analytics.go:93-95 | `dh` and `t` are always present, with the hostname and hit type (possibly empty) first |
| Analytics.EventParamsIffEventHit | src/github.com/getlantern/analytics/analytics.go:97-105 | for each name separately, unless a non-empty custom variable of that same name exists, `ec` and `ea` are present exactly for an event hit carrying an event, `el` and `ev` exactly when in addition the label or value is non-empty; each holds exactly its field value |
| Analytics.EventRows | src/github.com/getlantern/analytics/analytics.go:97-106 | the schema writes category and action under `ec`/`ea` and the non-empty label and value under `el`/`ev` for an event hit carrying an event, and nothing under those names otherwise |
| Analytics.NoEventParamsWithoutEvent | src/github.com/getlantern/analytics/analytics.go:97 | for a non-event hit or a missing event, `ec`, `ea`, `el`, `ev` hold only what custom variables of those names add |
| Analytics.CustomVarAppended | src/github.com/getlantern/analytics/analytics.go:108-112 | a non-empty custom variable's value is appended after the schema's values under its name, which are kept; an empty one adds nothing |
| Analytics.OnlyKnownNamesSent | src/github.com/getlantern/analytics/analytics.go:72-115 | every name sent is a schema name or the name of a non-empty custom variable |
| Analytics.IgnoredFieldsNeverSent | src/github.com/getlantern/analytics/analytics.go:50-66 | two payloads differing only in viewport size, screen colours or user agent give the same parameters |
| Analytics.MinimalPageView | src/github.com/getlantern/analytics/analytics.go:72-115 | a bare page view with only a hostname gives exactly `v`=1, `dh`, `t`=pageview |
| Analytics.RequestHeadersCarryUserAgent | src/github.com/getlantern/analytics/analytics.go:127-130 | the request always carries the form content type, and carries a user agent exactly when the payload has a non-empty one, verbatim |
| Analytics.SendRequest | src/github.com/getlantern/analytics/analytics.go:118-146 | the payload's parameters are posted with the content type and user-agent headers through the supplied client, or the default one when none is supplied; any response is success with no error, a transport failure is failure with that error |
| Analytics.UIEvent | src/github.com/getlantern/analytics/analytics.go:149-151 | sends the payload unchanged, with the same outcome as `SendRequest` |
| Analytics.SessionEvent | src/github.com/getlantern/analytics/analytics.go:154-161 | sets the tracking id to "UA-21815217-2" only when it was empty, always sets the client id to "555", leaves every other field unchanged, and sends the updated payload, so `tid` and `cid` carry those values |

## Left out

- The HTTP work itself (`http.NewRequest`, `httpClient.Do`, closing the response body) is network I/O. The client becomes a function parameter, and the shared `defaultHttpClient` is a second parameter. Only the request handed to the client and how its outcome is reported are modelled.
- Analytics.SendRequest: the error from `http.NewRequest` is not modelled. With the constant endpoint and an in-memory body it cannot fail. If it did, the source would dereference a nil request before checking the error.
- `vals.Encode()` and `bytes.NewBufferString` (percent-encoding and key sorting in Go's `net/url`) are not modelled. The request's form is the parameter multimap before encoding.
- Logging through `golog` is observational and is not modelled.
- Go's map iteration order over the custom variables is nondeterministic. The loop picks an arbitrary unvisited name, and every property is stated per key, independently of order.
- The unused `PageView` struct and the JSON struct tags have no effect on the mapper and are not modelled.
- Analytics.OptionalFieldsSentIffNonEmpty and Analytics.EventParamsIffEventHit state each name's rule only when no non-empty custom variable has that same name. When one does, its value is appended after the schema's value, or stands alone where the schema wrote nothing, as Analytics.CustomVarAppended states.
- A nil `*Payload` is not modelled. The Go code panics on one when `collectArgs` reads the client version (analytics.go:77) and when `SessionEvent` reads the tracking id (analytics.go:156). In the model a `Payload` reference is never null, so that panic is excluded.
