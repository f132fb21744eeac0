# Weather screen: presenter and refresh pipeline

A model of the single screen of a small Android weather client
(`MainActivity`). The screen shows the most recent weather response held in
one preference slot. A refresh checks that a location provider is on and that
the location permissions are granted, waits for a location fix, checks the
network, and enqueues one HTTP call. Only a successful response overwrites the
slot. The screen is then re-rendered from the slot.

The model has two parts.

- `Presenter` (presenter.dfy, with decimal.dfy): what `setupUI` writes,
  as pure functions of the stored record, the device settings it reads and
  the previous screen. This covers the 15-entry icon table with its "leave
  the image alone" default, the unit label, the `HH:mm` clock rendering and
  the `Int.toString` rendering of humidity. The loop over the conditions is
  a left fold, so the last condition wins.
- `Activity.MainActivity` (main_activity.dfy): a class holding the slot,
  the screen, the progress dialog, the swipe spinner, a log of user notices
  and a log of enqueued calls. Each platform callback is one method, and the
  outcome of each platform query is a parameter: providers on, permission
  report, fix, network available, response. `SetupUI` is the imperative loop
  and is proved to compute `Presenter.Present`.

The record shape (models.dfy) has only the fields the screen reads. It
mirrors `Sys` (country, sunrise, sunset) and `Wind` (speed), plus the
condition list, the `main` block and the place name. Temperatures and wind
speed are carried as the strings `Double.toString` gives for them.

Two consequences of the code as written are proved rather than assumed.

- The last condition's main and description are shown, not the first's.
- `getUnit` is given `locales.toString()`, which is a bracketed list such as
  `[en_US]`. That string is never `US`, `LR` or `MM`. So the label is `°C` on
  every device (`Presenter.TemperatureUnit`). The temperature number itself is
  never converted.

Further behaviour of the code that the model keeps:

- The code has no handler around deserialisation; the model treats
  serialisation as the identity.
- The progress dialog is dismissed only in `onResponse`, so it stays shown
  after `onFailure`.
- The swipe spinner is stopped only when location is on. The swipe layout
  delivers no further swipe while its spinner runs, so one swipe with
  location off disables pull-to-refresh for the rest of the activity
  (`OnSwipe` requires the spinner to be off).

## Model

| member | source | states |
|---|---|---|
| `Presenter.GetUnit` | app/src/main/java/com/comiccoder/weatherapp/activities/MainActivity.kt:263-269 | the label is `°F` exactly when the argument is one of the region codes US, LR, MM, and `°C` exactly for every other string |
| `Presenter.GetUnitExamples` | app/src/main/java/com/comiccoder/weatherapp/activities/MainActivity.kt:263-269 | US, LR and MM give `°F`; FR, `[en_US]` and the empty string give `°C` |
| `Presenter.LocaleListString` | app/src/main/java/com/comiccoder/weatherapp/activities/MainActivity.kt:247 | the rendered locale list starts with `[` and ends with `]` |
| `Presenter.TemperatureUnit` | app/src/main/java/com/comiccoder/weatherapp/activities/MainActivity.kt:245-248 | the unit label is `°C` on every device; from SDK N on, the string passed to `getUnit` is not a Fahrenheit region code |
| `Presenter.UnixTime` | app/src/main/java/com/comiccoder/weatherapp/activities/MainActivity.kt:271-276 | five characters `HH:mm`, HH in 00-23 and mm in 00-59, and the minute shown contains the local second of the day `(t + offset) mod 86400` |
| `Presenter.UnixTimeExamples` | app/src/main/java/com/comiccoder/weatherapp/activities/MainActivity.kt:271-276 | epoch 0 at offset 0 is `00:00`; epoch 3600 is `01:00` |
| `Presenter.IconTableExamples` | app/src/main/java/com/comiccoder/weatherapp/activities/MainActivity.kt:225-240 | 01d is sunny, 10d rain, 10n cloud, 11n rain, 01n cloud; 99x is not in the table |
| `Presenter.ConditionsLoopText` | app/src/main/java/com/comiccoder/weatherapp/activities/MainActivity.kt:220-224 | the loop changes only main, description and icon; main and description end up as the last condition's; an empty list changes nothing |
| `Presenter.ConditionsLoopIcon` | app/src/main/java/com/comiccoder/weatherapp/activities/MainActivity.kt:220-243 | the icon ends up as the table entry of the last condition whose code is in the table, or unchanged when no code is |
| `Presenter.PresentFields` | app/src/main/java/com/comiccoder/weatherapp/activities/MainActivity.kt:211-260 | an empty slot leaves the screen untouched; otherwise main and description are the last condition's, the icon is the table entry of the last condition in the table or unchanged, temperature is the number unchanged followed by `°C`, humidity is the numeral followed by `%`, min and max carry their suffixes, sunrise and sunset are clock readings, and speed, name and country are copied |
| `Presenter.HumidityExample` | app/src/main/java/com/comiccoder/weatherapp/activities/MainActivity.kt:254 | humidity 55 is shown as `55%` |
| `Decimal.NatToString` | app/src/main/java/com/comiccoder/weatherapp/activities/MainActivity.kt:254 | a non-empty string of digits, without a leading zero, whose decimal value is the number |
| `Decimal.IntToString` | app/src/main/java/com/comiccoder/weatherapp/activities/MainActivity.kt:254 | a minus sign exactly for negative numbers, then the digits of the magnitude, whose value is the magnitude |
| `Decimal.TwoDigits` | app/src/main/java/com/comiccoder/weatherapp/activities/MainActivity.kt:273 | a two-digit zero-padded field whose value is the number |
| `Activity.LocationEnabled` | app/src/main/java/com/comiccoder/weatherapp/activities/MainActivity.kt:150-157 | location counts as off exactly when both the GPS and the network provider are off |
| `Activity.MainActivity.constructor` | app/src/main/java/com/comiccoder/weatherapp/activities/MainActivity.kt:51-64 | the slot as persisted, the inflated layout, no dialog, no subscription, nothing enqueued; the invariant that a call in flight implies a created dialog holds |
| `Activity.MainActivity.SetupUI` | app/src/main/java/com/comiccoder/weatherapp/activities/MainActivity.kt:211-261 | the loop and the assignments leave the screen equal to `Present` of the slot and the old screen |
| `Activity.MainActivity.OnCreate` | app/src/main/java/com/comiccoder/weatherapp/activities/MainActivity.kt:56-71 | renders the slot; refreshes when GPS or network location is on, otherwise adds the "turn on location" notice; the slot and the enqueued calls do not change |
| `Activity.MainActivity.OnSwipe` | app/src/main/java/com/comiccoder/weatherapp/activities/MainActivity.kt:73-79 | a swipe arrives only while the spinner is off; refreshes only when location is on; the spinner stops exactly then and otherwise stays on; the slot and the screen do not change |
| `Activity.MainActivity.Refresh` | app/src/main/java/com/comiccoder/weatherapp/activities/MainActivity.kt:82-103 | subscribes for location only when all permissions are granted; shows the rationale dialog when asked to; otherwise does nothing |
| `Activity.MainActivity.ShowRationaleDialogForPermission` | app/src/main/java/com/comiccoder/weatherapp/activities/MainActivity.kt:159-175 | adds the "permission required" notice |
| `Activity.MainActivity.RequestLocationData` | app/src/main/java/com/comiccoder/weatherapp/activities/MainActivity.kt:177-186 | location updates are requested |
| `Activity.MainActivity.OnLocationResult` | app/src/main/java/com/comiccoder/weatherapp/activities/MainActivity.kt:188-195 | every fix delivered to the subscription goes on to the weather request |
| `Activity.MainActivity.GetLocationWeatherDetails` | app/src/main/java/com/comiccoder/weatherapp/activities/MainActivity.kt:105-148 | with a network, shows the dialog and enqueues one call for the fix; without one, only adds the "no internet" notice |
| `Activity.MainActivity.OnResponse` | app/src/main/java/com/comiccoder/weatherapp/activities/MainActivity.kt:119-137 | the slot becomes the body exactly on success and is unchanged otherwise; the screen is re-rendered from the slot in both cases; the dialog, which exists because a call is in flight, is dismissed |
| `Activity.MainActivity.OnFailure` | app/src/main/java/com/comiccoder/weatherapp/activities/MainActivity.kt:139-141 | only the call is retired; the slot, the screen and the dialog stay as they were |
| `Activity.MainActivity.ShowProgressDialog` | app/src/main/java/com/comiccoder/weatherapp/activities/MainActivity.kt:197-203 | the dialog exists and is showing |
| `Activity.MainActivity.HideProgressDialog` | app/src/main/java/com/comiccoder/weatherapp/activities/MainActivity.kt:205-209 | a dialog that exists is dismissed; a dialog never created stays absent |

## Left out

- Toasts, the rationale dialog and its settings deep link are reduced to a log of `Notice` values. The "Go to Settings" and "Cancel" buttons are not modelled.
- The permission library, the fused location client and the location manager are foreign, callback-driven code. Only their outcomes are modelled: which providers are on, the permission report, a fix. A `null` `lastLocation` (a crash at line 191) is not modelled.
- The location subscription is never removed. The model keeps this as a flag that stays set. Each later fix reaches `OnLocationResult` again. The resource it holds is not modelled.
- The HTTP call, the network check and the request parameters (unit and API key constants) are I/O. They are a `networkAvailable` flag, a log of the fixes requests were made for, and a `Response` or `OnFailure` outcome. `pending` counts calls still waiting for a callback; it has no counterpart in the code and only orders callbacks after calls.
- JSON serialisation is treated as the identity on records: the empty string is `None`, and any stored string is the record it encodes. A successful response with a `null` body, and fields that deserialise to `null`, are not modelled.
- `Double.toString` of temperatures and wind speed is floating-point formatting. These values are taken as already-rendered strings.
- The time zone is a fixed offset in seconds, with no daylight-saving rules. The offset is fixed for the activity's lifetime; a zone change while the screen is alive, which later renders would pick up, is not modelled.
- Presenter.UnixTime: does not model the 64-bit overflow of `timex * 1000L`, which only happens for instants more than about 292 million years from 1970.
- Presenter.GetUnit: does not model the `null` argument. Its only caller passes a non-null string.
- Each `Locale` in the device's list is taken as its already-rendered tag (such as `en_US`). Only the list's bracket-and-comma rendering is modelled.
- Logging (`Log.i`, `Log.e`) is left out.
